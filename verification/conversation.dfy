/**
 * The Responses-API conversation run by `Prompt.openai` in
 * app/ai_processor.py: the request contents, the tool-calling loop over an
 * append-only history, and the extraction of the final answer, the last
 * `output_text` item and the code-interpreter files.
 *
 * The provider is a function from a request to a response (or to the text
 * of the exception the SDK raises), and `json.loads` of a call's arguments
 * is a function as well. The loop of the source has no bound: here it runs
 * for at most `fuel` rounds of tool calls and reports `OutOfFuel` beyond.
 */
module Conversation {
  import opened Wrappers
  import Template
  import opened ToolRegistry

  // ---------------------------------------------------------------------
  // What the provider sends and receives
  // ---------------------------------------------------------------------

  datatype Annotation =
    | ContainerFileCitation(fileId: string, containerId: string, filename: string)
    | OtherAnnotation(kind: string)

  datatype ContentItem =
    | OutputText(text: string, annotations: seq<Annotation>)
    | OtherContent(kind: string)

  /** One item of `response.output`. */
  datatype OutputItem =
    | FunctionCall(name: string, arguments: string, callId: string)
    | MessageOutput(content: seq<ContentItem>)
    | OtherOutput(kind: string)

  /** A response: its id, its output items, and the two places a container
    * id may appear (`response.container_id`, `response.container.id`). */
  datatype Response = Response(id: string, output: seq<OutputItem>,
                               containerId: Option<string>, containerObjectId: Option<string>)

  datatype InputPart = InputText(text: string) | InputFile(fileId: string)

  /** One entry of `input_messages`. */
  datatype Message =
    | DeveloperMessage(content: string)
    | UserMessage(parts: seq<InputPart>)
    | EchoedItem(item: OutputItem)
    | FunctionCallOutput(callId: string, output: string)

  datatype TextFormat = PlainText | JsonSchemaFormat(name: string, schema: Json)

  datatype Request = Request(instructions: string, model: string, input: seq<Message>,
                             format: TextFormat, tools: seq<ToolSchema>,
                             previousResponseId: Option<string>, maxOutputTokens: nat)

  /** One entry of `output_files`. */
  datatype OutputFile = OutputFile(fileId: string, containerId: string, filename: string)

  /** The network side: `client.responses.create` and `json.loads` of the
    * arguments of a function call (which fails on text that is not a JSON
    * object, as the request model of the call refuses anything else). */
  datatype Provider = Provider(create: Request -> Result<Response, string>,
                               parseArguments: string -> Result<map<string, Json>, string>)

  /** What stays the same in every request of one run. */
  datatype RequestConfig = RequestConfig(instructions: string, model: string,
                                         format: TextFormat, tools: seq<ToolSchema>)

  // ---------------------------------------------------------------------
  // Request contents (app/ai_processor.py:301-333)
  // ---------------------------------------------------------------------

  /** The user content: the prompt text, then one file part per attached file. */
  function UserParts(prompt: string, fileIds: seq<string>): (parts: seq<InputPart>)
    ensures |parts| == |fileIds| + 1 && parts[0] == InputText(prompt)
    ensures forall k :: 0 <= k < |fileIds| ==> parts[k + 1] == InputFile(fileIds[k])
  {
    if fileIds == [] then [InputText(prompt)]
    else
      var init := UserParts(prompt, fileIds[..|fileIds| - 1]);
      assert forall k :: 0 <= k < |fileIds| - 1 ==> fileIds[..|fileIds| - 1][k] == fileIds[k];
      init + [InputFile(fileIds[|fileIds| - 1])]
  }

  function DateMessage(today: string): Message {
    DeveloperMessage("Today's date is " + today)
  }

  /** The first `input_messages`: the date, then the user content. */
  function InitialHistory(today: string, prompt: string, fileIds: seq<string>): seq<Message> {
    [DateMessage(today), UserMessage(UserParts(prompt, fileIds))]
  }

  /** The content list of the user message, built as the source builds it. */
  method BuildUserContent(prompt: string, fileIds: seq<string>) returns (parts: seq<InputPart>)
    ensures parts == UserParts(prompt, fileIds)
  {
    parts := [InputText(prompt)];
    var i := 0;
    while i < |fileIds|
      invariant 0 <= i <= |fileIds|
      invariant parts == UserParts(prompt, fileIds[..i])
    {
      assert fileIds[..i + 1][..i] == fileIds[..i];
      parts := parts + [InputFile(fileIds[i])];
      i := i + 1;
    }
    assert fileIds[..i] == fileIds;
  }

  predicate IsCodeInterpreter(t: ToolSchema) {
    t.BuiltinTool? && t.kind == "code_interpreter"
  }

  /** The request's copy of one stored schema: a code interpreter gains an
    * automatic container listing the attached files (no list when there are
    * none); every other schema is copied as it is. */
  function WithContainer(t: ToolSchema, fileIds: seq<string>): (r: ToolSchema)
    ensures !IsCodeInterpreter(t) ==> r == t
    ensures IsCodeInterpreter(t) ==> IsCodeInterpreter(r)
    ensures IsCodeInterpreter(t) ==> r.container == Some(AutoContainer(if fileIds == [] then None else Some(fileIds)))
  {
    if IsCodeInterpreter(t) then t.(container := Some(AutoContainer(if fileIds == [] then None else Some(fileIds))))
    else t
  }

  /** The tool list of every request of a run: a copy of each stored schema. */
  function RequestToolsOf(stored: seq<ToolSchema>, fileIds: seq<string>): (tools: seq<ToolSchema>)
    ensures |tools| == |stored|
    ensures forall k :: 0 <= k < |stored| ==> tools[k] == WithContainer(stored[k], fileIds)
  {
    seq(|stored|, k requires 0 <= k < |stored| => WithContainer(stored[k], fileIds))
  }

  /** `[dict(t) for t in self.tool_schemas]` followed by the container loop. */
  method RequestTools(stored: seq<ToolSchema>, fileIds: seq<string>) returns (tools: seq<ToolSchema>)
    ensures tools == RequestToolsOf(stored, fileIds)
  {
    tools := [];
    var i := 0;
    while i < |stored|
      invariant 0 <= i <= |stored|
      invariant |tools| == i
      invariant forall k :: 0 <= k < i ==> tools[k] == WithContainer(stored[k], fileIds)
    {
      tools := tools + [WithContainer(stored[i], fileIds)];
      i := i + 1;
    }
  }

  /** Only code interpreters change in a request's tool list; the other
    * schemas go out exactly as stored. */
  lemma {:induction false} OnlyCodeInterpreterChanges(stored: seq<ToolSchema>, fileIds: seq<string>, k: nat)
    requires k < |stored|
    ensures RequestToolsOf(stored, fileIds)[k] == stored[k] <==>
              (!IsCodeInterpreter(stored[k]) || stored[k].container == Some(AutoContainer(if fileIds == [] then None else Some(fileIds))))
  {
  }

  /** `text.format` of every request: a JSON schema named "response" when
    * the prompt has a response class, plain text otherwise. */
  function Format(schema: Option<Json>): (f: TextFormat)
    ensures schema.None? <==> f == PlainText
    ensures schema.Some? ==> f == JsonSchemaFormat("response", schema.value)
  {
    if schema.Some? then JsonSchemaFormat("response", schema.value) else PlainText
  }

  function MakeRequest(cfg: RequestConfig, input: seq<Message>, previous: Option<string>): (q: Request)
    ensures q.input == input && q.previousResponseId == previous
    ensures q.maxOutputTokens == Template.MaxOutputTokens(cfg.model)
  {
    Request(cfg.instructions, cfg.model, input, cfg.format, cfg.tools, previous, Template.MaxOutputTokens(cfg.model))
  }

  /** `getattr(response, "container_id", None) or response.container.id`. */
  function ContainerOf(r: Response): (c: Option<string>)
    ensures r.containerId.Some? && r.containerId.value != "" ==> c == r.containerId
    ensures !(r.containerId.Some? && r.containerId.value != "") ==> c == r.containerObjectId
  {
    if r.containerId.Some? && r.containerId.value != "" then r.containerId else r.containerObjectId
  }

  // ---------------------------------------------------------------------
  // One round of tool calls (app/ai_processor.py:343-358)
  // ---------------------------------------------------------------------

  predicate HasFunctionCall(items: seq<OutputItem>) {
    exists k :: 0 <= k < |items| && items[k].FunctionCall?
  }

  function CallCount(items: seq<OutputItem>): nat {
    if items == [] then 0 else (if items[0].FunctionCall? then 1 else 0) + CallCount(items[1..])
  }

  /** The reference shape of a round: every item echoed in order, and each
    * function call followed by its output under the same call id. */
  function Interleave(items: seq<OutputItem>, outputs: seq<string>): seq<Message>
    requires |outputs| == CallCount(items)
  {
    if items == [] then []
    else if items[0].FunctionCall? then
      [EchoedItem(items[0]), FunctionCallOutput(items[0].callId, outputs[0])] + Interleave(items[1..], outputs[1..])
    else [EchoedItem(items[0])] + Interleave(items[1..], outputs)
  }

  /** The outcome of a round: the extended history and the outputs of the
    * calls, or the text of the exception that ended the run. */
  datatype Dispatched = Dispatched(result: Result<seq<Message>, string>, outputs: seq<string>,
                                   tools: map<string, ToolEntry>)

  /** The `for tool_call in response.output` loop from history `hist`, with
    * `outputs` the results of the calls already made. A call runs the tool
    * in call mode without a user; its failure, or arguments that do not
    * parse, end the run. */
  function Dispatch(items: seq<OutputItem>, hist: seq<Message>, outputs: seq<string>,
                    reg: map<string, ToolEntry>, p: Provider, env: Env): (d: Dispatched)
    ensures d.tools.Keys == reg.Keys
    decreases |items|
  {
    if items == [] then Dispatched(Success(hist), outputs, reg)
    else
      var item := items[0];
      if item.FunctionCall? then
        match p.parseArguments(item.arguments)
        case Failure(e) => Dispatched(Failure(e), outputs, reg)
        case Success(params) =>
          var h := Handle(reg, item.name, params, None, false, env);
          if h.result.Failure? then Dispatched(Failure(h.result.error.Message()), outputs, h.tools)
          else
            var out := h.result.value.output;
            Dispatch(items[1..], hist + [EchoedItem(item), FunctionCallOutput(item.callId, out)],
                     outputs + [out], h.tools, p, env)
      else Dispatch(items[1..], hist + [EchoedItem(item)], outputs, reg, p, env)
  }

  /** The `for tool_call in response.output` loop itself. */
  method RunRound(items: seq<OutputItem>, hist: seq<Message>, registry: Registry, p: Provider, env: Env)
    returns (r: Result<seq<Message>, string>)
    modifies registry
    ensures var d := Dispatch(items, hist, [], old(registry.tools), p, env);
            r == d.result && registry.tools == d.tools
  {
    var history := hist;
    var outputs: seq<string> := [];
    var i := 0;
    while i < |items|
      invariant 0 <= i <= |items|
      invariant Dispatch(items[i..], history, outputs, registry.tools, p, env)
                == Dispatch(items, hist, [], old(registry.tools), p, env)
    {
      assert items[i..][1..] == items[i + 1..];
      var item := items[i];
      if item.FunctionCall? {
        var params := p.parseArguments(item.arguments);
        if params.Failure? {
          return Failure(params.error);
        }
        var out := registry.HandleOpenAIFunction(item.name, params.value, None, false, env);
        if out.Failure? {
          return Failure(out.error.Message());
        }
        history := history + [EchoedItem(item), FunctionCallOutput(item.callId, out.value.output)];
        outputs := outputs + [out.value.output];
      } else {
        history := history + [EchoedItem(item)];
      }
      i := i + 1;
    }
    assert items[i..] == [];
    r := Success(history);
  }

  /** A successful round appends exactly the reference shape to the history,
    * with one output per function call. */
  lemma {:induction false} DispatchAppends(items: seq<OutputItem>, hist: seq<Message>, outputs: seq<string>,
                                           reg: map<string, ToolEntry>, p: Provider, env: Env)
    ensures var d := Dispatch(items, hist, outputs, reg, p, env);
            d.result.Success? ==>
              && |outputs| <= |d.outputs| && d.outputs[..|outputs|] == outputs
              && |d.outputs| - |outputs| == CallCount(items)
              && d.result.value == hist + Interleave(items, d.outputs[|outputs|..])
    decreases |items|
  {
    var d := Dispatch(items, hist, outputs, reg, p, env);
    if items != [] && d.result.Success? {
      var item := items[0];
      if item.FunctionCall? {
        var h := Handle(reg, item.name, p.parseArguments(item.arguments).value, None, false, env);
        var out := h.result.value.output;
        var hist' := hist + [EchoedItem(item), FunctionCallOutput(item.callId, out)];
        DispatchAppends(items[1..], hist', outputs + [out], h.tools, p, env);
        SliceStep(outputs, out, d.outputs);
        CallShape(hist, items, out, d.outputs[|outputs| + 1..]);
      } else {
        DispatchAppends(items[1..], hist + [EchoedItem(item)], outputs, reg, p, env);
        EchoShape(hist, items, d.outputs[|outputs|..]);
      }
    }
  }

  lemma {:induction false} SliceStep(outputs: seq<string>, out: string, all: seq<string>)
    requires |outputs| + 1 <= |all| && all[..|outputs| + 1] == outputs + [out]
    ensures all[..|outputs|] == outputs
    ensures all[|outputs|..] == [out] + all[|outputs| + 1..]
  {
    assert all[..|outputs|] == all[..|outputs| + 1][..|outputs|];
    assert all[|outputs|] == out;
  }

  lemma {:induction false} CallShape(hist: seq<Message>, items: seq<OutputItem>, out: string, tail: seq<string>)
    requires items != [] && items[0].FunctionCall? && |tail| == CallCount(items[1..])
    ensures |[out] + tail| == CallCount(items)
    ensures hist + [EchoedItem(items[0]), FunctionCallOutput(items[0].callId, out)] + Interleave(items[1..], tail)
            == hist + Interleave(items, [out] + tail)
  {
    assert ([out] + tail)[1..] == tail;
  }

  lemma {:induction false} EchoShape(hist: seq<Message>, items: seq<OutputItem>, outs: seq<string>)
    requires items != [] && !items[0].FunctionCall? && |outs| == CallCount(items[1..])
    ensures |outs| == CallCount(items)
    ensures hist + [EchoedItem(items[0])] + Interleave(items[1..], outs) == hist + Interleave(items, outs)
  {
  }

  /** The items a history passes through, in order. */
  function Echoes(m: seq<Message>): seq<OutputItem> {
    if m == [] then []
    else (if m[0].EchoedItem? then [m[0].item] else []) + Echoes(m[1..])
  }

  /** A sequence of echoed items in which every function call is followed
    * at once by an output with its call id, and no other output occurs. */
  predicate Paired(m: seq<Message>)
    decreases |m|
  {
    if m == [] then true
    else if m[0].EchoedItem? && m[0].item.FunctionCall? then
      |m| >= 2 && m[1].FunctionCallOutput? && m[1].callId == m[0].item.callId && Paired(m[2..])
    else m[0].EchoedItem? && Paired(m[1..])
  }

  /** The reference shape passes every item through in order and answers
    * every call under its own id. */
  lemma {:induction false} InterleaveShape(items: seq<OutputItem>, outputs: seq<string>)
    requires |outputs| == CallCount(items)
    ensures Echoes(Interleave(items, outputs)) == items
    ensures Paired(Interleave(items, outputs))
    ensures |Interleave(items, outputs)| == |items| + CallCount(items)
  {
    if items != [] {
      var m := Interleave(items, outputs);
      if items[0].FunctionCall? {
        var rest := Interleave(items[1..], outputs[1..]);
        InterleaveShape(items[1..], outputs[1..]);
        assert m[2..] == rest;
        assert m[1..][1..] == rest;
      } else {
        var rest := Interleave(items[1..], outputs);
        InterleaveShape(items[1..], outputs);
        assert m[1..] == rest;
      }
    }
  }

  // ---------------------------------------------------------------------
  // The loop (app/ai_processor.py:342-372)
  // ---------------------------------------------------------------------

  datatype Outcome =
    | Finished(last: Response, history: seq<Message>, rounds: nat)
    | Failed(message: string)
    | OutOfFuel

  datatype Conversed = Conversed(outcome: Outcome, tools: map<string, ToolEntry>)

  /** The loop from response `resp` with history `hist`, after `rounds`
    * rounds: while the latest response has a function call, run a round and
    * query again (without a previous response id) with the grown history. */
  function Converse(fuel: nat, resp: Response, hist: seq<Message>, rounds: nat,
                    reg: map<string, ToolEntry>, cfg: RequestConfig, p: Provider, env: Env): (c: Conversed)
    ensures c.tools.Keys == reg.Keys
    decreases fuel
  {
    if !HasFunctionCall(resp.output) then Conversed(Finished(resp, hist, rounds), reg)
    else if fuel == 0 then Conversed(OutOfFuel, reg)
    else
      var d := Dispatch(resp.output, hist, [], reg, p, env);
      if d.result.Failure? then Conversed(Failed(d.result.error), d.tools)
      else
        match p.create(MakeRequest(cfg, d.result.value, None))
        case Failure(e) => Conversed(Failed(e), d.tools)
        case Success(next) => Converse(fuel - 1, next, d.result.value, rounds + 1, d.tools, cfg, p, env)
  }

  /** The loop ends only on a response without function calls, and the
    * history it ends with extends the one it started from. */
  lemma {:induction false} ConverseEnds(fuel: nat, resp: Response, hist: seq<Message>, rounds: nat,
                                        reg: map<string, ToolEntry>, cfg: RequestConfig, p: Provider, env: Env)
    ensures var c := Converse(fuel, resp, hist, rounds, reg, cfg, p, env);
            c.outcome.Finished? ==>
              && !HasFunctionCall(c.outcome.last.output)
              && |hist| <= |c.outcome.history| && c.outcome.history[..|hist|] == hist
              && rounds <= c.outcome.rounds
    decreases fuel
  {
    if HasFunctionCall(resp.output) && fuel > 0 {
      var d := Dispatch(resp.output, hist, [], reg, p, env);
      if d.result.Success? {
        DispatchAppends(resp.output, hist, [], reg, p, env);
        var h := d.result.value;
        assert h[..|hist|] == hist;
        match p.create(MakeRequest(cfg, h, None))
        case Failure(_) =>
        case Success(next) =>
          ConverseEnds(fuel - 1, next, h, rounds + 1, d.tools, cfg, p, env);
          var c := Converse(fuel - 1, next, h, rounds + 1, d.tools, cfg, p, env);
          if c.outcome.Finished? {
            assert c.outcome.history[..|hist|] == c.outcome.history[..|h|][..|hist|];
          }
      }
    }
  }

  /** A response without function calls ends the loop at once: no tool runs,
    * no further request is made and the history is unchanged. */
  lemma {:induction false} NoCallsNoRound(fuel: nat, resp: Response, hist: seq<Message>, rounds: nat,
                       reg: map<string, ToolEntry>, cfg: RequestConfig, p: Provider, env: Env)
    requires forall k :: 0 <= k < |resp.output| ==> !resp.output[k].FunctionCall?
    ensures Converse(fuel, resp, hist, rounds, reg, cfg, p, env) == Conversed(Finished(resp, hist, rounds), reg)
  {
    assert !HasFunctionCall(resp.output);
  }

  /** One round: a response with calls whose tools succeed and a follow-up
    * without calls finish after exactly one more request, whose input is the
    * history extended by the reference shape of the round. */
  lemma {:induction false} OneRound(fuel: nat, resp: Response, next: Response, hist: seq<Message>,
                 reg: map<string, ToolEntry>, cfg: RequestConfig, p: Provider, env: Env)
    requires fuel > 0 && HasFunctionCall(resp.output)
    requires Dispatch(resp.output, hist, [], reg, p, env).result.Success?
    requires p.create(MakeRequest(cfg, Dispatch(resp.output, hist, [], reg, p, env).result.value, None)) == Success(next)
    requires !HasFunctionCall(next.output)
    ensures var d := Dispatch(resp.output, hist, [], reg, p, env);
            && |d.outputs| == CallCount(resp.output)
            && Converse(fuel, resp, hist, 0, reg, cfg, p, env) ==
                 Conversed(Finished(next, hist + Interleave(resp.output, d.outputs), 1), d.tools)
  {
    DispatchAppends(resp.output, hist, [], reg, p, env);
    var d := Dispatch(resp.output, hist, [], reg, p, env);
    assert d.outputs[0..] == d.outputs;
  }

  // ---------------------------------------------------------------------
  // Extraction (app/ai_processor.py:373-393)
  // ---------------------------------------------------------------------

  function CitedFiles(anns: seq<Annotation>): seq<OutputFile> {
    if anns == [] then []
    else
      (if anns[0].ContainerFileCitation? then [OutputFile(anns[0].fileId, anns[0].containerId, anns[0].filename)] else [])
      + CitedFiles(anns[1..])
  }

  function ContentFiles(content: seq<ContentItem>): seq<OutputFile> {
    if content == [] then []
    else (if content[0].OutputText? then CitedFiles(content[0].annotations) else []) + ContentFiles(content[1..])
  }

  /** `output_files`: every container-file citation of every `output_text`
    * item of every message, in response order. */
  function OutputFiles(items: seq<OutputItem>): seq<OutputFile> {
    if items == [] then []
    else (if items[0].MessageOutput? then ContentFiles(items[0].content) else []) + OutputFiles(items[1..])
  }

  /** The citations are collected item by item: the files of a response
    * split in two are the files of the first part, then of the second. */
  lemma {:induction false} OutputFilesAppend(a: seq<OutputItem>, b: seq<OutputItem>)
    ensures OutputFiles(a + b) == OutputFiles(a) + OutputFiles(b)
  {
    if a != [] {
      assert (a + b)[1..] == a[1..] + b;
      OutputFilesAppend(a[1..], b);
    } else {
      assert a + b == b;
    }
  }

  lemma {:induction false} CitedFilesAppend(a: seq<Annotation>, b: seq<Annotation>)
    ensures CitedFiles(a + b) == CitedFiles(a) + CitedFiles(b)
  {
    if a != [] {
      assert (a + b)[1..] == a[1..] + b;
      CitedFilesAppend(a[1..], b);
    } else {
      assert a + b == b;
    }
  }

  lemma {:induction false} ContentFilesAppend(a: seq<ContentItem>, b: seq<ContentItem>)
    ensures ContentFiles(a + b) == ContentFiles(a) + ContentFiles(b)
  {
    if a != [] {
      assert (a + b)[1..] == a[1..] + b;
      ContentFilesAppend(a[1..], b);
    } else {
      assert a + b == b;
    }
  }

  /** A message whose only content is one `output_text` item contributes
    * exactly its container-file citations, in order and nothing else. */
  lemma {:induction false} CitationCount(anns: seq<Annotation>)
    ensures |CitedFiles(anns)| <= |anns|
    ensures (forall k :: 0 <= k < |anns| ==> anns[k].ContainerFileCitation?) ==> |CitedFiles(anns)| == |anns|
    ensures (forall k :: 0 <= k < |anns| ==> !anns[k].ContainerFileCitation?) ==> CitedFiles(anns) == []
  {
    if anns != [] {
      CitationCount(anns[1..]);
      assert forall k :: 0 <= k < |anns[1..]| ==> anns[1..][k] == anns[k + 1];
    }
  }

  /** The `output_text` items of a message's content, in order. */
  function TextContents(content: seq<ContentItem>): (ts: seq<ContentItem>)
    ensures forall k :: 0 <= k < |ts| ==> ts[k].OutputText?
  {
    if content == [] then []
    else (if content[0].OutputText? then [content[0]] else []) + TextContents(content[1..])
  }

  /** The `output_text` items of the messages, in response order. */
  function TextItems(items: seq<OutputItem>): (ts: seq<ContentItem>)
    ensures forall k :: 0 <= k < |ts| ==> ts[k].OutputText?
  {
    if items == [] then []
    else (if items[0].MessageOutput? then TextContents(items[0].content) else []) + TextItems(items[1..])
  }

  function Last<T>(s: seq<T>): (r: Option<T>)
    ensures r.None? <==> s == []
  {
    if s == [] then None else Some(s[|s| - 1])
  }

  /** `text_response_object`: the last `output_text` item, if any. */
  function LastTextItem(items: seq<OutputItem>): (t: Option<ContentItem>)
    ensures t.None? <==> TextItems(items) == []
    ensures t.Some? ==> t.value.OutputText? && t.value in TextItems(items)
  {
    Last(TextItems(items))
  }

  lemma {:induction false} TextItemsAppend(a: seq<OutputItem>, b: seq<OutputItem>)
    ensures TextItems(a + b) == TextItems(a) + TextItems(b)
  {
    if a != [] {
      assert (a + b)[1..] == a[1..] + b;
      TextItemsAppend(a[1..], b);
    } else {
      assert a + b == b;
    }
  }

  lemma {:induction false} TextContentsAppend(a: seq<ContentItem>, b: seq<ContentItem>)
    ensures TextContents(a + b) == TextContents(a) + TextContents(b)
  {
    if a != [] {
      assert (a + b)[1..] == a[1..] + b;
      TextContentsAppend(a[1..], b);
    } else {
      assert a + b == b;
    }
  }

  lemma {:induction false} LastAppend<T>(a: seq<T>, b: seq<T>)
    ensures Last(a + b) == if b == [] then Last(a) else Last(b)
  {
    if b == [] {
      assert a + b == a;
    }
  }

  /** A later `output_text` item replaces an earlier one: the text object of
    * a response split in two comes from the second part when it has one. */
  lemma {:induction false} LaterTextWins(a: seq<OutputItem>, b: seq<OutputItem>)
    ensures LastTextItem(a + b) == if TextItems(b) == [] then LastTextItem(a) else LastTextItem(b)
  {
    TextItemsAppend(a, b);
    LastAppend(TextItems(a), TextItems(b));
  }

  /** The nested loops that fill `text_response_object` and `output_files`. */
  method ExtractOutputs(items: seq<OutputItem>) returns (text: Option<ContentItem>, files: seq<OutputFile>)
    ensures text == LastTextItem(items)
    ensures files == OutputFiles(items)
  {
    text := None;
    files := [];
    var i := 0;
    while i < |items|
      invariant 0 <= i <= |items|
      invariant text == LastTextItem(items[..i])
      invariant files == OutputFiles(items[..i])
    {
      assert items[..i + 1] == items[..i] + [items[i]];
      OutputFilesAppend(items[..i], [items[i]]);
      LaterTextWins(items[..i], [items[i]]);
      assert [items[i]][1..] == [];
      if items[i].MessageOutput? {
        var last, found := ExtractContent(items[i].content);
        if last.Some? {
          text := last;
        }
        files := files + found;
      }
      i := i + 1;
    }
    assert items[..i] == items;
  }

  /** The loop over the content of one message. */
  method ExtractContent(content: seq<ContentItem>) returns (text: Option<ContentItem>, files: seq<OutputFile>)
    ensures text == Last(TextContents(content))
    ensures files == ContentFiles(content)
  {
    text := None;
    files := [];
    var j := 0;
    while j < |content|
      invariant 0 <= j <= |content|
      invariant text == Last(TextContents(content[..j]))
      invariant files == ContentFiles(content[..j])
    {
      assert content[..j + 1] == content[..j] + [content[j]];
      ContentFilesAppend(content[..j], [content[j]]);
      TextContentsAppend(content[..j], [content[j]]);
      LastAppend(TextContents(content[..j]), TextContents([content[j]]));
      assert [content[j]][1..] == [];
      if content[j].OutputText? {
        text := Some(content[j]);
        var found := CollectCitedFiles(content[j].annotations);
        files := files + found;
      }
      j := j + 1;
    }
    assert content[..j] == content;
  }

  /** The loop over the annotations of one `output_text` item. */
  method CollectCitedFiles(anns: seq<Annotation>) returns (files: seq<OutputFile>)
    ensures files == CitedFiles(anns)
  {
    files := [];
    var k := 0;
    while k < |anns|
      invariant 0 <= k <= |anns|
      invariant files == CitedFiles(anns[..k])
    {
      assert anns[..k + 1] == anns[..k] + [anns[k]];
      CitedFilesAppend(anns[..k], [anns[k]]);
      assert [anns[k]][1..] == [];
      if anns[k].ContainerFileCitation? {
        files := files + [OutputFile(anns[k].fileId, anns[k].containerId, anns[k].filename)];
      }
      k := k + 1;
    }
    assert anns[..k] == anns;
  }

  function JoinTexts(ts: seq<ContentItem>): string {
    if ts == [] then "" else (if ts[0].OutputText? then ts[0].text else "") + JoinTexts(ts[1..])
  }

  /** `response.output_text`: the texts of all `output_text` items joined. */
  function OutputTextOf(items: seq<OutputItem>): string {
    JoinTexts(TextItems(items))
  }
}
