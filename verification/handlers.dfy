/**
 * The request handlers of app/chat.py, app/prompt.py and app/assistant.py:
 * the `Singleton` metaclass, the `PromptHandler` and `Assistant_call`
 * caches of prompts and responses, the assembly of a prompt's variables,
 * the template listing and the chat endpoint's guard.
 */
module Handlers {
  import opened Wrappers
  import Text
  import opened ToolRegistry
  import PromptFiles
  import opened PromptObject
  import opened Conversation
  import opened Uploads

  // ---------------------------------------------------------------------
  // Singleton

  /** `Singleton.__call__` on the instances dictionary: the instance already
    * made for `cls`, else `built`, which is then remembered. */
  function Called<T>(instances: map<string, T>, cls: string, built: T): (r: (map<string, T>, T))
    ensures cls in r.0 && r.0[cls] == r.1
    ensures r.0.Keys == instances.Keys + {cls}
    ensures forall k :: k in instances ==> r.0[k] == instances[k]
    ensures cls !in instances ==> r.1 == built
  {
    if cls in instances then (instances, instances[cls]) else (instances[cls := built], built)
  }

  /** A second construction returns the first instance, whatever the second
    * would have built, and leaves the dictionary as the first left it. */
  lemma {:induction false} SecondCallReturnsFirst<T>(instances: map<string, T>, cls: string, first: T, second: T)
    ensures var c1 := Called(instances, cls, first);
            Called(c1.0, cls, second) == c1
  {
  }

  /** `_instances`, for the classes whose metaclass is `Singleton`. */
  class Singleton<T> {
    var instances: map<string, T>

    constructor()
      ensures instances == map[]
    {
      instances := map[];
    }

    /** `cls in cls._instances` and the stored instance. */
    method Find(cls: string) returns (r: Option<T>)
      ensures r == if cls in instances then Some(instances[cls]) else None
    {
      r := if cls in instances then Some(instances[cls]) else None;
    }

    method Remember(cls: string, made: T)
      modifies this
      ensures instances == old(instances)[cls := made]
    {
      instances := instances[cls := made];
    }
  }

  /** `PromptHandler()` through its metaclass: the constructor runs only the
    * first time. */
  method PromptHandlerInstance(meta: Singleton<PromptHandler>, registry: Registry, webscrape: Callable)
    returns (h: PromptHandler)
    modifies meta, registry
    ensures (meta.instances, h) == Called(old(meta.instances), "PromptHandler", h)
    ensures "PromptHandler" in old(meta.instances) ==> unchanged(registry)
    ensures "PromptHandler" !in old(meta.instances) ==> fresh(h) && h.Empty()
  {
    var found := meta.Find("PromptHandler");
    if found.Some? {
      return found.value;
    }
    h := new PromptHandler(registry, webscrape);
    meta.Remember("PromptHandler", h);
  }

  /** `Assistant_call()` through its metaclass. */
  method AssistantCallInstance(meta: Singleton<AssistantCall>, registry: Registry, webscrape: Callable)
    returns (h: AssistantCall)
    modifies meta, registry
    ensures (meta.instances, h) == Called(old(meta.instances), "Assistant_call", h)
    ensures "Assistant_call" in old(meta.instances) ==> unchanged(registry)
    ensures "Assistant_call" !in old(meta.instances) ==> fresh(h) && h.Empty()
  {
    var found := meta.Find("Assistant_call");
    if found.Some? {
      return found.value;
    }
    h := new AssistantCall(registry, webscrape);
    meta.Remember("Assistant_call", h);
  }

  // ---------------------------------------------------------------------
  // The variables of a run

  /** A Python truth test on an optional string. */
  predicate Named(s: Option<string>) {
    s.Some? && s.value != ""
  }

  /** What `open(path)` raises for a path that does not exist. */
  function ReadError(path: string): string {
    "[Errno 2] No such file or directory: '" + path + "'"
  }

  /** `f"File: {file_info.filename}\n{f.read()}"`. */
  function FileText(u: FileUpload, body: string): string {
    "File: " + u.filename + "\n" + body
  }

  /** The ids that name an upload, in request order. */
  function Known(ids: seq<string>, files: map<string, FileUpload>): (k: seq<string>)
    ensures |k| <= |ids|
    ensures forall x :: x in k <==> x in ids && x in files
  {
    if ids == [] then []
    else
      var front := Known(ids[..|ids| - 1], files);
      assert forall x :: x in ids <==> x in ids[..|ids| - 1] || x == ids[|ids| - 1] by {
        assert ids == ids[..|ids| - 1] + [ids[|ids| - 1]];
      }
      if ids[|ids| - 1] in files then front + [ids[|ids| - 1]] else front
  }

  /** The `file_contents` pieces of the ids that name an upload, or what
    * reading the first missing file raises. */
  function FileTexts(ids: seq<string>, files: map<string, FileUpload>, fs: map<string, string>)
    : (r: Result<seq<string>, string>)
  {
    if ids == [] then Success([])
    else match FileTexts(ids[..|ids| - 1], files, fs)
      case Failure(e) => Failure(e)
      case Success(t) =>
        var id := ids[|ids| - 1];
        if id !in files then Success(t)
        else if files[id].filePath !in fs then Failure(ReadError(files[id].filePath))
        else Success(t + [FileText(files[id], fs[files[id].filePath])])
  }

  /** Every upload named by the request can be read. */
  predicate Readable(ids: seq<string>, files: map<string, FileUpload>, fs: map<string, string>) {
    forall x :: x in ids && x in files ==> files[x].filePath in fs
  }

  /** The variables `generate` hands to `run`: the content, the stored
    * response the request continues, and the uploaded files' texts. */
  function VariablesFor(content: string, previous: Option<string>, responses: map<string, string>,
                        ids: seq<string>, files: map<string, FileUpload>, fs: map<string, string>)
    : (r: Result<map<string, string>, string>)
  {
    var v0 := map["content" := content];
    var v1 := if Named(previous) && previous.value in responses
              then v0["previous_response" := responses[previous.value]] else v0;
    match FileTexts(ids, files, fs)
    case Failure(e) => Failure(e)
    case Success(t) => Success(if t == [] then v1 else v1["file_contents" := Text.Join(t, "\n\n")])
  }

  /** A failure reading the first files is the failure of the whole list. */
  lemma {:induction false} FileTextsFailurePersists(ids: seq<string>, n: nat, files: map<string, FileUpload>,
                                                    fs: map<string, string>)
    requires n <= |ids| && FileTexts(ids[..n], files, fs).Failure?
    ensures FileTexts(ids, files, fs) == FileTexts(ids[..n], files, fs)
    decreases |ids| - n
  {
    if n < |ids| {
      assert ids[..n + 1][..n] == ids[..n];
      assert FileTexts(ids[..n + 1], files, fs) == FileTexts(ids[..n], files, fs);
      FileTextsFailurePersists(ids, n + 1, files, fs);
    } else {
      assert ids[..n] == ids;
    }
  }

  /** The texts are the known ids' files, in order, exactly when every one
    * of them can be read. */
  lemma {:induction false} FileTextsShape(ids: seq<string>, files: map<string, FileUpload>, fs: map<string, string>)
    ensures FileTexts(ids, files, fs).Success? <==> Readable(ids, files, fs)
    ensures FileTexts(ids, files, fs).Success? ==>
              var t := FileTexts(ids, files, fs).value;
              var k := Known(ids, files);
              && |t| == |k|
              && forall j :: 0 <= j < |k| ==> t[j] == FileText(files[k[j]], fs[files[k[j]].filePath])
  {
    if ids != [] {
      var front := ids[..|ids| - 1];
      var id := ids[|ids| - 1];
      assert ids == front + [id];
      FileTextsShape(front, files, fs);
      assert Readable(ids, files, fs) <==> Readable(front, files, fs) && (id in files ==> files[id].filePath in fs);
    }
  }

  /** The request's content is always passed. */
  lemma {:induction false} ContentAlwaysSet(content: string, previous: Option<string>, responses: map<string, string>,
                         ids: seq<string>, files: map<string, FileUpload>, fs: map<string, string>)
    requires VariablesFor(content, previous, responses, ids, files, fs).Success?
    ensures var v := VariablesFor(content, previous, responses, ids, files, fs).value;
            "content" in v && v["content"] == content
            && v.Keys <= {"content", "previous_response", "file_contents"}
  {
  }

  /** A previous response is passed exactly when its id is one the handler
    * stored, and it is that stored response. */
  lemma {:induction false} PreviousOnlyWhenStored(content: string, previous: Option<string>, responses: map<string, string>,
                               ids: seq<string>, files: map<string, FileUpload>, fs: map<string, string>)
    requires VariablesFor(content, previous, responses, ids, files, fs).Success?
    ensures var v := VariablesFor(content, previous, responses, ids, files, fs).value;
            && ("previous_response" in v <==> Named(previous) && previous.value in responses)
            && ("previous_response" in v ==> v["previous_response"] == responses[previous.value])
  {
  }

  /** File texts are passed exactly when an id names an upload; they are
    * the known uploads' texts joined by a blank line. Reading fails exactly
    * when one of those uploads is not on disk. */
  lemma {:induction false} FileContentsOnlyKnown(content: string, previous: Option<string>, responses: map<string, string>,
                              ids: seq<string>, files: map<string, FileUpload>, fs: map<string, string>)
    ensures VariablesFor(content, previous, responses, ids, files, fs).Success? <==> Readable(ids, files, fs)
    ensures VariablesFor(content, previous, responses, ids, files, fs).Success? ==>
              var v := VariablesFor(content, previous, responses, ids, files, fs).value;
              var t := FileTexts(ids, files, fs).value;
              && ("file_contents" in v <==> exists x :: x in ids && x in files)
              && ("file_contents" in v ==> v["file_contents"] == Text.Join(t, "\n\n"))
  {
    FileTextsShape(ids, files, fs);
    var k := Known(ids, files);
    if k != [] {
      assert k[0] in k;
    }
  }

  /** A response stored under a non-empty id is what a later request that
    * names that id continues from. */
  lemma {:induction false} StoredResponseContinues(responses: map<string, string>, id: string, text: string, content: string,
                                ids: seq<string>, files: map<string, FileUpload>, fs: map<string, string>)
    requires id != "" && Readable(ids, files, fs)
    ensures var v := VariablesFor(content, Some(id), responses[id := text], ids, files, fs);
            v.Success? && "previous_response" in v.value && v.value["previous_response"] == text
  {
    FileContentsOnlyKnown(content, Some(id), responses[id := text], ids, files, fs);
  }

  /** `variables` and `file_contents` built as `generate` builds them. */
  method AssembleVariables(content: string, previous: Option<string>, responses: map<string, string>,
                           ids: seq<string>, files: map<string, FileUpload>, fs: map<string, string>)
    returns (r: Result<map<string, string>, string>)
    ensures r == VariablesFor(content, previous, responses, ids, files, fs)
  {
    var variables := map["content" := content];
    if previous.Some? && previous.value != "" && previous.value in responses {
      variables := variables["previous_response" := responses[previous.value]];
    }
    var texts: seq<string> := [];
    for i := 0 to |ids|
      invariant FileTexts(ids[..i], files, fs) == Success(texts)
    {
      assert ids[..i + 1][..i] == ids[..i];
      var id := ids[i];
      if id in files {
        var path := files[id].filePath;
        if path !in fs {
          FileTextsFailurePersists(ids, i + 1, files, fs);
          return Failure(ReadError(path));
        }
        texts := texts + [FileText(files[id], fs[path])];
      }
    }
    assert ids[..|ids|] == ids;
    if texts != [] {
      variables := variables["file_contents" := Text.Join(texts, "\n\n")];
    }
    r := Success(variables);
  }

  // ---------------------------------------------------------------------
  // Replies

  /** The dictionary `generate` returns. */
  datatype Reply = Reply(response: string, statusCode: int, responseId: Option<string>,
                         files: Option<seq<OutputFile>>)

  function NotFound(kind: string, name: Option<string>): Reply {
    Reply(kind + " '" + PyStr(name) + "' not found", 404, None, None)
  }

  const ErrorPrefix := "Error generating response: "

  function RunFailed(message: string): Reply {
    Reply(ErrorPrefix + message, 500, None, None)
  }

  /** A successful run leaves the prompt with a response id. */
  lemma {:induction false} RunSetsId(st: PromptState, previous: Option<string>, vars: Option<map<string, string>>,
                  reg: map<string, ToolEntry>, host: Host)
    requires RunSpec(st, previous, vars, reg, host).result.Success?
    ensures RunSpec(st, previous, vars, reg, host).state.id.Some?
  {
    var st2 := Prepared(st, vars);
    var cfg := ConfigOf(st2);
    var hist := InitialHistory(host.today, st2.prompt, st2.fileIds);
    match host.provider.create(MakeRequest(cfg, hist, previous)) {
      case Failure(e) =>
      case Success(first) =>
        var c := Converse(host.fuel, first, hist, 0, reg, cfg, host.provider, host.env);
        assert AfterRounds(FirstRecorded(st2, first), c.tools, FinalResponse(c.outcome)).state.id.Some?;
    }
  }

  /** `prompt.run(previous_response_id, variables)`, and the response id a
    * successful run leaves behind. */
  method RunWithId(prompt: Prompt, previous: Option<string>, vars: map<string, string>, registry: Registry, host: Host)
    returns (result: Result<string, string>)
    modifies prompt, registry
    ensures var o := RunSpec(old(prompt.State()), previous, Some(vars), old(registry.tools), host);
            prompt.State() == o.state && registry.tools == o.tools && result == o.result
    ensures result.Success? ==> prompt.id.Some?
  {
    ghost var st := prompt.State();
    ghost var reg := registry.tools;
    result := prompt.Run(previous, Some(vars), registry, host);
    if result.Success? {
      RunSetsId(st, previous, Some(vars), reg, host);
    }
  }

  /** The outcome of a cache lookup: the prompt found or made, if any, the
    * tool registry and the template cache after loading it. */
  datatype Lookup = Located(found: Option<PromptState>, tools: map<string, ToolEntry>,
                            cache: map<string, PromptFiles.PromptSpec>)

  /** What the rest of `generate` yields: the reply (or what raises out of
    * it), the responses kept, the prompt after the run, and the registry. */

  datatype Answer = Answer(result: Result<Reply, string>, responses: map<string, string>,
                           prompt: Option<PromptState>, tools: map<string, ToolEntry>)

  /** `PromptHandler.generate` once the prompt, in state `st`, is found: a
    * missing upload raises; otherwise `run` gets the variables and the
    * caller's previous id, its text is stored under the prompt's id and
    * replied with the output files, and a run error is the 500 reply. */
  function PromptAnswer(st: PromptState, reg: map<string, ToolEntry>, vars: Result<map<string, string>, string>,
                        previous: Option<string>, responses: map<string, string>, host: Host): Answer
  {
    match vars
    case Failure(e) => Answer(Failure(e), responses, Some(st), reg)
    case Success(v) =>
      var o := RunSpec(st, previous, Some(v), reg, host);
      match o.result
      case Failure(e) => Answer(Success(RunFailed(e)), responses, Some(o.state), o.tools)
      case Success(text) =>
        var key := o.state.id.GetOr("");
        Answer(Success(Reply(text, 200, Some(key), Some(o.state.outputFiles))), responses[key := text], Some(o.state), o.tools)
  }

  /** `Assistant_call.generate` once the prompt is found: as above, but
    * `run` gets no previous id and the text is stored under `key`, with no
    * files in the reply. */
  function AssistantAnswer(st: PromptState, reg: map<string, ToolEntry>, vars: Result<map<string, string>, string>,
                           key: string, responses: map<string, string>, host: Host): Answer
  {
    match vars
    case Failure(e) => Answer(Failure(e), responses, Some(st), reg)
    case Success(v) =>
      var o := RunSpec(st, None, Some(v), reg, host);
      match o.result
      case Failure(e) => Answer(Success(RunFailed(e)), responses, Some(o.state), o.tools)
      case Success(text) => Answer(Success(Reply(text, 200, Some(key), None)), responses[key := text], Some(o.state), o.tools)
  }

  lemma {:induction false} ErrorReplyPrefixed(e: string)
    ensures Text.StartsWith(RunFailed(e).response, ErrorPrefix)
  {
    assert (ErrorPrefix + e)[..|ErrorPrefix|] == ErrorPrefix;
  }

  /** The replies of `PromptHandler.generate` after the lookup: what raises
    * is the variables' error; a 500 carries the run's error and stores
    * nothing; a 200 carries the run's text under the prompt's new response
    * id, with its output files, and stores the text under that id. */
  lemma {:induction false} PromptAnswerShape(st: PromptState, reg: map<string, ToolEntry>, vars: Result<map<string, string>, string>,
                                             previous: Option<string>, responses: map<string, string>, host: Host)
    ensures var a := PromptAnswer(st, reg, vars, previous, responses, host);
            && a.prompt.Some?
            && (vars.Failure? ==> a.result == Failure(vars.error) && a.responses == responses && a.prompt == Some(st))
            && (vars.Success? ==>
                  var o := RunSpec(st, previous, Some(vars.value), reg, host);
                  && a.prompt == Some(o.state) && a.tools == o.tools
                  && (o.result.Failure? ==>
                        && a.result == Success(RunFailed(o.result.error)) && a.responses == responses
                        && Text.StartsWith(a.result.value.response, ErrorPrefix))
                  && (o.result.Success? ==>
                        && o.state.id.Some?
                        && a.result == Success(Reply(o.result.value, 200, o.state.id, Some(o.state.outputFiles)))
                        && a.responses == responses[o.state.id.value := o.result.value]))
  {
    if vars.Success? {
      var o := RunSpec(st, previous, Some(vars.value), reg, host);
      if o.result.Success? {
        RunSetsId(st, previous, Some(vars.value), reg, host);
      } else {
        ErrorReplyPrefixed(o.result.error);
      }
    }
  }

  /** The same for `Assistant_call.generate`: the run has no previous id and
    * the text is stored under the key drawn for it. */
  lemma {:induction false} AssistantAnswerShape(st: PromptState, reg: map<string, ToolEntry>, vars: Result<map<string, string>, string>,
                                                key: string, responses: map<string, string>, host: Host)
    ensures var a := AssistantAnswer(st, reg, vars, key, responses, host);
            && a.prompt.Some?
            && (vars.Failure? ==> a.result == Failure(vars.error) && a.responses == responses && a.prompt == Some(st))
            && (vars.Success? ==>
                  var o := RunSpec(st, None, Some(vars.value), reg, host);
                  && a.prompt == Some(o.state) && a.tools == o.tools
                  && (o.result.Failure? ==>
                        && a.result == Success(RunFailed(o.result.error)) && a.responses == responses
                        && Text.StartsWith(a.result.value.response, ErrorPrefix))
                  && (o.result.Success? ==>
                        && a.result == Success(Reply(o.result.value, 200, Some(key), None))
                        && a.responses == responses[key := o.result.value]))
  {
    if vars.Success? {
      var o := RunSpec(st, None, Some(vars.value), reg, host);
      if o.result.Failure? {
        ErrorReplyPrefixed(o.result.error);
      }
    }
  }

  // ---------------------------------------------------------------------
  // PromptHandler

  /** `PromptHandler`: the prompts made so far by name, the uploads by id
    * and the responses by id. */
  class PromptHandler {
    var prompts: map<string, Prompt>
    var files: map<string, FileUpload>
    var responses: map<string, string>

    predicate Empty()
      reads this
    {
      prompts == map[] && files == map[] && responses == map[]
    }

    /** `__init__`: empty caches, and `webscrape` registered as a tool. */
    constructor(registry: Registry, webscrape: Callable)
      modifies registry
      ensures Empty()
      ensures registry.tools == old(registry.tools)["webscrape" := ToolEntry(None, Some(webscrape))]
    {
      prompts := map[];
      files := map[];
      responses := map[];
      new;
      var _ := registry.RegisterTools("webscrape", None, Some(webscrape));
    }

    /** `get_prompt_by_name`: nothing for a missing name, the cached prompt
      * for a known one, else `Prompt.create(name)`, cached when it succeeds. */
    method GetPromptByName(name: Option<string>, loader: PromptFiles.PromptLoader, registry: Registry, host: Host)
      returns (p: Option<Prompt>)
      modifies this`prompts, loader, registry
      ensures forall k :: k in old(prompts) ==> k in prompts && prompts[k] == old(prompts)[k]
      ensures prompts.Keys <= old(prompts).Keys + (if Named(name) then {name.value} else {})
      ensures p.Some? ==> p.value in old(prompts).Values || fresh(p.value)
      ensures !Named(name) ==> p.None? && prompts == old(prompts) && unchanged(loader, registry)
      ensures Named(name) && name.value in old(prompts) ==>
                p == Some(old(prompts)[name.value]) && prompts == old(prompts) && unchanged(loader, registry)
      ensures p.None? ==> prompts == old(prompts)
      ensures p.Some? ==> Named(name) && name.value in prompts && prompts[name.value] == p.value
      ensures p.Some? && name.value !in old(prompts) ==> fresh(p.value) && prompts == old(prompts)[name.value := p.value]
      ensures var f := old(Found(name, loader, registry, host));
              && registry.tools == f.tools && loader.cache == f.cache
              && (p.Some? <==> f.found.Some?) && (p.Some? ==> p.value.State() == f.found.value)
    {
      if name.None? || name.value == "" {
        return None;
      }
      if name.value in prompts {
        return Some(prompts[name.value]);
      }
      var created := Prompt.Create(name.value, None, None, None, None, loader, registry, host);
      if created.Failure? {
        return None;
      }
      prompts := prompts[name.value := created.value];
      p := Some(created.value);
    }

    /** What `get_prompt_by_name` finds from the caches as they are:
      * nothing for a missing name, the cached prompt, or the prompt
      * `Prompt.create` makes when its setup succeeds. */
    function Found(name: Option<string>, loader: PromptFiles.PromptLoader, registry: Registry, host: Host): Lookup
      reads this, prompts.Values, loader, registry
    {
      if !Named(name) then Located(None, registry.tools, loader.cache)
      else if name.value in prompts then Located(Some(prompts[name.value].State()), registry.tools, loader.cache)
      else
        var l := PromptFiles.LoadTemplate(loader.cache, host.fs, loader.promptsDir, name.value, registry.tools, host.env);
        var o := AfterSetup(Initial(name.value, None, None, None, None), l.result, host);
        Located(if o.result.Success? then Some(o.state) else None, l.tools, l.cache)
    }

    /** What `generate` does from the handler, the loader and the registry
      * as they are: 404 when no prompt is found or made, else the answer
      * of the found prompt. */
    function Generated(name: Option<string>, content: string, ids: seq<string>, previous: Option<string>,
                       loader: PromptFiles.PromptLoader, registry: Registry, host: Host): Answer
      reads this, prompts.Values, loader, registry
    {
      var f := Found(name, loader, registry, host);
      if f.found.None? then Answer(Success(NotFound("Prompt", name)), responses, None, f.tools)
      else PromptAnswer(f.found.value, f.tools, VariablesFor(content, previous, responses, ids, files, host.fs),
                        previous, responses, host)
    }

    /** The replies `generate` can give: 404 for a missing or unloadable
      * prompt, 500 with the error prefix and nothing stored, 200 with the
      * text stored under the reply's response id; what raises is the
      * variables' error. */
    lemma {:induction false} GeneratedShape(name: Option<string>, content: string, ids: seq<string>, previous: Option<string>,
                                            loader: PromptFiles.PromptLoader, registry: Registry, host: Host)
      ensures var a := Generated(name, content, ids, previous, loader, registry, host);
              var vars := VariablesFor(content, previous, responses, ids, files, host.fs);
              && (!Named(name) ==> a.result == Success(NotFound("Prompt", name)))
              && (a.result.Success? ==> a.result.value.statusCode in {200, 404, 500})
              && (a.result.Success? && a.result.value.statusCode == 404 ==>
                    a.result.value == NotFound("Prompt", name) && a.responses == responses)
              && (a.result.Success? && a.result.value.statusCode == 500 ==>
                    Text.StartsWith(a.result.value.response, ErrorPrefix) && a.responses == responses)
              && (a.result.Success? && a.result.value.statusCode == 200 ==>
                    && a.result.value.responseId.Some? && a.result.value.files.Some?
                    && a.responses == responses[a.result.value.responseId.value := a.result.value.response])
              && (a.result.Success? && a.result.value.statusCode != 404 ==> vars.Success?)
              && (a.result.Failure? ==> a.responses == responses && vars == Failure(a.result.error))
    {
      var f := Found(name, loader, registry, host);
      if f.found.Some? {
        PromptAnswerShape(f.found.value, f.tools, VariablesFor(content, previous, responses, ids, files, host.fs),
                          previous, responses, host);
      }
    }

    /** `generate`: 404 without a prompt, 200 with the run's text stored
      * under the prompt's response id, 500 when the run fails. Reading an
      * upload that is not on disk raises out of `generate`. */
    method Generate(name: Option<string>, content: string, ids: seq<string>, previous: Option<string>,
                    loader: PromptFiles.PromptLoader, registry: Registry, host: Host)
      returns (r: Result<Reply, string>)
      modifies this`prompts, this`responses, loader, registry, prompts.Values
      ensures files == old(files)
      ensures !Named(name) ==> r == Success(NotFound("Prompt", name)) && prompts == old(prompts)
      ensures forall k :: k in old(prompts) ==> k in prompts && prompts[k] == old(prompts)[k]
      ensures prompts.Keys <= old(prompts).Keys + (if Named(name) then {name.value} else {})
      ensures r.Success? ==> r.value.statusCode in {200, 404, 500}
      ensures r.Success? && r.value.statusCode == 404 ==>
                r.value == NotFound("Prompt", name) && responses == old(responses)
      ensures r.Success? && r.value.statusCode == 500 ==>
                Text.StartsWith(r.value.response, ErrorPrefix) && responses == old(responses)
      ensures r.Success? && r.value.statusCode == 200 ==>
                && r.value.responseId.Some? && r.value.files.Some?
                && responses == old(responses)[r.value.responseId.value := r.value.response]
      ensures r.Success? && r.value.statusCode != 404 ==>
                VariablesFor(content, previous, old(responses), ids, old(files), host.fs).Success?
      ensures r.Failure? ==>
                && responses == old(responses)
                && VariablesFor(content, previous, old(responses), ids, old(files), host.fs) == Failure(r.error)
      ensures var a := old(Generated(name, content, ids, previous, loader, registry, host));
              && r == a.result && responses == a.responses && registry.tools == a.tools
              && (a.prompt.Some? ==> name.Some? && name.value in prompts && prompts[name.value].State() == a.prompt.value)
    {
      GeneratedShape(name, content, ids, previous, loader, registry, host);
      r := Serve(name, content, ids, previous, loader, registry, host);
    }

    /** The lookup and the answer of `generate`, stated against `Generated`. */
    method Serve(name: Option<string>, content: string, ids: seq<string>, previous: Option<string>,
                 loader: PromptFiles.PromptLoader, registry: Registry, host: Host)
      returns (r: Result<Reply, string>)
      modifies this`prompts, this`responses, loader, registry, prompts.Values
      ensures !Named(name) ==> prompts == old(prompts)
      ensures forall k :: k in old(prompts) ==> k in prompts && prompts[k] == old(prompts)[k]
      ensures prompts.Keys <= old(prompts).Keys + (if Named(name) then {name.value} else {})
      ensures var a := old(Generated(name, content, ids, previous, loader, registry, host));
              && r == a.result && responses == a.responses && registry.tools == a.tools
              && (a.prompt.Some? ==> name.Some? && name.value in prompts && prompts[name.value].State() == a.prompt.value)
    {
      ghost var a := Generated(name, content, ids, previous, loader, registry, host);
      var p := GetPromptByName(name, loader, registry, host);
      if p.None? {
        assert a == Answer(Success(NotFound("Prompt", name)), responses, None, registry.tools);
        return Success(NotFound("Prompt", name));
      }
      assert a == PromptAnswer(p.value.State(), registry.tools, VariablesFor(content, previous, responses, ids, files, host.fs),
                               previous, responses, host);
      r := Respond(p.value, content, ids, previous, registry, host);
    }

    /** The rest of `generate` once the prompt is found: the variables,
      * the run and the reply. */
    method Respond(prompt: Prompt, content: string, ids: seq<string>, previous: Option<string>,
                   registry: Registry, host: Host)
      returns (r: Result<Reply, string>)
      modifies this`responses, prompt, registry
      ensures var a := PromptAnswer(old(prompt.State()), old(registry.tools),
                                    VariablesFor(content, previous, old(responses), ids, files, host.fs),
                                    previous, old(responses), host);
              && r == a.result && responses == a.responses && a.prompt == Some(prompt.State()) && registry.tools == a.tools
    {
      var vars := AssembleVariables(content, previous, responses, ids, files, host.fs);
      if vars.Failure? {
        return Failure(vars.error);
      }
      var result := RunWithId(prompt, previous, vars.value, registry, host);
      if result.Failure? {
        var reply := Record(result, "", None);
        return Success(reply);
      }
      var reply := Record(result, prompt.id.value, Some(prompt.outputFiles));
      r := Success(reply);
    }


    /** The end of `generate`: the run's text stored under `key` and the
      * 200 reply, or the 500 reply and nothing stored. */
    method Record(result: Result<string, string>, key: string, outputs: Option<seq<OutputFile>>)
      returns (reply: Reply)
      modifies this`responses
      ensures result.Failure? ==> reply == RunFailed(result.error) && responses == old(responses)
      ensures result.Success? ==>
                reply == Reply(result.value, 200, Some(key), outputs) && responses == old(responses)[key := result.value]
    {
      if result.Failure? {
        return RunFailed(result.error);
      }
      responses := responses[key := result.value];
      reply := Reply(result.value, 200, Some(key), outputs);
    }

  }

  // ---------------------------------------------------------------------
  // Assistant_call

  /** `Assistant_call`: the same caches, looked up without an empty-name
    * guard, with responses stored under a fresh id. */
  class AssistantCall {
    var assistants: map<string, Prompt>
    var files: map<string, FileUpload>
    var responses: map<string, string>

    predicate Empty()
      reads this
    {
      assistants == map[] && files == map[] && responses == map[]
    }

    constructor(registry: Registry, webscrape: Callable)
      modifies registry
      ensures Empty()
      ensures registry.tools == old(registry.tools)["webscrape" := ToolEntry(None, Some(webscrape))]
    {
      assistants := map[];
      files := map[];
      responses := map[];
      new;
      var _ := registry.RegisterTools("webscrape", None, Some(webscrape));
    }

    /** `get_assistant_by_name`: the cached prompt, else `Prompt.create`,
      * cached when it succeeds. The empty name is tried like any other. */
    method GetAssistantByName(name: string, loader: PromptFiles.PromptLoader, registry: Registry, host: Host)
      returns (p: Option<Prompt>)
      modifies this`assistants, loader, registry
      ensures forall k :: k in old(assistants) ==> k in assistants && assistants[k] == old(assistants)[k]
      ensures assistants.Keys <= old(assistants).Keys + {name}
      ensures p.Some? ==> p.value in old(assistants).Values || fresh(p.value)
      ensures name in old(assistants) ==>
                p == Some(old(assistants)[name]) && assistants == old(assistants) && unchanged(loader, registry)
      ensures p.None? ==> assistants == old(assistants)
      ensures p.Some? ==> name in assistants && assistants[name] == p.value
      ensures p.Some? && name !in old(assistants) ==> fresh(p.value) && assistants == old(assistants)[name := p.value]
      ensures var f := old(Found(name, loader, registry, host));
              && registry.tools == f.tools && loader.cache == f.cache
              && (p.Some? <==> f.found.Some?) && (p.Some? ==> p.value.State() == f.found.value)
    {
      if name in assistants {
        return Some(assistants[name]);
      }
      var created := Prompt.Create(name, None, None, None, None, loader, registry, host);
      if created.Failure? {
        return None;
      }
      assistants := assistants[name := created.value];
      p := Some(created.value);
    }

    /** What `get_assistant_by_name` finds from the caches as they are: the
      * cached prompt, or the prompt `Prompt.create` makes when its setup
      * succeeds. */
    function Found(name: string, loader: PromptFiles.PromptLoader, registry: Registry, host: Host): Lookup
      reads this, assistants.Values, loader, registry
    {
      if name in assistants then Located(Some(assistants[name].State()), registry.tools, loader.cache)
      else
        var l := PromptFiles.LoadTemplate(loader.cache, host.fs, loader.promptsDir, name, registry.tools, host.env);
        var o := AfterSetup(Initial(name, None, None, None, None), l.result, host);
        Located(if o.result.Success? then Some(o.state) else None, l.tools, l.cache)
    }

    /** What `generate` does from the handler, the loader and the registry
      * as they are: 404 when no prompt is found or made, else the answer
      * of the found prompt, stored under `key`. */
    function Generated(name: string, content: string, ids: seq<string>, previous: Option<string>, key: string,
                       loader: PromptFiles.PromptLoader, registry: Registry, host: Host): Answer
      reads this, assistants.Values, loader, registry
    {
      var f := Found(name, loader, registry, host);
      if f.found.None? then Answer(Success(NotFound("Assistant", Some(name))), responses, None, f.tools)
      else AssistantAnswer(f.found.value, f.tools, VariablesFor(content, previous, responses, ids, files, host.fs),
                           key, responses, host)
    }

    /** The replies `generate` can give, as for `PromptHandler`, with the
      * 200 reply under `key` and without files. */
    lemma {:induction false} GeneratedShape(name: string, content: string, ids: seq<string>, previous: Option<string>,
                                            key: string, loader: PromptFiles.PromptLoader, registry: Registry, host: Host)
      ensures var a := Generated(name, content, ids, previous, key, loader, registry, host);
              var vars := VariablesFor(content, previous, responses, ids, files, host.fs);
              && (a.result.Success? ==> a.result.value.statusCode in {200, 404, 500})
              && (a.result.Success? && a.result.value.statusCode == 404 ==>
                    a.result.value == NotFound("Assistant", Some(name)) && a.responses == responses)
              && (a.result.Success? && a.result.value.statusCode == 500 ==>
                    Text.StartsWith(a.result.value.response, ErrorPrefix) && a.responses == responses)
              && (a.result.Success? && a.result.value.statusCode == 200 ==>
                    && a.result.value == Reply(a.result.value.response, 200, Some(key), None)
                    && a.responses == responses[key := a.result.value.response])
              && (a.result.Success? && a.result.value.statusCode != 404 ==> vars.Success?)
              && (a.result.Failure? ==> a.responses == responses && vars == Failure(a.result.error))
    {
      var f := Found(name, loader, registry, host);
      if f.found.Some? {
        AssistantAnswerShape(f.found.value, f.tools, VariablesFor(content, previous, responses, ids, files, host.fs),
                             key, responses, host);
      }
    }

    /** `generate`: as `PromptHandler.generate`, but `run` gets no previous
      * response id and the result is stored under `responseKey`, the
      * `uuid4()` drawn for it. */
    method Generate(name: string, content: string, ids: seq<string>, previous: Option<string>,
                    responseKey: string, loader: PromptFiles.PromptLoader, registry: Registry, host: Host)
      returns (r: Result<Reply, string>)
      modifies this`assistants, this`responses, loader, registry, assistants.Values
      ensures files == old(files)
      ensures forall k :: k in old(assistants) ==> k in assistants && assistants[k] == old(assistants)[k]
      ensures assistants.Keys <= old(assistants).Keys + {name}
      ensures r.Success? ==> r.value.statusCode in {200, 404, 500}
      ensures r.Success? && r.value.statusCode == 404 ==>
                r.value == NotFound("Assistant", Some(name)) && responses == old(responses)
      ensures r.Success? && r.value.statusCode == 500 ==>
                Text.StartsWith(r.value.response, ErrorPrefix) && responses == old(responses)
      ensures r.Success? && r.value.statusCode == 200 ==>
                && r.value == Reply(r.value.response, 200, Some(responseKey), None)
                && responses == old(responses)[responseKey := r.value.response]
      ensures r.Success? && r.value.statusCode != 404 ==>
                VariablesFor(content, previous, old(responses), ids, old(files), host.fs).Success?
      ensures r.Failure? ==>
                && responses == old(responses)
                && VariablesFor(content, previous, old(responses), ids, old(files), host.fs) == Failure(r.error)
      ensures var a := old(Generated(name, content, ids, previous, responseKey, loader, registry, host));
              && r == a.result && responses == a.responses && registry.tools == a.tools
              && (a.prompt.Some? ==> name in assistants && assistants[name].State() == a.prompt.value)
    {
      GeneratedShape(name, content, ids, previous, responseKey, loader, registry, host);
      r := Serve(name, content, ids, previous, responseKey, loader, registry, host);
    }

    /** The lookup and the answer of `generate`, stated against `Generated`. */
    method Serve(name: string, content: string, ids: seq<string>, previous: Option<string>,
                 responseKey: string, loader: PromptFiles.PromptLoader, registry: Registry, host: Host)
      returns (r: Result<Reply, string>)
      modifies this`assistants, this`responses, loader, registry, assistants.Values
      ensures forall k :: k in old(assistants) ==> k in assistants && assistants[k] == old(assistants)[k]
      ensures assistants.Keys <= old(assistants).Keys + {name}
      ensures var a := old(Generated(name, content, ids, previous, responseKey, loader, registry, host));
              && r == a.result && responses == a.responses && registry.tools == a.tools
              && (a.prompt.Some? ==> name in assistants && assistants[name].State() == a.prompt.value)
    {
      ghost var a := Generated(name, content, ids, previous, responseKey, loader, registry, host);
      var p := GetAssistantByName(name, loader, registry, host);
      if p.None? {
        assert a == Answer(Success(NotFound("Assistant", Some(name))), responses, None, registry.tools);
        return Success(NotFound("Assistant", Some(name)));
      }
      assert a == AssistantAnswer(p.value.State(), registry.tools, VariablesFor(content, previous, responses, ids, files, host.fs),
                                  responseKey, responses, host);
      r := Respond(p.value, content, ids, previous, responseKey, registry, host);
    }

    /** The rest of `generate` once the prompt is found: the variables,
      * the run without a previous response id, and the reply. */
    method Respond(prompt: Prompt, content: string, ids: seq<string>, previous: Option<string>,
                   responseKey: string, registry: Registry, host: Host)
      returns (r: Result<Reply, string>)
      modifies this`responses, prompt, registry
      ensures var a := AssistantAnswer(old(prompt.State()), old(registry.tools),
                                       VariablesFor(content, previous, old(responses), ids, files, host.fs),
                                       responseKey, old(responses), host);
              && r == a.result && responses == a.responses && a.prompt == Some(prompt.State()) && registry.tools == a.tools
    {
      var vars := AssembleVariables(content, previous, responses, ids, files, host.fs);
      if vars.Failure? {
        return Failure(vars.error);
      }
      var result := prompt.Run(None, Some(vars.value), registry, host);
      var reply := Record(result, responseKey, None);
      r := Success(reply);
    }

    /** The end of `generate`: the run's text stored under `key` and the
      * 200 reply, or the 500 reply and nothing stored. */
    method Record(result: Result<string, string>, key: string, outputs: Option<seq<OutputFile>>)
      returns (reply: Reply)
      modifies this`responses
      ensures result.Failure? ==> reply == RunFailed(result.error) && responses == old(responses)
      ensures result.Success? ==>
                reply == Reply(result.value, 200, Some(key), outputs) && responses == old(responses)[key := result.value]
    {
      if result.Failure? {
        return RunFailed(result.error);
      }
      responses := responses[key := result.value];
      reply := Reply(result.value, 200, Some(key), outputs);
    }

  }

  // ---------------------------------------------------------------------
  // Template listing

  /** One entry of `get_prompts` (`prompt_id`/`prompt_name`) or of
    * `get_assistants` (`assistant_id`/`assistant_name`): both are the
    * template's file name without `.md`. */
  datatype Entry = Entry(id: string, name: string)

  /** The `.md` files of the listing, in listing order, without the suffix. */
  function Templates(listing: seq<string>): (entries: seq<Entry>)
    ensures |entries| <= |listing|
  {
    if listing == [] then []
    else
      var front := Templates(listing[..|listing| - 1]);
      var f := listing[|listing| - 1];
      if Text.EndsWith(f, ".md") then front + [Entry(f[..|f| - 3], f[..|f| - 3])] else front
  }

  /** Every entry is a template of the listing, and every template of the
    * listing has its entry. */
  lemma {:induction false} TemplatesExact(listing: seq<string>)
    ensures forall e :: e in Templates(listing) ==> e.id == e.name && e.id + ".md" in listing
    ensures forall f :: f in listing && Text.EndsWith(f, ".md") ==> Entry(f[..|f| - 3], f[..|f| - 3]) in Templates(listing)
  {
    if listing != [] {
      var front := listing[..|listing| - 1];
      var f := listing[|listing| - 1];
      assert listing == front + [f];
      TemplatesExact(front);
      if Text.EndsWith(f, ".md") {
        assert f[..|f| - 3] + ".md" == f;
      }
    }
  }

  /** `get_prompts` / `get_assistants` over the directory listing; nothing
    * when the directory does not exist. */
  method ListTemplates(dirExists: bool, listing: seq<string>) returns (entries: seq<Entry>)
    ensures entries == if dirExists then Templates(listing) else []
  {
    entries := [];
    if dirExists {
      for i := 0 to |listing|
        invariant entries == Templates(listing[..i])
      {
        assert listing[..i + 1][..i] == listing[..i];
        var filename := listing[i];
        if Text.EndsWith(filename, ".md") {
          var stem := filename[..|filename| - 3];
          entries := entries + [Entry(stem, stem)];
        }
      }
      assert listing[..|listing|] == listing;
    }
  }

  // ---------------------------------------------------------------------
  // The chat endpoint

  /** `PromptRequest`, without its unused `metadata`. */
  datatype PromptRequest = PromptRequest(content: string, fileIds: Option<seq<string>>,
                                         promptName: Option<string>, previousResponseId: Option<string>)

  /** What `get_chat_response` returns: the empty string, or the JSON body
    * with the `X-Response-Id` header. */
  datatype ChatReply = EmptyReply | ChatJson(text: string, files: seq<OutputFile>, responseIdHeader: string)

  /** `data.prompt_name or "chatbot"`. */
  function ChatPromptName(name: Option<string>): (r: string)
    ensures r != ""
    ensures Named(name) ==> r == name.value
    ensures !Named(name) ==> r == "chatbot"
  {
    if Named(name) then name.value else "chatbot"
  }

  /** The chat body built from `generate`'s reply. */
  function ChatBody(reply: Reply): ChatReply {
    ChatJson(reply.response, reply.files.GetOr([]), reply.responseId.GetOr(""))
  }

  /** `get_chat_response`: an empty message is answered with `""` without
    * calling `generate`. */
  method GetChatResponse(handler: PromptHandler, data: PromptRequest,
                         loader: PromptFiles.PromptLoader, registry: Registry, host: Host)
    returns (r: Result<ChatReply, string>)
    modifies handler, loader, registry, handler.prompts.Values
    ensures data.content == "" ==> r == Success(EmptyReply) && unchanged(handler, loader, registry)
    ensures data.content != "" ==> r.Success? ==> r.value.ChatJson?
    ensures handler.files == old(handler.files)
    ensures forall k :: k in old(handler.prompts) ==> k in handler.prompts && handler.prompts[k] == old(handler.prompts)[k]
    ensures handler.prompts.Keys <= old(handler.prompts).Keys + {ChatPromptName(data.promptName)}
    ensures data.content != "" ==>
              var a := old(handler.Generated(Some(ChatPromptName(data.promptName)), data.content, data.fileIds.GetOr([]),
                                             data.previousResponseId, loader, registry, host));
              && r == (if a.result.Success? then Success(ChatBody(a.result.value)) else Failure(a.result.error))
              && handler.responses == a.responses && registry.tools == a.tools
              && (a.prompt.Some? ==> ChatPromptName(data.promptName) in handler.prompts
                                     && handler.prompts[ChatPromptName(data.promptName)].State() == a.prompt.value)
  {
    if data.content == "" {
      return Success(EmptyReply);
    }
    var reply := handler.Generate(Some(ChatPromptName(data.promptName)), data.content,
                                  data.fileIds.GetOr([]), data.previousResponseId, loader, registry, host);
    if reply.Failure? {
      return Failure(reply.error);
    }
    r := Success(ChatBody(reply.value));
  }
}
