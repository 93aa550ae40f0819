/**
 * The `Prompt` object of app/ai_processor.py: construction, `setup` from a
 * loaded template, `_apply_variables`, `run`, the `openai` conversation
 * that updates the object's fields, `upload_file`'s bookkeeping and the
 * `pydantic_response` dispatch.
 */
module PromptObject {
  import opened Wrappers
  import Text
  import Template
  import opened ToolRegistry
  import PromptFiles
  import opened Conversation

  /** A pydantic response class: its dotted name and `model_json_schema()`. */
  datatype ResponseClass = ResponseClass(qualifiedName: string, jsonSchema: Json)

  /** How a response class named in a template is found: `importlib` and
    * `getattr` for a dotted path, `eval` for a bare name. */
  datatype ClassFinder = ClassFinder(importClass: (string, string) -> Option<ResponseClass>,
                                     evalName: string -> Option<ResponseClass>)

  /** Everything outside the object a prompt run depends on: the template
    * files, the `AI_MODEL` setting, the class finder, the tool
    * environment, the provider, today's date and the bound on tool rounds. */
  datatype Host = Host(fs: map<string, string>, aiModel: string, finder: ClassFinder, env: Env,
                       provider: Provider, today: string, fuel: nat)

  /** One entry of `self.files`. */
  datatype FileInfo = FileInfo(title: string, filePath: string)

  /** `self.response`: nothing yet, the text of the last answer, or a
    * decoded JSON value. */
  datatype ResponseValue = NoResponse | TextValue(text: string) | JsonValue(json: Json)

  datatype SetupError = LoadFailed(error: PromptFiles.LoadError) | ClassImportFailed(path: string)
  {
    function Message(): string {
      match this
      case LoadFailed(e) => e.Message()
      case ClassImportFailed(path) => "Failed to import response class: " + path
    }
  }

  /** All fields of a `Prompt`. */
  datatype PromptState = PromptState(
    name: string,
    variables: Option<map<string, string>>,
    responseClass: Option<ResponseClass>,
    model: Option<string>,
    provider: Option<string>,
    fileIds: seq<string>,
    files: map<string, FileInfo>,
    id: Option<string>,
    instructions: string,
    promptTemplate: string,
    prompt: string,
    handoffs: seq<string>,
    toolSchemas: seq<ToolSchema>,
    response: ResponseValue,
    rawResponse: Option<Response>,
    containerId: Option<string>,
    textResponseObject: Option<ContentItem>,
    outputFiles: seq<OutputFile>)

  /** A fresh `Prompt(name, variables, response_class, model, provider)`. */
  function Initial(name: string, variables: Option<map<string, string>>, responseClass: Option<ResponseClass>,
                   model: Option<string>, provider: Option<string>): PromptState {
    PromptState(name, variables, responseClass, model, provider, [], map[], None, "", "", "", [], [],
                NoResponse, None, None, None, [])
  }

  // ---------------------------------------------------------------------
  // setup (app/ai_processor.py:168-201)
  // ---------------------------------------------------------------------

  /** The position of the last '.' of a dotted path. */
  function LastDot(s: string): (k: nat)
    requires '.' in s
    ensures k < |s| && s[k] == '.' && '.' !in s[k + 1..]
    decreases |s|
  {
    if s[|s| - 1] == '.' then |s| - 1
    else
      assert '.' in s[..|s| - 1] by {
        var j :| 0 <= j < |s| && s[j] == '.';
        assert s[..|s| - 1][j] == '.';
      }
      var k := LastDot(s[..|s| - 1]);
      assert s[k + 1..] == s[..|s| - 1][k + 1..] + [s[|s| - 1]];
      k
  }

  /** `path.rsplit(".", 1)`: module and class name. */
  function RSplitDot(path: string): (r: (string, string))
    requires '.' in path
    ensures path == r.0 + "." + r.1 && '.' !in r.1
  {
    var k := LastDot(path);
    assert path == path[..k] + "." + path[k + 1..];
    (path[..k], path[k + 1..])
  }

  /** The response class a template names. */
  function FindClass(path: string, finder: ClassFinder): Option<ResponseClass> {
    if '.' in path then
      var (m, c) := RSplitDot(path);
      finder.importClass(m, c)
    else finder.evalName(path)
  }

  /** Whether `if self.variables:` holds: set and not empty. */
  predicate HasVariables(st: PromptState) {
    st.variables.Some? && st.variables.value != map[]
  }

  /** `_apply_variables`: the prompt rendered again from the template. */
  function Applied(st: PromptState, vars: map<string, string>): PromptState {
    st.(prompt := Template.Render(st.promptTemplate, vars))
  }

  /** The assignments of `setup` before the response class is resolved:
    * the template's texts, the chosen model split into provider and model,
    * and the prompt rendered when the object has variables. */
  function Configured(st: PromptState, spec: PromptFiles.PromptSpec, aiModel: string): PromptState {
    ModelChosen(TextsCopied(st, spec), spec.model, aiModel)
  }

  /** The template's texts copied into the object, the prompt rendered when
    * the object has variables. */
  function TextsCopied(st: PromptState, spec: PromptFiles.PromptSpec): PromptState {
    st.(id := None, instructions := spec.instructions, promptTemplate := spec.prompt,
        prompt := RenderedWith(st.variables, spec.prompt), handoffs := spec.handoffs)
  }

  /** The prompt `setup` stores: the template rendered when there are
    * variables, else the template as it is. */
  function RenderedWith(variables: Option<map<string, string>>, template: string): string {
    if variables.Some? && variables.value != map[] then Template.Render(template, variables.value) else template
  }

  /** The chosen model split into provider and model name. */
  function ModelChosen(st: PromptState, templateModel: Option<string>, aiModel: string): PromptState {
    var split := Template.SplitModel(Template.ChooseModel(st.model, templateModel, aiModel), st.provider);
    st.(model := Some(split.1), provider := split.0)
  }

  /** The last assignments of `setup`. */
  function SetupDone(st: PromptState, spec: PromptFiles.PromptSpec): PromptState {
    st.(response := NoResponse, toolSchemas := spec.toolSchemas)
  }

  datatype SetupOutcome = SetupOutcome(state: PromptState, result: Result<(), SetupError>)

  /** `setup` once `load` has produced `loaded`. */
  function AfterSetup(st: PromptState, loaded: Result<PromptFiles.PromptSpec, PromptFiles.LoadError>, host: Host): SetupOutcome {
    if loaded.Failure? then SetupOutcome(st, Failure(LoadFailed(loaded.error)))
    else
      var spec := loaded.value;
      var st1 := Configured(st, spec, host.aiModel);
      if st1.responseClass.None? && spec.response != "" then
        match FindClass(spec.response, host.finder)
        case None => SetupOutcome(st1, Failure(ClassImportFailed(spec.response)))
        case Some(c) => SetupOutcome(SetupDone(st1.(responseClass := Some(c)), spec), Success(()))
      else SetupOutcome(SetupDone(st1, spec), Success(()))
  }

  /** A failed load changes nothing in the object. */
  lemma {:induction false} LoadFailureKeepsState(st: PromptState, e: PromptFiles.LoadError, host: Host)
    ensures AfterSetup(st, Failure(e), host) == SetupOutcome(st, Failure(LoadFailed(e)))
  {
  }

  /** Without an explicit model, the template's model is used, else the
    * configured default; the default `openai/gpt-4.1` gives provider
    * `openai` and model `gpt-4.1`. */
  lemma {:induction false} DefaultModel(st: PromptState, spec: PromptFiles.PromptSpec)
    requires st.model.None? && spec.model.None?
    ensures var st' := Configured(st, spec, Template.DefaultAiModel);
            st'.provider == Some("openai") && st'.model == Some("gpt-4.1")
  {
    assert Template.DefaultAiModel == "openai" + "/" + "gpt-4.1";
    Template.SplitModelOfJoin("openai", "gpt-4.1", st.provider);
  }

  /** An explicit model wins over the template's; one without '/' keeps the
    * provider given at construction. */
  lemma {:induction false} ExplicitModel(st: PromptState, spec: PromptFiles.PromptSpec, aiModel: string)
    requires st.model.Some? && '/' !in st.model.value
    ensures var st' := Configured(st, spec, aiModel);
            st'.model == st.model && st'.provider == st.provider
  {
  }

  /** After a successful setup the prompt is the template, rendered with
    * the constructor's variables when there are any. */
  lemma {:induction false} SetupRendersPrompt(st: PromptState, spec: PromptFiles.PromptSpec, host: Host)
    ensures var o := AfterSetup(st, Success(spec), host);
            && o.state.promptTemplate == spec.prompt
            && o.state.prompt == (if HasVariables(st) then Template.Render(spec.prompt, st.variables.value) else spec.prompt)
            && (o.result.Success? ==> o.state.toolSchemas == spec.toolSchemas && o.state.response == NoResponse)
  {
  }

  /** Rendering always restarts from the template, so applying the same
    * variables again gives the same prompt. */
  lemma {:induction false} ApplyIdempotent(st: PromptState, vars: map<string, string>)
    ensures Applied(Applied(st, vars), vars) == Applied(st, vars)
  {
  }

  // ---------------------------------------------------------------------
  // run and openai (app/ai_processor.py:231-241, 299-393)
  // ---------------------------------------------------------------------

  /** `str(x)` of an optional string. */
  function PyStr(x: Option<string>): string {
    if x.Some? then x.value else "None"
  }

  function ProviderMessage(provider: Option<string>): string {
    "Invalid provider/provider not set: " + PyStr(provider) + ". Only OpenAI is supported."
  }

  const OutOfFuelMessage := "tool-call rounds exceeded the bound of the model"

  /** What stays fixed in every request of one `openai()` call. */
  function ConfigOf(st: PromptState): RequestConfig {
    RequestConfig(st.instructions, st.model.GetOr(""),
                  Format(if st.responseClass.Some? then Some(st.responseClass.value.jsonSchema) else None),
                  RequestToolsOf(st.toolSchemas, st.fileIds))
  }

  datatype RunOutcome = RunOutcome(state: PromptState, tools: map<string, ToolEntry>, result: Result<string, string>)

  /** The final response of the tool loop, or the text of what ended it. */
  function FinalResponse(o: Outcome): Result<Response, string> {
    match o
    case Finished(last, _, _) => Success(last)
    case Failed(m) => Failure(m)
    case OutOfFuel => Failure(OutOfFuelMessage)
  }

  /** `openai(previous_response_id)`: the first request, the tool rounds,
    * then the fields taken from the final response. */
  function Ask(st: PromptState, previous: Option<string>, reg: map<string, ToolEntry>, host: Host): RunOutcome {
    var cfg := ConfigOf(st);
    var hist := InitialHistory(host.today, st.prompt, st.fileIds);
    match host.provider.create(MakeRequest(cfg, hist, previous))
    case Failure(e) => RunOutcome(st, reg, Failure(e))
    case Success(first) =>
      var c := Converse(host.fuel, first, hist, 0, reg, cfg, host.provider, host.env);
      AfterRounds(FirstRecorded(st, first), c.tools, FinalResponse(c.outcome))
  }

  /** The fields `openai` sets from the first response. */
  function FirstRecorded(st: PromptState, first: Response): PromptState {
    st.(id := Some(first.id), rawResponse := Some(first), containerId := ContainerOf(first))
  }

  /** The end of `openai` once the tool loop has given `last`. */
  function AfterRounds(st: PromptState, reg: map<string, ToolEntry>, last: Result<Response, string>): RunOutcome {
    match last
    case Failure(m) => RunOutcome(st, reg, Failure(m))
    case Success(resp) =>
      RunOutcome(st.(rawResponse := Some(resp), id := Some(resp.id),
                     textResponseObject := LastTextItem(resp.output),
                     outputFiles := OutputFiles(resp.output)),
                 reg, Success(OutputTextOf(resp.output)))
  }

  /** `run(previous_response_id, variables)`. */
  function Prepared(st: PromptState, vars: Option<map<string, string>>): PromptState {
    var st1 := st.(outputFiles := []);
    if vars.Some? then Applied(st1.(variables := vars), vars.value) else st1
  }

  function RunSpec(st: PromptState, previous: Option<string>, vars: Option<map<string, string>>,
                   reg: map<string, ToolEntry>, host: Host): RunOutcome {
    var st2 := Prepared(st, vars);
    if st2.provider != Some("openai") then RunOutcome(st2, reg, Failure(ProviderMessage(st2.provider)))
    else
      var o := Ask(st2, previous, reg, host);
      if o.result.Success? then o.(state := o.state.(response := TextValue(o.result.value))) else o
  }

  /** A provider other than `openai` is refused before any request: no tool
    * runs and the response is left as it was. */
  lemma {:induction false} OnlyOpenAI(st: PromptState, previous: Option<string>, vars: Option<map<string, string>>,
                   reg: map<string, ToolEntry>, host: Host)
    requires st.provider != Some("openai")
    ensures var o := RunSpec(st, previous, vars, reg, host);
            && o.result == Failure(ProviderMessage(st.provider))
            && o.tools == reg && o.state.response == st.response && o.state.outputFiles == []
  {
  }

  /** New variables replace the old ones and the prompt is rendered again
    * from the template, whatever it held before. */
  lemma {:induction false} RunRerenders(st: PromptState, previous: Option<string>, vars: map<string, string>,
                     reg: map<string, ToolEntry>, host: Host)
    ensures var o := RunSpec(st, previous, Some(vars), reg, host);
            o.state.variables == Some(vars) && o.state.prompt == Template.Render(st.promptTemplate, vars)
  {
    var st2 := Prepared(st, Some(vars));
    assert st2.variables == Some(vars) && st2.prompt == Template.Render(st.promptTemplate, vars);
    if st2.provider == Some("openai") {
      AskKeepsInputs(st2, previous, reg, host);
    }
  }

  /** A first response without function calls is the answer: one request,
    * its id, its text and its files. */
  lemma {:induction false} DirectAnswer(st: PromptState, previous: Option<string>, reg: map<string, ToolEntry>, host: Host, first: Response)
    requires host.provider.create(MakeRequest(ConfigOf(st), InitialHistory(host.today, st.prompt, st.fileIds), previous)) == Success(first)
    requires forall k :: 0 <= k < |first.output| ==> !first.output[k].FunctionCall?
    ensures var o := Ask(st, previous, reg, host);
            && o.result == Success(OutputTextOf(first.output))
            && o.tools == reg
            && o.state.id == Some(first.id) && o.state.rawResponse == Some(first)
            && o.state.containerId == ContainerOf(first)
            && o.state.outputFiles == OutputFiles(first.output)
            && o.state.textResponseObject == LastTextItem(first.output)
  {
    NoCallsNoRound(host.fuel, first, InitialHistory(host.today, st.prompt, st.fileIds), 0, reg,
                   ConfigOf(st), host.provider, host.env);
  }

  /** A run that fails after the first response keeps that response's id,
    * raw response and container, and leaves the output fields alone. */
  lemma {:induction false} FailureKeepsFirstResponse(st: PromptState, previous: Option<string>, reg: map<string, ToolEntry>,
                                  host: Host, first: Response)
    requires host.provider.create(MakeRequest(ConfigOf(st), InitialHistory(host.today, st.prompt, st.fileIds), previous)) == Success(first)
    ensures var o := Ask(st, previous, reg, host);
            o.result.Failure? ==>
              o.state == st.(id := Some(first.id), rawResponse := Some(first), containerId := ContainerOf(first))
  {
  }

  /** A successful run ends on a response without function calls, and the
    * object's id is that final response's id. */
  lemma {:induction false} AnswerHasNoCalls(st: PromptState, previous: Option<string>, reg: map<string, ToolEntry>, host: Host)
    ensures var o := Ask(st, previous, reg, host);
            o.result.Success? ==>
              && o.state.rawResponse.Some?
              && !HasFunctionCall(o.state.rawResponse.value.output)
              && o.state.id == Some(o.state.rawResponse.value.id)
              && o.result.value == OutputTextOf(o.state.rawResponse.value.output)
  {
    var cfg := ConfigOf(st);
    var hist := InitialHistory(host.today, st.prompt, st.fileIds);
    match host.provider.create(MakeRequest(cfg, hist, previous))
    case Failure(_) =>
    case Success(first) =>
      ConverseEnds(host.fuel, first, hist, 0, reg, cfg, host.provider, host.env);
  }

  // ---------------------------------------------------------------------
  // pydantic_response (app/ai_processor.py:264-274)
  // ---------------------------------------------------------------------

  /** What `pydantic_response` gives: a validated model, or the response
    * itself when it is neither a container nor text. */
  datatype Pydantic = Validated(model: Json) | Unchanged(value: ResponseValue)

  /** `json.loads` and `model_validate`, both of which may raise. */
  datatype Validator = Validator(parse: string -> Result<Json, string>,
                                 validate: (ResponseClass, Json) -> Result<Json, string>)

  const NoClassMessage := "'NoneType' object has no attribute 'model_validate'"

  /** `pydantic_response` of a response and a response class. A decoded
    * JSON string is a Python `str`, so it is parsed like the text answer. */
  function PydanticResponse(response: ResponseValue, cls: Option<ResponseClass>, v: Validator): (r: Result<Pydantic, string>)
    ensures response.NoResponse? ==> r == Success(Unchanged(response))
    ensures response.JsonValue? && (response.json.JNull? || response.json.JBool? || response.json.JNum?) ==>
              r == Success(Unchanged(response))
    ensures response.TextValue? || (response.JsonValue? && response.json.JStr?) ==>
              var t := if response.TextValue? then response.text else response.json.s;
              && (cls.None? ==> r == Failure(NoClassMessage))
              && (cls.Some? && v.parse(t).Failure? ==> r == Failure(v.parse(t).error))
              && (cls.Some? && v.parse(t).Success? ==> r == Validate(v.parse(t).value, cls, v))
    ensures response.JsonValue? && (response.json.JObj? || response.json.JArr?) ==> r == Validate(response.json, cls, v)
    ensures r.Success? && r.value.Validated? ==> cls.Some?
  {
    match response
    case NoResponse => Success(Unchanged(response))
    case TextValue(t) => ParseAndValidate(t, cls, v)
    case JsonValue(j) =>
      if j.JObj? || j.JArr? then Validate(j, cls, v)
      else if j.JStr? then ParseAndValidate(j.s, cls, v)
      else Success(Unchanged(response))
  }

  /** `model_validate(json.loads(text))`: without a response class the
    * attribute lookup fails first. */
  function ParseAndValidate(text: string, cls: Option<ResponseClass>, v: Validator): Result<Pydantic, string> {
    if cls.None? then Failure(NoClassMessage)
    else match v.parse(text)
      case Failure(e) => Failure(e)
      case Success(j) => Validate(j, cls, v)
  }

  /** `response_class.model_validate(j)`. */
  function Validate(j: Json, cls: Option<ResponseClass>, v: Validator): (r: Result<Pydantic, string>)
    ensures r.Success? ==> r.value.Validated? && cls.Some?
  {
    if cls.None? then Failure(NoClassMessage)
    else match v.validate(cls.value, j)
      case Failure(e) => Failure(e)
      case Success(m) => Success(Validated(m))
  }

  /** Text is validated as the JSON it decodes to: the text answer and the
    * decoded object give the same model. */
  lemma {:induction false} TextValidatedAsDecoded(t: string, j: Json, cls: ResponseClass, v: Validator)
    requires v.parse(t) == Success(j) && (j.JObj? || j.JArr?)
    ensures PydanticResponse(TextValue(t), Some(cls), v) == PydanticResponse(JsonValue(j), Some(cls), v)
  {
  }

  /** A JSON string is validated as the text it holds. */
  lemma {:induction false} StringValidatedAsText(t: string, cls: Option<ResponseClass>, v: Validator)
    ensures PydanticResponse(JsonValue(JStr(t)), cls, v) == PydanticResponse(TextValue(t), cls, v)
  {
  }

  // ---------------------------------------------------------------------
  // The object
  // ---------------------------------------------------------------------

  /** `self.files` keeps its keys in insertion order: `fileIds` lists them
    * once each. */
  predicate FilesInOrder(fileIds: seq<string>, files: map<string, FileInfo>) {
    && (forall i, j :: 0 <= i < j < |fileIds| ==> fileIds[i] != fileIds[j])
    && files.Keys == set k | k in fileIds
  }

  /** Setting up touches neither the file ids nor the files. */
  lemma {:induction false} SetupKeepsFiles(st: PromptState, loaded: Result<PromptFiles.PromptSpec, PromptFiles.LoadError>, host: Host)
    ensures AfterSetup(st, loaded, host).state.fileIds == st.fileIds
    ensures AfterSetup(st, loaded, host).state.files == st.files
  {
  }

  /** Nor does a run. */
  lemma {:induction false} RunKeepsFiles(st: PromptState, previous: Option<string>, vars: Option<map<string, string>>,
                                         reg: map<string, ToolEntry>, host: Host)
    ensures RunSpec(st, previous, vars, reg, host).state.fileIds == st.fileIds
    ensures RunSpec(st, previous, vars, reg, host).state.files == st.files
  {
    var st2 := Prepared(st, vars);
    assert st2.fileIds == st.fileIds && st2.files == st.files;
    if st2.provider == Some("openai") {
      AskKeepsInputs(st2, previous, reg, host);
    }
  }

  /** The provider's answer touches neither the files nor the variables
    * and the rendered prompt. */
  lemma {:induction false} AskKeepsInputs(st: PromptState, previous: Option<string>, reg: map<string, ToolEntry>, host: Host)
    ensures Ask(st, previous, reg, host).state.fileIds == st.fileIds
    ensures Ask(st, previous, reg, host).state.files == st.files
    ensures Ask(st, previous, reg, host).state.variables == st.variables
    ensures Ask(st, previous, reg, host).state.prompt == st.prompt
  {
    var hist := InitialHistory(host.today, st.prompt, st.fileIds);
    match host.provider.create(MakeRequest(ConfigOf(st), hist, previous))
    case Failure(_) =>
    case Success(first) =>
      var c := Converse(host.fuel, first, hist, 0, reg, ConfigOf(st), host.provider, host.env);
      AfterRoundsKeepsInputs(FirstRecorded(st, first), c.tools, FinalResponse(c.outcome));
  }

  lemma {:induction false} AfterRoundsKeepsInputs(st: PromptState, reg: map<string, ToolEntry>, last: Result<Response, string>)
    ensures AfterRounds(st, reg, last).state.fileIds == st.fileIds
    ensures AfterRounds(st, reg, last).state.files == st.files
    ensures AfterRounds(st, reg, last).state.variables == st.variables
    ensures AfterRounds(st, reg, last).state.prompt == st.prompt
  {
  }

  class Prompt {
    var name: string
    var variables: Option<map<string, string>>
    var responseClass: Option<ResponseClass>
    var model: Option<string>
    var provider: Option<string>
    var fileIds: seq<string>
    var files: map<string, FileInfo>
    var id: Option<string>
    var instructions: string
    var promptTemplate: string
    var prompt: string
    var handoffs: seq<string>
    var toolSchemas: seq<ToolSchema>
    var response: ResponseValue
    var rawResponse: Option<Response>
    var containerId: Option<string>
    var textResponseObject: Option<ContentItem>
    var outputFiles: seq<OutputFile>

    function State(): PromptState
      reads this
    {
      PromptState(name, variables, responseClass, model, provider, fileIds, files, id, instructions,
                  promptTemplate, prompt, handoffs, toolSchemas, response, rawResponse, containerId,
                  textResponseObject, outputFiles)
    }

    predicate Valid()
      reads this
    {
      FilesInOrder(fileIds, files)
    }

    constructor(name: string, variables: Option<map<string, string>>, responseClass: Option<ResponseClass>,
                model: Option<string>, provider: Option<string>)
      ensures State() == Initial(name, variables, responseClass, model, provider)
      ensures Valid()
    {
      this.name := name;
      this.variables := variables;
      this.responseClass := responseClass;
      this.model := model;
      this.provider := provider;
      fileIds := [];
      files := map[];
      id := None;
      instructions := "";
      promptTemplate := "";
      prompt := "";
      handoffs := [];
      toolSchemas := [];
      response := NoResponse;
      rawResponse := None;
      containerId := None;
      textResponseObject := None;
      outputFiles := [];
    }

    /** `_apply_variables()`. */
    method ApplyVariables()
      requires variables.Some?
      modifies this
      ensures State() == Applied(old(State()), old(variables.value))
    {
      prompt := promptTemplate;
      prompt := Template.Render(prompt, variables.value);
    }

    /** `await self.setup()`. */
    method Setup(loader: PromptFiles.PromptLoader, registry: Registry, host: Host)
      returns (r: Result<(), SetupError>)
      modifies this, loader, registry
      ensures var l := PromptFiles.LoadTemplate(old(loader.cache), host.fs, loader.promptsDir, old(name),
                                                old(registry.tools), host.env);
              && loader.cache == l.cache && registry.tools == l.tools
              && SetupOutcome(State(), r) == AfterSetup(old(State()), l.result, host)
      ensures old(Valid()) ==> Valid()
    {
      ghost var before := State();
      var loaded := loader.Load(name, host.fs, registry, host.env);
      if loaded.Failure? {
        return Failure(LoadFailed(loaded.error));
      }
      Configure(loaded.value, host.aiModel);
      r := FinishSetup(loaded.value, host.finder);
      SetupKeepsFiles(before, Success(loaded.value), host);
    }

    /** The assignments of `setup` up to the variables. */
    method Configure(spec: PromptFiles.PromptSpec, aiModel: string)
      modifies this
      ensures State() == Configured(old(State()), spec, aiModel)
    {
      CopyTexts(spec);
      ChooseModel(spec.model, aiModel);
    }

    /** The template's texts, and the prompt rendered from them. */
    method CopyTexts(spec: PromptFiles.PromptSpec)
      modifies this
      ensures State() == TextsCopied(old(State()), spec)
    {
      var rendered := RenderedWith(variables, spec.prompt);
      id, instructions, promptTemplate, prompt, handoffs := None, spec.instructions, spec.prompt, rendered, spec.handoffs;
    }

    /** The model: the object's, else the template's, else the default. */
    method ChooseModel(templateModel: Option<string>, aiModel: string)
      modifies this
      ensures State() == ModelChosen(old(State()), templateModel, aiModel)
    {
      var split := Template.SplitModel(Template.ChooseModel(model, templateModel, aiModel), provider);
      model := Some(split.1);
      provider := split.0;
    }

    /** The response class and the last assignments of `setup`. */
    method FinishSetup(spec: PromptFiles.PromptSpec, finder: ClassFinder) returns (r: Result<(), SetupError>)
      modifies this
      ensures var st := old(State());
              if st.responseClass.None? && spec.response != "" then
                match FindClass(spec.response, finder)
                case None => State() == st && r == Failure(ClassImportFailed(spec.response))
                case Some(c) => State() == SetupDone(st.(responseClass := Some(c)), spec) && r == Success(())
              else State() == SetupDone(st, spec) && r == Success(())
    {
      if responseClass.None? && spec.response != "" {
        var found := FindClass(spec.response, finder);
        if found.None? {
          return Failure(ClassImportFailed(spec.response));
        }
        responseClass := found;
      }
      response := NoResponse;
      toolSchemas := spec.toolSchemas;
      r := Success(());
    }

    /** `Prompt.create(...)`: construction followed by `setup`. */
    static method Create(name: string, variables: Option<map<string, string>>, responseClass: Option<ResponseClass>,
                         model: Option<string>, provider: Option<string>,
                         loader: PromptFiles.PromptLoader, registry: Registry, host: Host)
      returns (r: Result<Prompt, SetupError>)
      modifies loader, registry
      ensures var l := PromptFiles.LoadTemplate(old(loader.cache), host.fs, loader.promptsDir, name,
                                                old(registry.tools), host.env);
              var o := AfterSetup(Initial(name, variables, responseClass, model, provider), l.result, host);
              && loader.cache == l.cache && registry.tools == l.tools
              && (r.Success? <==> o.result.Success?)
              && (r.Failure? ==> r.error == o.result.error)
              && (r.Success? ==> fresh(r.value) && r.value.State() == o.state && r.value.Valid())
    {
      var p := new Prompt(name, variables, responseClass, model, provider);
      var s := p.Setup(loader, registry, host);
      if s.Failure? {
        return Failure(s.error);
      }
      r := Success(p);
    }

    /** `await self.run(previous_response_id, variables)`. */
    method Run(previous: Option<string>, vars: Option<map<string, string>>, registry: Registry, host: Host)
      returns (r: Result<string, string>)
      modifies this, registry
      ensures var o := RunSpec(old(State()), previous, vars, old(registry.tools), host);
              State() == o.state && registry.tools == o.tools && r == o.result
      ensures old(Valid()) ==> Valid()
    {
      RunKeepsFiles(State(), previous, vars, registry.tools, host);
      PrepareRun(vars);
      if provider != Some("openai") {
        return Failure(ProviderMessage(provider));
      }
      r := OpenAI(previous, registry, host);
      if r.Success? {
        response := TextValue(r.value);
      }
    }

    /** The first lines of `run`: no output files yet, and the prompt
      * rendered again when new variables are given. */
    method PrepareRun(vars: Option<map<string, string>>)
      modifies this
      ensures State() == Prepared(old(State()), vars)
    {
      outputFiles := [];
      if vars.Some? {
        variables := vars;
        ApplyVariables();
      }
    }

    /** `await self.openai(previous_response_id)`. */
    method OpenAI(previous: Option<string>, registry: Registry, host: Host) returns (r: Result<string, string>)
      modifies this, registry
      ensures var o := Ask(old(State()), previous, old(registry.tools), host);
              State() == o.state && registry.tools == o.tools && r == o.result
    {
      var cfg, history, created := FirstRequest(previous, host);
      if created.Failure? {
        return Failure(created.error);
      }
      var first := created.value;
      ghost var st := State();
      id := Some(first.id);
      rawResponse := Some(first);
      containerId := ContainerOf(first);
      assert State() == FirstRecorded(st, first);
      var last := ToolRounds(first, history, cfg, registry, host);
      r := FinishAnswer(last);
    }

    /** The end of `openai`: the final response's fields, its text and
      * files, or the failure of the loop. */
    method FinishAnswer(last: Result<Response, string>) returns (r: Result<string, string>)
      modifies this
      ensures var o := AfterRounds(old(State()), map[], last);
              State() == o.state && r == o.result
    {
      if last.Failure? {
        return Failure(last.error);
      }
      ghost var st := State();
      var text, found := ExtractOutputs(last.value.output);
      rawResponse, id, textResponseObject, outputFiles := Some(last.value), Some(last.value.id), text, found;
      assert State() == st.(rawResponse := Some(last.value), id := Some(last.value.id),
                            textResponseObject := text, outputFiles := found);
      r := Success(OutputTextOf(last.value.output));
    }

    /** The first request of `openai`: its fixed parts and the history it
      * starts, and the provider's answer. */
    method FirstRequest(previous: Option<string>, host: Host)
      returns (cfg: RequestConfig, history: seq<Message>, created: Result<Response, string>)
      ensures cfg == ConfigOf(State())
      ensures history == InitialHistory(host.today, prompt, fileIds)
      ensures created == host.provider.create(MakeRequest(cfg, history, previous))
    {
      var parts := BuildUserContent(prompt, fileIds);
      history := [DateMessage(host.today), UserMessage(parts)];
      var tools := RequestTools(toolSchemas, fileIds);
      cfg := RequestConfig(instructions, model.GetOr(""),
                           Format(if responseClass.Some? then Some(responseClass.value.jsonSchema) else None),
                           tools);
      created := host.provider.create(MakeRequest(cfg, history, previous));
    }

    /** The `while` loop of `openai`: tool rounds until a response has no
      * function call. */
    static method ToolRounds(first: Response, hist: seq<Message>, cfg: RequestConfig, registry: Registry, host: Host)
      returns (r: Result<Response, string>)
      modifies registry
      ensures var c := Converse(host.fuel, first, hist, 0, old(registry.tools), cfg, host.provider, host.env);
              registry.tools == c.tools && r == FinalResponse(c.outcome)
    {
      var history := hist;
      var current := first;
      var rounds: nat := 0;
      while HasFunctionCall(current.output)
        invariant rounds <= host.fuel
        invariant Converse(host.fuel - rounds, current, history, rounds, registry.tools, cfg, host.provider, host.env)
                  == Converse(host.fuel, first, hist, 0, old(registry.tools), cfg, host.provider, host.env)
        decreases host.fuel - rounds
      {
        if rounds == host.fuel {
          return Failure(OutOfFuelMessage);
        }
        var round := RunRound(current.output, history, registry, host.provider, host.env);
        if round.Failure? {
          return Failure(round.error);
        }
        history := round.value;
        var next := host.provider.create(MakeRequest(cfg, history, None));
        if next.Failure? {
          return Failure(next.error);
        }
        current := next.value;
        rounds := rounds + 1;
      }
      r := Success(current);
    }

    /** The bookkeeping of `upload_file`: the provider's file id recorded
      * with its title and path; a known id keeps its place in the order. */
    method RecordFile(fileId: string, title: string, filePath: string)
      requires Valid()
      modifies this
      ensures Valid()
      ensures files == old(files)[fileId := FileInfo(title, filePath)]
      ensures fileIds == if fileId in old(files) then old(fileIds) else old(fileIds) + [fileId]
      ensures State() == old(State()).(files := files, fileIds := fileIds)
    {
      if fileId !in files {
        fileIds := fileIds + [fileId];
      }
      files := files[fileId := FileInfo(title, filePath)];
    }
  }
}
