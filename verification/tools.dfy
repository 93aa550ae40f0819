/**
 * The process-wide tool registry of app/ai_tools.py: `_tool_dict`,
 * `register_tools`, `get_registered_tools`, `_getf` (lookup with
 * memoisation of a function resolved from its module) and
 * `handle_openai_function` (schema construction and call preparation).
 *
 * Python introspection is abstracted: a callable is known by the parameter
 * class of its first parameter (when that is a pydantic `BaseModel`
 * subclass) and by its docstring; module import, pydantic validation and
 * the call itself are functions supplied in an `Env`.
 */
module ToolRegistry {
  import opened Wrappers
  import Text

  /** A pydantic `BaseModel` subclass and its `model_json_schema()`. */
  datatype ParamClass = ParamClass(className: string, jsonSchema: Json)

  /** A Python function as far as the registry can observe it. */
  datatype Callable = Callable(qualifiedName: string, paramClass: Option<ParamClass>, doc: Option<string>)

  /** One `_tool_dict` entry: `{"module": ..., "function": ...}`. */
  datatype ToolEntry = ToolEntry(moduleName: Option<string>, func: Option<Callable>)

  /** The `container` a request attaches to a code-interpreter tool. */
  datatype Container = AutoContainer(fileIds: Option<seq<string>>)

  /** A tool description as sent to the provider: a builtin `{"type": kind}`
    * (optionally with a container) or a function schema. */
  datatype ToolSchema =
    | BuiltinTool(kind: string, container: Option<Container>)
    | FunctionTool(name: string, description: string, strict: bool, parameters: Json)

  /** The class of an exception raised by validation or by the tool. */
  datatype ExcKind = TypeErr | ValueErr | OtherErr
  datatype Raised = Raised(kind: ExcKind, message: string)

  /** What `importlib.import_module` followed by `getattr(module, name, None)` gives. */
  datatype ImportOutcome = Attribute(f: Callable) | NoAttribute | ImportFailed(message: string)

  /** The parts of the running process the registry depends on. */
  datatype Env = Env(
    importAttr: (string, string) -> ImportOutcome,
    debug: bool,
    validate: (ParamClass, map<string, Json>) -> Result<Json, Raised>,
    invoke: (Callable, Json) -> Result<string, Raised>)

  datatype ToolError =
    | MissingRegistration
    | AmbiguousRegistration
    | NotRecognized(name: string)
    | NotDefined(name: string, reason: string)
    | NotRetrieved(name: string)
    | NoSchema(name: string)
    | InvalidParameters(name: string, detail: string)
    | ValidationFailed(name: string, detail: string)
    | ExecutionFailed(name: string, detail: string)
  {
    /** The text of the exception the source raises. */
    function Message(): string {
      match this
      case MissingRegistration => "Either 'module' or 'function' parameter must be provided"
      case AmbiguousRegistration => "Cannot provide both 'module' and 'function' parameters"
      case NotRecognized(n) => "Function '" + n + "' is not recognized."
      case NotDefined(n, reason) => "Function name " + n + " not defined - " + reason
      case NotRetrieved(n) => "Function '" + n + "' could not be retrieved."
      case NoSchema(n) => "No Pydantic schema defined for function '" + n + "'."
      case InvalidParameters(n, d) => "Invalid parameters for function '" + n + "': " + d
      case ValidationFailed(n, d) => "Validation error for function '" + n + "': " + d
      case ExecutionFailed(n, d) => "Error executing function '" + n + "': " + d
    }
  }

  /** `_tool_dict` at import time. */
  const InitialTools: map<string, ToolEntry> := map["webscrape" := ToolEntry(Some("ai_tools"), None)]

  /** The registry after a `_getf` lookup, and what the lookup returned. */
  datatype Lookup = Lookup(tools: map<string, ToolEntry>, result: Result<Option<Callable>, ToolError>)

  /** `_getf(name)`: a stored function is returned as is; otherwise the
    * function is resolved from the entry's module and written back. */
  function Resolve(tools: map<string, ToolEntry>, name: string, env: Env): (l: Lookup)
    ensures name !in tools ==> l.result.Failure? && l.result.error.NotDefined?
    ensures l.result.Failure? ==> l.tools == tools
    ensures l.tools.Keys == tools.Keys
    ensures forall k :: k in tools && k != name ==> l.tools[k] == tools[k]
    ensures name in tools && tools[name].func.Some? ==> l == Lookup(tools, Success(tools[name].func))
    ensures l.result.Success? && l.result.value.Some? ==> l.tools[name].func == l.result.value
    ensures l.result.Success? && l.result.value.None? ==> l.tools == tools && !env.debug
  {
    if name !in tools then
      Lookup(tools, Failure(NotDefined(name, "Function name '" + name + "' not defined in _tool_dict.")))
    else
      var info := tools[name];
      if info.func.Some? then Lookup(tools, Success(info.func))
      else if info.moduleName.None? || info.moduleName.value == "" then
        Lookup(tools, Failure(NotDefined(name, "No module specified for function '" + name + "'")))
      else
        match env.importAttr(info.moduleName.value, name)
        case ImportFailed(msg) => Lookup(tools, Failure(NotDefined(name, msg)))
        case NoAttribute =>
          if env.debug then
            Lookup(tools, Failure(NotDefined(name, "Function '" + name + "' could not be found in module '" + info.moduleName.value + "'.")))
          else Lookup(tools, Success(None))
        case Attribute(f) => Lookup(tools[name := info.(func := Some(f))], Success(Some(f)))
  }

  /** Once a lookup has produced a function, every later lookup of that name
    * returns the same function and the same registry, whatever the module
    * system would now resolve: the function is not resolved again. */
  lemma {:induction false} ResolveMemoises(tools: map<string, ToolEntry>, name: string, env: Env, later: Env)
    requires Resolve(tools, name, env).result.Success?
    requires Resolve(tools, name, env).result.value.Some?
    ensures var l := Resolve(tools, name, env);
            Resolve(l.tools, name, later) == Lookup(l.tools, l.result)
  {
  }

  /** `params["email"] = user` when a user is given and `email` is absent. */
  function WithUserEmail(params: map<string, Json>, user: Option<string>): (p: map<string, Json>)
    ensures "email" in params ==> p == params
    ensures (user.None? || user.value == "") ==> p == params
    ensures "email" !in params && user.Some? && user.value != "" ==> p == params["email" := JStr(user.value)]
  {
    if user.Some? && user.value != "" && "email" !in params then params["email" := JStr(user.value)] else params
  }

  /** The description of a function schema: the stripped docstring, or "". */
  function Description(doc: Option<string>): string {
    if doc.Some? && doc.value != "" then Text.Strip(doc.value) else ""
  }

  /** An exception of the validation or of the call, as re-raised by
    * `handle_openai_function`. */
  function WrapRaised(name: string, e: Raised): (err: ToolError)
    ensures e.kind == TypeErr <==> err == InvalidParameters(name, e.message)
    ensures e.kind == ValueErr <==> err == ValidationFailed(name, e.message)
    ensures e.kind == OtherErr <==> err == ExecutionFailed(name, e.message)
  {
    match e.kind
    case TypeErr => InvalidParameters(name, e.message)
    case ValueErr => ValidationFailed(name, e.message)
    case OtherErr => ExecutionFailed(name, e.message)
  }

  datatype HandlerOutput = SchemaOut(schema: ToolSchema) | CallOut(output: string)

  /** The registry after `handle_openai_function`, and its result. */
  datatype Handled = Handled(tools: map<string, ToolEntry>, result: Result<HandlerOutput, ToolError>)

  /** Runs the prepared call: validation into the parameter class when there
    * is one, else the raw dictionary, then the tool itself. */
  function Invoke(name: string, f: Callable, params: map<string, Json>, env: Env): Result<string, ToolError> {
    var outcome :=
      if f.paramClass.Some? then
        match env.validate(f.paramClass.value, params)
        case Failure(e) => Failure(e)
        case Success(v) => env.invoke(f, v)
      else env.invoke(f, JObj(params));
    match outcome
    case Success(s) => Success(s)
    case Failure(e) => Failure(WrapRaised(name, e))
  }

  /** `handle_openai_function(FunctionRequest(name, params, user), schema)`. */
  function Handle(tools: map<string, ToolEntry>, name: string, params: map<string, Json>,
                  user: Option<string>, schemaMode: bool, env: Env): (h: Handled)
    ensures h.tools.Keys == tools.Keys
    ensures forall k :: k in tools && k != name ==> h.tools[k] == tools[k]
    ensures h.result.Success? ==> (h.result.value.SchemaOut? <==> schemaMode)
  {
    if name !in tools then Handled(tools, Failure(NotRecognized(name)))
    else
      var l := Resolve(tools, name, env);
      if l.result.Failure? then Handled(l.tools, Failure(l.result.error))
      else if l.result.value.None? then Handled(l.tools, Failure(NotRetrieved(name)))
      else
        var f := l.result.value.value;
        if schemaMode then
          if f.paramClass.None? then Handled(l.tools, Failure(NoSchema(name)))
          else Handled(l.tools, Success(SchemaOut(FunctionTool(name, Description(f.doc), false, f.paramClass.value.jsonSchema))))
        else
          match Invoke(name, f, WithUserEmail(params, user), env)
          case Success(s) => Handled(l.tools, Success(CallOut(s)))
          case Failure(e) => Handled(l.tools, Failure(e))
  }

  /** An unregistered name is refused before any lookup or call: the result
    * does not depend on the environment and the registry is unchanged. */
  lemma {:induction false} UnknownNameRefused(tools: map<string, ToolEntry>, name: string, params: map<string, Json>,
                           user: Option<string>, schemaMode: bool, env: Env)
    requires name !in tools
    ensures Handle(tools, name, params, user, schemaMode, env) == Handled(tools, Failure(NotRecognized(name)))
  {
  }

  /** Schema mode returns the function schema exactly when the function's
    * first parameter has a pydantic class, and never calls the tool. */
  lemma {:induction false} SchemaMode(tools: map<string, ToolEntry>, name: string, params: map<string, Json>,
                   user: Option<string>, env: Env)
    requires name in tools
    requires Resolve(tools, name, env).result.Success?
    requires Resolve(tools, name, env).result.value.Some?
    ensures var f := Resolve(tools, name, env).result.value.value;
            var h := Handle(tools, name, params, user, true, env);
            && h.tools == Resolve(tools, name, env).tools
            && (f.paramClass.None? <==> h.result == Failure(NoSchema(name)))
            && (f.paramClass.Some? ==>
                h.result == Success(SchemaOut(FunctionTool(name, Description(f.doc), false, f.paramClass.value.jsonSchema))))
  {
  }

  /** Call mode hands the tool the parameters with the user's email added
    * (validated into the parameter class when there is one), and reports
    * each kind of failure under its own message. */
  lemma {:induction false} CallMode(tools: map<string, ToolEntry>, name: string, params: map<string, Json>,
                 user: Option<string>, env: Env)
    requires name in tools
    requires Resolve(tools, name, env).result.Success?
    requires Resolve(tools, name, env).result.value.Some?
    ensures var f := Resolve(tools, name, env).result.value.value;
            var p := WithUserEmail(params, user);
            var h := Handle(tools, name, params, user, false, env);
            && (f.paramClass.None? ==>
                  match env.invoke(f, JObj(p))
                  case Success(s) => h.result == Success(CallOut(s))
                  case Failure(e) => h.result == Failure(WrapRaised(name, e)))
            && (f.paramClass.Some? && env.validate(f.paramClass.value, p).Failure? ==>
                  h.result == Failure(WrapRaised(name, env.validate(f.paramClass.value, p).error)))
            && (f.paramClass.Some? && env.validate(f.paramClass.value, p).Success? ==>
                  match env.invoke(f, env.validate(f.paramClass.value, p).value)
                  case Success(s) => h.result == Success(CallOut(s))
                  case Failure(e) => h.result == Failure(WrapRaised(name, e)))
  {
  }

  /** The process-wide `_tool_dict`. */
  class Registry {
    var tools: map<string, ToolEntry>

    constructor()
      ensures tools == InitialTools
    {
      tools := InitialTools;
    }

    /** `register_tools(name, module, function)`. */
    method RegisterTools(name: string, moduleName: Option<string>, func: Option<Callable>)
      returns (r: Result<(), ToolError>)
      modifies this
      ensures moduleName.None? && func.None? ==> r == Failure(MissingRegistration) && tools == old(tools)
      ensures moduleName.Some? && func.Some? ==> r == Failure(AmbiguousRegistration) && tools == old(tools)
      ensures moduleName.Some? != func.Some? ==>
                r == Success(()) && tools == old(tools)[name := ToolEntry(moduleName, func)]
    {
      if moduleName.None? && func.None? {
        return Failure(MissingRegistration);
      }
      if moduleName.Some? && func.Some? {
        return Failure(AmbiguousRegistration);
      }
      tools := tools[name := ToolEntry(moduleName, func)];
      r := Success(());
    }

    /** `get_registered_tools()`: a copy, so later changes to it cannot reach the registry. */
    method GetRegisteredTools() returns (copy: map<string, ToolEntry>)
      ensures copy == tools
    {
      copy := map k | k in tools :: tools[k];
    }

    /** `_getf(name)`. */
    method Getf(name: string, env: Env) returns (r: Result<Option<Callable>, ToolError>)
      modifies this
      ensures Lookup(tools, r) == Resolve(old(tools), name, env)
    {
      if name !in tools {
        return Failure(NotDefined(name, "Function name '" + name + "' not defined in _tool_dict."));
      }
      var info := tools[name];
      if info.func.Some? {
        return Success(info.func);
      }
      if info.moduleName.None? || info.moduleName.value == "" {
        return Failure(NotDefined(name, "No module specified for function '" + name + "'"));
      }
      var found := env.importAttr(info.moduleName.value, name);
      match found {
        case ImportFailed(msg) =>
          r := Failure(NotDefined(name, msg));
        case NoAttribute =>
          if env.debug {
            r := Failure(NotDefined(name, "Function '" + name + "' could not be found in module '" + info.moduleName.value + "'."));
          } else {
            r := Success(None);
          }
        case Attribute(f) =>
          tools := tools[name := info.(func := Some(f))];
          r := Success(Some(f));
      }
    }

    /** `handle_openai_function(data, schema)`. */
    method HandleOpenAIFunction(name: string, params: map<string, Json>, user: Option<string>,
                                schemaMode: bool, env: Env)
      returns (r: Result<HandlerOutput, ToolError>)
      modifies this
      ensures Handled(tools, r) == Handle(old(tools), name, params, user, schemaMode, env)
    {
      if name !in tools {
        return Failure(NotRecognized(name));
      }
      var found := Getf(name, env);
      if found.Failure? {
        return Failure(found.error);
      }
      if found.value.None? {
        return Failure(NotRetrieved(name));
      }
      var f := found.value.value;
      if schemaMode {
        if f.paramClass.None? {
          return Failure(NoSchema(name));
        }
        return Success(SchemaOut(FunctionTool(name, Description(f.doc), false, f.paramClass.value.jsonSchema)));
      }
      var p := params;
      if user.Some? && user.value != "" && "email" !in p {
        p := p["email" := JStr(user.value)];
      }
      var outcome: Result<string, Raised>;
      if f.paramClass.Some? {
        var validated := env.validate(f.paramClass.value, p);
        if validated.Failure? {
          outcome := Failure(validated.error);
        } else {
          outcome := env.invoke(f, validated.value);
        }
      } else {
        outcome := env.invoke(f, JObj(p));
      }
      match outcome {
        case Success(s) => r := Success(CallOut(s));
        case Failure(e) => r := Failure(WrapRaised(name, e));
      }
    }
  }
}
