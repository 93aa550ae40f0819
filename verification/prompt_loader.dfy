/**
 * `Prompt.load` of app/ai_processor.py: reading a template file, checking
 * its mandatory sections, splitting its tool and handoff lists, turning
 * each tool into a schema, and the class-wide `_cache` of loaded templates.
 *
 * The file system is a map from path to file content.
 */
module PromptFiles {
  import opened Wrappers
  import Text
  import Template
  import opened ToolRegistry

  /** The dictionary `load` returns. */
  datatype PromptSpec = PromptSpec(
    instructions: string,
    prompt: string,
    model: Option<string>,
    tools: seq<string>,
    toolSchemas: seq<ToolSchema>,
    response: string,
    handoffs: seq<string>)

  datatype LoadError =
    | HttpError(status: nat, detail: string)
      /** `None.strip()`: an empty `instruction` section and no `instructions`. */
    | InstructionMissing
    | ToolFailed(error: ToolError)
  {
    function Message(): string {
      match this
      case HttpError(_, d) => d
      case InstructionMissing => "'NoneType' object has no attribute 'strip'"
      case ToolFailed(e) => e.Message()
    }
  }

  /** `os.path.join(directory, name + ".md")`: an absolute name replaces
    * the directory, and no separator is added after one already there. */
  function PromptPath(directory: string, name: string): (path: string)
    ensures Text.EndsWith(path, ".md")
  {
    var file := name + ".md";
    if |name| > 0 && name[0] == '/' then file
    else if directory == [] || directory[|directory| - 1] == '/' then directory + file
    else directory + "/" + file
  }

  /** The sections check of `load`. */
  predicate MissingSections(sections: map<string, string>) {
    ("instruction" !in sections && "instructions" !in sections) || "prompt" !in sections
  }

  /** `(sections.get("instruction") or sections.get("instructions")).strip()`. */
  function Instructions(sections: map<string, string>): (r: Result<string, LoadError>)
    ensures r.Success? ==> Text.IsStripped(r.value)
    ensures "instruction" in sections && sections["instruction"] != "" ==>
              r == Success(Text.Strip(sections["instruction"]))
    ensures r.Failure? <==>
              ("instructions" !in sections && ("instruction" in sections ==> sections["instruction"] == ""))
  {
    Text.StripSpec(if "instruction" in sections then sections["instruction"] else "");
    Text.StripSpec(if "instructions" in sections then sections["instructions"] else "");
    if "instruction" in sections && sections["instruction"] != "" then Success(Text.Strip(sections["instruction"]))
    else if "instructions" in sections then Success(Text.Strip(sections["instructions"]))
    else Failure(InstructionMissing)
  }

  /** The tokens of a list section, or none when the section is absent. */
  function SectionTokens(sections: map<string, string>, key: string): seq<string> {
    if key in sections then Template.SplitTokens(sections[key]) else []
  }

  /** The list without any occurrence of `x`, order kept. */
  function Without(ts: seq<string>, x: string): (r: seq<string>)
    ensures x !in r
    ensures forall t :: t in r <==> t in ts && t != x
    ensures |r| <= |ts|
  {
    if ts == [] then []
    else (if ts[0] == x then [] else [ts[0]]) + Without(ts[1..], x)
  }

  /** Removal distributes over concatenation, so the kept tokens stay in
    * their order. */
  lemma {:induction false} WithoutAppend(a: seq<string>, b: seq<string>, x: string)
    ensures Without(a + b, x) == Without(a, x) + Without(b, x)
    decreases |a|
  {
    if a == [] {
      assert a + b == b;
    } else {
      assert (a + b)[0] == a[0] && (a + b)[1..] == a[1..] + b;
      WithoutAppend(a[1..], b, x);
    }
  }

  /** A single token is dropped exactly when it is `x`. */
  lemma {:induction false} WithoutSingle(t: string, x: string)
    ensures Without([t], x) == if t == x then [] else [t]
  {
    assert [t][1..] == [];
  }

  /** The tool names of a template: its `tools` tokens without `mcp.tools`. */
  function ToolNames(sections: map<string, string>): seq<string> {
    Without(SectionTokens(sections, "tools"), "mcp.tools")
  }

  /** The fixed schema of a builtin tool name, if it is one. */
  function BuiltinSchema(tool: string): (s: Option<ToolSchema>)
    ensures s.Some? ==> s.value.BuiltinTool? && s.value.container.None?
    ensures tool == "web_search" ==> s == Some(BuiltinTool("web_search_preview", None))
  {
    if tool == "code_interpreter" then Some(BuiltinTool("code_interpreter", None))
    else if tool == "web_search_preview" || tool == "web_search" then Some(BuiltinTool("web_search_preview", None))
    else if tool == "image_generation" then Some(BuiltinTool("image_generation", None))
    else None
  }

  datatype Schemas = Schemas(tools: map<string, ToolEntry>, result: Result<seq<ToolSchema>, ToolError>)

  /** The schema loop of `load` over `names`, after the schemas `acc`: a
    * builtin gets its literal, any other name the registry's schema; the
    * first registry failure ends the loop. */
  function SchemaList(names: seq<string>, acc: seq<ToolSchema>, reg: map<string, ToolEntry>, env: Env): (s: Schemas)
    ensures s.tools.Keys == reg.Keys
    decreases |names|
  {
    if names == [] then Schemas(reg, Success(acc))
    else
      var builtin := BuiltinSchema(names[0]);
      if builtin.Some? then SchemaList(names[1..], acc + [builtin.value], reg, env)
      else
        var h := Handle(reg, names[0], map[], None, true, env);
        if h.result.Failure? then Schemas(h.tools, Failure(h.result.error))
        else SchemaList(names[1..], acc + [h.result.value.schema], h.tools, env)
  }

  /** The registry after one step of the schema loop: a builtin leaves it
    * alone, a lookup may cache what it resolved. */
  function StepRegistry(name: string, reg: map<string, ToolEntry>, env: Env): map<string, ToolEntry> {
    if BuiltinSchema(name).Some? then reg else Handle(reg, name, map[], None, true, env).tools
  }

  /** The registry once the schema loop has passed `names`. */
  function RegistryAfter(names: seq<string>, reg: map<string, ToolEntry>, env: Env): map<string, ToolEntry>
    decreases |names|
  {
    if names == [] then reg else RegistryAfter(names[1..], StepRegistry(names[0], reg, env), env)
  }

  /** The schema of `name` at position `k` of a successful schema list,
    * with `reg` the registry at that step: the builtin literal, or the
    * function schema the registry's lookup returns for that name. */
  predicate SchemaAt(v: seq<ToolSchema>, k: nat, name: string, reg: map<string, ToolEntry>, env: Env)
    requires k < |v|
  {
    if BuiltinSchema(name).Some? then v[k] == BuiltinSchema(name).value
    else
      var h := Handle(reg, name, map[], None, true, env);
      && h.result.Success? && v[k] == h.result.value.schema
      && v[k].FunctionTool? && v[k].name == name
  }

  /** A schema loop result that, if successful, extends `acc` by one schema
    * per name, in order: the builtin literal, or the registry's schema for
    * that name as the registry stands after the names before it. */
  predicate ExtendsBySchemas(s: Schemas, acc: seq<ToolSchema>, names: seq<string>, reg: map<string, ToolEntry>, env: Env) {
    s.result.Success? ==>
      && |s.result.value| == |acc| + |names|
      && s.result.value[..|acc|] == acc
      && forall k :: 0 <= k < |names| ==>
           SchemaAt(s.result.value, |acc| + k, names[k], RegistryAfter(names[..k], reg, env), env)
  }

  /** The registry after `k` names is the registry after `k - 1` of the
    * rest, once the first name has been handled. */
  lemma {:induction false} RegistryAfterShift(names: seq<string>, k: nat, reg: map<string, ToolEntry>, env: Env)
    requires 0 < k <= |names|
    ensures RegistryAfter(names[..k], reg, env) == RegistryAfter(names[1..][..k - 1], StepRegistry(names[0], reg, env), env)
  {
    assert names[..k][0] == names[0] && names[..k][1..] == names[1..][..k - 1];
  }

  /** A successful schema list extends `acc` by one schema per name, in
    * order: the builtin literal, or a function schema under that name. */
  lemma {:induction false} SchemaListShape(names: seq<string>, acc: seq<ToolSchema>, reg: map<string, ToolEntry>, env: Env)
    ensures ExtendsBySchemas(SchemaList(names, acc, reg, env), acc, names, reg, env)
    decreases |names|, 1
  {
    if names != [] {
      var builtin := BuiltinSchema(names[0]);
      if builtin.Some? {
        SchemaShapeFrom(names, acc, reg, env, builtin.value, reg);
      } else {
        var h := Handle(reg, names[0], map[], None, true, env);
        if h.result.Success? {
          SchemaToolStep(names, acc, reg, env);
          SchemaShapeFrom(names, acc, reg, env, h.result.value.schema, h.tools);
        }
      }
    }
  }

  /** `SchemaListShape` for `names` from the same for its tail, once the
    * first name has contributed `x` and left the registry as `reg'`. */
  lemma {:induction false} SchemaShapeFrom(names: seq<string>, acc: seq<ToolSchema>, reg: map<string, ToolEntry>,
                                           env: Env, x: ToolSchema, reg': map<string, ToolEntry>)
    requires names != []
    requires SchemaList(names, acc, reg, env) == SchemaList(names[1..], acc + [x], reg', env)
    requires reg' == StepRegistry(names[0], reg, env)
    requires |acc| < |acc + [x]| && SchemaAt(acc + [x], |acc|, names[0], reg, env)
    ensures ExtendsBySchemas(SchemaList(names, acc, reg, env), acc, names, reg, env)
    decreases |names|, 0
  {
    SchemaListShape(names[1..], acc + [x], reg', env);
    SchemaListShift(names, acc, x, SchemaList(names[1..], acc + [x], reg', env), reg, env);
  }

  /** A registry name whose schema is found: the list goes on with it. */
  lemma {:induction false} SchemaToolStep(names: seq<string>, acc: seq<ToolSchema>, reg: map<string, ToolEntry>, env: Env)
    requires names != [] && BuiltinSchema(names[0]).None?
    requires Handle(reg, names[0], map[], None, true, env).result.Success?
    ensures var h := Handle(reg, names[0], map[], None, true, env);
            var x := h.result.value.schema;
            && SchemaList(names, acc, reg, env) == SchemaList(names[1..], acc + [x], h.tools, env)
            && |acc| < |acc + [x]| && SchemaAt(acc + [x], |acc|, names[0], reg, env)
            && h.tools == StepRegistry(names[0], reg, env)
  {
    HandleSchemaNamed(reg, names[0], env);
  }

  /** A schema the registry returns is a function schema under the name asked for. */
  lemma {:induction false} HandleSchemaNamed(reg: map<string, ToolEntry>, name: string, env: Env)
    ensures var h := Handle(reg, name, map[], None, true, env);
            h.result.Success? ==> h.result.value.schema.FunctionTool? && h.result.value.schema.name == name
  {
  }

  /** The bookkeeping step of `SchemaListShape`: what holds for the rest of
    * the names after `acc + [x]` holds for all of them after `acc`. */
  lemma {:induction false} SchemaListShift(names: seq<string>, acc: seq<ToolSchema>, x: ToolSchema, s: Schemas,
                                           reg: map<string, ToolEntry>, env: Env)
    requires names != []
    requires ExtendsBySchemas(s, acc + [x], names[1..], StepRegistry(names[0], reg, env), env)
    requires |acc| < |acc + [x]| && SchemaAt(acc + [x], |acc|, names[0], reg, env)
    ensures ExtendsBySchemas(s, acc, names, reg, env)
  {
    if s.result.Success? {
      var v := s.result.value;
      assert v[..|acc|] == v[..|acc| + 1][..|acc|];
      assert v[|acc|] == x by { assert v[..|acc| + 1][|acc|] == x; }
      forall k | 0 <= k < |names|
        ensures SchemaAt(v, |acc| + k, names[k], RegistryAfter(names[..k], reg, env), env)
      {
        if k > 0 {
          assert names[1..][k - 1] == names[k];
          RegistryAfterShift(names, k, reg, env);
          assert SchemaAt(v, |acc + [x]| + (k - 1), names[1..][k - 1],
                          RegistryAfter(names[1..][..k - 1], StepRegistry(names[0], reg, env), env), env);
        } else {
          assert names[..0] == [];
        }
      }
    }
  }

  datatype Compiled = Compiled(tools: map<string, ToolEntry>, result: Result<PromptSpec, LoadError>)

  /** `load` once the file has been read into `sections`. */
  function Compile(sections: map<string, string>, reg: map<string, ToolEntry>, env: Env): (c: Compiled)
    ensures c.tools.Keys == reg.Keys
  {
    if MissingSections(sections) then
      Compiled(reg, Failure(HttpError(400, "Prompt file must contain @@ Instruction and @@ Prompt sections")))
    else match Instructions(sections)
      case Failure(e) => Compiled(reg, Failure(e))
      case Success(instructions) =>
        var names := ToolNames(sections);
        var s := SchemaList(names, [], reg, env);
        if s.result.Failure? then Compiled(s.tools, Failure(ToolFailed(s.result.error)))
        else
          Compiled(s.tools, Success(PromptSpec(
            instructions,
            Text.Strip(sections["prompt"]),
            if "model" in sections then Some(Text.Strip(sections["model"])) else None,
            names,
            s.result.value,
            Text.Strip(if "response" in sections then sections["response"] else ""),
            SectionTokens(sections, "handoffs"))))
  }

  datatype Loaded = Loaded(cache: map<string, PromptSpec>, tools: map<string, ToolEntry>,
                           result: Result<PromptSpec, LoadError>)

  /** `Prompt.load(name)` from cache `cache`, files `fs` and registry `reg`. */
  function LoadTemplate(cache: map<string, PromptSpec>, fs: map<string, string>, directory: string,
                name: string, reg: map<string, ToolEntry>, env: Env): (l: Loaded)
    ensures l.tools.Keys == reg.Keys
  {
    if name in cache then Loaded(cache, reg, Success(cache[name]))
    else
      var path := PromptPath(directory, name);
      if path !in fs then Loaded(cache, reg, Failure(HttpError(404, "Prompt file " + path + " not found")))
      else
        var c := Compile(Template.Sections(fs[path]), reg, env);
        if c.result.Success? then Loaded(cache[name := c.result.value], c.tools, c.result)
        else Loaded(cache, c.tools, c.result)
  }

  // ---------------------------------------------------------------------
  // Properties of a load
  // ---------------------------------------------------------------------

  /** A load fails with 400 exactly when `prompt` or both instruction
    * sections are missing, and then no tool is looked up. */
  lemma {:induction false} MandatorySections(sections: map<string, string>, reg: map<string, ToolEntry>, env: Env)
    ensures var c := Compile(sections, reg, env);
            && (MissingSections(sections) <==> c.result.Failure? && c.result.error.HttpError?)
            && (MissingSections(sections) ==> c.tools == reg && c.result.error.status == 400)
  {
  }

  /** A successful load has one schema per tool name, in order, with the
    * builtin literals, and never lists `mcp.tools`. */
  lemma {:induction false} ToolSchemasMatchTools(sections: map<string, string>, reg: map<string, ToolEntry>, env: Env)
    ensures var c := Compile(sections, reg, env);
            c.result.Success? ==>
              && "mcp.tools" !in c.result.value.tools
              && |c.result.value.toolSchemas| == |c.result.value.tools|
              && forall k :: 0 <= k < |c.result.value.tools| ==>
                   SchemaAt(c.result.value.toolSchemas, k, c.result.value.tools[k],
                            RegistryAfter(c.result.value.tools[..k], reg, env), env)
  {
    CompileParts(sections, reg, env);
    SchemasFromEmpty(ToolNames(sections), reg, env);
  }

  /** `SchemaListShape` for a loop that starts with no schemas. */
  lemma {:induction false} SchemasFromEmpty(names: seq<string>, reg: map<string, ToolEntry>, env: Env)
    ensures var s := SchemaList(names, [], reg, env);
            s.result.Success? ==>
              && |s.result.value| == |names|
              && forall k :: 0 <= k < |names| ==>
                   SchemaAt(s.result.value, k, names[k], RegistryAfter(names[..k], reg, env), env)
  {
    var s := SchemaList(names, [], reg, env);
    SchemaListShape(names, [], reg, env);
    if s.result.Success? {
      forall k | 0 <= k < |names| ensures SchemaAt(s.result.value, k, names[k], RegistryAfter(names[..k], reg, env), env) {
        SchemaAtFirst(s.result.value, [], k, names[k], RegistryAfter(names[..k], reg, env), env);
      }
    }
  }

  lemma {:induction false} SchemaAtFirst(v: seq<ToolSchema>, acc: seq<ToolSchema>, k: nat, name: string,
                                         reg: map<string, ToolEntry>, env: Env)
    requires acc == [] && |acc| + k < |v| && SchemaAt(v, |acc| + k, name, reg, env)
    ensures k < |v| && SchemaAt(v, k, name, reg, env)
  {
  }

  /** Where the tool list and the schemas of a successful load come from. */
  lemma {:induction false} CompileParts(sections: map<string, string>, reg: map<string, ToolEntry>, env: Env)
    ensures var c := Compile(sections, reg, env);
            c.result.Success? ==>
              var s := SchemaList(ToolNames(sections), [], reg, env);
              && c.result.value.tools == ToolNames(sections)
              && s.result.Success?
              && c.result.value.toolSchemas == s.result.value
  {
  }

  /** A template whose tools are all builtins loads without the registry:
    * it is left as it was. */
  lemma {:induction false} BuiltinsOnly(names: seq<string>, acc: seq<ToolSchema>, reg: map<string, ToolEntry>, env: Env)
    requires forall k :: 0 <= k < |names| ==> BuiltinSchema(names[k]).Some?
    ensures SchemaList(names, acc, reg, env).tools == reg
    ensures SchemaList(names, acc, reg, env).result.Success?
    decreases |names|
  {
    if names != [] {
      assert forall k :: 0 <= k < |names[1..]| ==> names[1..][k] == names[k + 1];
      BuiltinsOnly(names[1..], acc + [BuiltinSchema(names[0]).value], reg, env);
    }
  }

  /** A successful load is remembered: loading the same name again returns
    * the same template whatever the files now hold, and touches nothing. */
  lemma {:induction false} LoadRemembered(cache: map<string, PromptSpec>, fs: map<string, string>, fs': map<string, string>,
                       directory: string, name: string, reg: map<string, ToolEntry>, env: Env)
    ensures var l := LoadTemplate(cache, fs, directory, name, reg, env);
            l.result.Success? ==>
              LoadTemplate(l.cache, fs', directory, name, l.tools, env) == Loaded(l.cache, l.tools, l.result)
  {
  }

  /** A failed load leaves the cache as it was, so the next load reads the
    * file again. */
  lemma {:induction false} FailureNotCached(cache: map<string, PromptSpec>, fs: map<string, string>,
                         directory: string, name: string, reg: map<string, ToolEntry>, env: Env)
    ensures var l := LoadTemplate(cache, fs, directory, name, reg, env);
            l.result.Failure? ==> l.cache == cache && name !in l.cache
  {
  }

  // ---------------------------------------------------------------------
  // The class-wide cache and the imperative load
  // ---------------------------------------------------------------------

  /** The class attribute `Prompt._cache`, with the prompts directory. */
  class PromptLoader {
    var cache: map<string, PromptSpec>
    const promptsDir: string

    constructor(promptsDir: string)
      ensures this.promptsDir == promptsDir && cache == map[]
    {
      this.promptsDir := promptsDir;
      cache := map[];
    }

    /** `await Prompt.load(name)`. */
    method Load(name: string, fs: map<string, string>, registry: Registry, env: Env)
      returns (r: Result<PromptSpec, LoadError>)
      modifies this, registry
      ensures var l := LoadTemplate(old(cache), fs, promptsDir, name, old(registry.tools), env);
              cache == l.cache && registry.tools == l.tools && r == l.result
    {
      if name in cache {
        return Success(cache[name]);
      }
      var path := PromptPath(promptsDir, name);
      if path !in fs {
        return Failure(HttpError(404, "Prompt file " + path + " not found"));
      }
      var sections := Template.ParseSections(fs[path]);
      r := CompileSections(sections, registry, env);
      if r.Success? {
        cache := cache[name := r.value];
      }
    }
  }

  /** The part of `load` after the file is read. */
  method CompileSections(sections: map<string, string>, registry: Registry, env: Env)
    returns (r: Result<PromptSpec, LoadError>)
    modifies registry
    ensures Compiled(registry.tools, r) == Compile(sections, old(registry.tools), env)
  {
    if MissingSections(sections) {
      return Failure(HttpError(400, "Prompt file must contain @@ Instruction and @@ Prompt sections"));
    }
    var instructions := Instructions(sections);
    if instructions.Failure? {
      return Failure(instructions.error);
    }
    var tools := ToolNames(sections);
    var schemas := BuildSchemas(tools, registry, env);
    if schemas.Failure? {
      return Failure(ToolFailed(schemas.error));
    }
    r := Success(PromptSpec(
      instructions.value,
      Text.Strip(sections["prompt"]),
      if "model" in sections then Some(Text.Strip(sections["model"])) else None,
      tools,
      schemas.value,
      Text.Strip(if "response" in sections then sections["response"] else ""),
      SectionTokens(sections, "handoffs")));
  }

  /** The `for tool in tools` loop that collects the schemas. */
  method BuildSchemas(names: seq<string>, registry: Registry, env: Env)
    returns (r: Result<seq<ToolSchema>, ToolError>)
    modifies registry
    ensures var s := SchemaList(names, [], old(registry.tools), env);
            registry.tools == s.tools && r == s.result
  {
    var schemas: seq<ToolSchema> := [];
    var i := 0;
    while i < |names|
      invariant 0 <= i <= |names|
      invariant SchemaList(names[i..], schemas, registry.tools, env) == SchemaList(names, [], old(registry.tools), env)
    {
      assert names[i..][1..] == names[i + 1..];
      var builtin := BuiltinSchema(names[i]);
      if builtin.Some? {
        schemas := schemas + [builtin.value];
      } else {
        var h := registry.HandleOpenAIFunction(names[i], map[], None, true, env);
        if h.Failure? {
          return Failure(h.error);
        }
        schemas := schemas + [h.value.schema];
      }
      i := i + 1;
    }
    assert names[i..] == [];
    r := Success(schemas);
  }
}
