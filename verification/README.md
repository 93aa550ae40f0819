# fastapi-responses: a Dafny model of the prompt engine, the tool registry, the PDF helpers and the request handlers

This project models the core of a FastAPI service that runs prompt templates against the
OpenAI Responses API. It covers:

- **The template engine** (`app/ai_processor.py`). A markdown file is split into `@@ name`
  sections and checked for its mandatory sections. Its `tools` and `handoffs` lists become
  tokens, and each tool name is turned into a schema, either a builtin literal or one the tool
  registry builds. A loaded template is cached per name. `setup` chooses the model and
  provider, renders the `{{ key }}` placeholders (`SafeDict` gives "n/a" for a missing key)
  and resolves the pydantic response class. `run`/`openai` send the first request, then run
  tool rounds until a response has no function calls, then collect the final text, the last
  `output_text` object and the container-file citations. `pydantic_response` validates the
  answer.
- **The tool registry** (`app/ai_tools.py`). `register_tools` and `get_registered_tools`
  manage the registry. `_getf` imports a tool lazily and memoises it. In schema mode
  `handle_openai_function` builds the schema; in call mode it injects the user's email,
  validates the parameters, calls the tool and sorts errors by kind.
- **The PDF helpers** (`app/pdf_utils.py`). The `MarkdownHTMLParser` state machine,
  `balance_html_tags`, the whole of `clean_html_for_paragraph`, `extract_table_data`, and
  the `<img>` replacement of `parse_markdown_with_files`.
- **The request handlers** (`app/chat.py`, `app/prompt.py`, `app/assistant.py`):
  - the `Singleton` metaclass;
  - the `PromptHandler` and `Assistant_call` caches;
  - `generate`, which assembles the variables, runs the prompt and stores the answer for
    continuation;
  - `get_prompts`/`get_assistants`;
  - the `get_chat_response` guard;
  - the `FileUpload` properties;
  - the filename `get_file` serves when the provider gives none.

The parts that update state in place are classes with the source's fields:
`Registry.tools`, `PromptLoader.cache`, `Prompt`, `MarkdownHtmlParser`, `Singleton`,
`PromptHandler` and `AssistantCall`. Each method is proved against a function of the old
state. The rest is functions and lemmas.

The world outside is passed in as values:
- the provider's `responses.create`, `json.loads` and pydantic validation;
- `importlib` and the tool functions;
- the file system (a map from path to text);
- `AI_MODEL`, today's date and the uuid of `Assistant_call.generate`.

## Model

| member | source | states |
|---|---|---|
| ToolRegistry.Registry.constructor | app/ai_tools.py:17-21 | the registry starts with `webscrape` registered by module name |
| ToolRegistry.Registry.RegisterTools | app/ai_tools.py:24-47 | no module and no function, or both, is refused and the registry is unchanged; otherwise the name maps to exactly that entry and no other entry changes |
| ToolRegistry.Registry.GetRegisteredTools | app/ai_tools.py:50-52 | returns the registry's current contents |
| ToolRegistry.Resolve | app/ai_tools.py:63-94 | an unknown name is "not defined"; an already imported function is returned without touching the registry; a fresh import is stored under the name; no other key changes and a failure leaves the registry as it was |
| ToolRegistry.ResolveMemoises | app/ai_tools.py:63-94 | once a function is resolved, resolving it again (whatever the environment) returns it and changes nothing |
| ToolRegistry.Registry.Getf | app/ai_tools.py:63-94 | the result and the new registry are those of `Resolve` on the old registry |
| ToolRegistry.WithUserEmail | app/ai_tools.py:144-145 | an email parameter is added only when none is given and the user's email is non-empty |
| ToolRegistry.WrapRaised | app/ai_tools.py:153-158 | a TypeError, ValueError and any other exception each map to their own error kind, and only to it |
| ToolRegistry.Handle | app/ai_tools.py:97-159 | the registry's keys are kept and other entries untouched; a success is a schema exactly in schema mode |
| ToolRegistry.UnknownNameRefused | app/ai_tools.py:114-115 | a name not in the registry is refused as not recognised and nothing changes |
| ToolRegistry.SchemaMode | app/ai_tools.py:131-143 | schema mode gives the function schema built from the tool's docstring and parameter class, or "no schema" exactly when there is no parameter class |
| ToolRegistry.CallMode | app/ai_tools.py:144-158 | call mode calls the tool with the email-extended parameters, validated first when there is a parameter class, and wraps every raised error by kind |
| ToolRegistry.Registry.HandleOpenAIFunction | app/ai_tools.py:97-159 | the result and the new registry are those of `Handle` on the old registry |
| Template.BreakIndex | app/ai_processor.py:83 | the first line break, with none before it |
| Template.SplitLines | app/ai_processor.py:83 | no line holds a line break |
| Template.SplitLinesJoined | app/ai_processor.py:83 | lines joined with "\n" split back into the same lines |
| Template.TokenPrefix | app/ai_processor.py:84-86 | the longest space-free prefix, followed by a space or the end |
| Template.ClassifyAll | app/ai_processor.py:83-90 | one classification per line, in order; body lines keep their text |
| Template.ScanLine | app/ai_processor.py:84-90 | one step of the scan keeps the open section registered |
| Template.ParseSections | app/ai_processor.py:80-90 | the loop computes `Sections(content)` |
| Template.ScanLinesAppend | app/ai_processor.py:83-90 | scanning a concatenation is scanning the parts in turn |
| Template.SectionNames | app/ai_processor.py:84-88 | a section exists exactly when some line opens it (or it existed before) |
| Template.ScanNamesOfLines | app/ai_processor.py:80-90 | over raw lines, a section exists exactly when some line is its marker |
| Template.PreambleDropped | app/ai_processor.py:89-90 | lines before the first marker are discarded |
| Template.BodyAppended | app/ai_processor.py:89-90 | body lines of the open section are appended with "\n" and nothing else changes |
| Template.SectionUntouched | app/ai_processor.py:84-90 | while another section is open, a section never named again keeps its body |
| Template.SectionClosed | app/ai_processor.py:84-90 | a marker of another section closes a section for good |
| Template.OpenedSection | app/ai_processor.py:84-90 | a marker, body lines and then a closing marker give exactly those lines as the section |
| Template.SectionBody | app/ai_processor.py:80-90 | a section's body is the lines after its last marker up to the next marker; a repeated marker resets it |
| Template.RunLength | app/ai_processor.py:109-115 | the maximal run of non-separators at the start |
| Template.Tokens | app/ai_processor.py:109-115 | every token is a non-empty run without separators |
| Template.TokensOfJoin | app/ai_processor.py:109-115 | tokens joined by any one separator character are read back as written |
| Template.JoinStripped | app/ai_processor.py:109-115 | a join of tokens is non-empty and has nothing to strip |
| Template.SplitTokensOfJoin | app/ai_processor.py:109-115 | a `tools`/`handoffs` body written as separated tokens gives back exactly those tokens |
| Template.PlaceholderAt | app/ai_processor.py:203-210 | a placeholder match has a non-empty key and spans at least five characters |
| Template.RenderLiteral | app/ai_processor.py:203-210 | text no position of which starts a placeholder is copied unchanged in front of the rest |
| Template.NoBraceInert | app/ai_processor.py:17-19 | text without `{` starts no placeholder |
| Template.RenderPieces | app/ai_processor.py:203-210 | rendering replaces every placeholder by its value or "n/a" and keeps every literal, braces included when they start no placeholder; values are not scanned again |
| Template.PlainTextUnchanged | app/ai_processor.py:203-210 | text in which no position starts a placeholder renders to itself |
| Template.BracelessUnchanged | app/ai_processor.py:203-210 | text without a brace renders to itself |
| Template.ChooseModel | app/ai_processor.py:176-183 | the explicit model wins, then the template's, then `AI_MODEL` |
| Template.SplitModel | app/ai_processor.py:176-183 | a model without "/" keeps the provider; otherwise the provider is the text before the first "/" and the model has no "/" |
| Template.SplitModelOfJoin | app/ai_processor.py:176-183 | `p/m` splits back into provider `p` and model `m` |
| Template.SplitModelDropsTail | app/ai_processor.py:176-183 | of `a/b/c` only `a` and `b` are used |
| Template.MaxOutputTokens | app/ai_processor.py:333 | 32000 exactly for `gpt-4.1`, 16000 for every other model |
| PromptFiles.PromptPath | app/ai_processor.py:70 | the path of a template ends in `.md` |
| PromptFiles.Instructions | app/ai_processor.py:101 | the instructions come stripped from `instruction`, else `instructions`; the failure cases are characterised |
| PromptFiles.Without | app/ai_processor.py:117-119 | `mcp.tools` is removed and every other token kept, never growing the list |
| PromptFiles.WithoutAppend | app/ai_processor.py:117-119 | removal distributes over concatenation: the kept tokens keep their order |
| PromptFiles.WithoutSingle | app/ai_processor.py:117-119 | one token is dropped exactly when it is the removed name |
| PromptFiles.BuiltinSchema | app/ai_processor.py:123-128 | the builtin names give the fixed builtin schemas; `web_search` is the preview tool |
| PromptFiles.SchemaListShape | app/ai_processor.py:121-134 | a successful schema loop adds one schema per name, in order: the builtin literal, or exactly the function schema that `handle_openai_function` in schema mode returns for that name from the registry as the earlier names left it |
| PromptFiles.RegistryAfterShift | app/ai_processor.py:121-134 | the registry after the first `k` names is the registry after `k - 1` of the rest, once the first name has been handled |
| PromptFiles.HandleSchemaNamed | app/ai_processor.py:130-133 | a schema the registry returns is a function schema under the name asked for |
| PromptFiles.Compile | app/ai_processor.py:93-146 | compiling never adds or removes registry keys |
| PromptFiles.MandatorySections | app/ai_processor.py:93-99 | a 400 error exactly when `prompt` or both instruction sections are missing, and then no tool is looked up |
| PromptFiles.ToolSchemasMatchTools | app/ai_processor.py:111-146 | a successful load lists no `mcp.tools` and has one schema per tool, in order, each the builtin literal or the registry's schema for it at that step |
| PromptFiles.CompileParts | app/ai_processor.py:111-146 | the tool list and schemas of a load are the filtered tokens and the schema loop's output |
| PromptFiles.BuiltinsOnly | app/ai_processor.py:121-128 | a template with only builtin tools loads without changing the registry |
| PromptFiles.LoadRemembered | app/ai_processor.py:66-148 | after a successful load the same name loads the same template whatever the files hold, and nothing changes |
| PromptFiles.FailureNotCached | app/ai_processor.py:66-148 | a failed load leaves the cache as it was |
| PromptFiles.PromptLoader.constructor | app/ai_processor.py:63 | the cache starts empty, with the prompts directory |
| PromptFiles.PromptLoader.Load | app/ai_processor.py:66-148 | the new cache, the registry and the result are those of `LoadTemplate` |
| PromptFiles.CompileSections | app/ai_processor.py:93-146 | the result and the registry are those of `Compile` |
| PromptFiles.BuildSchemas | app/ai_processor.py:121-134 | the loop's schemas and registry are those of `SchemaList` |
| PromptObject.LastDot | app/ai_processor.py:190-191 | the position of a dot with none after it |
| PromptObject.RSplitDot | app/ai_processor.py:190-191 | the module and class name rejoin to the path and the class has no dot |
| PromptObject.LoadFailureKeepsState | app/ai_processor.py:168-169 | a failed load changes nothing in the object |
| PromptObject.DefaultModel | app/ai_processor.py:176-183 | with no model anywhere, the default gives provider `openai` and model `gpt-4.1` |
| PromptObject.ExplicitModel | app/ai_processor.py:176-183 | an explicit model without "/" is kept with the constructor's provider |
| PromptObject.SetupRendersPrompt | app/ai_processor.py:168-201 | after setup the template is stored and the prompt is it rendered with the variables when there are any; a success copies the schemas and clears the response |
| PromptObject.ApplyIdempotent | app/ai_processor.py:203-210 | applying the same variables twice gives the same object as once |
| PromptObject.OnlyOpenAI | app/ai_processor.py:231-241 | a provider other than `openai` fails with its message before any request, no tool runs and the response is unchanged |
| PromptObject.RunRerenders | app/ai_processor.py:231-241 | for every provider, new variables replace the old and the prompt is rendered again from the template before the provider is checked |
| PromptObject.DirectAnswer | app/ai_processor.py:299-393 | a first response without calls is the answer: its text, id, container, files and last text object |
| PromptObject.FailureKeepsFirstResponse | app/ai_processor.py:335-372 | a run failing after the first response keeps that response's id, raw response and container and nothing else |
| PromptObject.AnswerHasNoCalls | app/ai_processor.py:342-376 | a successful run ends on a response without calls whose id and text are the object's |
| PromptObject.PydanticResponse | app/ai_processor.py:265-274 | a decoded object or list is validated; text and a decoded JSON string are parsed with `json.loads` and then validated, failing first when there is no response class and then with the parse error; no response and other JSON scalars are returned unchanged; a validated model needs a response class |
| PromptObject.StringValidatedAsText | app/ai_processor.py:268-272 | a JSON string gives the same outcome as the same text |
| PromptObject.Validate | app/ai_processor.py:265-274 | validation succeeds only into a model and only with a response class |
| PromptObject.TextValidatedAsDecoded | app/ai_processor.py:265-274 | a text answer is validated exactly as the JSON it decodes to |
| PromptObject.Prompt.constructor | app/ai_processor.py:150-166 | every field starts as `Initial(...)` says |
| PromptObject.Prompt.ApplyVariables | app/ai_processor.py:203-210 | the new state is the prompt rendered again from the template |
| PromptObject.Prompt.Setup | app/ai_processor.py:168-201 | the new object, cache and registry are those of loading and then `AfterSetup`; the file ids keep listing the files in insertion order |
| PromptObject.SetupKeepsFiles | app/ai_processor.py:168-201 | setting up leaves the file ids and the files alone |
| PromptObject.Prompt.Configure | app/ai_processor.py:168-186 | the new state is `Configured` of the old |
| PromptObject.Prompt.CopyTexts | app/ai_processor.py:171-186 | the template's texts are copied and the prompt rendered |
| PromptObject.Prompt.ChooseModel | app/ai_processor.py:176-183 | the new model and provider are `ModelChosen` of the old state |
| PromptObject.Prompt.FinishSetup | app/ai_processor.py:187-201 | an unresolved response class fails and changes nothing; otherwise the last assignments are made |
| PromptObject.Prompt.Create | app/ai_processor.py:213-229 | construction followed by setup: a fresh object in the state `AfterSetup` gives, or its error |
| PromptObject.Prompt.Run | app/ai_processor.py:231-241 | the new object, registry and result are those of `RunSpec`; the file ids keep listing the files in insertion order |
| PromptObject.RunKeepsFiles | app/ai_processor.py:231-241 | a run leaves the file ids and the files alone |
| PromptObject.Prompt.PrepareRun | app/ai_processor.py:233-236 | the output files are cleared and the variables applied |
| PromptObject.Prompt.OpenAI | app/ai_processor.py:299-393 | the new object, registry and result are those of `Ask` |
| PromptObject.Prompt.FinishAnswer | app/ai_processor.py:373-393 | the final fields, text and files are those of `AfterRounds` |
| PromptObject.Prompt.FirstRequest | app/ai_processor.py:301-336 | the first request is made from the object's configuration and the initial history |
| PromptObject.Prompt.RecordFile | app/ai_processor.py:276-284 | the file is recorded under its id, and a new id is appended to the insertion order |
| Conversation.UserParts | app/ai_processor.py:301-304 | the user content is the prompt text followed by one file part per file, in order |
| Conversation.BuildUserContent | app/ai_processor.py:301-304 | the loop builds `UserParts` |
| Conversation.WithContainer | app/ai_processor.py:316-319 | only a code interpreter changes: it gets an auto container, with the file ids when there are any |
| Conversation.RequestToolsOf | app/ai_processor.py:316-319 | one copied schema per stored schema, in order |
| Conversation.RequestTools | app/ai_processor.py:316-319 | the loop computes `RequestToolsOf` |
| Conversation.OnlyCodeInterpreterChanges | app/ai_processor.py:316-319 | a request schema differs from the stored one only for a code interpreter |
| Conversation.Format | app/ai_processor.py:313-315 | plain text exactly when there is no schema, else a JSON schema named "response" |
| Conversation.MakeRequest | app/ai_processor.py:320-334 | the request carries the history and previous id, and the output budget of its model |
| Conversation.ContainerOf | app/ai_processor.py:337-340 | a non-empty `container_id` wins, else the container object's id |
| Conversation.Dispatch | app/ai_processor.py:343-358 | a round never adds or removes registry keys |
| Conversation.RunRound | app/ai_processor.py:343-358 | the loop's history, outputs and registry are those of `Dispatch` |
| Conversation.DispatchAppends | app/ai_processor.py:343-358 | a successful round appends the reference shape, with one output per function call |
| Conversation.InterleaveShape | app/ai_processor.py:343-358 | the reference shape passes every item through in order and answers every call right after it |
| Conversation.Converse | app/ai_processor.py:342-372 | the loop never adds or removes registry keys |
| Conversation.ConverseEnds | app/ai_processor.py:342-372 | the loop ends only on a response without calls, with a history extending the first |
| Conversation.NoCallsNoRound | app/ai_processor.py:342 | a response without calls ends the loop at once with nothing changed |
| Conversation.OneRound | app/ai_processor.py:342-372 | one successful round followed by an answer without calls ends with the history extended by that round |
| Conversation.OutputFilesAppend | app/ai_processor.py:378-391 | the files of a concatenation are the files of each part, in order |
| Conversation.CitationCount | app/ai_processor.py:378-391 | at most one file per annotation, exactly one per container-file citation |
| Conversation.LastTextItem | app/ai_processor.py:378-391 | none exactly when there is no `output_text` item, else one of them |
| Conversation.LaterTextWins | app/ai_processor.py:378-391 | a later `output_text` item replaces an earlier one |
| Conversation.ExtractOutputs | app/ai_processor.py:378-391 | the nested loops give the last text item and all cited files |
| Conversation.ExtractContent | app/ai_processor.py:381-391 | the loop over one message gives its last text item and its cited files |
| Conversation.CollectCitedFiles | app/ai_processor.py:385-391 | the loop over annotations gives exactly the container-file citations |
| HtmlElements.HeadingLevel | app/pdf_utils.py:42-44 | a level exactly for `h1`-`h6`, equal to the digit |
| HtmlElements.RemoveFirst | app/pdf_utils.py:85-90 | one occurrence removed: the multiset loses exactly that element |
| HtmlElements.Flushed | app/pdf_utils.py:120-123 | non-blank text becomes a stripped paragraph and the buffer empties; blank text changes nothing |
| HtmlElements.KindOf | app/pdf_utils.py:39-105 | the tag classes: headings, `strong`/`b`, `em`/`i`, `td`/`th` |
| HtmlElements.FeedGood | app/pdf_utils.py:39-118 | every event keeps the parser state well formed |
| HtmlElements.DocumentElementsGood | app/pdf_utils.py:26-127 | every element produced is well formed: stripped non-blank text, a valid heading level |
| HtmlElements.FeedKeepsElements | app/pdf_utils.py:39-118 | elements are only ever appended |
| HtmlElements.FeedAppend | app/pdf_utils.py:39-118 | feeding a concatenation is feeding the parts in turn |
| HtmlElements.CellDataRouted | app/pdf_utils.py:108-109 | inside a cell, data goes to the cell text only |
| HtmlElements.FormattingClosed | app/pdf_utils.py:85-90 | a closing tag removes its marker from the stack if present, else changes nothing |
| HtmlElements.BoldItalicData | app/pdf_utils.py:112-118 | bold and italic data is wrapped as `<i><b>...</b></i>` |
| HtmlElements.SingleSpace | app/pdf_utils.py:112 | a lone space is kept as data |
| HtmlElements.HeadingAndRule | app/pdf_utils.py:73-82 | a closing heading emits it with its stripped text; `hr` emits a rule after flushing |
| HtmlElements.TableEmitted | app/pdf_utils.py:91-95 | closing a table emits its rows and resets the table state |
| HtmlElements.MarkdownHtmlParser.constructor | app/pdf_utils.py:26-37 | the parser starts in the fresh state |
| HtmlElements.MarkdownHtmlParser.FlushText | app/pdf_utils.py:120-123 | the new state is `Flushed` of the old |
| HtmlElements.MarkdownHtmlParser.HandleStartTag | app/pdf_utils.py:39-75 | the new state is `Opened` of the old |
| HtmlElements.MarkdownHtmlParser.HandleEndTag | app/pdf_utils.py:77-105 | the new state is `Closed` of the old |
| HtmlElements.MarkdownHtmlParser.HandleData | app/pdf_utils.py:107-118 | the new state is `DataAdded` of the old |
| HtmlElements.MarkdownHtmlParser.FeedEvents | app/pdf_utils.py:39-118 | the new state is `Feed` of the old |
| HtmlElements.MarkdownHtmlParser.GetElements | app/pdf_utils.py:125-127 | the text is flushed and the elements returned, all well formed from a well-formed state |
| HtmlElements.ConvertDocument | app/pdf_utils.py:26-127 | the elements are `DocumentElements` and all are well formed |
| HtmlClean.BalanceHtmlTags | app/pdf_utils.py:232-264 | the loop computes `Balanced` |
| HtmlClean.BalanceStep | app/pdf_utils.py:258 | one step of the substitution advances past at least one character and leaves the final balancer state unchanged, with the written text still the print of the pieces |
| HtmlClean.CopyChar | app/pdf_utils.py:258 | text that starts no `b`/`i` tag is copied one character at a time, and the rest of the scan still ends in the same state |
| HtmlClean.HandleTag | app/pdf_utils.py:240-255 | a matched tag is replaced as `replace_tag` decides, the scan goes on after the whole tag, and it still ends in the same state |
| HtmlClean.BalancedTags | app/pdf_utils.py:232-264 | in the balancer's output pieces, `b` and `i` are never closed more often than opened, and every opened tag is closed |
| HtmlClean.BalancedPlain | app/pdf_utils.py:232-264 | text without tags is unchanged |
| HtmlClean.RewritesPlain | app/pdf_utils.py:184-211 | text without `<` passes through the tag rewrites unchanged |
| HtmlClean.ReplaceBoxChars | app/pdf_utils.py:220-223 | box-drawing characters become `-` or `\|`, every other character is kept |
| HtmlClean.BoxFreeFixed | app/pdf_utils.py:220-223 | text without box characters is unchanged |
| HtmlClean.DropBreaks | app/pdf_utils.py:226-228 | leading `<br/>`s are all removed |
| HtmlClean.CollapsedHasNoDoubleBreak | app/pdf_utils.py:226-228 | after collapsing, no two `<br/>` are adjacent |
| HtmlClean.CollapseWithoutBreaks | app/pdf_utils.py:226-228 | text in which no `<br/>` starts is left alone |
| HtmlClean.CleanShape | app/pdf_utils.py:178-230 | the cleaned text is stripped, and empty input gives empty output |
| HtmlClean.CleanPlain | app/pdf_utils.py:178-230 | text without tags only loses box characters and surrounding spaces |
| HtmlClean.LineBreakBecomesBold | app/pdf_utils.py:214-238 | as written, `x<br/>y` comes out as `x<b>y</b>` |
| HtmlClean.LineBreakKept | app/pdf_utils.py:214-238 | with the word boundary in both the attribute pattern and the balancer's pattern, `x<br/>y` is kept |
| HtmlClean.LineBreakExample | app/pdf_utils.py:214 | `a<br/>b` is `a<b>b</b>` as written and `a<br/>b` once corrected |
| HtmlTables.FirstClose | app/pdf_utils.py:352-359 | the first closing tag, with none before it |
| HtmlTables.ExtractTableData | app/pdf_utils.py:348-369 | the loops compute `TableData` |
| HtmlTables.RowCells | app/pdf_utils.py:356-364 | the inner loop computes the cleaned cell texts of a row |
| HtmlTables.CleanCells | app/pdf_utils.py:361-364 | the cleaned texts of the cell matches, one per match and in order |
| HtmlTables.CleanEach | app/pdf_utils.py:361-364 | the loop keeps one output per input, each the cleaning of the input at the same position |
| HtmlTables.RowsOfStep | app/pdf_utils.py:360-367 | a row joins the result exactly when it has at least one cell, after the rows before it |
| HtmlTables.RemoveTagsLeavesNoTag | app/pdf_utils.py:363 | no tag is left after tag removal |
| HtmlTables.CellTextClean | app/pdf_utils.py:363 | a cell's text is stripped and has no tags |
| HtmlTables.RowsClean | app/pdf_utils.py:355-367 | there are at most as many rows as row bodies and every row is clean |
| HtmlTables.TableDataClean | app/pdf_utils.py:348-369 | every cell of every row is stripped and tag-free |
| ImageRefs.FirstQuote | app/pdf_utils.py:280 | the first quote character, with none before it |
| ImageRefs.ImgAt | app/pdf_utils.py:280 | a match starts with `<img` and has a non-empty source |
| ImageRefs.Basename | app/pdf_utils.py:287 | the longest suffix without "/" |
| ImageRefs.FirstMatching | app/pdf_utils.py:294-304 | the first output file with that filename, with none before it |
| ImageRefs.ReplaceImage | app/pdf_utils.py:282-322 | a matched image becomes a placeholder marker and adds one reference; otherwise the tag and references are kept |
| ImageRefs.ScanOnce | app/pdf_utils.py:282-325 | one step of the substitution is `ScanStep` |
| ImageRefs.ReplaceImages | app/pdf_utils.py:280-325 | the loop computes `ImagesReplaced` |
| ImageRefs.Substitute | app/pdf_utils.py:325 | the left-to-right substitution loop, for any step callback, computes the recursive `Substituted` text and references |
| ImageRefs.SubstitutedImages | app/pdf_utils.py:280-325 | substituting with the image callback is the recursive image replacement |
| ImageRefs.ReferenceNamesFile | app/pdf_utils.py:287-316 | a reference names an output file with the image's basename, numbered by the references before it |
| ImageRefs.ReferencesNumbered | app/pdf_utils.py:282-325 | references are only appended, and every one names a matching file under its position's placeholder |
| ImageRefs.NoFilesNoChange | app/pdf_utils.py:282-325 | with no output files the text and references are unchanged |
| ImageRefs.AsWrittenWithFiles | app/pdf_utils.py:282-325 | with a file list, the code as written agrees with the corrected model |
| ImageRefs.AsWrittenFailsWithoutFiles | app/pdf_utils.py:266-321 | with `output_files` None, the code as written raises exactly when the text holds an image tag |
| ImageRefs.ImageWithoutFilesExample | app/pdf_utils.py:266-321 | `<img src="a.png">` with no files raises as written and is left alone once corrected |
| Uploads.Extension | app/chat.py:371-373 | no longer than the name, and the lower-casing of the name's suffix of its own length |
| Uploads.ExtensionHasNoDot | app/chat.py:373 | the extension holds no dot |
| Uploads.ExtensionFollowsDot | app/chat.py:373 | the extension is the whole name or follows a dot in it |
| Uploads.LastIsSuffix | app/chat.py:373 | the last piece of a split is the whole string or what follows the last separator |
| Uploads.ExtensionAfterLastDot | app/chat.py:371-373 | the extension is what follows the last dot, lower-cased |
| Uploads.ExtensionWithoutDot | app/chat.py:371-373 | a name without a dot is its own extension |
| Uploads.TrailingDot | app/chat.py:371-386 | a trailing dot gives an empty extension, neither image nor document |
| Uploads.VisionExcludesRetrieval | app/chat.py:375-386 | no upload is both an image and a retrieval document |
| Uploads.UpperCaseImage | app/prompt.py:52-67 | `.JPG` is recognised as an image and not as a document |
| Uploads.Head | app/chat.py:319 | the first 1000 bytes, or the whole content when it is shorter: a prefix of at most 1000 bytes, exactly 1000 when there are more |
| Uploads.GuessedExtension | app/chat.py:312-322 | the guess is one of `.png`, `.jpg`, `.gif`, `.txt` |
| Uploads.ServedName | app/chat.py:310-322 | the provider's `filename`, else its `name`, else the file id with the guessed extension |
| Uploads.SignaturesExclusive | app/chat.py:313-317 | at most one of the PNG, JPEG and GIF signatures holds |
| Uploads.FigureImpliesPlot | app/chat.py:319 | the `matplotlib.figure` test never decides anything the `plot` test would not |
| Uploads.GuessedExtensionCases | app/chat.py:312-322 | each guessed extension holds exactly for the bytes that give it |
| Handlers.Called | app/chat.py:29-38 | the class's instance is stored, the first one built is kept and no other entry changes |
| Handlers.SecondCallReturnsFirst | app/chat.py:35-38 | a second call returns the first instance, whatever it would build |
| Handlers.Singleton.constructor | app/chat.py:33 | no instance yet |
| Handlers.PromptHandlerInstance | app/chat.py:29-66 | the handler is the singleton's; a new one is built empty only on the first call |
| Handlers.AssistantCallInstance | app/assistant.py:31-93 | the same for the assistant handler |
| Handlers.Known | app/chat.py:152-154 | exactly the ids of uploaded files, in order |
| Handlers.FileTextsShape | app/chat.py:151-160 | the read succeeds exactly when every known file is readable, with one `File: name` text per known id, in order |
| Handlers.ContentAlwaysSet | app/chat.py:146 | `content` is always set and only the three keys can appear |
| Handlers.PreviousOnlyWhenStored | app/chat.py:148-149 | `previous_response` is set exactly when the previous id names a stored response, to that response |
| Handlers.FileContentsOnlyKnown | app/chat.py:151-160 | `file_contents` is set exactly when some id is an uploaded file, to the texts joined by a blank line |
| Handlers.StoredResponseContinues | app/chat.py:148-167 | a stored response is passed on as `previous_response` next time |
| Handlers.AssembleVariables | app/chat.py:146-160 | the loop computes `VariablesFor` |
| Handlers.RunSetsId | app/ai_processor.py:335-374 | a successful run leaves the prompt with an id |
| Handlers.RunWithId | app/chat.py:162-165 | the run is `RunSpec`, and a success leaves the prompt with an id |
| Handlers.PromptHandler.constructor | app/chat.py:60-66 | empty caches and `webscrape` registered as a function |
| Handlers.PromptHandler.GetPromptByName | app/chat.py:68-95 | no name gives none; a cached prompt is returned; otherwise a fresh prompt is created, and cached only on success; the prompt's state, the registry and the template cache are those `Found` computes from the caches beforehand |
| Handlers.PromptHandler.Generate | app/chat.py:123-178 | 404 when the prompt is missing; 500 with the error text and no response stored; 200 with the answer stored under the prompt's id; the reply, the stored responses, the registry and the cached prompt's new state are exactly `Generated` of the state beforehand |
| Handlers.PromptHandler.GeneratedShape | app/chat.py:123-178 | `Generated` replies 404 for no name or a failed load, 500 with the error prefix storing nothing, 200 storing the text under the reply's id; a raised error is the variables' error |
| Handlers.PromptHandler.Serve | app/chat.py:123-178 | the lookup, then the answer: the reply, the stored responses, the registry and the cached prompt's new state are exactly `Generated` of the state beforehand, and no cached prompt is dropped |
| Handlers.PromptHandler.Respond | app/chat.py:146-175 | the reply, the stored responses, the registry and the prompt's new state are exactly `PromptAnswer` of the prompt's state before, the assembled variables and the previous response id; the reply's shape is the one `PromptAnswerShape` proves |
| Handlers.PromptAnswerShape | app/chat.py:162-178 | a variables error raises; otherwise the run is `RunSpec` with the previous id: its failure gives the 500 reply with its error text and stores nothing, its success gives the 200 reply with the text, the prompt's new id and its output files, storing the text under that id |
| Handlers.PromptHandler.Record | app/chat.py:162-178 | a success stores the answer and replies 200 with id and files; a failure replies 500 |
| Handlers.AssistantCall.constructor | app/assistant.py:87-93 | empty caches and `webscrape` registered |
| Handlers.AssistantCall.GetAssistantByName | app/assistant.py:95-118 | a cached prompt is returned; otherwise one is created, and cached only on success; the prompt's state, the registry and the template cache are those `Found` computes beforehand |
| Handlers.AssistantCall.Generate | app/assistant.py:146-196 | as `PromptHandler.Generate`, but run without a previous id and stored under the given uuid; the outcome is exactly `Generated` of the state beforehand |
| Handlers.AssistantCall.GeneratedShape | app/assistant.py:146-196 | `Generated` replies 404 for a failed load, 500 with the error prefix storing nothing, 200 with the uuid and no files storing the text under the uuid; a raised error is the variables' error |
| Handlers.AssistantCall.Serve | app/assistant.py:146-196 | the lookup, then the answer: the outcome is exactly `Generated` of the state beforehand, under the uuid, and no cached assistant is dropped |
| Handlers.AssistantCall.Respond | app/assistant.py:169-193 | the outcome is exactly `AssistantAnswer` of the prompt's state before and the assembled variables, under the uuid; the reply's shape is the one `AssistantAnswerShape` proves |
| Handlers.AssistantAnswerShape | app/assistant.py:169-196 | a variables error raises; otherwise the run is `RunSpec` with no previous id: its failure gives the 500 reply with its error text, its success the 200 reply with the text under the uuid and no files, storing the text under the uuid |
| Handlers.AssistantCall.Record | app/assistant.py:185-196 | a success stores the answer under the uuid |
| Handlers.Templates | app/chat.py:106-121 | one entry per `.md` file, named by its stem |
| Handlers.TemplatesExact | app/chat.py:106-121 | an entry exists exactly for each `.md` file of the listing |
| Handlers.ListTemplates | app/chat.py:106-121 | `Templates` of the listing, or nothing when the directory is missing |
| Handlers.ChatPromptName | app/chat.py:220 | the request's prompt name, else `chatbot` |
| Handlers.GetChatResponse | app/chat.py:213-233 | empty content gives the empty reply and changes nothing; otherwise the body is `ChatBody` of the reply `Generated` gives for the request's prompt name (default `chatbot`), its content, file ids and previous id, and the responses, the registry and the cached prompt's new state are `Generated`'s; the uploads are never changed and no cached prompt is dropped |

## Left out

- Network and I/O are parameters: the provider, the template files (a map), uploaded file
  bodies, `AI_MODEL`, `PROMPTS_DIR`, today's date, the uuid, `importlib`, and tool functions
  with their validation. `upload_file`'s provider call and `get_annotation_file` are reduced to
  what they record.
- The tool loop runs on a `fuel` bound. A run that would need more rounds ends with an
  out-of-fuel failure, which the source does not have.
- Python's `html.parser` tokenizer is not modelled: the parser receives a sequence of start,
  end and data events. `markdown.markdown`, `process_text_content`, the `<table>` split of
  `parse_markdown_with_files` and the ReportLab rendering are not part of this model.
- HtmlElements.Attr: an attribute value is always a string. `html.parser` gives `None` for an
  attribute written without a value, so neither the TypeError that `<img src>` raises at
  app/pdf_utils.py:57 nor the `[IMAGE: None]` text of a valueless `alt` is modelled.
- Regular expressions are written out as hand matchers for the patterns the source uses. The
  word boundary of the corrected `<([bi])\b[^>]*>` and `<(/?)([bi])\b([^>]*)>` uses ASCII word
  characters.
- `str.lower()` and `bytes.lower()` are modelled on ASCII letters only.
- `get_with_params`, `frommarkdown`, `asjson`, `uploadfile`, `mimetypes`, the streaming
  response of `get_file`, `metadata` and the `tools` argument of `generate`: these do not
  affect the modelled results.
- Handlers.PromptHandler.Generate: `content` is a string. A `None` content, which renders as
  "None", is not modelled.
- Handlers.AssistantCall.GetAssistantByName: the name is a string. `None` is not modelled.
- Handlers.PromptHandler.Generate: reading an upload whose file is missing raises outside the
  `try`. It is modelled as a `Failure` carrying the `FileNotFoundError` text, not as a reply.
- PromptFiles.PromptPath: the path ends in `.md` and an absolute name replaces the directory.
  Normalisation of `os.path.join` is not modelled.
- Concurrency of the async handlers is not modelled: each call runs to completion.
- `Singleton` is keyed by class name rather than by class object.

## Findings

| source | as written | input that shows it | evidently intended | confidence | as-written member | corrected member |
|---|---|---|---|---|---|---|
| app/pdf_utils.py:214 | `<([bi])[^>]*>` also matches `<br/>` (including the ones made from `</p>` at line 211) and rewrites it to `<b>`; the balancer's tag pattern `<(/?)([bi])([^>]*)>` at line 238 matches `<br/>` too, so the balancing at line 217 counts it as an opened `b` and closes it at the end | `a<br/>b` becomes `a<b>b</b>` | only `<b ...>` and `<i ...>` tags lose their attributes and only they are balanced: both patterns, at line 214 and at line 238, end the tag name at a word boundary, and line breaks stay | not executed | HtmlClean.LineBreakBecomesBold | HtmlClean.LineBreakKept |
| app/pdf_utils.py:321 | `parse_markdown_with_files` defaults `output_files` to None; for an image without a match, the warning iterates `output_files` and raises TypeError | `<img src="a.png">` with `output_files` None | an image without files is left as it is | not executed | ImageRefs.AsWrittenFailsWithoutFiles | ImageRefs.NoFilesNoChange |
