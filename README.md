# Tool dispatcher model

This project models in Dafny the tool-invocation layer of a small language-model agent. It also models the text-editor tool's `str_replace` command and two configuration helpers. It proves properties of that model.

- **Dispatcher** (`tool_base.dfy`, module `ToolBase`). A tool is a `Tool` object: a name, a description, an ordered parameter list and an `execute` behaviour. `execute` is a total function from the call's arguments to an `ExecOutcome`: the tool either returns a `ToolExecuteResult` or raises an exception, given by its `repr`. `ToolExecutor` is a class with a `tools` sequence and a `toolMap` cache of type `Option<map<string, Tool>>`. `GetTools` builds the name-to-tool index once, with a loop, and returns the cached index after that. `CallResult` is the single-call dispatch as a total function. It has three outcomes: unknown name, tool returned, tool raised. `ExecuteToolCall`, `SequentialExecute` and `ParallelExecute` run it for one call or for a batch. `parallel_execute` gathers its results in input order, so its model is the same order-preserving map as the sequential one. The two schema renderings (`JsonDefinition`, `XmlDefinition`) are pure functions of the tool.
- **Edit tool** (`edit_tool.dfy`, module `EditTool`). `TextEditor` holds the file system as a `files: map<string, string>` field and the `snippetLines` set by its constructor. `StrReplace` does the following, in order:
  - reads the file;
  - expands tabs in the file, `old_str` and `new_str` (a missing `new_str` is the empty string);
  - counts the non-overlapping occurrences and raises a `ToolError` on zero or on more than one;
  - writes the single replacement;
  - computes the snippet window.
- **Model configuration** (module `ModelApi`). This covers the `ModelProvider` defaults, the precedence in `get_max_tokens_param` and the `should_use_max_completion_tokens` predicate.
- **Configuration precedence** (module `ConfigResolve`). `resolve_config_value` takes the process environment as a map argument.
- **Python string operations** (module `Text`). These are the `str` operations the code relies on, each defined once and proved about: `in`, `find`, `count` (non-overlapping; the empty string counts `len + 1` times), `replace`, `split` on one character, `join`, `expandtabs` (tab size 8, the column restarts at `\n` and `\r`), slicing (in-range bounds, negative bounds counted from the end, and an end bound or a start bound clamped to the list), `str` of a non-negative integer (whose digits read back as the number), and the `repr` of a list (which shows every element).

Two behaviours of the code are worth knowing:

- `CallResult` copies `result` and `error` from the tool's `ToolExecuteResult` whatever its `error_code` is, so a failed result can carry a payload (src/tools/base.py:150-157).
- If `old_str` and the file are both empty, `count` finds exactly one occurrence, so the replacement is written. Then `file_content.split("")` raises `ValueError`. `StrReplace` reports this as `EmptySeparator`, after the file has been written (src/tools/edit_tool.py:96-108).

## Model

| member | source | states |
|---|---|---|
| `ToolBase.Tool.constructor` | src/tools/base.py:64-87 | a tool carries its model provider, name, description, parameter list and execute behaviour as given |
| `ToolBase.JsonDefinition` | src/tools/base.py:89-95 | the structured definition holds the tool's name, description and parameter list unchanged |
| `ToolBase.XmlDefinitionLines` | src/tools/base.py:97-103 | when no name or description contains a newline, the XML definition splits into exactly `\|parameters\| + 2` lines: `<name>`, then `<p.name>p.description</p.name>` for each parameter of the JSON definition in order, then `</name>` |
| `ToolBase.ToolNames` | src/tools/base.py:142 | the listed names are the tools' names in list order, one per tool, duplicates included |
| `ToolBase.ToolMapOf` | src/tools/base.py:131 | the index's keys are exactly the tools' names, and each name maps to the last tool in list order with that name |
| `ToolBase.CallResult` | src/tools/base.py:134-165 | in every branch the result copies `call_id`, `name` and `id` from the call. Success holds exactly when the name resolves, the tool returns and `error_code == 0`. An unknown name gives no result and the not-found error. A returned outcome's `result` and `error` are copied verbatim. A raised fault gives no result and the error `Error executing tool '<name>': <fault>` |
| `ToolBase.UnknownToolReported` | src/tools/base.py:137-144 | for an unregistered name the result fails, its error starts with `Tool '<name>' not found`, and it contains every registered tool's name in quotes |
| `ToolBase.RaisedToolReported` | src/tools/base.py:158-165 | when the tool raises, the result fails, the error starts with `Error executing tool `, names the tool in quotes and ends with the fault's rendering |
| `ToolBase.ExecuteBatch` | src/tools/base.py:167-173 | a batch gives one result per call, in input order; result i is the single-call result of call i and carries call i's `call_id`, `name` and `id` |
| `ToolBase.BatchIsolation` | src/tools/base.py:167-173 | the results of two concatenated batches are the concatenation of each batch's results: no call's outcome depends on its siblings |
| `ToolBase.ToolExecutor.constructor` | src/tools/base.py:119-121 | a new executor holds the given tools and no index yet |
| `ToolBase.ToolExecutor.GetTools` | src/tools/base.py:129-132 | returns the index of the tool list; if an index was already cached, it is returned and the cache is left unchanged |
| `ToolBase.ToolExecutor.ExecuteToolCall` | src/tools/base.py:134-165 | builds or reuses the index, then returns the single-call result for the call against it |
| `ToolBase.ToolExecutor.SequentialExecute` | src/tools/base.py:171-173 | runs the calls one after another and returns the batch result in input order; with no calls the cache is untouched |
| `ToolBase.ToolExecutor.ParallelExecute` | src/tools/base.py:167-169 | returns the same ordered batch result as the sequential run |
| `EditTool.TextEditor.constructor` | src/tools/edit_tool.py:34-36 | the editor keeps its model provider and its snippet line count (4 by default) |
| `EditTool.TextEditor.Name` | src/tools/edit_tool.py:38-39 | the tool's name is `edit_tool` |
| `EditTool.TextEditor.Parameters` | src/tools/edit_tool.py:44-84 | exactly seven parameters, in the order command, file_text, insert_line, new_str, old_str, path, view_range. `command` alone has the enum `["view", "create", "str_replace", "insert"]`. Every parameter is required, most of them through the parameter record's default. The types are integer for insert_line, an array of integers for view_range and string otherwise |
| `EditTool.TextEditor.ReadFile` | src/tools/edit_tool.py:122-127 | an existing file's text, or a read failure naming the path |
| `EditTool.TextEditor.WriteFile` | src/tools/edit_tool.py:129-134 | only the given path's entry changes, and it now holds the text |
| `EditTool.TextEditor.StrReplace` | src/tools/edit_tool.py:89-111 | matching uses the tab-expanded file, `old_str` and `new_str`, with a missing `new_str` read as `""`. Zero occurrences raise the not-found `ToolError` and leave the files unchanged. Several occurrences raise the error listing the lines that contain `old_str` and leave the files unchanged. On one occurrence only that path changes, to prefix + new_str + suffix around the first occurrence; its length is old − \|old_str\| + \|new_str\|. Then either the snippet window and text are returned, or `EmptySeparator` is reported for an empty `old_str` |
| `EditTool.LinesContaining` | src/tools/edit_tool.py:100-101 | the listed numbers are exactly the 1-based numbers of the lines containing `old_str`, in increasing order |
| `EditTool.SingleReplacementKeepsContext` | src/tools/edit_tool.py:104 | with one occurrence, `replace` keeps the text before and after it, puts `new_str` in its place and changes the length by \|new_str\| − \|old_str\| |
| `EditTool.Window` | src/tools/edit_tool.py:108-110 | `replacement_line` is the number of newlines before the occurrence. `start_line` is `max(0, replacement_line - snippet_lines)`: at least 0 and at least `replacement_line - snippet_lines`, and either 0 or exactly `snippet_lines` before. `end_line` is `snippet_lines` plus the newlines of `new_str` after it. For a non-negative `snippet_lines`, 0 ≤ start ≤ replacement ≤ end |
| `EditTool.EditWindowInsideContent` | src/tools/edit_tool.py:104-111 | for a non-negative `snippet_lines`, the window of an edit starts at or before its end and inside the new content's lines, so the snippet is a window of those lines |
| `EditTool.SnippetIsLineWindow` | src/tools/edit_tool.py:111 | the snippet consists of exactly the new content's lines from `start_line` to `end_line`, clipped at the last line |
| `Text.FindIsFirstOccurrence` | src/api/base.py:57 | the substring search behind `in` returns the first index where the substring occurs, or nothing when it occurs nowhere |
| `Text.ContainsIff` | src/api/base.py:57 | `sub in s` holds exactly when `sub` occurs at some index of `s` |
| `Text.CountZeroIffAbsent` | src/tools/edit_tool.py:96-98 | `count` is zero exactly when the substring does not occur |
| `Text.ReplaceSingle` | src/tools/edit_tool.py:104 | with a count of one, `replace` substitutes the first occurrence and nothing else |
| `Text.ReplaceAbsent` | src/tools/edit_tool.py:104 | replacing a string that is never counted leaves the text unchanged |
| `Text.SplitOn` | src/tools/edit_tool.py:100 | `split` on one character gives one more piece than there are separators, and no piece contains the separator |
| `Text.JoinSplit` | src/tools/edit_tool.py:111 | joining the pieces of a split with the separator gives the text back |
| `Text.SplitJoin` | src/tools/base.py:103 | splitting a newline-join of separator-free lines gives the lines back |
| `Text.Slice` | src/tools/edit_tool.py:111 | a slice within bounds is the plain subsequence; negative bounds count from the end; an end bound past the list is clamped to its length and a start bound before it to 0; a slice is never longer than the list |
| `Text.CountCharConcat` | src/tools/edit_tool.py:108 | the newlines of a concatenation are those of its parts added up |
| `Text.ExpandTabsFrom` | src/tools/edit_tool.py:91-93 | expanding tabs leaves no tab, never shortens the text, and leaves tab-free text unchanged |
| `Text.ExpandTabsIdempotent` | src/tools/edit_tool.py:91-93 | expanded text holds no tab, and expanding it again changes nothing |
| `Text.ReprNamesElement` | src/tools/base.py:142 | the `repr` of a list of names contains every name in quotes |
| `Text.NatToString` | src/tools/edit_tool.py:102 | `str(n)` is a non-empty run of decimal digits with no leading zero |
| `Text.NatToStringRoundTrip` | src/tools/edit_tool.py:102 | reading the digits of `str(n)` back gives `n` |
| `Text.ReprNatsElement` | src/tools/edit_tool.py:102 | the `repr` of the list of line numbers shows every number in decimal |
| `ModelApi.DefaultProvider` | src/api/base.py:24-27 | the default provider is `openai` with api key `EMPTY` and no base URL or API version |
| `ModelApi.GetMaxTokensParam` | src/api/base.py:45-52 | `max_completion_tokens` wins whenever it is set, else `max_tokens` if set, else 4096 |
| `ModelApi.ShouldUseMaxCompletionTokens` | src/api/base.py:54-57 | holds exactly when all three are true: `max_completion_tokens` is set, the provider is `azure`, and the model name contains `gpt-5`, `o3` or `o4-mini` as a substring |
| `ModelApi.CompletionTokensAgree` | src/api/base.py:45-57 | whenever the completion-token parameter is to be used, it is also the reported token limit |
| `ModelApi.AzureGpt5Example` | src/api/base.py:54-57 | an Azure `gpt-5-mini` configuration with a completion limit uses it; the same configuration on the default provider does not |
| `ConfigResolve.ResolveConfigValue` | src/utils/resolve_config_value.py:14-26 | the precedence is as follows. A CLI value wins. Without one, a non-empty variable name with a non-empty environment value gives that value; an unset, empty or absent variable falls through. After that comes the configuration value, else nothing. The result is always the CLI value, the environment value, the configuration value or nothing, and it is nothing exactly when none applies |

## Left out

- `ToolBase.ToolExecutor.GetTools`: the tool list is treated as fixed after construction. The code keeps the caller's own list (src/tools/base.py:120), caches the index on first use (130-132), but re-reads the list for the not-found message (142). So a tool that the caller appends after the first call is missing from the stale index yet listed as available in the error. `Valid()` rules that state out, and aliasing of the caller's list is not modelled.
- Concurrency: `parallel_execute` schedules its calls with `asyncio.gather`; only its order-preserving result is modelled.
- `close_tools` (src/tools/base.py:123-126): a concurrent teardown. It passes a list to `asyncio.gather` without unpacking it, so it does not await the closes. `BaseTool.close` only prints. Neither is modelled.
- Tool behaviour is a deterministic function of the arguments. A tool with state of its own, such as two calls that edit the same file, is not modelled through the executor. The strict order of the sequential run is kept only in `SequentialExecute`'s loop.
- `except Exception` lets non-`Exception` faults escape, such as task cancellation. The model has only `Exception` faults, and their `repr` is an opaque string.
- `BaseTool.get_name`, `get_description`, `get_parameters` and `execute` raise `NotImplementedError` in the base class. Every modelled tool has a name, a description, parameters and a behaviour.
- `TextEditorTool.execute` (src/tools/edit_tool.py:86-87) returns `None`, and the `view`, `create` and `insert` commands are not implemented. They are not modelled.
- `EditTool.TextEditor.StrReplace`: stops at the new content, the window and the snippet text. The success message is not modelled. As written, line 115 calls `_make_output` with three arguments against its single parameter, which raises `TypeError` after the file is written.
- `EditTool.TextEditor.ReadFile`: the `files` map holds each file's text as `read_text` returns it: decoded, with universal newlines already turned into `\n`, so it holds no `\r`. The encoding, the newline translation on reading and writing (`read_text`, `write_text`), and the normalisation of the path by `str(Path)` in messages are not modelled. The only read failure modelled is a path with no file, and the text of the wrapped OS error is not modelled.
- `EditTool.TextEditor.WriteFile`: writing never fails, because the file system is a map.
- The tool description of the edit tool and the `get_description` method are not modelled; the parameter descriptions are.
- `Text.ReprStrings` quotes every name with single quotes and escapes nothing. Python's `repr` switches to double quotes and escapes for names that contain quotes or backslashes.
- `get_input_schema`, `BaseClient` (`chat`, `set_chat_history`, `set_recoder`, `support_tool_calling`) and `ModelConfig.resolve_config_values` are stubs or plain accessors and are not modelled.
- The pydantic serialisation (`ToolCall.__str__`, validation) and the OpenAI message types are not modelled.
- The floating-point `temperature` and `top_p` fields of `ModelConfig` are not modelled.
- `ToolParameter.items` and nested argument values are typed as `object` in the code. The model uses a JSON-like `Value` datatype for them.
- `ConfigResolve.ResolveConfigValue`: CLI and configuration values are modelled as strings, while the code accepts any value. `os.getenv` is read twice in the code and is assumed to return the same value both times.
- src/demo.py is an asyncio timing demo, and src/core/__init__.py holds records with a module-level print. Neither is part of this model.
