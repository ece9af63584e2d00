# Tool-optimizer plugin: a Dafny model

This project models the `"chat.params"` hook of the opencode tool-optimizer
plugin (`config/opencode/plugins/tool-optimizer.js`). Before each chat
request the host calls the hook with the request's `output` object. When
`output.options.tools` is present, the hook replaces the tool list with
trimmed copies of the tools, in the same order. Each copy keeps only `type`,
`function.name`, `function.description` and `function.parameters`. The tool
description is cut to its first line, but it is kept whole when that first
line is empty. Every non-empty parameter description is then cut to its
first line with no such fallback. The parameter schemas are shared with the
caller, so they are edited in place.

Files:

- `values.dfy` (module `Values`): `Option` for a property that may be
  absent, and `Json` for the fields the hook copies or drops unread.
- `descriptions.dfy` (module `Descriptions`): the text rules as pure
  functions. `FirstLine` is `s.split('\n')[0]`. `ToolDescription` is the rule
  on line 14, fallback included. `ParamDescription` is the rule on lines
  22-24. Lemmas give their edge cases, their idempotence and where the two
  rules differ.
- `tool_optimizer.dfy` (module `ToolOptimizer`): the request objects as
  classes (`Output`, `Options`, `Parameters`, `Schema`) and tools as values
  (`Tool`, `Function`). The hook is the method `OnChatParams`. It uses
  `SimplifyTools` for the `.map`, `SimplifyTool` for the map callback and
  `SimplifyProperties` for the `for … of Object.entries(...)` loop.

Design points:

- A `Tool` is a value. `tools.map` builds fresh records, and the hook never
  writes to the input tool records. The objects the hook does write to are
  classes: `Options`, whose `tools` is reassigned, and `Schema`, whose
  `description` is overwritten.
- The `parameters` object is referenced, not copied. `IsTrimmedCopy`
  requires `r.func.parameters == t.func.parameters`, the same reference.
  Editing a schema through the copy therefore also edits the input tool's
  schema. `LeadingNewlineExample` shows this on a concrete request.
- One schema object can be reached several times: under two parameter names,
  or from two tools that share a `parameters` object. The loops then apply
  the parameter rule to it more than once. The rule is idempotent
  (`ParamDescriptionIdempotent`), so each reachable schema still ends with the
  rule applied once to its original description. The methods' postconditions
  say exactly this, and the loop invariants track the set of schemas already
  visited.
- The frames (`modifies OptionsOf(output)`tools, OutputSchemas(output)`description`)
  say the hook writes only `options.tools` and schema descriptions. Options
  keys other than `tools`, the `parameters` objects and other schema keys are
  unchanged.
- The hook edits the caller's own schema objects under
  `parameters.properties`; the model follows this.
- `IsTrimmedCopy` (predicate, lines 9-17 of the source) is the model's
  statement of what one trimmed tool is: exactly `type`, `function.name`,
  `function.description` and `function.parameters`, with type and name
  copied, the description under the tool rule and the parameters object
  shared. `SimplifyTool`, `SimplifyTools` and `OnChatParams` promise it of
  every tool they produce.
- `LeadingNewlineExample` is a verified client: on a concrete request it
  shows the tool description that starts with a newline kept whole, the
  parameter description that starts with a newline emptied, an extra
  `function` key dropped, and the edit seen through the caller's tool.

## Model

| member | source | states |
|---|---|---|
| `Descriptions.FirstLine` | config/opencode/plugins/tool-optimizer.js:14 | the first element of `split('\n')` is a prefix of the string with no newline in it, ending at the string's end or just before its first newline |
| `Descriptions.FirstLineUnique` | config/opencode/plugins/tool-optimizer.js:14 | those three properties determine the first line: any string that has them is `FirstLine(s)` |
| `Descriptions.FirstLineWithoutNewline` | config/opencode/plugins/tool-optimizer.js:14 | a string with no newline is its own first line |
| `Descriptions.FirstLineIdempotent` | config/opencode/plugins/tool-optimizer.js:14 | the first line of a first line is itself |
| `Descriptions.ToolDescription` | config/opencode/plugins/tool-optimizer.js:14 | an absent description stays absent and an empty one stays empty; one that starts with a newline is kept whole (the `||` fallback); any other becomes its non-empty first line |
| `Descriptions.ToolDescriptionWithoutNewline` | config/opencode/plugins/tool-optimizer.js:14 | a tool description with no newline is unchanged |
| `Descriptions.ToolDescriptionIdempotent` | config/opencode/plugins/tool-optimizer.js:14 | applying the tool-description rule twice gives the same result as applying it once |
| `Descriptions.ParamDescription` | config/opencode/plugins/tool-optimizer.js:22-24 | absent and empty parameter descriptions are left alone; any other becomes its first line; one that starts with a newline becomes the empty string (no fallback) |
| `Descriptions.ParamDescriptionWithoutNewline` | config/opencode/plugins/tool-optimizer.js:22-24 | a parameter description with no newline is unchanged |
| `Descriptions.ParamDescriptionIdempotent` | config/opencode/plugins/tool-optimizer.js:22-24 | applying the parameter-description rule twice gives the same result as applying it once |
| `Descriptions.ToolAndParamRulesDiffer` | config/opencode/plugins/tool-optimizer.js:14-23 | the tool rule and the parameter rule give different results exactly when the description starts with a newline (both directions) |
| `ToolOptimizer.TrimmedCopyIdempotent` | config/opencode/plugins/tool-optimizer.js:9-17 | trimming a trimmed copy again gives the same record: feeding the hook's tool list back through it changes no tool |
| `ToolOptimizer.SimplifyProperties` | config/opencode/plugins/tool-optimizer.js:21-25 | every schema in the `properties` table has the parameter rule applied once to its original description, even a schema listed under several names; the other schema keys are unchanged; only `description` fields are written |
| `ToolOptimizer.SimplifyTool` | config/opencode/plugins/tool-optimizer.js:7-28 | the result has only `type` and `name`, both copied, the tool-rule description and the same `parameters` object; every schema reachable from the tool's `parameters.properties` has the parameter rule applied; a tool without `parameters` or `properties` has no schema written |
| `ToolOptimizer.SimplifyTools` | config/opencode/plugins/tool-optimizer.js:7-29 | the new list has the input's length, and its i-th entry is the trimmed copy of the i-th tool; every schema reachable from any tool has the rule applied once to its original description, however many tools share it |
| `ToolOptimizer.OnChatParams` | config/opencode/plugins/tool-optimizer.js:5-30 | with `options` or `options.tools` absent, nothing changes; otherwise `options.tools` becomes the list of trimmed copies in order, and the schemas reachable from the original tools get the parameter rule; `options` itself, the other option keys, the `parameters` objects and the other schema keys are unchanged |

## Left out

- `config/opencode/plugins/auto-verify.js` is not part of this model. It
  runs a shell command, shows host notifications and sends a conversation
  prompt. All of that is I/O through the host API.
- The async plugin factory and hook registration
  (`config/opencode/plugins/tool-optimizer.js:1-3`) are the host's plugin
  contract, not logic. The hook's `input` argument is unused by the source
  and is not modelled.
- JavaScript truthiness of non-string values is not modelled: descriptions
  are strings or absent. `tool.function` is always present; in the source a
  tool without `function` makes the hook throw a `TypeError`. `type` is a
  string.
- `null` and `undefined` are not told apart: both are `None`. The `?.` and
  truthiness checks treat them alike.
- `Object.entries` order is not modelled: the `properties` table is a map
  and the loop picks keys in any order. The final state does not depend on
  the order, because the rule is idempotent on each schema object.
- `Parameters.properties` is a `const`. The hook never reassigns the
  `properties` table, so "the parameter names and the set of parameters are
  unchanged" holds by the field's type rather than through a proof.
- The simplified `function` record always carries `description` and
  `parameters` keys, even when their value is `undefined`. The model does
  not tell a key holding `undefined` apart from a missing key.
- Keys of a schema or parameters object other than the ones the hook
  touches are opaque values (`Json`), not objects. A schema object that is
  also nested inside them (under `items`, a nested `properties` or `$defs`)
  is therefore not modelled as shared: the source's edit to it would also
  show under that nested key, while the model keeps the nested copy as it
  was.
