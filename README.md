# gpt-cli-local-agent, modelled in Dafny

`agent.js` is a terminal agent. It reads a task from the operator and then sends a growing transcript to an OpenAI model, in a loop. Each reply may ask for function calls to four local tools: `list_files`, `read_file`, `edit_file` and `run_bash`. The agent runs every call in order and appends its result to the transcript. It stops when a reply asks for no calls. This project models three parts of that file:

- **The tool dispatcher `executeTool`** (`tools.dfy`, module `Tools`). It works over an abstract host. The file system is a `map<string, string>` from path to content. Directory listing, shell execution, `JSON.parse` of the call arguments and `JSON.stringify` are functions the host supplies. The JavaScript string operations it relies on are written out in `jsstring.dfy` (module `JsString`). These are `replace` with a string pattern (including the `$` substitution step of section 22.1.3.19.1 of ECMA-262) and `toLowerCase`. `IndexOf` models the StringIndexOf step inside `replace`; `agent.js` never calls `indexOf` itself.
- **The turn loop of `runAgent`** (`agent.dfy`, module `Agent`). Class `Agent` holds the transcript `input`. Method `Turn` is one iteration of `while (true)`. Method `RunToolCalls` is the `for` loop over the calls. Each method is proved equal to a specification function: `Step`, `RunCalls` and `AgentRun`. The loop takes the tool runner as a parameter. `RunAgent` and the session pass it `Executor(host)`, which is the dispatcher of `tools.dfy`. The lemmas state the properties of those functions:
  - the transcript only grows;
  - it always starts with the user's message;
  - a reply's output items are appended in order;
  - the i-th `function_call_output` carries the `call_id` of the i-th call;
  - the loop ends exactly when a reply has no calls;
  - there is no iteration cap.
- **The read loop of `main`** (`session.dfy`, module `Session`). The quit test ignores case. Any other line runs exactly one task. Anything a task throws ends the session.

The model service is a function from the transcript to a reply. `None` stands for a request that rejects. The loop in `runAgent` has no bound. Dafny needs every loop to terminate, so the model watches it for at most `fuel` model requests. The outcome `Running` means the source would keep going. Lemma `AgentRunFuel` shows that more fuel never changes a run that has already ended. The operator's typed lines are a finite sequence. When they run out, the session ends with `InputClosed`.

What `agent.js` does not do:

- **No safety features.** There is no iteration cap, no confirmation before `run_bash`, no token accounting and no reset command.
- **No `create_file` tool.** Calling `edit_file` with an empty `old_text` creates or overwrites a file.
- **Errors are not turned into results.** A tool that rejects, or call arguments that `JSON.parse` cannot read, throw out of `runAgent`. `main` catches the throw and ends the session.
- **Text not found still reports success.** When `edit_file` does not find `old_text`, it writes the file back unchanged and still returns "File edited".

## Model

| member | source | states |
|---|---|---|
| `JsString.IndexOfFrom` | agent.js:119 | The search `replace` makes for its pattern. The result is an index at or after `from` where the pattern occurs, with no occurrence between `from` and it. `None` comes back exactly when there is no occurrence at or after `from`. |
| `JsString.IndexOf` | agent.js:119 | An index is found exactly when the pattern occurs somewhere, and that index is the first occurrence. |
| `JsString.SubstituteLiteral` | agent.js:119 | A replacement text without `$` is inserted exactly as written. |
| `JsString.ReplaceFirstFound` | agent.js:119 | Say the pattern first occurs at `k` and the replacement has no `$`. Then `replace` gives the text before `k`, then the replacement, then the untouched rest, later occurrences included. |
| `JsString.ReplaceFirstNotFound` | agent.js:119 | A pattern that does not occur leaves the string unchanged. |
| `JsString.ToLower` | agent.js:180 | Lower-casing keeps the length and lower-cases each code unit on its own. |
| `Tools.Names` | agent.js:100 | Gives one name per directory entry, in listing order. The i-th name is the i-th entry's name. |
| `Tools.ListFilesDefault` | agent.js:97-103 | With no `path` argument, `list_files` lists "." and changes no file. It returns the JSON encoding of the entry names, one per entry, in order. |
| `Tools.UnknownToolNoEffect` | agent.js:95-130 | A tool name that matches no `case` changes no file and returns `undefined`. |
| `Tools.ReadOnlyTools` | agent.js:95-130 | Only `edit_file` and `run_bash` can change the file system. |
| `Tools.EditFileFrame` | agent.js:108-123 | `edit_file` changes no path except the one it edits, `args.path ?? "."`. |
| `Tools.EditFileCreates` | agent.js:113-116 | With `old_text == ""`, the file becomes exactly `new_text`, whatever it held before. The call returns "File created" and changes nothing else. |
| `Tools.EditFileReplaces` | agent.js:118-122 | With a non-empty `old_text` first found at `k`, the file becomes the prefix, then `new_text`, then the untouched remainder. The call returns "File edited". |
| `Tools.EditFileNotFound` | agent.js:118-122 | When `old_text` does not occur, the file system is unchanged and the call still returns "File edited". |
| `Tools.EditFileMissing` | agent.js:118 | With a non-empty `old_text` and a path that does not exist, `readFile` rejects and nothing is written. |
| `Agent.FunctionCalls` | agent.js:151 | The result holds only `function_call` items, all taken from the output. It is empty exactly when the output has no call. |
| `Agent.FunctionCallsKeepsAll` | agent.js:151 | The filter drops no call: every `function_call` item of the output is among the calls it keeps. |
| `Agent.FunctionCallsAppend` | agent.js:151 | The filter distributes over concatenation, so calls keep their order. |
| `Agent.RunCallsPaired` | agent.js:154-165 | When no call throws, there is exactly one output per call. The i-th is a `function_call_output` with the i-th call's `call_id`. |
| `Agent.RunToolCalls` | agent.js:154-165 | The `for` loop gives the same result as the specification `RunCalls`: it parses and runs the calls in order and stops at the first throw. |
| `Agent.StepShape` | agent.js:141-171 | One turn appends the whole reply output, in order, after the old transcript. A turn ends the loop exactly when the reply has no calls, and then appends nothing else and changes no file. A throw keeps only the output. Otherwise the items after the output are paired one to one with the calls. A rejecting request changes nothing. |
| `Agent.StepKeepsPrefix` | agent.js:149-167 | A turn only appends: the old transcript is a prefix of the new one. |
| `Agent.StepBalanced` | agent.js:149-167 | A turn that does not throw keeps the call ids of the transcript equal, in order, to its output ids. |
| `Agent.AgentRunKeepsPrefix` | agent.js:141-172 | No item already in the transcript is ever removed or altered. |
| `Agent.AgentRunBalanced` | agent.js:141-172 | Unless the run rejects, every call in the final transcript has been answered, in call order. |
| `Agent.AgentRunFuel` | agent.js:141 | More fuel does not change a run that has ended. |
| `Agent.NoIterationCap` | agent.js:141-172 | Suppose every reply asks for calls and all of them succeed. Then the loop never ends, however long it is watched. |
| `Agent.Agent.constructor` | agent.js:137 | The transcript starts as the single user message built from the prompt. |
| `Agent.Agent.Turn` | agent.js:142-171 | One iteration: the new transcript and file system are those `Step` gives. The transcript still starts with the user message. |
| `Agent.Agent.Run` | agent.js:141-172 | The loop gives the outcome `AgentRun` specifies, and leaves that outcome's transcript in `input`. |
| `Agent.RunAgent` | agent.js:136-173 | `runAgent(prompt)` gives the outcome `AgentRun` specifies from `[user message]`. Its transcript starts with that message. Unless it rejects, every call is answered. |
| `Session.QuitIgnoresCase` | agent.js:180 | A line is the quit command exactly when it is the four letters q, u, i, t, each in either case. |
| `Session.SessionFromTasks` | agent.js:177-193 | The tasks run are a prefix of the input lines, each run once and in order, and none of them is "quit". A session that quits stops at the first "quit". A session that ends by running out of input ran every line. |
| `Session.SessionTasks` | agent.js:177-193 | The same, for a whole session. |
| `Session.QuitStep` | agent.js:180-184 | A "quit" line ends the session without running a task or touching a file. |
| `Session.SessionStep` | agent.js:186-191 | Any other line runs exactly one task. A task that returns lets the loop read the next line. A task that throws ends the session. |
| `Session.RunSession` | agent.js:176-196 | The read loop gives the outcome `SessionRun` specifies. Its tasks are a prefix of the input lines. It quits only at a "quit" line. |

## Left out

- The OpenAI client and `responses.create` (agent.js:132-147) are a network call. Here they are a function from the transcript to a reply. The model does not capture the same transcript getting different replies. Within one task the transcript never repeats, so this only matters across tasks. A reply's `output` is assumed to hold only the item types the Responses API produces: never a user message or a `function_call_output`, and every item of type "function_call" is a `FunctionCall` (type `ReplyItem`). `Agent.NoOutputsInReply`, `Agent.AgentRunBalanced` and the balance clause of `Agent.RunAgent` rest on this.
- `fs`, `child_process.exec` and `readline` (agent.js:7-16) are I/O.
  - The file system is a path-to-content map. A write always succeeds and a read fails only on a missing path. The model does not tell directories from files, so writing to "." is not refused. Each key is its own file: paths such as "a" and "./a", or a symbolic link and its target, are different keys here but one file on disk, so `Tools.EditFileFrame` holds per key string only.
  - `readdir` and `exec` are host functions. A failing command's effects are whatever the host function returns.
- `JSON.parse` and `JSON.stringify` (agent.js:102, 158, 163) are host functions. The parsed arguments are string-valued members only: non-string members, `null` and non-object JSON values are not modelled.
- Absent `old_text` or `new_text` follow JavaScript and Node behaviour as modelled here. `replace` turns a missing value into the string "undefined". `writeFile` rejects `undefined` content. Neither behaviour is visible in `agent.js` itself.
- Strings are Dafny `string`s, whose elements are Unicode scalar values, whereas JavaScript strings are sequences of UTF-16 code units. A character outside the Basic Multilingual Plane has length 1 here and 2 in JavaScript, so indices differ on such text. A lone surrogate, which `JSON.parse` can produce from call arguments, cannot be represented, and a `replace` whose pattern splits a surrogate pair is outside the model. On text made only of Basic Multilingual Plane characters the results agree.
- `JsString.ToLower`: maps only ASCII letters, not the full Unicode case mapping of `toLowerCase`.
- `JsString.ReplaceFirstFound`, `Tools.EditFileReplaces`: state the literal result only when `new_text` has no `$`. `ReplaceFirst` itself models the `$` substitution (`$$`, `$&`, `` $` ``, `$'`).
- `Agent.Agent.Run`, `Agent.AgentRun`: the unbounded `while (true)` is watched for at most `fuel` model requests. `Running` stands for a loop that has not ended yet.
- `Session.RunSession`: the operator's input is a finite sequence of lines, and each task gets the same fuel.
- The `TOOLS` schema (agent.js:19-92) is static data that the code never checks.
- Console output, `output_text`, dotenv and `rl.close()` (agent.js:1-3, 139, 157, 169, 181-182, 188-190) have no effect on the state modelled here.
