/**
 * The tool dispatcher `executeTool` (agent.js:95-130) over an abstract host:
 * the file system is a map from path to content, and directory listing, shell
 * execution and JSON encoding are functions supplied by the host.
 */
module Tools {
  import opened Wrappers
  import opened JsString

  /** File contents by path. */
  type Files = map<string, string>

  /** The parsed arguments of a call: a key is absent when the JSON object has no such member. */
  type Args = map<string, string>

  /** One entry returned by `fs.readdir(path, {withFileTypes: true})`. */
  datatype Dirent = Dirent(name: string, isDirectory: bool)

  /** What `exec(command)` resolves to: the two captured streams. */
  datatype Streams = Streams(stdout: string, stderr: string)

  /**
   * The result of running a shell command: the file system afterwards, and the
   * captured streams, or `None` when the promise rejects (non-zero exit, spawn failure).
   */
  datatype ExecReply = ExecReply(files: Files, streams: Option<Streams>)

  /**
   * The host the agent runs on. `readdir` returns `None` where `fs.readdir` rejects;
   * `parseArgs` returns `None` where `JSON.parse` throws; `stringify` and
   * `stringifyNames` are `JSON.stringify` of a string and of an array of strings.
   */
  datatype Host = Host(
    readdir: (Files, string) -> Option<seq<Dirent>>,
    exec: (Files, string) -> ExecReply,
    parseArgs: string -> Option<Args>,
    stringify: string -> string,
    stringifyNames: seq<string> -> string)

  /** How a tool call ends: the async function returns a value (`None` is `undefined`) or throws. */
  datatype Outcome = Returned(value: Option<string>) | Threw

  /** The file system after a tool call, and how the call ended. */
  datatype ToolStep = ToolStep(files: Files, outcome: Outcome)

  /** `args.key`, `None` when the member is absent. */
  function Arg(args: Args, key: string): Option<string> {
    if key in args then Some(args[key]) else None
  }

  /** `content.map((c) => c.name)`: one name per entry, in listing order. */
  function Names(entries: seq<Dirent>): (names: seq<string>)
    ensures |names| == |entries|
    ensures forall i :: 0 <= i < |entries| ==> names[i] == entries[i].name
  {
    if entries == [] then [] else [entries[0].name] + Names(entries[1..])
  }

  /** The path `edit_file` works on: `args.path ?? "."`. */
  function EditPath(args: Args): string {
    Arg(args, "path").GetOr(".")
  }

  /**
   * `edit_file`. An empty `old_text` writes `new_text` as the whole file; otherwise the
   * file is read (rejecting when it does not exist) and its first occurrence of
   * `old_text` is replaced. An absent `old_text` or `new_text` is coerced by `replace`
   * to the string "undefined", and `fs.writeFile` rejects `undefined` data.
   */
  function EditFile(files: Files, args: Args): ToolStep {
    var path := EditPath(args);
    var oldText := Arg(args, "old_text");
    var newText := Arg(args, "new_text");
    if oldText == Some("") then
      match newText
      case None => ToolStep(files, Threw)
      case Some(text) => ToolStep(files[path := text], Returned(Some("File created")))
    else if path !in files then
      ToolStep(files, Threw)
    else
      var content := ReplaceFirst(files[path], oldText.GetOr("undefined"), newText.GetOr("undefined"));
      ToolStep(files[path := content], Returned(Some("File edited")))
  }

  /** `list_files`: the entry names of `args.path ?? "."`, encoded as a JSON array. */
  function ListFiles(host: Host, files: Files, args: Args): ToolStep {
    match host.readdir(files, Arg(args, "path").GetOr("."))
    case None => ToolStep(files, Threw)
    case Some(entries) => ToolStep(files, Returned(Some(host.stringifyNames(Names(entries)))))
  }

  /** `read_file`: the content at `args.path`; rejects on an absent path argument or a missing file. */
  function ReadFile(files: Files, args: Args): ToolStep {
    match Arg(args, "path")
    case None => ToolStep(files, Threw)
    case Some(path) =>
      if path in files then ToolStep(files, Returned(Some(files[path]))) else ToolStep(files, Threw)
  }

  /** `run_bash`: runs `args.command` and formats both streams; rejects where `exec` does. */
  function RunBash(host: Host, files: Files, args: Args): ToolStep {
    match Arg(args, "command")
    case None => ToolStep(files, Threw)
    case Some(command) =>
      var reply := host.exec(files, command);
      match reply.streams
      case None => ToolStep(reply.files, Threw)
      case Some(out) => ToolStep(reply.files, Returned(Some("stdout:\n" + out.stdout + "\n" + out.stderr)))
  }

  /** `executeTool(toolName, args)`: a `switch` on the name with no `default` case. */
  function ExecuteTool(host: Host, files: Files, name: string, args: Args): ToolStep {
    if name == "list_files" then ListFiles(host, files, args)
    else if name == "read_file" then ReadFile(files, args)
    else if name == "edit_file" then EditFile(files, args)
    else if name == "run_bash" then RunBash(host, files, args)
    else ToolStep(files, Returned(None))
  }

  /** The names the `switch` has a case for. */
  predicate IsKnownTool(name: string) {
    name == "list_files" || name == "read_file" || name == "edit_file" || name == "run_bash"
  }

  /** A name that matches no case changes nothing and returns `undefined`. */
  lemma UnknownToolNoEffect(host: Host, files: Files, name: string, args: Args)
    requires !IsKnownTool(name)
    ensures ExecuteTool(host, files, name, args) == ToolStep(files, Returned(None))
  {
  }

  /** Only `edit_file` and `run_bash` can change the file system; the other tools leave it as it is. */
  lemma ReadOnlyTools(host: Host, files: Files, name: string, args: Args)
    requires name != "edit_file" && name != "run_bash"
    ensures ExecuteTool(host, files, name, args).files == files
  {
  }

  /** `edit_file` changes at most the one path it names. */
  lemma EditFileFrame(files: Files, args: Args, q: string)
    requires q != EditPath(args)
    ensures var after := EditFile(files, args).files;
      (q in after <==> q in files) && (q in files ==> after[q] == files[q])
  {
  }

  /** `edit_file` with `old_text == ""` makes the file exactly `new_text`, whatever it held, and reports "File created". */
  lemma EditFileCreates(host: Host, files: Files, args: Args, path: string, newText: string)
    requires Arg(args, "path") == Some(path)
    requires Arg(args, "old_text") == Some("") && Arg(args, "new_text") == Some(newText)
    ensures var step := ExecuteTool(host, files, "edit_file", args);
      step == ToolStep(files[path := newText], Returned(Some("File created")))
      && path in step.files && step.files[path] == newText
  {
  }

  /**
   * `edit_file` with a non-empty `old_text` that first occurs at `k` in the file, and a
   * `new_text` without `$`: the prefix, then `new_text`, then the untouched remainder.
   */
  lemma EditFileReplaces(host: Host, files: Files, args: Args, path: string, oldText: string, newText: string, k: nat)
    requires Arg(args, "path") == Some(path) && path in files
    requires Arg(args, "old_text") == Some(oldText) && oldText != ""
    requires Arg(args, "new_text") == Some(newText) && '$' !in newText
    requires FirstOccurrence(files[path], oldText, k)
    ensures var content := files[path];
      ExecuteTool(host, files, "edit_file", args)
      == ToolStep(files[path := content[..k] + newText + content[k + |oldText|..]], Returned(Some("File edited")))
  {
    ReplaceFirstFound(files[path], oldText, newText, k);
  }

  /** `edit_file` whose `old_text` does not occur writes the content back unchanged and still reports "File edited". */
  lemma EditFileNotFound(host: Host, files: Files, args: Args, path: string, oldText: string)
    requires Arg(args, "path") == Some(path) && path in files
    requires Arg(args, "old_text") == Some(oldText) && oldText != ""
    requires forall j :: !OccursAt(files[path], oldText, j)
    ensures ExecuteTool(host, files, "edit_file", args) == ToolStep(files, Returned(Some("File edited")))
  {
  }

  /** `edit_file` on a path that does not exist rejects, unless `old_text` is empty; nothing is written. */
  lemma EditFileMissing(host: Host, files: Files, args: Args)
    requires EditPath(args) !in files && Arg(args, "old_text") != Some("")
    ensures ExecuteTool(host, files, "edit_file", args) == ToolStep(files, Threw)
  {
  }

  /**
   * `list_files` without a `path` lists "." and, when the listing succeeds, returns the
   * encoding of one name per entry, in listing order.
   */
  lemma ListFilesDefault(host: Host, files: Files, args: Args, entries: seq<Dirent>)
    requires "path" !in args
    requires host.readdir(files, ".") == Some(entries)
    ensures var step := ExecuteTool(host, files, "list_files", args);
      step.files == files && step.outcome.Returned? && step.outcome.value.Some?
      && step.outcome.value.value == host.stringifyNames(Names(entries))
      && |Names(entries)| == |entries|
      && forall i :: 0 <= i < |entries| ==> Names(entries)[i] == entries[i].name
  {
  }
}
