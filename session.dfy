/**
 * The read loop of `main` (agent.js:176-196): read a prompt, stop on "quit" in any
 * letter case, otherwise run one task; anything a task throws is caught and ends the
 * session. The operator's input is the finite sequence of lines typed.
 */
module Session {
  import opened JsString
  import opened Tools
  import opened Agent

  /** `prompt.toLowerCase() === "quit"`. */
  predicate IsQuit(prompt: string) {
    ToLower(prompt) == "quit"
  }

  /** The quit test ignores letter case, and accepts nothing but the four letters of "quit". */
  lemma QuitIgnoresCase(prompt: string)
    ensures IsQuit(prompt) <==>
      |prompt| == 4 && prompt[0] in "qQ" && prompt[1] in "uU" && prompt[2] in "iI" && prompt[3] in "tT"
  {
  }

  /** Why the session ended: "quit", a task threw, the input ran out, or a task is still looping. */
  datatype SessionEnd = Quit | TaskThrew | InputClosed | TaskRunning

  /** The end of the session, the prompts that ran as tasks, and the file system left behind. */
  datatype SessionResult = SessionResult(end: SessionEnd, tasks: seq<string>, files: Files)

  /** The loop from the `i`-th prompt on, `tasks` having run already; each task is watched for `fuel` requests. */
  function SessionFrom(service: ModelService, host: Host, files: Files, prompts: seq<string>, i: nat,
                       tasks: seq<string>, fuel: nat): SessionResult
    requires i <= |prompts|
    decreases |prompts| - i
  {
    if i == |prompts| then SessionResult(InputClosed, tasks, files)
    else if IsQuit(prompts[i]) then SessionResult(Quit, tasks, files)
    else
      match AgentRun(service, host, Executor(host), files, [UserMessage(prompts[i])], fuel)
      case Finished(_, f) => SessionFrom(service, host, f, prompts, i + 1, tasks + [prompts[i]], fuel)
      case Rejected(_, f) => SessionResult(TaskThrew, tasks + [prompts[i]], f)
      case Running(_, f) => SessionResult(TaskRunning, tasks + [prompts[i]], f)
  }

  /** The whole session over the lines `prompts`. */
  function SessionRun(service: ModelService, host: Host, files: Files, prompts: seq<string>, fuel: nat): SessionResult {
    SessionFrom(service, host, files, prompts, 0, [], fuel)
  }

  /**
   * The prompts run as tasks are exactly a prefix of the input, each once and in order,
   * and none of them is "quit"; a session that quits stops at the first "quit", without
   * running it; a session that ends any other way than by "quit" or a task ran every
   * line it read.
   */
  lemma {:induction false} SessionFromTasks(service: ModelService, host: Host, files: Files, prompts: seq<string>,
                                            i: nat, tasks: seq<string>, fuel: nat)
    requires i <= |prompts| && tasks == prompts[..i]
    requires forall j :: 0 <= j < i ==> !IsQuit(prompts[j])
    ensures var r := SessionFrom(service, host, files, prompts, i, tasks, fuel);
      && i <= |r.tasks| <= |prompts|
      && r.tasks == prompts[..|r.tasks|]
      && (forall j :: 0 <= j < |r.tasks| ==> !IsQuit(prompts[j]))
      && (r.end == Quit ==> |r.tasks| < |prompts| && IsQuit(prompts[|r.tasks|]))
      && (r.end == InputClosed ==> |r.tasks| == |prompts|)
      && (r.end == TaskThrew || r.end == TaskRunning ==> |r.tasks| > 0)
    decreases |prompts| - i
  {
    if i < |prompts| && !IsQuit(prompts[i]) {
      assert prompts[..i] + [prompts[i]] == prompts[..i + 1];
      match AgentRun(service, host, Executor(host), files, [UserMessage(prompts[i])], fuel)
      case Finished(_, f) =>
        SessionFromTasks(service, host, f, prompts, i + 1, tasks + [prompts[i]], fuel);
      case Rejected(_, f) =>
      case Running(_, f) =>
    }
  }

  lemma SessionTasks(service: ModelService, host: Host, files: Files, prompts: seq<string>, fuel: nat)
    ensures var r := SessionRun(service, host, files, prompts, fuel);
      && |r.tasks| <= |prompts|
      && r.tasks == prompts[..|r.tasks|]
      && (forall j :: 0 <= j < |r.tasks| ==> !IsQuit(prompts[j]))
      && (r.end == Quit ==> |r.tasks| < |prompts| && IsQuit(prompts[|r.tasks|]))
      && (r.end == InputClosed ==> |r.tasks| == |prompts|)
  {
    SessionFromTasks(service, host, files, prompts, 0, [], fuel);
  }

  /** A "quit" line ends the session without running a task and without touching the file system. */
  lemma QuitStep(service: ModelService, host: Host, files: Files, prompts: seq<string>, i: nat,
                 tasks: seq<string>, fuel: nat)
    requires i < |prompts| && IsQuit(prompts[i])
    ensures SessionFrom(service, host, files, prompts, i, tasks, fuel) == SessionResult(Quit, tasks, files)
  {
  }

  /**
   * One iteration of the read loop for a line that is not "quit": it runs exactly one task;
   * a task that returns lets the loop read the next line, and one that throws ends the session.
   */
  lemma SessionStep(service: ModelService, host: Host, files: Files, prompts: seq<string>, i: nat,
                    tasks: seq<string>, fuel: nat, outcome: RunOutcome)
    requires i < |prompts| && !IsQuit(prompts[i])
    requires outcome == AgentRun(service, host, Executor(host), files, [UserMessage(prompts[i])], fuel)
    ensures outcome.Finished? ==>
      SessionFrom(service, host, files, prompts, i, tasks, fuel)
        == SessionFrom(service, host, outcome.files, prompts, i + 1, tasks + [prompts[i]], fuel)
    ensures outcome.Rejected? ==>
      SessionFrom(service, host, files, prompts, i, tasks, fuel)
        == SessionResult(TaskThrew, tasks + [prompts[i]], outcome.files)
    ensures outcome.Running? ==>
      SessionFrom(service, host, files, prompts, i, tasks, fuel)
        == SessionResult(TaskRunning, tasks + [prompts[i]], outcome.files)
  {
  }

  /** `main`: the `while (true)` read loop, with its two `break`s. */
  method RunSession(service: ModelService, host: Host, files: Files, prompts: seq<string>, fuel: nat)
    returns (r: SessionResult)
    ensures r == SessionRun(service, host, files, prompts, fuel)
    ensures |r.tasks| <= |prompts| && r.tasks == prompts[..|r.tasks|]
    ensures r.end == Quit ==> |r.tasks| < |prompts| && IsQuit(prompts[|r.tasks|])
  {
    var tasks: seq<string> := [];
    var current := files;
    var end := InputClosed;
    var i := 0;
    while i < |prompts|
      invariant i <= |prompts|
      invariant SessionRun(service, host, files, prompts, fuel) == SessionFrom(service, host, current, prompts, i, tasks, fuel)
    {
      var prompt := prompts[i];
      if ToLower(prompt) == "quit" {
        end := Quit;
        break;
      }
      var outcome := RunAgent(prompt, service, host, current, fuel);
      SessionStep(service, host, current, prompts, i, tasks, fuel, outcome);
      tasks := tasks + [prompt];
      current := outcome.files;
      if outcome.Rejected? {
        end := TaskThrew;
        break;
      } else if outcome.Running? {
        end := TaskRunning;
        break;
      }
      i := i + 1;
    }
    r := SessionResult(end, tasks, current);
    assert |r.tasks| <= |prompts| && r.tasks == prompts[..|r.tasks|]
      && (r.end == Quit ==> |r.tasks| < |prompts| && IsQuit(prompts[|r.tasks|])) by {
      SessionTasks(service, host, files, prompts, fuel);
    }
  }
}
