/**
 * The turn loop of `runAgent` (agent.js:136-173): an append-only transcript that is
 * sent to the model service on every turn, extended with the response's output items
 * and, when the response asks for function calls, with one `function_call_output`
 * per call. The model service is a function from the transcript to a response.
 */
module Agent {
  import opened Wrappers
  import opened Tools

  /** One entry of the transcript `input`. */
  datatype Item =
    | UserMessage(content: string)                              // {role: "user", content: prompt}
    | AssistantMessage(text: string)                            // an output item of type "message"
    | FunctionCall(callId: string, name: string, arguments: string)
    | FunctionCallOutput(callId: string, output: Option<string>) // output: JSON.stringify(result)
    | OtherOutput(kind: string)                                 // any other output item type

  /**
   * The items a response can carry in `response.output`: never a user message or a
   * `function_call_output`, and every item of type "function_call" is a `FunctionCall`.
   */
  type ReplyItem = i: Item | !i.UserMessage? && !i.FunctionCallOutput? && !(i.OtherOutput? && i.kind == "function_call")
    witness AssistantMessage("")

  /** A resolved `client.responses.create(...)`: its `output` items and its `output_text`. */
  datatype Response = Response(output: seq<ReplyItem>, outputText: string)

  /** The model service, given the whole transcript; `None` when the request rejects. */
  type ModelService = seq<Item> -> Option<Response>

  /** The tool runner `executeTool(name, args)`, over the file system it starts from. */
  type ToolRunner = (Files, string, Args) -> ToolStep

  /** The tool runner of `agent.js`: the dispatcher of module `Tools` on `host`. */
  function Executor(host: Host): ToolRunner {
    (files: Files, name: string, args: Args) => ExecuteTool(host, files, name, args)
  }

  /** Every item is a `function_call`. */
  predicate AllCalls(items: seq<Item>) {
    forall i :: 0 <= i < |items| ==> items[i].FunctionCall?
  }

  /** `response.output.filter((o) => o.type === "function_call")`. */
  function FunctionCalls(items: seq<Item>): (calls: seq<Item>)
    ensures AllCalls(calls)
    ensures forall i :: 0 <= i < |calls| ==> calls[i] in items
    ensures calls == [] <==> forall i :: 0 <= i < |items| ==> !items[i].FunctionCall?
  {
    if items == [] then []
    else
      var rest := FunctionCalls(items[1..]);
      assert forall i :: 0 <= i < |rest| ==> rest[i] in items by {
        forall i | 0 <= i < |rest| ensures rest[i] in items {
          assert rest[i] in items[1..];
        }
      }
      (if items[0].FunctionCall? then [items[0]] else []) + rest
  }

  /** The filter drops no call: every `function_call` of the output is among the calls it keeps. */
  lemma {:induction false} FunctionCallsKeepsAll(items: seq<Item>)
    ensures forall i :: 0 <= i < |items| && items[i].FunctionCall? ==> items[i] in FunctionCalls(items)
    decreases |items|
  {
    if items != [] {
      FunctionCallsKeepsAll(items[1..]);
      forall i | 1 <= i < |items| && items[i].FunctionCall? ensures items[i] in FunctionCalls(items) {
        assert items[i] == items[1..][i - 1];
      }
    }
  }

  /** The filter distributes over concatenation, so it keeps the calls in their order. */
  lemma {:induction false} FunctionCallsAppend(a: seq<Item>, b: seq<Item>)
    ensures FunctionCalls(a + b) == FunctionCalls(a) + FunctionCalls(b)
    decreases |a|
  {
    if a == [] {
      assert a + b == b;
    } else {
      var head: seq<Item> := if a[0].FunctionCall? then [a[0]] else [];
      assert (a + b)[0] == a[0] && (a + b)[1..] == a[1..] + b;
      calc {
        FunctionCalls(a + b);
        head + FunctionCalls(a[1..] + b);
        { FunctionCallsAppend(a[1..], b); }
        head + (FunctionCalls(a[1..]) + FunctionCalls(b));
        (head + FunctionCalls(a[1..])) + FunctionCalls(b);
        FunctionCalls(a) + FunctionCalls(b);
      }
    }
  }

  /** `JSON.stringify(result)`: `undefined` stays `undefined`. */
  function EncodeResult(host: Host, result: Option<string>): Option<string> {
    match result
    case None => None
    case Some(text) => Some(host.stringify(text))
  }

  /** The end of one iteration of the `for (let call of toolCalls)` loop. */
  datatype CallStep = CallOk(output: Item, files: Files) | CallThrew(files: Files)

  /** One call: `JSON.parse(call.arguments)`, `executeTool`, then the `function_call_output` item. */
  function RunCall(host: Host, execute: ToolRunner, files: Files, call: Item): CallStep
    requires call.FunctionCall?
  {
    match host.parseArgs(call.arguments)
    case None => CallThrew(files)
    case Some(args) =>
      var step := execute(files, call.name, args);
      match step.outcome
      case Threw => CallThrew(step.files)
      case Returned(result) => CallOk(FunctionCallOutput(call.callId, EncodeResult(host, result)), step.files)
  }

  /** `toolResults` after the whole `for` loop, or the file system when a call threw. */
  datatype CallsResult = CallsOk(outputs: seq<Item>, files: Files) | CallsThrew(files: Files)

  /** Puts `outputs` in front of a later part of the loop. */
  function Prepend(outputs: seq<Item>, r: CallsResult): CallsResult {
    match r
    case CallsThrew(_) => r
    case CallsOk(rest, f) => CallsOk(outputs + rest, f)
  }

  /** The calls run in order, each seeing the file system its predecessors left; the first throw ends the loop. */
  function RunCalls(host: Host, execute: ToolRunner, files: Files, calls: seq<Item>): CallsResult
    requires AllCalls(calls)
    decreases |calls|
  {
    if calls == [] then CallsOk([], files)
    else
      match RunCall(host, execute, files, calls[0])
      case CallThrew(f) => CallsThrew(f)
      case CallOk(output, f) => Prepend([output], RunCalls(host, execute, f, calls[1..]))
  }

  /** The loop from call `i` on: call `i` runs first, then the rest from the file system it leaves. */
  lemma RunCallsFrom(host: Host, execute: ToolRunner, files: Files, calls: seq<Item>, i: nat)
    requires AllCalls(calls) && i < |calls|
    ensures AllCalls(calls[i..]) && AllCalls(calls[i + 1..])
    ensures RunCalls(host, execute, files, calls[i..])
      == match RunCall(host, execute, files, calls[i])
         case CallThrew(f) => CallsThrew(f)
         case CallOk(output, f) => Prepend([output], RunCalls(host, execute, f, calls[i + 1..]))
  {
  }

  lemma PrependPrepend(a: seq<Item>, b: seq<Item>, r: CallsResult)
    ensures Prepend(a, Prepend(b, r)) == Prepend(a + b, r)
  {
  }

  /** One `function_call_output` per call, the i-th carrying the `call_id` of the i-th call. */
  predicate Paired(calls: seq<Item>, outputs: seq<Item>)
    requires AllCalls(calls)
  {
    |outputs| == |calls|
    && forall i :: 0 <= i < |calls| ==> outputs[i].FunctionCallOutput? && outputs[i].callId == calls[i].callId
  }

  lemma {:induction false} RunCallsPaired(host: Host, execute: ToolRunner, files: Files, calls: seq<Item>)
    requires AllCalls(calls)
    ensures RunCalls(host, execute, files, calls).CallsOk? ==> Paired(calls, RunCalls(host, execute, files, calls).outputs)
    decreases |calls|
  {
    if calls != [] {
      match RunCall(host, execute, files, calls[0])
      case CallThrew(_) =>
      case CallOk(output, f) =>
        RunCallsPaired(host, execute, f, calls[1..]);
    }
  }

  /** How one turn ends: no calls (the loop breaks), calls answered (the loop goes on), or a throw. */
  datatype TurnEnd = Done | Again | Raised

  datatype TurnResult = TurnResult(end: TurnEnd, transcript: seq<Item>, files: Files)

  /** One iteration of the `while (true)` loop of `runAgent`. */
  function Step(service: ModelService, host: Host, execute: ToolRunner, files: Files, input: seq<Item>): TurnResult {
    match service(input)
    case None => TurnResult(Raised, input, files)
    case Some(response) =>
      var transcript := input + response.output;
      var calls := FunctionCalls(response.output);
      if |calls| == 0 then TurnResult(Done, transcript, files)
      else
        match RunCalls(host, execute, files, calls)
        case CallsThrew(f) => TurnResult(Raised, transcript, f)
        case CallsOk(outputs, f) => TurnResult(Again, transcript + outputs, f)
  }

  /**
   * What one turn does to the transcript: the response's output items are appended in
   * order after the existing transcript; with no calls nothing else is appended and no
   * tool runs; with calls, the items after the output are paired one to one with them.
   */
  lemma StepShape(service: ModelService, host: Host, execute: ToolRunner, files: Files, input: seq<Item>)
    ensures var t := Step(service, host, execute, files, input);
      match service(input)
      case None => t == TurnResult(Raised, input, files)
      case Some(response) =>
        var out := response.output;
        |input| + |out| <= |t.transcript|
        && t.transcript[..|input| + |out|] == input + out
        && (t.end == Done <==> FunctionCalls(out) == [])
        && (t.end == Done ==> t.transcript == input + out && t.files == files)
        && (t.end == Raised ==> t.transcript == input + out)
        && (t.end == Again ==> Paired(FunctionCalls(out), t.transcript[|input| + |out|..]))
  {
    match service(input)
    case None =>
    case Some(response) =>
      var out := response.output;
      var calls := FunctionCalls(out);
      if |calls| > 0 {
        RunCallsPaired(host, execute, files, calls);
        match RunCalls(host, execute, files, calls)
        case CallsThrew(_) =>
        case CallsOk(outputs, _) =>
          assert (input + out + outputs)[|input| + |out|..] == outputs;
      }
  }

  /** The `call_id`s of the `function_call` items, in order. */
  function CallIds(items: seq<Item>): seq<string> {
    if items == [] then []
    else (if items[0].FunctionCall? then [items[0].callId] else []) + CallIds(items[1..])
  }

  /** The `call_id`s of the `function_call_output` items, in order. */
  function OutputIds(items: seq<Item>): seq<string> {
    if items == [] then []
    else (if items[0].FunctionCallOutput? then [items[0].callId] else []) + OutputIds(items[1..])
  }

  /** Every call in the transcript has been answered, in the order of the calls. */
  predicate Balanced(transcript: seq<Item>) {
    CallIds(transcript) == OutputIds(transcript)
  }

  lemma {:induction false} IdsAppend(a: seq<Item>, b: seq<Item>)
    ensures CallIds(a + b) == CallIds(a) + CallIds(b)
    ensures OutputIds(a + b) == OutputIds(a) + OutputIds(b)
    decreases |a|
  {
    if a != [] {
      assert (a + b)[1..] == a[1..] + b;
      IdsAppend(a[1..], b);
    } else {
      assert a + b == b;
    }
  }

  lemma {:induction false} CallIdsOfCalls(items: seq<Item>)
    ensures CallIds(FunctionCalls(items)) == CallIds(items)
    decreases |items|
  {
    if items != [] {
      var head: seq<Item> := if items[0].FunctionCall? then [items[0]] else [];
      IdsAppend(head, FunctionCalls(items[1..]));
      CallIdsOfCalls(items[1..]);
    }
  }

  lemma {:induction false} NoOutputsInReply(out: seq<ReplyItem>)
    ensures OutputIds(out) == []
    decreases |out|
  {
    if out != [] {
      NoOutputsInReply(out[1..]);
    }
  }

  lemma {:induction false} PairedIds(calls: seq<Item>, outputs: seq<Item>)
    requires AllCalls(calls) && Paired(calls, outputs)
    ensures OutputIds(outputs) == CallIds(calls)
    ensures CallIds(outputs) == []
    decreases |calls|
  {
    if calls != [] {
      PairedIds(calls[1..], outputs[1..]);
    }
  }

  /** Appending a reply adds the ids of its calls and no output id. */
  lemma ReplyAppended(input: seq<Item>, out: seq<ReplyItem>)
    ensures CallIds(input + out) == CallIds(input) + CallIds(FunctionCalls(out))
    ensures OutputIds(input + out) == OutputIds(input)
  {
    IdsAppend(input, out);
    NoOutputsInReply(out);
    CallIdsOfCalls(out);
    assert OutputIds(input) + [] == OutputIds(input);
  }

  /** Appending the answers to `calls` adds their ids as output ids and no call id. */
  lemma AnswersAppended(transcript: seq<Item>, calls: seq<Item>, outputs: seq<Item>)
    requires AllCalls(calls) && Paired(calls, outputs)
    ensures CallIds(transcript + outputs) == CallIds(transcript)
    ensures OutputIds(transcript + outputs) == OutputIds(transcript) + CallIds(calls)
  {
    IdsAppend(transcript, outputs);
    PairedIds(calls, outputs);
    assert CallIds(transcript) + [] == CallIds(transcript);
  }

  /** A turn that does not throw keeps every call answered. */
  lemma StepBalanced(service: ModelService, host: Host, execute: ToolRunner, files: Files, input: seq<Item>)
    requires Balanced(input)
    ensures var t := Step(service, host, execute, files, input); t.end != Raised ==> Balanced(t.transcript)
  {
    match service(input)
    case None =>
    case Some(response) =>
      var out := response.output;
      var calls := FunctionCalls(out);
      ReplyAppended(input, out);
      if |calls| == 0 {
        assert CallIds(calls) == [];
        assert CallIds(input) + [] == CallIds(input);
      } else {
        RunCallsPaired(host, execute, files, calls);
        match RunCalls(host, execute, files, calls)
        case CallsThrew(_) =>
        case CallsOk(outputs, _) =>
          AnswersAppended(input + out, calls, outputs);
      }
  }

  /** How `runAgent` ends: it returns, it rejects, or (the fuel spent) it is still looping. */
  datatype RunOutcome =
    | Finished(transcript: seq<Item>, files: Files)
    | Rejected(transcript: seq<Item>, files: Files)
    | Running(transcript: seq<Item>, files: Files)

  /** The `while (true)` loop, observed for at most `fuel` model requests. */
  function AgentRun(service: ModelService, host: Host, execute: ToolRunner, files: Files, input: seq<Item>, fuel: nat): RunOutcome
    decreases fuel
  {
    if fuel == 0 then Running(input, files)
    else
      var t := Step(service, host, execute, files, input);
      match t.end
      case Done => Finished(t.transcript, t.files)
      case Raised => Rejected(t.transcript, t.files)
      case Again => AgentRun(service, host, execute, t.files, t.transcript, fuel - 1)
  }

  /** A turn only appends to the transcript. */
  lemma StepKeepsPrefix(service: ModelService, host: Host, execute: ToolRunner, files: Files, input: seq<Item>)
    ensures var t := Step(service, host, execute, files, input);
      |input| <= |t.transcript| && t.transcript[..|input|] == input
  {
    match service(input)
    case None =>
    case Some(response) =>
      var calls := FunctionCalls(response.output);
      if |calls| > 0 {
        match RunCalls(host, execute, files, calls)
        case CallsThrew(_) =>
        case CallsOk(outputs, _) =>
          assert (input + response.output + outputs)[..|input|] == input;
      }
  }

  /** Nothing already in the transcript is ever removed or altered. */
  lemma {:induction false} AgentRunKeepsPrefix(service: ModelService, host: Host, execute: ToolRunner, files: Files, input: seq<Item>, fuel: nat)
    ensures var r := AgentRun(service, host, execute, files, input, fuel);
      |input| <= |r.transcript| && r.transcript[..|input|] == input
    decreases fuel
  {
    if fuel > 0 {
      var t := Step(service, host, execute, files, input);
      StepKeepsPrefix(service, host, execute, files, input);
      if t.end == Again {
        AgentRunKeepsPrefix(service, host, execute, t.files, t.transcript, fuel - 1);
        var r := AgentRun(service, host, execute, t.files, t.transcript, fuel - 1);
        assert r.transcript[..|input|] == r.transcript[..|t.transcript|][..|input|];
      }
    }
  }

  /** Unless the run rejects, every call in the final transcript has been answered in order. */
  lemma {:induction false} AgentRunBalanced(service: ModelService, host: Host, execute: ToolRunner, files: Files, input: seq<Item>, fuel: nat)
    requires Balanced(input)
    ensures var r := AgentRun(service, host, execute, files, input, fuel); !r.Rejected? ==> Balanced(r.transcript)
    decreases fuel
  {
    if fuel > 0 {
      var t := Step(service, host, execute, files, input);
      StepBalanced(service, host, execute, files, input);
      if t.end == Again {
        AgentRunBalanced(service, host, execute, t.files, t.transcript, fuel - 1);
      }
    }
  }

  /**
   * More fuel never changes a run that has ended: the fuel bounds only how long the
   * loop is watched, not what it does.
   */
  lemma {:induction false} AgentRunFuel(service: ModelService, host: Host, execute: ToolRunner, files: Files, input: seq<Item>, fuel: nat, more: nat)
    requires fuel <= more
    requires !AgentRun(service, host, execute, files, input, fuel).Running?
    ensures AgentRun(service, host, execute, files, input, more) == AgentRun(service, host, execute, files, input, fuel)
    decreases fuel
  {
    var t := Step(service, host, execute, files, input);
    assert fuel > 0;
    if t.end == Again {
      assert AgentRun(service, host, execute, files, input, fuel)
          == AgentRun(service, host, execute, t.files, t.transcript, fuel - 1);
      assert AgentRun(service, host, execute, files, input, more)
          == AgentRun(service, host, execute, t.files, t.transcript, more - 1);
      AgentRunFuel(service, host, execute, t.files, t.transcript, fuel - 1, more - 1);
    }
  }

  /**
   * There is no iteration cap: while every response asks for calls that all succeed,
   * the loop keeps sending requests, however long it is watched.
   */
  lemma {:induction false} NoIterationCap(service: ModelService, host: Host, execute: ToolRunner, files: Files, input: seq<Item>, fuel: nat)
    requires forall f, t :: Step(service, host, execute, f, t).end == Again
    ensures AgentRun(service, host, execute, files, input, fuel).Running?
    decreases fuel
  {
    if fuel > 0 {
      var t := Step(service, host, execute, files, input);
      NoIterationCap(service, host, execute, t.files, t.transcript, fuel - 1);
    }
  }

  /** The `for (let call of toolCalls)` loop: parse, run, and collect one output per call, in order. */
  method RunToolCalls(host: Host, execute: ToolRunner, files: Files, toolCalls: seq<Item>) returns (r: CallsResult)
    requires AllCalls(toolCalls)
    ensures r == RunCalls(host, execute, files, toolCalls)
  {
    var toolResults: seq<Item> := [];
    var current := files;
    for i := 0 to |toolCalls|
      invariant AllCalls(toolCalls[i..])
      invariant RunCalls(host, execute, files, toolCalls) == Prepend(toolResults, RunCalls(host, execute, current, toolCalls[i..]))
    {
      var call := toolCalls[i];
      RunCallsFrom(host, execute, current, toolCalls, i);
      var parsed := host.parseArgs(call.arguments);
      if parsed.None? {
        return CallsThrew(current);
      }
      var step := execute(current, call.name, parsed.value);
      if step.outcome.Threw? {
        return CallsThrew(step.files);
      }
      var output := FunctionCallOutput(call.callId, EncodeResult(host, step.outcome.value));
      PrependPrepend(toolResults, [output], RunCalls(host, execute, step.files, toolCalls[i + 1..]));
      toolResults := toolResults + [output];
      current := step.files;
    }
    assert toolResults + [] == toolResults;
    r := CallsOk(toolResults, current);
  }

  /** The activation of `runAgent`: its transcript `input`, built from the prompt. */
  class Agent {
    const prompt: string
    var input: seq<Item>

    /** The transcript begins with the user message built from the prompt. */
    ghost predicate Valid()
      reads this
    {
      |input| >= 1 && input[0] == UserMessage(prompt)
    }

    constructor (prompt: string)
      ensures this.prompt == prompt && input == [UserMessage(prompt)]
      ensures Valid()
    {
      this.prompt := prompt;
      input := [UserMessage(prompt)];
    }

    /** One iteration of the loop: request, `input.push(...response.output)`, run the calls, `input.push(...toolResults)`. */
    method Turn(service: ModelService, host: Host, execute: ToolRunner, files: Files) returns (end: TurnEnd, files': Files)
      requires Valid()
      modifies this
      ensures Valid()
      ensures Step(service, host, execute, files, old(input)) == TurnResult(end, input, files')
    {
      var reply := service(input);
      if reply.None? {
        return Raised, files;
      }
      var response := reply.value;
      input := input + response.output;
      var toolCalls := FunctionCalls(response.output);
      if |toolCalls| == 0 {
        return Done, files;
      }
      var results := RunToolCalls(host, execute, files, toolCalls);
      match results
      case CallsThrew(f) =>
        return Raised, f;
      case CallsOk(toolResults, f) =>
        input := input + toolResults;
        return Again, f;
    }

    /** The `while (true)` loop, run for at most `fuel` model requests. */
    method Run(service: ModelService, host: Host, execute: ToolRunner, files: Files, fuel: nat) returns (outcome: RunOutcome)
      requires Valid()
      modifies this
      ensures Valid()
      ensures outcome == AgentRun(service, host, execute, files, old(input), fuel)
      ensures input == outcome.transcript
    {
      var current := files;
      var left := fuel;
      while left > 0
        invariant Valid()
        invariant AgentRun(service, host, execute, files, old(input), fuel) == AgentRun(service, host, execute, current, input, left)
        decreases left
      {
        var end, next := Turn(service, host, execute, current);
        current := next;
        if end == Done {
          return Finished(input, current);
        }
        if end == Raised {
          return Rejected(input, current);
        }
        left := left - 1;
      }
      outcome := Running(input, current);
    }
  }

  /**
   * `runAgent(prompt)`: the transcript starts as the one user message and, however the
   * run ends, still begins with it; unless the run rejects, every call is answered.
   */
  method RunAgent(prompt: string, service: ModelService, host: Host, files: Files, fuel: nat) returns (outcome: RunOutcome)
    ensures outcome == AgentRun(service, host, Executor(host), files, [UserMessage(prompt)], fuel)
    ensures |outcome.transcript| >= 1 && outcome.transcript[0] == UserMessage(prompt)
    ensures !outcome.Rejected? ==> Balanced(outcome.transcript)
  {
    var agent := new Agent(prompt);
    outcome := agent.Run(service, host, Executor(host), files, fuel);
    assert Balanced([UserMessage(prompt)]);
    AgentRunBalanced(service, host, Executor(host), files, [UserMessage(prompt)], fuel);
  }
}
