/** The orchestrator's tool-use loop, for any model and any tool outcomes. */
module Engine {
  import opened Wrappers
  import opened Strings
  import opened Trace

  /* `Loop` says what a run does; `Run` is the code's loop, writing to a trace, and is
     proved to do exactly that.  The main results are about every run: its step log parses as
     (model_call (tool_call error? tool_result)*)* error? with matching ids, every tool-use
     message is answered by one message with the same ids in order, the recorded requests
     replay the transcript, the status is characterised exactly, and recorded cost bounds. */

  datatype Reply = Reply(content: seq<Block>, stopReason: string, inputTokens: nat, outputTokens: nat, model: string)

  /** What a model call may come to (a connector error is caught by the loop). */
  datatype ModelOutcome = Answered(reply: Reply) | ModelFailed(errorClass: string, message: string)

  /** What a tool dispatch may come to. */
  datatype ToolOutcome =
    | UnknownTool(message: string)
    | InvalidInput(message: string)
    | ToolFailed(message: string)                                // ToolError
    | ConnectorFailed(errorClass: string, message: string)       // ConnectorError
    | Crashed(errorClass: string, message: string)               // any other exception
    | NotJson(errorClass: string, message: string)               // result cannot be serialised
    | Returned(json: string)

  /** One run: the cap, the budget, and oracles for the model (per iteration) and the tools
      (per iteration and position among its tool uses). */
  datatype Config = Config(maxIterations: nat, budgetCents: Option<int>,
                           models: nat -> ModelOutcome, tools: (nat, nat) -> ToolOutcome)

  const COMPLETED := "completed"
  const MAX_ITERATIONS := "max_iterations"
  const BUDGET_EXHAUSTED := "budget_exhausted"
  const FAILED := "failed"

  // ----- cost

  /** Cents per million input and output tokens; unknown models cost what Sonnet does. */
  function Pricing(model: string): (int, int) {
    if model == "claude-opus-4-7" then (1500, 7500)
    else if model == "claude-haiku-4-5-20251001" then (80, 400)
    else (300, 1500)
  }

  /** The exact charge, in millionths of a cent. */
  function MicroCents(r: Reply): nat {
    r.inputTokens * Pricing(r.model).0 + r.outputTokens * Pricing(r.model).1
  }

  /** Ceiling division: a call is never undercharged, and never by a cent too much. */
  function CostCents(r: Reply): (cents: nat)
    ensures 0 <= 1_000_000 * cents - MicroCents(r) <= 999_999
  {
    (MicroCents(r) + 999_999) / 1_000_000
  }

  /** The price list, in dollars per million tokens: 15 in and 75 out for Opus, 0.80 in and 4 out
      for Haiku, 3 in and 15 out for every other model. */
  lemma WholeMillionsCost(r: Reply, m: nat, n: nat)
    requires r.inputTokens == 1_000_000 * m && r.outputTokens == 1_000_000 * n
    ensures r.model == "claude-opus-4-7" ==> CostCents(r) == 100 * (15 * m + 75 * n)
    ensures r.model == "claude-haiku-4-5-20251001" ==> CostCents(r) == 80 * m + 400 * n
    ensures r.model !in {"claude-opus-4-7", "claude-haiku-4-5-20251001"} ==> CostCents(r) == 100 * (3 * m + 15 * n)
  {
    var (i, o) := Pricing(r.model);
    assert MicroCents(r) == 1_000_000 * (m * i + n * o) by {
      assert 1_000_000 * m * i == 1_000_000 * (m * i) && 1_000_000 * n * o == 1_000_000 * (n * o);
    }
  }

  // ----- dispatching one tool use

  type Use = b: Block | b.ToolUse? witness ToolUse("", "", "")

  function UsesOf(content: seq<Block>): seq<Use> {
    if content == [] then []
    else if content[0].ToolUse? then [content[0]] + UsesOf(content[1..])
    else UsesOf(content[1..])
  }

  function Free(content: Content): Entry {
    Entry(content, None, None, 0)
  }

  /** The steps that one dispatch writes. */
  function DispatchLog(use: Use, outcome: ToolOutcome): seq<Entry>
  {
    var call := Free(ToolCall(use.name, use.id, use.input));
    match outcome
    case UnknownTool(m) => [call, Failure(use, m, "UnknownTool")]
    case InvalidInput(m) => [call, Failure(use, m, "ValidationError")]
    case ToolFailed(m) => [call, Failure(use, m, "ToolError")]
    case ConnectorFailed(c, m) => [call, Failure(use, m, c)]
    case Crashed(c, m) =>
      [call, Free(ErrorStep(m, Some(c))), Failure(use, "internal error in tool handler", "InternalError")]
    case NotJson(c, m) =>
      [call, Free(ErrorStep(m, Some(c))),
       Failure(use, "tool returned non-JSON-serialisable data", "SerialisationError")]
    case Returned(json) => [call, Free(ToolResult(use.name, use.id, json, false, None))]
  }

  function Failure(use: Use, message: string, errorClass: string): Entry {
    Free(ToolResult(use.name, use.id, message, true, Some(errorClass)))
  }

  /** The tool_result block that goes back to the model: the recorded result. */
  function DispatchBlock(use: Use, outcome: ToolOutcome): ResultBlock {
    var log := DispatchLog(use, outcome);
    var last := log[|log| - 1].content;
    ResultBlock(use.id, last.result, last.isError)
  }

  function DispatchAll(uses: seq<Use>, tools: nat -> ToolOutcome, k: nat): (seq<Entry>, seq<ResultBlock>)
    decreases uses
  {
    if uses == [] then ([], [])
    else
      var (log, blocks) := DispatchAll(uses[1..], tools, k + 1);
      (DispatchLog(uses[0], tools(k)) + log, [DispatchBlock(uses[0], tools(k))] + blocks)
  }

  // ----- the loop as a function

  datatype End = End(log: seq<Entry>, messages: seq<Message>, status: string, reason: Option<string>,
                     finalText: string, iterations: nat)

  predicate WantsTools(r: Reply) {
    UsesOf(r.content) != [] && r.stopReason == "tool_use"
  }

  function FinalText(content: seq<Block>): string {
    if content == [] then ""
    else (if content[0].TextBlock? then content[0].text else "") + FinalText(content[1..])
  }

  function CallEntry(messages: seq<Message>, r: Reply): Entry {
    Entry(ModelCall(messages, r.content, r.stopReason), Some(r.inputTokens), Some(r.outputTokens), CostCents(r))
  }

  function RoundTools(cfg: Config, i: nat): nat -> ToolOutcome {
    (k: nat) => cfg.tools(i, k)
  }

  function CostAt(cfg: Config, i: nat): nat {
    match cfg.models(i) case Answered(r) => CostCents(r) case ModelFailed(_, _) => 0
  }

  predicate OverBudget(cfg: Config, cost: int) {
    cfg.budgetCents.Some? && cost >= cfg.budgetCents.value
  }

  /** Iteration `i` is a tool round. */
  predicate ToolRound(cfg: Config, i: nat) {
    cfg.models(i).Answered? && WantsTools(cfg.models(i).reply)
  }

  /** The steps of a tool round. */
  function RoundLog(cfg: Config, i: nat, messages: seq<Message>): seq<Entry>
    requires ToolRound(cfg, i)
  {
    var r := cfg.models(i).reply;
    [CallEntry(messages, r)] + DispatchAll(UsesOf(r.content), RoundTools(cfg, i), 0).0
  }

  /** The messages after a tool round. */
  function RoundMessages(cfg: Config, i: nat, messages: seq<Message>): seq<Message>
    requires ToolRound(cfg, i)
  {
    var r := cfg.models(i).reply;
    messages + [Assistant(r.content), ToolResults(DispatchAll(UsesOf(r.content), RoundTools(cfg, i), 0).1)]
  }

  /** A run that ends in iteration `i`. */
  function Stop(cfg: Config, i: nat, messages: seq<Message>): End {
    match cfg.models(i)
    case ModelFailed(c, m) => End([Free(ErrorStep(m, Some(c)))], messages, FAILED, Some(c), "", i + 1)
    case Answered(r) =>
      if WantsTools(r) then
        End(RoundLog(cfg, i, messages), RoundMessages(cfg, i, messages), BUDGET_EXHAUSTED,
            Some("budget_exhausted"), "", i + 1)
      else
        End([CallEntry(messages, r)], messages, COMPLETED, Some(r.stopReason), FinalText(r.content), i + 1)
  }

  /** Iteration `i` is a tool round that leaves room in the budget. */
  predicate GoesOn(cfg: Config, i: nat, cost: int) {
    ToolRound(cfg, i) && !OverBudget(cfg, cost + CostAt(cfg, i))
  }

  /** Everything from iteration `i` on, with `cost` cents spent so far. */
  function Loop(cfg: Config, i: nat, messages: seq<Message>, cost: int): End
    requires i <= cfg.maxIterations
    decreases cfg.maxIterations - i
  {
    if i == cfg.maxIterations then End([], messages, MAX_ITERATIONS, Some("max_iterations"), "", i)
    else if GoesOn(cfg, i, cost) then
      Then(RoundLog(cfg, i, messages), Loop(cfg, i + 1, RoundMessages(cfg, i, messages), cost + CostAt(cfg, i)))
    else Stop(cfg, i, messages)
  }

  /** A run whose log starts with what has been written so far. */
  function Then(log: seq<Entry>, rest: End): End {
    rest.(log := log + rest.log)
  }

  lemma RoundUnfolds(cfg: Config, i: nat, messages: seq<Message>)
    requires ToolRound(cfg, i)
    ensures var r := cfg.models(i).reply;
            var all := DispatchAll(UsesOf(r.content), RoundTools(cfg, i), 0);
            RoundLog(cfg, i, messages) == [CallEntry(messages, r)] + all.0 &&
            RoundMessages(cfg, i, messages) == messages + [Assistant(r.content)] + [ToolResults(all.1)]
  {
  }

  // ----- the code

  method DispatchTool(writer: AgentTraceWriter, use: Use, outcome: ToolOutcome) returns (block: ResultBlock)
    requires writer.Consistent() && writer.trace.Some?
    modifies writer
    ensures writer.Consistent() && writer.trace.Some?
    ensures writer.trace.value.status == old(writer.trace).value.status
    ensures writer.Log() == old(writer.Log()) + DispatchLog(use, outcome)
    ensures block == DispatchBlock(use, outcome)
  {
    hide InputTotal, OutputTotal, CostTotal, EntriesOf;
    var _ := writer.InsertStep(Free(ToolCall(use.name, use.id, use.input)));
    match outcome {
      case UnknownTool(m) => block := RecordAndReturnError(writer, use, "UnknownTool", m);
      case InvalidInput(m) => block := RecordAndReturnError(writer, use, "ValidationError", m);
      case ToolFailed(m) => block := RecordAndReturnError(writer, use, "ToolError", m);
      case ConnectorFailed(c, m) => block := RecordAndReturnError(writer, use, c, m);
      case Crashed(c, m) =>
        var _ := writer.InsertStep(Free(ErrorStep(m, Some(c))));
        block := RecordAndReturnError(writer, use, "InternalError", "internal error in tool handler");
      case NotJson(c, m) =>
        var _ := writer.InsertStep(Free(ErrorStep(m, Some(c))));
        block := RecordAndReturnError(writer, use, "SerialisationError", "tool returned non-JSON-serialisable data");
      case Returned(json) =>
        var _ := writer.InsertStep(Free(ToolResult(use.name, use.id, json, false, None)));
        block := ResultBlock(use.id, json, false);
    }
  }

  method RecordAndReturnError(writer: AgentTraceWriter, use: Use, errorClass: string, message: string)
      returns (block: ResultBlock)
    requires writer.Consistent() && writer.trace.Some?
    modifies writer
    ensures writer.Consistent() && writer.trace.Some?
    ensures writer.trace.value.status == old(writer.trace).value.status
    ensures writer.Log() == old(writer.Log()) + [Failure(use, message, errorClass)]
    ensures block == ResultBlock(use.id, message, true)
  {
    var _ := writer.InsertStep(Failure(use, message, errorClass));
    block := ResultBlock(use.id, message, true);
  }

  method DispatchUses(writer: AgentTraceWriter, uses: seq<Use>, tools: nat -> ToolOutcome)
      returns (blocks: seq<ResultBlock>)
    requires writer.Consistent() && writer.trace.Some?
    modifies writer
    ensures writer.Consistent() && writer.trace.Some?
    ensures writer.trace.value.status == old(writer.trace).value.status
    ensures writer.Log() == old(writer.Log()) + DispatchAll(uses, tools, 0).0
    ensures blocks == DispatchAll(uses, tools, 0).1
  {
    hide DispatchLog, DispatchBlock, InputTotal, OutputTotal, CostTotal;
    blocks := [];
    ghost var before := writer.Log();
    for k := 0 to |uses|
      invariant writer.Consistent() && writer.trace.Some?
      invariant writer.trace.value.status == old(writer.trace).value.status
      invariant writer.Log() + DispatchAll(uses[k..], tools, k).0 == before + DispatchAll(uses, tools, 0).0
      invariant blocks + DispatchAll(uses[k..], tools, k).1 == DispatchAll(uses, tools, 0).1
    {
      ghost var rest := DispatchAll(uses[k + 1..], tools, k + 1);
      assert uses[k..][1..] == uses[k + 1..] && uses[k..][0] == uses[k];
      Associative(writer.Log(), DispatchLog(uses[k], tools(k)), rest.0);
      Associative(blocks, [DispatchBlock(uses[k], tools(k))], rest.1);
      var block := DispatchTool(writer, uses[k], tools(k));
      blocks := blocks + [block];
    }
  }

  datatype RunResult = RunResult(status: string, completionReason: Option<string>, finalText: string, iterations: nat,
                                 totalInputTokens: int, totalOutputTokens: int, totalCostCents: int)

  /** `OrchestratorEngine.run` on a started trace; also returns the transcript. */
  method Run(cfg: Config, initial: seq<Message>, writer: AgentTraceWriter)
      returns (result: RunResult, messages: seq<Message>)
    requires cfg.maxIterations >= 1
    requires writer.Consistent() && writer.trace.Some? && writer.trace.value.status == RUNNING && writer.Log() == []
    modifies writer
    ensures var end := Loop(cfg, 0, initial, 0);
            writer.Consistent() && writer.Log() == end.log && messages == end.messages &&
            writer.trace.Some? && writer.trace.value.status == end.status &&
            writer.trace.value.completionReason == end.reason &&
            result == RunResult(end.status, end.reason, end.finalText, end.iterations,
                                InputTotal(end.log), OutputTotal(end.log), CostTotal(end.log))
  {
    hide DispatchLog, DispatchBlock, DispatchAll, FinalText, UsesOf, InputTotal, OutputTotal, CostTotal;
    hide RoundLog, RoundMessages, CallEntry, CostCents;
    messages := initial;
    var status, reason, finalText, iterations, cost := COMPLETED, None, "", 0, 0;
    var i := 0;
    ghost var end := Loop(cfg, 0, initial, 0);
    var stopped := false;
    while i < cfg.maxIterations && !stopped
      invariant i <= cfg.maxIterations && (!stopped ==> iterations == i && finalText == "")
      invariant writer.Consistent() && writer.trace.Some? && writer.trace.value.status == RUNNING
      invariant stopped ==> end == End(writer.Log(), messages, status, reason, finalText, iterations)
      invariant !stopped ==> end == Then(writer.Log(), Loop(cfg, i, messages, cost))
      decreases cfg.maxIterations - i, !stopped
    {
      iterations := i + 1;
      ghost var before := writer.Log();
      match cfg.models(i) {
        case ModelFailed(c, m) =>
          var _ := writer.InsertStep(Free(ErrorStep(m, Some(c))));
          status, reason, stopped := FAILED, Some(c), true;
        case Answered(r) =>
          var _ := writer.InsertStep(CallEntry(messages, r));
          var toolUses := UsesOf(r.content);
          if toolUses == [] || r.stopReason != "tool_use" {
            status, reason, finalText, stopped := COMPLETED, Some(r.stopReason), FinalText(r.content), true;
          } else {
            ghost var asked := messages;
            messages := messages + [Assistant(r.content)];
            var toolResults := DispatchUses(writer, toolUses, RoundTools(cfg, i));
            messages := messages + [ToolResults(toolResults)];
            cost := cost + CostCents(r);
            RoundUnfolds(cfg, i, asked);
            Associative(before, [CallEntry(asked, r)], DispatchAll(toolUses, RoundTools(cfg, i), 0).0);
            assert writer.Log() == before + RoundLog(cfg, i, asked);
            if cfg.budgetCents.Some? && cost >= cfg.budgetCents.value {
              status, reason, stopped := BUDGET_EXHAUSTED, Some("budget_exhausted"), true;
            } else {
              Associative(before, RoundLog(cfg, i, asked), Loop(cfg, i + 1, messages, cost).log);
              i := i + 1;
            }
          }
      }
    }
    if !stopped {
      status, reason := MAX_ITERATIONS, Some("max_iterations");
    }
    var _ := writer.FinishTrace(status, reason);
    var row := writer.trace.value;
    result := RunResult(status, reason, finalText, iterations,
                        row.totalInputTokens, row.totalOutputTokens, row.totalCostCents);
  }

  // ----- the step log parses

  /** Reads (tool_call error? tool_result) for each tool use, in order and with its id and
      name; what is left of the log, or `None` if it does not read that way. */
  function AfterDispatches(log: seq<Entry>, uses: seq<Use>): Option<seq<Entry>>
    decreases uses
  {
    if uses == [] then Some(log)
    else if |log| < 2 then None
    else
      var skip := if log[1].content.ErrorStep? then 2 else 1;
      if skip < |log| && IsCallOf(log[0].content, uses[0]) && IsResultOf(log[skip].content, uses[0])
      then AfterDispatches(log[skip + 1..], uses[1..])
      else None
  }

  predicate IsCallOf(c: Content, use: Use)
  {
    c.ToolCall? && c.toolUseId == use.id && c.name == use.name
  }

  predicate IsResultOf(c: Content, use: Use)
  {
    c.ToolResult? && c.toolUseId == use.id && c.name == use.name
  }

  /** The grammar of a step log, ids included: a response that wants tools is followed by the
      dispatches of exactly its tool uses; one that does not, and an error, end the log. */
  ghost predicate Parses(log: seq<Entry>)
    decreases |log|
  {
    log == [] ||
    (log[0].content.ErrorStep? && |log| == 1) ||
    (log[0].content.ModelCall? &&
       var c := log[0].content;
       if UsesOf(c.response) != [] && c.stopReason == "tool_use" then
         var rest := AfterDispatches(log[1..], UsesOf(c.response));
         rest.Some? && |rest.value| < |log| && Parses(rest.value)
       else |log| == 1)
  }

  lemma OneDispatchReads(use: Use, outcome: ToolOutcome, more: seq<Entry>)
    ensures var log := DispatchLog(use, outcome) + more;
            var skip := if log[1].content.ErrorStep? then 2 else 1;
            skip < |log| && IsCallOf(log[0].content, use) && IsResultOf(log[skip].content, use) &&
            log[skip + 1..] == more
  {
  }

  lemma {:induction false} DispatchesRead(uses: seq<Use>, tools: nat -> ToolOutcome, k: nat, more: seq<Entry>)
    ensures AfterDispatches(DispatchAll(uses, tools, k).0 + more, uses) == Some(more)
    decreases uses
  {
    if uses == [] {
      assert [] + more == more;
    } else {
      var first, rest := DispatchLog(uses[0], tools(k)), DispatchAll(uses[1..], tools, k + 1).0;
      DispatchesRead(uses[1..], tools, k + 1, more);
      OneDispatchReads(uses[0], tools(k), rest + more);
      hide DispatchLog;
      Associative(first, rest, more);
    }
  }

  /** A round's log, then anything that parses, parses. */
  lemma RoundParses(cfg: Config, i: nat, messages: seq<Message>, more: seq<Entry>)
    requires ToolRound(cfg, i) && Parses(more)
    ensures Parses(RoundLog(cfg, i, messages) + more)
  {
    hide Parses;
    var r := cfg.models(i).reply;
    var uses, dispatches := UsesOf(r.content), DispatchAll(UsesOf(r.content), RoundTools(cfg, i), 0).0;
    hide DispatchAll, AfterDispatches, UsesOf, CostCents;
    var log := RoundLog(cfg, i, messages) + more;
    DispatchesRead(uses, RoundTools(cfg, i), 0, more);
    assert log[0] == CallEntry(messages, r) && log[1..] == dispatches + more;
    CallThenDispatchesParse(log, more);
  }

  lemma CallThenDispatchesParse(log: seq<Entry>, more: seq<Entry>)
    requires log != [] && log[0].content.ModelCall? && log[0].content.stopReason == "tool_use"
    requires UsesOf(log[0].content.response) != []
    requires AfterDispatches(log[1..], UsesOf(log[0].content.response)) == Some(more)
    requires |more| < |log| && Parses(more)
    ensures Parses(log)
  {
  }

  /** Every run, whatever the model and the tools do, leaves a log of that form. */
  lemma {:induction false} EveryLogParses(cfg: Config, i: nat, messages: seq<Message>, cost: int)
    requires i <= cfg.maxIterations
    ensures Parses(Loop(cfg, i, messages, cost).log)
    decreases cfg.maxIterations - i
  {
    hide RoundLog, RoundMessages;
    if i == cfg.maxIterations {
    } else if GoesOn(cfg, i, cost) {
      var next := RoundMessages(cfg, i, messages);
      EveryLogParses(cfg, i + 1, next, cost + CostAt(cfg, i));
      hide Parses;
      RoundParses(cfg, i, messages, Loop(cfg, i + 1, next, cost + CostAt(cfg, i)).log);
    } else {
      StopParses(cfg, i, messages);
      hide Stop, Parses;
    }
  }

  lemma StopParses(cfg: Config, i: nat, messages: seq<Message>)
    ensures Parses(Stop(cfg, i, messages).log)
  {
    if ToolRound(cfg, i) {
      RoundParses(cfg, i, messages, []);
      assert RoundLog(cfg, i, messages) + [] == RoundLog(cfg, i, messages);
    }
  }

  // ----- the transcript is well-formed

  function UseIds(uses: seq<Use>): seq<string>
  {
    seq(|uses|, k requires 0 <= k < |uses| => uses[k].id)
  }

  function ResultIds(blocks: seq<ResultBlock>): seq<string> {
    seq(|blocks|, k requires 0 <= k < |blocks| => blocks[k].toolUseId)
  }

  /** Assistant messages with tool uses, each answered by one message whose tool_result ids
      are the tool_use ids, in order. */
  ghost predicate Paired(messages: seq<Message>)
    decreases |messages|
  {
    messages == [] ||
    (|messages| >= 2 && messages[0].Assistant? && messages[1].ToolResults? &&
     UsesOf(messages[0].content) != [] && Answers(messages[1].results, messages[0].content) && Paired(messages[2..]))
  }

  ghost predicate Answers(results: seq<ResultBlock>, content: seq<Block>) {
    ResultIds(results) == UseIds(UsesOf(content))
  }

  lemma {:induction false} DispatchAnswers(uses: seq<Use>, tools: nat -> ToolOutcome, k: nat)
    ensures ResultIds(DispatchAll(uses, tools, k).1) == UseIds(uses)
    decreases uses
  {
    if uses != [] {
      DispatchAnswers(uses[1..], tools, k + 1);
      assert UseIds(uses) == [uses[0].id] + UseIds(uses[1..]);
    }
  }

  lemma {:induction false} PairedAppend(a: seq<Message>, x: Message, y: Message)
    requires Paired(a) && x.Assistant? && y.ToolResults?
    requires UsesOf(x.content) != [] && Answers(y.results, x.content)
    ensures Paired(a + [x, y])
    decreases |a|
  {
    if a == [] {
      assert [] + [x, y] == [x, y] && [x, y][2..] == [];
    } else {
      PairedAppend(a[2..], x, y);
      assert (a + [x, y])[2..] == a[2..] + [x, y];
    }
  }

  lemma RoundPaired(cfg: Config, i: nat, initial: seq<Message>, turns: seq<Message>)
    requires ToolRound(cfg, i) && Paired(turns)
    ensures initial <= RoundMessages(cfg, i, initial + turns)
    ensures Paired(RoundMessages(cfg, i, initial + turns)[|initial|..])
  {
    var r := cfg.models(i).reply;
    var x, y := Assistant(r.content), ToolResults(DispatchAll(UsesOf(r.content), RoundTools(cfg, i), 0).1);
    DispatchAnswers(UsesOf(r.content), RoundTools(cfg, i), 0);
    PairedAppend(turns, x, y);
    hide Paired, DispatchAll;
    var after := RoundMessages(cfg, i, initial + turns);
    assert after == initial + (turns + [x, y]);
    assert after[|initial|..] == turns + [x, y];
  }

  lemma {:induction false} TranscriptPaired(cfg: Config, i: nat, messages: seq<Message>, cost: int,
                                            initial: seq<Message>)
    requires i <= cfg.maxIterations && initial <= messages && Paired(messages[|initial|..])
    ensures var end := Loop(cfg, i, messages, cost);
            initial <= end.messages && Paired(end.messages[|initial|..])
    decreases cfg.maxIterations - i
  {
    hide Paired, RoundMessages, RoundLog;
    if i < cfg.maxIterations && ToolRound(cfg, i) {
      assert messages == initial + messages[|initial|..];
      RoundPaired(cfg, i, initial, messages[|initial|..]);
      if GoesOn(cfg, i, cost) {
        TranscriptPaired(cfg, i + 1, RoundMessages(cfg, i, messages), cost + CostAt(cfg, i), initial);
      }
    }
  }

  // ----- what the model is told

  /** The block says what became of the tool use: its result, or an error with its own message;
      of a crash or of data that is not JSON the model learns nothing but that. */
  predicate Tells(block: ResultBlock, use: Use, outcome: ToolOutcome) {
    block.toolUseId == use.id &&
    match outcome
    case Returned(json) => block.content == json && !block.isError
    case Crashed(_, _) => block.content == "internal error in tool handler" && block.isError
    case NotJson(_, _) => block.content == "tool returned non-JSON-serialisable data" && block.isError
    case _ => block.content == outcome.message && block.isError
  }

  /** The tool_result steps of a log, as blocks. */
  function Recorded(log: seq<Entry>): seq<ResultBlock> {
    if log == [] then []
    else
      var c := log[0].content;
      (if c.ToolResult? then [ResultBlock(c.toolUseId, c.result, c.isError)] else []) + Recorded(log[1..])
  }

  /** The tool_result blocks of a transcript. */
  function Told(messages: seq<Message>): seq<ResultBlock> {
    if messages == [] then []
    else (if messages[0].ToolResults? then messages[0].results else []) + Told(messages[1..])
  }

  /** A dispatch records the call, an error step if a bug showed, and a result with the error's class. */
  ghost predicate Classified(log: seq<Entry>, use: Use, outcome: ToolOutcome) {
    var bug := outcome.Crashed? || outcome.NotJson?;
    |log| == (if bug then 3 else 2) && log[0] == Free(ToolCall(use.name, use.id, use.input)) &&
    (bug ==> log[1] == Free(ErrorStep(outcome.message, Some(outcome.errorClass)))) &&
    var last := log[|log| - 1].content;
    last.ToolResult? && last.name == use.name &&
    match outcome
    case Returned(_) => last.errorClass == None
    case UnknownTool(_) => last.errorClass == Some("UnknownTool")
    case InvalidInput(_) => last.errorClass == Some("ValidationError")
    case ToolFailed(_) => last.errorClass == Some("ToolError")
    case ConnectorFailed(c, _) => last.errorClass == Some(c)
    case Crashed(_, _) => last.errorClass == Some("InternalError")
    case NotJson(_, _) => last.errorClass == Some("SerialisationError")
  }

  /** The model is told what happened, and just that is recorded. */
  lemma DispatchTells(use: Use, outcome: ToolOutcome)
    ensures Tells(DispatchBlock(use, outcome), use, outcome)
    ensures Classified(DispatchLog(use, outcome), use, outcome)
    ensures Recorded(DispatchLog(use, outcome)) == [DispatchBlock(use, outcome)]
    ensures DispatchBlock(use, outcome) == ResultBlock(use.id, DispatchBlock(use, outcome).content, false)
       <==> outcome.Returned?
  {
    var log := DispatchLog(use, outcome);
    if |log| == 3 {
      assert log == [log[0]] + ([log[1]] + [log[2]]);
      RecordedAppend([log[0]], [log[1]] + [log[2]]);
      RecordedAppend([log[1]], [log[2]]);
    } else {
      assert log == [log[0]] + [log[1]];
      RecordedAppend([log[0]], [log[1]]);
    }
  }

  lemma {:induction false} DispatchAllTells(uses: seq<Use>, tools: nat -> ToolOutcome, k: nat)
    ensures var (log, blocks) := DispatchAll(uses, tools, k);
            |blocks| == |uses| && (forall n | 0 <= n < |uses| :: Tells(blocks[n], uses[n], tools(k + n))) &&
            Recorded(log) == blocks
    decreases uses
  {
    hide DispatchLog, DispatchBlock, Tells, Classified;
    if uses == [] {
      NothingIsRecorded();
    } else {
      DispatchAllTells(uses[1..], tools, k + 1);
      DispatchTells(uses[0], tools(k));
      hide Recorded;
      var first := DispatchLog(uses[0], tools(k));
      var (rest, others) := DispatchAll(uses[1..], tools, k + 1);
      RecordedAppend(first, rest);
      var blocks := [DispatchBlock(uses[0], tools(k))] + others;
      assert DispatchAll(uses, tools, k) == (first + rest, blocks);
      forall n | 0 <= n < |uses| ensures Tells(blocks[n], uses[n], tools(k + n)) {
        if n > 0 {
          assert Tells(others[n - 1], uses[1..][n - 1], tools(k + 1 + (n - 1)));
        }
      }
    }
  }

  lemma {:induction false} RecordedAppend(a: seq<Entry>, b: seq<Entry>)
    ensures Recorded(a + b) == Recorded(a) + Recorded(b)
  {
    if a == [] {
      assert a + b == b;
    } else {
      assert (a + b)[0] == a[0] && (a + b)[1..] == a[1..] + b;
      RecordedAppend(a[1..], b);
    }
  }

  lemma {:induction false} ToldAppend(a: seq<Message>, b: seq<Message>)
    ensures Told(a + b) == Told(a) + Told(b)
  {
    if a == [] {
      assert a + b == b;
    } else {
      assert (a + b)[0] == a[0] && (a + b)[1..] == a[1..] + b;
      ToldAppend(a[1..], b);
    }
  }

  /** The two messages of a tool round. */
  ghost predicate RoundTells(cfg: Config, j: nat, asked: Message, answer: Message) {
    ToolRound(cfg, j) && asked == Assistant(cfg.models(j).reply.content) && answer.ToolResults? &&
    var uses := UsesOf(cfg.models(j).reply.content);
    |answer.results| == |uses| && forall k | 0 <= k < |uses| :: Tells(answer.results[k], uses[k], cfg.tools(j, k))
  }

  lemma PairTells(x: Message, y: Message)
    requires x.Assistant? && y.ToolResults?
    ensures Told([x, y]) == y.results
  {
    assert [x, y][1..] == [y] && [y][1..] == [];
    assert Told([y]) == y.results + Told([]) == y.results;
    assert Told([x, y]) == [] + Told([y]);
  }

  lemma CallIsNoResult(messages: seq<Message>, r: Reply)
    ensures Recorded([CallEntry(messages, r)]) == []
  {
    assert [CallEntry(messages, r)][1..] == [];
  }

  lemma OneRoundTells(cfg: Config, i: nat, messages: seq<Message>)
    requires ToolRound(cfg, i)
    ensures var after := RoundMessages(cfg, i, messages);
            |after| == |messages| + 2 && messages <= after &&
            RoundTells(cfg, i, after[|messages|], after[|messages| + 1]) &&
            Told(after) == Told(messages) + Recorded(RoundLog(cfg, i, messages))
  {
    hide DispatchAll, Tells, Told, Recorded;
    var r := cfg.models(i).reply;
    var all := DispatchAll(UsesOf(r.content), RoundTools(cfg, i), 0);
    DispatchAllTells(UsesOf(r.content), RoundTools(cfg, i), 0);
    RoundUnfolds(cfg, i, messages);
    var x, y := Assistant(r.content), ToolResults(all.1);
    ToldAppend(messages, [x, y]);
    assert messages + [x] + [y] == messages + [x, y];
    PairTells(x, y);
    RecordedAppend([CallEntry(messages, r)], all.0);
    CallIsNoResult(messages, r);
  }

  /** On every run: the tool results recorded are, in order, the blocks that the model is sent. */
  lemma {:induction false} RecordedAsTold(cfg: Config, i: nat, messages: seq<Message>, cost: int)
    requires i <= cfg.maxIterations
    ensures var end := Loop(cfg, i, messages, cost); Told(end.messages) == Told(messages) + Recorded(end.log)
    decreases cfg.maxIterations - i
  {
    hide RoundLog, RoundMessages, CostAt, Stop, Recorded, Told, RoundTells, ToolRound, OverBudget;
    if i == cfg.maxIterations {
      assert Recorded([]) == [] by { NothingIsRecorded(); }
    } else if GoesOn(cfg, i, cost) {
      var next := RoundMessages(cfg, i, messages);
      OneRoundTells(cfg, i, messages);
      RecordedAsTold(cfg, i + 1, next, cost + CostAt(cfg, i));
      var rest := Loop(cfg, i + 1, next, cost + CostAt(cfg, i)).log;
      RecordedAppend(RoundLog(cfg, i, messages), rest);
      Associative(Told(messages), Recorded(RoundLog(cfg, i, messages)), Recorded(rest));
    } else {
      StopTells(cfg, i, messages);
    }
  }

  lemma NothingIsRecorded()
    ensures Recorded([]) == []
  {
  }

  lemma StopTells(cfg: Config, i: nat, messages: seq<Message>)
    ensures Told(Stop(cfg, i, messages).messages) == Told(messages) + Recorded(Stop(cfg, i, messages).log)
  {
    hide RoundLog, RoundMessages, RoundTells;
    if ToolRound(cfg, i) {
      OneRoundTells(cfg, i, messages);
    } else {
      assert Stop(cfg, i, messages).log[1..] == [];
      assert Recorded(Stop(cfg, i, messages).log) == [];
    }
  }

  /** And on every run each answer to the model tells, use by use, what came of the tool: its
      result if and only if it returned one. */
  lemma {:induction false} EveryAnswerTells(cfg: Config, i: nat, messages: seq<Message>, cost: int, j: nat)
    requires i <= cfg.maxIterations && i <= j
    requires |messages| + 2 * (j - i) < |Loop(cfg, i, messages, cost).messages|
    ensures var after := Loop(cfg, i, messages, cost).messages;
            var at := |messages| + 2 * (j - i);
            at + 1 < |after| && RoundTells(cfg, j, after[at], after[at + 1])
    decreases cfg.maxIterations - i
  {
    hide RoundLog, RoundMessages, CostAt, RoundTells, Told, Recorded;
    if i < cfg.maxIterations && ToolRound(cfg, i) {
      var next := RoundMessages(cfg, i, messages);
      OneRoundTells(cfg, i, messages);
      if GoesOn(cfg, i, cost) {
        TranscriptGrows(cfg, i + 1, next, cost + CostAt(cfg, i));
        if j > i {
          EveryAnswerTells(cfg, i + 1, next, cost + CostAt(cfg, i), j);
        }
      }
    }
  }

  // ----- exact replay

  function Calls(log: seq<Entry>): seq<Entry> {
    if log == [] then []
    else if log[0].content.ModelCall? then [log[0]] + Calls(log[1..])
    else Calls(log[1..])
  }

  lemma {:induction false} CallsAppend(a: seq<Entry>, b: seq<Entry>)
    ensures Calls(a + b) == Calls(a) + Calls(b)
  {
    if a == [] {
      assert a + b == b;
    } else {
      assert (a + b)[0] == a[0] && (a + b)[1..] == a[1..] + b;
      CallsAppend(a[1..], b);
    }
  }

  lemma DispatchIsFree(use: Use, outcome: ToolOutcome)
    ensures CostTotal(DispatchLog(use, outcome)) == 0 && Calls(DispatchLog(use, outcome)) == []
  {
    var log := DispatchLog(use, outcome);
    forall e | e in log ensures e.costCents == 0 && !e.content.ModelCall? {}
    AllFree(log);
  }

  lemma {:induction false} AllFree(log: seq<Entry>)
    requires forall e | e in log :: e.costCents == 0 && !e.content.ModelCall?
    ensures CostTotal(log) == 0 && Calls(log) == []
  {
    if log != [] {
      AllFree(log[1..]);
      assert log == [log[0]] + log[1..] && log[0] in log;
      CostAppend([log[0]], log[1..]);
      assert [log[0]][..0] == [];
    }
  }

  lemma {:induction false} CostAppend(a: seq<Entry>, b: seq<Entry>)
    ensures CostTotal(a + b) == CostTotal(a) + CostTotal(b)
    decreases |b|
  {
    if b == [] {
      assert a + b == a;
    } else {
      assert (a + b)[..|a + b| - 1] == a + b[..|b| - 1];
      CostAppend(a, b[..|b| - 1]);
    }
  }

  lemma {:induction false} DispatchesAreFree(uses: seq<Use>, tools: nat -> ToolOutcome, k: nat)
    ensures Calls(DispatchAll(uses, tools, k).0) == []
    ensures CostTotal(DispatchAll(uses, tools, k).0) == 0
    decreases uses
  {
    hide DispatchLog;
    if uses != [] {
      var first, rest := DispatchLog(uses[0], tools(k)), DispatchAll(uses[1..], tools, k + 1).0;
      DispatchesAreFree(uses[1..], tools, k + 1);
      DispatchIsFree(uses[0], tools(k));
      CallsAppend(first, rest);
      CostAppend(first, rest);
    }
  }

  lemma OneCall(messages: seq<Message>, r: Reply)
    ensures Calls([CallEntry(messages, r)]) == [CallEntry(messages, r)]
    ensures CostTotal([CallEntry(messages, r)]) == CostCents(r)
  {
    hide CostCents;
    var call := [CallEntry(messages, r)];
    assert call[1..] == [] && call[..0] == [];
  }

  /** A tool round makes one call, its first step; its tool steps cost nothing. */
  lemma RoundMakesOneCall(cfg: Config, i: nat, messages: seq<Message>)
    requires ToolRound(cfg, i)
    ensures Calls(RoundLog(cfg, i, messages)) == [CallEntry(messages, cfg.models(i).reply)]
    ensures CostTotal(RoundLog(cfg, i, messages)) == CostAt(cfg, i)
  {
    hide CostCents, DispatchAll, CallEntry, CostTotal, Calls;
    var r := cfg.models(i).reply;
    var rest := DispatchAll(UsesOf(r.content), RoundTools(cfg, i), 0).0;
    DispatchesAreFree(UsesOf(r.content), RoundTools(cfg, i), 0);
    OneCall(messages, r);
    CallsAppend([CallEntry(messages, r)], rest);
    CostAppend([CallEntry(messages, r)], rest);
  }

  /** The calls and the cost of a run, seen from its first iteration. */
  lemma CallsOfLoop(cfg: Config, i: nat, messages: seq<Message>, cost: int)
    requires i < cfg.maxIterations && GoesOn(cfg, i, cost)
    ensures var log := Loop(cfg, i, messages, cost).log;
            var rest := Loop(cfg, i + 1, RoundMessages(cfg, i, messages), cost + CostAt(cfg, i)).log;
            Calls(log) == [CallEntry(messages, cfg.models(i).reply)] + Calls(rest)
            && CostTotal(log) == CostAt(cfg, i) + CostTotal(rest)
  {
    hide RoundLog, RoundMessages, CostAt, CallEntry, Calls, CostTotal;
    RoundMakesOneCall(cfg, i, messages);
    var rest := Loop(cfg, i + 1, RoundMessages(cfg, i, messages), cost + CostAt(cfg, i)).log;
    CallsAppend(RoundLog(cfg, i, messages), rest);
    CostAppend(RoundLog(cfg, i, messages), rest);
  }

  lemma CallsOfStop(cfg: Config, i: nat, messages: seq<Message>)
    ensures var log := Stop(cfg, i, messages).log;
            Calls(log) == (if cfg.models(i).Answered? then [CallEntry(messages, cfg.models(i).reply)] else [])
            && CostTotal(log) == CostAt(cfg, i)
  {
    hide CostCents, RoundLog, RoundMessages, CallEntry, Calls, CostTotal;
    match cfg.models(i) {
      case ModelFailed(c, m) => AllFree([Free(ErrorStep(m, Some(c)))]);
      case Answered(r) =>
        OneCall(messages, r);
        if WantsTools(r) { RoundMakesOneCall(cfg, i, messages); }
    }
  }

  lemma {:induction false} TranscriptGrows(cfg: Config, i: nat, messages: seq<Message>, cost: int)
    requires i <= cfg.maxIterations
    ensures messages <= Loop(cfg, i, messages, cost).messages
    decreases cfg.maxIterations - i
  {
    hide RoundLog, CostAt, ToolRound, OverBudget, CallEntry, DispatchAll;
    if i < cfg.maxIterations && GoesOn(cfg, i, cost) {
      TranscriptGrows(cfg, i + 1, RoundMessages(cfg, i, messages), cost + CostAt(cfg, i));
    }
  }

  /** Exact replay: the n-th call of the log was made with the first `|messages| + 2n`
      messages of the FINAL transcript, and records the n-th reply. */
  lemma {:induction false} RequestsReplay(cfg: Config, i: nat, messages: seq<Message>, cost: int, n: nat)
    requires i <= cfg.maxIterations
    requires n < |Calls(Loop(cfg, i, messages, cost).log)|
    ensures var end := Loop(cfg, i, messages, cost);
            |messages| + 2 * n <= |end.messages| && cfg.models(i + n).Answered? &&
            Calls(end.log)[n] == CallEntry(end.messages[..|messages| + 2 * n], cfg.models(i + n).reply)
    decreases cfg.maxIterations - i
  {
    hide RoundLog, CallEntry, CostAt, ToolRound, OverBudget, Stop, RoundMessages, Calls;
    AllFree([]);
    if i == cfg.maxIterations {
    } else if GoesOn(cfg, i, cost) {
      var next := RoundMessages(cfg, i, messages);
      CallsOfLoop(cfg, i, messages, cost);
      RoundWasAnswered(cfg, i, cost, messages);
      if n > 0 {
        RequestsReplay(cfg, i + 1, next, cost + CostAt(cfg, i), n - 1);
      }
    } else {
      CallsOfStop(cfg, i, messages);
    }
    if n == 0 {
      TranscriptGrows(cfg, i, messages, cost);
      assert Loop(cfg, i, messages, cost).messages[..|messages| + 2 * n] == messages;
    }
  }

  lemma RoundWasAnswered(cfg: Config, i: nat, cost: int, messages: seq<Message>)
    requires GoesOn(cfg, i, cost)
    ensures cfg.models(i).Answered? && |RoundMessages(cfg, i, messages)| == |messages| + 2
  {
  }

  // ----- how a run ends

  /** Recorded cost of the iterations `from..last`. */
  function Spent(cfg: Config, from: nat, last: nat): int
    requires from <= last
    decreases last - from
  {
    if from == last then 0 else CostAt(cfg, from) + Spent(cfg, from + 1, last)
  }

  /** The status of a run that ended in iteration `k` (counted from 1) having spent `cost`, in
      terms of what the model did and cost. */
  function StatusOf(cfg: Config, k: nat, cost: int): string
    requires k >= 1
  {
    match cfg.models(k - 1)
    case ModelFailed(_, _) => FAILED
    case Answered(r) =>
      if !WantsTools(r) then COMPLETED
      else if OverBudget(cfg, cost) then BUDGET_EXHAUSTED
      else MAX_ITERATIONS
  }

  /** Iteration `j` was a tool round and what had been spent after it was within the budget. */
  ghost predicate WentOn(cfg: Config, j: nat, spent: int) {
    ToolRound(cfg, j) && !OverBudget(cfg, spent)
  }

  /** How a run ends: it goes through exactly the iterations that go on, stops at the first
      that does not (or at the cap), its status says why, its cost is what the calls cost,
      and it makes one call per iteration (a failed last one leaves no call record). */
  ghost predicate Explained(cfg: Config, i: nat, cost: int, end: End) {
    i < end.iterations <= cfg.maxIterations &&
    (forall j | i < j < end.iterations :: WentOn(cfg, j - 1, cost + Spent(cfg, i, j))) &&
    var total := cost + Spent(cfg, i, end.iterations);
    (end.iterations < cfg.maxIterations ==> !WentOn(cfg, end.iterations - 1, total)) &&
    end.status == StatusOf(cfg, end.iterations, total) &&
    CostTotal(end.log) == Spent(cfg, i, end.iterations) &&
    |Calls(end.log)| == end.iterations - i - (if end.status == FAILED then 1 else 0)
  }

  lemma SpentOne(cfg: Config, i: nat)
    ensures Spent(cfg, i, i + 1) == CostAt(cfg, i)
  {
    assert Spent(cfg, i + 1, i + 1) == 0;
  }

  lemma StatusesDiffer()
    ensures FAILED != COMPLETED && FAILED != BUDGET_EXHAUSTED && FAILED != MAX_ITERATIONS
  {
    assert FAILED[0] != COMPLETED[0] && FAILED[0] != BUDGET_EXHAUSTED[0] && FAILED[0] != MAX_ITERATIONS[0];
  }

  lemma {:induction false} EndExplained(cfg: Config, i: nat, messages: seq<Message>, cost: int)
    requires i < cfg.maxIterations
    ensures Explained(cfg, i, cost, Loop(cfg, i, messages, cost))
    decreases cfg.maxIterations - i
  {
    hide RoundLog, RoundMessages, Explained, Stop, Calls, CostTotal, ToolRound, OverBudget;
    if GoesOn(cfg, i, cost) {
      var next, spent := RoundMessages(cfg, i, messages), cost + CostAt(cfg, i);
      CallsOfLoop(cfg, i, messages, cost);
      if i + 1 < cfg.maxIterations {
        EndExplained(cfg, i + 1, next, spent);
        ExplainedEarlier(cfg, i, cost, Loop(cfg, i + 1, next, spent), Loop(cfg, i, messages, cost));
      } else {
        AllFree([]);
        CappedIsExplained(cfg, i, cost, Loop(cfg, i, messages, cost));
      }
    } else {
      StopExplained(cfg, i, messages, cost);
    }
  }

  /** What a run is finished with: the reason and the text its last reply gives, or the class of
      the model's error, which is its last step, or the limit that it came to. */
  ghost predicate Concluded(cfg: Config, end: End) {
    0 < end.iterations &&
    match cfg.models(end.iterations - 1)
    case ModelFailed(c, m) =>
      end.status == FAILED && end.reason == Some(c) && end.finalText == "" &&
      |end.log| > 0 && end.log[|end.log| - 1] == Free(ErrorStep(m, Some(c)))
    case Answered(r) =>
      if end.status == COMPLETED then end.reason == Some(r.stopReason) && end.finalText == FinalText(r.content)
      else WantsTools(r) && end.reason == Some(end.status) && end.finalText == ""
  }

  lemma {:induction false} EveryRunConcludes(cfg: Config, i: nat, messages: seq<Message>, cost: int)
    requires i < cfg.maxIterations
    ensures Concluded(cfg, Loop(cfg, i, messages, cost))
    decreases cfg.maxIterations - i
  {
    hide RoundLog, RoundMessages, OverBudget, CostAt, WantsTools, FinalText;
    StatusesDiffer();
    if GoesOn(cfg, i, cost) {
      if i + 1 < cfg.maxIterations {
        EveryRunConcludes(cfg, i + 1, RoundMessages(cfg, i, messages), cost + CostAt(cfg, i));
      }
    }
  }

  lemma StopExplained(cfg: Config, i: nat, messages: seq<Message>, cost: int)
    requires i < cfg.maxIterations && !GoesOn(cfg, i, cost)
    ensures Explained(cfg, i, cost, Stop(cfg, i, messages))
  {
    hide RoundLog, RoundMessages, Calls, CostTotal, CostAt;
    CallsOfStop(cfg, i, messages);
    SpentOne(cfg, i);
    StatusesDiffer();
  }

  lemma CappedIsExplained(cfg: Config, i: nat, cost: int, end: End)
    requires i + 1 == cfg.maxIterations && GoesOn(cfg, i, cost)
    requires end.iterations == i + 1 && end.status == MAX_ITERATIONS
    requires CostTotal(end.log) == CostAt(cfg, i) && |Calls(end.log)| == 1
    ensures Explained(cfg, i, cost, end)
  {
    hide CostAt, CostTotal, Calls;
    SpentOne(cfg, i);
    StatusesDiffer();
  }

  lemma ExplainedEarlier(cfg: Config, i: nat, cost: int, rest: End, end: End)
    requires GoesOn(cfg, i, cost) && Explained(cfg, i + 1, cost + CostAt(cfg, i), rest)
    requires end.iterations == rest.iterations && end.status == rest.status
    requires CostTotal(end.log) == CostAt(cfg, i) + CostTotal(rest.log)
    requires |Calls(end.log)| == 1 + |Calls(rest.log)|
    ensures Explained(cfg, i, cost, end)
  {
    hide CostAt, CostTotal, Calls;
    SpentOne(cfg, i);
    forall j | i < j < end.iterations ensures WentOn(cfg, j - 1, cost + Spent(cfg, i, j)) {
      if j > i + 1 {
        assert WentOn(cfg, j - 1, cost + CostAt(cfg, i) + Spent(cfg, i + 1, j));
      }
    }
  }

  // ----- cost and budget

  function MicroCentsAt(cfg: Config, i: nat): nat {
    match cfg.models(i) case Answered(r) => MicroCents(r) case ModelFailed(_, _) => 0
  }

  /** The exact charge of the iterations `from..last`, in millionths of a cent. */
  function Charge(cfg: Config, from: nat, last: nat): int
    requires from <= last
    decreases last - from
  {
    if from == last then 0 else MicroCentsAt(cfg, from) + Charge(cfg, from + 1, last)
  }

  lemma CostAtWithinACent(cfg: Config, i: nat)
    ensures 0 <= 1_000_000 * CostAt(cfg, i) - MicroCentsAt(cfg, i) <= 999_999
  {
    hide MicroCents;
  }

  lemma {:induction false} CostWithinACentPerCall(cfg: Config, from: nat, last: nat)
    requires from <= last
    ensures 0 <= 1_000_000 * Spent(cfg, from, last) - Charge(cfg, from, last) <= 999_999 * (last - from)
    decreases last - from
  {
    hide MicroCentsAt, CostAt;
    if from < last {
      CostAtWithinACent(cfg, from);
      CostWithinACentPerCall(cfg, from + 1, last);
    }
  }

  /** The recorded cost exceeds the exact charge by less than a cent per call, and every call
      but the first was started with recorded cost below the budget: a run overshoots its
      budget by less than its last call's cost. */
  lemma CostAndBudget(cfg: Config, initial: seq<Message>, budget: int)
    requires cfg.maxIterations >= 1 && cfg.budgetCents == Some(budget)
    ensures var end := Loop(cfg, 0, initial, 0);
            var k := end.iterations;
            k >= 1 &&
            0 <= 1_000_000 * CostTotal(end.log) - Charge(cfg, 0, k) <= 999_999 * k &&
            (forall j | 1 <= j < k :: Spent(cfg, 0, j) < budget) &&
            (k > 1 ==> CostTotal(end.log) - CostAt(cfg, k - 1) < budget)
  {
    hide Loop, CostTotal, Calls, CostAt;
    var end := Loop(cfg, 0, initial, 0);
    EndExplained(cfg, 0, initial, 0);
    CostWithinACentPerCall(cfg, 0, end.iterations);
    forall j | 1 <= j < end.iterations ensures Spent(cfg, 0, j) < budget {
      assert WentOn(cfg, j - 1, 0 + Spent(cfg, 0, j));
    }
    SpentLast(cfg, 0, end.iterations);
  }

  lemma {:induction false} SpentLast(cfg: Config, from: nat, last: nat)
    requires from < last
    ensures Spent(cfg, from, last) == Spent(cfg, from, last - 1) + CostAt(cfg, last - 1)
    decreases last - from
  {
    if from + 1 < last {
      SpentLast(cfg, from + 1, last);
    } else {
      assert Spent(cfg, last, last) == 0 && Spent(cfg, from, last - 1) == 0;
    }
  }
}
