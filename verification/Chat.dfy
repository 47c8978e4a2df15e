/** One chat turn: the orchestrator's streaming tool-use loop and its specialist
    consultations, for any model streams, specialists and failures.

    The loop has no iteration cap, so a turn is followed over any finite number of rounds.
    The main results: every started consultation is closed by exactly one complete or error
    event before anything else happens, and both carry the index of the tool_result step
    that is then written; the totals of `done` are the trace's totals; a turn that ends emits
    `done` or `error`, once, as its last event. */
module Chat {
  import opened Wrappers
  import opened Strings
  import opened Trace
  import opened Engine

  datatype StreamEvent =
    | TextDelta(text: string)
    | ToolUseBlock(use: Use)
    | Completion(fullText: string, inputTokens: nat, outputTokens: nat, stopReason: string, model: string)

  type CompletionEvent = e: StreamEvent | e.Completion? witness Completion("", 0, 0, "", "")

  /** An exception, rendered as `type: message`; connector errors are told apart. */
  datatype Failure = Failure(text: string, fromConnector: bool)

  /** A model stream: what it delivers, and the exception that cuts it off, if any. */
  datatype Stream = Stream(events: seq<StreamEvent>, failure: Option<Failure>)

  datatype Specialist = Specialist(name: string, displayName: string, versionId: string, model: string)

  /** What one `consult_specialist` use meets: the name asked for, the specialist found (with
      an active version), its stream; or a failing lookup. */
  datatype Script = Script(asked: string, found: Option<Specialist>, stream: Stream, lookupFailure: Option<Failure>)

  // ----- one consultation

  datatype ConsultationEvent =
    | ConsultationStarted(spec: Specialist)
    | ConsultationTextDelta(text: string)
    | ConsultationComplete(name: string, fullText: string, inputTokens: nat, outputTokens: nat)
    | ConsultationError(name: string, error: string, specialist: Option<Specialist>, partialText: string)

  function DeltaOf(e: StreamEvent): string {
    if e.TextDelta? then e.text else ""
  }

  function Assembled(events: seq<StreamEvent>): string {
    if events == [] then "" else Assembled(events[..|events| - 1]) + DeltaOf(events[|events| - 1])
  }

  /** The last completion event, if the stream delivered one. */
  function Completed(events: seq<StreamEvent>): Option<CompletionEvent> {
    if events == [] then None
    else if events[|events| - 1].Completion? then Some(events[|events| - 1])
    else Completed(events[..|events| - 1])
  }

  function Deltas(events: seq<StreamEvent>): seq<ConsultationEvent> {
    if events == [] then []
    else Deltas(events[..|events| - 1])
         + (if events[|events| - 1].TextDelta? then [ConsultationTextDelta(events[|events| - 1].text)] else [])
  }

  function Unregistered(name: string): string {
    "Specialist '" + name + "' is not registered for this firm or has no active prompt version."
  }

  /** How a started consultation ends. */
  function Closing(spec: Specialist, stream: Stream): ConsultationEvent {
    match stream.failure
    case Some(error) => ConsultationError(spec.name, error.text, Some(spec), Assembled(stream.events))
    case None =>
      match Completed(stream.events)
      case Some(c) => ConsultationComplete(spec.name, c.fullText, c.inputTokens, c.outputTokens)
      case None => ConsultationComplete(spec.name, Assembled(stream.events), 0, 0)
  }

  function Consultation(script: Script): seq<ConsultationEvent> {
    match script.found
    case None => [ConsultationError(script.asked, Unregistered(script.asked), None, "")]
    case Some(spec) => [ConsultationStarted(spec)] + Deltas(script.stream.events) + [Closing(spec, script.stream)]
  }

  /** The generator `consult_specialist`, with what it yields collected. */
  method ConsultSpecialist(script: Script) returns (produced: seq<ConsultationEvent>)
    ensures produced == Consultation(script)
  {
    if script.found == None {
      return [ConsultationError(script.asked, Unregistered(script.asked), None, "")];
    }
    var spec := script.found.value;
    produced := [ConsultationStarted(spec)];
    var assembled := "";
    var fullText: Option<string> := None;
    var inputTokens, outputTokens := 0, 0;
    var events := script.stream.events;
    for i := 0 to |events|
      invariant produced == [ConsultationStarted(spec)] + Deltas(events[..i])
      invariant assembled == Assembled(events[..i])
      invariant match Completed(events[..i])
                case None => fullText == None && inputTokens == 0 && outputTokens == 0
                case Some(c) =>
                  fullText == Some(c.fullText) && inputTokens == c.inputTokens && outputTokens == c.outputTokens
    {
      assert events[..i + 1][..i] == events[..i];
      match events[i] {
        case TextDelta(text) =>
          assembled := assembled + text;
          produced := produced + [ConsultationTextDelta(text)];
        case Completion(full, inp, outp, _, _) =>
          fullText, inputTokens, outputTokens := Some(full), inp, outp;
        case ToolUseBlock(_) =>
      }
    }
    assert events[..|events|] == events;
    if script.stream.failure.Some? {
      produced := produced + [ConsultationError(spec.name, script.stream.failure.value.text, Some(spec), assembled)];
      return;
    }
    produced := produced + [ConsultationComplete(spec.name, if fullText.Some? then fullText.value else assembled,
                                             inputTokens, outputTokens)];
  }

  // ----- what the orchestrator makes of it

  /** The server-sent events of a turn. */
  datatype Event =
    | Token(text: string)
    | Started(spec: Specialist, stepIndex: nat)
    | Complete(name: string, inputTokens: nat, outputTokens: nat, stepIndex: nat)
    | ConsultError(name: string, error: string, stepIndex: nat)
    | Done(totalInputTokens: int, totalOutputTokens: int)
    | Error(error: string)

  /** What the loop over a consultation's events has gathered. */
  datatype Heard = Heard(fullText: string, error: Option<string>, inputTokens: nat, outputTokens: nat)

  function Hear(h: Heard, e: ConsultationEvent): Heard {
    match e
    case ConsultationStarted(_) => h
    case ConsultationTextDelta(text) => h.(fullText := h.fullText + text)
    case ConsultationComplete(_, full, inp, outp) => h.(fullText := full, inputTokens := inp, outputTokens := outp)
    case ConsultationError(_, error, _, _) => h.(error := Some(error))
  }

  function HearAll(es: seq<ConsultationEvent>): Heard {
    if es == [] then Heard("", None, 0, 0) else Hear(HearAll(es[..|es| - 1]), es[|es| - 1])
  }

  function Emitted(e: ConsultationEvent, stepIndex: nat): seq<Event> {
    match e
    case ConsultationStarted(spec) => [Started(spec, stepIndex)]
    case ConsultationTextDelta(_) => []
    case ConsultationComplete(name, _, inp, outp) => [Complete(name, inp, outp, stepIndex)]
    case ConsultationError(name, error, _, _) => [ConsultError(name, error, stepIndex)]
  }

  function EmittedAll(es: seq<ConsultationEvent>, stepIndex: nat): seq<Event> {
    if es == [] then [] else EmittedAll(es[..|es| - 1], stepIndex) + Emitted(es[|es| - 1], stepIndex)
  }

  /** Tokens that the loop adds to the turn's totals. */
  function InputOf(es: seq<ConsultationEvent>): int {
    if es == [] then 0
    else InputOf(es[..|es| - 1]) + (if es[|es| - 1].ConsultationComplete? then es[|es| - 1].inputTokens else 0)
  }

  function OutputOf(es: seq<ConsultationEvent>): int {
    if es == [] then 0
    else OutputOf(es[..|es| - 1]) + (if es[|es| - 1].ConsultationComplete? then es[|es| - 1].outputTokens else 0)
  }

  /** `error.split(":", 1)[0]` */
  function ErrorClass(error: string): string {
    if error == "" || error[0] == ':' then "" else [error[0]] + ErrorClass(error[1..])
  }

  function ResultText(h: Heard): string {
    match h.error
    case None => h.fullText
    case Some(e) => "Consultation failed: " + e + ". Proceed without this specialist or try a different approach."
  }

  function OrNone(tokens: nat): Option<int> {
    if tokens == 0 then None else Some(tokens)
  }

  function ResultEntry(use: Use, h: Heard): Entry {
    Entry(ToolResult(use.name, use.id, ResultText(h), h.error.Some?,
                     if h.error.Some? then Some(ErrorClass(h.error.value)) else None),
          OrNone(h.inputTokens), OrNone(h.outputTokens), 0)
  }

  // ----- one turn as a function

  /** Everything a turn has produced so far. */
  datatype Turn = Turn(events: seq<Event>, log: seq<Entry>, messages: seq<Message>,
                       inputTokens: int, outputTokens: int)

  /** One model stream and, per tool use, what its consultation meets. */
  datatype Round = Round(stream: Stream, scripts: nat -> Script)

  datatype Phase = Running | Finished(failure: Option<Failure>)

  function CallOf(use: Use): Entry {
    Free(ToolCall(use.name, use.id, use.input))
  }

  function UnknownEntry(use: Use): Entry {
    Free(ToolResult(use.name, use.id, "Unknown tool: " + use.name, true, Some("UnknownTool")))
  }

  /** One tool use: its steps, events, tokens and answer; or the exception that ends the turn. */
  datatype Used = Used(turn: Turn, answer: Option<ResultBlock>, failure: Option<Failure>)

  function DoUse(t: Turn, use: Use, script: Script): Used {
    var called := t.(log := t.log + [CallOf(use)]);
    if use.name != "consult_specialist" then
      Used(called.(log := called.log + [UnknownEntry(use)]),
           Some(ResultBlock(use.id, "Unknown tool: " + use.name, true)), None)
    else if script.lookupFailure.Some? then Used(called, None, script.lookupFailure)
    else
      var es := Consultation(script);
      var h := HearAll(es);
      Used(Turn(called.events + EmittedAll(es, |called.log|), called.log + [ResultEntry(use, h)], called.messages,
                called.inputTokens + InputOf(es), called.outputTokens + OutputOf(es)),
           Some(ResultBlock(use.id, ResultText(h), h.error.Some?)), None)
  }

  datatype UsedAll = UsedAll(turn: Turn, answers: seq<ResultBlock>, failure: Option<Failure>)

  function DoUses(t: Turn, uses: seq<Use>, scripts: nat -> Script, k: nat): UsedAll
    decreases uses
  {
    if uses == [] then UsedAll(t, [], None)
    else
      var used := DoUse(t, uses[0], scripts(k));
      if used.answer == None then UsedAll(used.turn, [], used.failure)
      else
        var rest := DoUses(used.turn, uses[1..], scripts, k + 1);
        rest.(answers := [used.answer.value] + rest.answers)
  }

  function Tokens(events: seq<StreamEvent>): seq<Event> {
    if events == [] then []
    else Tokens(events[..|events| - 1])
         + (if events[|events| - 1].TextDelta? then [Token(events[|events| - 1].text)] else [])
  }

  function StreamUses(events: seq<StreamEvent>): seq<Use> {
    if events == [] then []
    else StreamUses(events[..|events| - 1])
         + (if events[|events| - 1].ToolUseBlock? then [events[|events| - 1].use] else [])
  }

  /** What a stream without completion event counts as. */
  function Summary(events: seq<StreamEvent>, defaultModel: string): CompletionEvent {
    match Completed(events) case Some(c) => c case None => Completion("", 0, 0, "end_turn", defaultModel)
  }

  function ResponseBlocks(fullText: string, uses: seq<Use>): seq<Block> {
    (if fullText == "" then [] else [TextBlock(fullText)]) + AsBlocks(uses)
  }

  function AsBlocks(uses: seq<Use>): seq<Block> {
    if uses == [] then [] else [uses[0]] + AsBlocks(uses[1..])
  }

  function CallStep(t: Turn, c: CompletionEvent, uses: seq<Use>): Entry {
    Entry(ModelCall(t.messages, ResponseBlocks(c.fullText, uses), c.stopReason), Some(c.inputTokens),
          Some(c.outputTokens), 0)
  }

  /** The turn once the round's model call is recorded. */
  function AfterCall(t: Turn, events: seq<StreamEvent>, defaultModel: string): Turn {
    var c := Summary(events, defaultModel);
    Turn(t.events + Tokens(events), t.log + [CallStep(t, c, StreamUses(events))], t.messages,
         t.inputTokens + c.inputTokens, t.outputTokens + c.outputTokens)
  }

  predicate EndsTurn(events: seq<StreamEvent>, defaultModel: string) {
    Summary(events, defaultModel).stopReason != "tool_use" || StreamUses(events) == []
  }

  function DoRound(t: Turn, round: Round, defaultModel: string): (Turn, Phase) {
    var events := round.stream.events;
    if round.stream.failure.Some? then
      (t.(events := t.events + Tokens(events)), Finished(round.stream.failure))
    else
      var called := AfterCall(t, events, defaultModel);
      if EndsTurn(events, defaultModel) then (called, Finished(None))
      else
        var blocks := ResponseBlocks(Summary(events, defaultModel).fullText, StreamUses(events));
        var asked := called.(messages := called.messages + [Assistant(blocks)]);
        var used := DoUses(asked, StreamUses(events), round.scripts, 0);
        if used.failure.Some? then (used.turn, Finished(used.failure))
        else (used.turn.(messages := used.turn.messages + [ToolResults(used.answers)]), Running)
  }

  function DoRounds(t: Turn, rounds: seq<Round>, defaultModel: string): (Turn, Phase)
    decreases rounds
  {
    if rounds == [] then (t, Running)
    else
      var (t', phase) := DoRound(t, rounds[0], defaultModel);
      if phase.Finished? then (t', phase) else DoRounds(t', rounds[1..], defaultModel)
  }

  /** The last event of a turn that has finished. */
  function Farewell(t: Turn, phase: Phase): seq<Event> {
    match phase
    case Running => []
    case Finished(None) => [Done(t.inputTokens, t.outputTokens)]
    case Finished(Some(error)) => [Error(error.text)]
  }

  /** The status and completion reason that the turn's trace ends with. */
  function StatusFor(failure: Option<Failure>): (string, Option<string>) {
    match failure
    case None => ("completed", None)
    case Some(f) => ("failed", Some(if f.fromConnector then "connector_error" else "unexpected_error"))
  }

  // ----- the code

  method HandleUse(writer: AgentTraceWriter, use: Use, script: Script, ghost t: Turn)
      returns (events: seq<Event>, inputTokens: int, outputTokens: int, answer: Option<ResultBlock>,
               failure: Option<Failure>)
    requires writer.Consistent() && writer.trace.Some? && writer.Log() == t.log
    modifies writer
    ensures writer.Consistent() && writer.trace.Some? && writer.trace.value.status == old(writer.trace).value.status
    ensures var used := DoUse(t, use, script);
            writer.Log() == used.turn.log && answer == used.answer && failure == used.failure &&
            t.events + events == used.turn.events && t.messages == used.turn.messages &&
            t.inputTokens + inputTokens == used.turn.inputTokens &&
            t.outputTokens + outputTokens == used.turn.outputTokens
  {
    hide Consultation, InputTotal, OutputTotal, CostTotal;
    events, inputTokens, outputTokens := [], 0, 0;
    assert t.events + [] == t.events;
    var _ := writer.InsertStep(CallOf(use));
    if use.name != "consult_specialist" {
      var _ := writer.InsertStep(UnknownEntry(use));
      return [], 0, 0, Some(ResultBlock(use.id, "Unknown tool: " + use.name, true)), None;
    }
    if script.lookupFailure.Some? {
      return [], 0, 0, None, script.lookupFailure;
    }
    var es := ConsultSpecialist(script);
    var h := Heard("", None, 0, 0);
    for i := 0 to |es|
      invariant events == EmittedAll(es[..i], writer.nextStepIndex)
      invariant h == HearAll(es[..i]) && inputTokens == InputOf(es[..i]) && outputTokens == OutputOf(es[..i])
    {
      assert es[..i + 1][..i] == es[..i];
      events := events + Emitted(es[i], writer.nextStepIndex);
      h := Hear(h, es[i]);
      if es[i].ConsultationComplete? {
        inputTokens := inputTokens + es[i].inputTokens;
        outputTokens := outputTokens + es[i].outputTokens;
      }
    }
    assert es[..|es|] == es;
    var _ := writer.InsertStep(ResultEntry(use, h));
    return events, inputTokens, outputTokens, Some(ResultBlock(use.id, ResultText(h), h.error.Some?)), None;
  }

  /** `stream_chat` over the given rounds: the events emitted, and whether the turn is over. */
  method StreamChat(writer: AgentTraceWriter, history: seq<Message>, rounds: seq<Round>, defaultModel: string)
      returns (events: seq<Event>, messages: seq<Message>, phase: Phase)
    requires writer.Consistent() && writer.trace.Some? && writer.trace.value.status == RUNNING && writer.Log() == []
    modifies writer
    ensures var (t, p) := DoRounds(Turn([], [], history, 0, 0), rounds, defaultModel);
            writer.Consistent() && writer.Log() == t.log && phase == p && messages == t.messages &&
            events == t.events + Farewell(t, p) &&
            writer.trace.Some? &&
            (p.Running? ==> writer.trace.value.status == RUNNING) &&
            (p.Finished? ==> (writer.trace.value.status, writer.trace.value.completionReason) == StatusFor(p.failure))
    ensures phase.Finished? ==>
              (phase.failure == None <==> writer.trace.value.status == "completed") &&
              (phase.failure.Some? <==> writer.trace.value.status == "failed")
  {
    hide DoUses, DoUse, Tokens, StreamUses, Completed, InputTotal, OutputTotal, CostTotal, Consultation;
    ghost var start := Turn([], [], history, 0, 0);
    events, messages, phase := [], history, Running;
    var totalInput, totalOutput := 0, 0;
    var n := 0;
    while n < |rounds| && phase.Running?
      invariant n <= |rounds|
      invariant writer.Consistent() && writer.trace.Some? && writer.trace.value.status == RUNNING
      invariant DoRounds(start, rounds, defaultModel)
             == if phase.Running?
                then DoRounds(Turn(events, writer.Log(), messages, totalInput, totalOutput), rounds[n..], defaultModel)
                else (Turn(events, writer.Log(), messages, totalInput, totalOutput), phase)
      decreases |rounds| - n, phase.Running?
    {
      ghost var t := Turn(events, writer.Log(), messages, totalInput, totalOutput);
      assert rounds[n..][0] == rounds[n] && rounds[n..][1..] == rounds[n + 1..];
      events, messages, totalInput, totalOutput, phase :=
        PlayRound(writer, rounds[n], defaultModel, events, messages, totalInput, totalOutput);
      n := n + 1;
    }
    if phase.Finished? {
      assert "failed"[0] != "completed"[0];
      var _ := writer.FinishTrace(StatusFor(phase.failure).0, StatusFor(phase.failure).1);
      events := events +
      (if phase.failure == None then [Done(totalInput, totalOutput)] else [Error(phase.failure.value.text)]);
    }
    assert rounds[|rounds|..] == [];
  }

  /** The loop body: one streamed round. */
  method PlayRound(writer: AgentTraceWriter, round: Round, defaultModel: string,
                   events0: seq<Event>, messages0: seq<Message>, input0: int, output0: int)
      returns (events: seq<Event>, messages: seq<Message>, totalInput: int, totalOutput: int, phase: Phase)
    requires writer.Consistent() && writer.trace.Some?
    modifies writer
    ensures writer.Consistent() && writer.trace.Some? && writer.trace.value.status == old(writer.trace).value.status
    ensures DoRound(Turn(events0, old(writer.Log()), messages0, input0, output0), round, defaultModel)
         == (Turn(events, writer.Log(), messages, totalInput, totalOutput), phase)
  {
    hide DoUse, InputTotal, OutputTotal, CostTotal;
    ghost var t := Turn(events0, writer.Log(), messages0, input0, output0);
    events, messages, totalInput, totalOutput := events0, messages0, input0, output0;
    var stream := round.stream.events;
    var uses: seq<Use> := [];
    var summary: CompletionEvent := Completion("", 0, 0, "end_turn", defaultModel);
    for i := 0 to |stream|
      invariant events == events0 + Tokens(stream[..i]) && uses == StreamUses(stream[..i])
      invariant summary == Summary(stream[..i], defaultModel)
    {
      assert stream[..i + 1][..i] == stream[..i];
      match stream[i] {
        case TextDelta(text) => events := events + [Token(text)];
        case ToolUseBlock(use) => uses := uses + [use];
        case Completion(_, _, _, _, _) => summary := stream[i];
      }
    }
    assert stream[..|stream|] == stream;
    if round.stream.failure.Some? {
      return events, messages, totalInput, totalOutput, Finished(round.stream.failure);
    }
    totalInput := totalInput + summary.inputTokens;
    totalOutput := totalOutput + summary.outputTokens;
    var blocks := ResponseBlocks(summary.fullText, uses);
    var _ := writer.InsertStep(Entry(ModelCall(messages, blocks, summary.stopReason),
                                     Some(summary.inputTokens), Some(summary.outputTokens), 0));
    assert Turn(events, writer.Log(), messages, totalInput, totalOutput) == AfterCall(t, stream, defaultModel);
    if summary.stopReason != "tool_use" || uses == [] {
      return events, messages, totalInput, totalOutput, Finished(None);
    }
    messages := messages + [Assistant(blocks)];
    ghost var asked := Turn(events, writer.Log(), messages, totalInput, totalOutput);
    var answers, failure;
    events, totalInput, totalOutput, answers, failure :=
      PlayUses(writer, uses, round.scripts, events, messages, totalInput, totalOutput);
    if failure.Some? {
      return events, messages, totalInput, totalOutput, Finished(failure);
    }
    messages := messages + [ToolResults(answers)];
    return events, messages, totalInput, totalOutput, Running;
  }

  method PlayUses(writer: AgentTraceWriter, uses: seq<Use>, scripts: nat -> Script,
                  events0: seq<Event>, ghost messages: seq<Message>, input0: int, output0: int)
      returns (events: seq<Event>, totalInput: int, totalOutput: int, answers: seq<ResultBlock>,
               failure: Option<Failure>)
    requires writer.Consistent() && writer.trace.Some?
    modifies writer
    ensures writer.Consistent() && writer.trace.Some? && writer.trace.value.status == old(writer.trace).value.status
    ensures var used := DoUses(Turn(events0, old(writer.Log()), messages, input0, output0), uses, scripts, 0);
            used.turn == Turn(events, writer.Log(), messages, totalInput, totalOutput) && used.failure == failure &&
            (failure == None ==> used.answers == answers)
  {
    hide DoUse, InputTotal, OutputTotal, CostTotal;
    events, totalInput, totalOutput, answers, failure := events0, input0, output0, [], None;
    ghost var all := DoUses(Turn(events0, writer.Log(), messages, input0, output0), uses, scripts, 0);
    for k := 0 to |uses|
      invariant writer.Consistent() && writer.trace.Some? && writer.trace.value.status == old(writer.trace).value.status
      invariant failure == None
      invariant all == MoreAnswers(answers, DoUses(Turn(events, writer.Log(), messages, totalInput, totalOutput),
                                                   uses[k..], scripts, k))
    {
      ghost var t := Turn(events, writer.Log(), messages, totalInput, totalOutput);
      assert uses[k..][0] == uses[k] && uses[k..][1..] == uses[k + 1..];
      var more, inp, outp, answer, problem := HandleUse(writer, uses[k], scripts(k), t);
      events, totalInput, totalOutput := events + more, totalInput + inp, totalOutput + outp;
      if answer == None {
        failure := problem;
        return;
      }
      Associative(answers, [answer.value],
                  DoUses(DoUse(t, uses[k], scripts(k)).turn, uses[k + 1..], scripts, k + 1).answers);
      answers := answers + [answer.value];
    }
  }

  ghost function MoreAnswers(answers: seq<ResultBlock>, rest: UsedAll): UsedAll {
    rest.(answers := answers + rest.answers)
  }

  // ----- the grammar of the event stream

  /** Reads the events, `open` being the step index of the consultation in progress. */
  function Scan(events: seq<Event>, open: Option<nat>): Option<Option<nat>> {
    if events == [] then Some(open)
    else
      match events[0]
      case Token(_) => if open == None then Scan(events[1..], None) else None
      case Started(_, i) => if open == None then Scan(events[1..], Some(i)) else None
      case Complete(_, _, _, i) => if open == Some(i) then Scan(events[1..], None) else None
      // an unregistered specialist is reported without having started
      case ConsultError(_, _, i) => if open == Some(i) || open == None then Scan(events[1..], None) else None
      case Done(_, _) => None
      case Error(_) => None
  }

  /** All consultations of the stream are closed; nothing has ended the turn yet. */
  ghost predicate WellBracketed(events: seq<Event>) {
    Scan(events, None) == Some(None)
  }

  /** Step `i` is the result of a consultation. */
  predicate IsResult(log: seq<Entry>, i: nat, failed: bool) {
    i < |log| && log[i].content.ToolResult? && log[i].content.name == "consult_specialist"
    && log[i].content.isError == failed
  }

  predicate RefersTo(e: Event, log: seq<Entry>) {
    match e
    case Started(_, i) => IsResult(log, i, false) || IsResult(log, i, true)
    case Complete(_, inp, outp, i) =>
      IsResult(log, i, false) && OrZero(log[i].inputTokens) == inp && OrZero(log[i].outputTokens) == outp
    case ConsultError(_, _, i) => IsResult(log, i, true)
    case _ => true
  }

  /** Every consultation event points at the step that holds its tool_result: a failure at a
      failed one, a completion at a successful one with the same token counts. */
  ghost predicate PointsAtResults(events: seq<Event>, log: seq<Entry>) {
    forall e | e in events :: RefersTo(e, log)
  }

  /** The step indices of the events that close consultations, in order. */
  function Closings(events: seq<Event>): seq<nat> {
    if events == [] then []
    else
      var before, last := Closings(events[..|events| - 1]), events[|events| - 1];
      if last.Complete? || last.ConsultError? then before + [last.stepIndex] else before
  }

  predicate IsConsultResult(e: Entry) {
    e.content.ToolResult? && e.content.name == "consult_specialist"
  }

  /** Where the log holds results of consultations, in order. */
  function ResultIndices(log: seq<Entry>): seq<nat> {
    if log == [] then []
    else
      var n := |log| - 1;
      if IsConsultResult(log[n]) then ResultIndices(log[..n]) + [n] else ResultIndices(log[..n])
  }

  /** Each consultation result of the log has its closing event, and the other way round. */
  ghost predicate Indexed(t: Turn) {
    Closings(t.events) == ResultIndices(t.log)
  }

  ghost predicate Inv(t: Turn) {
    Indexed(t) && Accounted(t)
  }

  ghost predicate Accounted(t: Turn) {
    WellBracketed(t.events) && PointsAtResults(t.events, t.log) &&
    t.inputTokens == InputTotal(t.log) && t.outputTokens == OutputTotal(t.log)
  }

  lemma {:induction false} ScanAppend(a: seq<Event>, b: seq<Event>, open: Option<nat>)
    ensures Scan(a + b, open)
         == match Scan(a, open) case None => None case Some(o) => Scan(b, o)
  {
    if a == [] {
      assert a + b == b;
    } else {
      assert (a + b)[0] == a[0] && (a + b)[1..] == a[1..] + b;
      ScanAppend(a[1..], b, None);
      ScanAppend(a[1..], b, if a[0].Started? then Some(a[0].stepIndex) else None);
    }
  }

  lemma {:induction false} TokensAreTokens(events: seq<StreamEvent>)
    ensures forall e | e in Tokens(events) :: e.Token?
  {
    if events != [] { TokensAreTokens(events[..|events| - 1]); }
  }

  lemma {:induction false} TokensScan(tokens: seq<Event>)
    requires forall e | e in tokens :: e.Token?
    ensures WellBracketed(tokens)
  {
    if tokens != [] {
      assert tokens[0] in tokens;
      TokensScan(tokens[1..]);
    }
  }

  lemma BracketsAppend(a: seq<Event>, b: seq<Event>)
    requires WellBracketed(a) && WellBracketed(b)
    ensures WellBracketed(a + b)
  {
    ScanAppend(a, b, None);
  }

  lemma {:induction false} ClosingsAppend(a: seq<Event>, b: seq<Event>)
    ensures Closings(a + b) == Closings(a) + Closings(b)
    decreases |b|
  {
    if b == [] {
      assert a + b == a && Closings(a) + [] == Closings(a);
    } else {
      assert (a + b)[..|a + b| - 1] == a + b[..|b| - 1];
      ClosingsAppend(a, b[..|b| - 1]);
      var before, last := Closings(b[..|b| - 1]), b[|b| - 1];
      if last.Complete? || last.ConsultError? {
        Associative(Closings(a), before, [last.stepIndex]);
      }
    }
  }

  lemma {:induction false} TokensCloseNothing(tokens: seq<Event>)
    requires forall e | e in tokens :: e.Token?
    ensures Closings(tokens) == []
  {
    if tokens != [] {
      TokensCloseNothing(tokens[..|tokens| - 1]);
      assert tokens[|tokens| - 1] in tokens;
    }
  }

  lemma {:induction false} ResultsOneMore(log: seq<Entry>, e: Entry)
    ensures ResultIndices(log + [e]) == if IsConsultResult(e) then ResultIndices(log) + [|log|] else ResultIndices(log)
  {
    assert (log + [e])[..|log|] == log;
  }

  /** The indices are exactly the positions of consultation results, each once, in order. */
  lemma {:induction false} ResultIndicesAre(log: seq<Entry>)
    ensures forall i: nat :: i in ResultIndices(log) <==> i < |log| && IsConsultResult(log[i])
    ensures forall j, k | 0 <= j < k < |ResultIndices(log)| :: ResultIndices(log)[j] < ResultIndices(log)[k]
  {
    if log != [] {
      var n := |log| - 1;
      ResultIndicesAre(log[..n]);
      var before, all := ResultIndices(log[..n]), ResultIndices(log);
      forall i: nat ensures i in all <==> i < |log| && IsConsultResult(log[i]) {
        assert i in all <==> i in before || (i == n && IsConsultResult(log[n]));
        assert i < n ==> log[..n][i] == log[i];
      }
      forall j, k | 0 <= j < k < |all| ensures all[j] < all[k] {
        assert all[j] == before[j] && before[j] in before;
      }
    }
  }

  // ----- a consultation seen from the orchestrator

  lemma {:induction false} DeltasAreSilent(first: seq<ConsultationEvent>, events: seq<StreamEvent>, i: nat)
    ensures EmittedAll(first + Deltas(events), i) == EmittedAll(first, i)
    ensures InputOf(first + Deltas(events)) == InputOf(first) && OutputOf(first + Deltas(events)) == OutputOf(first)
    ensures HearAll(first + Deltas(events)).(fullText := HearAll(first).fullText) == HearAll(first)
    decreases events
  {
    if events == [] {
      assert first + [] == first;
    } else {
      var front, last := events[..|events| - 1], events[|events| - 1];
      DeltasAreSilent(first, front, i);
      if last.TextDelta? {
        Associative(first, Deltas(front), [ConsultationTextDelta(last.text)]);
        hide EmittedAll, HearAll, InputOf, OutputOf;
      } else {
        assert Deltas(front) + [] == Deltas(front);
      }
    }
  }

  /** A consultation emits one closing event, preceded by its start if the specialist exists,
      and the tokens it adds to the totals are the tokens recorded with its result. */
  lemma ConsultationShape(script: Script, i: nat)
    ensures var es := Consultation(script);
            var close := Emitted(es[|es| - 1], i);
            (es[|es| - 1].ConsultationComplete? || es[|es| - 1].ConsultationError?) &&
            EmittedAll(es, i) == (if script.found.Some? then [Started(script.found.value, i)] else []) + close &&
            (script.found == None ==> es[|es| - 1].ConsultationError?) &&
            (HearAll(es).error.Some? <==> es[|es| - 1].ConsultationError?) &&
            (es[|es| - 1].ConsultationComplete? ==>
               es[|es| - 1].inputTokens == HearAll(es).inputTokens &&
               es[|es| - 1].outputTokens == HearAll(es).outputTokens) &&
            InputOf(es) == HearAll(es).inputTokens && OutputOf(es) == HearAll(es).outputTokens
  {
    match script.found {
      case None => FirstHeard(Consultation(script)[0], i);
      case Some(spec) =>
        var first, close := ConsultationStarted(spec), Closing(spec, script.stream);
        FirstHeard(first, i);
        DeltasAreSilent([first], script.stream.events, i);
        hide EmittedAll, HearAll, InputOf, OutputOf, Deltas;
    }
  }

  lemma FirstHeard(e: ConsultationEvent, i: nat)
    ensures EmittedAll([e], i) == Emitted(e, i) && HearAll([e]) == Hear(Heard("", None, 0, 0), e)
    ensures InputOf([e]) == (if e.ConsultationComplete? then e.inputTokens else 0)
    ensures OutputOf([e]) == (if e.ConsultationComplete? then e.outputTokens else 0)
  {
    assert [e][..0] == [];
  }

  /** A start, if any, and the event that closes it. */
  lemma BracketShape(start: seq<Event>, close: Event, i: nat)
    requires close.Complete? || close.ConsultError?
    requires close.stepIndex == i
    requires start == [] ==> close.ConsultError?
    requires start != [] ==> start == [start[0]] && start[0].Started? && start[0].stepIndex == i
    ensures WellBracketed(start + [close]) && Closings(start + [close]) == [i]
  {
    var one, none := [close], [];
    assert one[1..] == none && one[..0] == none;
    assert Scan(none, None) == Some(None) && Scan(one, if start == [] then None else Some(i)) == Some(None);
    if start == [] {
      assert start + one == one;
    } else {
      assert start[1..] == none && start[..|start| - 1] == none;
      assert Scan(start, None) == Some(Some(i)) && start == [start[0]];
      ScanAppend(start, one, None);
      ClosingsAppend(start, one);
    }
  }

  lemma ConsultationEmits(script: Script, i: nat) returns (start: seq<Event>, close: Event)
    ensures EmittedAll(Consultation(script), i) == start + [close]
    ensures (close.Complete? || close.ConsultError?) && close.stepIndex == i
    ensures start == [] ==> close.ConsultError?
    ensures start != [] ==> start == [start[0]] && start[0].Started? && start[0].stepIndex == i
  {
    ConsultationShape(script, i);
    var es := Consultation(script);
    assert es != [];
    hide Consultation, EmittedAll;
    start := if script.found.Some? then [Started(script.found.value, i)] else [];
    close := Emitted(es[|es| - 1], i)[0];
    assert Emitted(es[|es| - 1], i) == [close];
  }

  lemma ConsultationBrackets(script: Script, i: nat)
    ensures WellBracketed(EmittedAll(Consultation(script), i))
    ensures forall e | e in EmittedAll(Consultation(script), i) ::
              (e.Started? || e.Complete? || e.ConsultError?) && e.stepIndex == i
    ensures Closings(EmittedAll(Consultation(script), i)) == [i]
  {
    hide Consultation, EmittedAll, Scan, Closings;
    var start, close := ConsultationEmits(script, i);
    BracketShape(start, close, i);
  }

  // ----- every step keeps the invariant

  lemma UseKeepsIndexed(t: Turn, use: Use, script: Script)
    requires Indexed(t)
    ensures Indexed(DoUse(t, use, script).turn)
  {
    var called := t.log + [CallOf(use)];
    ResultsOneMore(t.log, CallOf(use));
    if use.name != "consult_specialist" {
      ResultsOneMore(called, UnknownEntry(use));
    } else if script.lookupFailure == None {
      var es := Consultation(script);
      ResultsOneMore(called, ResultEntry(use, HearAll(es)));
      ConsultationBrackets(script, |called|);
      ClosingsAppend(t.events, EmittedAll(es, |called|));
    }
    hide Consultation, EmittedAll, HearAll, Closings, ResultIndices;
  }

  lemma UseKeepsInv(t: Turn, use: Use, script: Script)
    requires Inv(t)
    ensures Inv(DoUse(t, use, script).turn)
  {
    hide Indexed, Consultation, EmittedAll, HearAll, InputOf, OutputOf;
    UseKeepsIndexed(t, use, script);
    StepAccounted(t, CallOf(use));
    var called := t.(log := t.log + [CallOf(use)]);
    if use.name != "consult_specialist" {
      StepAccounted(called, UnknownEntry(use));
    } else if script.lookupFailure == None {
      ConsultationAccounted(called, use, script);
    }
    hide Accounted;
  }

  /** A step without tokens or events. */
  lemma StepAccounted(t: Turn, e: Entry)
    requires Accounted(t) && OrZero(e.inputTokens) == OrZero(e.outputTokens) == 0
    ensures Accounted(t.(log := t.log + [e]))
  {
    TotalsOneMore(t.log, e);
    hide InputTotal, OutputTotal, Scan;
  }

  lemma PointsAtMore(events: seq<Event>, log: seq<Entry>, log': seq<Entry>)
    requires PointsAtResults(events, log) && log <= log'
    ensures PointsAtResults(events, log')
  {
    forall e | e in events ensures RefersTo(e, log') {
      assert RefersTo(e, log);
    }
  }

  lemma ConsultationAccounted(t: Turn, use: Use, script: Script)
    requires Accounted(t) && use.name == "consult_specialist"
    ensures var es := Consultation(script);
            Accounted(Turn(t.events + EmittedAll(es, |t.log|), t.log + [ResultEntry(use, HearAll(es))], t.messages,
                           t.inputTokens + InputOf(es), t.outputTokens + OutputOf(es)))
  {
    hide Consultation, EmittedAll, HearAll, InputTotal, OutputTotal, InputOf, OutputOf, Scan, RefersTo;
    var i, es := |t.log|, Consultation(script);
    var entry := ResultEntry(use, HearAll(es));
    TotalsOneMore(t.log, entry);
    PointsAtMore(t.events, t.log, t.log + [entry]);
    ConsultationShape(script, i);
    ConsultationBrackets(script, i);
    BracketsAppend(t.events, EmittedAll(es, i));
    ResultIsReferredTo(t.log, use, script);
  }

  lemma {:induction false} ResultIsReferredTo(log: seq<Entry>, use: Use, script: Script)
    requires use.name == "consult_specialist"
    ensures var es := Consultation(script);
            PointsAtResults(EmittedAll(es, |log|), log + [ResultEntry(use, HearAll(es))])
  {
    hide EmittedAll, HearAll, RefersTo;
    ConsultationShape(script, |log|);
    var es := Consultation(script);
    assert es != [];
    hide Consultation;
    RefersToResult(log, use, HearAll(es), es[|es| - 1], script.found);
  }

  lemma RefersToResult(log: seq<Entry>, use: Use, h: Heard, last: ConsultationEvent, found: Option<Specialist>)
    requires use.name == "consult_specialist" && (h.error.Some? <==> last.ConsultationError?)
    requires last.ConsultationComplete? || last.ConsultationError?
    requires last.ConsultationComplete? ==> last.inputTokens == h.inputTokens && last.outputTokens == h.outputTokens
    ensures var started := if found.Some? then [Started(found.value, |log|)] else [];
            PointsAtResults(started + Emitted(last, |log|), log + [ResultEntry(use, h)])
  {
    hide ResultText, ErrorClass;
    var log' := log + [ResultEntry(use, h)];
    assert log'[|log|] == ResultEntry(use, h);
    var close := Emitted(last, |log|);
    assert RefersTo(close[0], log');
    if found.Some? { assert RefersTo(Started(found.value, |log|), log'); }
  }

  lemma {:induction false} UsesKeepInv(t: Turn, uses: seq<Use>, scripts: nat -> Script, k: nat)
    requires Inv(t)
    ensures Inv(DoUses(t, uses, scripts, k).turn)
    decreases uses
  {
    hide DoUse, Inv;
    if uses != [] {
      UseKeepsInv(t, uses[0], scripts(k));
      UsesKeepInv(DoUse(t, uses[0], scripts(k)).turn, uses[1..], scripts, k + 1);
    }
  }

  lemma {:induction false} CallKeepsInv(t: Turn, events: seq<StreamEvent>, defaultModel: string)
    requires Inv(t)
    ensures Inv(AfterCall(t, events, defaultModel))
    ensures Inv(t.(events := t.events + Tokens(events)))
  {
    TokensAreTokens(events);
    TokensScan(Tokens(events));
    BracketsAppend(t.events, Tokens(events));
    CallKeepsIndexed(t, events, defaultModel);
    var entry := CallStep(t, Summary(events, defaultModel), StreamUses(events));
    hide Tokens, StreamUses, Completed, Scan, Indexed;
    TotalsOneMore(t.log, entry);
  }

  lemma {:induction false} CallKeepsIndexed(t: Turn, events: seq<StreamEvent>, defaultModel: string)
    requires Indexed(t)
    ensures Indexed(AfterCall(t, events, defaultModel))
    ensures Indexed(t.(events := t.events + Tokens(events)))
  {
    TokensAreTokens(events);
    TokensCloseNothing(Tokens(events));
    ClosingsAppend(t.events, Tokens(events));
    ResultsOneMore(t.log, CallStep(t, Summary(events, defaultModel), StreamUses(events)));
    hide Closings, ResultIndices, Tokens, StreamUses, Completed;
    assert Closings(t.events) + [] == Closings(t.events);
  }

  lemma RoundKeepsInv(t: Turn, round: Round, defaultModel: string)
    requires Inv(t)
    ensures Inv(DoRound(t, round, defaultModel).0)
  {
    var events := round.stream.events;
    CallKeepsInv(t, events, defaultModel);
    var called := AfterCall(t, events, defaultModel);
    var blocks := ResponseBlocks(Summary(events, defaultModel).fullText, StreamUses(events));
    var asked := called.(messages := called.messages + [Assistant(blocks)]);
    UsesKeepInv(asked, StreamUses(events), round.scripts, 0);
    hide DoUses, Tokens, StreamUses, Completed, Scan, InputTotal, OutputTotal;
  }

  lemma {:induction false} RoundsKeepInv(t: Turn, rounds: seq<Round>, defaultModel: string)
    requires Inv(t)
    ensures Inv(DoRounds(t, rounds, defaultModel).0)
    decreases rounds
  {
    hide DoRound, Inv;
    if rounds != [] {
      RoundKeepsInv(t, rounds[0], defaultModel);
      RoundsKeepInv(DoRound(t, rounds[0], defaultModel).0, rounds[1..], defaultModel);
    }
  }

  /** Every turn, over any number of rounds: consultations are bracketed, the n-th to be closed
      points at the n-th consultation result of the log (as does its start) with the same
      outcome and tokens, no result is left without events, the totals are the trace's, and the
      turn's end shows as exactly one final `done` (with those totals) or `error`. */
  lemma TurnIsWellFormed(history: seq<Message>, rounds: seq<Round>, defaultModel: string)
    ensures var (t, phase) := DoRounds(Turn([], [], history, 0, 0), rounds, defaultModel);
            WellBracketed(t.events) && PointsAtResults(t.events, t.log) &&
            Closings(t.events) == ResultIndices(t.log) &&
            (forall i: nat :: i in Closings(t.events) <==> i < |t.log| && IsConsultResult(t.log[i])) &&
            (forall j, k | 0 <= j < k < |Closings(t.events)| :: Closings(t.events)[j] < Closings(t.events)[k]) &&
            (forall e | e in t.events :: !e.Done? && !e.Error?) &&
            Farewell(t, phase) == (match phase
                                   case Running => []
                                   case Finished(None) => [Done(InputTotal(t.log), OutputTotal(t.log))]
                                   case Finished(Some(error)) => [Error(error.text)])
  {
    var start := Turn([], [], history, 0, 0);
    assert Inv(start);
    RoundsKeepInv(start, rounds, defaultModel);
    NothingEnded(DoRounds(start, rounds, defaultModel).0.events, None);
    ResultIndicesAre(DoRounds(start, rounds, defaultModel).0.log);
  }

  lemma {:induction false} NothingEnded(events: seq<Event>, open: Option<nat>)
    requires Scan(events, open).Some?
    ensures forall e | e in events :: !e.Done? && !e.Error?
    decreases events
  {
    if events != [] {
      NothingEnded(events[1..], if events[0].Started? then Some(events[0].stepIndex) else None);
      assert events == [events[0]] + events[1..];
    }
  }
}
