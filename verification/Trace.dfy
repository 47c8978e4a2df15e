/** The persisted trace of an agent run: an append-only step log with running totals. */
module Trace {
  import opened Wrappers

  /** Content blocks of a model response, as the loops look at them. */
  datatype Block = TextBlock(text: string) | ToolUse(id: string, name: string, input: string) | OtherBlock(n: int)

  datatype ResultBlock = ResultBlock(toolUseId: string, content: string, isError: bool)

  datatype Message =
    | Prior(n: int)                            // history, primer messages and the goal
    | Assistant(content: seq<Block>)
    | ToolResults(results: seq<ResultBlock>)

  /** What a step records. */
  datatype Content =
    | ModelCall(request: seq<Message>, response: seq<Block>, stopReason: string)
    | ToolCall(name: string, toolUseId: string, input: string)
    | ToolResult(name: string, toolUseId: string, result: string, isError: bool, errorClass: Option<string>)
    | ErrorStep(message: string, errorClass: Option<string>)

  datatype Entry = Entry(content: Content, inputTokens: Option<int>, outputTokens: Option<int>, costCents: int)

  datatype Step = Step(index: nat, entry: Entry)

  /** `tokens or 0` */
  function OrZero(tokens: Option<int>): int {
    match tokens case None => 0 case Some(n) => n
  }

  function InputTotal(log: seq<Entry>): int {
    if log == [] then 0 else InputTotal(log[..|log| - 1]) + OrZero(log[|log| - 1].inputTokens)
  }

  function OutputTotal(log: seq<Entry>): int {
    if log == [] then 0 else OutputTotal(log[..|log| - 1]) + OrZero(log[|log| - 1].outputTokens)
  }

  function CostTotal(log: seq<Entry>): int {
    if log == [] then 0 else CostTotal(log[..|log| - 1]) + log[|log| - 1].costCents
  }

  lemma TotalsOneMore(log: seq<Entry>, e: Entry)
    ensures InputTotal(log + [e]) == InputTotal(log) + OrZero(e.inputTokens)
    ensures OutputTotal(log + [e]) == OutputTotal(log) + OrZero(e.outputTokens)
    ensures CostTotal(log + [e]) == CostTotal(log) + e.costCents
  {
    assert (log + [e])[..|log|] == log;
  }

  function EntriesOf(steps: seq<Step>): seq<Entry> {
    seq(|steps|, i requires 0 <= i < |steps| => steps[i].entry)
  }

  datatype TraceRow = TraceRow(status: string, completionReason: Option<string>, totalInputTokens: int,
                               totalOutputTokens: int, totalCostCents: int, numSteps: int)

  const RUNNING := "running"

  /** One writer per run, with the rows it has written. */
  class AgentTraceWriter {
    var trace: Option<TraceRow>   // `None` until `start_trace`
    var steps: seq<Step>
    var nextStepIndex: nat

    /** Step indices are 0..num_steps-1 in order, and the row's totals are the sums over the
        steps: at every point of a run, not only at its end. */
    ghost predicate Consistent()
      reads this
    {
      nextStepIndex == |steps| &&
      (forall i | 0 <= i < |steps| :: steps[i].index == i) &&
      (trace == None ==> steps == []) &&
      (trace.Some? ==>
         trace.value.numSteps == |steps| &&
         trace.value.totalInputTokens == InputTotal(Log()) &&
         trace.value.totalOutputTokens == OutputTotal(Log()) &&
         trace.value.totalCostCents == CostTotal(Log()))
    }

    ghost function Log(): seq<Entry>
      reads this
    {
      EntriesOf(steps)
    }

    constructor ()
      ensures Consistent() && trace == None && Log() == []
    {
      trace := None;
      steps := [];
      nextStepIndex := 0;
    }

    method StartTrace()
      requires Consistent() && trace == None
      modifies this
      ensures Consistent() && Log() == [] && trace.Some? && trace.value.status == RUNNING
    {
      trace := Some(TraceRow(RUNNING, None, 0, 0, 0, 0));
    }

    /** The shared insert path; `false` stands for `TraceNotStartedError`. */
    method InsertStep(e: Entry) returns (ok: bool)
      requires Consistent()
      modifies this
      ensures Consistent() && ok == old(trace).Some?
      ensures !ok ==> trace == old(trace) && steps == old(steps)
      ensures ok ==> trace.Some? && Log() == old(Log()) + [e]
      ensures ok ==> trace.value.status == old(trace).value.status
                     && trace.value.completionReason == old(trace).value.completionReason
    {
      if trace == None {
        return false;
      }
      TotalsOneMore(Log(), e);
      steps := steps + [Step(nextStepIndex, e)];
      assert Log() == old(Log()) + [e];
      var row := trace.value;
      trace := Some(row.(totalInputTokens := row.totalInputTokens + OrZero(e.inputTokens),
                         totalOutputTokens := row.totalOutputTokens + OrZero(e.outputTokens),
                         totalCostCents := row.totalCostCents + e.costCents,
                         numSteps := row.numSteps + 1));
      nextStepIndex := nextStepIndex + 1;
      return true;
    }

    /** Ends a running trace; on an ended one it changes nothing. */
    method FinishTrace(status: string, completionReason: Option<string>) returns (ok: bool)
      requires Consistent()
      modifies this
      ensures Consistent() && ok == old(trace).Some? && Log() == old(Log())
      ensures ok && old(trace).value.status == RUNNING ==>
                trace == Some(old(trace).value.(status := status, completionReason := completionReason))
      ensures !(ok && old(trace).value.status == RUNNING) ==> trace == old(trace)
    {
      if trace == None {
        return false;
      }
      if trace.value.status == RUNNING {
        trace := Some(trace.value.(status := status, completionReason := completionReason));
      }
      return true;
    }
  }
}
