/** What a chat turn says: the streamed text, the specialists' answers, how a turn ends. */
module ChatContent {
  import opened Wrappers
  import opened Strings
  import opened Trace
  import opened Engine
  import opened Chat

  // ----- what a stream holds, item by item

  /** The texts of the deltas, in order. */
  function DeltaTexts(stream: seq<StreamEvent>): seq<string> {
    if stream == [] then []
    else (if stream[0].TextDelta? then [stream[0].text] else []) + DeltaTexts(stream[1..])
  }

  function UsesIn(stream: seq<StreamEvent>): seq<Use> {
    if stream == [] then []
    else (if stream[0].ToolUseBlock? then [stream[0].use] else []) + UsesIn(stream[1..])
  }

  function Joined(texts: seq<string>): string {
    if texts == [] then "" else texts[0] + Joined(texts[1..])
  }

  /** The texts of the token events, in order. */
  function TokenTexts(events: seq<Event>): seq<string> {
    if events == [] then []
    else (if events[0].Token? then [events[0].text] else []) + TokenTexts(events[1..])
  }

  /** The k-th item is the stream's last completion event. */
  predicate LastCompletion(stream: seq<StreamEvent>, k: int) {
    0 <= k < |stream| && stream[k].Completion? && forall j | k < j < |stream| :: !stream[j].Completion?
  }

  lemma {:induction false} DeltaTextsAppend(a: seq<StreamEvent>, b: seq<StreamEvent>)
    ensures DeltaTexts(a + b) == DeltaTexts(a) + DeltaTexts(b)
    ensures UsesIn(a + b) == UsesIn(a) + UsesIn(b)
  {
    if a == [] {
      assert a + b == b;
    } else {
      assert (a + b)[0] == a[0] && (a + b)[1..] == a[1..] + b;
      DeltaTextsAppend(a[1..], b);
      Associative(if a[0].TextDelta? then [a[0].text] else [], DeltaTexts(a[1..]), DeltaTexts(b));
      Associative(if a[0].ToolUseBlock? then [a[0].use] else [], UsesIn(a[1..]), UsesIn(b));
    }
  }

  lemma {:induction false} TokenTextsAppend(a: seq<Event>, b: seq<Event>)
    ensures TokenTexts(a + b) == TokenTexts(a) + TokenTexts(b)
  {
    if a == [] {
      assert a + b == b;
    } else {
      assert (a + b)[0] == a[0] && (a + b)[1..] == a[1..] + b;
      TokenTextsAppend(a[1..], b);
    }
  }

  lemma {:induction false} JoinedAppend(a: seq<string>, b: seq<string>)
    ensures Joined(a + b) == Joined(a) + Joined(b)
  {
    if a == [] {
      assert a + b == b;
    } else {
      assert (a + b)[0] == a[0] && (a + b)[1..] == a[1..] + b;
      JoinedAppend(a[1..], b);
    }
  }

  /** What the loops over a stream gather: token events, text, tool uses. */
  lemma {:induction false} StreamTells(stream: seq<StreamEvent>)
    ensures TokenTexts(Tokens(stream)) == DeltaTexts(stream) && StreamUses(stream) == UsesIn(stream)
    ensures Assembled(stream) == Joined(DeltaTexts(stream))
  {
    hide TokenTexts, DeltaTexts, UsesIn, Joined;
    if stream == [] {
      EmptyStreamTells();
    } else {
      var n := |stream| - 1;
      var front, last := stream[..n], stream[n];
      StreamTells(front);
      assert stream == front + [last];
      DeltaTextsAppend(front, [last]);
      JoinedAppend(DeltaTexts(front), DeltaTexts([last]));
      OneTells(last);
      if last.TextDelta? {
        TokenTextsAppend(Tokens(front), [Token(last.text)]);
      } else {
        assert Tokens(front) + [] == Tokens(front) && DeltaTexts(front) + [] == DeltaTexts(front);
      }
    }
  }

  lemma EmptyStreamTells()
    ensures TokenTexts([]) == [] && DeltaTexts([]) == [] && UsesIn([]) == [] && Joined([]) == ""
  {
  }

  lemma OneTells(e: StreamEvent)
    ensures DeltaTexts([e]) == if e.TextDelta? then [e.text] else []
    ensures UsesIn([e]) == if e.ToolUseBlock? then [e.use] else []
    ensures Joined(DeltaTexts([e])) == DeltaOf(e)
    ensures e.TextDelta? ==> TokenTexts([Token(e.text)]) == [e.text]
  {
    assert [e][1..] == [];
    if e.TextDelta? {
      assert [e.text][1..] == [] && [Token(e.text)][1..] == [];
    }
  }

  /** And the last completion event. */
  lemma {:induction false} CompletionTells(stream: seq<StreamEvent>)
    ensures forall k | LastCompletion(stream, k) :: Completed(stream) == Some(stream[k])
    ensures (forall k | 0 <= k < |stream| :: !stream[k].Completion?) ==> Completed(stream) == None
  {
    if stream != [] && !stream[|stream| - 1].Completion? {
      var front := stream[..|stream| - 1];
      CompletionTells(front);
      forall k | LastCompletion(stream, k) ensures Completed(stream) == Some(stream[k]) {
        assert LastCompletion(front, k) && front[k] == stream[k];
      }
    }
  }

  // ----- a consultation's outcome

  /** How a consultation that was started closes: with the error that cut its stream off and the
      text so far; or with text and tokens of the last completion event, or, if there was none,
      with the streamed text. */
  lemma ClosingTells(spec: Specialist, stream: Stream)
    ensures match stream.failure
            case Some(error) =>
              Closing(spec, stream) ==
              ConsultationError(spec.name, error.text, Some(spec), Joined(DeltaTexts(stream.events)))
            case None =>
              var c := Closing(spec, stream);
              c.ConsultationComplete? && c.name == spec.name &&
              (forall k | LastCompletion(stream.events, k) ::
                 c.fullText == stream.events[k].fullText && c.inputTokens == stream.events[k].inputTokens &&
                 c.outputTokens == stream.events[k].outputTokens) &&
              ((forall k | 0 <= k < |stream.events| :: !stream.events[k].Completion?) ==>
                 c.fullText == Joined(DeltaTexts(stream.events)) && c.inputTokens == c.outputTokens == 0)
  {
    hide Completed, DeltaTexts, Joined, Assembled;
    StreamTells(stream.events);
    CompletionTells(stream.events);
  }

  lemma {:induction false} HeardLast(es: seq<ConsultationEvent>, last: ConsultationEvent)
    requires forall e | e in es :: e.ConsultationStarted? || e.ConsultationTextDelta?
    ensures HearAll(es).error == None && HearAll(es).inputTokens == HearAll(es).outputTokens == 0
    ensures HearAll(es + [last]) == Hear(HearAll(es), last)
  {
    assert (es + [last])[..|es|] == es;
    if es != [] {
      HeardLast(es[..|es| - 1], es[|es| - 1]);
      assert es[..|es| - 1] + [es[|es| - 1]] == es;
      assert es[|es| - 1] in es;
    }
  }

  lemma {:induction false} DeltasAreDeltas(stream: seq<StreamEvent>)
    ensures forall e | e in Deltas(stream) :: e.ConsultationTextDelta?
  {
    if stream != [] {
      DeltasAreDeltas(stream[..|stream| - 1]);
    }
  }

  /** What the model is answered: the specialist's text, or that the consultation failed and why;
      marked as an error exactly in that case.  The recorded result says the same. */
  lemma AnswerTells(t: Turn, use: Use, script: Script)
    requires use.name == "consult_specialist" && script.lookupFailure == None
    ensures var used, n := DoUse(t, use, script), |t.log|;
            used.answer.Some? && used.answer.value.toolUseId == use.id && |used.turn.log| == n + 2 &&
            used.turn.log[n].content == ToolCall(use.name, use.id, use.input) &&
            var answer, recorded := used.answer.value, used.turn.log[n + 1].content;
            recorded.ToolResult? && recorded.toolUseId == use.id && recorded.result == answer.content &&
            recorded.isError == answer.isError && (answer.isError <==> recorded.errorClass.Some?) &&
            match script.found
            case None => answer == ResultBlock(use.id, Failed(Unregistered(script.asked)), true)
            case Some(spec) =>
              match Closing(spec, script.stream)
              case ConsultationComplete(_, text, _, _) => answer == ResultBlock(use.id, text, false)
              case ConsultationError(_, error, _, _) => answer == ResultBlock(use.id, Failed(error), true)
              case _ => false
  {
    var es := Consultation(script);
    match script.found {
      case None =>
        HeardLast([], es[0]);
        assert [] + [es[0]] == es;
      case Some(spec) =>
        var front := [ConsultationStarted(spec)] + Deltas(script.stream.events);
        DeltasAreDeltas(script.stream.events);
        HeardLast(front, Closing(spec, script.stream));
        assert front + [Closing(spec, script.stream)] == es;
    }
    hide HearAll, Deltas, EmittedAll, InputOf, OutputOf;
  }

  /** The class recorded with a failed consultation: what its error says before the first colon. */
  lemma {:induction false} ErrorClassTells(error: string)
    ensures var c := ErrorClass(error);
            c <= error && ':' !in c && (c == error || error[|c|] == ':')
  {
    if error != "" && error[0] != ':' {
      ErrorClassTells(error[1..]);
    }
  }

  /** A call of any other tool is answered and recorded as an error that names the tool. */
  lemma UnknownToolTells(t: Turn, use: Use, script: Script)
    requires use.name != "consult_specialist"
    ensures var used, n := DoUse(t, use, script), |t.log|;
            used.answer == Some(ResultBlock(use.id, "Unknown tool: " + use.name, true)) && used.failure == None &&
            |used.turn.log| == n + 2 && used.turn.log[n].content == ToolCall(use.name, use.id, use.input) &&
            used.turn.log[n + 1].content ==
              ToolResult(use.name, use.id, used.answer.value.content, true, Some("UnknownTool")) &&
            used.turn.events == t.events
  {
  }

  function Failed(error: string): string {
    "Consultation failed: " + error + ". Proceed without this specialist or try a different approach."
  }

  // ----- rounds and turns

  /** The user is sent the text that the model streams, round by round. */
  lemma RoundStreams(t: Turn, round: Round, defaultModel: string)
    ensures TokenTexts(DoRound(t, round, defaultModel).0.events)
         == TokenTexts(t.events) + DeltaTexts(round.stream.events)
  {
    var stream := round.stream.events;
    StreamTells(stream);
    TokenTextsAppend(t.events, Tokens(stream));
    var called := AfterCall(t, stream, defaultModel);
    var blocks := ResponseBlocks(Summary(stream, defaultModel).fullText, StreamUses(stream));
    UsesStreamNothing(called.(messages := called.messages + [Assistant(blocks)]), StreamUses(stream), round.scripts, 0);
    hide DoUses, TokenTexts, DeltaTexts, Tokens, Completed, StreamUses;
  }

  lemma {:induction false} UsesStreamNothing(t: Turn, uses: seq<Use>, scripts: nat -> Script, k: nat)
    ensures TokenTexts(DoUses(t, uses, scripts, k).turn.events) == TokenTexts(t.events)
    decreases uses
  {
    hide DoUse, TokenTexts;
    if uses != [] {
      UseStreamsNothing(t, uses[0], scripts(k));
      UsesStreamNothing(DoUse(t, uses[0], scripts(k)).turn, uses[1..], scripts, k + 1);
    }
  }

  lemma UseStreamsNothing(t: Turn, use: Use, script: Script)
    ensures TokenTexts(DoUse(t, use, script).turn.events) == TokenTexts(t.events)
  {
    hide Consultation, HearAll, InputOf, OutputOf;
    EmittedHasNoTokens(Consultation(script), |t.log| + 1);
    TokenTextsAppend(t.events, EmittedAll(Consultation(script), |t.log| + 1));
  }

  lemma {:induction false} EmittedHasNoTokens(es: seq<ConsultationEvent>, i: nat)
    ensures TokenTexts(EmittedAll(es, i)) == []
  {
    if es != [] {
      var front, last := es[..|es| - 1], es[|es| - 1];
      EmittedHasNoTokens(front, i);
      TokenTextsAppend(EmittedAll(front, i), Emitted(last, i));
      assert Emitted(last, i) != [] ==> Emitted(last, i)[1..] == [];
    }
  }

  function AllTexts(rounds: seq<Round>): seq<string> {
    if rounds == [] then [] else DeltaTexts(rounds[0].stream.events) + AllTexts(rounds[1..])
  }

  /** How many of the rounds the turn comes to. */
  function Played(t: Turn, rounds: seq<Round>, defaultModel: string): (n: nat)
    ensures n <= |rounds|
    decreases rounds
  {
    if rounds == [] then 0
    else
      var (t', phase) := DoRound(t, rounds[0], defaultModel);
      1 + if phase.Finished? then 0 else Played(t', rounds[1..], defaultModel)
  }

  /** Over a whole turn: the token events spell what the rounds that were played have streamed;
      these are all rounds, unless the turn is over before. */
  lemma {:induction false} TurnStreams(t: Turn, rounds: seq<Round>, defaultModel: string)
    ensures var n := Played(t, rounds, defaultModel);
            var (t', phase) := DoRounds(t, rounds, defaultModel);
            (phase.Running? ==> n == |rounds|) &&
            TokenTexts(t'.events) == TokenTexts(t.events) + AllTexts(rounds[..n])
    decreases rounds
  {
    hide DoRound, TokenTexts, DeltaTexts;
    if rounds != [] {
      RoundStreams(t, rounds[0], defaultModel);
      var (t', phase) := DoRound(t, rounds[0], defaultModel);
      assert rounds[..1][1..] == [] && AllTexts([]) == [];
      if phase.Running? {
        TurnStreams(t', rounds[1..], defaultModel);
        var m := Played(t', rounds[1..], defaultModel);
        assert rounds[..m + 1][1..] == rounds[1..][..m];
      }
    }
  }

  /** What a round records of its model call: the text and the uses of the reply, and the stop
      reason and tokens of its last completion event. */
  lemma CallTells(t: Turn, stream: seq<StreamEvent>, defaultModel: string, k: int)
    requires LastCompletion(stream, k)
    ensures var after := AfterCall(t, stream, defaultModel);
            |after.log| == |t.log| + 1 &&
            var step, c := after.log[|t.log|], stream[k];
            step.content.ModelCall? && step.content.request == t.messages && step.content.stopReason == c.stopReason &&
            UsesOf(step.content.response) == UsesIn(stream) && FinalText(step.content.response) == c.fullText &&
            step.inputTokens == Some(c.inputTokens) && step.outputTokens == Some(c.outputTokens) &&
            after.inputTokens == t.inputTokens + c.inputTokens && after.outputTokens == t.outputTokens + c.outputTokens
  {
    hide Tokens, Completed, StreamUses, UsesIn, FinalText, UsesOf, ResponseBlocks, TokenTexts, DeltaTexts;
    StreamTells(stream);
    CompletionTells(stream);
    ResponseTells(stream[k].fullText, StreamUses(stream));
  }

  /** A turn ends well after a round if and only if its stream was not cut off and its last
      completion event, if any, does not stop for tool uses, or there are none. */
  lemma RoundEndsIff(t: Turn, round: Round, defaultModel: string)
    ensures var stream := round.stream.events;
            DoRound(t, round, defaultModel).1 == Finished(None) <==>
              (round.stream.failure == None &&
               (UsesIn(stream) == [] ||
                !exists k :: LastCompletion(stream, k) && stream[k].stopReason == "tool_use"))
  {
    hide Tokens, Completed, StreamUses, UsesIn, ResponseBlocks, DoUses;
    var stream := round.stream.events;
    StreamTells(stream);
    CompletionTells(stream);
    if k :| 0 <= k < |stream| && stream[k].Completion? {
      HasLast(stream, k);
    }
  }

  lemma {:induction false} HasLast(stream: seq<StreamEvent>, k: nat)
    requires k < |stream| && stream[k].Completion?
    ensures exists j :: LastCompletion(stream, j)
    decreases |stream| - k
  {
    if j :| k < j < |stream| && stream[j].Completion? {
      HasLast(stream, j);
    } else {
      assert LastCompletion(stream, k);
    }
  }

  lemma ResponseTells(fullText: string, uses: seq<Use>)
    ensures UsesOf(ResponseBlocks(fullText, uses)) == uses && FinalText(ResponseBlocks(fullText, uses)) == fullText
  {
    BlocksTell(uses);
    var rest := AsBlocks(uses);
    if fullText == "" {
      assert [] + rest == rest;
    } else {
      assert ([TextBlock(fullText)] + rest)[1..] == rest;
    }
  }

  lemma {:induction false} BlocksTell(uses: seq<Use>)
    ensures UsesOf(AsBlocks(uses)) == uses && FinalText(AsBlocks(uses)) == ""
  {
    if uses != [] {
      BlocksTell(uses[1..]);
      assert AsBlocks(uses)[1..] == AsBlocks(uses[1..]);
    }
  }

  /** A turn's trace ends as failed if and only if something failed, and says what kind. */
  lemma StatusTells(failure: Option<Failure>)
    ensures var (status, reason) := StatusFor(failure);
            (failure.Some? <==> status == "failed") && (failure == None <==> status == "completed") &&
            (failure == None <==> reason == None) &&
            (failure.Some? ==> (failure.value.fromConnector <==> reason == Some("connector_error")))
  {
    assert "failed"[0] != "completed"[0] && "connector_error"[0] != "unexpected_error"[0];
  }
}
