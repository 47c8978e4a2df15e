/** The transcript of a chat turn: which tool uses are answered, and by what.

    The messages of a turn are what the next model call is sent, and a model refuses a transcript
    in which a message with tool uses is not followed by one that answers them, each exactly once
    and in order.  The main result says exactly when the turn's transcript is paired in that way:
    if and only if no tool use has raised.  A turn that ends well, one that is still running and
    one whose stream was cut off are paired; one whose tool use raised ends with a message that
    nothing answers, and is not continued. */
module ChatTranscript {
  import opened Wrappers
  import opened Trace
  import opened Engine
  import opened Chat

  lemma {:induction false} UsesAnswered(t: Turn, uses: seq<Use>, scripts: nat -> Script, k: nat)
    ensures DoUses(t, uses, scripts, k).turn.messages == t.messages
    ensures DoUses(t, uses, scripts, k).failure == None ==>
              ResultIds(DoUses(t, uses, scripts, k).answers) == UseIds(uses)
    decreases uses
  {
    hide DoUse;
    if uses != [] {
      var used := DoUse(t, uses[0], scripts(k));
      OneAnswer(t, uses[0], scripts(k));
      UsesAnswered(used.turn, uses[1..], scripts, k + 1);
      assert UseIds(uses) == [uses[0].id] + UseIds(uses[1..]);
      assert forall b: ResultBlock, rest :: ResultIds([b] + rest) == [b.toolUseId] + ResultIds(rest);
    }
  }

  /** One use is answered, unless it asks for a specialist and looking that up fails. */
  lemma OneAnswer(t: Turn, use: Use, script: Script)
    ensures var used := DoUse(t, use, script);
            used.turn.messages == t.messages && (used.answer == None <==> used.failure.Some?) &&
            (used.answer.Some? ==> used.answer.value.toolUseId == use.id) &&
            (used.failure.Some? <==> use.name == "consult_specialist" && script.lookupFailure.Some?)
  {
  }

  lemma {:induction false} UsesOfBlocks(uses: seq<Use>)
    ensures UsesOf(AsBlocks(uses)) == uses
  {
    if uses != [] { UsesOfBlocks(uses[1..]); }
  }

  lemma UsesOfResponse(fullText: string, uses: seq<Use>)
    ensures UsesOf(ResponseBlocks(fullText, uses)) == uses
  {
    UsesOfBlocks(uses);
    if fullText == "" {
      assert [] + AsBlocks(uses) == AsBlocks(uses);
    } else {
      assert ([TextBlock(fullText)] + AsBlocks(uses))[1..] == AsBlocks(uses);
    }
  }

  lemma RoundPaired(t: Turn, round: Round, defaultModel: string, history: seq<Message>)
    requires history <= t.messages && Paired(t.messages[|history|..])
    requires DoRound(t, round, defaultModel).1.Running?
    ensures var t' := DoRound(t, round, defaultModel).0;
            history <= t'.messages && Paired(t'.messages[|history|..])
  {
    hide DoUses, Paired, Completed, StreamUses, Tokens;
    var events := round.stream.events;
    var uses := StreamUses(events);
    var called := AfterCall(t, events, defaultModel);
    var blocks := ResponseBlocks(Summary(events, defaultModel).fullText, uses);
    var asked := called.(messages := called.messages + [Assistant(blocks)]);
    var used := DoUses(asked, uses, round.scripts, 0);
    UsesAnswered(asked, uses, round.scripts, 0);
    UsesOfResponse(Summary(events, defaultModel).fullText, uses);
    var x, y := Assistant(blocks), ToolResults(used.answers);
    var turns := t.messages[|history|..];
    PairedAppend(turns, x, y);
    var t' := DoRound(t, round, defaultModel).0;
    assert t'.messages == t.messages + [x] + [y];
    assert t'.messages[|history|..] == turns + [x, y];
  }

  /** Looking the k-th tool use's specialist up fails. */
  predicate LookupFails(uses: seq<Use>, scripts: nat -> Script, first: nat, k: nat) {
    k < |uses| && uses[k].name == "consult_specialist" && scripts(first + k).lookupFailure.Some?
  }

  lemma {:induction false} UsesFailIff(t: Turn, uses: seq<Use>, scripts: nat -> Script, first: nat)
    ensures DoUses(t, uses, scripts, first).failure.Some? <==> exists k: nat :: LookupFails(uses, scripts, first, k)
    decreases uses
  {
    hide DoUse;
    if uses != [] {
      var used := DoUse(t, uses[0], scripts(first));
      OneAnswer(t, uses[0], scripts(first));
      assert used.failure.Some? <==> LookupFails(uses, scripts, first, 0);
      var rest, second := uses[1..], first + 1;
      UsesFailIff(used.turn, rest, scripts, second);
      assert forall k: nat | LookupFails(rest, scripts, second, k) :: LookupFails(uses, scripts, first, k + 1);
      assert forall k: nat | k > 0 && LookupFails(uses, scripts, first, k) :: LookupFails(rest, scripts, second, k - 1);
    }
  }

  /** The round's stream asked for tools, and handling one of them raises. */
  ghost predicate FailsInsideAUse(round: Round, defaultModel: string) {
    round.stream.failure == None && !EndsTurn(round.stream.events, defaultModel) &&
    exists k: nat :: LookupFails(StreamUses(round.stream.events), round.scripts, 0, k)
  }

  /** The round is answered in full and another one follows. */
  ghost predicate RunsOn(round: Round, defaultModel: string) {
    round.stream.failure == None && !EndsTurn(round.stream.events, defaultModel) &&
    !FailsInsideAUse(round, defaultModel)
  }

  /** Some round that the turn comes to fails inside a tool use. */
  ghost predicate StoppedInsideAUse(rounds: seq<Round>, defaultModel: string) {
    exists i | 0 <= i < |rounds| ::
      FailsInsideAUse(rounds[i], defaultModel) && forall j | 0 <= j < i :: RunsOn(rounds[j], defaultModel)
  }

  lemma StoppedStep(rounds: seq<Round>, defaultModel: string)
    requires rounds != []
    ensures StoppedInsideAUse(rounds, defaultModel) <==>
              FailsInsideAUse(rounds[0], defaultModel) ||
              (RunsOn(rounds[0], defaultModel) && StoppedInsideAUse(rounds[1..], defaultModel))
  {
    hide FailsInsideAUse, RunsOn;
    var rest := rounds[1..];
    assert forall j | 0 <= j < |rest| :: rest[j] == rounds[j + 1];
    assert forall j | 1 <= j < |rounds| :: rounds[j] == rest[j - 1];
    if i :| 0 <= i < |rest| && FailsInsideAUse(rest[i], defaultModel) &&
            (forall j | 0 <= j < i :: RunsOn(rest[j], defaultModel)) && RunsOn(rounds[0], defaultModel) {
      assert FailsInsideAUse(rounds[i + 1], defaultModel);
      assert forall j | 0 <= j < i + 1 :: RunsOn(rounds[j], defaultModel);
    }
    if i :| 0 < i < |rounds| && FailsInsideAUse(rounds[i], defaultModel) &&
            forall j | 0 <= j < i :: RunsOn(rounds[j], defaultModel) {
      assert FailsInsideAUse(rest[i - 1], defaultModel);
      assert forall j | 0 <= j < i - 1 :: RunsOn(rest[j], defaultModel);
    }
  }

  lemma {:induction false} PairedIsEven(messages: seq<Message>)
    requires Paired(messages)
    ensures |messages| % 2 == 0
    decreases |messages|
  {
    if messages != [] {
      PairedIsEven(messages[2..]);
    }
  }

  /** How a round ends, and what it does to the transcript when it is not answered in full. */
  lemma RoundPhase(t: Turn, round: Round, defaultModel: string)
    ensures var (t', phase) := DoRound(t, round, defaultModel);
            (phase.Running? <==> RunsOn(round, defaultModel)) &&
            (FailsInsideAUse(round, defaultModel) ==>
               phase.Finished? && phase.failure.Some? && |t'.messages| == |t.messages| + 1 &&
               t.messages <= t'.messages) &&
            (!FailsInsideAUse(round, defaultModel) && !RunsOn(round, defaultModel) ==> t'.messages == t.messages)
  {
    var events := round.stream.events;
    var uses, called := StreamUses(events), AfterCall(t, events, defaultModel);
    var blocks := ResponseBlocks(Summary(events, defaultModel).fullText, uses);
    var asked := called.(messages := called.messages + [Assistant(blocks)]);
    UsesAnswered(asked, uses, round.scripts, 0);
    UsesFailIff(asked, uses, round.scripts, 0);
    hide DoUses, Completed, StreamUses, Tokens, LookupFails;
  }

  /** One round, from a paired transcript: it stays paired unless a tool use raises, and then
      it ends in the unanswered tool-use message. */
  lemma RoundPairedIff(t: Turn, round: Round, defaultModel: string, history: seq<Message>)
    requires history <= t.messages && Paired(t.messages[|history|..])
    ensures var t' := DoRound(t, round, defaultModel).0;
            history <= t'.messages && (Paired(t'.messages[|history|..]) <==> !FailsInsideAUse(round, defaultModel))
  {
    hide DoRound, FailsInsideAUse, RunsOn;
    RoundPhase(t, round, defaultModel);
    if RunsOn(round, defaultModel) {
      RoundPaired(t, round, defaultModel, history);
    } else if FailsInsideAUse(round, defaultModel) {
      PairedIsEven(t.messages[|history|..]);
      var after := DoRound(t, round, defaultModel).0.messages;
      if Paired(after[|history|..]) {
        PairedIsEven(after[|history|..]);
      }
    }
  }

  /** However a turn ends, or while it runs: every tool-use message of the transcript is
      followed by one message answering exactly its tool uses, in order, if and only if the
      turn was not stopped inside a tool use.  A running or done turn never was. */
  lemma {:induction false} TurnIsPairedIff(t: Turn, rounds: seq<Round>, defaultModel: string, history: seq<Message>)
    requires history <= t.messages && Paired(t.messages[|history|..])
    ensures var (t', phase) := DoRounds(t, rounds, defaultModel);
            history <= t'.messages &&
            (Paired(t'.messages[|history|..]) <==> !StoppedInsideAUse(rounds, defaultModel)) &&
            (phase.Running? || phase.failure == None ==> Paired(t'.messages[|history|..]))
    decreases rounds
  {
    hide DoRound, Paired, FailsInsideAUse, StoppedInsideAUse, RunsOn;
    if rounds == [] {
      NoRoundStops(defaultModel);
    } else {
      RoundPairedIff(t, rounds[0], defaultModel, history);
      RoundPhase(t, rounds[0], defaultModel);
      StoppedStep(rounds, defaultModel);
      var (t', phase) := DoRound(t, rounds[0], defaultModel);
      if phase.Running? {
        TurnIsPairedIff(t', rounds[1..], defaultModel, history);
      }
    }
  }

  lemma NoRoundStops(defaultModel: string)
    ensures !StoppedInsideAUse([], defaultModel)
  {
  }
}
