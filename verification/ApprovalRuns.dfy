/** The approval queue under any interleaving of its actions.

    A dispatch sweep is followed item by item, with the commits it makes on the way and the
    exceptions that may escape from it; other actions are one step each. */
module ApprovalRuns {
  import opened Wrappers
  import opened Approval
  import opened ApprovalSweep

  datatype Action =
    | CreateItem(id: nat, input: CreateInput, at: int)
    | ApproveById(id: nat, userId: string, notes: Option<string>, at: int)
    | RejectById(id: nat, userId: string, notes: Option<string>, at: int)
    | EditById(id: nat, payload: Payload, userId: string, at: int)
    | DispatchSweep(order: seq<nat>, outcomes: nat -> ItemOutcome, commitFails: bool, at: int)
    | DeliverySweep(at: int)
    | BounceReport(messageId: string, detail: string, at: int)

  /** A draft that was really created: for which item, when. */
  datatype DraftEvent = DraftEvent(id: nat, at: int)

  /** One firm's committed rows by id, and the drafts created so far. */
  datatype Queue = Queue(rows: map<nat, Row>, drafts: seq<DraftEvent>)

  function Put(rows: map<nat, Row>, id: nat, result: Result): map<nat, Row> {
    match result case Ok(row) => rows[id := row] case Err(_) => rows
  }

  /** What the sweep's query may return: every dispatchable row, once, in some order. */
  ghost predicate IsQuery(rows: map<nat, Row>, order: seq<nat>) {
    (forall i | 0 <= i < |order| :: order[i] in rows && Dispatchable(rows[order[i]])) &&
    (forall i, j | 0 <= i < j < |order| :: order[i] != order[j]) &&
    forall id | id in rows && Dispatchable(rows[id]) :: id in order
  }

  ghost function Queried(rows: map<nat, Row>, order: seq<nat>): seq<Row>
    requires IsQuery(rows, order)
  {
    seq(|order|, i requires 0 <= i < |order| => rows[order[i]])
  }

  function DraftEvents(order: seq<nat>, drafted: seq<nat>, at: int): seq<DraftEvent>
    requires forall p | p in drafted :: p < |order|
  {
    seq(|drafted|, k requires 0 <= k < |drafted| =>
      assert drafted[k] in drafted;
      DraftEvent(order[drafted[k]], at))
  }

  /** `q'` is what the sweep `s` over `order` makes of `q`. */
  ghost predicate SweepNext(q: Queue, order: seq<nat>, s: SweepState, at: int, q': Queue) {
    |s.rows| == |order| && (forall p | p in s.drafted :: p < |order|) &&
    q'.rows.Keys == q.rows.Keys &&
    (forall i | 0 <= i < |order| :: order[i] in q'.rows && q'.rows[order[i]] == s.rows[i]) &&
    (forall id | id in q.rows && id !in order :: q'.rows[id] == q.rows[id]) &&
    q'.drafts == q.drafts + DraftEvents(order, s.drafted, at)
  }

  ghost function SweepOf(q: Queue, a: Action): SweepState
    requires a.DispatchSweep? && IsQuery(q.rows, a.order)
  {
    Swept(Queried(q.rows, a.order), a.outcomes, a.commitFails, a.at)
  }

  /** The rows that a bounce report names; the lookup raises when there are several. */
  function Matching(rows: map<nat, Row>, messageId: string): set<nat> {
    set id | id in rows && rows[id].messageId == Some(messageId)
  }

  /** `q'` follows from `q` by the action. */
  ghost predicate Next(settings: Settings, q: Queue, a: Action, q': Queue) {
    match a
    case CreateItem(id, input, at) => id !in q.rows && q' == q.(rows := q.rows[id := Create(settings, input, at)])
    case ApproveById(id, user, notes, at) =>
      q' == if id in q.rows then q.(rows := Put(q.rows, id, Approve(q.rows[id], user, notes, at))) else q
    case RejectById(id, user, notes, at) =>
      q' == if id in q.rows then q.(rows := Put(q.rows, id, Reject(q.rows[id], user, notes, at))) else q
    case EditById(id, payload, user, at) =>
      q' == if id in q.rows then q.(rows := Put(q.rows, id, EditPayload(q.rows[id], payload, user, at))) else q
    case DispatchSweep(order, _, _, at) => IsQuery(q.rows, order) && SweepNext(q, order, SweepOf(q, a), at, q')
    case DeliverySweep(at) =>
      q' == q.(rows := map id | id in q.rows ::
                 if Confirmable(q.rows[id], at) then Confirm(q.rows[id], at) else q.rows[id])
    case BounceReport(messageId, detail, at) =>
      q' == if messageId != "" && exists id :: Matching(q.rows, messageId) == {id}
            then q.(rows := map id | id in q.rows ::
                      if id in Matching(q.rows, messageId) then Bounce(q.rows[id], detail, at) else q.rows[id])
            else q
  }

  /** The action is a sweep that loses a draft. */
  ghost predicate Loses(q: Queue, a: Action) {
    a.DispatchSweep? && IsQuery(q.rows, a.order) &&
    LosesADraft(Queried(q.rows, a.order), a.outcomes, a.commitFails)
  }

  /** The invariant of every run, lost drafts or not. */
  ghost predicate Inv(q: Queue) {
    (forall id | id in q.rows :: RowOk(q.rows[id])) &&
    (forall id | id in q.rows && q.rows[id].status == Sent ::
       exists e :: e in q.drafts && e.id == id && MatchesDraft(q.rows[id], e.at)) &&
    forall e | e in q.drafts :: e.id in q.rows && CanHaveDraft(q.rows[e.id])
  }

  ghost predicate UniqueDrafts(drafts: seq<DraftEvent>) {
    forall i, j | 0 <= i < j < |drafts| :: drafts[i].id != drafts[j].id
  }

  /** No item has two drafts, and none is waiting to be given a second one. */
  ghost predicate Clean(q: Queue) {
    UniqueDrafts(q.drafts) && forall e | e in q.drafts :: e.id in q.rows && q.rows[e.id].status == Sent
  }

  // ----- each action, on the queue

  ghost predicate Progress(q: Queue, q': Queue) {
    q.drafts <= q'.drafts && forall id | id in q.rows :: id in q'.rows && Later(q.rows[id], q'.rows[id])
  }

  lemma RowsChange(q: Queue, q': Queue)
    requires Inv(q) && q'.drafts == q.drafts && q'.rows.Keys == q.rows.Keys
    requires forall id | id in q.rows :: q'.rows[id] == q.rows[id] || Keeps(q.rows[id], q'.rows[id])
    ensures Inv(q') && Progress(q, q') && (Clean(q') <==> Clean(q))
  {
    forall id | id in q.rows
      ensures RowOk(q'.rows[id]) && Later(q.rows[id], q'.rows[id])
      ensures q'.rows[id].status == Sent <==> q.rows[id].status == Sent
      ensures CanHaveDraft(q.rows[id]) ==> CanHaveDraft(q'.rows[id])
    {
    }
    forall id | id in q'.rows && q'.rows[id].status == Sent
      ensures exists e :: e in q'.drafts && e.id == id && MatchesDraft(q'.rows[id], e.at)
    {
      var e :| e in q.drafts && e.id == id && MatchesDraft(q.rows[id], e.at);
      assert e in q'.drafts && MatchesDraft(q'.rows[id], e.at);
    }
  }

  /** The k-th draft of a sweep. */
  lemma DraftAt(q: Queue, order: seq<nat>, s: SweepState, at: int, q': Queue, k: nat)
    requires SweepNext(q, order, s, at, q') && k < |s.drafted|
    ensures s.drafted[k] in s.drafted
    ensures |q.drafts| + k < |q'.drafts| && q'.drafts[|q.drafts| + k] == DraftEvent(order[s.drafted[k]], at)
  {
  }

  /** Any draft after a sweep is an old one or one of the sweep's. */
  lemma OldOrNew(q: Queue, order: seq<nat>, s: SweepState, at: int, q': Queue, e: DraftEvent)
    requires SweepNext(q, order, s, at, q') && e in q'.drafts
    ensures e in q.drafts ||
            exists k | 0 <= k < |s.drafted| && s.drafted[k] < |order| :: e == DraftEvent(order[s.drafted[k]], at)
  {
    var k :| 0 <= k < |q'.drafts| && q'.drafts[k] == e;
    if k < |q.drafts| {
      assert q.drafts[k] == e;
    } else {
      DraftAt(q, order, s, at, q', k - |q.drafts|);
    }
  }

  /** A sweep, seen from one row. */
  lemma SweptRow(q: Queue, order: seq<nat>, s: SweepState, at: int, q': Queue, id: nat)
    requires IsQuery(q.rows, order) && SweepNext(q, order, s, at, q') && SweepFacts(Queried(q.rows, order), s, at)
    requires id in q.rows
    ensures id in order ==> Dispatchable(q.rows[id]) && Kept(q.rows[id], q'.rows[id], at)
    ensures id in order && q'.rows[id].status == Sent ==> DraftEvent(id, at) in q'.drafts
    ensures id !in order ==> q'.rows[id] == q.rows[id]
  {
    hide Dispatchable, Kept, GoodPayload;
    if id in order {
      var i: nat :| i < |order| && order[i] == id;
      assert Queried(q.rows, order)[i] == q.rows[id];
      if s.rows[i].status == Sent {
        var k :| 0 <= k < |s.drafted| && s.drafted[k] == i;
        DraftAt(q, order, s, at, q', k);
      }
    }
  }

  lemma SweptRowMoves(settings: Settings, q: Queue, a: Action, q': Queue, id: nat)
    requires Inv(q) && a.DispatchSweep? && Next(settings, q, a, q') && id in q.rows
    ensures id in q'.rows
    ensures q'.rows[id] == q.rows[id] || (Dispatchable(q.rows[id]) && Kept(q.rows[id], q'.rows[id], a.at))
  {
    hide SweepFacts, Kept, RowOk, Dispatchable;
    SweptOk(Queried(q.rows, a.order), a.outcomes, a.commitFails, a.at);
    SweptRow(q, a.order, SweepOf(q, a), a.at, q', id);
  }

  lemma SweepKeepsInv(q: Queue, order: seq<nat>, s: SweepState, at: int, q': Queue)
    requires Inv(q) && IsQuery(q.rows, order) && SweepNext(q, order, s, at, q')
    requires SweepFacts(Queried(q.rows, order), s, at)
    ensures Inv(q') && Progress(q, q')
  {
    forall id | id in q.rows
      ensures RowOk(q'.rows[id]) && Later(q.rows[id], q'.rows[id])
      ensures CanHaveDraft(q.rows[id]) ==> CanHaveDraft(q'.rows[id])
      ensures q'.rows[id].status == Sent ==> exists e :: e in q'.drafts && e.id == id && MatchesDraft(q'.rows[id], e.at)
    {
      SweptRow(q, order, s, at, q', id);
      LaterIsAPreorder(q.rows[id], q.rows[id], q.rows[id]);
      hide RowOk, Later, Kept, Dispatchable, CanHaveDraft, MatchesDraft, SweepFacts;
      if id in order {
        assert q'.rows[id].status == Sent ==> DraftEvent(id, at) in q'.drafts;
      } else if q.rows[id].status == Sent {
        var e :| e in q.drafts && e.id == id && MatchesDraft(q.rows[id], e.at);
        assert e in q'.drafts;
      }
    }
    forall e | e in q'.drafts ensures e.id in q'.rows && CanHaveDraft(q'.rows[e.id]) {
      OldOrNew(q, order, s, at, q', e);
      if e !in q.drafts {
        var k :| 0 <= k < |s.drafted| && s.drafted[k] < |order| && e == DraftEvent(order[s.drafted[k]], at);
        var p := s.drafted[k];
        assert p in s.drafted && GoodPayload(Queried(q.rows, order)[p]);
        SweptRow(q, order, s, at, q', e.id);
      }
    }
    hide RowOk, Later, CanHaveDraft, SweepNext, IsQuery, SweepFacts, MatchesDraft;
  }

  lemma SweepStaysUnique(q: Queue, order: seq<nat>, s: SweepState, at: int, q': Queue)
    requires IsQuery(q.rows, order) && SweepNext(q, order, s, at, q')
    requires Clean(q) && Distinct(s.drafted)
    ensures UniqueDrafts(q'.drafts)
  {
    forall i, j | 0 <= i < j < |q'.drafts| ensures q'.drafts[i].id != q'.drafts[j].id {
      if |q.drafts| <= j {
        DraftAt(q, order, s, at, q', j - |q.drafts|);
        assert Dispatchable(q.rows[q'.drafts[j].id]);
        if i < |q.drafts| {
          assert q'.drafts[i] == q.drafts[i] && q.drafts[i] in q.drafts;
        } else {
          DraftAt(q, order, s, at, q', i - |q.drafts|);
        }
      }
    }
  }

  /** A sweep from a clean queue that loses nothing leaves it clean. */
  lemma SweepStaysClean(q: Queue, order: seq<nat>, s: SweepState, at: int, q': Queue)
    requires Inv(q) && IsQuery(q.rows, order) && SweepNext(q, order, s, at, q')
    requires SweepFacts(Queried(q.rows, order), s, at) && Clean(q)
    requires forall p | p in s.drafted :: s.rows[p].status == Sent
    ensures Clean(q')
  {
    hide Kept, RowOk, GoodPayload, CanHaveDraft, MatchesDraft;
    SweepStaysUnique(q, order, s, at, q');
    forall e | e in q'.drafts ensures e.id in q'.rows && q'.rows[e.id].status == Sent {
      OldOrNew(q, order, s, at, q', e);
      if e in q.drafts {
        assert !Dispatchable(q.rows[e.id]);
        assert e.id !in order;
      } else {
        var k :| 0 <= k < |s.drafted| && s.drafted[k] < |order| && e == DraftEvent(order[s.drafted[k]], at);
        assert s.drafted[k] in s.drafted;
      }
    }
  }

  /** A queue that is not clean, or a sweep that loses a draft, leaves it unclean. */
  lemma SweepStaysUnclean(q: Queue, order: seq<nat>, s: SweepState, at: int, q': Queue)
    requires Inv(q) && IsQuery(q.rows, order) && SweepNext(q, order, s, at, q')
    requires SweepFacts(Queried(q.rows, order), s, at)
    requires !Clean(q) || exists p :: p in s.drafted && s.rows[p].status != Sent
    ensures !Clean(q')
  {
    hide Kept, RowOk, GoodPayload, CanHaveDraft, MatchesDraft, Dispatchable;
    if p :| p in s.drafted && s.rows[p].status != Sent {
      var k :| 0 <= k < |s.drafted| && s.drafted[k] == p;
      DraftAt(q, order, s, at, q', k);
    } else if UniqueDrafts(q.drafts) {
      var e :| e in q.drafts && !(e.id in q.rows && q.rows[e.id].status == Sent);
      assert e in q'.drafts;
      if q'.rows[e.id].status == Sent {
        var i: nat :| i < |order| && order[i] == e.id;
        var k :| 0 <= k < |s.drafted| && s.drafted[k] == i;
        Twice(q, order, s, at, q', e, k);
      }
    } else {
      var i, j :| 0 <= i < j < |q.drafts| && q.drafts[i].id == q.drafts[j].id;
      assert q'.drafts[i] == q.drafts[i] && q'.drafts[j] == q.drafts[j];
    }
  }

  /** A draft of the sweep for an item that had one. */
  lemma Twice(q: Queue, order: seq<nat>, s: SweepState, at: int, q': Queue, e: DraftEvent, k: nat)
    requires SweepNext(q, order, s, at, q') && e in q.drafts && k < |s.drafted| && s.drafted[k] in s.drafted
    requires order[s.drafted[k]] == e.id
    ensures !UniqueDrafts(q'.drafts)
  {
    var j :| 0 <= j < |q.drafts| && q.drafts[j] == e;
    DraftAt(q, order, s, at, q', k);
    assert q'.drafts[j] == e;
  }

  lemma CreateKeepsInv(settings: Settings, q: Queue, id: nat, input: CreateInput, at: int)
    requires Inv(q) && id !in q.rows
    ensures var q' := q.(rows := q.rows[id := Create(settings, input, at)]);
            Inv(q') && Progress(q, q') && (Clean(q') <==> Clean(q))
  {
    hide Create, RowOk, Later;
    CreateOk(settings, input, at);
    forall i | i in q.rows ensures Later(q.rows[i], q.rows[i]) {
      LaterIsAPreorder(q.rows[i], q.rows[i], q.rows[i]);
    }
  }

  lemma SweepStepKeepsInv(settings: Settings, q: Queue, a: Action, q': Queue)
    requires Inv(q) && Next(settings, q, a, q') && a.DispatchSweep?
    ensures Inv(q') && Progress(q, q') && (Clean(q') <==> Clean(q) && !Loses(q, a))
  {
    hide RowOk, CanHaveDraft, MatchesDraft, Later, Clean, LosesADraft, SweepNext, SweepFacts;
    var order, at := a.order, a.at;
    var s := SweepOf(q, a);
    SweptOk(Queried(q.rows, order), a.outcomes, a.commitFails, at);
    SweepKeepsInv(q, order, s, at, q');
    if Clean(q) && !Loses(q, a) {
      SweepStaysClean(q, order, s, at, q');
    } else {
      SweepStaysUnclean(q, order, s, at, q');
    }
  }

  /** Every action keeps the invariant, rows only move forward, and the queue is clean
      afterwards exactly when it was and the action loses no draft. */
  lemma StepKeepsInv(settings: Settings, q: Queue, a: Action, q': Queue)
    requires Inv(q) && Next(settings, q, a, q')
    ensures Inv(q') && Progress(q, q') && (Clean(q') <==> Clean(q) && !Loses(q, a))
  {
    hide RowOk, CanHaveDraft, MatchesDraft, Later, Clean, LosesADraft, Create, Keeps;
    match a {
      case CreateItem(id, input, at) => CreateKeepsInv(settings, q, id, input, at);
      case ApproveById(id, user, notes, at) =>
        if id in q.rows && Approve(q.rows[id], user, notes, at).Ok? { ApproveKeeps(q.rows[id], user, notes, at); }
        hide Approve, Keeps;
        RowsChange(q, q');
      case RejectById(id, user, notes, at) =>
        if id in q.rows && Reject(q.rows[id], user, notes, at).Ok? { RejectKeeps(q.rows[id], user, notes, at); }
        hide Reject, Keeps;
        RowsChange(q, q');
      case EditById(id, payload, user, at) =>
        if id in q.rows && EditPayload(q.rows[id], payload, user, at).Ok? { EditKeeps(q.rows[id], payload, user, at); }
        hide EditPayload, Keeps;
        RowsChange(q, q');
      case DispatchSweep(_, _, _, _) => SweepStepKeepsInv(settings, q, a, q');
      case DeliverySweep(at) =>
        forall id | id in q.rows && Confirmable(q.rows[id], at) ensures Keeps(q.rows[id], Confirm(q.rows[id], at)) {
          DeliveryKeeps(q.rows[id], "", at);
        }
        hide Keeps, Confirm;
        RowsChange(q, q');
      case BounceReport(messageId, detail, at) =>
        forall id | id in Matching(q.rows, messageId) ensures Keeps(q.rows[id], Bounce(q.rows[id], detail, at)) {
          DeliveryKeeps(q.rows[id], detail, at);
        }
        hide Bounce, RowOk, Keeps;
        RowsChange(q, q');
    }
  }

  // ----- whole runs

  /** `states` is a run of the given actions, from an empty queue. */
  ghost predicate IsRun(settings: Settings, actions: seq<Action>, states: seq<Queue>) {
    |states| == |actions| + 1 && states[0] == Queue(map[], []) &&
    forall i | 0 <= i < |actions| :: Next(settings, states[i], actions[i], states[i + 1])
  }

  /** Some sweep among the first `n` actions loses a draft. */
  ghost predicate HasLost(actions: seq<Action>, states: seq<Queue>, n: nat)
    requires n <= |actions| <= |states|
  {
    exists k | 0 <= k < n :: Loses(states[k], actions[k])
  }

  lemma LaterIsAPreorder(r: Row, s: Row, t: Row)
    ensures Later(r, r) && (Later(r, s) && Later(s, t) ==> Later(r, t))
  {
  }

  /** The invariant at every point of every run; and the queue is clean exactly while no draft
      has been lost. */
  lemma {:induction false} RunKeepsInv(settings: Settings, actions: seq<Action>, states: seq<Queue>, n: nat)
    requires IsRun(settings, actions, states) && n < |states|
    ensures Inv(states[n]) && (Clean(states[n]) <==> !HasLost(actions, states, n))
  {
    hide Next, Loses, Inv, Clean;
    if n == 0 {
      EmptyQueueOk();
    } else {
      RunKeepsInv(settings, actions, states, n - 1);
      assert Next(settings, states[n - 1], actions[n - 1], states[n - 1 + 1]);
      StepKeepsInv(settings, states[n - 1], actions[n - 1], states[n]);
    }
  }

  lemma EmptyQueueOk()
    ensures Inv(Queue(map[], [])) && Clean(Queue(map[], []))
  {
  }

  /** From any point of a run to any later one, every row has only moved forward. */
  lemma {:induction false} RunProgresses(settings: Settings, actions: seq<Action>, states: seq<Queue>, m: nat, n: nat)
    requires IsRun(settings, actions, states) && m <= n < |states|
    ensures Progress(states[m], states[n])
    decreases n - m
  {
    hide Later, Next, Inv, Clean, HasLost, Loses;
    if m == n {
      forall id | id in states[m].rows ensures Later(states[m].rows[id], states[m].rows[id]) {
        LaterIsAPreorder(states[m].rows[id], states[m].rows[id], states[m].rows[id]);
      }
    } else {
      RunProgresses(settings, actions, states, m, n - 1);
      RunKeepsInv(settings, actions, states, n - 1);
      assert Next(settings, states[n - 1], actions[n - 1], states[n - 1 + 1]);
      StepKeepsInv(settings, states[n - 1], actions[n - 1], states[n]);
      forall id | id in states[m].rows ensures Later(states[m].rows[id], states[n].rows[id]) {
        LaterIsAPreorder(states[m].rows[id], states[n - 1].rows[id], states[n].rows[id]);
      }
    }
  }

  /** On every run: as long as no sweep loses a draft, no item is dispatched twice and an item
      counts as sent exactly when its draft was created; and conversely. */
  lemma DispatchedAtMostOnceIff(settings: Settings, actions: seq<Action>, states: seq<Queue>, n: nat)
    requires IsRun(settings, actions, states) && n < |states|
    ensures var q := states[n];
            !HasLost(actions, states, n) <==>
              UniqueDrafts(q.drafts) &&
              forall id | id in q.rows :: q.rows[id].status == Sent <==> exists e :: e in q.drafts && e.id == id
  {
    RunKeepsInv(settings, actions, states, n);
    hide HasLost, RowOk, IsRun;
    var q := states[n];
    if UniqueDrafts(q.drafts) && forall id | id in q.rows ::
         q.rows[id].status == Sent <==> exists e :: e in q.drafts && e.id == id {
      forall e | e in q.drafts ensures e.id in q.rows && q.rows[e.id].status == Sent {
      }
    }
  }

  /** A sweep in which every draft is created and nothing fails. */
  function AllDrafted(): nat -> ItemOutcome {
    _ => Handled(Draft(None), false)
  }

  lemma {:induction false} AllDraftedItems(rows: seq<Row>, now: int, n: nat)
    requires n <= |rows|
    ensures var s := SweepItems(rows, AllDrafted(), now, n);
            !s.escaped && !s.left && (forall i | n <= i < |rows| :: s.rows[i] == rows[i]) &&
            forall i: nat | i < n && GoodPayload(rows[i]) :: i in s.drafted
  {
    if n > 0 {
      AllDraftedItems(rows, now, n - 1);
    }
  }

  /** A lost draft is what makes a second one: after any run, a sweep in which all goes well
      gives some item two drafts if and only if a sweep of the run has lost one. */
  lemma RetryDuplicatesIffLost(settings: Settings, actions: seq<Action>, states: seq<Queue>, n: nat,
                               order: seq<nat>, at: int, q': Queue)
    requires IsRun(settings, actions, states) && n < |states|
    requires Next(settings, states[n], DispatchSweep(order, AllDrafted(), false, at), q')
    ensures UniqueDrafts(q'.drafts) <==> !HasLost(actions, states, n)
  {
    hide IsRun, HasLost, Inv, Next, Loses;
    var q, a := states[n], DispatchSweep(order, AllDrafted(), false, at);
    RunKeepsInv(settings, actions, states, n);
    StepKeepsInv(settings, q, a, q');
    NothingLostInGoodSweep(q, a);
    if !Clean(q) { DraftedAgain(settings, q, order, at, q'); }
  }

  lemma NothingLostInGoodSweep(q: Queue, a: Action)
    requires a.DispatchSweep? && a.outcomes == AllDrafted() && !a.commitFails
    ensures !Loses(q, a)
  {
  }

  /** A draft that is waiting to be made again is. */
  lemma DraftedAgain(settings: Settings, q: Queue, order: seq<nat>, at: int, q': Queue)
    requires Inv(q) && !Clean(q) && Next(settings, q, DispatchSweep(order, AllDrafted(), false, at), q')
    ensures !UniqueDrafts(q'.drafts)
  {
    hide SweepItems, RowOk, Dispatchable, MatchesDraft;
    var s := SweepOf(q, DispatchSweep(order, AllDrafted(), false, at));
    var rows := Queried(q.rows, order);
    AllDraftedItems(rows, at, |rows|);
    if UniqueDrafts(q.drafts) {
      var e :| e in q.drafts && !(e.id in q.rows && q.rows[e.id].status == Sent);
      assert CanHaveDraft(q.rows[e.id]);
      var i: nat :| i < |order| && order[i] == e.id;
      assert rows[i] == q.rows[e.id];
      var k :| 0 <= k < |s.drafted| && s.drafted[k] == i;
      Twice(q, order, s, at, q', e, k);
    } else {
      var i, j :| 0 <= i < j < |q.drafts| && q.drafts[i].id == q.drafts[j].id;
      assert q'.drafts[i] == q.drafts[i] && q'.drafts[j] == q.drafts[j];
    }
  }

  /** A sweep in which all goes well sends every approved draft, and every one that failed before,
      if its payload can be sent, and touches nothing else. */
  lemma GoodSweepSendsAll(settings: Settings, q: Queue, order: seq<nat>, at: int, q': Queue, id: nat)
    requires Next(settings, q, DispatchSweep(order, AllDrafted(), false, at), q') && id in q.rows
    ensures var row := q.rows[id];
            id in q'.rows &&
            if row.category == "email_draft" && (row.status == Approved || row.status == DispatchFailed)
            then q'.rows[id].status == (if row.payload.sender.Some? && row.payload.shaped then Sent else DispatchFailed)
                 && q'.rows[id].updatedAt == at
            else q'.rows[id] == row
  {
    hide Tried, SweepItems, GoodPayload;
    var rows := Queried(q.rows, order);
    NoneEscapes(rows);
    EachIsTried(rows, AllDrafted(), at, |rows|);
    hide Escapes, SomeEscapes;
    assert SweepNext(q, order, Swept(rows, AllDrafted(), false, at), at, q');
    if id in order {
      var i: nat :| i < |order| && order[i] == id;
      assert rows[i] == q.rows[id];
      GoodItemIsSent(q.rows[id], AllDrafted()(i), at);
    }
  }

  lemma NoneEscapes(rows: seq<Row>)
    ensures !SomeEscapes(rows, AllDrafted(), |rows|)
  {
  }

  lemma GoodItemIsSent(row: Row, o: ItemOutcome, at: int)
    requires o.Handled? && o.attempt.Draft?
    ensures Tried(row, o, at).0.status ==
            if row.payload.sender.Some? && row.payload.shaped then Sent else DispatchFailed
    ensures Tried(row, o, at).0.updatedAt == at
  {
  }

  /** A delivery sweep takes for delivered what was sent more than four hours ago, and nothing else. */
  lemma DeliverySweepConfirms(settings: Settings, q: Queue, at: int, q': Queue, id: nat)
    requires Next(settings, q, DeliverySweep(at), q') && id in q.rows && RowOk(q.rows[id])
    ensures id in q'.rows &&
            if q.rows[id].delivery == Out && at - q.rows[id].deliveryUpdatedAt.value > 14_400
            then q'.rows[id] == q.rows[id].(delivery := Delivered, deliveryUpdatedAt := Some(at), updatedAt := at)
            else q'.rows[id] == q.rows[id]
  {
  }

  /** A draft is only ever created for a row that its required signers, or the system alone
      with sufficient confidence, have approved; and with the payload it was decided with. */
  lemma DraftsWereApproved(settings: Settings, actions: seq<Action>, states: seq<Queue>, m: nat, n: nat, id: nat)
    requires IsRun(settings, actions, states) && m <= n < |states|
    requires id in states[m].rows && states[m].rows[id].status != Pending
    requires id in states[n].rows && exists e :: e in states[n].drafts && e.id == id
    ensures ProperlySigned(states[m].rows[id]) && states[m].rows[id].status != Rejected
    ensures states[n].rows[id].payload == states[m].rows[id].payload
    ensures states[n].rows[id].signatures == states[m].rows[id].signatures
  {
    RunKeepsInv(settings, actions, states, m);
    RunKeepsInv(settings, actions, states, n);
    RunProgresses(settings, actions, states, m, n);
    hide Next;
    assert CanHaveDraft(states[n].rows[id]);
    assert RowOk(states[m].rows[id]) && Later(states[m].rows[id], states[n].rows[id]);
  }

  ghost predicate SignedBy(row: Row, n: nat) {
    |row.signatures| == n && (forall i | 0 <= i < n :: row.signatures[i].User?) &&
    forall i, j | 0 <= i < j < n :: row.signatures[i].userId != row.signatures[j].userId
  }

  /** What a proposal's category and override demand, at any later point of any run: a two-person
      category is never approved before two different users have signed, an override of two or
      more never before so many have, and anything else takes one signature. */
  lemma EnoughHaveSigned(settings: Settings, actions: seq<Action>, states: seq<Queue>, k: nat, n: nat)
    requires IsRun(settings, actions, states) && k < |actions| && k < n < |states| && actions[k].CreateItem?
    ensures var input, id := actions[k].input, actions[k].id;
            id in states[n].rows &&
            var row := states[n].rows[id];
            (row.status != Pending && row.status != Rejected ==>
               match input.requiredApprovals
               case None => if input.category in settings.twoPersonCategories then SignedBy(row, 2)
                            else |row.signatures| == 1
               case Some(m) => if m >= 2 then SignedBy(row, m) else |row.signatures| == 1)
  {
    hide IsRun, Inv, Clean, HasLost, Next;
    FirstRow(settings, actions, states, k);
    RunKeepsInv(settings, actions, states, n);
    RunProgresses(settings, actions, states, k + 1, n);
    RowsAreOk(states[n], actions[k].id);
    hide Progress;
  }

  lemma FirstRow(settings: Settings, actions: seq<Action>, states: seq<Queue>, k: nat)
    requires IsRun(settings, actions, states) && k < |actions| && actions[k].CreateItem?
    ensures actions[k].id in states[k + 1].rows
    ensures states[k + 1].rows[actions[k].id] == Create(settings, actions[k].input, actions[k].at)
  {
    assert Next(settings, states[k], actions[k], states[k + 1]);
  }

  lemma RowsAreOk(q: Queue, id: nat)
    requires Inv(q)
    ensures id in q.rows ==> RowOk(q.rows[id])
  {
  }

  /** The delivery status enters `delivered` only in a sweep, from `sent`, more than the full
      window after the draft was created; every change is one of the legal ones. */
  lemma DeliveryMovesLegally(settings: Settings, actions: seq<Action>, states: seq<Queue>, n: nat, id: nat)
    requires IsRun(settings, actions, states) && n < |actions|
    requires id in states[n].rows && id in states[n + 1].rows
    requires states[n + 1].rows[id].delivery != states[n].rows[id].delivery
    ensures var before, after := states[n].rows[id], states[n + 1].rows[id];
            match after.delivery
            case Unknown => false
            case Out => before.delivery == Unknown && actions[n].DispatchSweep?
            case Delivered => before.delivery == Out && actions[n].DeliverySweep?
                              && exists e :: e in states[n].drafts && e.id == id && actions[n].at > e.at + WINDOW
            case Bounced => before.delivery in {Out, Delivered} && actions[n].BounceReport?
  {
    hide Clean, HasLost, Loses, SweepNext, IsQuery, SweepOf, ProperlySigned, NotYetSigned;
    RunKeepsInv(settings, actions, states, n);
    assert Next(settings, states[n], actions[n], states[n + 1]);
    var q, a, q' := states[n], actions[n], states[n + 1];
    match a {
      case CreateItem(_, _, _) =>
      case ApproveById(_, _, _, _) =>
      case RejectById(_, _, _, _) =>
      case EditById(_, _, _, _) =>
      case DispatchSweep(_, _, _, at) =>
        SweptRowMoves(settings, q, a, q', id);
      case DeliverySweep(at) =>
        var e :| e in q.drafts && e.id == id && MatchesDraft(q.rows[id], e.at);
      case BounceReport(messageId, _, _) =>
        assert id in Matching(q.rows, messageId);
    }
  }

  // ----- what the signers saw

  ghost predicate Signs(a: Action, id: nat, row: Row) {
    a.ApproveById? && a.id == id && Approve(row, a.userId, a.notes, a.at).Ok?
  }

  ghost predicate Edits(a: Action, id: nat, row: Row) {
    a.EditById? && a.id == id && row.status == Pending
  }

  /** One action, seen from one row: it signs, it edits, or it touches neither the signatures
      nor the payload; a pending row is only approved by a signature. */
  lemma RowStep(settings: Settings, q: Queue, a: Action, q': Queue, id: nat)
    requires Inv(q) && Next(settings, q, a, q') && id in q.rows
    ensures id in q'.rows
    ensures var r, s := q.rows[id], q'.rows[id];
            if Signs(a, id, r) then
              r.status == Pending && s.signatures == r.signatures + [User(a.userId, a.at, a.notes)] &&
              s.payload == r.payload && s.lastEditedAt == r.lastEditedAt
            else if Edits(a, id, r) then
              s.signatures == r.signatures && s.status == Pending && s.payload == a.payload &&
              s.lastEditedAt == Some(a.at)
            else
              s.signatures == r.signatures && s.payload == r.payload && s.lastEditedAt == r.lastEditedAt &&
              (r.status == Pending ==> s.status == Pending || s.status == Rejected)
  {
    hide GoodPayload, MatchesDraft, CanHaveDraft, SweepNext, IsQuery, SweepOf, ProperlySigned, NotYetSigned;
    if a.DispatchSweep? {
      SweptRowMoves(settings, q, a, q', id);
    }
  }

  ghost predicate SignedAt(actions: seq<Action>, states: seq<Queue>, id: nat, k: nat) {
    k < |actions| && k < |states| && id in states[k].rows && Signs(actions[k], id, states[k].rows[id])
  }

  /** Every signature so far was given to the payload that the row has now. */
  ghost predicate SignersSaw(actions: seq<Action>, states: seq<Queue>, n: nat, id: nat)
    requires n <= |actions| < |states| && id in states[n].rows
  {
    forall k | 0 <= k < n && SignedAt(actions, states, id, k) ::
      states[k].rows[id].payload == states[n].rows[id].payload
  }

  /** All signatures were given to the same payload. */
  ghost predicate SignersAgree(actions: seq<Action>, states: seq<Queue>, n: nat, id: nat)
    requires n <= |actions| < |states|
  {
    forall j, k | 0 <= j < k < n && SignedAt(actions, states, id, j) && SignedAt(actions, states, id, k) ::
      states[j].rows[id].payload == states[k].rows[id].payload
  }

  /** After some first signature the payload was edited. */
  ghost predicate EditedAfterSigning(actions: seq<Action>, states: seq<Queue>, n: nat, id: nat)
    requires n <= |actions| < |states|
  {
    exists k | 0 <= k < n ::
      id in states[k].rows && Edits(actions[k], id, states[k].rows[id]) && states[k].rows[id].signatures != []
  }

  lemma RunStep(settings: Settings, actions: seq<Action>, states: seq<Queue>, n: nat, id: nat)
    requires IsRun(settings, actions, states) && 0 < n < |states|
    ensures Inv(states[n - 1]) && Next(settings, states[n - 1], actions[n - 1], states[n])
    ensures forall k, m | 0 <= k <= m < |states| && id in states[k].rows ::
              id in states[m].rows && Later(states[k].rows[id], states[m].rows[id])
  {
    RunKeepsInv(settings, actions, states, n - 1);
    assert Next(settings, states[n - 1], actions[n - 1], states[n - 1 + 1]);
    hide Next, Later, Inv, IsRun;
    forall k, m | 0 <= k <= m < |states| && id in states[k].rows
      ensures id in states[m].rows && Later(states[k].rows[id], states[m].rows[id])
    {
      RunProgresses(settings, actions, states, k, m);
    }
  }

  /** A row that has been signed has signatures. */
  lemma SignedHasSignatures(settings: Settings, actions: seq<Action>, states: seq<Queue>, k: nat, m: nat, id: nat)
    requires IsRun(settings, actions, states) && k < m < |states| && SignedAt(actions, states, id, k)
    ensures id in states[m].rows && states[m].rows[id].signatures != []
  {
    RunStep(settings, actions, states, k + 1, id);
    RowStep(settings, states[k], actions[k], states[k + 1], id);
    assert Later(states[k + 1].rows[id], states[m].rows[id]);
    hide Next, Inv, IsRun;
  }

  /** An approved row's signers all saw its final payload if and only if they all saw the same. */
  lemma {:induction false} SignersSawIffTheyAgree(settings: Settings, actions: seq<Action>, states: seq<Queue>, n: nat,
                                                  id: nat)
    requires IsRun(settings, actions, states) && n < |states| && id in states[n].rows
    requires states[n].rows[id].status != Pending && states[n].rows[id].status != Rejected
    ensures SignersSaw(actions, states, n, id) <==> SignersAgree(actions, states, n, id)
  {
    if n > 0 {
      RunStep(settings, actions, states, n, id);
      hide IsRun, Inv;
      if id in states[n - 1].rows {
        var r := states[n - 1].rows[id];
        RowStep(settings, states[n - 1], actions[n - 1], states[n], id);
        assert Later(r, states[n].rows[id]);
        hide Next;
        if r.status == Pending {
          assert SignedAt(actions, states, id, n - 1);
        } else {
          SignersSawIffTheyAgree(settings, actions, states, n - 1, id);
        }
      }
    }
  }

  /** As long as nobody edits after the first signature, every signer saw the payload. */
  lemma {:induction false} UneditedMeansSeen(settings: Settings, actions: seq<Action>, states: seq<Queue>, n: nat,
                                             id: nat)
    requires IsRun(settings, actions, states) && n < |states| && id in states[n].rows
    requires !EditedAfterSigning(actions, states, n, id)
    ensures SignersSaw(actions, states, n, id)
  {
    hide Inv, Next, Signs, Edits, Later;
    if n > 0 {
      RunStep(settings, actions, states, n, id);
      if id in states[n - 1].rows {
        RowStep(settings, states[n - 1], actions[n - 1], states[n], id);
        var r := states[n - 1].rows[id];
        forall k | 0 <= k < n && SignedAt(actions, states, id, k)
          ensures states[k].rows[id].payload == states[n].rows[id].payload
        {
          if Edits(actions[n - 1], id, r) && k < n - 1 {
            SignedHasSignatures(settings, actions, states, k, n - 1, id);
          } else if k < n - 1 {
            UneditedMeansSeen(settings, actions, states, n - 1, id);
          }
        }
      }
    }
  }

  /** Actions happen in the order of their clocks. */
  ghost predicate InTime(actions: seq<Action>) {
    forall i, j | 0 <= i < j < |actions| :: actions[i].at <= actions[j].at
  }

  lemma {:induction false} StampsAreInThePast(settings: Settings, actions: seq<Action>, states: seq<Queue>, n: nat,
                                              id: nat)
    requires IsRun(settings, actions, states) && InTime(actions) && n < |states| && id in states[n].rows
    ensures n > 0
    ensures forall i | 0 <= i < |states[n].rows[id].signatures| ::
              states[n].rows[id].signatures[i].at <= actions[n - 1].at
    ensures states[n].rows[id].lastEditedAt.Some? ==> states[n].rows[id].lastEditedAt.value <= actions[n - 1].at
  {
    if n > 0 {
      RunStep(settings, actions, states, n, id);
      hide Inv, Later;
      if id in states[n - 1].rows {
        RowStep(settings, states[n - 1], actions[n - 1], states[n], id);
        StampsAreInThePast(settings, actions, states, n - 1, id);
        hide Next, Signs, Edits;
      }
    }
  }

  /** The row as it was when it had no signature yet. */
  lemma UnsignedBefore(settings: Settings, actions: seq<Action>, states: seq<Queue>, n: nat, id: nat)
    requires IsRun(settings, actions, states) && InTime(actions) && 0 < n < |states|
    requires id in states[n].rows && states[n].rows[id].signatures != []
    requires id !in states[n - 1].rows || states[n - 1].rows[id].signatures == []
    ensures !EditedAfterSigning(actions, states, n, id)
    ensures var row := states[n].rows[id]; row.lastEditedAt.Some? ==> row.lastEditedAt.value <= row.signatures[0].at
  {
    RunStep(settings, actions, states, n, id);
    if id in states[n - 1].rows {
      StampsAreInThePast(settings, actions, states, n - 1, id);
      RowStep(settings, states[n - 1], actions[n - 1], states[n], id);
      forall k | 0 <= k < n && id in states[k].rows ensures states[k].rows[id].signatures == [] {
        assert Later(states[k].rows[id], states[n - 1].rows[id]);
      }
    }
    hide Inv, IsRun, Signs, Edits;
  }

  /** What the row's stamps tell, exactly: unless both bear the same stamp, the payload was
      edited after the first signature if and only if the last edit is stamped later. */
  lemma {:induction false} EditedAfterSigningIff(settings: Settings, actions: seq<Action>, states: seq<Queue>, n: nat,
                                                 id: nat)
    requires IsRun(settings, actions, states) && InTime(actions) && n < |states| && id in states[n].rows
    requires states[n].rows[id].signatures != []
    ensures var row := states[n].rows[id];
            row.lastEditedAt != Some(row.signatures[0].at) ==>
              (EditedAfterSigning(actions, states, n, id) <==>
                 row.lastEditedAt.Some? && row.lastEditedAt.value > row.signatures[0].at)
    ensures EditedAfterSigning(actions, states, n, id) ==> states[n].rows[id].lastEditedAt.Some?
  {
    hide Inv, Next, Later;
    if n > 0 {
      if id in states[n - 1].rows && states[n - 1].rows[id].signatures != [] {
        EditedAfterSigningIff(settings, actions, states, n - 1, id);
        StampsAreInThePast(settings, actions, states, n - 1, id);
        RunStep(settings, actions, states, n, id);
        RowStep(settings, states[n - 1], actions[n - 1], states[n], id);
        hide IsRun;
      } else {
        UnsignedBefore(settings, actions, states, n, id);
      }
    }
  }

  /** For a caller: a row whose last edit, if any, is stamped before its first signature was
      signed by everyone with the payload it has. */
  lemma SeenByItsStamps(settings: Settings, actions: seq<Action>, states: seq<Queue>, n: nat, id: nat)
    requires IsRun(settings, actions, states) && InTime(actions) && n < |states| && id in states[n].rows
    requires var row := states[n].rows[id];
             row.lastEditedAt == None || row.signatures == [] || row.lastEditedAt.value < row.signatures[0].at
    ensures SignersSaw(actions, states, n, id)
  {
    var row := states[n].rows[id];
    hide Next, Inv, Signs, Edits;
    if row.signatures != [] {
      EditedAfterSigningIff(settings, actions, states, n, id);
      UneditedMeansSeen(settings, actions, states, n, id);
    } else {
      forall k | 0 <= k < n ensures !SignedAt(actions, states, id, k) {
        if SignedAt(actions, states, id, k) {
          SignedHasSignatures(settings, actions, states, k, n, id);
        }
      }
    }
  }
}
