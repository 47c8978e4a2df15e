/** The sweeps over the approval queue: a firm's dispatch sweep item by item, with the session's
    commits on the way and the exceptions that may escape, and the delivery sweep.

    A sweep's state keeps apart the rows as the session sees them and as they were committed last,
    because an exception that escapes rolls the session back while the drafts that were created
    stay in the mailbox.  The main results: an undisturbed sweep tries every item once, each on its
    own; however a sweep ends, a row is sent only with a draft and no item has two of them; and a
    draft is left without its row exactly under a condition on what happens to the items. */
module ApprovalSweep {
  import opened Wrappers
  import opened Approval

  /** A sweep under way.  `saved` is what a rollback returns to; `drafted` are the positions for
      which a draft was created, in order, `unsaved` the one whose row is `sent` but not yet
      committed (creating the next draft commits), `left` whether a failure left a draft. */
  datatype SweepState = SweepState(rows: seq<Row>, saved: seq<Row>, drafted: seq<nat>, unsaved: Option<nat>,
                                   left: bool, labels: seq<string>, escaped: bool)

  function SweepItem(s: SweepState, i: nat, o: ItemOutcome, now: int): SweepState
    requires i < |s.rows|
  {
    var row := s.rows[i];
    var saved := if CommitsFirst(row, o) then s.rows else s.saved;
    var unsaved := if CommitsFirst(row, o) then None else s.unsaved;
    var drafted := if MakesDraft(row, o) then s.drafted + [i] else s.drafted;
    if Escapes(row, o) then
      SweepState(s.rows, saved, drafted, if o.EscapesFlushing? then Some(i) else unsaved, s.left, s.labels, true)
    else
      var tried := Tried(row, o, now);
      SweepState(s.rows[i := tried.0], saved, drafted, if tried.0.status == Sent then Some(i) else unsaved,
                 s.left || (MakesDraft(row, o) && tried.0.status != Sent), s.labels + [tried.1], false)
  }

  /** The sweep's first `n` items, or those up to an escaping exception. */
  function SweepItems(rows: seq<Row>, outcomes: nat -> ItemOutcome, now: int, n: nat): (s: SweepState)
    requires n <= |rows|
    ensures |s.rows| == |s.saved| == |rows| && forall p | p in s.drafted :: p < n
  {
    if n == 0 then SweepState(rows, rows, [], None, false, [], false)
    else
      var s := SweepItems(rows, outcomes, now, n - 1);
      if s.escaped then s else SweepItem(s, n - 1, outcomes(n - 1), now)
  }

  /** The sweep's last act is to commit; an exception that escaped has rolled it back. */
  function Ended(s: SweepState, commitFails: bool): SweepState
  {
    if s.escaped then s.(rows := s.saved)
    else if commitFails then s.(rows := s.saved, escaped := true)
    else s.(saved := s.rows, unsaved := None)
  }

  function Swept(rows: seq<Row>, outcomes: nat -> ItemOutcome, commitFails: bool, now: int): (s: SweepState)
    ensures |s.rows| == |rows| && forall p | p in s.drafted :: p < |rows|
  {
    Ended(SweepItems(rows, outcomes, now, |rows|), commitFails)
  }

  // ----- which sweeps lose a draft, by what happens to their items

  /** No exception escapes before the item. */
  predicate Reached(rows: seq<Row>, outcomes: nat -> ItemOutcome, i: nat) {
    i < |rows| && forall j | 0 <= j < i :: !Escapes(rows[j], outcomes(j))
  }

  /** The item fails, but a draft of it has come into being. */
  predicate LeavesADraft(row: Row, o: ItemOutcome) {
    MakesDraft(row, o) && o.Handled? && !o.attempt.Draft?
  }

  /** Among the first `n` items one is reached and leaves a draft. */
  predicate SomeLeft(rows: seq<Row>, outcomes: nat -> ItemOutcome, n: nat) {
    exists i | 0 <= i < n :: Reached(rows, outcomes, i) && LeavesADraft(rows[i], outcomes(i))
  }

  predicate SomeEscapes(rows: seq<Row>, outcomes: nat -> ItemOutcome, n: nat) {
    exists j | 0 <= j < n && j < |rows| :: Escapes(rows[j], outcomes(j))
  }

  /** The item's draft is created, and no item after it commits before the `n`-th. */
  predicate UnsavedAt(rows: seq<Row>, outcomes: nat -> ItemOutcome, i: nat, n: nat) {
    Reached(rows, outcomes, i) && MakesDraft(rows[i], outcomes(i)) && !LeavesADraft(rows[i], outcomes(i)) &&
    forall j | i < j < n && Reached(rows, outcomes, j) :: !CommitsFirst(rows[j], outcomes(j))
  }

  predicate SomeUnsaved(rows: seq<Row>, outcomes: nat -> ItemOutcome, n: nat) {
    exists i | 0 <= i < n :: UnsavedAt(rows, outcomes, i, n)
  }

  /** A failure leaves a draft behind; or the sweep is rolled back, by an exception that
      escapes or a last commit that fails, and nothing has been committed since a draft. */
  predicate LosesADraft(rows: seq<Row>, outcomes: nat -> ItemOutcome, commitFails: bool) {
    SomeLeft(rows, outcomes, |rows|) ||
    ((commitFails || SomeEscapes(rows, outcomes, |rows|)) && SomeUnsaved(rows, outcomes, |rows|))
  }

  // ----- the sweeps, as the code does them

  method Snapshot(items: seq<ApprovalItem>) returns (rows: seq<Row>)
    ensures |rows| == |items| && forall i | 0 <= i < |items| :: rows[i] == items[i].row
  {
    rows := [];
    for i := 0 to |items|
      invariant |rows| == i && forall j | 0 <= j < i :: rows[j] == items[j].row
    {
      rows := rows + [items[i].row];
    }
  }

  /** The session is rolled back: the rows are what was committed last. */
  method Rollback(items: seq<ApprovalItem>, saved: seq<Row>)
    requires |saved| == |items| && forall i, j | 0 <= i < j < |items| :: items[i] != items[j]
    modifies items
    ensures forall i | 0 <= i < |items| :: items[i].row == saved[i]
  {
    for i := 0 to |items|
      invariant forall j | 0 <= j < i :: items[j].row == saved[j]
    {
      items[i].row := saved[i];
    }
  }

  /** One turn of the sweep's loop, with what the session does meanwhile. */
  method SweepOne(items: seq<ApprovalItem>, i: nat, saved: seq<Row>, ghost s: SweepState, o: ItemOutcome, now: int)
      returns (action: Option<string>, saved': seq<Row>)
    requires i < |items| == |saved| == |s.rows| && saved == s.saved
    requires forall j | 0 <= j < |items| :: items[j].row == s.rows[j]
    modifies items[i]
    ensures var s' := SweepItem(s, i, o, now);
            s'.rows == s.rows[i := items[i].row] && saved' == s'.saved && (action == None <==> s'.escaped) &&
            s'.labels == s.labels + if action == None then [] else [action.value]
  {
    hide Dispatch, CommitsFirst, MakesDraft, Escapes;
    var item := items[i];
    saved' := saved;
    if CommitsFirst(item.row, o) {
      saved' := Snapshot(items);
      assert saved' == s.rows;
    }
    action := item.DispatchItem(o, now);
    assert s.labels + [] == s.labels;
  }

  /** The sweep's counters; `actions` tallies the labels. */
  datatype Counts = Counts(itemsSeen: nat, dispatched: nat, failed: nat, actions: multiset<string>)

  predicate Tallies(c: Counts, labels: seq<string>) {
    c.actions == multiset(labels) && c.dispatched == c.actions["dispatched"] && c.dispatched + c.failed == |labels|
  }

  method Record(c: Counts, action: Option<string>, ghost labels: seq<string>) returns (c': Counts)
    requires Tallies(c, labels)
    ensures Tallies(c', labels + if action == None then [] else [action.value]) && c'.itemsSeen == c.itemsSeen + 1
  {
    c' := c.(itemsSeen := c.itemsSeen + 1);
    if action == None {
      assert labels + [] == labels;
      return;
    }
    c' := c'.(actions := c.actions + multiset{action.value});
    if action.value == "dispatched" {
      c' := c'.(dispatched := c.dispatched + 1);
    } else {
      c' := c'.(failed := c.failed + 1);
    }
  }

  /** The loop of the sweep, up to an escaping exception. */
  method SweepLoop(items: seq<ApprovalItem>, ghost rows: seq<Row>, outcomes: nat -> ItemOutcome, now: int)
      returns (c: Counts, saved: seq<Row>, escaped: bool)
    requires forall i, j | 0 <= i < j < |items| :: items[i] != items[j]
    requires |rows| == |items| && forall i | 0 <= i < |items| :: items[i].row == rows[i]
    modifies items
    ensures var s := SweepItems(rows, outcomes, now, |items|);
            (forall i | 0 <= i < |items| :: items[i].row == s.rows[i]) && saved == s.saved && escaped == s.escaped &&
            Tallies(c, s.labels) && c.itemsSeen == |s.labels| + (if escaped then 1 else 0) <= |items|
  {
    hide SweepItem, SweepItems, Tallies;
    c, escaped := Counts(0, 0, 0, multiset{}), false;
    saved := Snapshot(items);
    assert saved == rows;
    ghost var s := SweepItems(rows, outcomes, now, 0);
    NothingYet(rows, outcomes, now);
    var i := 0;
    while i < |items| && !escaped
      invariant i <= |items| && s == SweepItems(rows, outcomes, now, i) && escaped == s.escaped && saved == s.saved
      invariant forall j | 0 <= j < |items| :: items[j].row == s.rows[j]
      invariant Tallies(c, s.labels) && c.itemsSeen == i == |s.labels| + (if escaped then 1 else 0)
    {
      SweepStep(rows, outcomes, now, i);
      var action;
      action, saved := SweepOne(items, i, saved, s, outcomes(i), now);
      c := Record(c, action, s.labels);
      s := SweepItem(s, i, outcomes(i), now);
      escaped := action == None;
      i := i + 1;
    }
    if escaped {
      EscapeEnds(rows, outcomes, now, i, |items|);
    }
  }

  lemma NothingYet(rows: seq<Row>, outcomes: nat -> ItemOutcome, now: int)
    ensures SweepItems(rows, outcomes, now, 0) == SweepState(rows, rows, [], None, false, [], false)
    ensures Tallies(Counts(0, 0, 0, multiset{}), [])
  {
  }

  /** One firm's dispatch sweep over the items its query returned (`rows` names their values
      before it).  An escaping item is seen, but neither dispatched nor failed. */
  method SweepFirm(items: seq<ApprovalItem>, ghost rows: seq<Row>, outcomes: nat -> ItemOutcome, commitFails: bool,
                   now: int)
      returns (c: Counts, escaped: bool)
    requires forall i, j | 0 <= i < j < |items| :: items[i] != items[j]
    requires |rows| == |items| && forall i | 0 <= i < |items| :: items[i].row == rows[i]
    modifies items
    ensures var s := Swept(rows, outcomes, commitFails, now);
            (forall i | 0 <= i < |items| :: items[i].row == s.rows[i]) && escaped == s.escaped &&
            Tallies(c, s.labels) &&
            |s.labels| <= c.itemsSeen <= |items| && (!escaped ==> c.itemsSeen == |s.labels| == |items|)
  {
    hide SweepItems, Tallies;
    var saved;
    c, saved, escaped := SweepLoop(items, rows, outcomes, now);
    AllLabelled(rows, outcomes, now, |rows|);
    if escaped || commitFails {
      Rollback(items, saved);
      escaped := true;
    }
  }

  lemma {:induction false} AllLabelled(rows: seq<Row>, outcomes: nat -> ItemOutcome, now: int, n: nat)
    requires n <= |rows|
    ensures var s := SweepItems(rows, outcomes, now, n); |s.labels| <= n && (!s.escaped ==> |s.labels| == n)
  {
    hide Tried, Escapes, CommitsFirst, MakesDraft;
    if n > 0 {
      AllLabelled(rows, outcomes, now, n - 1);
    }
  }

  lemma SweepStep(rows: seq<Row>, outcomes: nat -> ItemOutcome, now: int, i: nat)
    requires i < |rows| && !SweepItems(rows, outcomes, now, i).escaped
    ensures SweepItems(rows, outcomes, now, i + 1)
         == SweepItem(SweepItems(rows, outcomes, now, i), i, outcomes(i), now)
  {
  }

  lemma {:induction false} EscapeEnds(rows: seq<Row>, outcomes: nat -> ItemOutcome, now: int, m: nat, n: nat)
    requires m <= n <= |rows| && SweepItems(rows, outcomes, now, m).escaped
    ensures SweepItems(rows, outcomes, now, n) == SweepItems(rows, outcomes, now, m)
  {
    hide SweepItem;
    if m < n {
      EscapeEnds(rows, outcomes, now, m, n - 1);
    }
  }

  /** One firm's delivery sweep over the rows that its query returned. */
  method SweepFirmDelivery(items: seq<ApprovalItem>, now: int)
      returns (itemsSeen: nat, confirmed: nat)
    requires forall i, j | 0 <= i < j < |items| :: items[i] != items[j]
    requires forall i | 0 <= i < |items| :: Confirmable(items[i].row, now)
    modifies items
    ensures forall i | 0 <= i < |items| :: items[i].row == Confirm(old(items[i].row), now)
    ensures forall i | 0 <= i < |items| ::
              items[i].row.delivery == Delivered && items[i].row.deliveryUpdatedAt == Some(now) &&
              items[i].row.updatedAt == now
    ensures forall i | 0 <= i < |items| :: !Confirmable(items[i].row, now)
    ensures itemsSeen == confirmed == |items|
  {
    itemsSeen, confirmed := 0, 0;
    for i := 0 to |items|
      invariant forall j | 0 <= j < i :: items[j].row == Confirm(old(items[j].row), now)
      invariant forall j | i <= j < |items| :: items[j].row == old(items[j].row)
      invariant itemsSeen == confirmed == i
    {
      itemsSeen := itemsSeen + 1;
      var row := items[i].row;
      items[i].row := row.(delivery := Delivered, deliveryUpdatedAt := Some(now), updatedAt := now);
      confirmed := confirmed + 1;
    }
  }

  // ----- what a sweep does to its rows

  /** What a sweep may make of a row that it was given. */
  predicate Kept(r: Row, s: Row, now: int) {
    RowOk(s) && Later(r, s) &&
    if s.status == Sent then MatchesDraft(s, now) && s.delivery == Out && GoodPayload(s)
    else Dispatchable(s) && s.delivery == r.delivery
  }

  lemma SelfKept(row: Row, now: int)
    requires RowOk(row) && Dispatchable(row)
    ensures Kept(row, row, now) && row.status != Sent
  {
  }

  lemma TriedKept(row: Row, o: ItemOutcome, now: int)
    requires RowOk(row) && Dispatchable(row) && !Escapes(row, o)
    ensures Kept(row, Tried(row, o, now).0, now)
  {
    var attempt := if o.Handled? then o.attempt else UserMissing;
    assert row.delivery == Unknown;
    hide RowOk, Later;
  }

  lemma DraftsCommit(row: Row, o: ItemOutcome, now: int)
    ensures !Escapes(row, o) && Tried(row, o, now).0.status == Sent ==> MakesDraft(row, o) && CommitsFirst(row, o)
    ensures Escapes(row, o) && MakesDraft(row, o) ==> CommitsFirst(row, o)
    ensures Escapes(row, o) ==> (MakesDraft(row, o) <==> o.EscapesFlushing?)
    ensures MakesDraft(row, o) ==> GoodPayload(row)
  {
  }

  predicate Distinct(s: seq<nat>) {
    forall i, j | 0 <= i < j < |s| :: s[i] != s[j]
  }

  /** The rows of a sweep after `n` items: each as it was or tried once, sent only with a draft. */
  ghost predicate SweepOk(rows: seq<Row>, s: SweepState, n: nat, now: int) {
    |s.rows| == |s.saved| == |rows| &&
    (forall i | 0 <= i < |rows| :: Kept(rows[i], s.rows[i], now) && Kept(rows[i], s.saved[i], now)) &&
    (forall i | n <= i < |rows| :: s.rows[i] == s.saved[i] == rows[i]) &&
    (forall i: nat | i < |rows| && (s.rows[i].status == Sent || s.saved[i].status == Sent) :: i in s.drafted) &&
    forall p | p in s.drafted :: p < n && p < |rows| && GoodPayload(rows[p])
  }

  ghost predicate HasRow(s: SweepState, p: nat)
    requires |s.rows| == |s.saved| && p < |s.rows|
  {
    (s.saved[p].status == Sent || s.unsaved == Some(p)) && (!s.escaped ==> s.rows[p].status == Sent)
  }

  /** Which of the drafts have a row that says so. */
  ghost predicate DraftsOk(s: SweepState) {
    |s.rows| == |s.saved| && (forall p | p in s.drafted :: p < |s.rows|) &&
    (s.unsaved.Some? ==> s.unsaved.value in s.drafted && s.saved[s.unsaved.value].status != Sent) &&
    (s.left ==> exists p :: p in s.drafted && s.rows[p].status != Sent && s.saved[p].status != Sent) &&
    (!s.left ==> forall p | p in s.drafted :: HasRow(s, p))
  }

  lemma ItemKeepsSweepOk(rows: seq<Row>, s: SweepState, i: nat, o: ItemOutcome, now: int)
    requires i < |rows| && SweepOk(rows, s, i, now) && RowOk(rows[i]) && Dispatchable(rows[i]) && !s.escaped
    ensures SweepOk(rows, SweepItem(s, i, o, now), i + 1, now)
  {
    hide Kept, Tried, CommitsFirst, MakesDraft, Escapes, RowOk, Dispatchable, GoodPayload;
    SelfKept(rows[i], now);
    if !Escapes(rows[i], o) { TriedKept(rows[i], o, now); }
    DraftsCommit(rows[i], o, now);
  }

  lemma ItemKeepsDraftsOk(rows: seq<Row>, s: SweepState, i: nat, o: ItemOutcome, now: int)
    requires i < |rows| && SweepOk(rows, s, i, now) && RowOk(rows[i]) && Dispatchable(rows[i]) && !s.escaped
    requires DraftsOk(s)
    ensures DraftsOk(SweepItem(s, i, o, now))
  {
    hide Kept, Tried, CommitsFirst, MakesDraft, RowOk, Dispatchable;
    SelfKept(rows[i], now);
    DraftsCommit(rows[i], o, now);
    assert i !in s.drafted;
  }

  lemma SweepStartsOk(rows: seq<Row>, outcomes: nat -> ItemOutcome, now: int)
    requires forall i | 0 <= i < |rows| :: RowOk(rows[i]) && Dispatchable(rows[i])
    ensures SweepOk(rows, SweepItems(rows, outcomes, now, 0), 0, now) && DraftsOk(SweepItems(rows, outcomes, now, 0))
  {
    hide Kept;
    forall i | 0 <= i < |rows| ensures Kept(rows[i], rows[i], now) && rows[i].status != Sent {
      SelfKept(rows[i], now);
    }
  }

  lemma {:induction false} SweepItemsOk(rows: seq<Row>, outcomes: nat -> ItemOutcome, now: int, n: nat)
    requires n <= |rows| && forall i | 0 <= i < |rows| :: RowOk(rows[i]) && Dispatchable(rows[i])
    ensures SweepOk(rows, SweepItems(rows, outcomes, now, n), n, now) && DraftsOk(SweepItems(rows, outcomes, now, n))
  {
    hide SweepItem, RowOk, Kept, Dispatchable, DraftsOk, GoodPayload;
    if n == 0 {
      SweepStartsOk(rows, outcomes, now);
    } else {
      var s := SweepItems(rows, outcomes, now, n - 1);
      SweepItemsOk(rows, outcomes, now, n - 1);
      if !s.escaped {
        ItemKeepsSweepOk(rows, s, n - 1, outcomes(n - 1), now);
        ItemKeepsDraftsOk(rows, s, n - 1, outcomes(n - 1), now);
      }
    }
  }

  lemma AttemptsTell(row: Row, o: ItemOutcome, now: int)
    requires !Escapes(row, o)
    ensures Tried(row, o, now).0.status == Sent <==> MakesDraft(row, o) && !LeavesADraft(row, o)
  {
  }

  lemma SomeStep(rows: seq<Row>, outcomes: nat -> ItemOutcome, n: nat)
    requires n < |rows|
    ensures var row, o := rows[n], outcomes(n);
            var reached := Reached(rows, outcomes, n);
            (reached <==> !SomeEscapes(rows, outcomes, n)) &&
            (SomeEscapes(rows, outcomes, n + 1) <==> SomeEscapes(rows, outcomes, n) || Escapes(row, o)) &&
            (SomeLeft(rows, outcomes, n + 1) <==>
               SomeLeft(rows, outcomes, n) || (reached && LeavesADraft(row, o)))
  {
    hide MakesDraft, Escapes, LeavesADraft;
  }

  lemma UnsavedStep(rows: seq<Row>, outcomes: nat -> ItemOutcome, n: nat)
    requires n < |rows|
    ensures var row, o := rows[n], outcomes(n);
            var reached := Reached(rows, outcomes, n);
            (SomeUnsaved(rows, outcomes, n + 1) <==>
               (SomeUnsaved(rows, outcomes, n) && !(reached && CommitsFirst(row, o))) ||
               (reached && MakesDraft(row, o) && !LeavesADraft(row, o)))
  {
    hide MakesDraft, CommitsFirst, LeavesADraft, Reached;
    var row, o := rows[n], outcomes(n);
    assert UnsavedAt(rows, outcomes, n, n + 1) <==>
             Reached(rows, outcomes, n) && MakesDraft(row, o) && !LeavesADraft(row, o);
    forall i | 0 <= i < n
      ensures UnsavedAt(rows, outcomes, i, n + 1) <==>
                UnsavedAt(rows, outcomes, i, n) && !(Reached(rows, outcomes, n) && CommitsFirst(row, o))
    {
    }
    var m := n + 1;
    if i :| 0 <= i < m && UnsavedAt(rows, outcomes, i, m) {
      assert i == n || UnsavedAt(rows, outcomes, i, n);
    }
    if i :| 0 <= i < n && UnsavedAt(rows, outcomes, i, n) {
      assert !(Reached(rows, outcomes, n) && CommitsFirst(row, o)) ==> UnsavedAt(rows, outcomes, i, n + 1);
    }
  }

  /** The state of the sweep after `n` items, told from what happened to them. */
  lemma {:induction false} SweepItemsTell(rows: seq<Row>, outcomes: nat -> ItemOutcome, now: int, n: nat)
    requires n <= |rows|
    ensures var s := SweepItems(rows, outcomes, now, n);
            (s.escaped <==> SomeEscapes(rows, outcomes, n)) &&
            (forall i | n <= i < |rows| :: s.rows[i] == rows[i]) &&
            (s.left <==> SomeLeft(rows, outcomes, n)) &&
            (s.unsaved.Some? <==> SomeUnsaved(rows, outcomes, n))
  {
    hide MakesDraft, CommitsFirst, Escapes, Tried, LeavesADraft, Reached, SomeEscapes, SomeLeft, SomeUnsaved;
    if n == 0 {
      NothingLost(rows, outcomes);
    } else {
      var row, o := rows[n - 1], outcomes(n - 1);
      SweepItemsTell(rows, outcomes, now, n - 1);
      if !Escapes(row, o) { AttemptsTell(row, o, now); }
      DraftsCommit(row, o, now);
      LeftIsHandled(row, o);
      SomeStep(rows, outcomes, n - 1);
      UnsavedStep(rows, outcomes, n - 1);
    }
  }

  lemma NothingLost(rows: seq<Row>, outcomes: nat -> ItemOutcome)
    ensures !SomeEscapes(rows, outcomes, 0) && !SomeLeft(rows, outcomes, 0) && !SomeUnsaved(rows, outcomes, 0)
  {
  }

  lemma LeftIsHandled(row: Row, o: ItemOutcome)
    ensures LeavesADraft(row, o) ==> MakesDraft(row, o) && !Escapes(row, o)
    ensures MakesDraft(row, o) && !LeavesADraft(row, o) ==> CommitsFirst(row, o)
  {
  }

  lemma LosesIff(rows: seq<Row>, outcomes: nat -> ItemOutcome, commitFails: bool, now: int)
    ensures var s := Swept(rows, outcomes, commitFails, now);
            LosesADraft(rows, outcomes, commitFails) <==> s.left || (s.escaped && s.unsaved.Some?)
  {
    hide SweepItems, SomeLeft, SomeUnsaved, SomeEscapes;
    SweepItemsTell(rows, outcomes, now, |rows|);
  }

  /** An undisturbed sweep tries every item once, each on its own. */
  lemma {:induction false} EachIsTried(rows: seq<Row>, outcomes: nat -> ItemOutcome, now: int, n: nat)
    requires n <= |rows| && !SomeEscapes(rows, outcomes, n)
    ensures var s := SweepItems(rows, outcomes, now, n);
            !s.escaped && |s.labels| == n && (forall i | n <= i < |rows| :: s.rows[i] == rows[i]) &&
            forall i | 0 <= i < n :: (s.rows[i], s.labels[i]) == Tried(rows[i], outcomes(i), now)
  {
    hide Tried, MakesDraft, CommitsFirst, Escapes;
    if n > 0 {
      assert !SomeEscapes(rows, outcomes, n - 1);
      assert !Escapes(rows[n - 1], outcomes(n - 1));
      EachIsTried(rows, outcomes, now, n - 1);
    }
  }

  /** The sweep as a whole: rows only move forward, a row is sent only with a draft, and an
      item has at most one. */
  ghost predicate SweepFacts(rows: seq<Row>, s: SweepState, now: int) {
    |s.rows| == |rows| &&
    (forall i | 0 <= i < |rows| :: Kept(rows[i], s.rows[i], now)) &&
    (forall i: nat | i < |rows| && s.rows[i].status == Sent :: i in s.drafted) &&
    Distinct(s.drafted) && forall p | p in s.drafted :: p < |rows| && GoodPayload(rows[p])
  }

  lemma {:induction false} DraftedAscends(rows: seq<Row>, outcomes: nat -> ItemOutcome, now: int, n: nat)
    requires n <= |rows|
    ensures Distinct(SweepItems(rows, outcomes, now, n).drafted)
  {
    hide Tried, MakesDraft, CommitsFirst, Escapes;
    if n > 0 {
      DraftedAscends(rows, outcomes, now, n - 1);
      var s := SweepItems(rows, outcomes, now, n - 1);
      assert forall i | 0 <= i < |s.drafted| :: s.drafted[i] in s.drafted;
    }
  }

  /** And there is a draft whose row is not sent, for a next sweep to make again, if and only
      if the sweep loses one. */
  lemma SweptOk(rows: seq<Row>, outcomes: nat -> ItemOutcome, commitFails: bool, now: int)
    requires forall i | 0 <= i < |rows| :: RowOk(rows[i]) && Dispatchable(rows[i])
    ensures var s := Swept(rows, outcomes, commitFails, now);
            SweepFacts(rows, s, now) &&
            (LosesADraft(rows, outcomes, commitFails) <==> exists p :: p in s.drafted && s.rows[p].status != Sent)
  {
    hide SweepItems, Kept, GoodPayload, RowOk, Dispatchable, LosesADraft, Distinct;
    SweepItemsOk(rows, outcomes, now, |rows|);
    DraftedAscends(rows, outcomes, now, |rows|);
    LosesIff(rows, outcomes, commitFails, now);
  }
}
