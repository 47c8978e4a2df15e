/** The counters of a SharePoint run, told from the folders that it visits.

    `Visits` lists the calls of the recursive walk from a folder on, in order, and says nothing of
    tables or counters; `Found` is what one visit finds in its folder, or why it finds nothing.  The
    main result is conservation: a saved run has walked as many folders as it has visited, indexed
    or passed over every item in them exactly once, noted every folder that could not be listed or
    lies too deep, and named every top-level folder that resolves to no entity, all in order.  A
    run that is not aborted loses count of nothing either: a file whose row is rejected is noted. */
module SharePointCounts {
  import opened Wrappers
  import opened SharePoint

  /** One call of the recursive walk. */
  datatype Visit = Visit(id: string, depth: nat)

  /** The folders visited from a folder on, itself first, in order. */
  function Visits(drive: Drive, id: string, depth: nat): (visits: seq<Visit>)
    requires depth <= MAX_DEPTH + 1
    ensures |visits| >= 1 && visits[0] == Visit(id, depth)
    decreases MAX_DEPTH + 1 - depth, 1, 0
  {
    [Visit(id, depth)] +
    if depth <= MAX_DEPTH && drive.listing(id).Listed?
    then ChildVisits(drive, drive.listing(id).children, |drive.listing(id).children|, depth) else []
  }

  function ChildVisits(drive: Drive, children: seq<Item>, n: nat, depth: nat): seq<Visit>
    requires n <= |children| && depth <= MAX_DEPTH
    decreases MAX_DEPTH + 1 - depth, 0, n
  {
    if n == 0 then []
    else
      var before := ChildVisits(drive, children, n - 1, depth);
      if children[n - 1].Folder? then before + Visits(drive, children[n - 1].id, depth + 1) else before
  }

  /** The first `n` items that are files, and those that are neither files nor folders. */
  function Files(items: seq<Item>, n: nat): nat
    requires n <= |items|
  {
    if n == 0 then 0 else Files(items, n - 1) + if items[n - 1].File? then 1 else 0
  }

  function Unknowns(items: seq<Item>, n: nat): nat
    requires n <= |items|
  {
    if n == 0 then 0 else Unknowns(items, n - 1) + if items[n - 1].Unknown? then 1 else 0
  }

  datatype Tally = Tally(files: nat, skipped: nat, errors: seq<Error>)

  const NOTHING := Tally(0, 0, [])

  function Plus(a: Tally, b: Tally): Tally {
    Tally(a.files + b.files, a.skipped + b.skipped, a.errors + b.errors)
  }

  lemma PlusNothing(t: Tally)
    ensures Plus(t, NOTHING) == t
  {
  }

  lemma PlusAssociates(a: Tally, b: Tally, c: Tally)
    ensures Plus(Plus(a, b), c) == Plus(a, Plus(b, c))
  {
  }

  /** What one visit finds in its folder, or why it finds nothing. */
  function Found(drive: Drive, v: Visit): Tally {
    if v.depth > MAX_DEPTH then Tally(0, 0, [TooDeep(v.id)])
    else
      match drive.listing(v.id)
      case Escapes => NOTHING
      case Refused => Tally(0, 0, [ListChildren(v.id)])
      case Listed(children) => Tally(Files(children, |children|), Unknowns(children, |children|), [])
  }

  function AllFound(drive: Drive, visits: seq<Visit>): Tally {
    if visits == [] then NOTHING else Plus(Found(drive, visits[0]), AllFound(drive, visits[1..]))
  }

  lemma {:induction false} AllFoundAppend(drive: Drive, a: seq<Visit>, b: seq<Visit>)
    ensures AllFound(drive, a + b) == Plus(AllFound(drive, a), AllFound(drive, b))
  {
    hide Found;
    if a == [] {
      assert a + b == b;
    } else {
      assert (a + b)[0] == a[0] && (a + b)[1..] == a[1..] + b;
      AllFoundAppend(drive, a[1..], b);
    }
  }

  // ----- what the counters say

  function Upserts(errors: seq<Error>): nat {
    if errors == [] then 0
    else Upserts(errors[..|errors| - 1]) + if errors[|errors| - 1].Upsert? then 1 else 0
  }

  /** The errors about folders, in order. */
  function Listings(errors: seq<Error>): seq<Error> {
    if errors == [] then []
    else
      var last := errors[|errors| - 1];
      Listings(errors[..|errors| - 1]) + if last.Upsert? then [] else [last]
  }

  /** A file counts as found when it was indexed and when its row was rejected. */
  function Counted(stats: Stats): Tally {
    Tally(stats.filesIndexed + Upserts(stats.errors), stats.filesSkipped, Listings(stats.errors))
  }

  lemma CountedFail(s: State, e: Error)
    ensures var after := Fail(s, e);
            Counted(after.stats) == Plus(Counted(s.stats), if e.Upsert? then Tally(1, 0, []) else Tally(0, 0, [e])) &&
            Upserts(after.stats.errors) == Upserts(s.stats.errors) + if e.Upsert? then 1 else 0
  {
    var errors := s.stats.errors + [e];
    assert errors[..|errors| - 1] == s.stats.errors;
  }

  /** `after` comes from `before` by a walk that found `t` and entered that many folders. */
  predicate Accounts(before: State, after: State, t: Tally, folders: nat) {
    Counted(after.stats) == Plus(Counted(before.stats), t) &&
    after.stats.foldersWalked == before.stats.foldersWalked + folders &&
    after.stats.unresolved == before.stats.unresolved &&
    (!after.broken ==> !before.broken && Upserts(after.stats.errors) == Upserts(before.stats.errors))
  }

  lemma AccountsTransitive(a: State, b: State, c: State, t: Tally, u: Tally, m: nat, n: nat)
    requires Accounts(a, b, t, m) && Accounts(b, c, u, n)
    ensures Accounts(a, c, Plus(t, u), m + n)
  {
    hide Counted, Upserts;
  }

  lemma {:induction false} WalkAccounts(drive: Drive, id: string, entity: Option<nat>, depth: nat, s: State)
    requires depth <= MAX_DEPTH + 1 && !WalkFolder(drive, id, entity, depth, s).aborted
    ensures var visits := Visits(drive, id, depth);
            Accounts(s, WalkFolder(drive, id, entity, depth, s), AllFound(drive, visits), |visits| - 1)
    decreases MAX_DEPTH + 1 - depth, 1, 0
  {
    hide Counted, Upserts, WalkChildren, ChildVisits;
    var me := Visit(id, depth);
    if depth > MAX_DEPTH {
      CountedFail(s, TooDeep(id));
      OneFound(drive, me);
    } else {
      match drive.listing(id)
      case Refused =>
        CountedFail(s, ListChildren(id));
        OneFound(drive, me);
      case Listed(children) =>
        ChildrenAccount(drive, children, |children|, entity, depth, s);
        var below := ChildVisits(drive, children, |children|, depth);
        assert ([me] + below)[1..] == below;
    }
  }

  lemma OneFound(drive: Drive, v: Visit)
    ensures AllFound(drive, [v] + []) == Found(drive, v)
  {
    hide Found;
    assert ([v] + [])[1..] == [];
  }

  /** What the walk has come to after `n` items of a folder. */
  function SoFar(drive: Drive, children: seq<Item>, n: nat, depth: nat): Tally
    requires n <= |children| && depth <= MAX_DEPTH
  {
    Plus(Tally(Files(children, n), Unknowns(children, n), []), AllFound(drive, ChildVisits(drive, children, n, depth)))
  }

  function ItemVisits(drive: Drive, c: Item, depth: nat): seq<Visit>
    requires depth <= MAX_DEPTH
  {
    if c.Folder? then Visits(drive, c.id, depth + 1) else []
  }

  function OfItem(drive: Drive, c: Item, depth: nat): Tally
    requires depth <= MAX_DEPTH
  {
    match c
    case Folder(id, _) => AllFound(drive, Visits(drive, id, depth + 1))
    case Unknown(_) => Tally(0, 1, [])
    case File(_, _, _, _) => Tally(1, 0, [])
  }

  lemma OneMoreItem(drive: Drive, children: seq<Item>, n: nat, depth: nat)
    requires n < |children| && depth <= MAX_DEPTH
    ensures SoFar(drive, children, n + 1, depth)
         == Plus(SoFar(drive, children, n, depth), OfItem(drive, children[n], depth))
    ensures |ChildVisits(drive, children, n + 1, depth)|
         == |ChildVisits(drive, children, n, depth)| + |ItemVisits(drive, children[n], depth)|
  {
    hide Visits, AllFound;
    var visits := ChildVisits(drive, children, n, depth);
    if children[n].Folder? {
      AllFoundAppend(drive, visits, Visits(drive, children[n].id, depth + 1));
    }
  }

  lemma {:induction false} ChildrenAccount(drive: Drive, children: seq<Item>, n: nat, entity: Option<nat>,
                                           depth: nat, s: State)
    requires n <= |children| && depth <= MAX_DEPTH && !WalkChildren(drive, children, n, entity, depth, s).aborted
    ensures Accounts(s, WalkChildren(drive, children, n, entity, depth, s), SoFar(drive, children, n, depth),
                     |ChildVisits(drive, children, n, depth)|)
    decreases MAX_DEPTH + 1 - depth, 0, n, 1
  {
    hide Accounts, WalkFolder, Visits, ItemVisits, UpsertDocument;
    if n == 0 {
      StandsStill(s);
    } else {
      var t := WalkChildren(drive, children, n - 1, entity, depth, s);
      ChildrenAccount(drive, children, n - 1, entity, depth, s);
      OneMoreItem(drive, children, n - 1, depth);
      ItemAccounts(drive, children, n, entity, depth, s);
      hide SoFar, OfItem, ChildVisits;
      AccountsTransitive(s, t, WalkChildren(drive, children, n, entity, depth, s),
                         SoFar(drive, children, n - 1, depth), OfItem(drive, children[n - 1], depth),
                         |ChildVisits(drive, children, n - 1, depth)|, |ItemVisits(drive, children[n - 1], depth)|);
    }
  }

  lemma ItemAccounts(drive: Drive, children: seq<Item>, n: nat, entity: Option<nat>, depth: nat, s: State)
    requires 0 < n <= |children| && depth <= MAX_DEPTH
    requires !WalkChildren(drive, children, n, entity, depth, s).aborted
    ensures Accounts(WalkChildren(drive, children, n - 1, entity, depth, s),
                     WalkChildren(drive, children, n, entity, depth, s),
                     OfItem(drive, children[n - 1], depth), |ItemVisits(drive, children[n - 1], depth)|)
    decreases MAX_DEPTH + 1 - depth, 0, n, 0
  {
    hide Accounts, WalkFolder, Visits, UpsertDocument, AllFound;
    var t := WalkChildren(drive, children, n - 1, entity, depth, s);
    match children[n - 1]
    case Folder(id, _) => FolderAccounts(drive, id, entity, depth + 1, t);
    case Unknown(_) => UnknownAccounts(t);
    case File(id, _, _, _) => FileAccounts(t, id, UpsertDocument(t.docs, children[n - 1], entity, drive.now));
  }

  lemma FolderAccounts(drive: Drive, id: string, entity: Option<nat>, depth: nat, t: State)
    requires depth <= MAX_DEPTH + 1
    requires !WalkFolder(drive, id, entity, depth, Walked(t)).aborted
    ensures Accounts(t, WalkFolder(drive, id, entity, depth, Walked(t)), AllFound(drive, Visits(drive, id, depth)),
                     |Visits(drive, id, depth)|)
    decreases MAX_DEPTH + 1 - depth, 1, 1
  {
    hide WalkFolder, Upserts, Listings;
    WalkAccounts(drive, id, entity, depth, Walked(t));
  }

  /** A folder has been entered. */
  function Walked(t: State): State {
    t.(stats := t.stats.(foldersWalked := t.stats.foldersWalked + 1))
  }

  lemma StandsStill(s: State)
    ensures Accounts(s, s, Plus(Tally(0, 0, []), NOTHING), 0)
  {
    hide Counted, Upserts;
    PlusNothing(Counted(s.stats));
    PlusNothing(NOTHING);
  }

  lemma UnknownAccounts(t: State)
    ensures Accounts(t, t.(stats := t.stats.(filesSkipped := t.stats.filesSkipped + 1)), Tally(0, 1, []), 0)
  {
  }

  lemma FileAccounts(t: State, id: string, docs: seq<Document>)
    ensures Accounts(t, Fail(t, Error.Upsert(id)).(broken := true), Tally(1, 0, []), 0)
    ensures Accounts(t, t.(docs := docs, stats := t.stats.(filesIndexed := t.stats.filesIndexed + 1)),
                     Tally(1, 0, []), 0)
  {
    CountedFail(t, Error.Upsert(id));
  }

  // ----- a whole run

  /** The folders visited from the first `n` top-level items. */
  function TopVisits(drive: Drive, items: seq<Item>, n: nat): seq<Visit>
    requires n <= |items|
  {
    if n == 0 then []
    else
      var before := TopVisits(drive, items, n - 1);
      if items[n - 1].Folder? then before + Visits(drive, items[n - 1].id, 1) else before
  }

  /** The names of the folders among them that resolve to no entity, in order. */
  function Unresolved(drive: Drive, items: seq<Item>, n: nat): seq<string>
    requires n <= |items|
  {
    if n == 0 then []
    else
      var c, before := items[n - 1], Unresolved(drive, items, n - 1);
      if c.Folder? && drive.resolve(c.name) == None then before + [c.name] else before
  }

  /** How many of them are not folders: at the top these are all passed over. */
  function Loose(items: seq<Item>, n: nat): nat
    requires n <= |items|
  {
    if n == 0 then 0 else Loose(items, n - 1) + if items[n - 1].Folder? then 0 else 1
  }

  /** What a run has found after the first `n` top-level items. */
  function TopFound(drive: Drive, items: seq<Item>, n: nat): Tally
    requires n <= |items|
  {
    Plus(Tally(0, Loose(items, n), []), AllFound(drive, TopVisits(drive, items, n)))
  }

  ghost predicate TopOk(drive: Drive, items: seq<Item>, n: nat, end: State)
    requires n <= |items|
  {
    Counted(end.stats) == TopFound(drive, items, n) &&
    end.stats.foldersWalked == |TopVisits(drive, items, n)| &&
    end.stats.unresolved == Unresolved(drive, items, n) &&
    (!end.broken ==> Upserts(end.stats.errors) == 0)
  }

  lemma {:induction false} TopAccounts(drive: Drive, items: seq<Item>, n: nat, docs: seq<Document>)
    requires n <= |items| && !IndexTop(drive, items, n, State(docs, NO_STATS, false, false)).aborted
    ensures TopOk(drive, items, n, IndexTop(drive, items, n, State(docs, NO_STATS, false, false)))
  {
    hide WalkFolder, Visits, TopOk, Accounts, Entered, AllFound;
    var start := State(docs, NO_STATS, false, false);
    if n == 0 {
      NothingYet(drive, items, start);
    } else {
      TopAccounts(drive, items, n - 1, docs);
      var t, c := IndexTop(drive, items, n - 1, start), items[n - 1];
      if c.Folder? {
        var entered := t.(stats := Entered(drive, t.stats, c.name));
        WalkAccounts(drive, c.id, drive.resolve(c.name), 1, entered);
        TopFolder(drive, items, n, t, WalkFolder(drive, c.id, drive.resolve(c.name), 1, entered));
      } else {
        TopOther(drive, items, n, t);
      }
    }
  }

  lemma NothingYet(drive: Drive, items: seq<Item>, start: State)
    requires start.stats == NO_STATS
    ensures TopOk(drive, items, 0, start)
  {
    var none: seq<Error> := [];
    assert Upserts(none) == 0 && Listings(none) == none;
    assert AllFound(drive, []) == NOTHING;
    PlusNothing(NOTHING);
    hide Upserts, Listings, AllFound, Visits;
  }

  lemma TopOther(drive: Drive, items: seq<Item>, n: nat, t: State)
    requires 0 < n <= |items| && !items[n - 1].Folder? && TopOk(drive, items, n - 1, t)
    ensures TopOk(drive, items, n, t.(stats := t.stats.(filesSkipped := t.stats.filesSkipped + 1)))
  {
    hide Upserts, Listings, AllFound, Visits;
  }

  lemma TopFolder(drive: Drive, items: seq<Item>, n: nat, t: State, after: State)
    requires 0 < n <= |items| && items[n - 1].Folder? && TopOk(drive, items, n - 1, t)
    requires var c := items[n - 1];
             var below := Visits(drive, c.id, 1);
             Accounts(t.(stats := Entered(drive, t.stats, c.name)), after, AllFound(drive, below), |below| - 1)
    ensures TopOk(drive, items, n, after)
  {
    hide Upserts, Listings, AllFound, Visits;
    var visits, below := TopVisits(drive, items, n - 1), Visits(drive, items[n - 1].id, 1);
    AllFoundAppend(drive, visits, below);
    PlusAssociates(Tally(0, Loose(items, n), []), AllFound(drive, visits), AllFound(drive, below));
  }

  lemma {:induction false} NoUpsertsNoLoss(errors: seq<Error>)
    requires Upserts(errors) == 0
    ensures Listings(errors) == errors
  {
    if errors != [] {
      NoUpsertsNoLoss(errors[..|errors| - 1]);
      assert errors == errors[..|errors| - 1] + [errors[|errors| - 1]];
    }
  }

  /** The counters of a saved run: every folder visited, every file in them, every other item,
      every folder that could not be listed or lies too deep, and every top-level folder that
      no entity was found for, each as often as it is come to. */
  lemma SavedRunCounts(drive: Drive, docs: seq<Document>)
    requires Saves(drive, docs) && drive.root.Listed?
    ensures var items, stats := drive.root.children, Index(drive, docs).stats;
            var visits := TopVisits(drive, items, |items|);
            stats.foldersWalked == |visits| &&
            stats.filesIndexed == AllFound(drive, visits).files &&
            stats.filesSkipped == Loose(items, |items|) + AllFound(drive, visits).skipped &&
            stats.errors == AllFound(drive, visits).errors &&
            stats.unresolved == Unresolved(drive, items, |items|)
  {
    hide IndexTop, TopVisits, Loose, Unresolved, AllFound;
    var items := drive.root.children;
    TopAccounts(drive, items, |items|, docs);
    NoUpsertsNoLoss(Index(drive, docs).stats.errors);
  }
}
