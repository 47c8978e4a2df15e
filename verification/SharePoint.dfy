/** Indexing a SharePoint drive: a depth-bounded walk over folders that may be shared or form
    cycles, with one document row per drive item.

    The main results: the walk always ends; a run is saved if and only if no folder within reach
    raises and no file within reach is rejected, and then the items with a row are the old ones
    and exactly the files reachable through at most twenty folders; no item gets two rows; and
    re-indexing adds none and keeps what other stages extracted. */
module SharePoint {
  import opened Wrappers

  const MAX_DEPTH: nat := 20

  /** A drive item; one with both a folder and a file block counts as a folder. */
  datatype Item =
    | Folder(id: string, name: string)
    | File(id: string, name: string, webUrl: string, mimeType: Option<string>)
    | Unknown(id: string)

  /** `Refused` is an auth error or a missing item, noted and skipped; `Escapes` any other
      connector error, which ends the run. */
  datatype Listing = Listed(children: seq<Item>) | Refused | Escapes

  datatype Json = Null | Text(text: string) | Number(value: int)

  datatype Document = Document(source: string, entity: Option<nat>, title: string, data: map<string, Json>,
                               indexedAt: int)

  datatype Error = ListRoot | ListChildren(id: string) | TooDeep(id: string) | Upsert(id: string)

  datatype Stats = Stats(foldersWalked: nat, filesIndexed: nat, filesSkipped: nat, unresolved: seq<string>,
                         errors: seq<Error>)

  /** The drive during one run, the items whose row the database rejects, and the folder
      resolver (a database query too). */
  datatype Drive = Drive(root: Listing, listing: string -> Listing, rejected: set<string>,
                         resolve: string -> Option<nat>, now: int)

  /** A run under way: `broken` once the database has rejected a statement, after which the
      session refuses every other one; `aborted` when an exception has escaped. */
  datatype State = State(docs: seq<Document>, stats: Stats, aborted: bool, broken: bool)

  // ----- one row per item

  const ITEM_KEY := "graph_drive_item_id"

  function ItemId(d: Document): Option<string> {
    if ITEM_KEY in d.data && d.data[ITEM_KEY].Text? then Some(d.data[ITEM_KEY].text) else None
  }

  /** The keys that the indexer writes. */
  function IndexerData(f: Item): (data: map<string, Json>)
    requires f.File?
    ensures data.Keys == {ITEM_KEY, "graph_web_url", "graph_mime_type", "indexer_version"} &&
            data[ITEM_KEY] == Text(f.id)
  {
    map["graph_web_url" := Text(f.webUrl),
        "graph_mime_type" := if f.mimeType.Some? then Text(f.mimeType.value) else Null,
        "indexer_version" := Number(1)][ITEM_KEY := Text(f.id)]
  }

  /** The first row of an item, or the table's length. */
  function RowOf(docs: seq<Document>, id: string): (i: nat)
    ensures i <= |docs| && (i < |docs| ==> ItemId(docs[i]) == Some(id))
    ensures forall k | 0 <= k < i :: ItemId(docs[k]) != Some(id)
  {
    if docs == [] then 0
    else
      var i := RowOf(docs[..|docs| - 1], id);
      if i < |docs| - 1 then i else if ItemId(docs[i]) == Some(id) then i else i + 1
  }

  function Refreshed(d: Document, f: Item, entity: Option<nat>, now: int): Document
    requires f.File?
  {
    d.(title := f.name, entity := entity, indexedAt := now, data := d.data + IndexerData(f))
  }

  function UpsertDocument(docs: seq<Document>, f: Item, entity: Option<nat>, now: int): seq<Document>
    requires f.File?
  {
    var i := RowOf(docs, f.id);
    if i < |docs| then docs[i := Refreshed(docs[i], f, entity, now)]
    else docs + [Document("sharepoint", entity, f.name, IndexerData(f), now)]
  }

  function Ids(docs: seq<Document>): set<string> {
    set d | d in docs && ItemId(d).Some? :: ItemId(d).value
  }

  predicate UniqueItems(docs: seq<Document>) {
    forall i, j | 0 <= i < j < |docs| && ItemId(docs[i]).Some? :: ItemId(docs[i]) != ItemId(docs[j])
  }

  predicate IndexerKey(key: string) {
    key == ITEM_KEY || key == "graph_web_url" || key == "graph_mime_type" || key == "indexer_version"
  }

  /** A row after some visits of its item: what other stages extracted is still there. */
  ghost predicate SameItem(d: Document, d': Document) {
    ItemId(d') == ItemId(d) && d'.source == d.source &&
    forall key | !IndexerKey(key) ::
      (key in d.data <==> key in d'.data) &&
      (key in d.data ==> d.data[key] == d'.data[key])
  }

  /** The table grew from `before` to `after` by visits of exactly the items `touched`. */
  ghost predicate Grown(before: seq<Document>, after: seq<Document>, touched: set<string>) {
    |before| <= |after| &&
    (forall i | 0 <= i < |before| :: SameItem(before[i], after[i])) &&
    (forall i | 0 <= i < |before| && !(ItemId(before[i]).Some? && ItemId(before[i]).value in touched) ::
       after[i] == before[i]) &&
    (forall i | |before| <= i < |after| :: ItemId(after[i]).Some? && ItemId(after[i]).value in touched) &&
    (UniqueItems(before) ==> UniqueItems(after)) &&
    Ids(after) == Ids(before) + touched
  }

  lemma GrownTransitive(a: seq<Document>, b: seq<Document>, c: seq<Document>, s: set<string>, t: set<string>)
    requires Grown(a, b, s) && Grown(b, c, t)
    ensures Grown(a, c, s + t)
  {
  }

  lemma NothingGrown(docs: seq<Document>)
    ensures Grown(docs, docs, {})
  {
  }

  lemma UpsertIds(docs: seq<Document>, f: Item, entity: Option<nat>, now: int)
    requires f.File?
    ensures Ids(UpsertDocument(docs, f, entity, now)) == Ids(docs) + {f.id}
  {
    var after, i := UpsertDocument(docs, f, entity, now), RowOf(docs, f.id);
    hide IndexerData;
    assert after[i] in after && ItemId(after[i]) == Some(f.id);
    forall id | id in Ids(docs) ensures id in Ids(after) {
      var d :| d in docs && ItemId(d) == Some(id);
      var k :| 0 <= k < |docs| && docs[k] == d;
      assert after[k] in after;
    }
  }

  lemma UpsertGrows(docs: seq<Document>, f: Item, entity: Option<nat>, now: int)
    requires f.File?
    ensures Grown(docs, UpsertDocument(docs, f, entity, now), {f.id})
  {
    hide IndexerData, Ids;
    UpsertIds(docs, f, entity, now);
  }

  // ----- the walk, as a function

  function Fail(s: State, e: Error): State {
    s.(stats := s.stats.(errors := s.stats.errors + [e]))
  }

  function WalkFolder(drive: Drive, id: string, entity: Option<nat>, depth: nat, s: State): State
    requires depth <= MAX_DEPTH + 1
    decreases MAX_DEPTH + 1 - depth, 1, 0
  {
    if depth > MAX_DEPTH then Fail(s, TooDeep(id))
    else
      match drive.listing(id)
      case Escapes => s.(aborted := true)
      case Refused => Fail(s, ListChildren(id))
      case Listed(children) => WalkChildren(drive, children, |children|, entity, depth, s)
  }

  function WalkChildren(drive: Drive, children: seq<Item>, n: nat, entity: Option<nat>, depth: nat, s: State): State
    requires n <= |children| && depth <= MAX_DEPTH
    decreases MAX_DEPTH + 1 - depth, 0, n
  {
    if n == 0 then s
    else
      var t := WalkChildren(drive, children, n - 1, entity, depth, s);
      if t.aborted then t
      else
        match children[n - 1]
        case Folder(id, _) =>
          WalkFolder(drive, id, entity, depth + 1, t.(stats := t.stats.(foldersWalked := t.stats.foldersWalked + 1)))
        case Unknown(_) => t.(stats := t.stats.(filesSkipped := t.stats.filesSkipped + 1))
        case File(id, _, _, _) =>
          if t.broken || id in drive.rejected then Fail(t, Upsert(id)).(broken := true)
          else t.(docs := UpsertDocument(t.docs, children[n - 1], entity, drive.now),
                  stats := t.stats.(filesIndexed := t.stats.filesIndexed + 1))
  }

  /** The counters when a top-level folder is entered. */
  function Entered(drive: Drive, stats: Stats, name: string): Stats {
    stats.(foldersWalked := stats.foldersWalked + 1,
           unresolved := stats.unresolved + if drive.resolve(name) == None then [name] else [])
  }

  function IndexTop(drive: Drive, items: seq<Item>, n: nat, s: State): State
    requires n <= |items|
  {
    if n == 0 then s
    else
      var t := IndexTop(drive, items, n - 1, s);
      if t.aborted then t
      else
        match items[n - 1]
        case Folder(id, name) =>
          if t.broken then t.(stats := t.stats.(foldersWalked := t.stats.foldersWalked + 1), aborted := true)
          else WalkFolder(drive, id, drive.resolve(name), 1, t.(stats := Entered(drive, t.stats, name)))
        case _ => t.(stats := t.stats.(filesSkipped := t.stats.filesSkipped + 1))
  }

  const NO_STATS := Stats(0, 0, 0, [], [])

  function Index(drive: Drive, docs: seq<Document>): State {
    var s := State(docs, NO_STATS, false, false);
    match drive.root
    case Escapes => s.(aborted := true)
    case Refused => Fail(s, ListRoot)
    case Listed(items) => IndexTop(drive, items, |items|, s)
  }

  /** The final commit goes through. */
  predicate Saves(drive: Drive, docs: seq<Document>) {
    !Index(drive, docs).aborted && !Index(drive, docs).broken
  }

  /** The table after the run. */
  function Saved(drive: Drive, docs: seq<Document>): seq<Document> {
    if Saves(drive, docs) then Index(drive, docs).docs else docs
  }

  // ----- the walk, as the code does it

  class Indexer {
    const drive: Drive
    var docs: seq<Document>
    var stats: Stats
    var broken: bool

    constructor (drive: Drive, docs: seq<Document>)
      ensures this.drive == drive && this.docs == docs && stats == NO_STATS && !broken
    {
      this.drive := drive;
      this.docs := docs;
      stats := NO_STATS;
      broken := false;
    }

    ghost function Value(aborted: bool): State
      reads this
    {
      State(docs, stats, aborted, broken)
    }

    method Upsert(f: Item, entity: Option<nat>)
      requires f.File?
      modifies this`docs
      ensures docs == UpsertDocument(old(docs), f, entity, drive.now)
    {
      var i := RowOf(docs, f.id);
      if i == |docs| {
        docs := docs + [Document("sharepoint", entity, f.name, IndexerData(f), drive.now)];
        return;
      }
      var doc := docs[i].(title := f.name, entity := entity, indexedAt := drive.now);
      docs := docs[i := doc.(data := doc.data + IndexerData(f))];
    }

    method Note(e: Error)
      modifies this`stats
      ensures Value(false) == Fail(old(Value(false)), e)
    {
      stats := stats.(errors := stats.errors + [e]);
    }

    method Walk(id: string, entity: Option<nat>, depth: nat) returns (aborted: bool)
      requires depth <= MAX_DEPTH + 1
      modifies this
      ensures Value(aborted) == WalkFolder(drive, id, entity, depth, old(Value(false)))
      decreases MAX_DEPTH + 1 - depth
    {
      hide UpsertDocument;
      if depth > MAX_DEPTH {
        Note(TooDeep(id));
        return false;
      }
      var listing := drive.listing(id);
      if listing.Escapes? {
        return true;
      }
      if listing.Refused? {
        Note(ListChildren(id));
        return false;
      }
      var children := listing.children;
      for n := 0 to |children|
        invariant Value(false) == WalkChildren(drive, children, n, entity, depth, old(Value(false)))
      {
        match children[n] {
          case Folder(child, _) =>
            stats := stats.(foldersWalked := stats.foldersWalked + 1);
            aborted := Walk(child, entity, depth + 1);
            if aborted {
              AbortedStays(drive, children, n + 1, |children|, entity, depth, old(Value(false)));
              return;
            }
          case Unknown(_) => stats := stats.(filesSkipped := stats.filesSkipped + 1);
          case File(child, _, _, _) =>
            if broken || child in drive.rejected {
              Note(Error.Upsert(child));
              broken := true;
            } else {
              Upsert(children[n], entity);
              stats := stats.(filesIndexed := stats.filesIndexed + 1);
            }
        }
      }
      aborted := false;
    }

    /** A fresh indexer's run over the drive; `saved` when it ends with its commit. */
    method IndexDrive() returns (saved: bool)
      requires stats == NO_STATS && !broken
      modifies this
      ensures saved == Saves(drive, old(docs)) && docs == Saved(drive, old(docs))
      ensures stats == Index(drive, old(docs)).stats
    {
      hide WalkFolder;
      ghost var start := State(docs, NO_STATS, false, false);
      var before := docs;
      if drive.root.Escapes? {
        return false;
      }
      if drive.root.Refused? {
        Note(ListRoot);
        return true;
      }
      var items := drive.root.children;
      for n := 0 to |items|
        invariant Value(false) == IndexTop(drive, items, n, start)
      {
        if !items[n].Folder? {
          stats := stats.(filesSkipped := stats.filesSkipped + 1);
          continue;
        }
        var aborted := broken;
        if broken {
          stats := stats.(foldersWalked := stats.foldersWalked + 1);
        } else {
          stats := Entered(drive, stats, items[n].name);
          aborted := Walk(items[n].id, drive.resolve(items[n].name), 1);
        }
        if aborted {
          AbortedIndexStays(drive, items, n + 1, |items|, start);
          docs := before;
          return false;
        }
      }
      saved := !broken;
      if broken {
        docs := before;
      }
    }
  }

  lemma {:induction false} AbortedStays(drive: Drive, children: seq<Item>, m: nat, n: nat, entity: Option<nat>,
                                        depth: nat, s: State)
    requires m <= n <= |children| && depth <= MAX_DEPTH && WalkChildren(drive, children, m, entity, depth, s).aborted
    ensures WalkChildren(drive, children, n, entity, depth, s) == WalkChildren(drive, children, m, entity, depth, s)
  {
    if m < n {
      AbortedStays(drive, children, m, n - 1, entity, depth, s);
    }
  }

  lemma {:induction false} AbortedIndexStays(drive: Drive, items: seq<Item>, m: nat, n: nat, s: State)
    requires m <= n <= |items| && IndexTop(drive, items, m, s).aborted
    ensures IndexTop(drive, items, n, s) == IndexTop(drive, items, m, s)
  {
    if m < n {
      AbortedIndexStays(drive, items, m, n - 1, s);
    }
  }

  // ----- which files the walk touches

  predicate HoldsFolder(drive: Drive, folder: string, id: string) {
    drive.listing(folder).Listed? && exists c | c in drive.listing(folder).children :: c.Folder? && c.id == id
  }

  /** `path` leads from its first folder to its last, each listed by the one before it. */
  predicate IsPath(drive: Drive, path: seq<string>) {
    |path| > 0 && forall k | 0 <= k < |path| - 1 :: HoldsFolder(drive, path[k], path[k + 1])
  }

  predicate HoldsFile(drive: Drive, folder: string, id: string) {
    drive.listing(folder).Listed? &&
    exists c | c in drive.listing(folder).children :: c.File? && c.id == id
  }

  /** A path of at most `n` folders leads from `top` to a folder of that kind. */
  ghost predicate Leads(drive: Drive, top: string, n: int, kind: string -> bool) {
    exists path :: IsPath(drive, path) && path[0] == top && |path| <= n && kind(path[|path| - 1])
  }

  function Holding(drive: Drive, id: string): string -> bool {
    folder => HoldsFile(drive, folder, id)
  }

  /** The folders whose listing fails with an error that is not caught. */
  function Raising(drive: Drive): string -> bool {
    folder => drive.listing(folder).Escapes?
  }

  /** The file is in a folder that a path of at most `n` folders reaches from `top`. */
  ghost predicate Reachable(drive: Drive, top: string, n: int, id: string) {
    Leads(drive, top, n, Holding(drive, id))
  }

  function Touched(drive: Drive, id: string, depth: nat): set<string>
    requires depth <= MAX_DEPTH + 1
    decreases MAX_DEPTH + 1 - depth, 1, 0
  {
    if depth > MAX_DEPTH || !drive.listing(id).Listed? then {}
    else TouchedAmong(drive, drive.listing(id).children, |drive.listing(id).children|, depth)
  }

  function TouchedAmong(drive: Drive, children: seq<Item>, n: nat, depth: nat): set<string>
    requires n <= |children| && depth <= MAX_DEPTH
    decreases MAX_DEPTH + 1 - depth, 0, n
  {
    if n == 0 then {}
    else
      TouchedAmong(drive, children, n - 1, depth) +
      match children[n - 1]
      case Folder(id, _) => Touched(drive, id, depth + 1)
      case File(id, _, _, _) => {id}
      case Unknown(_) => {}
  }

  /** The walk lists a folder that raises. */
  predicate Raises(drive: Drive, id: string, depth: nat)
    requires depth <= MAX_DEPTH + 1
    decreases MAX_DEPTH + 1 - depth
  {
    depth <= MAX_DEPTH &&
    match drive.listing(id)
    case Escapes => true
    case Refused => false
    case Listed(children) =>
      exists k | 0 <= k < |children| :: children[k].Folder? && Raises(drive, children[k].id, depth + 1)
  }

  /** Nothing has gone wrong with the run. */
  predicate Goes(s: State) {
    !s.aborted && !s.broken
  }

  /** A walk goes wrong exactly when it comes to a folder that raises or a file whose row the
      database rejects. */
  lemma {:induction false} WalkGoesIff(drive: Drive, id: string, entity: Option<nat>, depth: nat, s: State)
    requires depth <= MAX_DEPTH + 1
    ensures Goes(WalkFolder(drive, id, entity, depth, s))
       <==> Goes(s) && !Raises(drive, id, depth) && Touched(drive, id, depth) !! drive.rejected
    decreases MAX_DEPTH + 1 - depth, 1, 0
  {
    if depth <= MAX_DEPTH && drive.listing(id).Listed? {
      var children := drive.listing(id).children;
      ChildrenGoIff(drive, children, |children|, entity, depth, s);
    }
  }

  lemma {:induction false} ChildrenGoIff(drive: Drive, children: seq<Item>, n: nat, entity: Option<nat>, depth: nat,
                                         s: State)
    requires n <= |children| && depth <= MAX_DEPTH
    ensures Goes(WalkChildren(drive, children, n, entity, depth, s))
       <==> Goes(s) && (forall k | 0 <= k < n :: children[k].Folder? ==> !Raises(drive, children[k].id, depth + 1)) &&
            TouchedAmong(drive, children, n, depth) !! drive.rejected
    decreases MAX_DEPTH + 1 - depth, 0, n
  {
    hide UpsertDocument;
    if n > 0 {
      ChildrenGoIff(drive, children, n - 1, entity, depth, s);
      var t := WalkChildren(drive, children, n - 1, entity, depth, s);
      if children[n - 1].Folder? {
        WalkGoesIff(drive, children[n - 1].id, entity, depth + 1,
                    t.(stats := t.stats.(foldersWalked := t.stats.foldersWalked + 1)));
      }
    }
  }

  lemma {:induction false} WalkGrows(drive: Drive, id: string, entity: Option<nat>, depth: nat, s: State)
    requires depth <= MAX_DEPTH + 1 && Goes(WalkFolder(drive, id, entity, depth, s))
    ensures Grown(s.docs, WalkFolder(drive, id, entity, depth, s).docs, Touched(drive, id, depth))
    ensures Goes(s)
    decreases MAX_DEPTH + 1 - depth, 1, 0
  {
    hide Grown;
    NothingGrown(s.docs);
    if depth <= MAX_DEPTH && drive.listing(id).Listed? {
      var children := drive.listing(id).children;
      ChildrenGrow(drive, children, |children|, entity, depth, s);
    }
  }

  lemma {:induction false} ChildrenGrow(drive: Drive, children: seq<Item>, n: nat, entity: Option<nat>, depth: nat,
                                        s: State)
    requires n <= |children| && depth <= MAX_DEPTH && Goes(WalkChildren(drive, children, n, entity, depth, s))
    ensures Grown(s.docs, WalkChildren(drive, children, n, entity, depth, s).docs,
                  TouchedAmong(drive, children, n, depth))
    ensures Goes(s)
    decreases MAX_DEPTH + 1 - depth, 0, n
  {
    hide Grown, UpsertDocument;
    if n == 0 {
      NothingGrown(s.docs);
    } else {
      var t := WalkChildren(drive, children, n - 1, entity, depth, s);
      var c := children[n - 1];
      NothingGrown(t.docs);
      match c {
        case Folder(id, _) =>
          WalkGrows(drive, id, entity, depth + 1, t.(stats := t.stats.(foldersWalked := t.stats.foldersWalked + 1)));
        case File(id, _, _, _) => UpsertGrows(t.docs, c, entity, drive.now);
        case Unknown(_) =>
      }
      ChildrenGrow(drive, children, n - 1, entity, depth, s);
      var before := TouchedAmong(drive, children, n - 1, depth);
      var after := WalkChildren(drive, children, n, entity, depth, s);
      var more := match c case Folder(id, _) => Touched(drive, id, depth + 1)
                          case File(id, _, _, _) => {id}
                          case Unknown(_) => {};
      GrownTransitive(s.docs, t.docs, after.docs, before, more);
    }
  }

  /** The walk touches exactly the files that a short enough path reaches. */
  lemma {:induction false} TouchedIffReachable(drive: Drive, folder: string, depth: nat, id: string)
    requires depth <= MAX_DEPTH + 1
    ensures id in Touched(drive, folder, depth) <==> Reachable(drive, folder, MAX_DEPTH + 1 - depth, id)
    decreases MAX_DEPTH + 1 - depth
  {
    hide Leads;
    if depth <= MAX_DEPTH {
      LeadsStep(drive, folder, MAX_DEPTH + 1 - depth, Holding(drive, id));
      if drive.listing(folder).Listed? {
        var children := drive.listing(folder).children;
        forall c | c in children && c.Folder?
          ensures id in Touched(drive, c.id, depth + 1) <==> Reachable(drive, c.id, MAX_DEPTH - depth, id)
        {
          TouchedIffReachable(drive, c.id, depth + 1, id);
        }
        AmongIff(drive, children, |children|, depth, id);
      }
    } else {
      LeadsNowhere(drive, folder, 0, Holding(drive, id));
    }
  }

  /** And it raises exactly when a short enough path leads to a folder that does. */
  lemma {:induction false} RaisesIff(drive: Drive, folder: string, depth: nat)
    requires depth <= MAX_DEPTH + 1
    ensures Raises(drive, folder, depth) <==> Leads(drive, folder, MAX_DEPTH + 1 - depth, Raising(drive))
    decreases MAX_DEPTH + 1 - depth
  {
    hide Leads;
    if depth <= MAX_DEPTH {
      LeadsStep(drive, folder, MAX_DEPTH + 1 - depth, Raising(drive));
      if drive.listing(folder).Listed? {
        var children := drive.listing(folder).children;
        forall c | c in children && c.Folder?
          ensures Raises(drive, c.id, depth + 1) <==> Leads(drive, c.id, MAX_DEPTH - depth, Raising(drive))
        {
          RaisesIff(drive, c.id, depth + 1);
        }
        assert forall k | 0 <= k < |children| :: children[k] in children;
      }
    } else {
      LeadsNowhere(drive, folder, 0, Raising(drive));
    }
  }

  predicate Gives(drive: Drive, c: Item, depth: nat, id: string)
    requires depth <= MAX_DEPTH
  {
    match c
    case Folder(folder, _) => id in Touched(drive, folder, depth + 1)
    case File(file, _, _, _) => file == id
    case Unknown(_) => false
  }

  lemma {:induction false} AmongIff(drive: Drive, children: seq<Item>, n: nat, depth: nat, id: string)
    requires n <= |children| && depth <= MAX_DEPTH
    ensures id in TouchedAmong(drive, children, n, depth) <==>
            exists k | 0 <= k < n :: Gives(drive, children[k], depth, id)
  {
    hide Touched;
    if n > 0 {
      AmongIff(drive, children, n - 1, depth, id);
      var last := Gives(drive, children[n - 1], depth, id);
      assert id in TouchedAmong(drive, children, n, depth) <==>
               id in TouchedAmong(drive, children, n - 1, depth) || last;
    }
  }

  lemma LeadsNowhere(drive: Drive, folder: string, n: int, kind: string -> bool)
    requires n <= 0
    ensures !Leads(drive, folder, n, kind)
  {
  }

  lemma LeadsThrough(drive: Drive, folder: string, c: Item, n: int, kind: string -> bool)
    requires drive.listing(folder).Listed? && c in drive.listing(folder).children && c.Folder?
    requires Leads(drive, c.id, n - 1, kind)
    ensures Leads(drive, folder, n, kind)
  {
    var rest :| IsPath(drive, rest) && rest[0] == c.id && |rest| <= n - 1 && kind(rest[|rest| - 1]);
    assert HoldsFolder(drive, folder, c.id);
    hide HoldsFolder;
    var path := [folder] + rest;
    forall k | 0 <= k < |path| - 1 ensures HoldsFolder(drive, path[k], path[k + 1]) {
      if k > 0 {
        assert HoldsFolder(drive, rest[k - 1], rest[k - 1 + 1]);
      }
    }
    assert IsPath(drive, path) && path[0] == folder && |path| <= n && kind(path[|path| - 1]);
  }

  lemma LeadsSplits(drive: Drive, folder: string, n: int, kind: string -> bool)
    requires Leads(drive, folder, n, kind) && !kind(folder)
    ensures drive.listing(folder).Listed? &&
            exists c | c in drive.listing(folder).children :: c.Folder? && Leads(drive, c.id, n - 1, kind)
  {
    var path :| IsPath(drive, path) && path[0] == folder && |path| <= n && kind(path[|path| - 1]);
    assert HoldsFolder(drive, path[0], path[0 + 1]);
    var c :| c in drive.listing(path[0]).children && c.Folder? && c.id == path[1];
    hide HoldsFolder;
    var rest := path[1..];
    forall k | 0 <= k < |rest| - 1 ensures HoldsFolder(drive, rest[k], rest[k + 1]) {
      assert HoldsFolder(drive, path[k + 1], path[k + 1 + 1]);
    }
    assert IsPath(drive, rest) && rest[0] == c.id && |rest| <= n - 1 && kind(rest[|rest| - 1]);
  }

  /** A folder leads to a kind when it is of that kind, or lists a folder that leads to it
      with one folder less. */
  lemma LeadsStep(drive: Drive, folder: string, n: int, kind: string -> bool)
    requires n >= 1
    ensures Leads(drive, folder, n, kind)
       <==> kind(folder) ||
            (drive.listing(folder).Listed? &&
             exists c | c in drive.listing(folder).children :: c.Folder? && Leads(drive, c.id, n - 1, kind))
  {
    if kind(folder) {
      assert IsPath(drive, [folder]);
      assert Leads(drive, folder, n, kind);
    } else if Leads(drive, folder, n, kind) {
      LeadsSplits(drive, folder, n, kind);
    }
    hide Leads;
    if drive.listing(folder).Listed? {
      if c :| c in drive.listing(folder).children && c.Folder? && Leads(drive, c.id, n - 1, kind) {
        LeadsThrough(drive, folder, c, n, kind);
      }
    }
  }

  // ----- the whole run

  function TouchedTop(drive: Drive, items: seq<Item>, n: nat): set<string>
    requires n <= |items|
  {
    if n == 0 then {}
    else TouchedTop(drive, items, n - 1) + if items[n - 1].Folder? then Touched(drive, items[n - 1].id, 1) else {}
  }

  function TouchedByRun(drive: Drive): set<string> {
    if drive.root.Listed? then TouchedTop(drive, drive.root.children, |drive.root.children|) else {}
  }

  lemma {:induction false} TopGrows(drive: Drive, items: seq<Item>, n: nat, s: State)
    requires n <= |items| && Goes(IndexTop(drive, items, n, s))
    ensures Grown(s.docs, IndexTop(drive, items, n, s).docs, TouchedTop(drive, items, n))
    ensures Goes(s)
  {
    hide Grown, WalkFolder, Touched;
    if n == 0 {
      NothingGrown(s.docs);
    } else {
      var t, after := IndexTop(drive, items, n - 1, s), IndexTop(drive, items, n, s);
      NothingGrown(t.docs);
      if items[n - 1].Folder? {
        WalkGrows(drive, items[n - 1].id, drive.resolve(items[n - 1].name), 1,
                  t.(stats := Entered(drive, t.stats, items[n - 1].name)));
      }
      TopGrows(drive, items, n - 1, s);
      GrownTransitive(s.docs, t.docs, after.docs, TouchedTop(drive, items, n - 1),
                      if items[n - 1].Folder? then Touched(drive, items[n - 1].id, 1) else {});
    }
  }

  lemma {:induction false} TopGoesIff(drive: Drive, items: seq<Item>, n: nat, s: State)
    requires n <= |items|
    ensures Goes(IndexTop(drive, items, n, s))
       <==> Goes(s) && (forall k | 0 <= k < n :: items[k].Folder? ==> !Raises(drive, items[k].id, 1)) &&
            TouchedTop(drive, items, n) !! drive.rejected
  {
    hide WalkFolder, Touched, Raises;
    if n > 0 {
      TopGoesIff(drive, items, n - 1, s);
      var t := IndexTop(drive, items, n - 1, s);
      if items[n - 1].Folder? {
        WalkGoesIff(drive, items[n - 1].id, drive.resolve(items[n - 1].name), 1,
                    t.(stats := Entered(drive, t.stats, items[n - 1].name)));
      }
    }
  }

  /** Below some top-level folder, through at most `MAX_DEPTH` folders, lies this file. */
  ghost predicate ReachableInDrive(drive: Drive, id: string) {
    drive.root.Listed? &&
    exists top | top in drive.root.children :: top.Folder? && Reachable(drive, top.id, MAX_DEPTH, id)
  }

  lemma {:induction false} TouchedTopIff(drive: Drive, items: seq<Item>, n: nat, id: string)
    requires n <= |items|
    ensures id in TouchedTop(drive, items, n)
       <==> exists k | 0 <= k < n :: items[k].Folder? && Reachable(drive, items[k].id, MAX_DEPTH, id)
  {
    hide Touched, Reachable;
    if n > 0 {
      TouchedTopIff(drive, items, n - 1, id);
      if items[n - 1].Folder? {
        TouchedIffReachable(drive, items[n - 1].id, 1, id);
      }
      var last := items[n - 1].Folder? && Reachable(drive, items[n - 1].id, MAX_DEPTH, id);
      assert id in TouchedTop(drive, items, n) <==> id in TouchedTop(drive, items, n - 1) || last;
    }
  }

  /** Below some top-level folder, through at most `MAX_DEPTH` folders, one raises. */
  ghost predicate RaisesInDrive(drive: Drive) {
    drive.root.Listed? &&
    exists top | top in drive.root.children :: top.Folder? && Leads(drive, top.id, MAX_DEPTH, Raising(drive))
  }

  /** What a run needs of the drive to be saved: the root and every folder within reach can be
      listed or are refused, and the database takes the row of every file within reach. */
  ghost predicate Indexable(drive: Drive) {
    !drive.root.Escapes? && !RaisesInDrive(drive) && forall id | id in drive.rejected :: !ReachableInDrive(drive, id)
  }

  lemma TouchedByRunIff(drive: Drive, id: string)
    ensures id in TouchedByRun(drive) <==> ReachableInDrive(drive, id)
  {
    hide Reachable;
    if drive.root.Listed? {
      TouchedTopIff(drive, drive.root.children, |drive.root.children|, id);
    }
  }

  /** A run is saved if and only if the drive is indexable, whatever the table. */
  lemma SavesIff(drive: Drive, docs: seq<Document>)
    ensures Saves(drive, docs) <==> Indexable(drive)
  {
    forall id ensures id in TouchedByRun(drive) <==> ReachableInDrive(drive, id) {
      TouchedByRunIff(drive, id);
    }
    hide ReachableInDrive, Leads, IndexTop;
    if drive.root.Listed? {
      var items := drive.root.children;
      TopGoesIff(drive, items, |items|, State(docs, NO_STATS, false, false));
      forall k | 0 <= k < |items| && items[k].Folder?
        ensures Raises(drive, items[k].id, 1) <==> Leads(drive, items[k].id, MAX_DEPTH, Raising(drive))
      {
        RaisesIff(drive, items[k].id, 1);
      }
      assert forall top | top in items :: exists k | 0 <= k < |items| :: items[k] == top;
    }
  }

  /** A run over a drive that is not indexable leaves the table as it was.  After one over an
      drive, the items with a row are the old ones and exactly the reachable files; every old
      row is still there with what others put in it, and exactly as before when its item was
      not reached; and no item has two rows if none had. */
  lemma RunIndexesExactlyTheReachable(drive: Drive, docs: seq<Document>)
    ensures !Indexable(drive) ==> Saved(drive, docs) == docs
    ensures Indexable(drive) ==>
              var after := Saved(drive, docs);
              (forall id :: id in Ids(after) <==> id in Ids(docs) || ReachableInDrive(drive, id)) &&
              |docs| <= |after| &&
              (forall i | 0 <= i < |docs| :: SameItem(docs[i], after[i])) &&
              (forall i | 0 <= i < |docs| :: after[i] == docs[i] ||
                 (ItemId(docs[i]).Some? && ReachableInDrive(drive, ItemId(docs[i]).value))) &&
              (forall i | |docs| <= i < |after| ::
                 ItemId(after[i]).Some? && ReachableInDrive(drive, ItemId(after[i]).value)) &&
              (UniqueItems(docs) ==> UniqueItems(after))
  {
    hide Indexable;
    SavesIff(drive, docs);
    if Saves(drive, docs) {
      RunGrows(drive, docs);
      forall id ensures id in TouchedByRun(drive) <==> ReachableInDrive(drive, id) {
        TouchedByRunIff(drive, id);
      }
    }
    hide Index, TouchedByRun, ReachableInDrive, SameItem, UniqueItems;
  }

  /** In particular, when no listing and no upsert fails. */
  lemma NothingFailsIndexesAll(drive: Drive, docs: seq<Document>, id: string)
    requires drive.root.Listed? && (forall folder :: drive.listing(folder).Listed?) && drive.rejected == {}
    ensures Saves(drive, docs)
    ensures id in Ids(Saved(drive, docs)) <==> id in Ids(docs) || ReachableInDrive(drive, id)
  {
    RunIndexesExactlyTheReachable(drive, docs);
    SavesIff(drive, docs);
    hide ReachableInDrive, Saved, Saves, Ids, SameItem, UniqueItems;
  }

  lemma RunGrows(drive: Drive, docs: seq<Document>)
    requires Saves(drive, docs)
    ensures Grown(docs, Index(drive, docs).docs, TouchedByRun(drive))
  {
    hide Grown;
    NothingGrown(docs);
    if drive.root.Listed? {
      TopGrows(drive, drive.root.children, |drive.root.children|, State(docs, NO_STATS, false, false));
    }
  }

  /** Indexing the same drive again adds no row, also when other stages have meanwhile put
      their own keys into the rows. */
  lemma SecondRunAddsNothing(drive: Drive, docs: seq<Document>, enriched: seq<Document>, later: int)
    requires Saves(drive, docs) && UniqueItems(docs)
    requires |enriched| == |Saved(drive, docs)|
    requires forall i | 0 <= i < |enriched| :: ItemId(enriched[i]) == ItemId(Saved(drive, docs)[i])
    ensures Saves(drive.(now := later), enriched)
    ensures var again := Saved(drive.(now := later), enriched);
            |again| == |enriched| && forall i | 0 <= i < |again| :: SameItem(enriched[i], again[i])
  {
    hide Index, Saves, SameItem, ReachableInDrive, Indexable;
    var drive' := drive.(now := later);
    var first, again := Saved(drive, docs), Saved(drive', enriched);
    SavesIff(drive, docs);
    IndexableIgnoresTheClock(drive, later);
    SavesIff(drive', enriched);
    RunIndexesExactlyTheReachable(drive, docs);
    RunIndexesExactlyTheReachable(drive', enriched);
    SameItemsSameIds(enriched, again);
    if |again| > |enriched| {
      var id := ItemId(again[|enriched|]).value;
      ReachabilityIgnoresTheClock(drive, later, id);
    }
  }

  lemma SameItemsSameIds(docs: seq<Document>, more: seq<Document>)
    requires |docs| <= |more| && forall i | 0 <= i < |docs| :: SameItem(docs[i], more[i])
    ensures forall i | 0 <= i < |docs| :: ItemId(more[i]) == ItemId(docs[i])
  {
  }

  lemma LeadsIgnoresTheClock(drive: Drive, later: int, top: string, n: int, kind: string -> bool,
                             kind': string -> bool)
    requires Leads(drive.(now := later), top, n, kind') && forall folder :: kind(folder) == kind'(folder)
    ensures Leads(drive, top, n, kind)
  {
    var drive' := drive.(now := later);
    var path :| IsPath(drive', path) && path[0] == top && |path| <= n && kind'(path[|path| - 1]);
    assert IsPath(drive, path) && kind(path[|path| - 1]);
  }

  lemma ReachabilityIgnoresTheClock(drive: Drive, later: int, id: string)
    requires ReachableInDrive(drive.(now := later), id)
    ensures ReachableInDrive(drive, id)
  {
    var drive' := drive.(now := later);
    hide Leads;
    var top :| top in drive.root.children && top.Folder? && Reachable(drive', top.id, MAX_DEPTH, id);
    LeadsIgnoresTheClock(drive, later, top.id, MAX_DEPTH, Holding(drive, id), Holding(drive', id));
    assert Reachable(drive, top.id, MAX_DEPTH, id);
  }

  lemma RaisingIgnoresTheClock(drive: Drive, later: int)
    requires RaisesInDrive(drive.(now := later))
    ensures RaisesInDrive(drive)
  {
    hide Leads;
    var drive' := drive.(now := later);
    var top :| top in drive.root.children && top.Folder? && Leads(drive', top.id, MAX_DEPTH, Raising(drive'));
    LeadsIgnoresTheClock(drive, later, top.id, MAX_DEPTH, Raising(drive), Raising(drive'));
  }

  lemma IndexableIgnoresTheClock(drive: Drive, later: int)
    requires Indexable(drive)
    ensures Indexable(drive.(now := later))
  {
    hide RaisesInDrive, ReachableInDrive;
    var drive' := drive.(now := later);
    if RaisesInDrive(drive') { RaisingIgnoresTheClock(drive, later); }
    forall id | ReachableInDrive(drive', id) ensures ReachableInDrive(drive, id) {
      ReachabilityIgnoresTheClock(drive, later, id);
    }
  }

  // ----- what the rows say

  /** The row is the file's as it is listed now: name, URL, MIME type; with that entity. */
  predicate Describes(d: Document, f: Item, entity: Option<nat>, now: int) {
    f.File? && ItemId(d) == Some(f.id) && d.title == f.name && d.entity == entity && d.indexedAt == now &&
    "graph_web_url" in d.data && d.data["graph_web_url"] == Text(f.webUrl) && "graph_mime_type" in d.data &&
    d.data["graph_mime_type"] == if f.mimeType.Some? then Text(f.mimeType.value) else Null
  }

  predicate Lists(drive: Drive, folder: string, f: Item) {
    drive.listing(folder).Listed? && f in drive.listing(folder).children
  }

  /** The item's row, or one of them, is that of a file that some folder lists. */
  ghost predicate Carries(drive: Drive, docs: seq<Document>, id: string, entity: Option<nat>) {
    exists i: nat, folder, f: Item ::
      i < |docs| && f.id == id && Lists(drive, folder, f) && Describes(docs[i], f, entity, drive.now)
  }

  lemma UpsertDescribes(docs: seq<Document>, f: Item, entity: Option<nat>, now: int)
    requires f.File?
    ensures var after, i := UpsertDocument(docs, f, entity, now), RowOf(docs, f.id);
            i < |after| && Describes(after[i], f, entity, now)
  {
  }

  lemma CarriesStays(drive: Drive, docs: seq<Document>, docs': seq<Document>, touched: set<string>, id: string,
                     entity: Option<nat>)
    requires Carries(drive, docs, id, entity) && Grown(docs, docs', touched) && id !in touched
    ensures Carries(drive, docs', id, entity)
  {
    hide Describes;
    var i: nat, folder, f: Item :| i < |docs| && f.id == id && Lists(drive, folder, f) &&
                                   Describes(docs[i], f, entity, drive.now);
    assert ItemId(docs[i]) == Some(id) by { DescribesItem(docs[i], f, entity, drive.now); }
    assert docs'[i] == docs[i];
  }

  lemma DescribesItem(d: Document, f: Item, entity: Option<nat>, now: int)
    requires Describes(d, f, entity, now)
    ensures ItemId(d) == Some(f.id) && d.entity == entity
  {
  }

  lemma {:induction false} WalkCarries(drive: Drive, folder: string, entity: Option<nat>, depth: nat, s: State,
                                       id: string)
    requires depth <= MAX_DEPTH + 1 && Goes(WalkFolder(drive, folder, entity, depth, s))
    requires id in Touched(drive, folder, depth)
    ensures Carries(drive, WalkFolder(drive, folder, entity, depth, s).docs, id, entity)
    decreases MAX_DEPTH + 1 - depth, 1, 0
  {
    hide Carries;
    ChildrenCarry(drive, folder, |drive.listing(folder).children|, entity, depth, s, id);
  }

  lemma {:induction false} ChildrenCarry(drive: Drive, folder: string, n: nat, entity: Option<nat>, depth: nat,
                                         s: State, id: string)
    requires drive.listing(folder).Listed? && n <= |drive.listing(folder).children| && depth <= MAX_DEPTH
    requires Goes(WalkChildren(drive, drive.listing(folder).children, n, entity, depth, s))
    requires id in TouchedAmong(drive, drive.listing(folder).children, n, depth)
    ensures Carries(drive, WalkChildren(drive, drive.listing(folder).children, n, entity, depth, s).docs, id, entity)
    decreases MAX_DEPTH + 1 - depth, 0, n
  {
    hide UpsertDocument, Carries, Grown;
    var children := drive.listing(folder).children;
    var t, after := WalkChildren(drive, children, n - 1, entity, depth, s),
                    WalkChildren(drive, children, n, entity, depth, s);
    var c := children[n - 1];
    ChildrenGoIff(drive, children, n, entity, depth, s);
    ChildrenGoIff(drive, children, n - 1, entity, depth, s);
    if c.Folder? {
      var entered := t.(stats := t.stats.(foldersWalked := t.stats.foldersWalked + 1));
      if id in Touched(drive, c.id, depth + 1) {
        WalkCarries(drive, c.id, entity, depth + 1, entered, id);
      } else {
        ChildrenCarry(drive, folder, n - 1, entity, depth, s, id);
        WalkGrows(drive, c.id, entity, depth + 1, entered);
        CarriesStays(drive, t.docs, after.docs, Touched(drive, c.id, depth + 1), id, entity);
      }
    } else if c.File? && c.id == id {
      FileCarries(drive, folder, t.docs, c, entity);
    } else {
      ChildrenCarry(drive, folder, n - 1, entity, depth, s, id);
      if c.File? {
        UpsertGrows(t.docs, c, entity, drive.now);
        CarriesStays(drive, t.docs, after.docs, {c.id}, id, entity);
      }
    }
  }

  lemma FileCarries(drive: Drive, folder: string, docs: seq<Document>, f: Item, entity: Option<nat>)
    requires f.File? && Lists(drive, folder, f)
    ensures Carries(drive, UpsertDocument(docs, f, entity, drive.now), f.id, entity)
  {
    hide Describes, UpsertDocument;
    UpsertDescribes(docs, f, entity, drive.now);
  }

  lemma {:induction false} TopCarries(drive: Drive, items: seq<Item>, n: nat, s: State, k: nat, id: string)
    requires k < n <= |items| && Goes(IndexTop(drive, items, n, s))
    requires items[k].Folder? && id in Touched(drive, items[k].id, 1)
    requires forall m | k < m < n && items[m].Folder? :: id !in Touched(drive, items[m].id, 1)
    ensures Carries(drive, IndexTop(drive, items, n, s).docs, id, drive.resolve(items[k].name))
  {
    hide WalkFolder, Touched, Carries, Grown;
    var t, after := IndexTop(drive, items, n - 1, s), IndexTop(drive, items, n, s);
    TopGoesIff(drive, items, n, s);
    TopGoesIff(drive, items, n - 1, s);
    var c := items[n - 1];
    if c.Folder? {
      var entered := t.(stats := Entered(drive, t.stats, c.name));
      if k == n - 1 {
        WalkCarries(drive, c.id, drive.resolve(c.name), 1, entered, id);
      } else {
        TopCarries(drive, items, n - 1, s, k, id);
        WalkGrows(drive, c.id, drive.resolve(c.name), 1, entered);
        CarriesStays(drive, t.docs, after.docs, Touched(drive, c.id, 1), id, drive.resolve(items[k].name));
      }
    } else {
      TopCarries(drive, items, n - 1, s, k, id);
    }
  }

  /** After a saved run the row of a reached file has the file's present name, URL and type, and
      the entity that the last top-level folder from which it is reached resolves to. */
  lemma RowsDescribeTheirFiles(drive: Drive, docs: seq<Document>, k: nat, id: string)
    requires Indexable(drive) && drive.root.Listed? && k < |drive.root.children|
    requires drive.root.children[k].Folder? && Reachable(drive, drive.root.children[k].id, MAX_DEPTH, id)
    requires forall m | k < m < |drive.root.children| && drive.root.children[m].Folder? ::
               !Reachable(drive, drive.root.children[m].id, MAX_DEPTH, id)
    ensures Carries(drive, Saved(drive, docs), id, drive.resolve(drive.root.children[k].name))
    ensures UniqueItems(docs) ==>
              forall i | 0 <= i < |Saved(drive, docs)| && ItemId(Saved(drive, docs)[i]) == Some(id) ::
                Saved(drive, docs)[i].entity == drive.resolve(drive.root.children[k].name)
  {
    hide Indexable, IndexTop, Touched, Carries, Reachable;
    var items := drive.root.children;
    SavesIff(drive, docs);
    forall m | 0 <= m < |items|
      ensures id in Touched(drive, items[m].id, 1) <==> Reachable(drive, items[m].id, MAX_DEPTH, id)
    {
      TouchedIffReachable(drive, items[m].id, 1, id);
    }
    TopCarries(drive, items, |items|, State(docs, NO_STATS, false, false), k, id);
    if UniqueItems(docs) {
      RunIndexesExactlyTheReachable(drive, docs);
      OneRowCarries(drive, Saved(drive, docs), id, drive.resolve(items[k].name));
    }
  }

  lemma OneRowCarries(drive: Drive, docs: seq<Document>, id: string, entity: Option<nat>)
    requires Carries(drive, docs, id, entity) && UniqueItems(docs)
    ensures forall i | 0 <= i < |docs| && ItemId(docs[i]) == Some(id) :: docs[i].entity == entity
  {
    hide Describes;
    var j: nat, folder, f: Item :| j < |docs| && f.id == id && Lists(drive, folder, f) &&
                                   Describes(docs[j], f, entity, drive.now);
    DescribesItem(docs[j], f, entity, drive.now);
  }
}
