/** Concurrent appends: any number of transactions, each appending any number of entries
    and then committing or rolling back, interleaved in any way. */
module AuditConcurrency {
  import opened Wrappers
  import opened Audit

  /* An append is three steps, as the database sees them: wait for the firm's advisory lock,
     read the latest visible hash, insert.  The lock is held to the end of the transaction.
     The result: every firm's committed rows, in id order, always form one sound chain. */

  datatype Owner = Pending(tx: nat) | Committed | RolledBack

  /** A table row, in id order (ids come from one sequence and are never reused). */
  datatype Row = Row(entry: Entry, owner: Owner)

  /** How far a transaction has got with its current append. */
  datatype Phase = Idle | Locked(firm: string, fields: Fields) | HasRead(firm: string, fields: Fields, prev: string)

  datatype Db = Db(table: seq<Row>, locks: map<int, nat>, phases: map<nat, Phase>)

  datatype Action =
    | Lock(tx: nat, firm: string, fields: Fields)
    | ReadLast(tx: nat)
    | Insert(tx: nat)
    | Commit(tx: nat)
    | Rollback(tx: nat)

  /** Which rows a query sees. */
  datatype View = Everyone | Ongoing | Alive | SeenBy(tx: nat)

  predicate Keeps(view: View, owner: Owner) {
    match view
    case Everyone => owner.Committed?
    case Ongoing => owner.Pending?
    case Alive => !owner.RolledBack?
    case SeenBy(tx) => owner.Committed? || owner == Pending(tx)
  }

  function Select(table: seq<Row>, firm: string, view: View): seq<Entry> {
    if table == [] then []
    else if table[0].entry.content.firm == firm && Keeps(view, table[0].owner)
    then [table[0].entry] + Select(table[1..], firm, view)
    else Select(table[1..], firm, view)
  }

  function PhaseOf(db: Db, tx: nat): Phase {
    if tx in db.phases then db.phases[tx] else Idle
  }

  /** The firm's advisory lock is held by `tx`; `lockKey` may map several firms to one lock. */
  predicate Holds(db: Db, lockKey: string -> int, firm: string, tx: nat) {
    lockKey(firm) in db.locks && db.locks[lockKey(firm)] == tx
  }

  function NewRow(h: Hash, id: nat, content: Preimage, tx: nat): Row {
    Row(Entry(id, content, h(content)), Pending(tx))
  }

  function Settled(r: Row, tx: nat, outcome: Owner): Row {
    if r.owner == Pending(tx) then r.(owner := outcome) else r
  }

  /** Ending a transaction settles its rows and releases its locks. */
  function Finish(db: Db, tx: nat, outcome: Owner): Db {
    Db(seq(|db.table|, i requires 0 <= i < |db.table| => Settled(db.table[i], tx, outcome)),
       map k | k in db.locks && db.locks[k] != tx :: db.locks[k],
       db.phases[tx := Idle])
  }

  /** The transaction has come to this action. */
  predicate Ready(db: Db, a: Action) {
    match a
    case Lock(tx, _, _) => PhaseOf(db, tx).Idle?
    case ReadLast(tx) => PhaseOf(db, tx).Locked?
    case Insert(tx) => PhaseOf(db, tx).HasRead?
    case Commit(tx) => PhaseOf(db, tx).Idle?
    case Rollback(tx) => true
  }

  /** What the advisory lock adds: it is only taken when nobody else holds it. */
  predicate Enabled(db: Db, lockKey: string -> int, a: Action) {
    Ready(db, a) && (a.Lock? && lockKey(a.firm) in db.locks ==> db.locks[lockKey(a.firm)] == a.tx)
  }

  function Step(h: Hash, lockKey: string -> int, db: Db, a: Action): Db
    requires Ready(db, a)
  {
    match a
    case Lock(tx, firm, fields) =>
      db.(locks := db.locks[lockKey(firm) := tx], phases := db.phases[tx := Locked(firm, fields)])
    case ReadLast(tx) =>
      var p := PhaseOf(db, tx);
      db.(phases := db.phases[tx := HasRead(p.firm, p.fields, PrevHash(Select(db.table, p.firm, SeenBy(tx))))])
    case Insert(tx) =>
      var p := PhaseOf(db, tx);
      db.(table := db.table + [NewRow(h, |db.table|, Preimage(p.firm, p.fields, p.prev), tx)],
          phases := db.phases[tx := Idle])
    case Commit(tx) => Finish(db, tx, Committed)
    case Rollback(tx) => Finish(db, tx, RolledBack)
  }

  // ----- the invariant

  /** All unfinished work on a firm belongs to the holder of its lock. */
  ghost predicate LockDiscipline(db: Db, lockKey: string -> int) {
    (forall r | r in db.table && r.owner.Pending? :: Holds(db, lockKey, r.entry.content.firm, r.owner.tx)) &&
    forall tx | tx in db.phases && !db.phases[tx].Idle? :: Holds(db, lockKey, db.phases[tx].firm, tx)
  }

  /** One firm: its live rows are a chain, unfinished rows come after all committed ones, and
      whoever has read a previous hash has read the current one. */
  ghost predicate FirmOk(h: Hash, db: Db, firm: string) {
    Chain(h, GENESIS, Select(db.table, firm, Alive)) &&
    Select(db.table, firm, Alive) == Select(db.table, firm, Everyone) + Select(db.table, firm, Ongoing) &&
    forall tx | tx in db.phases && db.phases[tx].HasRead? && db.phases[tx].firm == firm ::
      db.phases[tx].prev == EndHash(GENESIS, Select(db.table, firm, Alive))
  }

  ghost predicate Inv(h: Hash, lockKey: string -> int, db: Db) {
    LockDiscipline(db, lockKey) && forall firm :: FirmOk(h, db, firm)
  }

  lemma {:induction false} SelectAppend(a: seq<Row>, b: seq<Row>, firm: string, view: View)
    ensures Select(a + b, firm, view) == Select(a, firm, view) + Select(b, firm, view)
  {
    if a == [] {
      assert a + b == b;
    } else {
      assert (a + b)[0] == a[0] && (a + b)[1..] == a[1..] + b;
      SelectAppend(a[1..], b, firm, view);
    }
  }

  /** Two queries that keep the same rows of a firm return the same entries. */
  lemma {:induction false} SelectSame(s: seq<Row>, t: seq<Row>, firm: string, v: View, w: View)
    requires |s| == |t| && forall i | 0 <= i < |s| :: s[i].entry == t[i].entry
    requires forall i | 0 <= i < |s| && s[i].entry.content.firm == firm ::
               Keeps(v, s[i].owner) == Keeps(w, t[i].owner)
    ensures Select(s, firm, v) == Select(t, firm, w)
  {
    if s != [] {
      SelectSame(s[1..], t[1..], firm, v, w);
    }
  }

  lemma {:induction false} SelectNone(s: seq<Row>, firm: string, v: View)
    requires forall r | r in s && r.entry.content.firm == firm :: !Keeps(v, r.owner)
    ensures Select(s, firm, v) == []
  {
    if s != [] {
      assert s[0] in s;
      SelectNone(s[1..], firm, v);
    }
  }

  /** The lock holder sees every live row of the firm. */
  lemma HolderSeesAll(db: Db, lockKey: string -> int, firm: string, tx: nat)
    requires LockDiscipline(db, lockKey) && Holds(db, lockKey, firm, tx)
    ensures Select(db.table, firm, SeenBy(tx)) == Select(db.table, firm, Alive)
  {
    forall i | 0 <= i < |db.table| && db.table[i].entry.content.firm == firm
      ensures Keeps(SeenBy(tx), db.table[i].owner) == Keeps(Alive, db.table[i].owner)
    {
      assert db.table[i] in db.table;
    }
    SelectSame(db.table, db.table, firm, SeenBy(tx), Alive);
  }

  // ----- each step keeps it

  lemma LockKeepsInv(h: Hash, lockKey: string -> int, db: Db, tx: nat, firm: string, fields: Fields)
    requires Inv(h, lockKey, db) && Enabled(db, lockKey, Lock(tx, firm, fields))
    ensures Inv(h, lockKey, Step(h, lockKey, db, Lock(tx, firm, fields)))
  {
    var db' := Step(h, lockKey, db, Lock(tx, firm, fields));
    forall f ensures FirmOk(h, db', f) {
      assert FirmOk(h, db, f);
    }
  }

  lemma ReadKeepsInv(h: Hash, lockKey: string -> int, db: Db, tx: nat)
    requires IdealHash(h) && Inv(h, lockKey, db) && Enabled(db, lockKey, ReadLast(tx))
    ensures Inv(h, lockKey, Step(h, lockKey, db, ReadLast(tx)))
  {
    var db' := Step(h, lockKey, db, ReadLast(tx));
    var firm := db.phases[tx].firm;
    HolderSeesAll(db, lockKey, firm, tx);
    forall f ensures FirmOk(h, db', f) {
      assert FirmOk(h, db, f);
      PrevHashIsEndHash(h, Select(db.table, f, Alive));
    }
  }

  lemma InsertKeepsInv(h: Hash, lockKey: string -> int, db: Db, tx: nat)
    requires Inv(h, lockKey, db) && Enabled(db, lockKey, Insert(tx))
    ensures Inv(h, lockKey, Step(h, lockKey, db, Insert(tx)))
  {
    var db' := Step(h, lockKey, db, Insert(tx));
    var p := db.phases[tx];
    assert Holds(db, lockKey, p.firm, tx);
    forall f ensures FirmOk(h, db', f) {
      assert FirmOk(h, db, f);
      if f == p.firm {
        InserterFirmOk(h, lockKey, db, tx);
      } else {
        OtherFirmOk(h, lockKey, db, tx, f);
      }
    }
  }

  lemma SelectOneMore(table: seq<Row>, r: Row, firm: string, view: View)
    ensures r.entry.content.firm == firm && Keeps(view, r.owner) ==>
              Select(table + [r], firm, view) == Select(table, firm, view) + [r.entry]
    ensures !(r.entry.content.firm == firm && Keeps(view, r.owner)) ==>
              Select(table + [r], firm, view) == Select(table, firm, view)
  {
    SelectAppend(table, [r], firm, view);
    assert [r][1..] == [];
  }

  lemma InserterFirmOk(h: Hash, lockKey: string -> int, db: Db, tx: nat)
    requires LockDiscipline(db, lockKey) && Enabled(db, lockKey, Insert(tx))
    requires FirmOk(h, db, db.phases[tx].firm)
    ensures FirmOk(h, Step(h, lockKey, db, Insert(tx)), db.phases[tx].firm)
  {
    var p := db.phases[tx];
    var f, db' := p.firm, Step(h, lockKey, db, Insert(tx));
    var row := NewRow(h, |db.table|, Preimage(f, p.fields, p.prev), tx);
    var alive := Select(db.table, f, Alive);
    SelectOneMore(db.table, row, f, Alive);
    SelectOneMore(db.table, row, f, Everyone);
    SelectOneMore(db.table, row, f, Ongoing);
    hide Select;
    assert [row.entry][1..] == [];
    ChainAppend(h, GENESIS, alive, [row.entry]);
    forall t | t in db.phases && db.phases[t].HasRead? && db.phases[t].firm == f ensures t == tx {
      assert Holds(db, lockKey, f, t) && Holds(db, lockKey, f, tx);
    }
  }

  lemma OtherFirmOk(h: Hash, lockKey: string -> int, db: Db, tx: nat, f: string)
    requires Enabled(db, lockKey, Insert(tx)) && FirmOk(h, db, f) && f != db.phases[tx].firm
    ensures FirmOk(h, Step(h, lockKey, db, Insert(tx)), f)
  {
    var p := db.phases[tx];
    var row := NewRow(h, |db.table|, Preimage(p.firm, p.fields, p.prev), tx);
    SelectOneMore(db.table, row, f, Alive);
    SelectOneMore(db.table, row, f, Everyone);
    SelectOneMore(db.table, row, f, Ongoing);
  }

  lemma FinishKeepsInv(h: Hash, lockKey: string -> int, db: Db, tx: nat, outcome: Owner)
    requires Inv(h, lockKey, db) && !outcome.Pending?
    requires outcome.Committed? ==> PhaseOf(db, tx).Idle?
    ensures Inv(h, lockKey, Finish(db, tx, outcome))
  {
    var db' := Finish(db, tx, outcome);
    forall r | r in db'.table && r.owner.Pending? ensures Holds(db', lockKey, r.entry.content.firm, r.owner.tx) {
      var i :| 0 <= i < |db'.table| && db'.table[i] == r;
      assert db.table[i] == r && r in db.table;
    }
    forall f ensures FirmOk(h, db', f) {
      assert FirmOk(h, db, f);
      if Holds(db, lockKey, f, tx) {
        HolderFinishes(h, lockKey, db, tx, outcome, f);
      } else {
        BystanderFinishes(h, lockKey, db, tx, outcome, f);
      }
    }
  }

  lemma HolderFinishes(h: Hash, lockKey: string -> int, db: Db, tx: nat, outcome: Owner, f: string)
    requires LockDiscipline(db, lockKey) && FirmOk(h, db, f) && Holds(db, lockKey, f, tx) && !outcome.Pending?
    ensures FirmOk(h, Finish(db, tx, outcome), f)
  {
    var table, table' := db.table, Finish(db, tx, outcome).table;
    forall i | 0 <= i < |table| && table[i].entry.content.firm == f && table[i].owner.Pending?
      ensures table[i].owner == Pending(tx)
    {
      assert table[i] in table;
    }
    var kept := if outcome.Committed? then Alive else Everyone;
    SelectSame(table', table, f, Alive, kept);
    SelectSame(table', table, f, Everyone, kept);
    SelectNone(table', f, Ongoing);
    ChainAppend(h, GENESIS, Select(table, f, Everyone), Select(table, f, Ongoing));
    assert Select(table', f, Everyone) + [] == Select(table', f, Everyone);
    forall t | t in db.phases && db.phases[t].HasRead? && db.phases[t].firm == f ensures t == tx {
      assert Holds(db, lockKey, f, t);
    }
  }

  lemma BystanderFinishes(h: Hash, lockKey: string -> int, db: Db, tx: nat, outcome: Owner, f: string)
    requires LockDiscipline(db, lockKey) && FirmOk(h, db, f) && !Holds(db, lockKey, f, tx) && !outcome.Pending?
    ensures FirmOk(h, Finish(db, tx, outcome), f)
  {
    var table, table' := db.table, Finish(db, tx, outcome).table;
    forall i | 0 <= i < |table| && table[i].entry.content.firm == f ensures table[i].owner != Pending(tx) {
      assert table[i] in table;
    }
    SelectSame(table', table, f, Alive, Alive);
    SelectSame(table', table, f, Everyone, Everyone);
    SelectSame(table', table, f, Ongoing, Ongoing);
  }

  lemma StepKeepsInv(h: Hash, lockKey: string -> int, db: Db, a: Action)
    requires IdealHash(h) && Inv(h, lockKey, db) && Enabled(db, lockKey, a)
    ensures Inv(h, lockKey, Step(h, lockKey, db, a))
  {
    match a {
      case Lock(tx, firm, fields) => LockKeepsInv(h, lockKey, db, tx, firm, fields);
      case ReadLast(tx) => ReadKeepsInv(h, lockKey, db, tx);
      case Insert(tx) => InsertKeepsInv(h, lockKey, db, tx);
      case Commit(tx) => FinishKeepsInv(h, lockKey, db, tx, Committed);
      case Rollback(tx) => FinishKeepsInv(h, lockKey, db, tx, RolledBack);
    }
  }

  // ----- every interleaving

  ghost predicate Runs(h: Hash, lockKey: string -> int, db: Db, actions: seq<Action>)
    decreases actions
  {
    actions == [] ||
    (Enabled(db, lockKey, actions[0]) && Runs(h, lockKey, Step(h, lockKey, db, actions[0]), actions[1..]))
  }

  function After(h: Hash, lockKey: string -> int, db: Db, actions: seq<Action>): Db
    requires Runs(h, lockKey, db, actions)
    decreases actions
  {
    if actions == [] then db else After(h, lockKey, Step(h, lockKey, db, actions[0]), actions[1..])
  }

  lemma {:induction false} InvAlways(h: Hash, lockKey: string -> int, db: Db, actions: seq<Action>)
    requires IdealHash(h) && Inv(h, lockKey, db) && Runs(h, lockKey, db, actions)
    ensures Inv(h, lockKey, After(h, lockKey, db, actions))
    decreases actions
  {
    if actions != [] {
      StepKeepsInv(h, lockKey, db, actions[0]);
      InvAlways(h, lockKey, Step(h, lockKey, db, actions[0]), actions[1..]);
    }
  }

  /** The table as a later session finds it: the committed rows, in id order. */
  function CommittedEntries(table: seq<Row>): seq<Entry> {
    if table == [] then []
    else if table[0].owner.Committed? then [table[0].entry] + CommittedEntries(table[1..])
    else CommittedEntries(table[1..])
  }

  lemma {:induction false} CommittedOfFirm(table: seq<Row>, firm: string)
    ensures OfFirm(CommittedEntries(table), firm) == Select(table, firm, Everyone)
  {
    if table != [] {
      CommittedOfFirm(table[1..], firm);
      if table[0].owner.Committed? {
        var rest := CommittedEntries(table[1..]);
        assert ([table[0].entry] + rest)[1..] == rest;
      }
    }
  }

  /** After any interleaving the committed table is sound: every firm's rows are one unforked
      chain from genesis, which is exactly when `verify_chain` answers (True, None). */
  lemma CommittedRowsVerify(h: Hash, lockKey: string -> int, actions: seq<Action>, firm: string)
    requires IdealHash(h) && Runs(h, lockKey, Db([], map[], map[]), actions)
    ensures var db := After(h, lockKey, Db([], map[], map[]), actions);
            Chain(h, GENESIS, OfFirm(CommittedEntries(db.table), firm))
  {
    CommittedOfFirm(After(h, lockKey, Db([], map[], map[]), actions).table, firm);
    var start := Db([], map[], map[]);
    assert Inv(h, lockKey, start);
    InvAlways(h, lockKey, start, actions);
    var db := After(h, lockKey, start, actions);
    assert FirmOk(h, db, firm);
    ChainAppend(h, GENESIS, Select(db.table, firm, Everyone), Select(db.table, firm, Ongoing));
  }

  /** The state after one more action, its transaction being ready for it. */
  ghost predicate Unguarded(h: Hash, lockKey: string -> int, db: Db, a: Action, db': Db) {
    Ready(db, a) && db' == Step(h, lockKey, db, a)
  }

  /** Two transactions of one firm that both read before either inserts. */
  function Race(firm: string, f: Fields, g: Fields): seq<Action> {
    [Lock(0, firm, f), Lock(1, firm, g), ReadLast(0), ReadLast(1), Insert(0), Insert(1), Commit(0), Commit(1)]
  }

  /** The rows that the race inserts. */
  function First(h: Hash, firm: string, f: Fields): Entry {
    Entry(0, Preimage(firm, f, GENESIS), h(Preimage(firm, f, GENESIS)))
  }

  function Second(h: Hash, firm: string, g: Fields): Entry {
    Entry(1, Preimage(firm, g, GENESIS), h(Preimage(firm, g, GENESIS)))
  }

  /** The states that the race goes through. */
  function RaceStates(h: Hash, k: int, firm: string, f: Fields, g: Fields): seq<Db> {
    var x, y := First(h, firm, f), Second(h, firm, g);
    var read, idle := map[0 := HasRead(firm, f, GENESIS), 1 := HasRead(firm, g, GENESIS)], map[0 := Idle, 1 := Idle];
    [Db([], map[], map[]),
     Db([], map[k := 0], map[0 := Locked(firm, f)]),
     Db([], map[k := 1], map[0 := Locked(firm, f), 1 := Locked(firm, g)]),
     Db([], map[k := 1], map[0 := HasRead(firm, f, GENESIS), 1 := Locked(firm, g)]),
     Db([], map[k := 1], read),
     Db([Row(x, Pending(0))], map[k := 1], map[0 := Idle, 1 := HasRead(firm, g, GENESIS)]),
     Db([Row(x, Pending(0)), Row(y, Pending(1))], map[k := 1], idle),
     Db([Row(x, Committed), Row(y, Pending(1))], map[k := 1], idle),
     Db([Row(x, Committed), Row(y, Committed)], map[], idle)]
  }

  lemma RaceReads(h: Hash, lockKey: string -> int, firm: string, f: Fields, g: Fields, i: nat)
    requires i < 4
    ensures var s := RaceStates(h, lockKey(firm), firm, f, g);
            Unguarded(h, lockKey, s[i], Race(firm, f, g)[i], s[i + 1])
  {
    if i == 0 {
    } else if i == 1 {
    } else if i == 2 {
    }
  }

  lemma RaceWrites(h: Hash, lockKey: string -> int, firm: string, f: Fields, g: Fields, i: nat)
    requires 4 <= i < 8
    ensures var s := RaceStates(h, lockKey(firm), firm, f, g);
            Unguarded(h, lockKey, s[i], Race(firm, f, g)[i], s[i + 1])
  {
    var x, y := First(h, firm, f), Second(h, firm, g);
    FinishTwo(h, lockKey(firm), x, y, firm);
    var one, two := [Row(x, Pending(0))], [Row(x, Pending(0)), Row(y, Pending(1))];
    assert [] + one == one && one + [Row(y, Pending(1))] == two;
    if i == 4 {
    } else if i == 5 {
    } else if i == 6 {
    }
  }

  /** What the lock is for: let the same steps be taken without it, and two transactions that
      append different fields at the same time commit two rows with different hashes (so that
      the unique constraint does not object) that are no chain; with it they cannot. */
  lemma {:induction false} WithoutTheLockChainsFork(h: Hash, lockKey: string -> int, firm: string, f: Fields, g: Fields)
    requires IdealHash(h) && f != g
    ensures var s, race := RaceStates(h, lockKey(firm), firm, f, g), Race(firm, f, g);
            s[0] == Db([], map[], map[]) && |s| == |race| + 1 &&
            (forall i | 0 <= i < |race| :: Unguarded(h, lockKey, s[i], race[i], s[i + 1])) &&
            !Enabled(s[1], lockKey, race[1]) &&
            var rows := CommittedEntries(s[|race|].table);
            |rows| == 2 && rows[0].hash != rows[1].hash && !Chain(h, GENESIS, OfFirm(rows, firm))
  {
    forall i | 0 <= i < 8
      ensures var s := RaceStates(h, lockKey(firm), firm, f, g);
              Unguarded(h, lockKey, s[i], Race(firm, f, g)[i], s[i + 1])
    {
      if i < 4 { RaceReads(h, lockKey, firm, f, g, i); } else { RaceWrites(h, lockKey, firm, f, g, i); }
    }
    TwoFirstEntriesFork(h, First(h, firm, f), Second(h, firm, g), firm);
    hide Unguarded, Chain, CommittedEntries, OfFirm;
  }

  lemma FinishTwo(h: Hash, k: int, x: Entry, y: Entry, firm: string)
    ensures var idle := map[0 := Idle, 1 := Idle];
            Finish(Db([Row(x, Pending(0)), Row(y, Pending(1))], map[k := 1], idle), 0, Committed)
              == Db([Row(x, Committed), Row(y, Pending(1))], map[k := 1], idle) &&
            Finish(Db([Row(x, Committed), Row(y, Pending(1))], map[k := 1], idle), 1, Committed)
              == Db([Row(x, Committed), Row(y, Committed)], map[], idle)
  {
  }

  lemma TwoFirstEntriesFork(h: Hash, x: Entry, y: Entry, firm: string)
    requires IdealHash(h) && x.content != y.content && x.hash == h(x.content) && y.hash == h(y.content)
    requires x.content.firm == y.content.firm == firm && y.content.prevHash == GENESIS
    ensures var rows := CommittedEntries([Row(x, Committed), Row(y, Committed)]);
            rows == [x, y] && x.hash != y.hash && !Chain(h, GENESIS, OfFirm(rows, firm))
  {
    var table := [Row(x, Committed), Row(y, Committed)];
    assert table[1..] == [Row(y, Committed)] && table[1..][1..] == [];
    assert CommittedEntries([]) == [] && CommittedEntries(table[1..]) == [y];
    var rows := [x, y];
    assert rows[1..] == [y] && rows[1..][1..] == [] && OfFirm([], firm) == [] && OfFirm(rows[1..], firm) == [y];
    assert OfFirm(rows, firm) == rows;
  }
}
