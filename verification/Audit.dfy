/** The hash-chained audit log. */
module Audit {
  import opened Wrappers

  /* Hashing is a parameter: any function that is injective and never yields the genesis
     hash (nor an empty string).  The main results: two chains that verify and end in the
     same hash are equal entry by entry, whatever their lengths; no two entries of the log
     ever share a hash, even across firms; and appending keeps every firm's chain sound. */

  /** What is hashed besides the firm and the previous hash; `payload` as a JSON object. */
  datatype Fields = Fields(actorType: string, actorId: Option<string>, action: string,
                           targetType: Option<string>, targetId: Option<string>, payload: map<string, string>)

  datatype Preimage = Preimage(firm: string, fields: Fields, prevHash: string)

  datatype Entry = Entry(id: nat, content: Preimage, hash: string)

  /** `sha256(json.dumps(..., sort_keys=True))`, as a function of what is dumped. */
  type Hash = Preimage -> string

  const GENESIS: string := "0000000000000000000000000000000000000000000000000000000000000000"

  ghost predicate IdealHash(h: Hash) {
    (forall a, b :: h(a) == h(b) ==> a == b) && forall a :: h(a) != GENESIS && h(a) != ""
  }

  // ----- chains

  predicate Link(h: Hash, prev: string, e: Entry) {
    e.content.prevHash == prev && h(e.content) == e.hash
  }

  predicate Chain(h: Hash, prev: string, es: seq<Entry>)
    decreases es
  {
    es == [] || (Link(h, prev, es[0]) && Chain(h, es[0].hash, es[1..]))
  }

  function EndHash(prev: string, es: seq<Entry>): string {
    if es == [] then prev else es[|es| - 1].hash
  }

  lemma {:induction false} ChainAppend(h: Hash, prev: string, a: seq<Entry>, b: seq<Entry>)
    ensures Chain(h, prev, a + b) <==> Chain(h, prev, a) && Chain(h, EndHash(prev, a), b)
    decreases a
  {
    if a == [] {
      assert a + b == b;
    } else {
      assert (a + b)[0] == a[0] && (a + b)[1..] == a[1..] + b;
      ChainAppend(h, a[0].hash, a[1..], b);
    }
  }

  lemma ChainLast(h: Hash, prev: string, es: seq<Entry>)
    requires es != []
    ensures var front, last := es[..|es| - 1], es[|es| - 1];
            Chain(h, prev, es) <==> Chain(h, prev, front) && Link(h, EndHash(prev, front), last)
  {
    var front, last := es[..|es| - 1], es[|es| - 1];
    assert es == front + [last] && [last][1..] == [];
    ChainAppend(h, prev, front, [last]);
  }

  /** The two logs agree in everything the hash covers, entry by entry. */
  ghost predicate SameContents(a: seq<Entry>, b: seq<Entry>) {
    |a| == |b| && forall i | 0 <= i < |a| :: a[i].content == b[i].content && a[i].hash == b[i].hash
  }

  /** Tamper evidence: the last hash pins the whole history, its length included.  So any
      change, insertion, removal or reordering that still verifies shows in the last hash. */
  lemma {:induction false} EndHashDeterminesChain(h: Hash, a: seq<Entry>, b: seq<Entry>)
    requires IdealHash(h)
    requires Chain(h, GENESIS, a) && Chain(h, GENESIS, b)
    requires EndHash(GENESIS, a) == EndHash(GENESIS, b)
    ensures SameContents(a, b)
    decreases |a|
  {
    if a != [] { ChainLast(h, GENESIS, a); }
    if b != [] { ChainLast(h, GENESIS, b); }
    if a != [] && b != [] {
      var x, y := a[|a| - 1], b[|b| - 1];
      assert h(x.content) == h(y.content);
      EndHashDeterminesChain(h, a[..|a| - 1], b[..|b| - 1]);
      forall i | 0 <= i < |a| ensures a[i].content == b[i].content && a[i].hash == b[i].hash {
        if i < |a| - 1 {
          assert a[i] == a[..|a| - 1][i] && b[i] == b[..|b| - 1][i];
        }
      }
    }
  }

  // ----- the table, one session

  /** The firm's rows, in id order. */
  function OfFirm(rows: seq<Entry>, firm: string): seq<Entry> {
    if rows == [] then []
    else if rows[0].content.firm == firm then [rows[0]] + OfFirm(rows[1..], firm)
    else OfFirm(rows[1..], firm)
  }

  /** The previous hash: of the firm's latest row, genesis when there is none (or it is empty). */
  function PrevHash(es: seq<Entry>): string {
    if EndHash("", es) == "" then GENESIS else EndHash("", es)
  }

  ghost predicate Sound(h: Hash, rows: seq<Entry>) {
    forall firm :: Chain(h, GENESIS, OfFirm(rows, firm))
  }

  lemma {:induction false} OfFirmAppend(a: seq<Entry>, b: seq<Entry>, firm: string)
    ensures OfFirm(a + b, firm) == OfFirm(a, firm) + OfFirm(b, firm)
  {
    if a == [] {
      assert a + b == b;
    } else {
      assert (a + b)[0] == a[0] && (a + b)[1..] == a[1..] + b;
      OfFirmAppend(a[1..], b, firm);
    }
  }

  lemma {:induction false} OfFirmOne(rows: seq<Entry>, e: Entry, firm: string)
    ensures e.content.firm == firm ==> OfFirm(rows + [e], firm) == OfFirm(rows, firm) + [e]
    ensures e.content.firm != firm ==> OfFirm(rows + [e], firm) == OfFirm(rows, firm)
  {
    OfFirmAppend(rows, [e], firm);
    assert [e][1..] == [];
  }

  lemma {:induction false} OfFirmRows(rows: seq<Entry>, firm: string)
    ensures forall e | e in OfFirm(rows, firm) :: e in rows && e.content.firm == firm
  {
    if rows != [] {
      OfFirmRows(rows[1..], firm);
    }
  }

  /** Under an ideal hash the empty-string fallback of the code is never taken. */
  lemma PrevHashIsEndHash(h: Hash, es: seq<Entry>)
    requires IdealHash(h) && Chain(h, GENESIS, es)
    ensures PrevHash(es) == EndHash(GENESIS, es)
  {
    if es != [] {
      ChainLast(h, GENESIS, es);
      assert h(es[|es| - 1].content) != "";
    }
  }

  lemma AppendKeepsSound(h: Hash, rows: seq<Entry>, e: Entry)
    requires IdealHash(h) && Sound(h, rows)
    requires e.content.prevHash == PrevHash(OfFirm(rows, e.content.firm)) && e.hash == h(e.content)
    ensures Sound(h, rows + [e])
  {
    forall firm ensures Chain(h, GENESIS, OfFirm(rows + [e], firm)) {
      var es := OfFirm(rows, firm);
      OfFirmOne(rows, e, firm);
      assert Chain(h, GENESIS, es);
      if firm == e.content.firm {
        PrevHashIsEndHash(h, es);
        assert [e][1..] == [];
        ChainAppend(h, GENESIS, es, [e]);
      }
    }
  }

  /** A row stands in its firm's chain right after the earlier rows of the firm. */
  lemma {:induction false} RowEndsPrefix(rows: seq<Entry>, i: nat)
    requires i < |rows|
    ensures OfFirm(rows[..i], rows[i].content.firm) + [rows[i]] <= OfFirm(rows, rows[i].content.firm)
  {
    hide *;
    SplitAt(rows, i);
    OfFirmSplit(rows[..i], rows[i], rows[i + 1..], rows[i].content.firm);
  }

  lemma SplitAt(rows: seq<Entry>, i: nat)
    requires i < |rows|
    ensures rows == rows[..i] + [rows[i]] + rows[i + 1..]
  {
  }

  lemma OfFirmSplit(front: seq<Entry>, e: Entry, back: seq<Entry>, firm: string)
    requires e.content.firm == firm
    ensures OfFirm(front, firm) + [e] <= OfFirm(front + [e] + back, firm)
  {
    hide *;
    OfFirmAppend(front + [e], back, firm);
    OfFirmOne(front, e, firm);
  }

  lemma PrefixSound(h: Hash, prev: string, es: seq<Entry>, prefix: seq<Entry>)
    requires Chain(h, prev, es) && prefix <= es
    ensures Chain(h, prev, prefix)
  {
    assert es == prefix + es[|prefix|..];
    ChainAppend(h, prev, prefix, es[|prefix|..]);
  }

  lemma PrefixLength(rows: seq<Entry>, i: nat, j: nat)
    requires i < j < |rows|
    ensures |OfFirm(rows[..i], rows[i].content.firm)| < |OfFirm(rows[..j], rows[i].content.firm)|
  {
    RowEndsPrefix(rows[..j], i);
    assert rows[..j][..i] == rows[..i];
  }

  /** The unique constraint on `entry_hash` cannot fail: no two rows share a hash, not even
      rows of different firms or rows with identical fields. */
  lemma HashesAreDistinct(h: Hash, rows: seq<Entry>, i: nat, j: nat)
    requires IdealHash(h) && Sound(h, rows) && i < j < |rows|
    ensures rows[i].hash != rows[j].hash
  {
    var x, y := rows[i], rows[j];
    var f, g := x.content.firm, y.content.firm;
    var a, b := OfFirm(rows[..i], f) + [x], OfFirm(rows[..j], g) + [y];
    RowEndsPrefix(rows, i);
    RowEndsPrefix(rows, j);
    PrefixSound(h, GENESIS, OfFirm(rows, f), a);
    PrefixSound(h, GENESIS, OfFirm(rows, g), b);
    ChainLast(h, GENESIS, a);
    ChainLast(h, GENESIS, b);
    if x.hash == y.hash {
      assert h(x.content) == h(y.content);
      EndHashDeterminesChain(h, a, b);
      PrefixLength(rows, i, j);
    }
  }

  /** Entry `k` is the first that does not follow from what precedes it. */
  ghost predicate FirstBad(h: Hash, es: seq<Entry>, k: nat) {
    k < |es| && Chain(h, GENESIS, es[..k]) && !Link(h, EndHash(GENESIS, es[..k]), es[k])
  }

  /** The log table as one session sees it. */
  class AuditLog {
    var rows: seq<Entry>

    constructor ()
      ensures rows == []
    {
      rows := [];
    }

    /** `append_audit`; the id is the next value of the table's sequence. */
    method AppendAudit(h: Hash, id: nat, firm: string, actorType: string, actorId: Option<string>, action: string,
                       targetType: Option<string>, targetId: Option<string>,
                       payload: Option<map<string, string>>) returns (entry: Entry)
      modifies this
      ensures rows == old(rows) + [entry] && entry.id == id
      ensures entry.content.firm == firm && entry.hash == h(entry.content)
      ensures entry.content.prevHash == PrevHash(OfFirm(old(rows), firm))
      ensures entry.content.fields
           == Fields(actorType, actorId, action, targetType, targetId,
                     if payload.Some? then payload.value else map[])
      ensures IdealHash(h) && Sound(h, old(rows)) ==>
                Sound(h, rows) && forall e | e in old(rows) :: e.hash != entry.hash
    {
      var prev := PrevHash(OfFirm(rows, firm));
      var p := if payload.Some? then payload.value else map[];
      var content := Preimage(firm, Fields(actorType, actorId, action, targetType, targetId, p), prev);
      entry := Entry(id, content, h(content));
      ghost var before := rows;
      rows := rows + [entry];
      if IdealHash(h) && Sound(h, before) {
        AppendKeepsSound(h, before, entry);
        forall e | e in before ensures e.hash != entry.hash {
          var i :| 0 <= i < |before| && before[i] == e;
          HashesAreDistinct(h, rows, i, |before|);
        }
      }
    }

    /** `verify_chain`: accepts exactly the sound chains, and otherwise names the first bad
        entry, everything before it being sound. */
    method VerifyChain(h: Hash, firm: string) returns (ok: bool, broken: Option<nat>)
      ensures ok <==> Chain(h, GENESIS, OfFirm(rows, firm))
      ensures ok <==> broken == None
      ensures !ok ==> exists k: nat :: FirstBad(h, OfFirm(rows, firm), k) && broken == Some(OfFirm(rows, firm)[k].id)
    {
      var es := OfFirm(rows, firm);
      var expectedPrev := GENESIS;
      for k := 0 to |es|
        invariant Chain(h, GENESIS, es[..k]) && expectedPrev == EndHash(GENESIS, es[..k])
      {
        assert es == es[..k] + es[k..];
        ChainAppend(h, GENESIS, es[..k], es[k..]);
        if es[k].content.prevHash != expectedPrev {
          assert FirstBad(h, es, k);
          return false, Some(es[k].id);
        }
        // the hash covers the firm of the query, which is the firm of every row it returns
        OfFirmRows(rows, firm);
        assert es[k] in es;
        if h(Preimage(firm, es[k].content.fields, es[k].content.prevHash)) != es[k].hash {
          assert FirstBad(h, es, k);
          return false, Some(es[k].id);
        }
        assert es[..k + 1][..k] == es[..k];
        ChainLast(h, GENESIS, es[..k + 1]);
        expectedPrev := es[k].hash;
      }
      assert es[..|es|] == es;
      return true, None;
    }
  }
}
