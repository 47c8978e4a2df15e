/** `PIIScrubber.scrub`: greedy choice of non-overlapping recogniser hits, then an
    end-to-start splice that puts a placeholder in the place of each of them. */
module Pii {
  import opened Sorting
  import opened Restore

  /** A recogniser result. */
  datatype Span = Span(start: nat, end: nat, score: real, entity: string)

  predicate InText(r: Span, text: string) {
    r.start < r.end <= |text|
  }

  predicate Overlaps(a: Span, b: Span) {
    a.start < b.end && b.start < a.end
  }

  /** The sort key `(score, end - start)`, descending. */
  predicate AtLeastAsGood(a: Span, b: Span) {
    a.score > b.score || (a.score == b.score && a.end - a.start >= b.end - b.start)
  }

  predicate StartsNoEarlier(a: Span, b: Span) {
    a.start >= b.start
  }

  // ----- choosing the spans

  /** One pass over the hits in priority order, after `kept` have been accepted. */
  function Greedy(hits: seq<Span>, kept: seq<Span>): seq<Span> {
    if hits == [] then kept
    else if exists k | k in kept :: Overlaps(hits[0], k) then Greedy(hits[1..], kept)
    else Greedy(hits[1..], kept + [hits[0]])
  }

  function Accepted(results: seq<Span>): seq<Span> {
    Greedy(Sort(results, AtLeastAsGood), [])
  }

  ghost predicate PairwiseDisjoint(spans: seq<Span>) {
    forall i, j | 0 <= i < j < |spans| :: !Overlaps(spans[i], spans[j])
  }

  /** `r` was given up for a kept span with a higher score, or with its score and no shorter. */
  ghost predicate Outranked(r: Span, kept: seq<Span>) {
    exists k | k in kept ::
      Overlaps(r, k) && (k.score > r.score || (k.score == r.score && k.end - k.start >= r.end - r.start))
  }

  predicate Covers(a: Span, i: nat) {
    a.start <= i < a.end
  }

  /** Spans overlap exactly when they have a character in common. */
  lemma OverlapsIff(a: Span, b: Span)
    requires a.start < a.end && b.start < b.end
    ensures Overlaps(a, b) <==> exists i: nat :: Covers(a, i) && Covers(b, i)
  {
    if Overlaps(a, b) {
      var i := if a.start <= b.start then b.start else a.start;
      assert Covers(a, i) && Covers(b, i);
    }
  }

  lemma {:induction false} GreedySelects(hits: seq<Span>, kept: seq<Span>)
    requires Sorted(kept + hits, AtLeastAsGood)
    requires PairwiseDisjoint(kept)
    ensures kept <= Greedy(hits, kept)
    ensures PairwiseDisjoint(Greedy(hits, kept))
    ensures multiset(Greedy(hits, kept)) <= multiset(kept) + multiset(hits)
    ensures forall r | r in hits :: r in Greedy(hits, kept) || Outranked(r, Greedy(hits, kept))
    decreases hits
  {
    if hits != [] {
      var r := hits[0];
      assert hits == [r] + hits[1..];
      assert (kept + hits)[|kept|] == r;
      if exists k | k in kept :: Overlaps(r, k) {
        forall i, j | 0 <= i < j < |kept + hits[1..]|
          ensures AtLeastAsGood((kept + hits[1..])[i], (kept + hits[1..])[j])
        {
          var i', j' := if i < |kept| then i else i + 1, if j < |kept| then j else j + 1;
          assert (kept + hits[1..])[i] == (kept + hits)[i'];
          assert (kept + hits[1..])[j] == (kept + hits)[j'];
        }
        GreedySelects(hits[1..], kept);
        var k :| k in kept && Overlaps(r, k);
        var i :| 0 <= i < |kept| && kept[i] == k;
        assert (kept + hits)[i] == k;
        assert k in Greedy(hits, kept);
      } else {
        assert kept + hits == (kept + [r]) + hits[1..];
        forall i | 0 <= i < |kept| ensures !Overlaps(kept[i], r) {
          assert kept[i] in kept;
        }
        GreedySelects(hits[1..], kept + [r]);
        assert (kept + [r])[|kept|] == r;
      }
    }
  }

  /** What `_select_non_overlapping` promises: it keeps hits only, keeps no two that
      overlap, and gives a hit up only for an overlapping one of higher score, or of the same
      score and no shorter. */
  lemma SelectionIsSound(results: seq<Span>)
    ensures PairwiseDisjoint(Accepted(results))
    ensures multiset(Accepted(results)) <= multiset(results)
    ensures forall r | r in results && r !in Accepted(results) ::
              exists k | k in Accepted(results) ::
                Overlaps(r, k) && (k.score > r.score || (k.score == r.score && k.end - k.start >= r.end - r.start))
  {
    SortSorts(results, AtLeastAsGood);
    var hits := Sort(results, AtLeastAsGood);
    assert [] + hits == hits;
    GreedySelects(hits, []);
    forall r | r in results ensures r in hits {
      assert r in multiset(hits);
    }
  }

  method SelectNonOverlapping(results: seq<Span>) returns (accepted: seq<Span>)
    ensures accepted == Accepted(results)
    ensures PairwiseDisjoint(accepted) && multiset(accepted) <= multiset(results)
    ensures forall r | r in results && r !in accepted ::
              exists k | k in accepted ::
                Overlaps(r, k) && (k.score > r.score || (k.score == r.score && k.end - k.start >= r.end - r.start))
  {
    var byPriority := Sort(results, AtLeastAsGood);
    accepted := [];
    for i := 0 to |byPriority|
      invariant Greedy(byPriority, []) == Greedy(byPriority[i..], accepted)
    {
      var r := byPriority[i];
      if !exists k | k in accepted :: Overlaps(r, k) {
        accepted := accepted + [r];
      }
    }
    SelectionIsSound(results);
  }

  // ----- splicing the placeholders in

  /** The source of the random hexadecimal tails: draw number -> `uuid4().hex[:6]`. */
  type Uuids = nat -> string

  function PlaceholderFor(entity: string, hex: string): string {
    "[" + entity + "_" + hex + "]"
  }

  /** The placeholder drawn for the `i`-th replaced span. */
  function Name(spans: seq<Span>, uuids: Uuids, drawn: nat, i: nat): string
    requires i < |spans|
  {
    PlaceholderFor(spans[i].entity, uuids(drawn + i))
  }

  /** Start of the text that is final once the first `k` spans (rightmost first) are replaced. */
  function Left(text: string, spans: seq<Span>, k: nat): nat
    requires k <= |spans|
  {
    if k == 0 then |text| else spans[k - 1].start
  }

  /** Rightmost first, each ending no later than the one before it starts. */
  ghost predicate Descending(text: string, spans: seq<Span>) {
    (forall i | 0 <= i < |spans| :: InText(spans[i], text)) &&
    forall i, j | 0 <= i < j < |spans| :: spans[j].end <= spans[i].start
  }

  /** The scrubbed form of `text[Left(k)..]`, as tokens. */
  function Tail(text: string, spans: seq<Span>, uuids: Uuids, drawn: nat, k: nat): seq<Token>
    requires k <= |spans| && Descending(text, spans)
  {
    if k == 0 then []
    else
      [Placeholder(Name(spans, uuids, drawn, k - 1))]
      + Literals(text[spans[k - 1].end..Left(text, spans, k - 1)])
      + Tail(text, spans, uuids, drawn, k - 1)
  }

  /** What is recorded for the first `k` spans; a later entry wins over an equal key. */
  function Mapping(text: string, spans: seq<Span>, uuids: Uuids, drawn: nat, k: nat): map<string, string>
    requires k <= |spans| && Descending(text, spans)
  {
    if k == 0 then map[]
    else
      var r := spans[k - 1];
      Mapping(text, spans, uuids, drawn, k - 1)
        [Name(spans, uuids, drawn, k - 1) := text[r.start..r.end]]
  }

  function ScrubTokens(text: string, spans: seq<Span>, uuids: Uuids, drawn: nat): seq<Token>
    requires Descending(text, spans)
  {
    Literals(text[..Left(text, spans, |spans|)]) + Tail(text, spans, uuids, drawn, |spans|)
  }

  function RightToLeft(results: seq<Span>): seq<Span> {
    Sort(Accepted(results), StartsNoEarlier)
  }

  /** Sorting disjoint, nonempty spans by start puts the whole of each before the next. */
  lemma AcceptedDescend(text: string, results: seq<Span>)
    requires forall r | r in results :: InText(r, text)
    ensures Descending(text, RightToLeft(results))
    ensures multiset(RightToLeft(results)) == multiset(Accepted(results)) <= multiset(results)
    ensures |RightToLeft(results)| == |Accepted(results)|
  {
    var accepted, spans := Accepted(results), RightToLeft(results);
    SelectionIsSound(results);
    SortSorts(accepted, StartsNoEarlier);
    assert |multiset(spans)| == |multiset(accepted)|;
    forall i | 0 <= i < |spans| ensures InText(spans[i], text) {
      assert spans[i] in multiset(spans);
      assert spans[i] in multiset(results);
    }
    forall i, j | 0 <= i < j < |spans| ensures spans[j].end <= spans[i].start {
      DisjointAfterSort(accepted, spans, i, j);
      assert StartsNoEarlier(spans[i], spans[j]);
    }
  }

  /** Disjointness does not depend on the order of the spans. */
  lemma DisjointAfterSort(accepted: seq<Span>, spans: seq<Span>, i: nat, j: nat)
    requires PairwiseDisjoint(accepted) && multiset(spans) == multiset(accepted)
    requires i < j < |spans|
    ensures !Overlaps(spans[i], spans[j])
  {
    var a, b := spans[i], spans[j];
    assert spans == spans[..j] + [b] + spans[j + 1..];
    assert a == spans[..j][i];
    assert multiset{a, b} <= multiset(spans);
    TwoOccurrences(accepted, a, b);
  }

  lemma TwoOccurrences(s: seq<Span>, a: Span, b: Span)
    requires multiset{a, b} <= multiset(s)
    ensures exists i, j :: 0 <= i < |s| && 0 <= j < |s| && i != j && s[i] == a && s[j] == b
  {
    assert a in multiset(s);
    var i :| 0 <= i < |s| && s[i] == a;
    var rest := s[..i] + s[i + 1..];
    assert s == s[..i] + [a] + s[i + 1..];
    assert multiset(s) == multiset(rest) + multiset{a};
    assert b in multiset(rest);
    var k :| 0 <= k < |rest| && rest[k] == b;
    var j := if k < i then k else k + 1;
    assert s[j] == b;
  }

  /** The splice loop of `scrub`. */
  method Scrub(text: string, results: seq<Span>, uuids: Uuids, drawn: nat)
      returns (scrubbed: string, mapping: map<string, string>, drawn': nat)
    requires forall r | r in results :: InText(r, text)
    ensures Descending(text, RightToLeft(results))
    ensures drawn' == drawn + |Accepted(results)|
    ensures scrubbed == Render(ScrubTokens(text, RightToLeft(results), uuids, drawn))
    ensures mapping == Mapping(text, RightToLeft(results), uuids, drawn, |RightToLeft(results)|)
  {
    var accepted := SelectNonOverlapping(results);
    AcceptedDescend(text, results);
    scrubbed, mapping := Splice(text, Sort(accepted, StartsNoEarlier), uuids, drawn);
    drawn' := drawn + |accepted|;
  }

  /** Replace from end to start, so that the offsets still to come stay valid. */
  method Splice(text: string, spans: seq<Span>, uuids: Uuids, drawn: nat)
      returns (scrubbed: string, mapping: map<string, string>)
    requires Descending(text, spans)
    ensures scrubbed == Render(ScrubTokens(text, spans, uuids, drawn))
    ensures mapping == Mapping(text, spans, uuids, drawn, |spans|)
  {
    mapping := map[];
    scrubbed := text;
    assert Partial(text, spans, uuids, drawn, 0) == text && Mapping(text, spans, uuids, drawn, 0) == map[];
    hide Partial, Mapping, PlaceholderFor, Left, Tail, Render, ScrubTokens;
    for k := 0 to |spans|
      invariant scrubbed == Partial(text, spans, uuids, drawn, k)
      invariant mapping == Mapping(text, spans, uuids, drawn, k)
    {
      var r := spans[k];
      SpliceStep(text, spans, uuids, drawn, k);
      var placeholder := PlaceholderFor(r.entity, uuids(drawn + k));
      var original := scrubbed[r.start..r.end];
      mapping := mapping[placeholder := original];
      scrubbed := scrubbed[..r.start] + placeholder + scrubbed[r.end..];
    }
    RenderScrubTokens(text, spans, uuids, drawn);
  }

  /** The text once the first `k` spans, rightmost first, are replaced. */
  ghost function Partial(text: string, spans: seq<Span>, uuids: Uuids, drawn: nat, k: nat): string
    requires k <= |spans| && Descending(text, spans)
  {
    text[..Left(text, spans, k)] + Render(Tail(text, spans, uuids, drawn, k))
  }

  lemma RenderScrubTokens(text: string, spans: seq<Span>, uuids: Uuids, drawn: nat)
    requires Descending(text, spans)
    ensures Render(ScrubTokens(text, spans, uuids, drawn)) == Partial(text, spans, uuids, drawn, |spans|)
  {
    LiteralsMean(text[..Left(text, spans, |spans|)], map[]);
    RenderAppend(Literals(text[..Left(text, spans, |spans|)]), Tail(text, spans, uuids, drawn, |spans|));
  }

  /** Splicing left of everything replaced so far sees the input's own characters. */
  lemma Spliced(text: string, a: nat, b: nat, c: nat, placeholder: string, tail: string)
    requires a <= b <= c <= |text|
    ensures var scrubbed := text[..c] + tail;
            scrubbed[a..b] == text[a..b]
            && scrubbed[..a] + placeholder + scrubbed[b..] == text[..a] + (placeholder + text[b..c] + tail)
  {
    var scrubbed := text[..c] + tail;
    assert scrubbed[..a] == text[..a];
    assert scrubbed[b..] == text[b..c] + tail;
  }

  /** One splice: it captures the input's own characters and leads to the next partial text. */
  lemma SpliceStep(text: string, spans: seq<Span>, uuids: Uuids, drawn: nat, k: nat)
    requires k < |spans| && Descending(text, spans)
    ensures var r, scrubbed := spans[k], Partial(text, spans, uuids, drawn, k);
            r.end <= |scrubbed| && scrubbed[r.start..r.end] == text[r.start..r.end] &&
            scrubbed[..r.start] + Name(spans, uuids, drawn, k) + scrubbed[r.end..]
            == Partial(text, spans, uuids, drawn, k + 1) &&
            Mapping(text, spans, uuids, drawn, k)[Name(spans, uuids, drawn, k) := text[r.start..r.end]]
            == Mapping(text, spans, uuids, drawn, k + 1)
  {
    var r, p := spans[k], Name(spans, uuids, drawn, k);
    var left, tail := Left(text, spans, k), Tail(text, spans, uuids, drawn, k);
    PieceMeans(p, text[r.end..left], tail);
    Spliced(text, r.start, r.end, left, p, Render(tail));
  }

  // ----- round trip

  predicate NoBrackets(s: string) {
    '[' !in s && ']' !in s
  }

  /** The draws `from..to` are six bracket-free characters each, and pairwise distinct. */
  ghost predicate GoodDraws(uuids: Uuids, from: nat, to: nat) {
    (forall i | from <= i < to :: |uuids(i)| == 6 && NoBrackets(uuids(i))) &&
    forall i, j | from <= i < j < to :: uuids(i) != uuids(j)
  }

  /** Distinct tails of equal length make distinct placeholders, whatever the entities. */
  lemma PlaceholdersDiffer(e1: string, h1: string, e2: string, h2: string)
    requires |h1| == |h2| && h1 != h2
    ensures PlaceholderFor(e1, h1) != PlaceholderFor(e2, h2)
  {
    var p, q := PlaceholderFor(e1, h1), PlaceholderFor(e2, h2);
    assert p[|p| - 1 - |h1|..|p| - 1] == h1;
    assert q[|q| - 1 - |h2|..|q| - 1] == h2;
  }

  /** Every recorded key is a placeholder of one of the draws. */
  lemma {:induction false} MappingKeys(text: string, spans: seq<Span>, uuids: Uuids, drawn: nat, k: nat)
    requires k <= |spans| && Descending(text, spans)
    ensures forall p | p in Mapping(text, spans, uuids, drawn, k) ::
              exists i | 0 <= i < k :: p == Name(spans, uuids, drawn, i)
  {
    if k > 0 {
      MappingKeys(text, spans, uuids, drawn, k - 1);
    }
  }

  /** With distinct draws no recorded original is overwritten: each captured original is
      the slice of the INPUT that its span names. */
  lemma {:induction false} OriginalsAreSlices(text: string, spans: seq<Span>, uuids: Uuids, drawn: nat, k: nat)
    requires k <= |spans| && Descending(text, spans) && GoodDraws(uuids, drawn, drawn + k)
    ensures forall i | 0 <= i < k ::
              var p := Name(spans, uuids, drawn, i);
              p in Mapping(text, spans, uuids, drawn, k)
              && Mapping(text, spans, uuids, drawn, k)[p] == text[spans[i].start..spans[i].end]
  {
    if k > 0 {
      OriginalsAreSlices(text, spans, uuids, drawn, k - 1);
      forall i | 0 <= i < k - 1
        ensures Name(spans, uuids, drawn, i)
             != Name(spans, uuids, drawn, k - 1)
      {
        PlaceholdersDiffer(spans[i].entity, uuids(drawn + i), spans[k - 1].entity, uuids(drawn + (k - 1)));
      }
    }
  }

  lemma PieceMeans(p: string, gap: string, tail: seq<Token>)
    ensures Render([Placeholder(p)] + Literals(gap) + tail) == p + gap + Render(tail)
    ensures forall merged | p in merged && Known(tail, merged) ::
              Known([Placeholder(p)] + Literals(gap) + tail, merged)
              && Substitute([Placeholder(p)] + Literals(gap) + tail, merged) ==
                merged[p] + gap + Substitute(tail, merged)
  {
    LiteralsMean(gap, map[]);
    assert Render([Placeholder(p)]) == p + "" == p;
    RenderAppend([Placeholder(p)], Literals(gap));
    RenderAppend([Placeholder(p)] + Literals(gap), tail);
    forall merged | p in merged && Known(tail, merged)
      ensures Known([Placeholder(p)] + Literals(gap) + tail, merged)
      ensures Substitute([Placeholder(p)] + Literals(gap) + tail, merged)
           == merged[p] + gap + Substitute(tail, merged)
    {
      LiteralsMean(gap, merged);
      assert Substitute([Placeholder(p)], merged) == merged[p] + "" == merged[p];
      KnownAppend([Placeholder(p)], Literals(gap), merged);
      SubstituteAppend([Placeholder(p)], Literals(gap), merged);
      KnownAppend([Placeholder(p)] + Literals(gap), tail, merged);
      SubstituteAppend([Placeholder(p)] + Literals(gap), tail, merged);
    }
  }

  /** The scrubbed tail means the original tail under any mapping that agrees on its originals. */
  lemma Joined(text: string, a: nat, b: nat, c: nat)
    requires a <= b <= c <= |text|
    ensures text[a..] == text[a..b] + text[b..c] + text[c..]
  {
  }

  lemma {:induction false} TailMeans(text: string, spans: seq<Span>, uuids: Uuids, drawn: nat, k: nat,
                                     merged: map<string, string>)
    requires k <= |spans| && Descending(text, spans)
    requires forall i | 0 <= i < k ::
               var p := Name(spans, uuids, drawn, i);
               p in merged && merged[p] == text[spans[i].start..spans[i].end]
    ensures Known(Tail(text, spans, uuids, drawn, k), merged)
    ensures Substitute(Tail(text, spans, uuids, drawn, k), merged) == text[Left(text, spans, k)..]
  {
    hide Render, Substitute, PlaceholderFor, Name;
    LiteralsMean("", merged);
    assert Literals("") == [];
    if k > 0 {
      var r, left := spans[k - 1], Left(text, spans, k - 1);
      var p := Name(spans, uuids, drawn, k - 1);
      assert p in merged && merged[p] == text[r.start..r.end];
      TailMeans(text, spans, uuids, drawn, k - 1, merged);
      Joined(text, r.start, r.end, left);
      PieceMeans(p, text[r.end..left], Tail(text, spans, uuids, drawn, k - 1));
    }
  }

  /** `text` is what `scrubbed` means under `mapping`. */
  ghost predicate Hides(scrubbed: string, text: string, mapping: map<string, string>) {
    exists tokens :: Render(tokens) == scrubbed && Known(tokens, mapping) && Substitute(tokens, mapping) == text
  }

  /** A scrubbed text means its input, under its own mapping and any that extends it. */
  lemma ScrubHides(text: string, results: seq<Span>, uuids: Uuids, drawn: nat, merged: map<string, string>)
    requires forall r | r in results :: InText(r, text)
    requires GoodDraws(uuids, drawn, drawn + |RightToLeft(results)|)
    requires Descending(text, RightToLeft(results))
    requires var spans := RightToLeft(results);
             var own := Mapping(text, spans, uuids, drawn, |spans|);
             forall p | p in own :: p in merged && merged[p] == own[p]
    ensures Hides(Render(ScrubTokens(text, RightToLeft(results), uuids, drawn)), text, merged)
  {
    var spans := RightToLeft(results);
    var n := |spans|;
    OriginalsAreSlices(text, spans, uuids, drawn, n);
    TailMeans(text, spans, uuids, drawn, n, merged);
    var head := text[..Left(text, spans, n)];
    LiteralsMean(head, merged);
    KnownAppend(Literals(head), Tail(text, spans, uuids, drawn, n), merged);
    SubstituteAppend(Literals(head), Tail(text, spans, uuids, drawn, n), merged);
    assert text == head + text[Left(text, spans, n)..];
    var tokens := ScrubTokens(text, spans, uuids, drawn);
    assert Known(tokens, merged) && Substitute(tokens, merged) == text;
  }

  /** Restoring, in any order, returns the text, provided its placeholders are fresh for it. */
  lemma HiddenIsRestored(scrubbed: string, text: string, order: seq<string>, mapping: map<string, string>)
    requires Hides(scrubbed, text, mapping)
    requires WellFormed(mapping) && Enumerates(order, mapping) && Fresh(text, mapping)
    ensures ReplaceInOrder(scrubbed, order, mapping) == text
  {
    var tokens :| Render(tokens) == scrubbed && Known(tokens, mapping) && Substitute(tokens, mapping) == text;
    RestoreIsSubstitution(tokens, order, mapping);
  }
}
