/** Python's stable `sorted`, as insertion sort. */
module Sorting {

  ghost predicate TotalPreorder<T(!new)>(before: (T, T) -> bool) {
    (forall x, y :: before(x, y) || before(y, x)) &&
    (forall x, y, z :: before(x, y) && before(y, z) ==> before(x, z))
  }

  function Insert<T>(x: T, s: seq<T>, before: (T, T) -> bool): seq<T> {
    if s == [] || before(x, s[0]) then [x] + s else [s[0]] + Insert(x, s[1..], before)
  }

  /** Equal elements keep their order: an element goes in front of its later equals. */
  function Sort<T>(s: seq<T>, before: (T, T) -> bool): seq<T> {
    if s == [] then [] else Insert(s[0], Sort(s[1..], before), before)
  }

  ghost predicate Sorted<T>(s: seq<T>, before: (T, T) -> bool) {
    forall i, j | 0 <= i < j < |s| :: before(s[i], s[j])
  }

  lemma {:induction false} InsertSorts<T(!new)>(x: T, s: seq<T>, before: (T, T) -> bool)
    requires TotalPreorder(before) && Sorted(s, before)
    ensures Sorted(Insert(x, s, before), before)
    ensures multiset(Insert(x, s, before)) == multiset(s) + multiset{x}
  {
    if s == [] || before(x, s[0]) {
      assert forall j | 0 < j < |s| :: before(s[0], s[j]);
    } else {
      InsertSorts(x, s[1..], before);
      var t := Insert(x, s[1..], before);
      assert s == [s[0]] + s[1..];
      forall j | 0 <= j < |t| ensures before(s[0], t[j]) {
        assert t[j] in multiset(t);
        assert t[j] == x || t[j] in multiset(s[1..]);
      }
    }
  }

  lemma {:induction false} SortSorts<T(!new)>(s: seq<T>, before: (T, T) -> bool)
    requires TotalPreorder(before)
    ensures Sorted(Sort(s, before), before)
    ensures multiset(Sort(s, before)) == multiset(s)
  {
    if s != [] {
      SortSorts(s[1..], before);
      InsertSorts(s[0], Sort(s[1..], before), before);
      assert s == [s[0]] + s[1..];
    }
  }

  // ----- stability

  /** The elements that rank as `x` does, in their order. */
  function Ties<T>(s: seq<T>, x: T, before: (T, T) -> bool): seq<T> {
    if s == [] then []
    else (if before(x, s[0]) && before(s[0], x) then [s[0]] else []) + Ties(s[1..], x, before)
  }

  lemma {:induction false} InsertIsStable<T(!new)>(y: T, s: seq<T>, x: T, before: (T, T) -> bool)
    requires TotalPreorder(before)
    ensures Ties(Insert(y, s, before), x, before) == Ties([y] + s, x, before)
  {
    if s != [] && !before(y, s[0]) {
      InsertIsStable(y, s[1..], x, before);
      assert Insert(y, s, before)[1..] == Insert(y, s[1..], before);
      assert ([y] + s)[1..] == s && ([y] + s[1..])[1..] == s[1..];
    }
  }

  /** Elements that rank equal keep their order. */
  lemma {:induction false} SortIsStable<T(!new)>(s: seq<T>, x: T, before: (T, T) -> bool)
    requires TotalPreorder(before)
    ensures Ties(Sort(s, before), x, before) == Ties(s, x, before)
  {
    if s != [] {
      SortIsStable(s[1..], x, before);
      InsertIsStable(s[0], Sort(s[1..], before), x, before);
      assert ([s[0]] + Sort(s[1..], before))[1..] == Sort(s[1..], before);
    }
  }
}
