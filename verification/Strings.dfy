/** Python's `str.replace` and substring test, on sequences of characters. */
module Strings {

  /** Leftmost, non-overlapping replacement of every occurrence of `pattern`. */
  function Replace(text: string, pattern: string, original: string): string
    requires pattern != ""
  {
    if text == "" then ""
    else if pattern <= text then original + Replace(text[|pattern|..], pattern, original)
    else [text[0]] + Replace(text[1..], pattern, original)
  }

  predicate Contains(text: string, pattern: string) {
    pattern <= text || (text != "" && Contains(text[1..], pattern))
  }

  lemma Associative<T>(a: seq<T>, b: seq<T>, c: seq<T>)
    ensures a + (b + c) == (a + b) + c
  {
  }

  lemma {:induction false} ContainsInSuffix(head: string, tail: string, pattern: string)
    requires Contains(tail, pattern)
    ensures Contains(head + tail, pattern)
  {
    if head == "" {
      assert head + tail == tail;
    } else {
      ContainsInSuffix(head[1..], tail, pattern);
      assert (head + tail)[1..] == head[1..] + tail;
    }
  }

  lemma {:induction false} ReplaceLength(text: string, pattern: string, original: string)
    requires pattern != ""
    ensures |original| >= |pattern| ==> |Replace(text, pattern, original)| >= |text|
    ensures |original| <= |pattern| ==> |Replace(text, pattern, original)| <= |text|
    ensures Contains(text, pattern) && |original| != |pattern| ==> |Replace(text, pattern, original)| != |text|
    decreases |text|
  {
    if text != "" {
      if pattern <= text {
        ReplaceLength(text[|pattern|..], pattern, original);
      } else {
        ReplaceLength(text[1..], pattern, original);
      }
    }
  }

  /** A replacement by something else leaves a text alone exactly when it has no match. */
  lemma {:induction false} UnchangedIffAbsent(text: string, pattern: string, original: string)
    requires pattern != "" && original != pattern
    ensures Replace(text, pattern, original) == text <==> !Contains(text, pattern)
  {
    ReplaceLength(text, pattern, original);
    if text != "" {
      if pattern <= text {
        assert Replace(text, pattern, original)[..|original|] == original;
        assert text[..|pattern|] == pattern;
      } else {
        UnchangedIffAbsent(text[1..], pattern, original);
        assert Replace(text, pattern, original)[1..] == Replace(text[1..], pattern, original);
        assert text == [text[0]] + text[1..];
      }
    }
  }
}
