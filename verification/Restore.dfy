/** Putting the originals back in place of PII placeholders. */
module Restore {
  import opened Strings

  /* `ScrubResult.restore` and `_restore_in_string` apply one `str.replace` per
     mapping entry, in dictionary order, each to the result of the previous one.
     The main result is that this chain of replacements is a simultaneous
     substitution: no intermediate replacement creates or destroys an occurrence
     of another placeholder, so the order cannot be observed.  What makes it true
     is the shape of a placeholder (one `[`, at its start, and one `]`, at its
     end) and that the fully restored text contains no placeholder. */

  /** A text seen as literal characters and whole placeholders. */
  datatype Token = Literal(c: char) | Placeholder(name: string)

  predicate IsPlaceholder(p: string) {
    |p| >= 2 && p[0] == '[' && p[|p| - 1] == ']' &&
    forall i | 0 < i < |p| - 1 :: p[i] != '[' && p[i] != ']'
  }

  function Literals(s: string): seq<Token> {
    seq(|s|, i requires 0 <= i < |s| => Literal(s[i]))
  }

  function Image(token: Token): string {
    match token case Literal(c) => [c] case Placeholder(p) => p
  }

  function Render(tokens: seq<Token>): string {
    if tokens == [] then "" else Image(tokens[0]) + Render(tokens[1..])
  }

  predicate Known(tokens: seq<Token>, mapping: map<string, string>) {
    forall t | t in tokens && t.Placeholder? :: t.name in mapping
  }

  predicate WellFormed(mapping: map<string, string>) {
    forall p | p in mapping :: IsPlaceholder(p)
  }

  /** Every placeholder replaced at once: the meaning of a restored text. */
  function Substitute(tokens: seq<Token>, mapping: map<string, string>): string
    requires Known(tokens, mapping)
  {
    if tokens == [] then "" else Meaning(tokens[0], mapping) + Substitute(tokens[1..], mapping)
  }

  function Meaning(token: Token, mapping: map<string, string>): string
    requires token.Placeholder? ==> token.name in mapping
  {
    match token case Literal(c) => [c] case Placeholder(p) => mapping[p]
  }

  /** No placeholder of the mapping occurs in `text`. */
  predicate Fresh(text: string, mapping: map<string, string>) {
    forall p | p in mapping :: !Contains(text, p)
  }

  /** One replacement per entry of `order`, each on the previous result. */
  function ReplaceInOrder(text: string, order: seq<string>, mapping: map<string, string>): string
    requires forall p | p in order :: p in mapping && p != ""
    decreases order
  {
    if order == [] then text
    else ReplaceInOrder(Replace(text, order[0], mapping[order[0]]), order[1..], mapping)
  }

  /** `order` lists every key of the mapping (repetitions would do no harm). */
  predicate Enumerates(order: seq<string>, mapping: map<string, string>) {
    (forall p | p in order :: p in mapping) && (forall p | p in mapping :: p in order)
  }

  // ----- the main results

  /** Sequential replacement, in ANY order of the mapping's entries, is the
      simultaneous substitution. */
  lemma RestoreIsSubstitution(tokens: seq<Token>, order: seq<string>, mapping: map<string, string>)
    requires Known(tokens, mapping) && WellFormed(mapping) && Enumerates(order, mapping)
    requires Fresh(Substitute(tokens, mapping), mapping)
    ensures ReplaceInOrder(Render(tokens), order, mapping) == Substitute(tokens, mapping)
  {
    ChainSubstitutes(tokens, order, mapping);
  }

  /** The loop of `restore`: the entries are taken in an order nobody chooses. */
  method RestoreInString(text: string, mapping: map<string, string>) returns (restored: string)
    requires WellFormed(mapping)
    ensures exists order :: Enumerates(order, mapping) && restored == ReplaceInOrder(text, order, mapping)
    ensures forall tokens | Render(tokens) == text && Known(tokens, mapping)
              && Fresh(Substitute(tokens, mapping), mapping) ::
              restored == Substitute(tokens, mapping)
  {
    restored := text;
    ghost var order: seq<string> := [];
    var remaining := mapping.Keys;
    while remaining != {}
      invariant remaining <= mapping.Keys
      invariant forall p | p in order :: p in mapping
      invariant forall p | p in mapping :: p in order || p in remaining
      invariant restored == ReplaceInOrder(text, order, mapping)
      decreases |remaining|
    {
      var p :| p in remaining;
      restored := Replace(restored, p, mapping[p]);
      ReplaceInOrderAppend(text, order, p, mapping);
      order := order + [p];
      remaining := remaining - {p};
    }
    assert Enumerates(order, mapping);
    forall tokens | Render(tokens) == text && Known(tokens, mapping)
        && Fresh(Substitute(tokens, mapping), mapping)
      ensures restored == Substitute(tokens, mapping)
    {
      RestoreIsSubstitution(tokens, order, mapping);
    }
  }

  /** Freshness is what the round trip needs: a text that nothing was scrubbed from is
      returned by a one-entry mapping if and only if it does not contain the placeholder. */
  lemma UntouchedIffFresh(text: string, p: string, original: string)
    requires IsPlaceholder(p) && original != p
    ensures ReplaceInOrder(text, [p], map[p := original]) == text <==> Fresh(text, map[p := original])
  {
    var mapping := map[p := original];
    assert [p][1..] == [];
    assert ReplaceInOrder(text, [p], mapping) == ReplaceInOrder(Replace(text, p, original), [], mapping);
    UnchangedIffAbsent(text, p, original);
  }

  // ----- one replacement

  /** The tokens after the placeholder `p` has been replaced. */
  function Fill(tokens: seq<Token>, p: string, original: string): seq<Token> {
    if tokens == [] then []
    else (if tokens[0] == Placeholder(p) then Literals(original) else [tokens[0]]) + Fill(tokens[1..], p, original)
  }

  lemma {:induction false} RenderAppend(a: seq<Token>, b: seq<Token>)
    ensures Render(a + b) == Render(a) + Render(b)
  {
    if a == [] {
      assert a + b == b;
    } else {
      RenderAppend(a[1..], b);
      assert (a + b)[0] == a[0] && (a + b)[1..] == a[1..] + b;
      Associative(Image(a[0]), Render(a[1..]), Render(b));
    }
  }

  lemma KnownAppend(a: seq<Token>, b: seq<Token>, mapping: map<string, string>)
    ensures Known(a, mapping) && Known(b, mapping) <==> Known(a + b, mapping)
  {
    forall t | t in a ensures t in a + b {}
    forall t | t in b ensures t in a + b {}
  }

  lemma {:induction false} SubstituteAppend(a: seq<Token>, b: seq<Token>, mapping: map<string, string>)
    requires Known(a + b, mapping)
    ensures Known(a, mapping) && Known(b, mapping)
    ensures Substitute(a + b, mapping) == Substitute(a, mapping) + Substitute(b, mapping)
  {
    KnownAppend(a, b, mapping);
    if a == [] {
      assert a + b == b;
    } else {
      assert (a + b)[0] == a[0] && (a + b)[1..] == a[1..] + b;
      SubstituteAppend(a[1..], b, mapping);
      Associative(Meaning(a[0], mapping), Substitute(a[1..], mapping), Substitute(b, mapping));
    }
  }

  lemma {:induction false} LiteralsMean(s: string, mapping: map<string, string>)
    ensures Known(Literals(s), mapping)
    ensures Render(Literals(s)) == s == Substitute(Literals(s), mapping)
  {
    if s != "" {
      assert Literals(s)[1..] == Literals(s[1..]);
      LiteralsMean(s[1..], mapping);
    }
  }

  /** A run of characters without `[` passes through a replacement untouched. */
  lemma {:induction false} ReplaceSkips(u: string, rest: string, p: string, original: string)
    requires IsPlaceholder(p)
    requires '[' !in u
    ensures Replace(u + rest, p, original) == u + Replace(rest, p, original)
  {
    if u == "" {
      assert u + rest == rest;
    } else {
      assert !(p <= u + rest) by {
        assert (u + rest)[0] == u[0];
      }
      assert (u + rest)[1..] == u[1..] + rest;
      ReplaceSkips(u[1..], rest, p, original);
    }
  }

  /** Two placeholders that start at the same position are the same one. */
  lemma {:induction false} SameStartSamePlaceholder(p: string, q: string, rest: string)
    requires IsPlaceholder(p) && IsPlaceholder(q)
    requires p <= q + rest
    ensures p == q
  {
    var t := q + rest;
    assert p == t[..|p|] && q == t[..|q|];
    assert forall i | 0 <= i < |p| && i < |q| :: p[i] == t[i] == q[i];
    if |p| != |q| {
      assert false;
    }
  }

  /** A match that begins inside literal text and has no further `[` lies in literal text. */
  lemma {:induction false} MatchIsLiteral(u: string, tokens: seq<Token>, mapping: map<string, string>)
    requires Known(tokens, mapping) && WellFormed(mapping)
    requires '[' !in u && u <= Render(tokens)
    ensures u <= Substitute(tokens, mapping)
  {
    if u != "" {
      var r := Render(tokens);
      assert r[0] == u[0] && u[0] in u;
      match tokens[0] {
        case Literal(c) =>
          assert r[1..] == Render(tokens[1..]);
          assert u[1..] <= r[1..];
          MatchIsLiteral(u[1..], tokens[1..], mapping);
          assert u == [u[0]] + u[1..];
        case Placeholder(q) =>
          assert false;
      }
    }
  }

  /** No match starts at a literal, or the match would survive into the restored text. */
  lemma NoMatchAtLiteral(tokens: seq<Token>, p: string, mapping: map<string, string>)
    requires Known(tokens, mapping) && WellFormed(mapping) && IsPlaceholder(p)
    requires tokens != [] && tokens[0].Literal?
    requires !Contains(Substitute(tokens, mapping), p)
    ensures !(p <= Render(tokens))
  {
    var c, rendered, meant := tokens[0].c, Render(tokens[1..]), Substitute(tokens[1..], mapping);
    assert Render(tokens) == [c] + rendered && Substitute(tokens, mapping) == [c] + meant;
    hide Render, Substitute;
    if p <= [c] + rendered {
      assert p == [c] + p[1..] && p[1..] <= rendered;
      MatchIsLiteral(p[1..], tokens[1..], mapping);
    }
  }

  /** A placeholder of another name passes through a replacement untouched. */
  lemma OtherPlaceholderSkipped(q: string, rest: string, p: string, original: string)
    requires IsPlaceholder(p) && IsPlaceholder(q) && p != q
    ensures Replace(q + rest, p, original) == q + Replace(rest, p, original)
  {
    if p <= q + rest { SameStartSamePlaceholder(p, q, rest); }
    assert (q + rest)[1..] == q[1..] + rest;
    ReplaceSkips(q[1..], rest, p, original);
    assert q == [q[0]] + q[1..];
  }

  /** One `str.replace` replaces exactly the placeholder tokens of that name. */
  lemma FirstFilled(tokens: seq<Token>, p: string, original: string)
    requires tokens != []
    ensures Render(Fill(tokens, p, original))
         == (if tokens[0] == Placeholder(p) then original else Image(tokens[0])) +
            Render(Fill(tokens[1..], p, original))
  {
    LiteralsMean(original, map[]);
    var first := if tokens[0] == Placeholder(p) then Literals(original) else [tokens[0]];
    RenderAppend(first, Fill(tokens[1..], p, original));
    assert Render([tokens[0]]) == Image(tokens[0]) + "" == Image(tokens[0]);
  }

  lemma {:induction false} ReplaceFills(tokens: seq<Token>, p: string, mapping: map<string, string>)
    requires Known(tokens, mapping) && WellFormed(mapping) && p in mapping
    requires !Contains(Substitute(tokens, mapping), p)
    ensures Replace(Render(tokens), p, mapping[p]) == Render(Fill(tokens, p, mapping[p]))
  {
    if tokens != [] {
      var original, rest := mapping[p], Render(tokens[1..]);
      var head := Meaning(tokens[0], mapping);
      if Contains(Substitute(tokens[1..], mapping), p) {
        ContainsInSuffix(head, Substitute(tokens[1..], mapping), p);
      }
      ReplaceFills(tokens[1..], p, mapping);
      FirstFilled(tokens, p, original);
      hide Fill, Substitute;
      match tokens[0] {
        case Literal(c) =>
          NoMatchAtLiteral(tokens, p, mapping);
          assert Render(tokens)[1..] == rest;
        case Placeholder(q) =>
          if q == p {
            assert Render(tokens)[|p|..] == rest;
          } else {
            OtherPlaceholderSkipped(q, rest, p, original);
          }
      }
    }
  }

  lemma {:induction false} FillKeepsMeaning(tokens: seq<Token>, p: string, mapping: map<string, string>)
    requires Known(tokens, mapping) && p in mapping
    ensures Known(Fill(tokens, p, mapping[p]), mapping)
    ensures Substitute(Fill(tokens, p, mapping[p]), mapping) == Substitute(tokens, mapping)
    ensures forall t | t in Fill(tokens, p, mapping[p]) && t.Placeholder? :: t in tokens && t.name != p
  {
    if tokens != [] {
      var original := mapping[p];
      FillKeepsMeaning(tokens[1..], p, mapping);
      LiteralsMean(original, mapping);
      var first := if tokens[0] == Placeholder(p) then Literals(original) else [tokens[0]];
      KnownAppend(first, Fill(tokens[1..], p, original), mapping);
      SubstituteAppend(first, Fill(tokens[1..], p, original), mapping);
      assert Substitute([tokens[0]], mapping)
          == Meaning(tokens[0], mapping) + "";
    }
  }

  // ----- the whole chain

  lemma {:induction false} NoPlaceholderLeft(tokens: seq<Token>, mapping: map<string, string>)
    requires forall t | t in tokens :: t.Literal?
    ensures Known(tokens, mapping) && Render(tokens) == Substitute(tokens, mapping)
  {
    if tokens != [] {
      NoPlaceholderLeft(tokens[1..], mapping);
      assert tokens[0] in tokens;
    }
  }

  lemma {:induction false} ChainSubstitutes(tokens: seq<Token>, order: seq<string>, mapping: map<string, string>)
    requires Known(tokens, mapping) && WellFormed(mapping)
    requires Fresh(Substitute(tokens, mapping), mapping)
    requires forall p | p in order :: p in mapping
    requires forall t | t in tokens && t.Placeholder? :: t.name in order
    ensures ReplaceInOrder(Render(tokens), order, mapping) == Substitute(tokens, mapping)
    decreases order
  {
    if order == [] {
      NoPlaceholderLeft(tokens, mapping);
    } else {
      var p := order[0];
      ReplaceFills(tokens, p, mapping);
      FillKeepsMeaning(tokens, p, mapping);
      ChainSubstitutes(Fill(tokens, p, mapping[p]), order[1..], mapping);
    }
  }

  lemma {:induction false} ReplaceInOrderAppend(text: string, order: seq<string>, p: string,
                                                mapping: map<string, string>)
    requires forall q | q in order + [p] :: q in mapping && q != ""
    ensures ReplaceInOrder(text, order + [p], mapping)
         == Replace(ReplaceInOrder(text, order, mapping), p, mapping[p])
    decreases order
  {
    if order == [] {
      assert order + [p] == [p] && [p][1..] == [];
    } else {
      assert (order + [p])[1..] == order[1..] + [p];
      assert (order + [p])[0] == order[0];
      ReplaceInOrderAppend(Replace(text, order[0], mapping[order[0]]), order[1..], p, mapping);
    }
  }
}
