/** Embedding texts through a shared cache of vectors. */
module EmbedCache {
  import opened Wrappers

  /* The main results: `_embed_with_cache` fetches exactly the missing positions and answers in
     input order; and over every interleaving of callers, evictions and failures each answer is
     the caller's own provider's, if and only if callers whose model names agree would be given
     the same vectors: a cache key holds the model and the text, but no other request setting. */

  type Vector = seq<real>

  /** A stored value; one that does not decode counts as missing. */
  datatype Entry = Stored(vector: Vector) | Spoiled

  type Entries = map<string, Entry>

  // ----- keys

  type Hash = string -> string

  /** A hash in hexadecimal: it holds no colon, and is taken to have no collisions. */
  ghost predicate HashOk(hash: Hash) {
    (forall s :: ':' !in hash(s)) && forall s, t :: hash(s) == hash(t) ==> s == t
  }

  function Key(hash: Hash, model: string, text: string): string {
    "embedding:" + model + ":" + hash(model + "\0" + text)
  }

  lemma ColonAfter(a: string, x: string, b: string, y: string)
    requires a + ":" + x == b + ":" + y && |a| < |b|
    ensures ':' in x
  {
    assert x[|b| - |a| - 1] == (b + ":" + y)[|b|];
  }

  /** What follows the last colon determines what precedes it, colons or not. */
  lemma SplitAtLastColon(a: string, x: string, b: string, y: string)
    requires ':' !in x && ':' !in y && a + ":" + x == b + ":" + y
    ensures a == b && x == y
  {
    if |a| < |b| { ColonAfter(a, x, b, y); }
    if |b| < |a| { ColonAfter(b, y, a, x); }
    var k := a + ":" + x;
    assert a == k[..|a|] && b == k[..|b|] && x == k[|a| + 1..] && y == k[|b| + 1..];
  }

  lemma KeysIdentify(hash: Hash, m: string, s: string, n: string, t: string)
    requires HashOk(hash) && Key(hash, m, s) == Key(hash, n, t)
    ensures m == n && s == t
  {
    var prefix := "embedding:";
    SplitAtLastColon(prefix + m, hash(m + "\0" + s), prefix + n, hash(n + "\0" + t));
    assert m == (prefix + m)[|prefix|..] && n == (prefix + n)[|prefix|..];
    assert s == (m + "\0" + s)[|m| + 1..] && t == (n + "\0" + t)[|n| + 1..];
  }

  /** Such functions exist: every character as two. */
  function Spelled(s: string): string {
    if s == "" then "" else (if s[0] == ':' then "10" else ['0', s[0]]) + Spelled(s[1..])
  }

  lemma {:induction false} SpelledHasNoColon(s: string)
    ensures ':' !in Spelled(s)
  {
    if s != "" { SpelledHasNoColon(s[1..]); }
  }

  lemma {:induction false} SpelledIsInjective(s: string, t: string)
    requires Spelled(s) == Spelled(t)
    ensures s == t
  {
    if s != "" && t != "" {
      var a, b := Spelled(s), Spelled(t);
      assert a[0] == b[0] && a[1] == b[1] && a[2..] == Spelled(s[1..]) && b[2..] == Spelled(t[1..]);
      SpelledIsInjective(s[1..], t[1..]);
      assert s == [s[0]] + s[1..] && t == [t[0]] + t[1..];
    }
  }

  lemma SomeHashIsOk()
    ensures exists hash: Hash :: HashOk(hash)
  {
    forall s ensures ':' !in Spelled(s) {
      SpelledHasNoColon(s);
    }
    forall s, t | Spelled(s) == Spelled(t) ensures s == t {
      SpelledIsInjective(s, t);
    }
    assert HashOk(Spelled);
  }

  // ----- one call

  function Get(hash: Hash, entries: Entries, model: string, text: string): Option<Vector> {
    var key := Key(hash, model, text);
    if key in entries && entries[key].Stored? then Some(entries[key].vector) else None
  }

  function GetAll(hash: Hash, entries: Entries, model: string, texts: seq<string>): (cached: seq<Option<Vector>>)
    ensures |cached| == |texts|
  {
    seq(|texts|, i requires 0 <= i < |texts| => Get(hash, entries, model, texts[i]))
  }

  function Misses(cached: seq<Option<Vector>>): (misses: seq<nat>)
    ensures |misses| <= |cached| && forall k | 0 <= k < |misses| :: misses[k] < |cached|
  {
    if cached == [] then []
    else
      var n := |cached| - 1;
      if cached[n].None? then Misses(cached[..n]) + [n] else Misses(cached[..n])
  }

  function Pick(texts: seq<string>, indices: seq<nat>): seq<string>
    requires forall k | 0 <= k < |indices| :: indices[k] < |texts|
  {
    seq(|indices|, k requires 0 <= k < |indices| => texts[indices[k]])
  }

  /** The answer: cached vectors where there are some, fetched ones in order elsewhere. */
  function Merge(cached: seq<Option<Vector>>, fetched: seq<Vector>): (out: seq<Vector>)
    requires |fetched| == |Misses(cached)|
    ensures |out| == |cached|
  {
    if cached == [] then []
    else
      var n := |cached| - 1;
      match cached[n]
      case Some(v) => Merge(cached[..n], fetched) + [v]
      case None => Merge(cached[..n], fetched[..|fetched| - 1]) + [fetched[|fetched| - 1]]
  }

  /** Storing vectors for texts, in order. */
  function Put(hash: Hash, entries: Entries, model: string, texts: seq<string>, vectors: seq<Vector>): Entries
    requires |texts| == |vectors|
  {
    if texts == [] then entries
    else
      var n := |texts| - 1;
      Put(hash, entries, model, texts[..n], vectors[..n])[Key(hash, model, texts[n]) := Stored(vectors[n])]
  }

  lemma {:induction false} MissesAre(cached: seq<Option<Vector>>)
    ensures forall i: nat :: i in Misses(cached) <==> i < |cached| && cached[i].None?
    ensures forall j, k | 0 <= j < k < |Misses(cached)| :: Misses(cached)[j] < Misses(cached)[k]
  {
    if cached != [] {
      var n := |cached| - 1;
      MissesAre(cached[..n]);
      if cached[n].None? {
        assert Misses(cached) == Misses(cached[..n]) + [n];
        forall i: nat ensures i in Misses(cached) <==> i in Misses(cached[..n]) || i == n {
        }
      }
    }
  }

  /** Position by position: a cached vector is kept, the k-th missing position gets the k-th
      fetched vector. */
  lemma {:induction false} MergeAt(cached: seq<Option<Vector>>, fetched: seq<Vector>, i: nat)
    requires |fetched| == |Misses(cached)| && i < |cached|
    ensures match cached[i]
            case Some(v) => Merge(cached, fetched)[i] == v
            case None =>
              var k := |Misses(cached[..i])|;
              k < |fetched| && Misses(cached)[k] == i && Merge(cached, fetched)[i] == fetched[k]
  {
    var n := |cached| - 1;
    if i < n {
      MergeAt(cached[..n], if cached[n].None? then fetched[..|fetched| - 1] else fetched, i);
      assert cached[..n][..i] == cached[..i];
    }
  }

  datatype Failure = Transient | Raised

  datatype Answer = Vectors(vectors: seq<Vector>) | Failed(failure: Failure)

  class EmbeddingCache {
    const hash: Hash
    var entries: Entries

    constructor (hash: Hash)
      ensures this.hash == hash && entries == map[]
    {
      this.hash := hash;
      entries := map[];
    }

    method GetMany(model: string, texts: seq<string>) returns (cached: seq<Option<Vector>>)
      ensures cached == GetAll(hash, entries, model, texts)
    {
      cached := [];
      for i := 0 to |texts|
        invariant |cached| == i && forall j | 0 <= j < i :: cached[j] == Get(hash, entries, model, texts[j])
      {
        cached := cached + [Get(hash, entries, model, texts[i])];
      }
    }

    method SetMany(model: string, texts: seq<string>, vectors: seq<Vector>)
      requires |texts| == |vectors|
      modifies this
      ensures entries == Put(hash, old(entries), model, texts, vectors)
    {
      for i := 0 to |texts|
        invariant entries == Put(hash, old(entries), model, texts[..i], vectors[..i])
      {
        assert texts[..i + 1][..i] == texts[..i] && vectors[..i + 1][..i] == vectors[..i];
        entries := entries[Key(hash, model, texts[i]) := Stored(vectors[i])];
      }
      assert texts[..|texts|] == texts && vectors[..|vectors|] == vectors;
    }
  }

  method MissIndices(cached: seq<Option<Vector>>) returns (missing: seq<nat>)
    ensures missing == Misses(cached)
  {
    missing := [];
    for i := 0 to |cached|
      invariant missing == Misses(cached[..i])
    {
      MissesStep(cached, i);
      if cached[i] == None {
        missing := missing + [i];
      }
    }
    assert cached[..|cached|] == cached;
  }

  /** An answer, the request made for it, and the cache afterwards. */
  datatype Outcome = Outcome(answer: Answer, asked: Option<seq<string>>, entries: Entries)

  /** What a call comes to that found `cached`, `entries` being in the cache by then. */
  function Answered(hash: Hash, entries: Entries, model: string, texts: seq<string>, cached: seq<Option<Vector>>,
                    fetch: seq<string> -> Option<seq<Vector>>): Outcome
    requires |cached| == |texts|
  {
    var wanted := Pick(texts, Misses(cached));
    if wanted == [] then Outcome(Vectors(Merge(cached, [])), None, entries)
    else
      match fetch(wanted)
      case None => Outcome(Failed(Raised), Some(wanted), entries)
      case Some(vs) =>
        if |vs| != |wanted| then Outcome(Failed(Transient), Some(wanted), entries)
        else Outcome(Vectors(Merge(cached, vs)), Some(wanted), Put(hash, entries, model, wanted, vs))
  }

  /** What a call with a cache comes to, undisturbed. */
  function Cached(hash: Hash, entries: Entries, model: string, texts: seq<string>,
                  fetch: seq<string> -> Option<seq<Vector>>): Outcome {
    Answered(hash, entries, model, texts, GetAll(hash, entries, model, texts), fetch)
  }

  /** `_embed_with_cache`.  `fetch` is the provider's answer to a request, None when it raises;
      `asked` is the request that was made, if any. */
  method EmbedWithCache(cache: EmbeddingCache?, model: string, texts: seq<string>,
                        fetch: seq<string> -> Option<seq<Vector>>)
      returns (answer: Answer, asked: Option<seq<string>>)
    modifies cache
    ensures texts == [] ==> answer == Vectors([]) && asked == None
    ensures texts != [] && cache == null ==>
              asked == Some(texts) &&
              answer == match fetch(texts) case Some(vs) => Vectors(vs) case None => Failed(Raised)
    ensures texts != [] && cache != null ==>
              Outcome(answer, asked, cache.entries) == Cached(cache.hash, old(cache.entries), model, texts, fetch)
    ensures texts == [] && cache != null ==> cache.entries == old(cache.entries)
    ensures forall provider: Provider, group: Group, c: Caller |
              cache != null && HashOk(cache.hash) && Agree(provider, group) && group(c) && c.model == model &&
              Coherent(cache.hash, provider, group, old(cache.entries)) && Gives(fetch, provider, c) ::
              answer == Vectors(EmbedAll(provider, c, texts)) &&
              Coherent(cache.hash, provider, group, cache.entries)
  {
    hide Get, GetAll, Put, Merge, Misses, Agree, Coherent;
    if texts == [] {
      forall provider: Provider, c: Caller ensures EmbedAll(provider, c, texts) == [] {
      }
      return Vectors([]), None;
    }
    if cache == null {
      var all := fetch(texts);
      return if all.Some? then Vectors(all.value) else Failed(Raised), Some(texts);
    }
    CallsAreTransparent(cache.hash, cache.entries, model, texts, fetch);
    var cached := cache.GetMany(model, texts);
    var missing := MissIndices(cached);
    var wanted := Pick(texts, missing);
    var fetched: seq<Vector> := [];
    if missing != [] {
      asked := Some(wanted);
      var reply := fetch(wanted);
      if reply == None {
        return Failed(Raised), asked;
      }
      fetched := reply.value;
      if |fetched| != |wanted| {
        return Failed(Transient), asked;
      }
    } else {
      asked := None;
    }
    var out: seq<Vector> := [];
    var next := 0;
    Nothing(cached);
    assert fetched[..0] == [];
    for i := 0 to |cached|
      invariant next == |Misses(cached[..i])| <= |fetched|
      invariant |fetched| == |Misses(cached)| && cache.entries == old(cache.entries)
      invariant out == Merge(cached[..i], fetched[..next])
    {
      MissesStep(cached, i);
      MissesGrow(cached, i + 1);
      MergeStep(cached, fetched, i);
      match cached[i] {
        case Some(v) => out := out + [v];
        case None =>
          out := out + [fetched[next]];
          next := next + 1;
      }
    }
    assert cached[..|cached|] == cached && fetched[..next] == fetched;
    if missing != [] {
      cache.SetMany(model, wanted, fetched);
    }
    answer := Vectors(out);
  }

  lemma Nothing(cached: seq<Option<Vector>>)
    ensures Misses(cached[..0]) == [] && Merge(cached[..0], []) == [] &&
            (Misses(cached) == [] <==> |Misses(cached)| == 0)
  {
  }

  lemma MissesStep(cached: seq<Option<Vector>>, i: nat)
    requires i < |cached|
    ensures cached[i].None? ==> Misses(cached[..i + 1]) == Misses(cached[..i]) + [i]
    ensures cached[i].Some? ==> Misses(cached[..i + 1]) == Misses(cached[..i])
  {
    assert cached[..i + 1][..i] == cached[..i];
  }

  lemma MergeStep(cached: seq<Option<Vector>>, fetched: seq<Vector>, i: nat)
    requires i < |cached| && |Misses(cached[..i + 1])| <= |fetched|
    ensures var next := |Misses(cached[..i])|;
            match cached[i]
            case Some(v) => next == |Misses(cached[..i + 1])| &&
                            Merge(cached[..i + 1], fetched[..next]) == Merge(cached[..i], fetched[..next]) + [v]
            case None => next + 1 == |Misses(cached[..i + 1])| &&
                         Merge(cached[..i + 1], fetched[..next + 1]) ==
                           Merge(cached[..i], fetched[..next]) + [fetched[next]]
  {
    MissesStep(cached, i);
    var next := |Misses(cached[..i])|;
    assert cached[..i + 1][..i] == cached[..i];
    if cached[i].None? {
      assert fetched[..next + 1][..next] == fetched[..next];
    }
  }

  lemma {:induction false} MissesGrow(cached: seq<Option<Vector>>, i: nat)
    requires i <= |cached|
    ensures |Misses(cached[..i])| <= |Misses(cached)|
    decreases |cached| - i
  {
    if i < |cached| {
      assert cached[..i + 1][..i] == cached[..i];
      MissesGrow(cached, i + 1);
    } else {
      assert cached[..i] == cached;
    }
  }

  // ----- a provider that embeds text by text

  /** A caller is its model name and its other request settings. */
  datatype Caller = Caller(model: string, inputType: Option<string>, dimensions: nat)

  type Provider = (Caller, string) -> Vector

  function EmbedAll(provider: Provider, c: Caller, texts: seq<string>): (vs: seq<Vector>)
    ensures |vs| == |texts|
  {
    seq(|texts|, i requires 0 <= i < |texts| => provider(c, texts[i]))
  }

  /** The replies are the caller's own provider's. */
  ghost predicate Gives(fetch: seq<string> -> Option<seq<Vector>>, provider: Provider, c: Caller) {
    forall texts :: fetch(texts) == Some(EmbedAll(provider, c, texts))
  }

  predicate Right(provider: Provider, c: Caller, texts: seq<string>, cached: seq<Option<Vector>>) {
    |cached| == |texts| && forall i | 0 <= i < |texts| && cached[i].Some? :: cached[i].value == provider(c, texts[i])
  }

  lemma MergeIsRight(provider: Provider, c: Caller, texts: seq<string>, cached: seq<Option<Vector>>)
    requires Right(provider, c, texts, cached)
    ensures Merge(cached, EmbedAll(provider, c, Pick(texts, Misses(cached)))) == EmbedAll(provider, c, texts)
  {
    var fetched := EmbedAll(provider, c, Pick(texts, Misses(cached)));
    forall i | 0 <= i < |texts| ensures Merge(cached, fetched)[i] == provider(c, texts[i]) {
      MergeAt(cached, fetched, i);
    }
  }

  /** The callers that share a cache. */
  type Group = Caller -> bool

  /** Every stored vector is what the group's callers of its model would be given. */
  ghost predicate Coherent(hash: Hash, provider: Provider, group: Group, entries: Entries) {
    forall c: Caller, text: string | group(c) && Get(hash, entries, c.model, text).Some? ::
      Get(hash, entries, c.model, text).value == provider(c, text)
  }

  /** The group's callers with the same model name are given the same vectors. */
  ghost predicate Agree(provider: Provider, group: Group) {
    forall c: Caller, d: Caller, text: string | group(c) && group(d) && c.model == d.model ::
      provider(c, text) == provider(d, text)
  }

  /** The group uses one combination of settings per model. */
  ghost predicate OneSettingPerModel(group: Group) {
    forall c: Caller, d: Caller | group(c) && group(d) && c.model == d.model :: c == d
  }

  lemma {:induction false} PutKeepsCoherent(hash: Hash, provider: Provider, group: Group, entries: Entries,
                                            c: Caller, texts: seq<string>)
    requires HashOk(hash) && Agree(provider, group) && group(c) && Coherent(hash, provider, group, entries)
    ensures Coherent(hash, provider, group, Put(hash, entries, c.model, texts, EmbedAll(provider, c, texts)))
  {
    if texts != [] {
      var n := |texts| - 1;
      var vectors := EmbedAll(provider, c, texts);
      assert vectors[..n] == EmbedAll(provider, c, texts[..n]);
      PutKeepsCoherent(hash, provider, group, entries, c, texts[..n]);
      var before := Put(hash, entries, c.model, texts[..n], vectors[..n]);
      var after := Put(hash, entries, c.model, texts, vectors);
      forall d: Caller, text: string | group(d) && Get(hash, after, d.model, text).Some?
        ensures Get(hash, after, d.model, text).value == provider(d, text)
      {
        if Key(hash, d.model, text) == Key(hash, c.model, texts[n]) {
          KeysIdentify(hash, d.model, text, c.model, texts[n]);
        } else {
          assert Get(hash, after, d.model, text) == Get(hash, before, d.model, text);
        }
      }
    }
  }

  /** From a coherent cache a call's answer is its provider's, and it leaves the cache coherent. */
  lemma CallIsTransparent(hash: Hash, provider: Provider, group: Group, entries: Entries, c: Caller,
                          texts: seq<string>, fetch: seq<string> -> Option<seq<Vector>>)
    requires HashOk(hash) && Agree(provider, group) && group(c) && Coherent(hash, provider, group, entries)
    requires Gives(fetch, provider, c)
    ensures var o := Cached(hash, entries, c.model, texts, fetch);
            o.answer == Vectors(EmbedAll(provider, c, texts)) && Coherent(hash, provider, group, o.entries)
  {
    AnswerIsRight(hash, provider, group, entries, c, texts, GetAll(hash, entries, c.model, texts), fetch);
  }

  lemma CallsAreTransparent(hash: Hash, entries: Entries, model: string, texts: seq<string>,
                            fetch: seq<string> -> Option<seq<Vector>>)
    ensures forall provider: Provider, group: Group, c: Caller |
              HashOk(hash) && Agree(provider, group) && group(c) && c.model == model &&
              Coherent(hash, provider, group, entries) && Gives(fetch, provider, c) ::
              var o := Cached(hash, entries, model, texts, fetch);
              o.answer == Vectors(EmbedAll(provider, c, texts)) && Coherent(hash, provider, group, o.entries)
  {
    hide HashOk, Agree, Coherent, Gives, Cached;
    forall provider: Provider, group: Group, c: Caller |
      HashOk(hash) && Agree(provider, group) && group(c) && c.model == model &&
      Coherent(hash, provider, group, entries) && Gives(fetch, provider, c)
      ensures var o := Cached(hash, entries, model, texts, fetch);
              o.answer == Vectors(EmbedAll(provider, c, texts)) && Coherent(hash, provider, group, o.entries)
    {
      CallIsTransparent(hash, provider, group, entries, c, texts, fetch);
    }
  }

  /** Whatever the reply: exactly the missing texts are requested, and only if there are some;
      and a call that fails stores nothing. */
  lemma OnlyTheMissingAreAsked(hash: Hash, entries: Entries, model: string, texts: seq<string>,
                               fetch: seq<string> -> Option<seq<Vector>>)
    ensures var o := Cached(hash, entries, model, texts, fetch);
            (o.asked == None <==> forall i | 0 <= i < |texts| :: Get(hash, entries, model, texts[i]).Some?) &&
            (o.asked.Some? ==> forall t :: t in o.asked.value <==> t in texts && Get(hash, entries, model, t).None?) &&
            (o.answer.Failed? ==> o.entries == entries)
  {
    hide Get, Merge, Put, Misses;
    var cached := GetAll(hash, entries, model, texts);
    MissesAre(cached);
    var wanted := Pick(texts, Misses(cached));
    forall t ensures t in wanted <==> t in texts && Get(hash, entries, model, t).None? {
      if t in texts && Get(hash, entries, model, t).None? {
        var i: nat :| i < |texts| && texts[i] == t;
        assert cached[i] == None && i in Misses(cached);
        var k :| 0 <= k < |Misses(cached)| && Misses(cached)[k] == i;
        assert wanted[k] == t;
      }
      if t in wanted {
        var k :| 0 <= k < |wanted| && wanted[k] == t;
        assert Misses(cached)[k] in Misses(cached);
      }
    }
    assert wanted == [] <==> forall i | 0 <= i < |texts| :: Get(hash, entries, model, texts[i]).Some? by {
      if i :| 0 <= i < |texts| && Get(hash, entries, model, texts[i]).None? {
        assert texts[i] in wanted;
      }
      if wanted != [] {
        assert wanted[0] in wanted;
      }
    }
  }

  /** And so does one that looked into the cache earlier. */
  lemma AnswerIsRight(hash: Hash, provider: Provider, group: Group, entries: Entries, c: Caller, texts: seq<string>,
                      cached: seq<Option<Vector>>, fetch: seq<string> -> Option<seq<Vector>>)
    requires HashOk(hash) && Agree(provider, group) && group(c) && Coherent(hash, provider, group, entries)
    requires Right(provider, c, texts, cached) && Gives(fetch, provider, c)
    ensures var o := Answered(hash, entries, c.model, texts, cached, fetch);
            o.answer == Vectors(EmbedAll(provider, c, texts)) && Coherent(hash, provider, group, o.entries)
  {
    hide Coherent, Agree, Merge, Misses, Put;
    MergeIsRight(provider, c, texts, cached);
    PutKeepsCoherent(hash, provider, group, entries, c, Pick(texts, Misses(cached)));
    assert EmbedAll(provider, c, []) == [];
  }

  // ----- many callers around one cache

  /** A call between its cache lookup and its answer. */
  datatype Call = Call(caller: Caller, texts: seq<string>, cached: seq<Option<Vector>>)

  datatype Done = Done(caller: Caller, texts: seq<string>, vectors: seq<Vector>)

  datatype World = World(entries: Entries, calls: seq<Call>, done: seq<Done>)

  /** `Answer` lets the k-th open call go on; `fetched` says whether its request, if it makes
      one, succeeds.  `Evict` covers expiry. */
  datatype Action = Look(caller: Caller, texts: seq<string>)
                  | Finish(k: nat, fetched: bool)
                  | Evict(key: string)
                  | Spoil(key: string)

  /** The provider's reply to a request. */
  function Reply(provider: Provider, c: Caller, succeeds: bool): seq<string> -> Option<seq<Vector>> {
    texts => if succeeds then Some(EmbedAll(provider, c, texts)) else None
  }

  function Step(hash: Hash, provider: Provider, w: World, a: Action): World {
    match a
    case Look(c, texts) => w.(calls := w.calls + [Call(c, texts, GetAll(hash, w.entries, c.model, texts))])
    case Finish(k, fetched) =>
      if k >= |w.calls| then w
      else
        var call := w.calls[k];
        var rest := w.(calls := w.calls[..k] + w.calls[k + 1..]);
        if |call.cached| != |call.texts| then rest
        else
          var o := Answered(hash, w.entries, call.caller.model, call.texts, call.cached,
                            Reply(provider, call.caller, fetched));
          rest.(entries := o.entries,
                done := if o.answer.Vectors? then w.done + [Done(call.caller, call.texts, o.answer.vectors)]
                        else w.done)
    case Evict(key) => w.(entries := w.entries - {key})
    case Spoil(key) => w.(entries := w.entries[key := Spoiled])
  }

  function Run(hash: Hash, provider: Provider, actions: seq<Action>): World {
    if actions == [] then World(map[], [], [])
    else Step(hash, provider, Run(hash, provider, actions[..|actions| - 1]), actions[|actions| - 1])
  }

  ghost predicate Inv(hash: Hash, provider: Provider, group: Group, w: World) {
    Coherent(hash, provider, group, w.entries) &&
    (forall call | call in w.calls :: group(call.caller) && Right(provider, call.caller, call.texts, call.cached)) &&
    forall d | d in w.done :: d.vectors == EmbedAll(provider, d.caller, d.texts)
  }

  /** Only callers of the group use the cache. */
  ghost predicate UsedBy(group: Group, actions: seq<Action>) {
    forall a | a in actions && a.Look? :: group(a.caller)
  }

  lemma FinishIsRight(hash: Hash, provider: Provider, group: Group, entries: Entries, call: Call, fetched: bool)
    requires HashOk(hash) && Agree(provider, group) && group(call.caller) && Coherent(hash, provider, group, entries)
    requires Right(provider, call.caller, call.texts, call.cached)
    ensures var o := Answered(hash, entries, call.caller.model, call.texts, call.cached,
                              Reply(provider, call.caller, fetched));
            Coherent(hash, provider, group, o.entries) &&
            (o.answer.Vectors? ==> o.answer.vectors == EmbedAll(provider, call.caller, call.texts))
  {
    hide Coherent, Agree, Merge, Misses, Put;
    var good, bad := Reply(provider, call.caller, true), Reply(provider, call.caller, false);
    AnswerIsRight(hash, provider, group, entries, call.caller, call.texts, call.cached, good);
    var wanted := Pick(call.texts, Misses(call.cached));
    assert wanted == [] ==> Answered(hash, entries, call.caller.model, call.texts, call.cached, good) ==
                            Answered(hash, entries, call.caller.model, call.texts, call.cached, bad);
  }

  /** A lookup followed by its answer is the call as the code makes it. */
  lemma LookThenFinish(hash: Hash, provider: Provider, w: World, c: Caller, texts: seq<string>, fetched: bool)
    ensures var o := Cached(hash, w.entries, c.model, texts, Reply(provider, c, fetched));
            var after := Step(hash, provider, Step(hash, provider, w, Look(c, texts)), Finish(|w.calls|, fetched));
            after.calls == w.calls && after.entries == o.entries &&
            after.done == w.done + if o.answer.Vectors? then [Done(c, texts, o.answer.vectors)] else []
  {
    hide Answered, GetAll;
    var call := Call(c, texts, GetAll(hash, w.entries, c.model, texts));
    assert (w.calls + [call])[|w.calls|] == call;
  }

  lemma StepKeepsInv(hash: Hash, provider: Provider, group: Group, w: World, a: Action)
    requires HashOk(hash) && Agree(provider, group) && Inv(hash, provider, group, w) && (a.Look? ==> group(a.caller))
    ensures Inv(hash, provider, group, Step(hash, provider, w, a))
  {
    match a {
      case Look(c, texts) =>
      case Finish(k, fetched) =>
        if k < |w.calls| {
          var call := w.calls[k];
          assert call in w.calls;
          FinishIsRight(hash, provider, group, w.entries, call, fetched);
        }
      case Evict(key) =>
      case Spoil(key) =>
    }
  }

  lemma {:induction false} InvAlways(hash: Hash, provider: Provider, group: Group, actions: seq<Action>)
    requires HashOk(hash) && Agree(provider, group) && UsedBy(group, actions)
    ensures Inv(hash, provider, group, Run(hash, provider, actions))
  {
    hide Step, Agree, Coherent;
    if actions == [] {
      NothingWrong(hash, provider, group);
    } else {
      var front, last := actions[..|actions| - 1], actions[|actions| - 1];
      assert last in actions && forall a | a in front :: a in actions;
      InvAlways(hash, provider, group, front);
      StepKeepsInv(hash, provider, group, Run(hash, provider, front), last);
    }
  }

  lemma NothingWrong(hash: Hash, provider: Provider, group: Group)
    ensures Inv(hash, provider, group, World(map[], [], []))
  {
  }

  /** In this run every answer is what its caller's own provider gives for its texts. */
  ghost predicate Transparent(hash: Hash, provider: Provider, actions: seq<Action>) {
    forall d | d in Run(hash, provider, actions).done :: d.vectors == EmbedAll(provider, d.caller, d.texts)
  }

  /** The run in which `c` and then `d` embed the same text. */
  function TwoCallers(c: Caller, d: Caller, text: string): seq<Action> {
    [Look(c, [text]), Finish(0, true), Look(d, [text]), Finish(0, true)]
  }

  /** The world after `c` alone has embedded the text. */
  function AfterOne(hash: Hash, provider: Provider, c: Caller, text: string): World {
    World(map[Key(hash, c.model, text) := Stored(provider(c, text))], [], [Done(c, [text], [provider(c, text)])])
  }

  lemma FirstCallerStores(hash: Hash, provider: Provider, c: Caller, text: string)
    ensures Run(hash, provider, [Look(c, [text]), Finish(0, true)]) == AfterOne(hash, provider, c, text)
  {
    RunSnoc(hash, provider, [], Look(c, [text]));
    RunSnoc(hash, provider, [Look(c, [text])], Finish(0, true));
    hide Run;
    var call := Call(c, [text], [None]);
    assert [] + [call] == [call] && GetAll(hash, map[], c.model, [text]) == [None];
    assert [] + [Look(c, [text])] == [Look(c, [text])];
    OneMiss(hash, provider, c, text);
  }

  lemma SecondCallerHits(hash: Hash, provider: Provider, c: Caller, d: Caller, text: string)
    requires c.model == d.model
    ensures var w := Step(hash, provider, AfterOne(hash, provider, c, text), Look(d, [text]));
            Done(d, [text], [provider(c, text)]) in Step(hash, provider, w, Finish(0, true)).done
  {
    var v, w := provider(c, text), AfterOne(hash, provider, c, text);
    assert GetAll(hash, w.entries, d.model, [text]) == [Some(v)];
    assert Misses([Some(v)]) == [] && Merge([Some(v)], []) == [v];
    assert Pick([text], []) == [] && EmbedAll(provider, d, []) == [];
    var w' := Step(hash, provider, w, Look(d, [text]));
    assert w'.calls[0] == Call(d, [text], [Some(v)]);
  }

  lemma SecondGetsTheFirstsVector(hash: Hash, provider: Provider, c: Caller, d: Caller, text: string)
    requires c.model == d.model
    ensures Done(d, [text], [provider(c, text)]) in Run(hash, provider, TwoCallers(c, d, text)).done
  {
    hide Run, Step;
    var one := [Look(c, [text]), Finish(0, true)];
    FirstCallerStores(hash, provider, c, text);
    RunSnoc(hash, provider, one, Look(d, [text]));
    RunSnoc(hash, provider, one + [Look(d, [text])], Finish(0, true));
    assert one + [Look(d, [text])] + [Finish(0, true)] == TwoCallers(c, d, text);
    SecondCallerHits(hash, provider, c, d, text);
  }

  lemma RunSnoc(hash: Hash, provider: Provider, actions: seq<Action>, a: Action)
    ensures Run(hash, provider, actions + [a]) == Step(hash, provider, Run(hash, provider, actions), a)
  {
    assert (actions + [a])[..|actions|] == actions;
  }

  lemma OneMiss(hash: Hash, provider: Provider, c: Caller, text: string)
    ensures var v := provider(c, text);
            Step(hash, provider, World(map[], [Call(c, [text], [None])], []), Finish(0, true))
              == World(map[Key(hash, c.model, text) := Stored(v)], [], [Done(c, [text], [v])])
  {
    var v := provider(c, text);
    assert Misses([None]) == [0] && Pick([text], [0]) == [text] && EmbedAll(provider, c, [text]) == [v];
    assert Merge([None], [v]) == [v];
    var call, entry := Call(c, [text], [None]), Done(c, [text], [v]);
    assert [call][..0] + [call][1..] == [] && [] + [entry] == [entry];
    assert Put(hash, map[], c.model, [text], [v]) == map[Key(hash, c.model, text) := Stored(v)];
  }

  /** For the callers that share a cache: it is transparent on every run, whatever is evicted,
      spoiled or fails, exactly when those of them with the same model name are given the same
      vectors. */
  lemma TransparentIffSameModelAgrees(hash: Hash, provider: Provider, group: Group)
    requires HashOk(hash)
    ensures Agree(provider, group) <==>
            forall actions | UsedBy(group, actions) :: Transparent(hash, provider, actions)
  {
    if Agree(provider, group) {
      forall actions | UsedBy(group, actions) ensures Transparent(hash, provider, actions) {
        InvAlways(hash, provider, group, actions);
      }
    }
    if forall actions | UsedBy(group, actions) :: Transparent(hash, provider, actions) {
      hide Run;
      forall c: Caller, d: Caller, text: string | group(c) && group(d) && c.model == d.model
        ensures provider(c, text) == provider(d, text)
      {
        SecondGetsTheFirstsVector(hash, provider, c, d, text);
        assert UsedBy(group, TwoCallers(c, d, text));
        assert Transparent(hash, provider, TwoCallers(c, d, text));
        assert EmbedAll(provider, d, [text])[0] == provider(d, text);
      }
    }
  }

  /** What a deployment can check: the cache is transparent whatever the provider's vectors
      are, if and only if the callers that share it use one setting per model. */
  lemma TransparentForEveryProviderIff(hash: Hash, group: Group)
    requires HashOk(hash)
    ensures OneSettingPerModel(group) <==>
              forall provider: Provider, actions: seq<Action> | UsedBy(group, actions) ::
                Transparent(hash, provider, actions)
  {
    hide Transparent, UsedBy;
    forall provider: Provider, actions: seq<Action> | OneSettingPerModel(group) && UsedBy(group, actions)
      ensures Transparent(hash, provider, actions)
    {
      TransparentIffSameModelAgrees(hash, provider, group);
    }
    if !OneSettingPerModel(group) {
      var c, d: Caller :| group(c) && group(d) && c.model == d.model && c != d;
      var provider: Provider := (x, _) => if x == c then [0.0] else [];
      TransparentIffSameModelAgrees(hash, provider, group);
      assert provider(c, "") != provider(d, "");
      assert !Agree(provider, group);
    }
  }
}
