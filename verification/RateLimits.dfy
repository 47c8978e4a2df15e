/** Runs of `acquire` calls on one Redis, in the callers' terms: limits with a scope, a name, a
    capacity and a width in seconds. */
module RateLimits {
  import opened Wrappers
  import opened SlidingWindow

  datatype Request = Request(now: int, limits: seq<SlidingWindowLimit>)

  /** What the callers are told, one after the other; the n-th call overall brings member id n. */
  function Replies(store: Store, requests: seq<Request>, member: nat): (replies: seq<Option<real>>)
    ensures |replies| == |requests|
    decreases requests
  {
    if requests == [] then []
    else
      var (store', reply) := Acquired(store, requests[0].limits, requests[0].now, member);
      [reply] + Replies(store', requests[1..], member + 1)
  }

  ghost predicate InTime(requests: seq<Request>) {
    forall i, j | 0 <= i < j < |requests| :: requests[i].now <= requests[j].now
  }

  ghost predicate Uses(requests: seq<Request>, lim: SlidingWindowLimit) {
    exists i | 0 <= i < |requests| :: lim in requests[i].limits
  }

  /** Limits that share a Redis key agree, and they are limits. */
  ghost predicate Consistent(requests: seq<Request>) {
    (forall a, b | Uses(requests, a) && Uses(requests, b) && LimitKey(a) == LimitKey(b) ::
       a.capacity == b.capacity && a.windowSeconds == b.windowSeconds) &&
    forall a | Uses(requests, a) :: a.capacity >= 1 && a.windowSeconds >= 0
  }

  /** How many of the requests were admitted in `(low, high]` and carry a limit of that kind. */
  ghost function Admitted(requests: seq<Request>, replies: seq<Option<real>>, kind: SlidingWindowLimit -> bool,
                          low: int, high: int): nat
    requires |requests| == |replies|
    decreases requests
  {
    if requests == [] then 0
    else
      var counts := replies[0] == None && (exists lim | lim in requests[0].limits :: kind(lim)) &&
                    low < requests[0].now <= high;
      (if counts then 1 else 0) + Admitted(requests[1..], replies[1..], kind, low, high)
  }

  function SameKey(lim: SlidingWindowLimit): SlidingWindowLimit -> bool {
    (other: SlidingWindowLimit) => LimitKey(other) == LimitKey(lim)
  }

  function SameNames(lim: SlidingWindowLimit): SlidingWindowLimit -> bool {
    (other: SlidingWindowLimit) => other.scopeKey == lim.scopeKey && other.windowName == lim.windowName
  }

  /** A key is a scope and a name, as long as names hold no colon. */
  lemma {:induction false} KeysIdentifyLimits(a: SlidingWindowLimit, b: SlidingWindowLimit)
    requires ':' !in a.windowName && ':' !in b.windowName
    ensures LimitKey(a) == LimitKey(b) <==> a.scopeKey == b.scopeKey && a.windowName == b.windowName
  {
    if LimitKey(a) == LimitKey(b) {
      if |a.windowName| < |b.windowName| { ColonInside(a, b); }
      if |b.windowName| < |a.windowName| { ColonInside(b, a); }
      var prefix, k := "ratelimit:", LimitKey(a);
      assert a.windowName == k[|k| - |a.windowName|..] == b.windowName;
      assert a.scopeKey == k[|prefix|..|k| - |a.windowName| - 1] == b.scopeKey;
    }
  }

  lemma {:induction false} ColonInside(a: SlidingWindowLimit, b: SlidingWindowLimit)
    requires LimitKey(a) == LimitKey(b) && |a.windowName| < |b.windowName|
    ensures ':' in b.windowName
  {
    var k := LimitKey(a);
    assert b.windowName == LimitKey(b)[|k| - |b.windowName|..];
    assert b.windowName[|b.windowName| - |a.windowName| - 1] == k[|k| - |a.windowName| - 1] == ':';
  }

  // ----- as calls of the script

  function AsCalls(requests: seq<Request>): (calls: seq<Call>)
    ensures |calls| == |requests|
  {
    seq(|requests|, i requires 0 <= i < |requests| => Call(requests[i].now, AsWindows(requests[i].limits)))
  }

  lemma {:induction false} RepliesAre(store: Store, requests: seq<Request>, member: nat, n: nat)
    requires n < |requests|
    ensures |ScriptReplies(store, AsCalls(requests), member)| == |requests|
    ensures var reply := ScriptReplies(store, AsCalls(requests), member)[n];
            (reply.Denied? ==> reply.index < |requests[n].limits|) &&
            Replies(store, requests, member)[n] == Told(reply, AsWindows(requests[n].limits), requests[n].now)
    decreases requests
  {
    hide Check, Record;
    var r, calls := requests[0], AsCalls(requests);
    assert calls[1..] == AsCalls(requests[1..]);
    NoWindows(store, r.now, member);
    DeniedIndex(store, r.now, AsWindows(r.limits), 0);
    var (store', _) := Script(store, calls[0], member);
    RepliesLength(store', calls[1..], member + 1);
    if n > 0 {
      RepliesAre(store', requests[1..], member + 1, n - 1);
    }
  }

  lemma {:induction false} NoWindows(store: Store, now: int, member: nat)
    ensures AsWindows([]) == [] && Script(store, Call(now, []), member) == (store, Allowed)
  {
  }

  lemma {:induction false} RepliesLength(store: Store, calls: seq<Call>, member: nat)
    ensures |ScriptReplies(store, calls, member)| == |calls|
    decreases calls
  {
    if calls != [] {
      RepliesLength(Script(store, calls[0], member).0, calls[1..], member + 1);
    }
  }

  /** The configuration that consistent requests come to. */
  ghost function ConfigOf(requests: seq<Request>): Config {
    key =>
      if exists lim :: Uses(requests, lim) && LimitKey(lim) == key
      then var lim :| Uses(requests, lim) && LimitKey(lim) == key; Quota(lim.capacity, lim.windowSeconds * 1000)
      else Quota(1, 0)
  }

  lemma {:induction false} ConfigTells(requests: seq<Request>, lim: SlidingWindowLimit)
    requires Consistent(requests) && Uses(requests, lim)
    ensures ConfigOf(requests)(LimitKey(lim)) == Quota(lim.capacity, lim.windowSeconds * 1000)
    ensures lim.capacity >= 1 && lim.windowSeconds >= 0
  {
  }

  lemma {:induction false} CallsArrive(requests: seq<Request>, now: int, config: Config)
    requires InTime(requests) && forall i | 0 <= i < |requests| :: requests[i].now >= now
    requires forall i | 0 <= i < |requests| :: Conforms(AsWindows(requests[i].limits), config)
    ensures Arrivals(AsCalls(requests), now, config)
    decreases requests
  {
    hide Conforms;
    if requests != [] {
      CallsArrive(requests[1..], requests[0].now, config);
      assert AsCalls(requests)[1..] == AsCalls(requests[1..]);
    }
  }

  lemma {:induction false} RequestsArrive(requests: seq<Request>)
    requires InTime(requests) && Consistent(requests)
    ensures Arrivals(AsCalls(requests), if requests == [] then 0 else requests[0].now, ConfigOf(requests))
  {
    hide Consistent, ConfigOf;
    forall i | 0 <= i < |requests| ensures Conforms(AsWindows(requests[i].limits), ConfigOf(requests)) {
      forall w | w in AsWindows(requests[i].limits)
        ensures ConfigOf(requests)(w.key) == Quota(w.capacity, w.width) && w.capacity >= 1 && w.width >= 0
      {
        var k :| 0 <= k < |requests[i].limits| && AsWindows(requests[i].limits)[k] == w;
        var lim := requests[i].limits[k];
        assert lim in requests[i].limits;
        ConfigTells(requests, lim);
      }
    }
    CallsArrive(requests, if requests == [] then 0 else requests[0].now, ConfigOf(requests));
  }

  /** Counting requests is counting calls. */
  lemma {:induction false} AdmittedAreAdmissions(store: Store, requests: seq<Request>, member: nat,
                                                 lim: SlidingWindowLimit, low: int, high: int)
    ensures |ScriptReplies(store, AsCalls(requests), member)| == |requests|
    ensures Admitted(requests, Replies(store, requests, member), SameKey(lim), low, high)
         == Admissions(AsCalls(requests), ScriptReplies(store, AsCalls(requests), member), LimitKey(lim), low, high)
    decreases requests
  {
    hide Script, LimitKey;
    RepliesLength(store, AsCalls(requests), member);
    if requests != [] {
      var calls := AsCalls(requests);
      assert calls[1..] == AsCalls(requests[1..]);
      RepliesAre(store, requests, member, 0);
      NextStore(store, requests[0], member);
      KeysAre(requests[0].limits, lim);
      AdmittedAreAdmissions(Script(store, calls[0], member).0, requests[1..], member + 1, lim, low, high);
    }
  }

  lemma {:induction false} NextStore(store: Store, r: Request, member: nat)
    ensures Acquired(store, r.limits, r.now, member).0 == Script(store, Call(r.now, AsWindows(r.limits)), member).0
  {
    NoWindows(store, r.now, member);
  }

  lemma {:induction false} KeysAre(limits: seq<SlidingWindowLimit>, lim: SlidingWindowLimit)
    ensures LimitKey(lim) in Keys(AsWindows(limits)) <==> exists other | other in limits :: SameKey(lim)(other)
  {
    hide LimitKey;
    var ws := AsWindows(limits);
    if other :| other in limits && SameKey(lim)(other) {
      var k :| 0 <= k < |limits| && limits[k] == other;
      assert ws[k] in ws && ws[k].key == LimitKey(lim);
    }
    if w :| w in ws && w.key == LimitKey(lim) {
      var k :| 0 <= k < |ws| && ws[k] == w;
      assert limits[k] in limits && SameKey(lim)(limits[k]);
    }
  }

  lemma {:induction false} FewerKinds(requests: seq<Request>, replies: seq<Option<real>>,
                                      kind: SlidingWindowLimit -> bool, wider: SlidingWindowLimit -> bool,
                                      low: int, high: int)
    requires |requests| == |replies| && forall lim :: kind(lim) ==> wider(lim)
    ensures Admitted(requests, replies, kind, low, high) <= Admitted(requests, replies, wider, low, high)
    decreases requests
  {
    if requests != [] {
      FewerKinds(requests[1..], replies[1..], kind, wider, low, high);
    }
  }

  /** On every run of `acquire` calls from an empty Redis: the requests admitted under a scope and
      a window name in any `windowSeconds` are at most its capacity. */
  lemma {:induction false} NeverOverCapacity(requests: seq<Request>, lim: SlidingWindowLimit, t: int)
    requires InTime(requests) && Consistent(requests) && Uses(requests, lim)
    ensures Admitted(requests, Replies(map[], requests, 0), SameNames(lim), t - lim.windowSeconds * 1000, t)
         <= lim.capacity
  {
    hide Consistent, ConfigOf, Arrivals, Admissions, LimitKey, Uses;
    RequestsArrive(requests);
    ConfigTells(requests, lim);
    var low := t - lim.windowSeconds * 1000;
    ScriptNeverOverAdmits(AsCalls(requests), if requests == [] then 0 else requests[0].now, ConfigOf(requests),
                          LimitKey(lim), t);
    AdmittedAreAdmissions(map[], requests, 0, lim, low, t);
    NamesGiveKeys(lim);
    FewerKinds(requests, Replies(map[], requests, 0), SameNames(lim), SameKey(lim), low, t);
  }

  lemma {:induction false} NamesGiveKeys(lim: SlidingWindowLimit)
    ensures forall other :: SameNames(lim)(other) ==> SameKey(lim)(other)
  {
  }

  // ----- when a request is admitted

  lemma {:induction false} RepliesPrefix(store: Store, requests: seq<Request>, member: nat, n: nat)
    requires n <= |requests|
    ensures Replies(store, requests[..n], member) == Replies(store, requests, member)[..n]
    decreases requests
  {
    hide Acquired;
    if n > 0 {
      var store' := Acquired(store, requests[0].limits, requests[0].now, member).0;
      RepliesPrefix(store', requests[1..], member + 1, n - 1);
      assert requests[..n][1..] == requests[1..][..n - 1];
    }
  }

  /** What was admitted before, counted for one limit. */
  ghost function InUse(requests: seq<Request>, n: nat, lim: SlidingWindowLimit): nat
    requires n < |requests|
  {
    Admitted(requests[..n], Replies(map[], requests, 0)[..n], SameKey(lim),
             requests[n].now - lim.windowSeconds * 1000, requests[n].now)
  }

  lemma {:induction false} InUseIsCounted(requests: seq<Request>, n: nat, lim: SlidingWindowLimit)
    requires InTime(requests) && Consistent(requests) && n < |requests| && lim in requests[n].limits
    ensures InUse(requests, n, lim) < lim.capacity <==>
              !Full(Before(AsCalls(requests), n), AsWindow(lim), requests[n].now)
  {
    hide Consistent, ConfigOf, Arrivals, Admissions, LimitKey, Uses, HistoryAfter, After, CountIn, Conforms, Decide;
    var calls, now := AsCalls(requests), requests[n].now;
    var start := if requests == [] then 0 else requests[0].now;
    var key, low := LimitKey(lim), now - lim.windowSeconds * 1000;
    RequestsArrive(requests);
    ReplyAt(calls, start, ConfigOf(requests), n);
    ArrivalsPrefix(calls, start, ConfigOf(requests), n);
    FreshRedisAgrees(calls[..n], start, ConfigOf(requests));
    RepliesPrefix(map[], requests, 0, n);
    assert AsCalls(requests[..n]) == calls[..n];
    AdmittedAreAdmissions(map[], requests[..n], 0, lim, low, now);
    AdmissionsAreCounted(map[], calls[..n], 0, key, low, now);
    NoneIn(low, now);
    CountWithinAfter(Of(Before(calls, n), key), low, now);
  }

  lemma {:induction false} NoneIn(low: int, high: int)
    ensures CountIn([], low, high) == 0
  {
  }

  /** A request is admitted if and only if each of its limits has had fewer than `capacity`
      requests admitted in its last `windowSeconds`. */
  lemma {:induction false} AdmittedIff(requests: seq<Request>, n: nat)
    requires InTime(requests) && Consistent(requests) && n < |requests|
    ensures Replies(map[], requests, 0)[n] == None <==>
              forall lim | lim in requests[n].limits :: InUse(requests, n, lim) < lim.capacity
  {
    hide Consistent, ConfigOf, Arrivals, Full, Decide, HistoryAfter, InUse, ScriptReplies, Replies;
    var calls, r := AsCalls(requests), requests[n];
    var ws := AsWindows(r.limits);
    RequestsArrive(requests);
    RepliesAre(map[], requests, 0, n);
    ReplyAt(calls, requests[0].now, ConfigOf(requests), n);
    AllowedMeansRoom(Before(calls, n), r.now, ws, 0);
    forall lim | lim in r.limits
      ensures InUse(requests, n, lim) < lim.capacity <==> !Full(Before(calls, n), AsWindow(lim), r.now)
    {
      InUseIsCounted(requests, n, lim);
    }
    if Replies(map[], requests, 0)[n] == None {
      forall lim | lim in r.limits ensures InUse(requests, n, lim) < lim.capacity {
        var k :| 0 <= k < |r.limits| && r.limits[k] == lim;
        assert !Full(Before(calls, n), ws[k], r.now);
      }
    } else {
      var j :| 0 <= j < |ws| && Full(Before(calls, n), ws[j], r.now);
      assert r.limits[j] in r.limits;
    }
  }

  // ----- what a denied caller is told

  /** Told to wait `seconds`, a caller that comes back earlier with the same limits is denied,
      whatever the others did. */
  lemma {:induction false} DeniedUntilThen(requests: seq<Request>, i: nat, j: nat, seconds: real)
    requires InTime(requests) && Consistent(requests) && i < j < |requests|
    requires requests[j].limits == requests[i].limits && Replies(map[], requests, 0)[i] == Some(seconds)
    requires (requests[j].now - requests[i].now) as real < seconds * 1000.0
    ensures Replies(map[], requests, 0)[j] != None
  {
    hide Consistent, ConfigOf, Arrivals, ScriptReplies, Replies;
    RequestsArrive(requests);
    RepliesAre(map[], requests, 0, i);
    RepliesAre(map[], requests, 0, j);
    ScriptDeniesUntilRetryAfter(AsCalls(requests), requests[0].now, ConfigOf(requests), i, j);
  }

  /** With a single limit, one that comes next and exactly then is admitted. */
  lemma {:induction false} AdmittedThen(requests: seq<Request>, i: nat, seconds: real)
    requires InTime(requests) && Consistent(requests) && i + 1 < |requests| && |requests[i].limits| == 1
    requires requests[i + 1].limits == requests[i].limits && Replies(map[], requests, 0)[i] == Some(seconds)
    requires (requests[i + 1].now - requests[i].now) as real == seconds * 1000.0
    ensures Replies(map[], requests, 0)[i + 1] == None
  {
    hide Consistent, ConfigOf, Arrivals, ScriptReplies, Replies;
    RequestsArrive(requests);
    RepliesAre(map[], requests, 0, i);
    RepliesAre(map[], requests, 0, i + 1);
    ScriptRetryIsExactIff(AsCalls(requests), requests[0].now, ConfigOf(requests), i);
  }

  // ----- limits with other keys do not matter

  ghost predicate SameScores(a: seq<Event>, b: seq<Event>) {
    |a| == |b| && forall i | 0 <= i < |a| :: a[i].score == b[i].score
  }

  lemma {:induction false} AfterSame(a: seq<Event>, b: seq<Event>, cutoff: int)
    requires SameScores(a, b)
    ensures SameScores(After(a, cutoff), After(b, cutoff))
  {
    if a != [] {
      AfterSame(a[1..], b[1..], cutoff);
    }
  }

  lemma {:induction false} DecideSame(h: History, h': History, now: int, ws: seq<Window>, i: nat)
    requires i <= |ws| && forall j | i <= j < |ws| :: SameScores(Of(h, ws[j].key), Of(h', ws[j].key))
    ensures Decide(h, now, ws, i) == Decide(h', now, ws, i)
    decreases |ws| - i
  {
    hide After;
    if i < |ws| {
      AfterSame(Of(h, ws[i].key), Of(h', ws[i].key), now - ws[i].width);
      DecideSame(h, h', now, ws, i + 1);
    }
  }

  /** The calls that use keys of the set only. */
  function Select(calls: seq<Call>, keys: set<string>): seq<Call> {
    if calls == [] then []
    else (if Keys(calls[0].windows) <= keys then [calls[0]] else []) + Select(calls[1..], keys)
  }

  function Chosen(calls: seq<Call>, replies: seq<Reply>, keys: set<string>): seq<Reply>
    requires |calls| == |replies|
  {
    if calls == [] then []
    else (if Keys(calls[0].windows) <= keys then [replies[0]] else []) + Chosen(calls[1..], replies[1..], keys)
  }

  ghost predicate SameOn(h: History, h': History, keys: set<string>) {
    forall key | key in keys :: SameScores(Of(h, key), Of(h', key))
  }

  lemma {:induction false} InsideStep(h: History, h': History, c: Call, member: nat, member': nat, keys: set<string>)
    requires Keys(c.windows) <= keys && SameOn(h, h', keys)
    ensures Ideal(h, c, member).1 == Ideal(h', c, member').1
    ensures SameOn(Ideal(h, c, member).0, Ideal(h', c, member').0, keys)
  {
    hide Decide;
    forall j | 0 <= j < |c.windows| ensures SameScores(Of(h, c.windows[j].key), Of(h', c.windows[j].key)) {
      assert c.windows[j] in c.windows;
    }
    DecideSame(h, h', c.now, c.windows, 0);
  }

  lemma {:induction false} OutsideStep(h: History, h': History, c: Call, member: nat, keys: set<string>)
    requires Keys(c.windows) !! keys && SameOn(h, h', keys)
    ensures SameOn(Ideal(h, c, member).0, h', keys)
  {
    hide Decide;
    assert forall key | key in keys :: Of(Ideal(h, c, member).0, key) == Of(h, key);
  }

  lemma {:induction false} OthersDoNotMatter(h: History, h': History, calls: seq<Call>, member: nat, member': nat,
                                             keys: set<string>)
    requires forall c | c in calls :: Keys(c.windows) <= keys || Keys(c.windows) !! keys
    requires SameOn(h, h', keys)
    ensures |IdealReplies(h, calls, member)| == |calls|
    ensures Chosen(calls, IdealReplies(h, calls, member), keys) == IdealReplies(h', Select(calls, keys), member')
    decreases calls
  {
    hide Ideal, Keys, SameOn;
    if calls != [] {
      var c := calls[0];
      assert c in calls && forall d | d in calls[1..] :: d in calls;
      var next := Ideal(h, c, member).0;
      assert IdealReplies(h, calls, member)[1..] == IdealReplies(next, calls[1..], member + 1);
      if Keys(c.windows) <= keys {
        InsideStep(h, h', c, member, member', keys);
        OthersDoNotMatter(next, Ideal(h', c, member').0, calls[1..], member + 1, member' + 1, keys);
        assert Select(calls, keys)[1..] == Select(calls[1..], keys);
      } else {
        OutsideStep(h, h', c, member, keys);
        OthersDoNotMatter(next, h', calls[1..], member + 1, member', keys);
        assert [] + Select(calls[1..], keys) == Select(calls[1..], keys);
      }
    }
  }

  predicate Within(r: Request, keys: set<string>) {
    forall lim | lim in r.limits :: LimitKey(lim) in keys
  }

  predicate Outside(r: Request, keys: set<string>) {
    forall lim | lim in r.limits :: LimitKey(lim) !in keys
  }

  /** The requests within the keys, and what they are told. */
  function Concerned(requests: seq<Request>, keys: set<string>): seq<Request> {
    if requests == [] then []
    else (if Within(requests[0], keys) then [requests[0]] else []) + Concerned(requests[1..], keys)
  }

  function Those(requests: seq<Request>, replies: seq<Option<real>>, keys: set<string>): seq<Option<real>>
    requires |requests| == |replies|
  {
    if requests == [] then []
    else (if Within(requests[0], keys) then [replies[0]] else []) + Those(requests[1..], replies[1..], keys)
  }

  ghost predicate Indexed(requests: seq<Request>, replies: seq<Reply>) {
    |requests| == |replies| &&
    forall i | 0 <= i < |requests| && replies[i].Denied? :: replies[i].index < |requests[i].limits|
  }

  function ToldAll(requests: seq<Request>, replies: seq<Reply>): seq<Option<real>>
    requires Indexed(requests, replies)
  {
    seq(|requests|, i requires 0 <= i < |requests| => Told(replies[i], AsWindows(requests[i].limits), requests[i].now))
  }

  lemma {:induction false} WindowsWithin(r: Request, keys: set<string>)
    ensures Keys(AsWindows(r.limits)) <= keys <==> Within(r, keys)
    ensures Keys(AsWindows(r.limits)) !! keys <==> Outside(r, keys)
  {
    hide LimitKey;
    var limits, ws := r.limits, AsWindows(r.limits);
    forall lim | lim in limits ensures LimitKey(lim) in Keys(ws) {
      KeysAre(limits, lim);
      assert SameKey(lim)(lim);
    }
    forall key | key in Keys(ws) ensures exists lim :: lim in limits && LimitKey(lim) == key {
      var k :| 0 <= k < |ws| && ws[k].key == key;
      assert limits[k] in limits;
    }
  }

  lemma {:induction false} ConcernedAre(requests: seq<Request>, replies: seq<Reply>, keys: set<string>)
    requires Indexed(requests, replies)
    ensures Select(AsCalls(requests), keys) == AsCalls(Concerned(requests, keys))
    ensures var chosen := Chosen(AsCalls(requests), replies, keys);
            Indexed(Concerned(requests, keys), chosen) &&
            Those(requests, ToldAll(requests, replies), keys) == ToldAll(Concerned(requests, keys), chosen)
    decreases requests
  {
    hide Told, Keys, AsWindows, Within, AsCalls, ToldAll;
    if requests == [] {
      NothingTold();
    } else {
      FirstTold(requests, replies);
      ConcernedAre(requests[1..], replies[1..], keys);
      WindowsWithin(requests[0], keys);
      var calls := AsCalls(requests);
      assert calls[1..] == AsCalls(requests[1..]) && calls[0].windows == AsWindows(requests[0].limits);
      var some, chosen := Concerned(requests[1..], keys), Chosen(calls[1..], replies[1..], keys);
      var told := ToldAll(requests, replies);
      assert told[1..] == ToldAll(requests[1..], replies[1..]);
      if Within(requests[0], keys) {
        var more, also := [requests[0]] + some, [replies[0]] + chosen;
        assert more[1..] == some && also[1..] == chosen;
        FirstTold(more, also);
      } else {
        assert [] + some == some && [] + chosen == chosen && [] + Select(calls[1..], keys) == Select(calls[1..], keys);
      }
    }
  }

  lemma {:induction false} NothingTold()
    ensures Indexed([], []) && ToldAll([], []) == [] && AsCalls([]) == []
  {
  }

  lemma {:induction false} FirstTold(requests: seq<Request>, replies: seq<Reply>)
    requires requests != [] && |replies| == |requests|
    ensures Indexed(requests, replies) <==>
              Indexed(requests[1..], replies[1..]) && (replies[0].Denied? ==> replies[0].index < |requests[0].limits|)
    ensures Indexed(requests, replies) ==>
              ToldAll(requests, replies) ==
              [Told(replies[0], AsWindows(requests[0].limits), requests[0].now)] + ToldAll(requests[1..], replies[1..])
    ensures AsCalls(requests) ==
            [Call(requests[0].now, AsWindows(requests[0].limits))] + AsCalls(requests[1..])
  {
    hide Told, AsWindows;
    if Indexed(requests[1..], replies[1..]) && (replies[0].Denied? ==> replies[0].index < |requests[0].limits|) {
      forall i | 0 <= i < |requests| && replies[i].Denied? ensures replies[i].index < |requests[i].limits| {
        assert i > 0 ==> replies[1..][i - 1] == replies[i] && requests[1..][i - 1] == requests[i];
      }
    }
  }

  lemma {:induction false} ConcernedInTime(requests: seq<Request>, keys: set<string>)
    requires InTime(requests)
    ensures InTime(Concerned(requests, keys))
    ensures forall r | r in Concerned(requests, keys) :: r in requests
  {
    if requests != [] {
      ConcernedInTime(requests[1..], keys);
      var rest := Concerned(requests[1..], keys);
      forall j | 0 <= j < |rest| ensures requests[0].now <= rest[j].now {
        assert rest[j] in requests[1..];
      }
    }
  }

  lemma {:induction false} ConcernedConsistent(requests: seq<Request>, keys: set<string>)
    requires InTime(requests) && Consistent(requests)
    ensures Consistent(Concerned(requests, keys))
  {
    ConcernedInTime(requests, keys);
    forall lim | Uses(Concerned(requests, keys), lim) ensures Uses(requests, lim) {
      var i :| 0 <= i < |Concerned(requests, keys)| && lim in Concerned(requests, keys)[i].limits;
      assert Concerned(requests, keys)[i] in requests;
    }
  }

  lemma {:induction false} RepliesAreTold(requests: seq<Request>)
    requires InTime(requests) && Consistent(requests)
    ensures Indexed(requests, IdealReplies(map[], AsCalls(requests), 0))
    ensures Replies(map[], requests, 0) == ToldAll(requests, IdealReplies(map[], AsCalls(requests), 0))
  {
    hide Consistent, ConfigOf, Arrivals, Replies, ScriptReplies, IdealReplies, Told;
    RequestsArrive(requests);
    FreshRedisAgrees(AsCalls(requests), if requests == [] then 0 else requests[0].now, ConfigOf(requests));
    RepliesLength(map[], AsCalls(requests), 0);
    forall i | 0 <= i < |requests|
      ensures var reply := ScriptReplies(map[], AsCalls(requests), 0)[i];
              (reply.Denied? ==> reply.index < |requests[i].limits|) &&
              Replies(map[], requests, 0)[i] == Told(reply, AsWindows(requests[i].limits), requests[i].now)
    {
      RepliesAre(map[], requests, 0, i);
    }
  }

  /** Requests whose limits have other keys do not matter: what the others are told is what they
      would be told without them, down to the seconds. */
  lemma {:induction false} OtherLimitsDoNotMatter(requests: seq<Request>, keys: set<string>)
    requires InTime(requests) && Consistent(requests)
    requires forall r | r in requests :: Within(r, keys) || Outside(r, keys)
    ensures Those(requests, Replies(map[], requests, 0), keys) == Replies(map[], Concerned(requests, keys), 0)
  {
    hide Consistent, Replies, IdealReplies, LimitKey, Told;
    var calls := AsCalls(requests);
    forall c | c in calls ensures Keys(c.windows) <= keys || Keys(c.windows) !! keys {
      var i :| 0 <= i < |calls| && calls[i] == c;
      assert requests[i] in requests;
      WindowsWithin(requests[i], keys);
    }
    RepliesAreTold(requests);
    ConcernedInTime(requests, keys);
    ConcernedConsistent(requests, keys);
    RepliesAreTold(Concerned(requests, keys));
    ConcernedAre(requests, IdealReplies(map[], calls, 0), keys);
    OthersDoNotMatter(map[], map[], calls, 0, 0, keys);
  }
}
