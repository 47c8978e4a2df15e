/** The Redis sliding-window rate limiter. */
module SlidingWindow {
  import opened Wrappers

  /* The Lua script keeps one sorted set per window, trims it on every call (denied calls
     included) and lets idle keys expire.  Against it stands the obvious limiter, which
     remembers every admitted event for ever.  The main results: the two give the same
     replies on every run; no window is ever over its capacity at any instant; and the
     `retry_after` of a denial is a lower bound whatever the other callers do, exact
     precisely when the reported window is the most restrictive one. */

  /** A sorted-set member (a unique id) and its score, in milliseconds. */
  datatype Event = Event(member: nat, score: int)

  /** A Redis key: its members in score order, and the last instant at which it exists. */
  datatype ZSet = ZSet(entries: seq<Event>, deadline: int)

  type Store = map<string, ZSet>

  /** One window as the script receives it. */
  datatype Window = Window(key: string, capacity: int, width: int)

  /** `{1}`, or `{0, oldest_score, i}` (with `i` counted from 0). */
  datatype Reply = Allowed | Denied(oldest: int, index: nat)

  datatype Call = Call(now: int, windows: seq<Window>)

  // ----- the script

  function Live(store: Store, key: string, now: int): seq<Event> {
    if key in store && now <= store[key].deadline then store[key].entries else []
  }

  /** The members that `ZREMRANGEBYSCORE key -inf cutoff` leaves. */
  function After(s: seq<Event>, cutoff: int): seq<Event> {
    if s == [] then []
    else if s[0].score > cutoff then [s[0]] + After(s[1..], cutoff)
    else After(s[1..], cutoff)
  }

  function Trim(store: Store, w: Window, now: int): Store {
    var kept := After(Live(store, w.key, now), now - w.width);
    if kept == [] then store - {w.key} else store[w.key := ZSet(kept, store[w.key].deadline)]
  }

  function OldestScore(s: seq<Event>): int {
    if s == [] then 0 else s[0].score
  }

  /** First loop: trim and count each window from `i` on, stopping at the first full one. */
  function Check(store: Store, now: int, ws: seq<Window>, i: nat): (Store, Reply)
    requires i <= |ws|
    decreases |ws| - i
  {
    if i == |ws| then (store, Allowed)
    else
      var store' := Trim(store, ws[i], now);
      var live := Live(store', ws[i].key, now);
      if |live| >= ws[i].capacity then (store', Denied(OldestScore(live), i))
      else Check(store', now, ws, i + 1)
  }

  function Without(s: seq<Event>, member: nat): seq<Event> {
    if s == [] then []
    else if s[0].member != member then [s[0]] + Without(s[1..], member)
    else Without(s[1..], member)
  }

  function InsertByScore(s: seq<Event>, e: Event): seq<Event> {
    if s == [] || e.score < s[0].score then [e] + s else [s[0]] + InsertByScore(s[1..], e)
  }

  /** `ZADD` (an existing member is moved) and `PEXPIRE`. */
  function Add(store: Store, w: Window, now: int, member: nat): Store {
    store[w.key := ZSet(InsertByScore(Without(Live(store, w.key, now), member), Event(member, now)),
                        now + (w.width + 1000))]
  }

  /** Second loop. */
  function Record(store: Store, now: int, member: nat, ws: seq<Window>, i: nat): Store
    requires i <= |ws|
    decreases |ws| - i
  {
    if i == |ws| then store else Record(Add(store, ws[i], now, member), now, member, ws, i + 1)
  }

  function Script(store: Store, call: Call, member: nat): (Store, Reply) {
    var (trimmed, reply) := Check(store, call.now, call.windows, 0);
    if reply.Denied? then (trimmed, reply)
    else (Record(trimmed, call.now, member, call.windows, 0), Allowed)
  }

  class Redis {
    var store: Store

    constructor ()
      ensures store == map[]
    {
      store := map[];
    }

    /** The Lua script, run atomically. */
    method Eval(now: int, member: nat, ws: seq<Window>) returns (reply: Reply)
      modifies this
      ensures (store, reply) == Script(old(store), Call(now, ws), member)
    {
      hide After, InsertByScore, Without;
      for i := 0 to |ws|
        invariant Check(old(store), now, ws, 0) == Check(store, now, ws, i)
      {
        store := Trim(store, ws[i], now);
        var live := Live(store, ws[i].key, now);
        if |live| >= ws[i].capacity {
          return Denied(OldestScore(live), i);
        }
      }
      ghost var trimmed := store;
      for i := 0 to |ws|
        invariant Record(trimmed, now, member, ws, 0) == Record(store, now, member, ws, i)
      {
        store := Add(store, ws[i], now, member);
      }
      return Allowed;
    }
  }

  /** One window as a caller asks for it. */
  datatype SlidingWindowLimit = SlidingWindowLimit(scopeKey: string, windowName: string, capacity: int,
                                                   windowSeconds: int)

  function LimitKey(lim: SlidingWindowLimit): string {
    "ratelimit:" + lim.scopeKey + ":" + lim.windowName
  }

  function AsWindow(lim: SlidingWindowLimit): Window {
    Window(LimitKey(lim), lim.capacity, lim.windowSeconds * 1000)
  }

  function AsWindows(limits: seq<SlidingWindowLimit>): seq<Window> {
    seq(|limits|, i requires 0 <= i < |limits| => AsWindow(limits[i]))
  }

  /** Milliseconds until the oldest event of the reported window leaves it. */
  function RetryAfterMs(reply: Reply, ws: seq<Window>, now: int): int
    requires reply.Denied? && reply.index < |ws|
  {
    var ms := reply.oldest + ws[reply.index].width - now;
    if ms > 0 then ms else 0
  }

  lemma {:induction false} DeniedIndex(store: Store, now: int, ws: seq<Window>, i: nat)
    requires i <= |ws|
    ensures var reply := Check(store, now, ws, i).1; reply.Denied? ==> i <= reply.index < |ws|
    decreases |ws| - i
  {
    if i < |ws| {
      DeniedIndex(Trim(store, ws[i], now), now, ws, i + 1);
    }
  }

  /** What `acquire` makes of the script's reply. */
  function Told(reply: Reply, ws: seq<Window>, now: int): Option<real>
    requires reply.Denied? ==> reply.index < |ws|
  {
    if reply.Denied? then Some(RetryAfterMs(reply, ws, now) as real / 1000.0) else None
  }

  function Acquired(store: Store, limits: seq<SlidingWindowLimit>, now: int, member: nat): (Store, Option<real>) {
    if limits == [] then (store, None)
    else
      var ws := AsWindows(limits);
      var (store', reply) := Script(store, Call(now, ws), member);
      DeniedIndex(store, now, ws, 0);
      (store', Told(reply, ws, now))
  }

  /** `acquire`: `None` when admitted, else the `retry_after` of the raised error, in seconds. */
  method Acquire(redis: Redis, limits: seq<SlidingWindowLimit>, now: int, member: nat)
      returns (retryAfter: Option<real>)
    modifies redis
    ensures (redis.store, retryAfter) == Acquired(old(redis.store), limits, now, member)
  {
    if limits == [] {
      return None;
    }
    var ws := AsWindows(limits);
    DeniedIndex(redis.store, now, ws, 0);
    var reply := redis.Eval(now, member, ws);
    if reply.Allowed? {
      return None;
    }
    return Some(RetryAfterMs(reply, ws, now) as real / 1000.0);
  }

  // ----- the limiter that forgets nothing

  /** Every event ever admitted under each key, in order of admission. */
  type History = map<string, seq<Event>>

  function Of(h: History, key: string): seq<Event> {
    if key in h then h[key] else []
  }

  /** The first window, from `i` on, whose last `width` milliseconds hold `capacity` events. */
  function Decide(h: History, now: int, ws: seq<Window>, i: nat): Reply
    requires i <= |ws|
    decreases |ws| - i
  {
    if i == |ws| then Allowed
    else
      var live := After(Of(h, ws[i].key), now - ws[i].width);
      if |live| >= ws[i].capacity then Denied(OldestScore(live), i) else Decide(h, now, ws, i + 1)
  }

  function Keys(ws: seq<Window>): set<string> {
    set w | w in ws :: w.key
  }

  /** The event enters each of the windows' histories, once per key. */
  function Admit(h: History, call: Call, member: nat): History {
    map k | k in h.Keys + Keys(call.windows) ::
      if k in Keys(call.windows) then Of(h, k) + [Event(member, call.now)] else h[k]
  }

  function Ideal(h: History, call: Call, member: nat): (History, Reply) {
    var reply := Decide(h, call.now, call.windows, 0);
    if reply.Denied? then (h, reply) else (Admit(h, call, member), reply)
  }

  // ----- whole runs

  /** The replies to a sequence of calls; the n-th call overall brings member id n. */
  function ScriptReplies(store: Store, calls: seq<Call>, member: nat): seq<Reply>
    decreases calls
  {
    if calls == [] then []
    else
      var (store', reply) := Script(store, calls[0], member);
      [reply] + ScriptReplies(store', calls[1..], member + 1)
  }

  function IdealReplies(h: History, calls: seq<Call>, member: nat): seq<Reply>
    decreases calls
  {
    if calls == [] then []
    else
      var (h', reply) := Ideal(h, calls[0], member);
      [reply] + IdealReplies(h', calls[1..], member + 1)
  }

  function HistoryAfter(h: History, calls: seq<Call>, member: nat): History
    decreases calls
  {
    if calls == [] then h
    else HistoryAfter(Ideal(h, calls[0], member).0, calls[1..], member + 1)
  }

  /** What the deployment fixes for a key: the same capacity and width in every call. */
  datatype Quota = Quota(capacity: int, width: int)
  type Config = string -> Quota

  ghost predicate Conforms(ws: seq<Window>, config: Config) {
    forall w | w in ws :: config(w.key) == Quota(w.capacity, w.width) && w.capacity >= 1 && w.width >= 0
  }

  /** Calls arrive in time order, none before `now`, all in agreement with the configuration. */
  ghost predicate Arrivals(calls: seq<Call>, now: int, config: Config)
    decreases calls
  {
    calls == [] ||
    (calls[0].now >= now && Conforms(calls[0].windows, config) && Arrivals(calls[1..], calls[0].now, config))
  }

  lemma ConformsAt(ws: seq<Window>, config: Config, w: Window)
    requires Conforms(ws, config) && w in ws
    ensures config(w.key) == Quota(w.capacity, w.width) && w.capacity >= 1 && w.width >= 0
  {
  }

  function LastTime(calls: seq<Call>, now: int): int {
    if calls == [] then now else calls[|calls| - 1].now
  }

  // ----- lemmas about windows of a history

  lemma {:induction false} AfterAppend(a: seq<Event>, b: seq<Event>, cutoff: int)
    ensures After(a + b, cutoff) == After(a, cutoff) + After(b, cutoff)
  {
    if a == [] {
      assert a + b == b;
    } else {
      AfterAppend(a[1..], b, cutoff);
      assert (a + b)[0] == a[0] && (a + b)[1..] == a[1..] + b;
      var t, u := After(a[1..], cutoff), After(b, cutoff);
      assert [a[0]] + (t + u) == [a[0]] + t + u;
    }
  }

  lemma {:induction false} AfterAfter(s: seq<Event>, early: int, late: int)
    requires early <= late
    ensures After(After(s, early), late) == After(s, late)
    ensures |After(s, late)| <= |After(s, early)|
  {
    if s != [] {
      AfterAfter(s[1..], early, late);
    }
  }

  ghost predicate UpTo(s: seq<Event>, now: int) {
    forall e | e in s :: e.score <= now
  }

  ghost predicate Ordered(s: seq<Event>) {
    forall i, j | 0 <= i < j < |s| :: s[i].score <= s[j].score
  }

  lemma {:induction false} AfterKeeps(s: seq<Event>, cutoff: int)
    ensures forall e | e in After(s, cutoff) :: e in s && e.score > cutoff
  {
    if s != [] {
      AfterKeeps(s[1..], cutoff);
      assert s == [s[0]] + s[1..];
    }
  }

  lemma {:induction false} AfterOrdered(s: seq<Event>, cutoff: int)
    requires Ordered(s)
    ensures Ordered(After(s, cutoff))
  {
    if s != [] {
      AfterOrdered(s[1..], cutoff);
      var t := After(s[1..], cutoff);
      AfterKeeps(s[1..], cutoff);
      forall j | 0 <= j < |t| ensures s[0].score <= t[j].score {
        assert t[j] in t;
        assert t[j] in s[1..];
      }
    }
  }

  lemma {:induction false} AfterAll(s: seq<Event>, cutoff: int)
    requires forall e | e in s :: e.score > cutoff
    ensures After(s, cutoff) == s
  {
    if s != [] {
      AfterAll(s[1..], cutoff);
    }
  }

  lemma {:induction false} AfterNone(s: seq<Event>, cutoff: int)
    requires UpTo(s, cutoff)
    ensures After(s, cutoff) == []
  {
    if s != [] {
      assert s[0] in s;
      AfterNone(s[1..], cutoff);
    }
  }

  // ----- trimming and expiry cannot be observed

  /** From `now` on, every window of every key shows exactly its part of the full history. */
  ghost predicate Shows(store: Store, h: History, now: int, config: Config) {
    forall key, t | t >= now :: SameWindow(Live(store, key, t), Of(h, key), config(key).width, t)
  }

  ghost predicate SameWindow(live: seq<Event>, full: seq<Event>, width: int, t: int) {
    After(live, t - width) == After(full, t - width)
  }

  /** Scores are in the past and members have been issued. */
  ghost predicate Past(store: Store, h: History, now: int, member: nat) {
    (forall key, e | key in store && e in store[key].entries :: e.score <= now && e.member < member) &&
    (forall key | key in h :: UpTo(h[key], now) && Ordered(h[key]))
  }

  lemma TrimShowsKey(store: Store, full: seq<Event>, now: int, w: Window, t: int)
    requires now <= t
    requires SameWindow(Live(store, w.key, now), full, w.width, now)
    requires SameWindow(Live(store, w.key, t), full, w.width, t)
    ensures SameWindow(Live(Trim(store, w, now), w.key, t), full, w.width, t)
  {
    AfterAfter(Live(store, w.key, now), now - w.width, t - w.width);
    AfterAfter(full, now - w.width, t - w.width);
  }

  lemma TrimShows(store: Store, h: History, now: int, config: Config, w: Window, member: nat)
    requires Shows(store, h, now, config) && Past(store, h, now, member)
    requires config(w.key).width == w.width
    ensures Shows(Trim(store, w, now), h, now, config) && Past(Trim(store, w, now), h, now, member)
    ensures Live(Trim(store, w, now), w.key, now) == After(Of(h, w.key), now - w.width)
  {
    hide After;
    var store' := Trim(store, w, now);
    TrimPast(store, h, now, w, member);
    hide Past, Trim;
    forall key, t | t >= now ensures SameWindow(Live(store', key, t), Of(h, key), config(key).width, t) {
      assert SameWindow(Live(store, key, t), Of(h, key), config(key).width, t);
      if key == w.key {
        assert SameWindow(Live(store, key, now), Of(h, key), w.width, now);
        TrimShowsKey(store, Of(h, key), now, w, t);
      }
    }
    assert SameWindow(Live(store, w.key, now), Of(h, w.key), w.width, now);
    KeptIsLive(store, w, now);
  }

  lemma KeptIsLive(store: Store, w: Window, now: int)
    ensures Live(Trim(store, w, now), w.key, now) == After(Live(store, w.key, now), now - w.width)
  {
  }

  lemma TrimPast(store: Store, h: History, now: int, w: Window, member: nat)
    requires Past(store, h, now, member)
    ensures Past(Trim(store, w, now), h, now, member)
  {
    AfterKeeps(Live(store, w.key, now), now - w.width);
  }

  lemma {:induction false} InsertLast(s: seq<Event>, e: Event)
    requires UpTo(s, e.score)
    ensures InsertByScore(s, e) == s + [e]
  {
    if s != [] {
      assert s[0] in s;
      InsertLast(s[1..], e);
    }
  }

  lemma {:induction false} WithoutNew(s: seq<Event>, member: nat)
    requires forall e | e in s :: e.member < member
    ensures Without(s, member) == s
    ensures forall e: Event | e.member == member :: Without(s + [e], member) == s
  {
    if s == [] {
      assert forall e: Event :: (s + [e])[1..] == [];
    } else {
      assert s[0] in s;
      WithoutNew(s[1..], member);
      assert forall e: Event :: (s + [e])[1..] == s[1..] + [e];
    }
  }

  /** A key's set once it has recorded the event: the old members, then the new one. */
  function Recorded(base: Store, key: string, now: int, member: nat, width: int): ZSet {
    ZSet(Live(base, key, now) + [Event(member, now)], now + (width + 1000))
  }

  /** `ZADD` and `PEXPIRE`, for the first time in this call or again for the same key. */
  lemma AddOnce(base: Store, store: Store, w: Window, now: int, member: nat)
    requires w.width >= 0
    requires forall e | e in Live(base, w.key, now) :: e.score <= now && e.member < member
    requires Live(store, w.key, now) == Live(base, w.key, now)
          || (w.key in store && store[w.key] == Recorded(base, w.key, now, member, w.width))
    ensures Add(store, w, now, member) == store[w.key := Recorded(base, w.key, now, member, w.width)]
  {
    WithoutNew(Live(base, w.key, now), member);
    InsertLast(Live(base, w.key, now), Event(member, now));
  }

  lemma {:induction false} RecordAddsOnce(base: Store, store: Store, now: int, member: nat, ws: seq<Window>, i: nat,
                                          config: Config)
    requires i <= |ws| && Conforms(ws, config)
    requires forall key, e | key in base && e in base[key].entries :: e.score <= now && e.member < member
    requires forall key ::
               if key in Keys(ws[..i])
               then key in store && store[key] == Recorded(base, key, now, member, config(key).width)
               else Live(store, key, now) == Live(base, key, now) && (key in store <==> key in base)
                    && (key in base ==> store[key] == base[key])
    ensures var store' := Record(store, now, member, ws, i);
            forall key ::
              if key in Keys(ws)
              then key in store' && store'[key] == Recorded(base, key, now, member, config(key).width)
              else (key in store' <==> key in base) && (key in base ==> store'[key] == base[key])
    decreases |ws| - i
  {
    if i < |ws| {
      assert ws[i] in ws;
      assert ws[..i + 1] == ws[..i] + [ws[i]];
      AddOnce(base, store, ws[i], now, member);
      RecordAddsOnce(base, Add(store, ws[i], now, member), now, member, ws, i + 1, config);
    } else {
      assert ws[..i] == ws;
    }
  }

  /** After the event is recorded, the set shows the extended history until it expires, and
      when it has expired there is nothing left to show. */
  lemma RecordedShows(live: seq<Event>, full: seq<Event>, e: Event, width: int, t: int)
    requires e.score <= t && UpTo(full, e.score)
    requires SameWindow(live, full, width, e.score)
    ensures SameWindow(if t <= e.score + (width + 1000) then live + [e] else [], full + [e], width, t)
  {
    AfterAppend(live, [e], t - width);
    AfterAppend(full, [e], t - width);
    AfterAfter(live, e.score - width, t - width);
    AfterAfter(full, e.score - width, t - width);
    if t > e.score + (width + 1000) {
      AfterNone(full + [e], t - width);
    }
  }

  lemma RecordShows(store: Store, h: History, call: Call, member: nat, config: Config)
    requires Shows(store, h, call.now, config) && Past(store, h, call.now, member)
    requires Conforms(call.windows, config)
    ensures Shows(Record(store, call.now, member, call.windows, 0), Admit(h, call, member), call.now, config)
  {
    hide After;
    var now, ws := call.now, call.windows;
    var store', h' := Record(store, now, member, ws, 0), Admit(h, call, member);
    RecordAddsOnce(store, store, now, member, ws, 0, config);
    forall key, t | t >= now ensures SameWindow(Live(store', key, t), Of(h', key), config(key).width, t) {
      if key in Keys(ws) {
        assert SameWindow(Live(store, key, now), Of(h, key), config(key).width, now);
        RecordedShows(Live(store, key, now), Of(h, key), Event(member, now), config(key).width, t);
      } else {
        assert SameWindow(Live(store, key, t), Of(h, key), config(key).width, t);
        assert Live(store', key, t) == Live(store, key, t);
      }
    }
  }

  lemma RecordPast(store: Store, h: History, call: Call, member: nat, config: Config)
    requires Past(store, h, call.now, member) && Conforms(call.windows, config)
    ensures Past(Record(store, call.now, member, call.windows, 0), Admit(h, call, member), call.now, member + 1)
  {
    hide After, Ordered, UpTo, Record;
    RecordAddsOnce(store, store, call.now, member, call.windows, 0, config);
    AdmitPast(h, call, member);
    var store' := Record(store, call.now, member, call.windows, 0);
    forall key, e | key in store' && e in store'[key].entries ensures e.score <= call.now && e.member < member + 1 {
      if key in Keys(call.windows) {
        assert e in Live(store, key, call.now) || e == Event(member, call.now);
      }
    }
  }

  lemma AdmitPast(h: History, call: Call, member: nat)
    requires forall key | key in h :: UpTo(h[key], call.now) && Ordered(h[key])
    ensures var h' := Admit(h, call, member);
            forall key | key in h' :: UpTo(h'[key], call.now) && Ordered(h'[key])
  {
    var h' := Admit(h, call, member);
    forall key | key in h' ensures UpTo(h'[key], call.now) && Ordered(h'[key]) {
      assert UpTo(Of(h, key), call.now) && Ordered(Of(h, key));
    }
  }

  lemma {:induction false} CheckDecides(store: Store, h: History, now: int, ws: seq<Window>, i: nat, config: Config,
                                        member: nat)
    requires i <= |ws| && Conforms(ws, config)
    requires Shows(store, h, now, config) && Past(store, h, now, member)
    ensures Check(store, now, ws, i).1 == Decide(h, now, ws, i)
    ensures Shows(Check(store, now, ws, i).0, h, now, config) && Past(Check(store, now, ws, i).0, h, now, member)
    decreases |ws| - i
  {
    hide After, Past, Shows, Conforms;
    if i < |ws| {
      assert config(ws[i].key).width == ws[i].width by {
        assert ws[i] in ws;
        ConformsAt(ws, config, ws[i]);
      }
      TrimShows(store, h, now, config, ws[i], member);
      CheckDecides(Trim(store, ws[i], now), h, now, ws, i + 1, config, member);
    }
  }

  /** One call: same reply, and the set still shows the history afterwards. */
  lemma ScriptRefinesIdeal(store: Store, h: History, call: Call, member: nat, now: int, config: Config)
    requires now <= call.now && Conforms(call.windows, config)
    requires Shows(store, h, now, config) && Past(store, h, now, member)
    ensures Script(store, call, member).1 == Ideal(h, call, member).1
    ensures Shows(Script(store, call, member).0, Ideal(h, call, member).0, call.now, config)
    ensures Past(Script(store, call, member).0, Ideal(h, call, member).0, call.now, member + 1)
  {
    assert Past(store, h, call.now, member);
    CheckDecides(store, h, call.now, call.windows, 0, config, member);
    var checked := Check(store, call.now, call.windows, 0);
    if checked.1.Allowed? {
      RecordShows(checked.0, h, call, member, config);
      RecordPast(checked.0, h, call, member, config);
    }
  }

  /** Trimming, on denied calls too, and key expiry are unobservable: on every run the
      script replies exactly as the limiter that never forgets an event. */
  lemma {:induction false} TrimmingIsUnobservable(store: Store, h: History, calls: seq<Call>, member: nat, now: int,
                                                  config: Config)
    requires Arrivals(calls, now, config)
    requires Shows(store, h, now, config) && Past(store, h, now, member)
    ensures ScriptReplies(store, calls, member) == IdealReplies(h, calls, member)
    decreases calls
  {
    if calls != [] {
      ScriptRefinesIdeal(store, h, calls[0], member, now, config);
      TrimmingIsUnobservable(Script(store, calls[0], member).0, Ideal(h, calls[0], member).0,
                             calls[1..], member + 1, calls[0].now, config);
    }
  }

  lemma FreshRedisAgrees(calls: seq<Call>, now: int, config: Config)
    requires Arrivals(calls, now, config)
    ensures ScriptReplies(map[], calls, 0) == IdealReplies(map[], calls, 0)
  {
    TrimmingIsUnobservable(map[], map[], calls, 0, now, config);
  }

  // ----- no window is ever over capacity

  /** How many events fall into `(low, high]`. */
  function CountIn(s: seq<Event>, low: int, high: int): nat {
    if s == [] then 0
    else (if low < s[0].score <= high then 1 else 0) + CountIn(s[1..], low, high)
  }

  /** How many events fall into the `width` milliseconds up to and including `t`. */
  function InWindow(s: seq<Event>, width: int, t: int): nat {
    CountIn(s, t - width, t)
  }

  lemma {:induction false} CountAppend(a: seq<Event>, b: seq<Event>, low: int, high: int)
    ensures CountIn(a + b, low, high) == CountIn(a, low, high) + CountIn(b, low, high)
  {
    if a == [] {
      assert a + b == b;
    } else {
      CountAppend(a[1..], b, low, high);
      assert (a + b)[1..] == a[1..] + b;
    }
  }

  lemma {:induction false} CountWithinAfter(s: seq<Event>, low: int, high: int)
    ensures CountIn(s, low, high) <= |After(s, low)|
    ensures UpTo(s, high) ==> CountIn(s, low, high) == |After(s, low)|
  {
    if s != [] {
      CountWithinAfter(s[1..], low, high);
      assert s[0] in s;
    }
  }

  /** At EVERY instant, not only when a call is made, each key holds at most `capacity`
      events in the `width` milliseconds up to it. */
  ghost predicate WithinCapacity(h: History, config: Config) {
    forall key, t | key in h :: InWindow(h[key], config(key).width, t) <= config(key).capacity
  }

  ghost predicate Full(h: History, w: Window, now: int) {
    |After(Of(h, w.key), now - w.width)| >= w.capacity
  }

  lemma {:induction false} AllowedMeansRoom(h: History, now: int, ws: seq<Window>, i: nat)
    requires i <= |ws|
    ensures Decide(h, now, ws, i).Allowed? <==>
            forall j | i <= j < |ws| :: !Full(h, ws[j], now)
    decreases |ws| - i
  {
    if i < |ws| {
      AllowedMeansRoom(h, now, ws, i + 1);
    }
  }

  lemma AdmitWithinCapacity(h: History, call: Call, member: nat, config: Config)
    requires WithinCapacity(h, config) && Conforms(call.windows, config)
    requires forall key | key in h :: UpTo(h[key], call.now)
    requires Decide(h, call.now, call.windows, 0).Allowed?
    ensures WithinCapacity(Admit(h, call, member), config)
  {
    var h' := Admit(h, call, member);
    forall key, t | key in h' ensures InWindow(h'[key], config(key).width, t) <= config(key).capacity {
      if key in Keys(call.windows) {
        AdmittedKeyFits(h, call, member, config, key, t);
      } else {
        assert InWindow(h[key], config(key).width, t) <= config(key).capacity;
      }
    }
  }

  lemma AdmittedKeyFits(h: History, call: Call, member: nat, config: Config, key: string, t: int)
    requires WithinCapacity(h, config) && Conforms(call.windows, config)
    requires forall key | key in h :: UpTo(h[key], call.now)
    requires Decide(h, call.now, call.windows, 0).Allowed? && key in Keys(call.windows)
    ensures InWindow(Of(h, key) + [Event(member, call.now)], config(key).width, t) <= config(key).capacity
  {
    AllowedMeansRoom(h, call.now, call.windows, 0);
    var w :| w in call.windows && w.key == key;
    var j :| 0 <= j < |call.windows| && call.windows[j] == w;
    assert !Full(h, call.windows[j], call.now);
    assert UpTo(Of(h, key), call.now);
    assert InWindow(Of(h, key), w.width, t) <= w.capacity;
    hide CountIn, After;
    OneMoreFits(Of(h, key), Event(member, call.now), w.width, w.capacity, t);
  }

  /** An event admitted with room in its window puts no window, now or later, over capacity. */
  lemma OneMoreFits(s: seq<Event>, e: Event, width: int, capacity: int, t: int)
    requires UpTo(s, e.score) && |After(s, e.score - width)| < capacity
    requires InWindow(s, width, t) <= capacity
    ensures InWindow(s + [e], width, t) <= capacity
  {
    CountAppend(s, [e], t - width, t);
    assert [e][1..] == [];
    if t >= e.score {
      CountWithinAfter(s, t - width, t);
      AfterAfter(s, e.score - width, t - width);
    }
  }

  lemma {:induction false} RunWithinCapacity(h: History, calls: seq<Call>, member: nat, now: int, config: Config)
    requires Arrivals(calls, now, config) && WithinCapacity(h, config)
    requires forall key | key in h :: UpTo(h[key], now) && Ordered(h[key])
    ensures var h' := HistoryAfter(h, calls, member);
            WithinCapacity(h', config) &&
            forall key | key in h' :: UpTo(h'[key], LastTime(calls, now)) && Ordered(h'[key])
    decreases calls
  {
    if calls != [] {
      var call := calls[0];
      var h' := Ideal(h, call, member).0;
      if Decide(h, call.now, call.windows, 0).Allowed? {
        AdmitWithinCapacity(h, call, member, config);
        AdmitPast(h, call, member);
      }
      RunWithinCapacity(h', calls[1..], member + 1, call.now, config);
    }
  }

  /** How many of the calls the replies admit into the key's window, with `low < now <= high`. */
  function Admissions(calls: seq<Call>, replies: seq<Reply>, key: string, low: int, high: int): nat
    requires |calls| == |replies|
    decreases calls
  {
    if calls == [] then 0
    else
      var counts := replies[0].Allowed? && key in Keys(calls[0].windows) && low < calls[0].now <= high;
      (if counts then 1 else 0) + Admissions(calls[1..], replies[1..], key, low, high)
  }

  lemma {:induction false} AdmissionsAreCounted(h: History, calls: seq<Call>, member: nat, key: string, low: int,
                                                high: int)
    ensures |IdealReplies(h, calls, member)| == |calls|
    ensures CountIn(Of(HistoryAfter(h, calls, member), key), low, high)
         == CountIn(Of(h, key), low, high) + Admissions(calls, IdealReplies(h, calls, member), key, low, high)
    decreases calls
  {
    hide Decide, CountIn;
    if calls != [] {
      var h' := Ideal(h, calls[0], member).0;
      AdmissionsAreCounted(h', calls[1..], member + 1, key, low, high);
      assert IdealReplies(h, calls, member)[1..] == IdealReplies(h', calls[1..], member + 1);
      OneEvent(Event(member, calls[0].now), low, high);
      CountAppend(Of(h, key), [Event(member, calls[0].now)], low, high);
    }
  }

  lemma OneEvent(e: Event, low: int, high: int)
    ensures CountIn([e], low, high) == if low < e.score <= high then 1 else 0
  {
    assert [e][1..] == [];
  }

  /** What the limiter is for: on every run, at every instant, the calls that the SCRIPT has
      admitted into a window during the `width` milliseconds up to then are at most its capacity. */
  lemma ScriptNeverOverAdmits(calls: seq<Call>, now: int, config: Config, key: string, t: int)
    requires Arrivals(calls, now, config) && config(key).capacity >= 0
    ensures |ScriptReplies(map[], calls, 0)| == |calls|
    ensures Admissions(calls, ScriptReplies(map[], calls, 0), key, t - config(key).width, t) <= config(key).capacity
  {
    hide ScriptReplies, IdealReplies, HistoryAfter, Arrivals, CountIn, Admissions;
    FreshRedisAgrees(calls, now, config);
    RunWithinCapacity(map[], calls, 0, now, config);
    AdmissionsAreCounted(map[], calls, 0, key, t - config(key).width, t);
    var h := HistoryAfter(map[], calls, 0);
    if key in h {
      assert InWindow(h[key], config(key).width, t) <= config(key).capacity;
    }
  }

  // ----- `retry_after`

  /** A full window's events are all at or after the oldest one that the reply reports. */
  lemma {:induction false} DenialExplained(h: History, now: int, ws: seq<Window>, i: nat)
    requires i <= |ws| && Decide(h, now, ws, i).Denied?
    ensures var reply := Decide(h, now, ws, i);
            i <= reply.index < |ws| &&
            var live := After(Of(h, ws[reply.index].key), now - ws[reply.index].width);
            |live| >= ws[reply.index].capacity && reply.oldest == OldestScore(live)
    decreases |ws| - i
  {
    if i < |ws| && |After(Of(h, ws[i].key), now - ws[i].width)| < ws[i].capacity {
      DenialExplained(h, now, ws, i + 1);
    }
  }

  lemma {:induction false} HistoryGrows(h: History, calls: seq<Call>, member: nat, key: string)
    ensures Of(h, key) <= Of(HistoryAfter(h, calls, member), key)
    decreases calls
  {
    if calls != [] {
      HistoryGrows(Ideal(h, calls[0], member).0, calls[1..], member + 1, key);
    }
  }

  /** Until the oldest event leaves, every event of the window stays in it. */
  lemma StaysFull(s: seq<Event>, more: seq<Event>, now: int, later: int, width: int)
    requires Ordered(s) && s <= more && now <= later
    requires After(s, now - width) != []
    requires later < After(s, now - width)[0].score + width
    ensures |After(more, later - width)| >= |After(s, now - width)|
  {
    hide After;
    var live := After(s, now - width);
    AfterKeeps(s, now - width);
    AfterOrdered(s, now - width);
    AfterAfter(s, now - width, later - width);
    forall e | e in live ensures e.score > later - width {
      assert live[0].score <= e.score;
    }
    AfterAll(live, later - width);
    AfterPrefix(s, more, later - width);
  }

  lemma AfterPrefix(s: seq<Event>, more: seq<Event>, cutoff: int)
    requires s <= more
    ensures |After(s, cutoff)| <= |After(more, cutoff)|
  {
    assert more == s + more[|s|..];
    AfterAppend(s, more[|s|..], cutoff);
  }

  /** After a denial, whatever other calls come in between, the same call is denied at every
      instant before `now + retry_after`. */
  lemma RetryAfterIsALowerBound(h: History, now: int, ws: seq<Window>, others: seq<Call>, member: nat, later: int)
    requires forall key | key in h :: Ordered(h[key])
    requires forall w | w in ws :: w.capacity >= 1
    requires Decide(h, now, ws, 0).Denied?
    requires Decide(h, now, ws, 0).index < |ws|
    requires now <= later < now + RetryAfterMs(Decide(h, now, ws, 0), ws, now)
    ensures Decide(HistoryAfter(h, others, member), later, ws, 0).Denied?
  {
    hide After;
    DenialExplained(h, now, ws, 0);
    var reply := Decide(h, now, ws, 0);
    var w := ws[reply.index];
    assert w in ws;
    var h' := HistoryAfter(h, others, member);
    HistoryGrows(h, others, member, w.key);
    StaysFull(Of(h, w.key), Of(h', w.key), now, later, w.width);
    AllowedMeansRoom(h', later, ws, 0);
  }

  /** When a full window's oldest event leaves it. */
  function FreeAt(h: History, w: Window, now: int): int {
    OldestScore(After(Of(h, w.key), now - w.width)) + w.width
  }

  /** With nothing admitted in between, a full window has room exactly from `FreeAt` on. */
  lemma RoomExactlyFromFreeAt(h: History, w: Window, now: int, later: int, config: Config)
    requires WithinCapacity(h, config) && config(w.key) == Quota(w.capacity, w.width)
    requires w.capacity >= 1 && now <= later
    requires forall key | key in h :: UpTo(h[key], now) && Ordered(h[key])
    ensures !Full(h, w, later) <==> (Full(h, w, now) ==> later >= FreeAt(h, w, now))
  {
    var s := Of(h, w.key);
    var live := After(s, now - w.width);
    AfterAfter(s, now - w.width, later - w.width);
    if Full(h, w, now) {
      CountWithinAfter(s, now - w.width, now);
      assert w.key in h ==> InWindow(s, w.width, now) <= w.capacity;
      assert |live| == w.capacity;
      if later < FreeAt(h, w, now) {
        StaysFull(s, s, now, later, w.width);
      } else {
        assert live == [live[0]] + live[1..];
        AfterAppend([live[0]], live[1..], later - w.width);
        AfterShrinks(live[1..], later - w.width);
      }
    }
  }

  lemma {:induction false} AfterShrinks(s: seq<Event>, cutoff: int)
    ensures |After(s, cutoff)| <= |s|
  {
    if s != [] { AfterShrinks(s[1..], cutoff); }
  }

  /** The documentation says that waiting for `retry_after` guarantees success.  It does if
      and only if no full window frees up later than the reported one: the script reports
      the FIRST full window, not the most restrictive. */
  lemma RetryAfterIsExactIff(h: History, now: int, ws: seq<Window>, config: Config)
    requires Conforms(ws, config) && WithinCapacity(h, config)
    requires forall key | key in h :: UpTo(h[key], now) && Ordered(h[key])
    requires Decide(h, now, ws, 0).Denied?
    requires Decide(h, now, ws, 0).index < |ws|
    ensures var retryAt := now + RetryAfterMs(Decide(h, now, ws, 0), ws, now);
            Decide(h, retryAt, ws, 0).Allowed? <==>
            forall w | w in ws && Full(h, w, now) :: FreeAt(h, w, now) <= retryAt
  {
    var retryAt := now + RetryAfterMs(Decide(h, now, ws, 0), ws, now);
    RoomIff(h, now, ws, retryAt, config);
  }

  /** With nothing admitted in between, a call goes through at `later` exactly when every
      window that is full now has room by then. */
  lemma RoomIff(h: History, now: int, ws: seq<Window>, later: int, config: Config)
    requires Conforms(ws, config) && WithinCapacity(h, config) && now <= later
    requires forall key | key in h :: UpTo(h[key], now) && Ordered(h[key])
    ensures Decide(h, later, ws, 0).Allowed? <==>
            forall w | w in ws && Full(h, w, now) :: FreeAt(h, w, now) <= later
  {
    AllowedMeansRoom(h, later, ws, 0);
    forall w | w in ws ensures !Full(h, w, later) <==> (Full(h, w, now) ==> FreeAt(h, w, now) <= later) {
      RoomExactlyFromFreeAt(h, w, now, later, config);
    }
    if forall j | 0 <= j < |ws| :: !Full(h, ws[j], later) {
      forall w | w in ws ensures !Full(h, w, later) {
        var j :| 0 <= j < |ws| && ws[j] == w;
      }
    }
  }

  /** For a single window the promise holds: admitted at exactly `now + retry_after`. */
  lemma SingleWindowRetry(h: History, now: int, w: Window, config: Config)
    requires Conforms([w], config) && WithinCapacity(h, config)
    requires forall key | key in h :: UpTo(h[key], now) && Ordered(h[key])
    requires Decide(h, now, [w], 0).Denied?
    ensures Decide(h, now, [w], 0).index == 0
    ensures RetryAfterMs(Decide(h, now, [w], 0), [w], now) > 0
    ensures Decide(h, now + RetryAfterMs(Decide(h, now, [w], 0), [w], now), [w], 0).Allowed?
  {
    hide After, CountIn;
    DenialExplained(h, now, [w], 0);
    AfterKeeps(Of(h, w.key), now - w.width);
    var live := After(Of(h, w.key), now - w.width);
    assert w in [w] && live[0] in live;
    RetryAfterIsExactIff(h, now, [w], config);
  }

  /** A call on two windows that is still denied after waiting the reported 500 ms. */
  lemma ReportedRetryCanBeTooEarly()
    ensures var minute, hour := Window("m", 1, 1000), Window("h", 1, 5000);
            var h := HistoryAfter(map[], [Call(0, [minute, hour])], 0);
            Decide(h, 500, [minute, hour], 0) == Denied(0, 0)
            && RetryAfterMs(Denied(0, 0), [minute, hour], 500) == 500
            && Decide(h, 1000, [minute, hour], 0) == Denied(0, 1)
  {
    var minute, hour := Window("m", 1, 1000), Window("h", 1, 5000);
    var ws := [minute, hour];
    var call := Call(0, ws);
    assert After([], -1000) == [] && After([], -5000) == [];
    assert Decide(map[], 0, ws, 2) == Decide(map[], 0, ws, 1) == Decide(map[], 0, ws, 0) == Allowed;
    var h := HistoryAfter(map[], [call], 0);
    assert [call][1..] == [];
    assert h == HistoryAfter(Admit(map[], call, 0), [], 1) == Admit(map[], call, 0);
    assert minute in ws && hour in ws;
    assert Of(h, "m") == [Event(0, 0)] && Of(h, "h") == [Event(0, 0)];
    assert [Event(0, 0)][1..] == [];
  }

  // ----- the same about the script's own replies

  lemma {:induction false} IdealReplyAt(h: History, calls: seq<Call>, member: nat, n: nat)
    requires n < |calls|
    ensures |IdealReplies(h, calls, member)| == |calls|
    ensures IdealReplies(h, calls, member)[n]
         == Decide(HistoryAfter(h, calls[..n], member), calls[n].now, calls[n].windows, 0)
    decreases calls
  {
    hide Decide;
    AdmissionsAreCounted(h, calls, member, "", 0, 0);
    if n > 0 {
      IdealReplyAt(Ideal(h, calls[0], member).0, calls[1..], member + 1, n - 1);
      assert calls[..n][1..] == calls[1..][..n - 1];
    }
  }

  lemma {:induction false} HistoryAppend(h: History, a: seq<Call>, b: seq<Call>, member: nat)
    ensures HistoryAfter(h, a + b, member) == HistoryAfter(HistoryAfter(h, a, member), b, member + |a|)
    decreases a
  {
    hide Ideal;
    if a == [] {
      assert a + b == b;
    } else {
      HistoryAppend(Ideal(h, a[0], member).0, a[1..], b, member + 1);
      assert (a + b)[1..] == a[1..] + b;
    }
  }

  lemma {:induction false} ArrivalsPrefix(calls: seq<Call>, now: int, config: Config, n: nat)
    requires Arrivals(calls, now, config) && n <= |calls|
    ensures Arrivals(calls[..n], now, config) && LastTime(calls[..n], now) >= now
    ensures n < |calls| ==> LastTime(calls[..n], now) <= calls[n].now && Conforms(calls[n].windows, config)
    decreases calls
  {
    hide Conforms;
    if n > 0 {
      ArrivalsPrefix(calls[1..], calls[0].now, config, n - 1);
      assert calls[..n][1..] == calls[1..][..n - 1];
    }
  }

  /** Everything admitted before the n-th call. */
  function Before(calls: seq<Call>, n: nat): History
    requires n <= |calls|
  {
    HistoryAfter(map[], calls[..n], 0)
  }

  /** The script's n-th reply is the decision on all that was admitted before. */
  lemma {:induction false} ReplyAt(calls: seq<Call>, now: int, config: Config, n: nat)
    requires Arrivals(calls, now, config) && n < |calls|
    ensures |ScriptReplies(map[], calls, 0)| == |calls|
    ensures ScriptReplies(map[], calls, 0)[n] == Decide(Before(calls, n), calls[n].now, calls[n].windows, 0)
    ensures var reply := ScriptReplies(map[], calls, 0)[n]; reply.Denied? ==> reply.index < |calls[n].windows|
    ensures Conforms(calls[n].windows, config) && WithinCapacity(Before(calls, n), config)
    ensures forall key | key in Before(calls, n) ::
              UpTo(Before(calls, n)[key], calls[n].now) && Ordered(Before(calls, n)[key])
  {
    hide Decide, ScriptReplies, IdealReplies, HistoryAfter, Arrivals, Conforms, InWindow;
    FreshRedisAgrees(calls, now, config);
    IdealReplyAt(map[], calls, 0, n);
    ArrivalsPrefix(calls, now, config, n);
    RunWithinCapacity(map[], calls[..n], 0, now, config);
    if Decide(Before(calls, n), calls[n].now, calls[n].windows, 0).Denied? {
      DenialExplained(Before(calls, n), calls[n].now, calls[n].windows, 0);
    }
    var h := Before(calls, n);
    forall key | key in h ensures UpTo(h[key], calls[n].now) {
      assert UpTo(h[key], LastTime(calls[..n], now));
    }
  }

  /** On every run of the script: when call `i` is denied and call `j` asks for the same windows
      before the reported time is over, call `j` is denied too, whatever came in between. */
  lemma ScriptDeniesUntilRetryAfter(calls: seq<Call>, now: int, config: Config, i: nat, j: nat)
    requires Arrivals(calls, now, config) && i < j < |calls| && calls[j].windows == calls[i].windows
    ensures |ScriptReplies(map[], calls, 0)| == |calls|
    ensures var replies := ScriptReplies(map[], calls, 0);
            replies[i].Denied? && replies[i].index < |calls[i].windows| &&
            calls[j].now < calls[i].now + RetryAfterMs(replies[i], calls[i].windows, calls[i].now)
            ==> replies[j].Denied?
  {
    hide Decide, ScriptReplies, HistoryAfter, Arrivals, After, WithinCapacity;
    ReplyAt(calls, now, config, i);
    ReplyAt(calls, now, config, j);
    var replies := ScriptReplies(map[], calls, 0);
    var ws := calls[i].windows;
    if replies[i].Denied? && calls[j].now < calls[i].now + RetryAfterMs(replies[i], ws, calls[i].now) {
      assert calls[..i] + calls[i..j] == calls[..j];
      HistoryAppend(map[], calls[..i], calls[i..j], 0);
      LaterIsNoEarlier(calls, now, config, i, j);
      RetryAfterIsALowerBound(Before(calls, i), calls[i].now, ws, calls[i..j], i, calls[j].now);
    }
  }

  lemma {:induction false} LaterIsNoEarlier(calls: seq<Call>, now: int, config: Config, i: nat, j: nat)
    requires Arrivals(calls, now, config) && i <= j < |calls|
    ensures calls[i].now <= calls[j].now
    decreases calls
  {
    hide Conforms;
    if i > 0 {
      LaterIsNoEarlier(calls[1..], calls[0].now, config, i - 1, j - 1);
    } else if j > 0 {
      ArrivalsPrefix(calls[1..], calls[0].now, config, j - 1);
    }
  }

  /** And when the same call comes next, at exactly the reported time, the script admits it if
      and only if no window that was full frees up later. */
  lemma ScriptRetryIsExactIff(calls: seq<Call>, now: int, config: Config, i: nat)
    requires Arrivals(calls, now, config) && i + 1 < |calls| && calls[i + 1].windows == calls[i].windows
    requires |ScriptReplies(map[], calls, 0)| == |calls| && ScriptReplies(map[], calls, 0)[i].Denied?
    requires ScriptReplies(map[], calls, 0)[i].index < |calls[i].windows|
    requires calls[i + 1].now
          == calls[i].now + RetryAfterMs(ScriptReplies(map[], calls, 0)[i], calls[i].windows, calls[i].now)
    ensures ScriptReplies(map[], calls, 0)[i + 1].Allowed? <==>
              forall w | w in calls[i].windows && Full(Before(calls, i), w, calls[i].now) ::
                FreeAt(Before(calls, i), w, calls[i].now) <= calls[i + 1].now
    ensures |calls[i].windows| == 1 ==> ScriptReplies(map[], calls, 0)[i + 1].Allowed?
  {
    hide Decide, ScriptReplies, HistoryAfter, Arrivals, After, WithinCapacity, Conforms;
    ReplyAt(calls, now, config, i);
    ReplyAt(calls, now, config, i + 1);
    var ws, h := calls[i].windows, Before(calls, i);
    DeniedAddsNothing(calls, i);
    RetryAfterIsExactIff(h, calls[i].now, ws, config);
    if |ws| == 1 {
      assert ws == [ws[0]];
      SingleWindowRetry(h, calls[i].now, ws[0], config);
    }
  }

  lemma DeniedAddsNothing(calls: seq<Call>, i: nat)
    requires i < |calls| && Decide(Before(calls, i), calls[i].now, calls[i].windows, 0).Denied?
    ensures Before(calls, i + 1) == Before(calls, i)
  {
    hide Decide;
    assert calls[..i + 1] == calls[..i] + [calls[i]] && [calls[i]][1..] == [];
    HistoryAppend(map[], calls[..i], [calls[i]], 0);
    assert HistoryAfter(Before(calls, i), [calls[i]], i) ==
             HistoryAfter(Ideal(Before(calls, i), calls[i], i).0, [], i + 1);
  }
}
