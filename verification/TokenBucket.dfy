/** The in-memory Graph limiter: a continuously refilled token bucket behind one
    semaphore per mailbox, under any interleaving of waiting callers. */
module TokenBucket {

  /** The bucket's parameters and fields; time in seconds on a monotonic clock. */
  datatype BucketFields = Bucket(capacity: real, rate: real, tokens: real, lastRefill: real) {
    predicate Valid() {
      0.0 <= tokens <= capacity
    }
  }

  /** The constructor refuses parameters that are not positive. */
  type Bucket = b: BucketFields | b.capacity > 0.0 && b.rate > 0.0 witness Bucket(1.0, 1.0, 1.0, 0.0)

  datatype Outcome = Granted | Wait(seconds: real) | ValueError

  /** What the refill adds in `seconds`. */
  function Drip(rate: real, seconds: real): real {
    rate * seconds
  }

  function Refilled(b: Bucket, now: real): Bucket {
    var tokens := b.tokens + Drip(b.rate, now - b.lastRefill);
    b.(tokens := if tokens < b.capacity then tokens else b.capacity, lastRefill := now)
  }

  /** One turn of `acquire`'s loop, made while holding the lock. */
  function Attempt(b: Bucket, n: int, now: real): (Bucket, Outcome) {
    if n <= 0 || n as real > b.capacity then (b, ValueError)
    else
      var r := Refilled(b, now);
      if r.tokens >= n as real then (r.(tokens := r.tokens - n as real), Granted)
      else (r, Wait((n as real - r.tokens) / r.rate))
  }

  class AsyncTokenBucket {
    const capacity: real
    const rate: real
    var tokens: real
    var lastRefill: real

    ghost predicate Positive()
      reads this
    {
      capacity > 0.0 && rate > 0.0
    }

    ghost function Fields(): Bucket
      reads this
      requires Positive()
    {
      Bucket(capacity, rate, tokens, lastRefill)
    }

    constructor (capacity: real, refillPerSecond: real, now: real)
      requires capacity > 0.0 && refillPerSecond > 0.0
      ensures Positive() && Fields() == Bucket(capacity, refillPerSecond, capacity, now) && Fields().Valid()
    {
      this.capacity := capacity;
      this.rate := refillPerSecond;
      tokens := capacity;
      lastRefill := now;
    }

    method Refill(now: real)
      requires Positive()
      modifies this
      ensures Fields() == Refilled(old(Fields()), now)
    {
      var elapsed := now - lastRefill;
      tokens := if tokens + Drip(rate, elapsed) < capacity then tokens + Drip(rate, elapsed) else capacity;
      lastRefill := now;
    }

    /** The body of the retry loop; the caller sleeps for the returned time and comes back. */
    method TryAcquire(n: int, now: real) returns (outcome: Outcome)
      requires Positive()
      modifies this
      ensures (Fields(), outcome) == Attempt(old(Fields()), n, now)
    {
      if n <= 0 || n as real > capacity {
        return ValueError;
      }
      Refill(now);
      if tokens >= n as real {
        tokens := tokens - n as real;
        return Granted;
      }
      var deficit := n as real - tokens;
      return Wait(deficit / rate);
    }

    /** `acquire` while nobody else uses the bucket, waking `late` seconds after the time it
        asked for: it sleeps at most once, and never when the tokens are there. */
    method Acquire(n: int, now: real, late: real) returns (outcome: Outcome, at: real)
      requires Positive() && Fields().Valid() && now >= lastRefill && late >= 0.0
      modifies this
      ensures Positive() && Fields().Valid()
      ensures outcome == ValueError <==> n <= 0 || n as real > capacity
      ensures outcome == ValueError ==> Fields() == old(Fields()) && at == now
      ensures outcome != ValueError ==>
                var first := Attempt(old(Fields()), n, now);
                outcome == Granted && lastRefill == at &&
                at == (if first.1.Wait? then now + first.1.seconds + late else now) &&
                Fields() == Attempt(if first.1.Wait? then first.0 else old(Fields()), n, at).0
    {
      at := now;
      var slept := false;
      ghost var first := Attempt(Fields(), n, now);
      AttemptKeepsValid(Fields(), n, now);
      while true
        invariant Positive()
        invariant !slept ==> at == now && Fields() == old(Fields())
        invariant slept ==> first.1.Wait? && at == now + first.1.seconds + late && Fields() == first.0
        decreases !slept
      {
        if slept {
          WaitIsEnough(old(Fields()), n, now, at);
          AttemptKeepsValid(Fields(), n, at);
        }
        outcome := TryAcquire(n, at);
        if !outcome.Wait? {
          return;
        }
        at := at + outcome.seconds + late;
        slept := true;
      }
    }
  }

  /** The semaphores' counters, one per mailbox seen so far. */
  class MailboxSemaphores {
    const limit: int
    var semaphores: map<string, int>

    constructor (limit: int)
      requires limit > 0
      ensures this.limit == limit && semaphores == map[]
    {
      this.limit := limit;
      semaphores := map[];
    }

    /** A mailbox's counter is created full, on first use, and then kept. */
    method Get(mailbox: string) returns (free: int)
      modifies this
      ensures semaphores == WithMailbox(old(semaphores), mailbox, limit) && free == semaphores[mailbox]
    {
      if mailbox !in semaphores {
        semaphores := semaphores[mailbox := limit];
      }
      return semaphores[mailbox];
    }
  }

  function WithMailbox(free: map<string, int>, mailbox: string, limit: int): (more: map<string, int>)
    ensures mailbox in more
  {
    if mailbox in free then free else free[mailbox := limit]
  }

  // ----- one attempt

  lemma DripAdds(rate: real, a: real, b: real, c: real)
    ensures Drip(rate, b - a) + Drip(rate, c - b) == Drip(rate, c - a)
  {
  }

  lemma DripGrows(rate: real, d: real, e: real)
    requires rate > 0.0 && d <= e
    ensures Drip(rate, d) <= Drip(rate, e)
    ensures e >= 0.0 ==> Drip(rate, e) >= 0.0
  {
    assert rate * (e - d) >= 0.0;
    if e >= 0.0 { assert rate * e >= 0.0; }
  }

  lemma AttemptKeepsValid(b: Bucket, n: int, now: real)
    requires b.Valid() && now >= b.lastRefill
    ensures Attempt(b, n, now).0.Valid()
    ensures Attempt(b, n, now).0.(tokens := b.tokens, lastRefill := b.lastRefill) == b
  {
    hide Drip;
    DripGrows(b.rate, 0.0, now - b.lastRefill);
  }

  // ----- what the bucket has granted

  datatype Grant = Grant(at: real, n: int)

  /** Tokens granted in the closed interval `[low, high]`. */
  function GrantedIn(log: seq<Grant>, low: real, high: real): int {
    if log == [] then 0
    else (if low <= log[0].at <= high then log[0].n else 0) + GrantedIn(log[1..], low, high)
  }

  lemma {:induction false} GrantedAppend(log: seq<Grant>, g: Grant, low: real, high: real)
    ensures GrantedIn(log + [g], low, high)
         == GrantedIn(log, low, high) + (if low <= g.at <= high then g.n else 0)
  {
    if log == [] {
      assert log + [g] == [g] && [g][1..] == [];
    } else {
      GrantedAppend(log[1..], g, low, high);
      assert (log + [g])[0] == log[0] && (log + [g])[1..] == log[1..] + [g];
    }
  }

  lemma {:induction false} GrantedUpTo(log: seq<Grant>, low: real, now: real, high: real)
    requires forall g | g in log :: g.at <= now
    requires now <= high
    ensures GrantedIn(log, low, high) == GrantedIn(log, low, now)
  {
    if log != [] {
      assert log[0] in log;
      GrantedUpTo(log[1..], low, now, high);
    }
  }

  lemma {:induction false} NothingLater(log: seq<Grant>, low: real, high: real)
    requires forall g | g in log :: g.at < low
    ensures GrantedIn(log, low, high) == 0
  {
    if log != [] {
      assert log[0] in log;
      NothingLater(log[1..], low, high);
    }
  }

  /** In no interval has more been granted than a full bucket plus what drips in meanwhile. */
  ghost predicate WithinRate(b: Bucket, log: seq<Grant>) {
    forall low, high | low <= high :: GrantedIn(log, low, high) as real <= b.capacity + Drip(b.rate, high - low)
  }

  /** The accounting that makes `WithinRate` inductive: what was granted since `low` and what
      is left now came from a full bucket at `low` and the drip since. */
  ghost predicate Accounted(b: Bucket, log: seq<Grant>) {
    (forall g | g in log :: g.at <= b.lastRefill) &&
    forall low | low <= b.lastRefill ::
      b.tokens + GrantedIn(log, low, b.lastRefill) as real <= b.capacity + Drip(b.rate, b.lastRefill - low)
  }

  lemma RefillAccounted(b: Bucket, log: seq<Grant>, now: real, low: real)
    requires b.Valid() && Accounted(b, log) && now >= b.lastRefill && low <= now
    ensures Refilled(b, now).tokens + GrantedIn(log, low, now) as real <= b.capacity + Drip(b.rate, now - low)
  {
    hide Drip;
    GrantedUpTo(log, low, b.lastRefill, now);
    if low <= b.lastRefill {
      DripAdds(b.rate, low, b.lastRefill, now);
    } else {
      NothingLater(log, low, now);
      DripGrows(b.rate, 0.0, now - low);
    }
  }

  /** A grant at `now` puts no interval over the bound, given the accounting at `now`. */
  lemma GrantWithinRate(b: Bucket, log: seq<Grant>, g: Grant, left: real, low: real, high: real)
    requires low <= high && left >= 0.0
    requires forall e | e in log :: e.at <= g.at
    requires GrantedIn(log, low, high) as real <= b.capacity + Drip(b.rate, high - low)
    requires low <= g.at ==> left + GrantedIn(log + [g], low, g.at) as real <= b.capacity + Drip(b.rate, g.at - low)
    ensures GrantedIn(log + [g], low, high) as real <= b.capacity + Drip(b.rate, high - low)
  {
    hide Drip;
    GrantedAppend(log, g, low, high);
    if low <= g.at <= high {
      GrantedUpTo(log + [g], low, g.at, high);
      DripGrows(b.rate, g.at - low, high - low);
    }
  }

  lemma AttemptAccounted(b: Bucket, log: seq<Grant>, n: int, now: real)
    requires b.Valid() && Accounted(b, log) && WithinRate(b, log) && now >= b.lastRefill
    ensures var (b', outcome) := Attempt(b, n, now);
            var log' := if outcome.Granted? then log + [Grant(now, n)] else log;
            Accounted(b', log') && WithinRate(b', log')
  {
    hide Drip;
    var (b', outcome) := Attempt(b, n, now);
    if outcome != ValueError {
      var log' := if outcome.Granted? then log + [Grant(now, n)] else log;
      forall low | low <= now
        ensures b'.tokens + GrantedIn(log', low, now) as real <= b.capacity + Drip(b.rate, now - low)
      {
        RefillAccounted(b, log, now, low);
        GrantedAppend(log, Grant(now, n), low, now);
      }
      AttemptKeepsValid(b, n, now);
      if outcome.Granted? {
        forall low, high | low <= high
          ensures GrantedIn(log', low, high) as real <= b.capacity + Drip(b.rate, high - low)
        {
          GrantWithinRate(b, log, Grant(now, n), b'.tokens, low, high);
        }
      }
    }
  }

  // ----- any interleaving of attempts

  datatype Turn = Turn(n: int, at: real)

  ghost predicate InOrder(turns: seq<Turn>, since: real)
    decreases turns
  {
    turns == [] || (turns[0].at >= since && InOrder(turns[1..], turns[0].at))
  }

  function BucketAfter(b: Bucket, turns: seq<Turn>): Bucket
    decreases turns
  {
    if turns == [] then b else BucketAfter(Attempt(b, turns[0].n, turns[0].at).0, turns[1..])
  }

  /** The log after one attempt. */
  function Logged(b: Bucket, log: seq<Grant>, t: Turn): seq<Grant> {
    if Attempt(b, t.n, t.at).1.Granted? then log + [Grant(t.at, t.n)] else log
  }

  function LogAfter(b: Bucket, log: seq<Grant>, turns: seq<Turn>): seq<Grant>
    decreases turns
  {
    if turns == [] then log
    else LogAfter(Attempt(b, turns[0].n, turns[0].at).0, Logged(b, log, turns[0]), turns[1..])
  }

  /** `tokens` never leaves `[0, capacity]`, and no interval of length d sees more than
      `capacity + rate * d` tokens granted. */
  lemma {:induction false} BucketBound(b: Bucket, log: seq<Grant>, turns: seq<Turn>)
    requires b.Valid() && Accounted(b, log) && WithinRate(b, log) && InOrder(turns, b.lastRefill)
    ensures BucketAfter(b, turns).Valid()
    ensures WithinRate(b, LogAfter(b, log, turns))
    decreases turns
  {
    hide Drip;
    if turns != [] {
      var t := turns[0];
      AttemptKeepsValid(b, t.n, t.at);
      AttemptAccounted(b, log, t.n, t.at);
      BucketBound(Attempt(b, t.n, t.at).0, Logged(b, log, t), turns[1..]);
    }
  }

  /** The bound is attained: with refill `c` per window, `2c` tokens go out in one window. */
  lemma BoundIsTight(c: int, window: real)
    requires c >= 1 && window > 0.0
    ensures var b := Bucket(c as real, c as real / window, c as real, 0.0);
            var log := LogAfter(b, [], [Turn(c, 0.0), Turn(c, window)]);
            GrantedIn(log, 0.0, window) == 2 * c
            && (2 * c) as real == b.capacity + Drip(b.rate, window - 0.0)
  {
    var b := Bucket(c as real, c as real / window, c as real, 0.0);
    var turns := [Turn(c, 0.0), Turn(c, window)];
    assert c as real / window * window == c as real;
    var b1 := Attempt(b, c, 0.0).0;
    assert Attempt(b, c, 0.0).1 == Granted && b1.tokens == 0.0;
    assert Attempt(b1, c, window).1 == Granted;
    assert turns[1..] == [Turn(c, window)] && turns[1..][1..] == [];
    assert Logged(b, [], turns[0]) == [Grant(0.0, c)];
    assert Logged(b1, [Grant(0.0, c)], turns[1]) == [Grant(0.0, c)] + [Grant(window, c)];
    assert LogAfter(b1, [Grant(0.0, c)], turns[1..]) == [Grant(0.0, c)] + [Grant(window, c)];
    assert LogAfter(b, [], turns) == [Grant(0.0, c)] + [Grant(window, c)];
    GrantedAppend([Grant(0.0, c)], Grant(window, c), 0.0, window);
    GrantedAppend([], Grant(0.0, c), 0.0, window);
    assert [] + [Grant(0.0, c)] == [Grant(0.0, c)];
  }

  lemma {:induction false} TokensOnlyDrip(b: Bucket, turns: seq<Turn>)
    requires b.Valid() && InOrder(turns, b.lastRefill)
    ensures var b' := BucketAfter(b, turns);
            b'.Valid() && b'.lastRefill >= b.lastRefill && b'.capacity == b.capacity && b'.rate == b.rate &&
            b'.tokens <= b.tokens + Drip(b.rate, b'.lastRefill - b.lastRefill)
    decreases turns
  {
    hide Drip;
    DripAdds(b.rate, 0.0, 0.0, 0.0);
    if turns != [] {
      var t := turns[0];
      var b1 := Attempt(b, t.n, t.at).0;
      AttemptKeepsValid(b, t.n, t.at);
      TokensOnlyDrip(b1, turns[1..]);
      var b' := BucketAfter(b, turns);
      Chain(b.rate, b.tokens, b.lastRefill, b1.tokens, b1.lastRefill, b'.tokens, b'.lastRefill);
    }
  }

  lemma Chain(rate: real, x: real, a: real, y: real, b: real, z: real, c: real)
    requires y <= x + Drip(rate, b - a) && z <= y + Drip(rate, c - b)
    ensures z <= x + Drip(rate, c - a)
  {
    hide Drip;
    DripAdds(rate, a, b, c);
  }

  /** The advised sleep is a lower bound: whatever the others do, the same request is refused
      before it is over. */
  lemma {:induction false} WaitIsNeeded(b: Bucket, n: int, now: real, others: seq<Turn>, later: real)
    requires b.Valid() && now >= b.lastRefill && Attempt(b, n, now).1.Wait?
    requires InOrder(others, now)
    requires BucketAfter(Attempt(b, n, now).0, others).lastRefill <= later < now + Attempt(b, n, now).1.seconds
    ensures Attempt(BucketAfter(Attempt(b, n, now).0, others), n, later).1.Wait?
  {
    hide Drip;
    var r := Attempt(b, n, now).0;
    AttemptKeepsValid(b, n, now);
    TokensOnlyDrip(r, others);
    var b' := BucketAfter(r, others);
    SleepCoversDeficit(n as real - r.tokens, r.rate, later - now);
    AttemptKeepsValid(b', n, later);
    var refilled := Refilled(b', later);
    assert refilled.tokens <= b'.tokens + Drip(b'.rate, later - b'.lastRefill);
    Chain(r.rate, r.tokens, now, b'.tokens, b'.lastRefill, refilled.tokens, later);
  }

  /** And it is exact: if nobody else takes a token, the request is granted as soon as it is over. */
  lemma WaitIsEnough(b: Bucket, n: int, now: real, later: real)
    requires b.Valid() && now >= b.lastRefill && Attempt(b, n, now).1.Wait?
    requires later >= now + Attempt(b, n, now).1.seconds
    ensures Attempt(Attempt(b, n, now).0, n, later).1 == Granted
  {
    hide Drip;
    var r := Attempt(b, n, now).0;
    AttemptKeepsValid(b, n, now);
    SleepCoversDeficit(n as real - r.tokens, r.rate, later - now);
  }

  lemma SleepCoversDeficit(deficit: real, rate: real, slept: real)
    requires rate > 0.0
    ensures slept >= deficit / rate <==> Drip(rate, slept) >= deficit
  {
    var wait := deficit / rate;
    assert Drip(rate, wait) == wait * rate == deficit;
    if slept >= wait {
      DripGrows(rate, wait, slept);
    } else {
      assert Drip(rate, wait - slept) > 0.0;
      DripAdds(rate, 0.0, slept, wait);
    }
  }

  // ----- `slot`: mailbox semaphore first, token second

  datatype Phase =
    | Queued(mailbox: string)     // waiting for the mailbox's semaphore
    | Holding(mailbox: string)    // holds it, waiting for a token
    | InFlight(mailbox: string)   // has consumed a token; the request is out

  /** `free` maps each mailbox seen so far to its semaphore's counter. */
  datatype Limiter = Limiter(limit: int, bucket: Bucket, free: map<string, int>,
                             callers: map<nat, Phase>, log: seq<Grant>)

  datatype Action =
    | Enter(caller: nat, mailbox: string)
    | TakeSlot(caller: nat)
    | TryToken(caller: nat, now: real)
    | Leave(caller: nat)          // the request finished, failed or was cancelled

  predicate HasSlot(p: Phase) {
    p.Holding? || p.InFlight?
  }

  predicate Enabled(s: Limiter, a: Action) {
    match a
    case Enter(c, _) => c !in s.callers
    case TakeSlot(c) => c in s.callers && s.callers[c].Queued? && s.callers[c].mailbox in s.free
                        && s.free[s.callers[c].mailbox] > 0
    case TryToken(c, now) => c in s.callers && s.callers[c].Holding? && now >= s.bucket.lastRefill
    case Leave(c) => c in s.callers && (HasSlot(s.callers[c]) ==> s.callers[c].mailbox in s.free)
  }

  function Step(s: Limiter, a: Action): Limiter
    requires Enabled(s, a)
  {
    match a
    case Enter(c, m) =>
      s.(free := WithMailbox(s.free, m, s.limit), callers := s.callers[c := Queued(m)])
    case TakeSlot(c) =>
      var m := s.callers[c].mailbox;
      s.(free := s.free[m := s.free[m] - 1], callers := s.callers[c := Holding(m)])
    case TryToken(c, now) =>
      var (b, outcome) := Attempt(s.bucket, 1, now);
      if outcome.Granted? then
        s.(bucket := b, callers := s.callers[c := InFlight(s.callers[c].mailbox)], log := s.log + [Grant(now, 1)])
      else s.(bucket := b)
    case Leave(c) =>
      var p := s.callers[c];
      s.(free := if HasSlot(p) then s.free[p.mailbox := s.free[p.mailbox] + 1] else s.free,
         callers := s.callers - {c})
  }

  function Holders(callers: map<nat, Phase>, mailbox: string): set<nat> {
    set c | c in callers && HasSlot(callers[c]) && callers[c].mailbox == mailbox
  }

  ghost predicate Inv(s: Limiter) {
    s.limit > 0 && s.bucket.Valid() && Accounted(s.bucket, s.log) && WithinRate(s.bucket, s.log) &&
    Balanced(s)
  }

  /** Moving one caller changes the holders of its own mailbox by that caller only. */
  lemma HoldersUpdate(callers: map<nat, Phase>, c: nat, p: Phase, m: string)
    ensures Holders(callers[c := p], m)
         == Holders(callers, m) - {c} + (if HasSlot(p) && p.mailbox == m then {c} else {})
    ensures Holders(callers - {c}, m) == Holders(callers, m) - {c}
  {
  }

  /** The semaphores' part of the invariant. */
  ghost predicate Balanced(s: Limiter) {
    (forall c | c in s.callers :: s.callers[c].mailbox in s.free) &&
    forall m | m in s.free :: s.free[m] >= 0 && s.free[m] + |Holders(s.callers, m)| == s.limit
  }

  lemma EnterBalanced(s: Limiter, c: nat, m: string)
    requires Balanced(s) && s.limit > 0 && Enabled(s, Enter(c, m))
    ensures Balanced(Step(s, Enter(c, m)))
  {
    var s' := Step(s, Enter(c, m));
    assert forall d | d in s'.callers :: d == c || d in s.callers;
    forall n | n in s'.free ensures s'.free[n] >= 0 && s'.free[n] + |Holders(s'.callers, n)| == s.limit {
      HoldersUpdate(s.callers, c, Queued(m), n);
      assert Holders(s.callers, n) - {c} == Holders(s.callers, n);
      if n !in s.free { NoHolders(s, n); }
    }
  }

  lemma NoHolders(s: Limiter, m: string)
    requires Balanced(s) && m !in s.free
    ensures Holders(s.callers, m) == {}
  {
    if d :| d in Holders(s.callers, m) {
      assert s.callers[d].mailbox in s.free;
    }
  }

  lemma TakeSlotBalanced(s: Limiter, c: nat)
    requires Balanced(s) && Enabled(s, TakeSlot(c))
    ensures Balanced(Step(s, TakeSlot(c)))
  {
    var s' := Step(s, TakeSlot(c));
    forall n | n in s'.free ensures s'.free[n] >= 0 && s'.free[n] + |Holders(s'.callers, n)| == s.limit {
      HoldersUpdate(s.callers, c, Holding(s.callers[c].mailbox), n);
      assert Holders(s.callers, n) - {c} == Holders(s.callers, n);
    }
  }

  lemma TryTokenBalanced(s: Limiter, c: nat, now: real)
    requires Balanced(s) && Enabled(s, TryToken(c, now))
    ensures Balanced(Step(s, TryToken(c, now)))
  {
    var s' := Step(s, TryToken(c, now));
    forall n | n in s'.free ensures Holders(s'.callers, n) == Holders(s.callers, n) {
      HoldersUpdate(s.callers, c, InFlight(s.callers[c].mailbox), n);
    }
  }

  lemma LeaveBalanced(s: Limiter, c: nat)
    requires Balanced(s) && Enabled(s, Leave(c))
    ensures Balanced(Step(s, Leave(c)))
  {
    var s' := Step(s, Leave(c));
    forall n | n in s'.free ensures s'.free[n] >= 0 && s'.free[n] + |Holders(s'.callers, n)| == s.limit {
      HoldersUpdate(s.callers, c, s.callers[c], n);
      if HasSlot(s.callers[c]) && n == s.callers[c].mailbox {
        assert c in Holders(s.callers, n);
      } else {
        assert Holders(s.callers, n) - {c} == Holders(s.callers, n);
      }
    }
  }

  /** Every step keeps the invariant, and a token is only ever consumed by a caller that
      holds its mailbox's semaphore, whose request thereby goes out. */
  lemma StepKeepsInv(s: Limiter, a: Action)
    requires Inv(s) && Enabled(s, a)
    ensures Inv(Step(s, a))
    ensures Step(s, a).log != s.log ==>
              a.TryToken? && s.callers[a.caller].Holding? && Step(s, a).callers[a.caller].InFlight?
              && Step(s, a).log == s.log + [Grant(a.now, 1)]
  {
    match a {
      case Enter(c, m) => EnterBalanced(s, c, m);
      case TakeSlot(c) => TakeSlotBalanced(s, c);
      case TryToken(c, now) =>
        AttemptKeepsValid(s.bucket, 1, now);
        AttemptAccounted(s.bucket, s.log, 1, now);
        TryTokenBalanced(s, c, now);
      case Leave(c) => LeaveBalanced(s, c);
    }
  }

  ghost predicate Runs(s: Limiter, actions: seq<Action>)
    decreases actions
  {
    actions == [] || (Enabled(s, actions[0]) && Runs(Step(s, actions[0]), actions[1..]))
  }

  function After(s: Limiter, actions: seq<Action>): Limiter
    requires Runs(s, actions)
    decreases actions
  {
    if actions == [] then s else After(Step(s, actions[0]), actions[1..])
  }

  function Start(limit: int, bucket: Bucket): Limiter {
    Limiter(limit, bucket, map[], map[], [])
  }

  lemma {:induction false} InvAlways(s: Limiter, actions: seq<Action>)
    requires Inv(s) && Runs(s, actions)
    ensures Inv(After(s, actions))
    ensures After(s, actions).limit == s.limit
    ensures After(s, actions).bucket.capacity == s.bucket.capacity && After(s, actions).bucket.rate == s.bucket.rate
    decreases actions
  {
    if actions != [] {
      StepKeepsInv(s, actions[0]);
      InvAlways(Step(s, actions[0]), actions[1..]);
    }
  }

  /** Every run of `slot`, with any callers, mailboxes, failures and cancellations. */
  lemma LimiterSafe(limit: int, bucket: Bucket, actions: seq<Action>)
    requires limit > 0 && bucket.Valid() && Runs(Start(limit, bucket), actions)
    ensures var s := After(Start(limit, bucket), actions);
            // no mailbox ever has more than `limit` requests past its semaphore
            (forall m :: |Holders(s.callers, m)| <= limit) &&
            // and no interval of length d sees more than capacity + rate * d requests go out
            WithinRate(bucket, s.log)
  {
    EmptyLog(bucket);
    InvAlways(Start(limit, bucket), actions);
    var s := After(Start(limit, bucket), actions);
    forall m ensures |Holders(s.callers, m)| <= limit {
      if m !in s.free { NoHolders(s, m); }
    }
  }

  lemma EmptyLog(b: Bucket)
    requires b.Valid()
    ensures Accounted(b, []) && WithinRate(b, [])
  {
    hide Drip;
    forall low, high | low <= high ensures GrantedIn([], low, high) as real <= b.capacity + Drip(b.rate, high - low) {
      DripGrows(b.rate, 0.0, high - low);
    }
    forall low | low <= b.lastRefill
      ensures b.tokens + GrantedIn([], low, b.lastRefill) as real <= b.capacity + Drip(b.rate, b.lastRefill - low)
    {
      assert GrantedIn([], low, b.lastRefill) == 0;
      DripGrows(b.rate, 0.0, b.lastRefill - low);
    }
  }
}
