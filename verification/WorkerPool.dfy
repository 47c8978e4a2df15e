/** Any number of workers around one event list and one dedup keyspace, one atomic step at a
    time. */
module WorkerPool {
  import opened Wrappers
  import opened Workers

  /** What a worker is doing: `item` numbers the events in the order they left the list. */
  datatype Hand =
    | Idle
    | Looking(item: nat, event: Event)
    | Busy(item: nat, event: Event, outcomes: seq<Outcome>, running: bool)

  datatype End = Undecodable | FirmMissing | Escaped | Lost | Returned(outcomes: seq<Outcome>)

  /** An execution that the gate let through: the event's number, the plugin's position. */
  datatype Grant = Grant(item: nat, position: nat, firmId: string, plugin: string, token: Option<string>, at: int)

  /** `list` is the Redis list (pushed at the left, popped at the right); the rest of the
      state is the keyspace, the workers, and the history of the run. */
  datatype World = World(list: seq<Message>, keys: Keyspace, hands: seq<Hand>,
                         enqueued: seq<Message>, taken: nat, ends: map<nat, End>, grants: seq<Grant>, clock: int)

  datatype Config = Config(listening: string -> seq<string>, ttl: nat, workers: nat)

  datatype Lookup = Found | Missing | Fails

  datatype Action =
    | Enqueue(m: Message)
    | Dequeue(w: nat)
    | LookUpFirm(w: nat, found: Lookup)
    | TryClaim(w: nat, at: int)
    | ClaimFails(w: nat)
    | RunEnds(w: nat, end: Option<RunEnd>)
    | Return(w: nat)
    | Die(w: nat)

  function Plugins(c: Config, e: Event): seq<string> {
    c.listening(e.trigger)
  }

  predicate Enabled(c: Config, s: World, a: Action) {
    match a
    case Enqueue(_) => true
    case Dequeue(w) => w < |s.hands| && s.hands[w].Idle? && s.list != []
    case LookUpFirm(w, _) => w < |s.hands| && s.hands[w].Looking?
    case TryClaim(w, at) => w < |s.hands| && AtGate(c, s.hands[w]) && s.clock <= at
    case ClaimFails(w) => w < |s.hands| && AtGate(c, s.hands[w])
    case RunEnds(w, _) => w < |s.hands| && s.hands[w].Busy? && s.hands[w].running
    case Return(w) => w < |s.hands| && s.hands[w].Busy? && !s.hands[w].running
                      && |s.hands[w].outcomes| == |Plugins(c, s.hands[w].event)|
    case Die(w) => w < |s.hands| && !s.hands[w].Idle?
  }

  predicate AtGate(c: Config, h: Hand) {
    h.Busy? && !h.running && |h.outcomes| < |Plugins(c, h.event)|
  }

  /** The worker lets go of its event, which ends so. */
  function Finish(s: World, w: nat, end: End): World
    requires w < |s.hands| && !s.hands[w].Idle?
  {
    s.(hands := s.hands[w := Idle], ends := s.ends[s.hands[w].item := end])
  }

  function Step(c: Config, s: World, a: Action): World
    requires Enabled(c, s, a)
  {
    match a
    case Enqueue(m) => s.(list := [m] + s.list, enqueued := s.enqueued + [m])
    case Dequeue(w) =>
      var m := s.list[|s.list| - 1];
      var s' := s.(list := s.list[..|s.list| - 1], taken := s.taken + 1);
      if m.Garbled? then s'.(ends := s.ends[s.taken := Undecodable])
      else s'.(hands := s.hands[w := Looking(s.taken, m.event)])
    case LookUpFirm(w, found) =>
      var h := s.hands[w];
      if Plugins(c, h.event) == [] then Finish(s, w, Returned([]))
      else if found == Missing then Finish(s, w, FirmMissing)
      else if found == Fails then Finish(s, w, Escaped)
      else s.(hands := s.hands[w := Busy(h.item, h.event, [], false)])
    case TryClaim(w, at) => Gate(c, s, w, at)
    case ClaimFails(w) => Finish(s, w, Escaped)
    case RunEnds(w, end) =>
      var h := s.hands[w];
      (match end
       case None => Finish(s, w, Escaped)
       case Some(o) => s.(hands := s.hands[w := h.(outcomes := h.outcomes + [o], running := false)]))
    case Return(w) => Finish(s, w, Returned(s.hands[w].outcomes))
    case Die(w) => Finish(s, w, Lost)
  }

  function GrantFor(c: Config, h: Hand, at: int): Grant
    requires AtGate(c, h)
  {
    Grant(h.item, |h.outcomes|, h.event.firmId, Plugins(c, h.event)[|h.outcomes|], DeriveDedupKey(h.event), at)
  }

  function Gate(c: Config, s: World, w: nat, at: int): World
    requires w < |s.hands| && AtGate(c, s.hands[w])
  {
    var h := s.hands[w];
    var g := GrantFor(c, h, at);
    var claim := Claim(s.keys, g.firmId, g.plugin, g.token, c.ttl, at);
    if claim.granted
    then s.(keys := claim.keys, grants := s.grants + [g], clock := at, hands := s.hands[w := h.(running := true)])
    else s.(clock := at, hands := s.hands[w := h.(outcomes := h.outcomes + [Deduped])])
  }

  function Init(c: Config): World {
    World([], map[], seq(c.workers, _ => Idle), [], 0, map[], [], 0)
  }

  ghost predicate IsRun(c: Config, actions: seq<Action>, states: seq<World>) {
    |states| == |actions| + 1 && states[0] == Init(c) &&
    forall i | 0 <= i < |actions| ::
      Enabled(c, states[i], actions[i]) && states[i + 1] == Step(c, states[i], actions[i])
  }

  // ----- events: in the list, in one worker's hands, or ended

  predicate ListInv(s: World) {
    s.taken + |s.list| == |s.enqueued| &&
    forall j | 0 <= j < |s.list| :: s.list[j] == s.enqueued[|s.enqueued| - 1 - j]
  }

  predicate Holds(h: Hand, item: nat) {
    !h.Idle? && h.item == item
  }

  predicate HandOk(c: Config, s: World, h: Hand) {
    !h.Idle? ==>
      h.item < s.taken <= |s.enqueued| && s.enqueued[h.item] == Good(h.event) && h.item !in s.ends &&
      (h.Busy? ==> |h.outcomes| <= |Plugins(c, h.event)| && (h.running ==> |h.outcomes| < |Plugins(c, h.event)|))
  }

  predicate EndOk(c: Config, m: Message, end: End) {
    (m == Garbled <==> end == Undecodable) &&
    (end.Returned? && m.Good? ==> |end.outcomes| == |Plugins(c, m.event)|)
  }

  /** An event that has left the list has ended, or some worker holds it. */
  predicate Placed(s: World, item: nat) {
    item in s.ends || exists w | 0 <= w < |s.hands| :: Holds(s.hands[w], item)
  }

  predicate HandsInv(c: Config, s: World) {
    s.taken <= |s.enqueued| &&
    (forall w | 0 <= w < |s.hands| :: HandOk(c, s, s.hands[w])) &&
    (forall w, v | 0 <= w < v < |s.hands| && !s.hands[w].Idle? :: !Holds(s.hands[v], s.hands[w].item)) &&
    (forall item | item in s.ends :: item < s.taken && EndOk(c, s.enqueued[item], s.ends[item])) &&
    forall item: nat | item < s.taken :: Placed(s, item)
  }

  // ----- the gate

  predicate SameClaim(g: Grant, h: Grant) {
    g.firmId == h.firmId && g.plugin == h.plugin && g.token == h.token && g.token.Some?
  }

  function KeyOf(g: Grant): string
    requires g.token.Some?
  {
    RedisKey(g.firmId, g.plugin, g.token.value)
  }

  predicate Spaced(c: Config, s: World) {
    forall i, j | 0 <= i < j < |s.grants| && SameClaim(s.grants[i], s.grants[j]) ::
      s.grants[i].at + c.ttl < s.grants[j].at
  }

  predicate KeysInv(c: Config, s: World) {
    (forall g | g in s.grants :: g.at <= s.clock) &&
    (forall g | g in s.grants && g.token.Some? :: KeyOf(g) in s.keys && g.at + c.ttl <= s.keys[KeyOf(g)]) &&
    forall key | key in s.keys :: exists g ::
      g in s.grants && g.token.Some? && KeyOf(g) == key && s.keys[key] == g.at + c.ttl
  }

  /** How far an event has come: grants exist only for positions before this. */
  predicate NotBeyond(s: World, g: Grant) {
    g.item < s.taken &&
    forall w | 0 <= w < |s.hands| && Holds(s.hands[w], g.item) ::
      s.hands[w].Busy? && g.position < |s.hands[w].outcomes| + if s.hands[w].running then 1 else 0
  }

  predicate OnceInv(s: World) {
    (forall g | g in s.grants :: NotBeyond(s, g)) &&
    forall i, j | 0 <= i < j < |s.grants| ::
      (s.grants[i].item, s.grants[i].position) != (s.grants[j].item, s.grants[j].position)
  }

  ghost predicate Inv(c: Config, s: World) {
    ListInv(s) && HandsInv(c, s) && KeysInv(c, s) && Spaced(c, s) && OnceInv(s)
  }

  lemma FinishKeeps(c: Config, s: World, w: nat, end: End)
    requires HandsInv(c, s) && OnceInv(s) && w < |s.hands| && !s.hands[w].Idle?
    requires EndOk(c, s.enqueued[s.hands[w].item], end)
    ensures HandsInv(c, Finish(s, w, end)) && OnceInv(Finish(s, w, end))
  {
    hide EndOk;
    var s' := Finish(s, w, end);
    forall item: nat | item < s'.taken ensures Placed(s', item) {
      assert Placed(s, item);
      if item !in s'.ends {
        var v :| 0 <= v < |s.hands| && Holds(s.hands[v], item);
        assert v != w && s'.hands[v] == s.hands[v];
      }
    }
    forall g | g in s'.grants ensures NotBeyond(s', g) {
      assert NotBeyond(s, g);
    }
  }

  /** A worker goes on with the event it holds. */
  lemma HandMovesKeeps(c: Config, s: World, w: nat, h: Hand)
    requires HandsInv(c, s) && OnceInv(s) && w < |s.hands| && !s.hands[w].Idle?
    requires !h.Idle? && h.item == s.hands[w].item && HandOk(c, s, h)
    requires forall g | g in s.grants && g.item == h.item ::
               h.Busy? && g.position < |h.outcomes| + if h.running then 1 else 0
    ensures var s' := s.(hands := s.hands[w := h]); HandsInv(c, s') && OnceInv(s')
  {
    hide EndOk;
    var s' := s.(hands := s.hands[w := h]);
    forall item: nat | item < s'.taken ensures Placed(s', item) {
      assert Placed(s, item);
      if item !in s'.ends {
        var v :| 0 <= v < |s.hands| && Holds(s.hands[v], item);
        assert Holds(s'.hands[v], item);
      }
    }
    forall g | g in s'.grants ensures NotBeyond(s', g) {
      assert NotBeyond(s, g);
    }
  }

  lemma DequeueKeeps(c: Config, s: World, w: nat)
    requires Inv(c, s) && Enabled(c, s, Dequeue(w))
    ensures Inv(c, Step(c, s, Dequeue(w)))
  {
    DequeueKeepsHands(c, s, w);
    hide HandsInv, OnceInv, RedisKey;
  }

  lemma DequeueKeepsHands(c: Config, s: World, w: nat)
    requires ListInv(s) && HandsInv(c, s) && OnceInv(s) && Enabled(c, s, Dequeue(w))
    ensures HandsInv(c, Step(c, s, Dequeue(w))) && OnceInv(Step(c, s, Dequeue(w)))
  {
    var s' := Step(c, s, Dequeue(w));
    assert s.list[|s.list| - 1] == s.enqueued[s.taken];
    hide Plugins, ListInv;
    forall item: nat | item < s'.taken ensures Placed(s', item) {
      if item < s.taken {
        assert Placed(s, item);
        if item !in s.ends {
          var v :| 0 <= v < |s.hands| && Holds(s.hands[v], item);
          assert v != w && s'.hands[v] == s.hands[v];
        }
      } else if item !in s'.ends {
        assert Holds(s'.hands[w], item);
      }
    }
    forall g | g in s'.grants ensures NotBeyond(s', g) {
      assert NotBeyond(s, g);
    }
  }

  lemma EnqueueKeeps(c: Config, s: World, m: Message)
    requires Inv(c, s)
    ensures Inv(c, Step(c, s, Enqueue(m)))
  {
    var s' := Step(c, s, Enqueue(m));
    forall item: nat | item < s'.taken ensures Placed(s', item) {
      assert Placed(s, item);
    }
    forall g | g in s'.grants ensures NotBeyond(s', g) {
      assert NotBeyond(s, g);
    }
  }

  /** The gate opens only when every earlier run of the same claim is more than a TTL back. */
  lemma GrantedIsSpaced(c: Config, s: World, g: Grant, at: int)
    requires KeysInv(c, s) && s.clock <= at && g.at == at
    requires Claim(s.keys, g.firmId, g.plugin, g.token, c.ttl, at).granted
    ensures forall h | h in s.grants && SameClaim(h, g) :: h.at + c.ttl < at
  {
  }

  lemma GrantKeepsSpaced(c: Config, s: World, g: Grant, at: int, s': World)
    requires KeysInv(c, s) && Spaced(c, s) && s.clock <= at && g.at == at
    requires Claim(s.keys, g.firmId, g.plugin, g.token, c.ttl, at).granted
    requires s'.grants == s.grants + [g] && s'.clock == at
    ensures Spaced(c, s')
  {
    hide RedisKey, Claim, KeysInv;
    GrantedIsSpaced(c, s, g, at);
  }

  lemma GrantKeepsKeys(c: Config, s: World, g: Grant, at: int, s': World)
    requires KeysInv(c, s) && s.clock <= at && g.at == at
    requires var claim := Claim(s.keys, g.firmId, g.plugin, g.token, c.ttl, at); claim.granted && s'.keys == claim.keys
    requires s'.grants == s.grants + [g] && s'.clock == at
    ensures KeysInv(c, s')
  {
    hide RedisKey;
    forall key | key in s'.keys
      ensures exists h :: h in s'.grants && h.token.Some? && KeyOf(h) == key && s'.keys[key] == h.at + c.ttl
    {
      if g.token.Some? && key == KeyOf(g) {
        assert g in s'.grants;
      } else {
        var h :| h in s.grants && h.token.Some? && KeyOf(h) == key && s.keys[key] == h.at + c.ttl;
        assert h in s'.grants;
      }
    }
  }

  lemma GateKeepsHands(c: Config, s: World, w: nat, at: int)
    requires HandsInv(c, s) && OnceInv(s) && Enabled(c, s, TryClaim(w, at))
    ensures var s' := Step(c, s, TryClaim(w, at)); HandsInv(c, s') && OnceInv(s')
  {
    hide Claim, DeriveDedupKey, EndOk, Placed;
    var s', h := Step(c, s, TryClaim(w, at)), s.hands[w];
    forall g | g in s.grants ensures g.item == h.item ==> g.position < |h.outcomes| {
      assert NotBeyond(s, g);
    }
    HandMovesKeeps(c, s, w, s'.hands[w]);
    var moved := s.(hands := s.hands[w := s'.hands[w]]);
    assert s'.hands == moved.hands;
    SameHands(c, moved, s');
    hide HandsInv;
    forall g | g in s'.grants ensures NotBeyond(s', g) {
      if g in s.grants {
        assert NotBeyond(moved, g);
      }
    }
  }

  lemma GateKeeps(c: Config, s: World, w: nat, at: int)
    requires Inv(c, s) && Enabled(c, s, TryClaim(w, at))
    ensures Inv(c, Step(c, s, TryClaim(w, at)))
  {
    hide HandsInv, OnceInv, Claim, DeriveDedupKey, RedisKey;
    GateKeepsHands(c, s, w, at);
    var s', g := Step(c, s, TryClaim(w, at)), GrantFor(c, s.hands[w], at);
    if Claim(s.keys, g.firmId, g.plugin, g.token, c.ttl, at).granted {
      GrantKeepsKeys(c, s, g, at, s');
      GrantKeepsSpaced(c, s, g, at, s');
    }
  }

  lemma SameHands(c: Config, s: World, s': World)
    requires HandsInv(c, s) && s'.hands == s.hands && s'.taken == s.taken && s'.enqueued == s.enqueued &&
             s'.ends == s.ends
    ensures HandsInv(c, s')
  {
    hide EndOk;
    forall item: nat | item < s'.taken ensures Placed(s', item) {
      assert Placed(s, item);
    }
  }

  lemma FinishKeepsInv(c: Config, s: World, w: nat, end: End)
    requires Inv(c, s) && w < |s.hands| && !s.hands[w].Idle?
    requires EndOk(c, s.enqueued[s.hands[w].item], end)
    ensures Inv(c, Finish(s, w, end))
  {
    FinishKeeps(c, s, w, end);
    hide HandsInv, OnceInv, EndOk, RedisKey;
  }

  lemma LookUpKeeps(c: Config, s: World, w: nat, found: Lookup)
    requires Inv(c, s) && Enabled(c, s, LookUpFirm(w, found))
    ensures Inv(c, Step(c, s, LookUpFirm(w, found)))
  {
    var h := s.hands[w];
    if Plugins(c, h.event) == [] {
      FinishKeepsInv(c, s, w, Returned([]));
    } else if found != Found {
      FinishKeepsInv(c, s, w, if found == Missing then FirmMissing else Escaped);
    } else {
      forall g | g in s.grants ensures g.item != h.item {
        assert NotBeyond(s, g);
      }
      HandMovesKeeps(c, s, w, Busy(h.item, h.event, [], false));
      hide HandsInv, OnceInv, RedisKey;
    }
  }

  lemma RunEndsKeeps(c: Config, s: World, w: nat, end: Option<RunEnd>)
    requires Inv(c, s) && Enabled(c, s, RunEnds(w, end))
    ensures Inv(c, Step(c, s, RunEnds(w, end)))
  {
    var h := s.hands[w];
    match end {
      case None => FinishKeepsInv(c, s, w, Escaped);
      case Some(o) =>
        forall g | g in s.grants && g.item == h.item ensures g.position < |h.outcomes| + 1 {
          assert NotBeyond(s, g);
        }
        HandMovesKeeps(c, s, w, h.(outcomes := h.outcomes + [o], running := false));
        hide HandsInv, OnceInv, RedisKey;
    }
  }

  lemma StepKeepsInv(c: Config, s: World, a: Action)
    requires Inv(c, s) && Enabled(c, s, a)
    ensures Inv(c, Step(c, s, a))
  {
    hide OnceInv, ListInv, KeysInv, Gate, Finish;
    match a {
      case Enqueue(m) => EnqueueKeeps(c, s, m);
      case Dequeue(w) => DequeueKeeps(c, s, w);
      case LookUpFirm(w, found) => LookUpKeeps(c, s, w, found);
      case TryClaim(w, at) => GateKeeps(c, s, w, at);
      case ClaimFails(w) => FinishKeepsInv(c, s, w, Escaped);
      case RunEnds(w, end) => RunEndsKeeps(c, s, w, end);
      case Return(w) => FinishKeepsInv(c, s, w, Returned(s.hands[w].outcomes));
      case Die(w) => FinishKeepsInv(c, s, w, Lost);
    }
  }

  lemma {:induction false} InvAlways(c: Config, actions: seq<Action>, states: seq<World>, n: nat)
    requires IsRun(c, actions, states) && n < |states|
    ensures Inv(c, states[n])
  {
    if n > 0 {
      InvAlways(c, actions, states, n - 1);
      assert Enabled(c, states[n - 1], actions[n - 1]) && states[n - 1 + 1] == Step(c, states[n - 1], actions[n - 1]);
      StepKeepsInv(c, states[n - 1], actions[n - 1]);
    }
  }

  // ----- over every run

  /** However many workers, duplicates and restarts: two runs that the gate let through for
      the same firm, plugin and token are more than the time-to-live apart, and no event is
      given to the same plugin twice even when it has no token. */
  lemma RunsAreSpaced(c: Config, actions: seq<Action>, states: seq<World>, n: nat, i: nat, j: nat)
    requires IsRun(c, actions, states) && n < |states| && i < j < |states[n].grants|
    ensures var g, h := states[n].grants[i], states[n].grants[j];
            (SameClaim(g, h) ==> h.at - g.at > c.ttl) && (g.item != h.item || g.position != h.position)
  {
    InvAlways(c, actions, states, n);
    var g, h := states[n].grants[i], states[n].grants[j];
    assert (g.item, g.position) != (h.item, h.position);
  }

  /** And the gate never refuses without reason: it opens exactly when no run of the same
      claim was let through within the time-to-live. */
  lemma GateOpensIff(c: Config, actions: seq<Action>, states: seq<World>, n: nat, g: Grant)
    requires IsRun(c, actions, states) && n < |states| && states[n].clock <= g.at && g.token.Some?
    requires forall h | h in states[n].grants + [g] :: NoColon(h.firmId) && NoColon(h.plugin)
    ensures Claim(states[n].keys, g.firmId, g.plugin, g.token, c.ttl, g.at).granted
       <==> !exists h :: h in states[n].grants && SameClaim(h, g) && g.at <= h.at + c.ttl
  {
    InvAlways(c, actions, states, n);
    GateOpensInState(c, states[n], g);
  }

  lemma GateOpensInState(c: Config, s: World, g: Grant)
    requires KeysInv(c, s) && s.clock <= g.at && g.token.Some?
    requires forall h | h in s.grants + [g] :: NoColon(h.firmId) && NoColon(h.plugin)
    ensures Claim(s.keys, g.firmId, g.plugin, g.token, c.ttl, g.at).granted
       <==> !exists h :: h in s.grants && SameClaim(h, g) && g.at <= h.at + c.ttl
  {
    assert g in s.grants + [g];
    hide NoColon;
    if Claim(s.keys, g.firmId, g.plugin, g.token, c.ttl, g.at).granted {
      GrantedIsSpaced(c, s, g, g.at);
    } else {
      var h :| h in s.grants && h.token.Some? && KeyOf(h) == KeyOf(g) && s.keys[KeyOf(g)] == h.at + c.ttl;
      assert h in s.grants + [g];
      assert RedisKey(h.firmId, h.plugin, h.token.value) == KeyOf(h) == KeyOf(g) ==
               RedisKey(g.firmId, g.plugin, g.token.value);
      KeysIdentifyClaims(h.firmId, h.plugin, h.token.value, g.firmId, g.plugin, g.token.value);
      assert SameClaim(h, g);
    }
  }

  /** Events leave in the order they were enqueued, and none is lost or handed out twice: the
      first `taken` have each ended or are with exactly one worker, the rest are in the list. */
  lemma EventsAreConserved(c: Config, actions: seq<Action>, states: seq<World>, n: nat, item: nat)
    requires IsRun(c, actions, states) && n < |states| && item < |states[n].enqueued|
    ensures states[n].taken + |states[n].list| == |states[n].enqueued|
    ensures var s := states[n];
            if item < s.taken
            then (item in s.ends <==> !exists w :: 0 <= w < |s.hands| && Holds(s.hands[w], item)) &&
                 (forall w, v | 0 <= w < |s.hands| && 0 <= v < |s.hands| &&
                                Holds(s.hands[w], item) && Holds(s.hands[v], item) :: w == v) &&
                 (forall w | 0 <= w < |s.hands| && Holds(s.hands[w], item) ::
                    s.enqueued[item] == Good(s.hands[w].event))
            else item !in s.ends && s.list[|s.enqueued| - 1 - item] == s.enqueued[item]
  {
    InvAlways(c, actions, states, n);
    var s := states[n];
    if item < s.taken {
      assert Placed(s, item);
      if item in s.ends {
        forall w | 0 <= w < |s.hands| ensures !Holds(s.hands[w], item) {
          assert HandOk(c, s, s.hands[w]);
        }
      }
      assert forall w, v | 0 <= w < v < |s.hands| && !s.hands[w].Idle? :: !Holds(s.hands[v], s.hands[w].item);
      forall w | 0 <= w < |s.hands| && Holds(s.hands[w], item) ensures s.enqueued[item] == Good(s.hands[w].event) {
        assert HandOk(c, s, s.hands[w]);
      }
    }
  }

  /** When `process_event` returns with the firm found, every listening plugin has exactly
      one entry among its results and skips. */
  lemma ReturnedCoversEveryPlugin(c: Config, actions: seq<Action>, states: seq<World>, n: nat, item: nat)
    requires IsRun(c, actions, states) && n < |states|
    requires item in states[n].ends && states[n].ends[item].Returned?
    ensures var s := states[n];
            item < |s.enqueued| && s.enqueued[item].Good? &&
            var plugins, outcomes := Plugins(c, s.enqueued[item].event), s.ends[item].outcomes;
            |outcomes| == |plugins| && |RunResults(outcomes)| + |Skipped(plugins, outcomes)| == |plugins|
  {
    InvAlways(c, actions, states, n);
    var s := states[n];
    assert EndOk(c, s.enqueued[item], s.ends[item]);
    var plugins, outcomes := Plugins(c, s.enqueued[item].event), s.ends[item].outcomes;
    if |outcomes| > 0 {
      EachPluginOnce(plugins, outcomes, 0);
    }
  }

  // ----- the fan-out of one event, as steps of its worker

  predicate Runs(c: Config, s: World, actions: seq<Action>)
    decreases |actions|, 0
  {
    actions == [] ||
    (Runs(c, s, actions[..|actions| - 1]) && Enabled(c, After(c, s, actions[..|actions| - 1]), actions[|actions| - 1]))
  }

  function After(c: Config, s: World, actions: seq<Action>): World
    requires Runs(c, s, actions)
    decreases |actions|, 1
  {
    if actions == [] then s
    else Step(c, After(c, s, actions[..|actions| - 1]), actions[|actions| - 1])
  }

  lemma OneMore(c: Config, s: World, actions: seq<Action>, a: Action)
    requires Runs(c, s, actions) && Enabled(c, After(c, s, actions), a)
    ensures Runs(c, s, actions + [a]) && After(c, s, actions + [a]) == Step(c, After(c, s, actions), a)
  {
    assert (actions + [a])[..|actions|] == actions;
  }

  lemma {:induction false} StepsKeepInv(c: Config, s: World, actions: seq<Action>)
    requires Inv(c, s) && Runs(c, s, actions)
    ensures Inv(c, After(c, s, actions))
    decreases |actions|
  {
    hide Inv, Enabled, Step;
    if actions != [] {
      StepsKeepInv(c, s, actions[..|actions| - 1]);
      StepKeepsInv(c, After(c, s, actions[..|actions| - 1]), actions[|actions| - 1]);
    }
  }

  /** One turn of `_run_one_plugin` is a claim, and the end of the run if it is granted. */
  lemma PluginIsSteps(c: Config, s: World, w: nat, at: int, end: Option<RunEnd>)
    requires w < |s.hands| && AtGate(c, s.hands[w]) && s.clock <= at
    ensures var h := s.hands[w];
            var g := GrantFor(c, h, at);
            var f := PluginStep(Fan(h.outcomes, s.keys, false), h.event, g.plugin, c.ttl, at, end);
            var claimed := Step(c, s, TryClaim(w, at));
            if !claimed.hands[w].running
            then !f.raised && f.outcomes == h.outcomes + [Deduped] &&
                 claimed == s.(keys := f.keys, clock := at, hands := s.hands[w := h.(outcomes := f.outcomes)])
            else Enabled(c, claimed, RunEnds(w, end)) &&
                 f.outcomes == h.outcomes + (if f.raised then [] else [end.value]) &&
                 Step(c, claimed, RunEnds(w, end)) ==
                 s.(keys := f.keys, clock := at, grants := s.grants + [g],
                    hands := s.hands[w := if f.raised then Idle else h.(outcomes := f.outcomes)],
                    ends := if f.raised then s.ends[h.item := Escaped] else s.ends)
  {
    hide RedisKey, DeriveDedupKey;
    assert s.hands[w].outcomes + [] == s.hands[w].outcomes;
  }

  /** The worker's steps for the event's first `n` plugins. */
  function FanActions(c: Config, event: Event, keys: Keyspace, w: nat, clock: nat -> int,
                      ends: nat -> Option<RunEnd>, n: nat): seq<Action>
    requires n <= |Plugins(c, event)|
  {
    if n == 0 then []
    else
      var front := FanActions(c, event, keys, w, clock, ends, n - 1);
      var f := FanOut(event, Plugins(c, event), keys, c.ttl, clock, ends, n - 1);
      if f.raised then front
      else if Claim(f.keys, event.firmId, Plugins(c, event)[n - 1], DeriveDedupKey(event), c.ttl, clock(n - 1)).granted
      then front + [TryClaim(w, clock(n - 1)), RunEnds(w, ends(n - 1))]
      else front + [TryClaim(w, clock(n - 1))]
  }

  /** The clock does not run backwards, from the state's on. */
  ghost predicate Ticks(s: World, clock: nat -> int) {
    (forall i: nat :: s.clock <= clock(i)) && forall i: nat, j: nat | i <= j :: clock(i) <= clock(j)
  }

  /** The grant of the event's k-th plugin. */
  function GrantOf(c: Config, item: nat, event: Event, clock: nat -> int, k: nat): Grant
    requires k < |Plugins(c, event)|
  {
    Grant(item, k, event.firmId, Plugins(c, event)[k], DeriveDedupKey(event), clock(k))
  }

  /** `s'` is the state after the event's fan-out has come to `f`. */
  ghost predicate FannedOut(c: Config, s: World, w: nat, clock: nat -> int, f: Fan, s': World)
    requires w < |s.hands| && s.hands[w].Busy? && |f.outcomes| <= |Plugins(c, s.hands[w].event)|
  {
    var h := s.hands[w];
    s'.keys == f.keys && s'.list == s.list && s'.enqueued == s.enqueued && s'.taken == s.taken &&
    s'.hands == s.hands[w := if f.raised then Idle else h.(outcomes := f.outcomes)] &&
    s'.ends == (if f.raised then s.ends[h.item := Escaped] else s.ends) &&
    s.grants <= s'.grants &&
    forall k | 0 <= k < |f.outcomes| && f.outcomes[k] != Deduped ::
      exists i | |s.grants| <= i < |s'.grants| :: s'.grants[i] == GrantOf(c, h.item, h.event, clock, k)
  }

  /** One more plugin. */
  lemma OneMoreFannedOut(c: Config, s: World, w: nat, clock: nat -> int, f: Fan, t: World, end: Option<RunEnd>)
    requires w < |s.hands| && s.hands[w].Busy? && !s.hands[w].running && s.hands[w].outcomes == []
    requires |f.outcomes| < |Plugins(c, s.hands[w].event)| && !f.raised && FannedOut(c, s, w, clock, f, t)
    requires t.clock <= clock(|f.outcomes|)
    ensures w < |t.hands| && AtGate(c, t.hands[w])
    ensures var h, k := s.hands[w], |f.outcomes|;
            var claimed := Step(c, t, TryClaim(w, clock(k)));
            var g := PluginStep(f, h.event, Plugins(c, h.event)[k], c.ttl, clock(k), end);
            var granted := claimed.hands[w].running;
            t.keys == f.keys && w < |claimed.hands| && claimed.hands[w].Busy? &&
            (granted <==> Claim(f.keys, h.event.firmId, Plugins(c, h.event)[k], DeriveDedupKey(h.event), c.ttl,
                                clock(k)).granted) &&
            (granted ==> Enabled(c, claimed, RunEnds(w, end))) &&
            var t' := if granted then Step(c, claimed, RunEnds(w, end)) else claimed;
            |g.outcomes| <= |Plugins(c, h.event)| && FannedOut(c, s, w, clock, g, t') && t'.clock == clock(k)
  {
    hide RedisKey, DeriveDedupKey, Claim, PluginStep, Step;
    var h, k := s.hands[w], |f.outcomes|;
    assert t.hands[w] == h.(outcomes := f.outcomes);
    ClaimTells(c, t, w, clock(k));
    PluginIsSteps(c, t, w, clock(k), end);
    assert Fan(t.hands[w].outcomes, t.keys, false) == f;
    var claimed := Step(c, t, TryClaim(w, clock(k)));
    var g := PluginStep(f, h.event, Plugins(c, h.event)[k], c.ttl, clock(k), end);
    if claimed.hands[w].running {
      var t' := Step(c, claimed, RunEnds(w, end));
      assert t'.grants == t.grants + [GrantOf(c, h.item, h.event, clock, k)];
      assert t'.grants[|t.grants|] == GrantOf(c, h.item, h.event, clock, k);
      forall j | 0 <= j < |f.outcomes| && f.outcomes[j] != Deduped
        ensures exists i | |s.grants| <= i < |t'.grants| :: t'.grants[i] == GrantOf(c, h.item, h.event, clock, j)
      {
        var i :| |s.grants| <= i < |t.grants| && t.grants[i] == GrantOf(c, h.item, h.event, clock, j);
        assert t'.grants[i] == t.grants[i];
      }
    }
  }

  lemma ClaimTells(c: Config, s: World, w: nat, at: int)
    requires w < |s.hands| && AtGate(c, s.hands[w]) && s.clock <= at
    ensures var h := s.hands[w];
            Step(c, s, TryClaim(w, at)).hands[w].running <==>
            Claim(s.keys, h.event.firmId, Plugins(c, h.event)[|h.outcomes|], DeriveDedupKey(h.event), c.ttl, at).granted
  {
  }

  /** `process_event`'s loop is a sequence of its worker's steps, which end in the same
      keyspace, entries and, if an exception escapes, in the same end of the event. */
  lemma {:induction false} FanOutIsSteps(c: Config, s: World, w: nat, clock: nat -> int,
                                         ends: nat -> Option<RunEnd>, n: nat)
    requires w < |s.hands| && s.hands[w].Busy? && !s.hands[w].running && s.hands[w].outcomes == []
    requires n <= |Plugins(c, s.hands[w].event)| && Ticks(s, clock)
    ensures var h := s.hands[w];
            var actions := FanActions(c, h.event, s.keys, w, clock, ends, n);
            Runs(c, s, actions) &&
            FannedOut(c, s, w, clock, FanOut(h.event, Plugins(c, h.event), s.keys, c.ttl, clock, ends, n),
                      After(c, s, actions)) &&
            (n > 0 ==> After(c, s, actions).clock <= clock(n - 1)) && (n == 0 ==> After(c, s, actions) == s)
  {
    hide RedisKey, DeriveDedupKey, Claim, PluginStep, Step, FannedOut, Enabled, Runs, After;
    var h := s.hands[w];
    if n == 0 {
      NotYetFannedOut(c, s, w, clock);
    } else {
      FanOutIsSteps(c, s, w, clock, ends, n - 1);
      var front := FanActions(c, h.event, s.keys, w, clock, ends, n - 1);
      var f := FanOut(h.event, Plugins(c, h.event), s.keys, c.ttl, clock, ends, n - 1);
      var t := After(c, s, front);
      if !f.raised {
        OneMoreFannedOut(c, s, w, clock, f, t, ends(n - 1));
        StepsGoOn(c, s, front, w, clock(n - 1), ends(n - 1));
      }
    }
  }

  /** A claim, and the end of the run if it is granted, after some steps. */
  lemma StepsGoOn(c: Config, s: World, front: seq<Action>, w: nat, at: int, end: Option<RunEnd>)
    requires Runs(c, s, front)
    requires var t := After(c, s, front); w < |t.hands| && AtGate(c, t.hands[w]) && t.clock <= at
    ensures var t := After(c, s, front);
            var claimed := Step(c, t, TryClaim(w, at));
            w < |claimed.hands| && claimed.hands[w].Busy? &&
            if claimed.hands[w].running
            then var steps := front + [TryClaim(w, at), RunEnds(w, end)];
                 Enabled(c, claimed, RunEnds(w, end)) && Runs(c, s, steps) &&
                 After(c, s, steps) == Step(c, claimed, RunEnds(w, end))
            else Runs(c, s, front + [TryClaim(w, at)]) && After(c, s, front + [TryClaim(w, at)]) == claimed
  {
    hide Runs, After, Claim, DeriveDedupKey;
    var claimed := front + [TryClaim(w, at)];
    OneMore(c, s, front, TryClaim(w, at));
    if After(c, s, claimed).hands[w].running {
      OneMore(c, s, claimed, RunEnds(w, end));
      assert claimed + [RunEnds(w, end)] == front + [TryClaim(w, at), RunEnds(w, end)];
    }
  }

  lemma NotYetFannedOut(c: Config, s: World, w: nat, clock: nat -> int)
    requires w < |s.hands| && s.hands[w].Busy? && s.hands[w].outcomes == []
    ensures FannedOut(c, s, w, clock, Fan([], s.keys, false), s) && Runs(c, s, []) && After(c, s, []) == s
  {
  }

  /** So at-most-once holds of `process_event`, at any point of any run: what it lets through is
      more than the time-to-live after every run let through before for the same firm, plugin
      and token. */
  lemma FanOutIsSpaced(c: Config, actions: seq<Action>, states: seq<World>, n: nat, w: nat, clock: nat -> int,
                       ends: nat -> Option<RunEnd>, k: nat, g: Grant)
    requires IsRun(c, actions, states) && n < |states| && w < |states[n].hands| && Ticks(states[n], clock)
    requires var h := states[n].hands[w]; h.Busy? && !h.running && h.outcomes == []
    requires var event := states[n].hands[w].event;
             var f := FanOut(event, Plugins(c, event), states[n].keys, c.ttl, clock, ends, |Plugins(c, event)|);
             k < |f.outcomes| && f.outcomes[k] != Deduped
    requires g in states[n].grants
    requires var h := states[n].hands[w]; SameClaim(g, GrantOf(c, h.item, h.event, clock, k))
    ensures clock(k) - g.at > c.ttl
  {
    hide IsRun, FanOut, FanActions, Ticks;
    var s := states[n];
    var h := s.hands[w];
    var N := |Plugins(c, h.event)|;
    InvAlways(c, actions, states, n);
    FanOutIsSteps(c, s, w, clock, ends, N);
    var steps := FanActions(c, h.event, s.keys, w, clock, ends, N);
    StepsKeepInv(c, s, steps);
    var s' := After(c, s, steps);
    var i :| 0 <= i < |s.grants| && s.grants[i] == g;
    var j :| |s.grants| <= j < |s'.grants| && s'.grants[j] == GrantOf(c, h.item, h.event, clock, k);
    assert s'.grants[i] == g && Spaced(c, s');
  }
}
