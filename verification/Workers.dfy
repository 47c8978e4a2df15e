/** The plugin workers: a shared Redis list of events, any number of workers, and a gate of
    expiring keys that lets each plugin see an event once. */
module Workers {
  import opened Wrappers

  /* The main results hold on every interleaving of enqueues and workers: two granted runs for
     the same firm, plugin and dedup token are more than the time-to-live apart; an event is in
     the list, in one worker's hands or ended, and events leave in the order they came; and
     `process_event` gives every listening plugin exactly one entry. */

  /** `messageId` and `scheduledAt` are present when the event data holds a string there. */
  datatype Event = Event(firmId: string, trigger: string, messageId: Option<string>, scheduledAt: Option<string>)

  /** What a list entry decodes to. */
  datatype Message = Good(event: Event) | Garbled

  datatype Outcome = Deduped | NotInstalled | Disabled | ConfigError | Crashed | Ran(result: int)

  /** How an execution that was let through ends. */
  type RunEnd = o: Outcome | o != Deduped witness Crashed

  // ----- the event list

  /** The waiting messages, oldest first. */
  function Waiting(list: seq<Message>): seq<Message> {
    if list == [] then [] else Waiting(list[1..]) + [list[0]]
  }

  /** Pushed at the left, popped at the right. */
  class PluginEventQueue {
    var list: seq<Message>

    constructor ()
      ensures list == []
    {
      list := [];
    }

    method Enqueue(m: Message)
      modifies this
      ensures list == [m] + old(list) && Waiting(list) == Waiting(old(list)) + [m]
    {
      list := [m] + list;
    }

    /** The oldest message, or None when nothing has come before the timeout. */
    method Dequeue() returns (m: Option<Message>)
      modifies this
      ensures old(list) == [] ==> m == None && list == []
      ensures old(list) != [] ==> m.Some? && Waiting(old(list)) == [m.value] + Waiting(list)
    {
      if list == [] {
        return None;
      }
      OldestIsLast(list);
      m := Some(list[|list| - 1]);
      list := list[..|list| - 1];
    }
  }

  lemma {:induction false} OldestIsLast(list: seq<Message>)
    requires list != []
    ensures Waiting(list) == [list[|list| - 1]] + Waiting(list[..|list| - 1])
  {
    if |list| > 1 {
      OldestIsLast(list[1..]);
      assert list[..|list| - 1][1..] == list[1..][..|list| - 2];
    }
  }

  // ----- the dedup gate

  function Prefixed(kind: string, id: Option<string>): Option<string> {
    match id
    case Some(s) => if s == "" then None else Some(kind + ":" + s)
    case None => None
  }

  function DeriveDedupKey(e: Event): Option<string> {
    if e.trigger == "email_received" then Prefixed("email", e.messageId)
    else if e.trigger == "calendar_event" then Prefixed("calendar", e.messageId)
    else if e.trigger == "scheduled" then Prefixed("scheduled", e.scheduledAt)
    else None
  }

  function RedisKey(firmId: string, plugin: string, token: string): string {
    "plugin_dedup:" + (firmId + ":" + (plugin + ":" + token))
  }

  /** The keyspace maps a key to the last instant at which it is still held. */
  type Keyspace = map<string, int>

  predicate Live(keys: Keyspace, key: string, at: int) {
    key in keys && at <= keys[key]
  }

  datatype ClaimResult = ClaimResult(granted: bool, keys: Keyspace)

  function Claim(keys: Keyspace, firmId: string, plugin: string, token: Option<string>, ttl: nat,
                 at: int): ClaimResult {
    match token
    case None => ClaimResult(true, keys)
    case Some(t) =>
      var key := RedisKey(firmId, plugin, t);
      if Live(keys, key, at) then ClaimResult(false, keys) else ClaimResult(true, keys[key := at + ttl])
  }

  class PluginRunDedup {
    const ttl: nat
    var keys: Keyspace

    constructor (ttl: nat)
      ensures this.ttl == ttl && keys == map[]
    {
      this.ttl := ttl;
      keys := map[];
    }

    method ClaimRun(event: Event, plugin: string, at: int) returns (granted: bool)
      modifies this
      ensures ClaimResult(granted, keys) == Claim(old(keys), event.firmId, plugin, DeriveDedupKey(event), ttl, at)
    {
      var token := DeriveDedupKey(event);
      if token == None {
        return true;
      }
      var key := RedisKey(event.firmId, plugin, token.value);
      if key in keys && at <= keys[key] {
        return false;
      }
      keys := keys[key := at + ttl];
      return true;
    }
  }

  predicate NoColon(s: string) {
    ':' !in s
  }

  lemma SplitAtColon(a: string, x: string, b: string, y: string)
    requires NoColon(a) && NoColon(b) && a + ":" + x == b + ":" + y
    ensures a == b && x == y
  {
    var s := a + ":" + x;
    assert s[|a|] == ':' && s[|b|] == ':';
    assert forall k | 0 <= k < |a| :: s[k] == a[k] && a[k] in a;
    assert forall k | 0 <= k < |b| :: s[k] == b[k] && b[k] in b;
    assert a == s[..|a|] && b == s[..|b|] && x == s[|a| + 1..] && y == s[|b| + 1..];
  }

  /** Firm ids are UUIDs and plugin names identifiers: neither holds a colon, so a key names
      one firm, one plugin and one token. */
  lemma KeysIdentifyClaims(firm: string, plugin: string, token: string, firm': string, plugin': string, token': string)
    requires NoColon(firm) && NoColon(plugin) && NoColon(firm') && NoColon(plugin')
    requires RedisKey(firm, plugin, token) == RedisKey(firm', plugin', token')
    ensures firm == firm' && plugin == plugin' && token == token'
  {
    var prefix := "plugin_dedup:";
    var rest, rest' := firm + ":" + (plugin + ":" + token), firm' + ":" + (plugin' + ":" + token');
    assert rest == (prefix + rest)[|prefix|..] && rest' == (prefix + rest')[|prefix|..];
    SplitAtColon(firm, plugin + ":" + token, firm', plugin' + ":" + token');
    SplitAtColon(plugin, token, plugin', token');
  }

  /** An event has a token exactly when its trigger is one of three and it comes with a non-empty
      id; two events share one exactly when they repeat the same trigger for the same id. */
  lemma TokensIdentifyEvents(e: Event, f: Event)
    ensures DeriveDedupKey(e).Some? <==>
              ((e.trigger == "email_received" || e.trigger == "calendar_event") && Given(e.messageId)) ||
              (e.trigger == "scheduled" && Given(e.scheduledAt))
    ensures DeriveDedupKey(e).Some? ==>
              (DeriveDedupKey(e) == DeriveDedupKey(f) <==>
                 (e.trigger == f.trigger &&
                  if e.trigger == "scheduled" then e.scheduledAt == f.scheduledAt else e.messageId == f.messageId))
  {
    if DeriveDedupKey(e).Some? {
      SameTokenSameId(e, f);
    }
  }

  predicate Given(id: Option<string>) {
    id.Some? && |id.value| > 0
  }

  lemma SameTokenSameId(e: Event, f: Event)
    requires DeriveDedupKey(e).Some?
    ensures DeriveDedupKey(e) == DeriveDedupKey(f) <==>
              (e.trigger == f.trigger &&
               if e.trigger == "scheduled" then e.scheduledAt == f.scheduledAt else e.messageId == f.messageId)
  {
    if DeriveDedupKey(e) == DeriveDedupKey(f) {
      var kind := if e.trigger == "email_received" then "email"
                  else if e.trigger == "calendar_event" then "calendar" else "scheduled";
      var kind' := if f.trigger == "email_received" then "email"
                   else if f.trigger == "calendar_event" then "calendar" else "scheduled";
      var id := if e.trigger == "scheduled" then e.scheduledAt.value else e.messageId.value;
      var id' := if f.trigger == "scheduled" then f.scheduledAt.value else f.messageId.value;
      SplitAtColon(kind, id, kind', id');
      assert kind[0] == kind'[0];
    }
  }

  // ----- one event fanned out to its plugins

  function Label(o: RunEnd): string
    requires !o.Ran?
  {
    match o
    case NotInstalled => "not_installed"
    case Disabled => "disabled"
    case ConfigError => "config_error"
    case Crashed => "crashed"
  }

  function SkipNote(plugin: string, o: Outcome): string
    requires !o.Ran?
  {
    plugin + ": " + if o == Deduped then "deduped" else Label(o)
  }

  /** A note tells which plugin was skipped and why. */
  lemma NotesTell(plugin: string, o: Outcome, plugin': string, o': Outcome)
    requires !o.Ran? && !o'.Ran? && NoColon(plugin) && NoColon(plugin')
    requires SkipNote(plugin, o) == SkipNote(plugin', o')
    ensures plugin == plugin' && o == o'
  {
    hide Label;
    var why, why' := if o == Deduped then "deduped" else Label(o), if o' == Deduped then "deduped" else Label(o');
    assert SkipNote(plugin, o) == plugin + ":" + (" " + why);
    assert SkipNote(plugin', o') == plugin' + ":" + (" " + why');
    SplitAtColon(plugin, " " + why, plugin', " " + why');
    assert why == (" " + why)[1..] == (" " + why')[1..] == why';
    if o != o' {
      ReasonsDiffer(o, o');
    }
  }

  lemma ReasonsDiffer(o: Outcome, o': Outcome)
    requires !o.Ran? && !o'.Ran? && o != o'
    ensures (if o == Deduped then "deduped" else Label(o)) != (if o' == Deduped then "deduped" else Label(o'))
  {
    var why, why' := if o == Deduped then "deduped" else Label(o), if o' == Deduped then "deduped" else Label(o');
    assert |why| == |why'| ==> why[0] != why'[0];
  }

  function RunResults(outcomes: seq<Outcome>): seq<int> {
    if outcomes == [] then []
    else
      var rest, last := RunResults(outcomes[..|outcomes| - 1]), outcomes[|outcomes| - 1];
      if last.Ran? then rest + [last.result] else rest
  }

  function Skipped(plugins: seq<string>, outcomes: seq<Outcome>): seq<string>
    requires |outcomes| <= |plugins|
  {
    if outcomes == [] then []
    else
      var k := |outcomes| - 1;
      var rest := Skipped(plugins, outcomes[..k]);
      if outcomes[k].Ran? then rest else rest + [SkipNote(plugins[k], outcomes[k])]
  }

  lemma TallyStep(plugins: seq<string>, outcomes: seq<Outcome>, o: Outcome)
    requires |outcomes| < |plugins|
    ensures RunResults(outcomes + [o]) == if o.Ran? then RunResults(outcomes) + [o.result] else RunResults(outcomes)
    ensures o.Ran? ==> Skipped(plugins, outcomes + [o]) == Skipped(plugins, outcomes)
    ensures !o.Ran? ==>
              Skipped(plugins, outcomes + [o]) == Skipped(plugins, outcomes) + [SkipNote(plugins[|outcomes|], o)]
  {
    assert (outcomes + [o])[..|outcomes|] == outcomes;
  }

  /** Every plugin is in exactly one of the two lists, in the plugins' order. */
  lemma {:induction false} EachPluginOnce(plugins: seq<string>, outcomes: seq<Outcome>, k: nat)
    requires k < |outcomes| <= |plugins|
    ensures |RunResults(outcomes)| + |Skipped(plugins, outcomes)| == |outcomes|
    ensures var ran := |RunResults(outcomes[..k])|;
            if outcomes[k].Ran?
            then ran < |RunResults(outcomes)| && RunResults(outcomes)[ran] == outcomes[k].result
            else 0 <= k - ran < |Skipped(plugins, outcomes)| &&
                 Skipped(plugins, outcomes)[k - ran] == SkipNote(plugins[k], outcomes[k])
  {
    var n := |outcomes| - 1;
    if n > 0 {
      EachPluginOnce(plugins, outcomes[..n], if k < n then k else 0);
    }
    if k < n {
      assert outcomes[..n][..k] == outcomes[..k];
    }
  }

  /** The state of a fan-out after some plugins; `raised` when an exception escaped. */
  datatype Fan = Fan(outcomes: seq<Outcome>, keys: Keyspace, raised: bool)

  function PluginStep(f: Fan, event: Event, plugin: string, ttl: nat, at: int, end: Option<RunEnd>): Fan {
    var c := Claim(f.keys, event.firmId, plugin, DeriveDedupKey(event), ttl, at);
    if !c.granted then Fan(f.outcomes + [Deduped], c.keys, false)
    else
      match end
      case None => Fan(f.outcomes, c.keys, true)
      case Some(o) => Fan(f.outcomes + [o], c.keys, false)
  }

  function FanOut(event: Event, plugins: seq<string>, keys: Keyspace, ttl: nat,
                  clock: nat -> int, ends: nat -> Option<RunEnd>, n: nat): (f: Fan)
    requires n <= |plugins|
    ensures |f.outcomes| <= n && (!f.raised ==> |f.outcomes| == n)
  {
    if n == 0 then Fan([], keys, false)
    else
      var f := FanOut(event, plugins, keys, ttl, clock, ends, n - 1);
      if f.raised then f else PluginStep(f, event, plugins[n - 1], ttl, clock(n - 1), ends(n - 1))
  }

  /** What becomes of the n-th plugin, told from the keyspace: it is skipped exactly when the
      event has a token and the plugin's key for it is held; otherwise it is run, and its run
      sets the key.  No other plugin of the event touches that key. */
  lemma EntryTells(event: Event, plugins: seq<string>, keys: Keyspace, ttl: nat,
                   clock: nat -> int, ends: nat -> Option<RunEnd>, n: nat)
    requires n < |plugins| && !FanOut(event, plugins, keys, ttl, clock, ends, n).raised
    ensures var before := FanOut(event, plugins, keys, ttl, clock, ends, n);
            var after := FanOut(event, plugins, keys, ttl, clock, ends, n + 1);
            var token := DeriveDedupKey(event);
            if token.Some? && Live(before.keys, RedisKey(event.firmId, plugins[n], token.value), clock(n))
            then after == before.(outcomes := before.outcomes + [Deduped])
            else after.keys == (if token.Some?
                                then before.keys[RedisKey(event.firmId, plugins[n], token.value) := clock(n) + ttl]
                                else before.keys) &&
                 (after.raised <==> ends(n) == None) &&
                 after.outcomes == before.outcomes + if ends(n).Some? then [ends(n).value] else []
  {
    hide RedisKey, DeriveDedupKey;
    var before := FanOut(event, plugins, keys, ttl, clock, ends, n);
    assert before.outcomes + [] == before.outcomes;
  }

  /** A key is only touched by the run of its own plugin. */
  lemma {:induction false} OtherKeysStay(event: Event, plugins: seq<string>, keys: Keyspace, ttl: nat,
                                         clock: nat -> int, ends: nat -> Option<RunEnd>, n: nat, key: string)
    requires n <= |plugins|
    requires DeriveDedupKey(event).Some? ==>
               forall j | 0 <= j < n :: RedisKey(event.firmId, plugins[j], DeriveDedupKey(event).value) != key
    ensures var f := FanOut(event, plugins, keys, ttl, clock, ends, n);
            (key in f.keys <==> key in keys) && (key in keys ==> f.keys[key] == keys[key])
  {
    hide RedisKey, DeriveDedupKey;
    if n > 0 {
      OtherKeysStay(event, plugins, keys, ttl, clock, ends, n - 1, key);
    }
  }

  lemma KeysTellPlugins(firmId: string, p: string, q: string, token: string)
    requires RedisKey(firmId, p, token) == RedisKey(firmId, q, token)
    ensures p == q
  {
    var k := RedisKey(firmId, p, token);
    var prefix := RedisKey(firmId, "", token);
    var from := |prefix| - |token| - 1;
    assert |p| == |k| - |prefix| == |q|;
    assert p == k[from..from + |p|] && q == k[from..from + |q|];
  }

  lemma {:induction false} OutcomesStay(event: Event, plugins: seq<string>, keys: Keyspace, ttl: nat,
                                        clock: nat -> int, ends: nat -> Option<RunEnd>, k: nat, n: nat)
    requires k <= n <= |plugins| && !FanOut(event, plugins, keys, ttl, clock, ends, n).raised
    ensures var f, g := FanOut(event, plugins, keys, ttl, clock, ends, k),
                        FanOut(event, plugins, keys, ttl, clock, ends, n);
            !f.raised && f.outcomes <= g.outcomes
  {
    hide PluginStep;
    if k < n {
      OutcomesStay(event, plugins, keys, ttl, clock, ends, k, n - 1);
      EntryTells(event, plugins, keys, ttl, clock, ends, n - 1);
    }
  }

  /** The gate, seen from a whole fan-out: a plugin is skipped as a duplicate if and only if
      the event has a token and the plugin's key for it was held when its turn came (as it was
      before the event, unless the plugin is listed twice); every other plugin is run, and its
      entry is how that run ended. */
  lemma RefusedIffHeld(event: Event, plugins: seq<string>, keys: Keyspace, ttl: nat,
                       clock: nat -> int, ends: nat -> Option<RunEnd>, n: nat, k: nat)
    requires k < n <= |plugins| && !FanOut(event, plugins, keys, ttl, clock, ends, n).raised
    ensures var f, token := FanOut(event, plugins, keys, ttl, clock, ends, n), DeriveDedupKey(event);
            var inTurn := FanOut(event, plugins, keys, ttl, clock, ends, k).keys;
            (f.outcomes[k] == Deduped <==>
               token.Some? && Live(inTurn, RedisKey(event.firmId, plugins[k], token.value), clock(k))) &&
            (f.outcomes[k] != Deduped ==> ends(k) == Some(f.outcomes[k])) &&
            (token.Some? && (forall j | 0 <= j < k :: plugins[j] != plugins[k]) ==>
               var key := RedisKey(event.firmId, plugins[k], token.value);
               Live(inTurn, key, clock(k)) <==> Live(keys, key, clock(k)))
  {
    hide RedisKey, DeriveDedupKey, PluginStep, FanOut;
    OutcomesStay(event, plugins, keys, ttl, clock, ends, k, n);
    OutcomesStay(event, plugins, keys, ttl, clock, ends, k + 1, n);
    EntryTells(event, plugins, keys, ttl, clock, ends, k);
    var token := DeriveDedupKey(event);
    if token.Some? && forall j | 0 <= j < k :: plugins[j] != plugins[k] {
      var key := RedisKey(event.firmId, plugins[k], token.value);
      forall j | 0 <= j < k ensures RedisKey(event.firmId, plugins[j], token.value) != key {
        if RedisKey(event.firmId, plugins[j], token.value) == key {
          KeysTellPlugins(event.firmId, plugins[j], plugins[k], token.value);
        }
      }
      OtherKeysStay(event, plugins, keys, ttl, clock, ends, k, key);
    }
  }

  class ProcessResult {
    var firmNotFound: bool
    var runResults: seq<int>
    var skipped: seq<string>

    constructor (firmNotFound: bool)
      ensures this.firmNotFound == firmNotFound && runResults == [] && skipped == []
    {
      this.firmNotFound := firmNotFound;
      runResults, skipped := [], [];
    }

    /** `_run_one_plugin`: `end` is how the execution ends, None when the exception escapes. */
    method RunOnePlugin(event: Event, plugins: seq<string>, ghost outcomes: seq<Outcome>, plugin: string,
                        dedup: PluginRunDedup, at: int, end: Option<RunEnd>) returns (raised: bool)
      requires |outcomes| < |plugins| && plugin == plugins[|outcomes|]
      requires runResults == RunResults(outcomes) && skipped == Skipped(plugins, outcomes)
      modifies this`runResults, this`skipped, dedup
      ensures var f := PluginStep(Fan(outcomes, old(dedup.keys), false), event, plugin, dedup.ttl, at, end);
              dedup.keys == f.keys && raised == f.raised &&
              runResults == RunResults(f.outcomes) && skipped == Skipped(plugins, f.outcomes)
    {
      hide Claim, DeriveDedupKey, RunResults, Skipped, SkipNote;
      var granted := dedup.ClaimRun(event, plugin, at);
      if !granted {
        TallyStep(plugins, outcomes, Deduped);
        skipped := skipped + [SkipNote(plugin, Deduped)];
        return false;
      }
      match end {
        case None => return true;
        case Some(o) =>
          TallyStep(plugins, outcomes, o);
          if o.Ran? {
            runResults := runResults + [o.result];
          } else {
            skipped := skipped + [SkipNote(plugin, o)];
          }
          return false;
      }
    }
  }

  /** `process_event`; None when an exception escapes it. */
  method ProcessEvent(event: Event, plugins: seq<string>, firmExists: bool, dedup: PluginRunDedup,
                      clock: nat -> int, ends: nat -> Option<RunEnd>) returns (result: ProcessResult?)
    modifies dedup
    ensures result != null ==> fresh(result) && result.firmNotFound == (plugins != [] && !firmExists)
    ensures result != null && result.firmNotFound ==>
              result.runResults == [] && result.skipped == [] && dedup.keys == old(dedup.keys)
    ensures plugins == [] || firmExists ==>
              var f := FanOut(event, plugins, old(dedup.keys), dedup.ttl, clock, ends, |plugins|);
              dedup.keys == f.keys && (result == null <==> f.raised) &&
              (result != null ==>
                 result.runResults == RunResults(f.outcomes) &&
                 result.skipped == Skipped(plugins, f.outcomes) &&
                 |result.runResults| + |result.skipped| == |plugins|)
  {
    if plugins == [] {
      result := new ProcessResult(false);
      return;
    }
    if !firmExists {
      result := new ProcessResult(true);
      return;
    }
    var found := new ProcessResult(false);
    hide PluginStep, RunResults, Skipped, Claim;
    assert FanOut(event, plugins, dedup.keys, dedup.ttl, clock, ends, 0) == Fan([], dedup.keys, false);
    hide FanOut;
    for i := 0 to |plugins|
      invariant fresh(found) && !found.firmNotFound
      invariant var f := FanOut(event, plugins, old(dedup.keys), dedup.ttl, clock, ends, i);
                !f.raised && dedup.keys == f.keys &&
                found.runResults == RunResults(f.outcomes) && found.skipped == Skipped(plugins, f.outcomes)
    {
      ghost var f := FanOut(event, plugins, old(dedup.keys), dedup.ttl, clock, ends, i);
      var raised := found.RunOnePlugin(event, plugins, f.outcomes, plugins[i], dedup, clock(i), ends(i));
      if raised {
        RaisedStays(event, plugins, old(dedup.keys), dedup.ttl, clock, ends, i + 1, |plugins|);
        return null;
      }
    }
    EachPluginOnce(plugins, FanOut(event, plugins, old(dedup.keys), dedup.ttl, clock, ends, |plugins|).outcomes, 0);
    result := found;
  }

  lemma {:induction false} RaisedStays(event: Event, plugins: seq<string>, keys: Keyspace, ttl: nat,
                                       clock: nat -> int, ends: nat -> Option<RunEnd>, m: nat, n: nat)
    requires m <= n <= |plugins| && FanOut(event, plugins, keys, ttl, clock, ends, m).raised
    ensures FanOut(event, plugins, keys, ttl, clock, ends, n) == FanOut(event, plugins, keys, ttl, clock, ends, m)
  {
    if m < n {
      RaisedStays(event, plugins, keys, ttl, clock, ends, m, n - 1);
    }
  }
}
