/** Reflecting the practice manager's clients and relationships in the knowledge graph. */
module XpmSync {
  import opened Wrappers

  /* The sync upserts entities, then edges against a unique index on the active ones; a statement
     that the database rejects costs the whole sync.  The main results: a sync is saved exactly
     when nothing it sends is rejected; whatever fails, no client gets two entities and no key
     two active edges; the last record applied for a key decides whether it is active and no
     other key's row changes; and syncing the same snapshot again changes nothing. */

  datatype Client = Client(id: string, name: string, kind: Option<string>)

  datatype Relationship = Relationship(id: string, toClientId: string, kind: Option<string>, active: bool)

  /** The lookup tables for the practice manager's type names. */
  datatype Names = Names(entityType: Option<string> -> string, relationshipType: Option<string> -> string)

  /** A row's id is its position in the table. */
  datatype Entity = Entity(entityType: string, name: string, displayName: Option<string>, xpmClientId: Option<string>)

  datatype Key = Key(source: nat, target: nat, kind: string)

  datatype Provenance = Provenance(relationshipId: string, syncedAt: int, firstSeen: Option<int>)

  datatype Edge = Edge(key: Key, provenance: Provenance, confidence: real, active: bool, updatedAt: int)

  datatype Error = EntityFailed(clientId: string)
                 | ListFailed(clientId: string)
                 | UnknownTarget(edgeId: string, clientId: string)
                 | SelfLoop(edgeId: string, clientId: string)
                 | EdgeFailed(edgeId: string)

  /** What the practice manager lists for the i-th client (None: the call fails), and which
      rows the database rejects when they are sent to it: the i-th client's entity, the j-th
      record of the i-th client. */
  datatype Source = Source(listing: nat -> Option<seq<Relationship>>, entityRejected: nat -> bool,
                           edgeRejected: (nat, nat) -> bool)

  /** The database session.  An insert is sent at once, an update with the next statement: until
      then a rejected one leaves the session `Doomed`.  A `Broken` one refuses every statement. */
  datatype Session = Usable | Doomed | Broken

  // ----- entities

  predicate Matches(e: Entity, clientId: string) {
    e.xpmClientId == Some(clientId)
  }

  predicate UniqueClients(entities: seq<Entity>) {
    forall i, j | 0 <= i < j < |entities| ::
      entities[i].xpmClientId.Some? ==> entities[i].xpmClientId != entities[j].xpmClientId
  }

  datatype Found = NoRow | OneRow(index: nat) | ManyRows

  /** `scalar_one_or_none` over the rows of a client. */
  function Find(entities: seq<Entity>, clientId: string): (f: Found)
    ensures f == NoRow <==> forall i | 0 <= i < |entities| :: !Matches(entities[i], clientId)
    ensures f.OneRow? ==> f.index < |entities| && Matches(entities[f.index], clientId)
                          && forall i | 0 <= i < |entities| && Matches(entities[i], clientId) :: i == f.index
    ensures f == ManyRows ==>
              exists i, j :: 0 <= i < j < |entities| && Matches(entities[i], clientId) && Matches(entities[j], clientId)
  {
    if entities == [] then NoRow
    else
      var n := |entities| - 1;
      var f := Find(entities[..n], clientId);
      if !Matches(entities[n], clientId) then f
      else if f == NoRow then OneRow(n)
      else ManyRows
  }

  function Refreshed(names: Names, e: Entity, c: Client): Entity {
    e.(entityType := names.entityType(c.kind), name := c.name,
       displayName := if e.displayName.Some? && e.displayName.value != "" then e.displayName else Some(c.name))
  }

  datatype Pass = Pass(entities: seq<Entity>, ids: map<string, nat>, created: nat, updated: nat, errors: seq<Error>,
                       session: Session)

  function UpsertEntity(names: Names, p: Pass, c: Client, rejected: bool): Pass {
    if p.session != Usable then p.(errors := p.errors + [EntityFailed(c.id)], session := Broken)
    else
      match Find(p.entities, c.id)
      case NoRow =>
        if rejected then p.(errors := p.errors + [EntityFailed(c.id)], session := Broken)
        else p.(entities := p.entities + [Entity(names.entityType(c.kind), c.name, Some(c.name), Some(c.id))],
                ids := p.ids[c.id := |p.entities|], created := p.created + 1)
      case OneRow(i) =>
        p.(entities := p.entities[i := Refreshed(names, p.entities[i], c)], ids := p.ids[c.id := i],
           updated := p.updated + 1, session := if rejected then Doomed else Usable)
      case ManyRows => p.(errors := p.errors + [EntityFailed(c.id)])
  }

  function EntityPass(names: Names, clients: seq<Client>, rejected: nat -> bool, entities: seq<Entity>, n: nat): Pass
    requires n <= |clients|
  {
    if n == 0 then Pass(entities, map[], 0, 0, [], Usable)
    else UpsertEntity(names, EntityPass(names, clients, rejected, entities, n - 1), clients[n - 1], rejected(n - 1))
  }

  /** In every sync, each client is created, updated or reported. */
  lemma {:induction false} EveryClientIsCounted(names: Names, clients: seq<Client>, rejected: nat -> bool,
                                                entities: seq<Entity>, n: nat)
    requires n <= |clients|
    ensures var p := EntityPass(names, clients, rejected, entities, n); p.created + p.updated + |p.errors| == n
  {
    hide Find;
    if n > 0 {
      EveryClientIsCounted(names, clients, rejected, entities, n - 1);
    }
  }

  /** What any first pass makes of `before`, whatever fails. */
  predicate PassOk(before: seq<Entity>, entities: seq<Entity>, ids: map<string, nat>, created: nat) {
    UniqueClients(entities) && |entities| == |before| + created &&
    (forall i | 0 <= i < |before| :: entities[i].xpmClientId == before[i].xpmClientId) &&
    (forall i | 0 <= i < |before| && !(before[i].xpmClientId.Some? && before[i].xpmClientId.value in ids) ::
       entities[i] == before[i]) &&
    (forall id | id in ids :: ids[id] < |entities| && Matches(entities[ids[id]], id)) &&
    forall i | |before| <= i < |entities| :: entities[i].xpmClientId.Some? && entities[i].xpmClientId.value in ids
  }

  lemma {:induction false} EntityPassOk(names: Names, clients: seq<Client>, rejected: nat -> bool,
                                        entities: seq<Entity>, n: nat)
    requires n <= |clients| && UniqueClients(entities)
    ensures var p := EntityPass(names, clients, rejected, entities, n); PassOk(entities, p.entities, p.ids, p.created)
  {
    hide UpsertEntity;
    if n > 0 {
      EntityPassOk(names, clients, rejected, entities, n - 1);
      UpsertEntityOk(names, entities, EntityPass(names, clients, rejected, entities, n - 1), clients[n - 1],
                     rejected(n - 1));
    }
  }

  lemma UpsertEntityOk(names: Names, before: seq<Entity>, p: Pass, c: Client, rejected: bool)
    requires PassOk(before, p.entities, p.ids, p.created)
    ensures var after := UpsertEntity(names, p, c, rejected);
            PassOk(before, after.entities, after.ids, after.created)
  {
    hide PassOk, Refreshed, Find;
    if p.session == Usable {
      match Find(p.entities, c.id) {
        case NoRow =>
          var e := Entity(names.entityType(c.kind), c.name, Some(c.name), Some(c.id));
          InsertKeeps(before, p.entities, p.ids, p.created, e, c.id);
        case OneRow(i) => RefreshKeeps(names, before, p.entities, p.ids, p.created, i, c);
        case ManyRows =>
      }
    }
  }

  lemma InsertKeeps(before: seq<Entity>, entities: seq<Entity>, ids: map<string, nat>, created: nat, e: Entity,
                    id: string)
    requires PassOk(before, entities, ids, created) && Matches(e, id)
    requires forall i | 0 <= i < |entities| :: !Matches(entities[i], id)
    ensures PassOk(before, entities + [e], ids[id := |entities|], created + 1)
  {
  }

  lemma RefreshKeeps(names: Names, before: seq<Entity>, entities: seq<Entity>, ids: map<string, nat>, created: nat,
                     i: nat, c: Client)
    requires PassOk(before, entities, ids, created) && i < |entities| && Matches(entities[i], c.id)
    ensures PassOk(before, entities[i := Refreshed(names, entities[i], c)], ids[c.id := i], created)
  {
  }

  lemma PassKeepsClients(names: Names, clients: seq<Client>, rejected: nat -> bool, entities: seq<Entity>, n: nat,
                         ids: map<string, nat>)
    requires n <= |clients| && UniqueClients(entities)
    requires forall id | id in ids :: ids[id] < |entities| && Matches(entities[ids[id]], id)
    ensures var p := EntityPass(names, clients, rejected, entities, n);
            UniqueClients(p.entities) &&
            forall id | id in ids :: ids[id] < |p.entities| && Matches(p.entities[ids[id]], id)
  {
    EntityPassOk(names, clients, rejected, entities, n);
    hide EntityPass;
  }

  lemma FindOwn(entities: seq<Entity>, clientId: string, k: nat)
    requires UniqueClients(entities) && k < |entities| && Matches(entities[k], clientId)
    ensures Find(entities, clientId) == OneRow(k)
  {
    hide Find;
  }

  lemma UpsertResolves(names: Names, p: Pass, c: Client)
    requires UniqueClients(p.entities)
    requires p.session == Usable
    ensures var after := UpsertEntity(names, p, c, false);
            after.errors == p.errors && after.ids.Keys == p.ids.Keys + {c.id} && after.session == Usable
  {
    hide Find;
    if i: nat :| i < |p.entities| && Matches(p.entities[i], c.id) {
      FindOwn(p.entities, c.id, i);
    }
  }

  lemma UpsertFindsOwn(names: Names, p: Pass, c: Client, k: nat)
    requires UniqueClients(p.entities) && k < |p.entities| && Matches(p.entities[k], c.id)
    requires p.session == Usable
    ensures var after := UpsertEntity(names, p, c, false);
            after.created == p.created && |after.entities| == |p.entities| && after.ids == p.ids[c.id := k] &&
            after.session == Usable
  {
    FindOwn(p.entities, c.id, k);
    hide Find, Matches, UniqueClients;
  }

  function ClientIds(clients: seq<Client>): set<string> {
    set c | c in clients :: c.id
  }

  function FirstIds(clients: seq<Client>, n: nat): set<string>
    requires n <= |clients|
  {
    if n == 0 then {} else FirstIds(clients, n - 1) + {clients[n - 1].id}
  }

  lemma {:induction false} FirstIdsAre(clients: seq<Client>, n: nat)
    requires n <= |clients|
    ensures FirstIds(clients, n) == ClientIds(clients[..n])
  {
    if n > 0 {
      FirstIdsAre(clients, n - 1);
      assert clients[..n] == clients[..n - 1] + [clients[n - 1]];
    }
  }

  lemma ResolvedStep(names: Names, clients: seq<Client>, rejected: nat -> bool, entities: seq<Entity>, n: nat)
    requires 0 < n <= |clients| && UniqueClients(entities) && !rejected(n - 1)
    requires EntityPass(names, clients, rejected, entities, n - 1).session == Usable
    ensures var p := EntityPass(names, clients, rejected, entities, n - 1);
            var after := EntityPass(names, clients, rejected, entities, n);
            after.errors == p.errors && after.ids.Keys == p.ids.Keys + {clients[n - 1].id} && after.session == Usable
  {
    hide UpsertEntity, UniqueClients;
    PassKeepsClients(names, clients, rejected, entities, n - 1, map[]);
    UpsertResolves(names, EntityPass(names, clients, rejected, entities, n - 1), clients[n - 1]);
  }

  /** If none is rejected every client is resolved to its own row. */
  lemma {:induction false} EveryClientIsResolved(names: Names, clients: seq<Client>, rejected: nat -> bool,
                                                 entities: seq<Entity>, n: nat)
    requires n <= |clients| && UniqueClients(entities) && forall i | 0 <= i < n :: !rejected(i)
    ensures var p := EntityPass(names, clients, rejected, entities, n);
            p.errors == [] && p.ids.Keys == FirstIds(clients, n) && p.session == Usable
  {
    hide UpsertEntity;
    if n > 0 {
      EveryClientIsResolved(names, clients, rejected, entities, n - 1);
      ResolvedStep(names, clients, rejected, entities, n);
    }
  }

  lemma RejectedStep(names: Names, p: Pass, c: Client)
    requires UniqueClients(p.entities)
    ensures UpsertEntity(names, p, c, true).session != Usable
  {
    hide Find;
  }

  /** One rejected row is enough to spoil the session for good. */
  lemma {:induction false} RejectedSpoils(names: Names, clients: seq<Client>, rejected: nat -> bool,
                                          entities: seq<Entity>, n: nat, i: nat)
    requires i < n <= |clients| && UniqueClients(entities) && rejected(i)
    ensures EntityPass(names, clients, rejected, entities, n).session != Usable
  {
    hide Find;
    if i < n - 1 {
      RejectedSpoils(names, clients, rejected, entities, n - 1, i);
    } else {
      PassKeepsClients(names, clients, rejected, entities, n - 1, map[]);
      RejectedStep(names, EntityPass(names, clients, rejected, entities, n - 1), clients[n - 1]);
    }
  }

  /** The row says what the client record says; a display name, once there, is kept. */
  predicate Reflects(names: Names, e: Entity, c: Client) {
    e.xpmClientId == Some(c.id) && e.name == c.name && e.entityType == names.entityType(c.kind) &&
    e.displayName.Some? && (e.displayName.value == "" ==> c.name == "")
  }

  lemma UpsertReflects(names: Names, p: Pass, c: Client)
    requires UniqueClients(p.entities) && p.session == Usable
    ensures var after := UpsertEntity(names, p, c, false);
            c.id in after.ids && after.ids[c.id] < |after.entities| &&
            Reflects(names, after.entities[after.ids[c.id]], c) &&
            after.entities[after.ids[c.id]].displayName ==
            match Find(p.entities, c.id)
            case OneRow(i) => if p.entities[i].displayName.Some? && p.entities[i].displayName.value != ""
                              then p.entities[i].displayName else Some(c.name)
            case _ => Some(c.name)
  {
    hide Find;
    if i: nat :| i < |p.entities| && Matches(p.entities[i], c.id) {
      FindOwn(p.entities, c.id, i);
    }
  }

  lemma UpsertLeavesOthers(names: Names, before: seq<Entity>, p: Pass, c: Client, id: string)
    requires PassOk(before, p.entities, p.ids, p.created) && p.session == Usable && id in p.ids && id != c.id
    ensures var after := UpsertEntity(names, p, c, false);
            id in after.ids && after.ids[id] == p.ids[id] < |after.entities| &&
            after.entities[after.ids[id]] == p.entities[p.ids[id]]
  {
    hide Find;
  }

  /** The row that the client resolves to says what the client's record says. */
  predicate RowReflects(names: Names, p: Pass, c: Client) {
    c.id in p.ids && p.ids[c.id] < |p.entities| && Reflects(names, p.entities[p.ids[c.id]], c)
  }

  /** If none is rejected, every client's row says what the last record with its id says. */
  lemma {:induction false} RowsReflectTheLastRecord(names: Names, clients: seq<Client>, rejected: nat -> bool,
                                                    entities: seq<Entity>, n: nat, k: nat)
    requires k < n <= |clients| && UniqueClients(entities) && forall i | 0 <= i < n :: !rejected(i)
    requires forall m | k < m < n :: clients[m].id != clients[k].id
    ensures RowReflects(names, EntityPass(names, clients, rejected, entities, n), clients[k])
  {
    hide UpsertEntity, UniqueClients, PassOk, Reflects;
    EntityPassOk(names, clients, rejected, entities, n - 1);
    PassKeepsClients(names, clients, rejected, entities, n - 1, map[]);
    EveryClientIsResolved(names, clients, rejected, entities, n - 1);
    var p := EntityPass(names, clients, rejected, entities, n - 1);
    if k == n - 1 {
      UpsertReflects(names, p, clients[k]);
    } else {
      RowsReflectTheLastRecord(names, clients, rejected, entities, n - 1, k);
      UpsertLeavesOthers(names, entities, p, clients[n - 1], clients[k].id);
    }
  }

  predicate Within(m: map<string, nat>, ids: map<string, nat>) {
    forall id | id in m :: id in ids && m[id] == ids[id]
  }

  /** A pass over a table that already has a row for every client creates nothing and
      resolves every client to the row it had. */
  lemma {:induction false} SecondPass(names: Names, clients: seq<Client>, rejected: nat -> bool, entities: seq<Entity>,
                                      ids: map<string, nat>, n: nat)
    requires n <= |clients| && UniqueClients(entities) && forall i | 0 <= i < n :: !rejected(i)
    requires forall i | 0 <= i < n :: clients[i].id in ids
    requires forall id | id in ids :: ids[id] < |entities| && Matches(entities[ids[id]], id)
    ensures var p := EntityPass(names, clients, rejected, entities, n);
            p.created == 0 && |p.entities| == |entities| && Within(p.ids, ids) && p.session == Usable
  {
    hide UpsertEntity, UniqueClients, Matches;
    if n > 0 {
      SecondPass(names, clients, rejected, entities, ids, n - 1);
      PassKeepsClients(names, clients, rejected, entities, n - 1, ids);
      var p, id := EntityPass(names, clients, rejected, entities, n - 1), clients[n - 1].id;
      UpsertFindsOwn(names, p, clients[n - 1], ids[id]);
    }
  }

  // ----- edges

  datatype Op = Op(key: Key, relationshipId: string, active: bool)

  predicate UniqueActive(edges: seq<Edge>) {
    forall i, j | 0 <= i < j < |edges| && edges[i].active && edges[j].active :: edges[i].key != edges[j].key
  }

  predicate NoSelfLoops(edges: seq<Edge>) {
    forall e | e in edges :: e.key.source != e.key.target
  }

  predicate IsActive(edges: seq<Edge>, key: Key) {
    exists i :: 0 <= i < |edges| && edges[i].active && edges[i].key == key
  }

  /** The row that the unique index on active edges reports as the conflict. */
  function Conflict(edges: seq<Edge>, key: Key): (i: nat)
    ensures i <= |edges| && (i < |edges| <==> IsActive(edges, key))
    ensures i < |edges| ==> edges[i].active && edges[i].key == key
  {
    if edges == [] then 0
    else if edges[0].active && edges[0].key == key then 0
    else
      assert forall k | 0 <= k < |edges| - 1 :: edges[1..][k] == edges[k + 1];
      assert forall k | 1 <= k < |edges| :: edges[k] == edges[1..][k - 1];
      1 + Conflict(edges[1..], key)
  }

  function Deactivated(e: Edge, op: Op, now: int): Edge {
    if e.active && e.key == op.key
    then e.(active := false, updatedAt := now, provenance := Provenance(op.relationshipId, now, None))
    else e
  }

  function UpsertEdge(edges: seq<Edge>, op: Op, now: int): seq<Edge> {
    if op.active then
      var p := Provenance(op.relationshipId, now, Some(now));
      var i := Conflict(edges, op.key);
      if i < |edges| then edges[i := edges[i].(provenance := p, confidence := 1.0, updatedAt := now)]
      else edges + [Edge(op.key, p, 1.0, true, now)]
    else seq(|edges|, i requires 0 <= i < |edges| => Deactivated(edges[i], op, now))
  }

  function Replay(edges: seq<Edge>, ops: seq<Op>, now: int): seq<Edge> {
    if ops == [] then edges
    else UpsertEdge(Replay(edges, ops[..|ops| - 1], now), ops[|ops| - 1], now)
  }

  /** The flag of the last record applied for the key. */
  function LastFor(ops: seq<Op>, key: Key): Option<bool> {
    if ops == [] then None
    else if ops[|ops| - 1].key == key then Some(ops[|ops| - 1].active)
    else LastFor(ops[..|ops| - 1], key)
  }

  lemma UpsertEdgeKeeps(edges: seq<Edge>, op: Op, now: int)
    requires UniqueActive(edges) && NoSelfLoops(edges) && op.key.source != op.key.target
    ensures UniqueActive(UpsertEdge(edges, op, now)) && NoSelfLoops(UpsertEdge(edges, op, now))
  {
  }

  /** One statement sets its own key to the record's flag and touches no other row. */
  lemma UpsertEdgeSets(edges: seq<Edge>, op: Op, now: int, key: Key)
    requires UniqueActive(edges)
    ensures var after := UpsertEdge(edges, op, now);
            (IsActive(after, key) <==> if key == op.key then op.active else IsActive(edges, key)) &&
            |edges| <= |after| && (forall i | 0 <= i < |edges| :: after[i].key == edges[i].key) &&
            (forall i | 0 <= i < |edges| && edges[i].key != op.key :: after[i] == edges[i]) &&
            forall i | |edges| <= i < |after| :: after[i].key == op.key
  {
    var after := UpsertEdge(edges, op, now);
    if IsActive(edges, key) && key != op.key {
      var i :| 0 <= i < |edges| && edges[i].active && edges[i].key == key;
      assert after[i] == edges[i];
    }
    if op.active {
      assert after[Conflict(edges, op.key)].key == op.key && after[Conflict(edges, op.key)].active;
    }
  }

  /** For every key, the last record applied decides; every row of a key that no record names
      is exactly as before, and no row disappears. */
  lemma {:induction false} LastRecordDecides(edges: seq<Edge>, ops: seq<Op>, now: int, key: Key)
    requires UniqueActive(edges) && NoSelfLoops(edges) && forall op | op in ops :: op.key.source != op.key.target
    ensures var after := Replay(edges, ops, now);
            UniqueActive(after) && NoSelfLoops(after) &&
            (IsActive(after, key) <==>
               if LastFor(ops, key).Some? then LastFor(ops, key).value else IsActive(edges, key)) &&
            |edges| <= |after| && (forall i | 0 <= i < |edges| :: after[i].key == edges[i].key) &&
            (LastFor(ops, key) == None ==>
               (forall i | 0 <= i < |edges| && edges[i].key == key :: after[i] == edges[i]) &&
               forall i | |edges| <= i < |after| :: after[i].key != key)
  {
    if ops != [] {
      var init, op := ops[..|ops| - 1], ops[|ops| - 1];
      LastRecordDecides(edges, init, now, key);
      assert op in ops;
      UpsertEdgeKeeps(Replay(edges, init, now), op, now);
      UpsertEdgeSets(Replay(edges, init, now), op, now, key);
      hide UpsertEdge, UniqueActive, NoSelfLoops, IsActive;
    }
  }

  /** An active edge bears the id of the last record applied for its key. */
  lemma {:induction false} EdgeNamesItsRecord(edges: seq<Edge>, ops: seq<Op>, now: int, i: nat)
    requires UniqueActive(edges) && NoSelfLoops(edges) && forall op | op in ops :: op.key.source != op.key.target
    requires i < |ops| && ops[i].active && forall j | i < j < |ops| :: ops[j].key != ops[i].key
    ensures forall r | r in Replay(edges, ops, now) && r.active && r.key == ops[i].key ::
              r.provenance == Provenance(ops[i].relationshipId, now, Some(now)) && r.updatedAt == now &&
              r.confidence == 1.0
  {
    var init, op := ops[..|ops| - 1], ops[|ops| - 1];
    LastRecordDecides(edges, init, now, op.key);
    WrittenBy(Replay(edges, init, now), op, now);
    if i < |ops| - 1 {
      EdgeNamesItsRecord(edges, init, now, i);
    }
    hide UpsertEdge, UniqueActive, NoSelfLoops, IsActive;
  }

  /** One statement names its record on every row that it writes. */
  lemma WrittenBy(edges: seq<Edge>, op: Op, now: int)
    requires UniqueActive(edges)
    ensures op.active ==>
              forall r | r in UpsertEdge(edges, op, now) && r.active && r.key == op.key ::
                r.provenance == Provenance(op.relationshipId, now, Some(now)) && r.updatedAt == now &&
                r.confidence == 1.0
    ensures !op.active ==>
              forall i | 0 <= i < |edges| && edges[i].active && edges[i].key == op.key ::
                var r := UpsertEdge(edges, op, now)[i];
                !r.active && r.provenance.relationshipId == op.relationshipId && r.provenance.syncedAt == now &&
                r.updatedAt == now
    ensures forall r | r in UpsertEdge(edges, op, now) && r.key != op.key :: r in edges
  {
  }

  // ----- which records are applied

  function Classify(names: Names, r: Relationship, clientId: string, source: nat, ids: map<string, nat>,
                    fails: bool): (seq<Op>, seq<Error>) {
    if r.toClientId !in ids then ([], [UnknownTarget(r.id, r.toClientId)])
    else if ids[r.toClientId] == source then ([], [SelfLoop(r.id, clientId)])
    else if fails then ([], [EdgeFailed(r.id)])
    else ([Op(Key(source, ids[r.toClientId], names.relationshipType(r.kind)), r.id, r.active)], [])
  }

  /** The records applied and the errors noted for the first `m` records of client `i`. */
  function ClientOps(names: Names, clientId: string, rels: seq<Relationship>, source: nat, ids: map<string, nat>,
                     fails: (nat, nat) -> bool, i: nat, m: nat): (seq<Op>, seq<Error>)
    requires m <= |rels|
  {
    if m == 0 then ([], [])
    else
      var before := ClientOps(names, clientId, rels, source, ids, fails, i, m - 1);
      var one := Classify(names, rels[m - 1], clientId, source, ids, fails(i, m - 1));
      (before.0 + one.0, before.1 + one.1)
  }

  function ClientStep(names: Names, c: Client, s: Source, ids: map<string, nat>, fails: (nat, nat) -> bool, i: nat)
      : (seq<Op>, seq<Error>) {
    if c.id !in ids then ([], [])
    else
      match s.listing(i)
      case None => ([], [ListFailed(c.id)])
      case Some(rels) => ClientOps(names, c.id, rels, ids[c.id], ids, fails, i, |rels|)
  }

  function Ops(names: Names, clients: seq<Client>, s: Source, ids: map<string, nat>, fails: (nat, nat) -> bool, n: nat)
      : (seq<Op>, seq<Error>)
    requires n <= |clients|
  {
    if n == 0 then ([], [])
    else
      var before := Ops(names, clients, s, ids, fails, n - 1);
      var one := ClientStep(names, clients[n - 1], s, ids, fails, n - 1);
      (before.0 + one.0, before.1 + one.1)
  }

  /** Record `j` of client `i` has two resolved, different endpoints: a statement is sent. */
  predicate Sends(clients: seq<Client>, s: Source, ids: map<string, nat>, i: nat, j: nat) {
    i < |clients| && clients[i].id in ids && s.listing(i).Some? && j < |s.listing(i).value| &&
    var r := s.listing(i).value[j];
    r.toClientId in ids && ids[r.toClientId] != ids[clients[i].id]
  }

  /** The statement. */
  predicate SendsOp(names: Names, clients: seq<Client>, s: Source, ids: map<string, nat>, i: nat, j: nat, op: Op) {
    Sends(clients, s, ids, i, j) &&
    var r := s.listing(i).value[j];
    op == Op(Key(ids[clients[i].id], ids[r.toClientId], names.relationshipType(r.kind)), r.id, r.active)
  }

  /** A record before this one is sent and rejected. */
  ghost predicate RejectedBefore(clients: seq<Client>, s: Source, ids: map<string, nat>, i: nat, j: nat) {
    exists a: nat, b: nat :: (a < i || (a == i && b < j)) && Sends(clients, s, ids, a, b) && s.edgeRejected(a, b)
  }

  /** Sending a record raises: it or an earlier one is rejected, or the session is broken. */
  ghost function EdgeFails(clients: seq<Client>, s: Source, ids: map<string, nat>, broken: bool): (nat, nat) -> bool {
    (i: nat, j: nat) => broken || RejectedBefore(clients, s, ids, i, j + 1)
  }

  lemma RejectedRecord(clients: seq<Client>, s: Source, ids: map<string, nat>, i: nat, j: nat)
    ensures RejectedBefore(clients, s, ids, i, j + 1)
       <==> RejectedBefore(clients, s, ids, i, j) || (Sends(clients, s, ids, i, j) && s.edgeRejected(i, j))
  {
    hide Sends;
  }

  lemma RejectedClient(clients: seq<Client>, s: Source, ids: map<string, nat>, i: nat, m: nat)
    requires forall j | m <= j :: !Sends(clients, s, ids, i, j)
    ensures RejectedBefore(clients, s, ids, i + 1, 0) <==> RejectedBefore(clients, s, ids, i, m)
  {
    hide Sends;
  }

  lemma {:induction false} ClientOpsAre(names: Names, clients: seq<Client>, s: Source, ids: map<string, nat>,
                                        fails: (nat, nat) -> bool, i: nat, m: nat, op: Op)
    requires i < |clients| && clients[i].id in ids && s.listing(i).Some? && m <= |s.listing(i).value|
    ensures op in ClientOps(names, clients[i].id, s.listing(i).value, ids[clients[i].id], ids, fails, i, m).0
       <==> exists j :: 0 <= j < m && SendsOp(names, clients, s, ids, i, j, op) && !fails(i, j)
  {
    if m > 0 {
      ClientOpsAre(names, clients, s, ids, fails, i, m - 1, op);
      var one := Classify(names, s.listing(i).value[m - 1], clients[i].id, ids[clients[i].id], ids, fails(i, m - 1));
      assert op in one.0 <==> SendsOp(names, clients, s, ids, i, m - 1, op) && !fails(i, m - 1);
    }
  }

  lemma StepOpsAre(names: Names, clients: seq<Client>, s: Source, ids: map<string, nat>, fails: (nat, nat) -> bool,
                   i: nat, op: Op)
    requires i < |clients|
    ensures op in ClientStep(names, clients[i], s, ids, fails, i).0
       <==> exists j: nat :: SendsOp(names, clients, s, ids, i, j, op) && !fails(i, j)
  {
    hide ClientOps;
    if clients[i].id in ids && s.listing(i).Some? {
      ClientOpsAre(names, clients, s, ids, fails, i, |s.listing(i).value|, op);
    }
  }

  /** Exactly the records with two resolved, different endpoints are applied, as long as
      sending them does not raise. */
  lemma {:induction false} OpsAre(names: Names, clients: seq<Client>, s: Source, ids: map<string, nat>,
                                  fails: (nat, nat) -> bool, n: nat, op: Op)
    requires n <= |clients|
    ensures op in Ops(names, clients, s, ids, fails, n).0
       <==> exists i, j :: 0 <= i < n && 0 <= j && SendsOp(names, clients, s, ids, i, j, op) && !fails(i, j)
  {
    hide ClientStep, SendsOp;
    if n > 0 {
      OpsAre(names, clients, s, ids, fails, n - 1, op);
      StepOpsAre(names, clients, s, ids, fails, n - 1, op);
    }
  }

  // ----- in which order

  /** The last statement for the key among the first `m` records of client `i`. */
  ghost predicate LastRecord(names: Names, clients: seq<Client>, s: Source, ids: map<string, nat>,
                             fails: (nat, nat) -> bool, i: nat, m: nat, key: Key, j: nat, op: Op) {
    j < m && SendsOp(names, clients, s, ids, i, j, op) && !fails(i, j) && op.key == key &&
    forall l: nat, other | j < l < m && SendsOp(names, clients, s, ids, i, l, other) && !fails(i, l) :: other.key != key
  }

  lemma LastForAppend(a: seq<Op>, b: seq<Op>, key: Key)
    ensures LastFor(a + b, key) == if LastFor(b, key).Some? then LastFor(b, key) else LastFor(a, key)
    decreases b
  {
    if b == [] {
      assert a + b == a;
    } else {
      LastForAppend(a, b[..|b| - 1], key);
      assert (a + b)[..|a + b| - 1] == a + b[..|b| - 1];
    }
  }

  lemma {:induction false} LastOfClient(names: Names, clients: seq<Client>, s: Source, ids: map<string, nat>,
                                        fails: (nat, nat) -> bool, i: nat, m: nat, key: Key, j: nat, op: Op)
    requires i < |clients| && clients[i].id in ids && s.listing(i).Some? && m <= |s.listing(i).value|
    requires LastRecord(names, clients, s, ids, fails, i, m, key, j, op)
    ensures LastFor(ClientOps(names, clients[i].id, s.listing(i).value, ids[clients[i].id], ids, fails, i, m).0, key)
         == Some(op.active)
  {
    var rels := s.listing(i).value;
    var before := ClientOps(names, clients[i].id, rels, ids[clients[i].id], ids, fails, i, m - 1);
    var one := Classify(names, rels[m - 1], clients[i].id, ids[clients[i].id], ids, fails(i, m - 1));
    LastForAppend(before.0, one.0, key);
    if one.0 != [] {
      assert one.0 == [one.0[0]] && SendsOp(names, clients, s, ids, i, m - 1, one.0[0]) && !fails(i, m - 1);
      LastForOne(one.0[0], key);
    }
    if j < m - 1 {
      LastOfClient(names, clients, s, ids, fails, i, m - 1, key, j, op);
    }
  }

  lemma LastForOne(op: Op, key: Key)
    ensures LastFor([op], key) == if op.key == key then Some(op.active) else None
    ensures LastFor([], key) == None
  {
    assert [op][..0] == [];
  }

  /** The statement that decides a key is the one of the last record, by client and then by
      position in its listing, that names the key. */
  lemma {:induction false} LastIsTheLargest(names: Names, clients: seq<Client>, s: Source, ids: map<string, nat>,
                                            fails: (nat, nat) -> bool, n: nat, key: Key, i: nat, j: nat, op: Op)
    requires i < n <= |clients| && SendsOp(names, clients, s, ids, i, j, op) && !fails(i, j) && op.key == key
    requires forall a: nat, b: nat, other |
               a < n && (i < a || (i == a && j < b)) && SendsOp(names, clients, s, ids, a, b, other) && !fails(a, b) ::
               other.key != key
    ensures LastFor(Ops(names, clients, s, ids, fails, n).0, key) == Some(op.active)
  {
    hide LastFor, ClientOps, Classify;
    var before := Ops(names, clients, s, ids, fails, n - 1);
    var one := ClientStep(names, clients[n - 1], s, ids, fails, n - 1);
    LastForAppend(before.0, one.0, key);
    if i == n - 1 {
      LastOfClient(names, clients, s, ids, fails, i, |s.listing(i).value|, key, j, op);
    } else {
      LastIsTheLargest(names, clients, s, ids, fails, n - 1, key, i, j, op);
      LastForExists(one.0, key);
      if other :| other in one.0 && other.key == key {
        StepOpsAre(names, clients, s, ids, fails, n - 1, other);
      }
    }
  }

  // ----- the sync

  datatype Stats = Stats(clientsSeen: nat, created: nat, updated: nat, edgesUpserted: nat, errors: seq<Error>)

  datatype Graph = Graph(entities: seq<Entity>, edges: seq<Edge>)

  predicate Sound(g: Graph) {
    UniqueClients(g.entities) && UniqueActive(g.edges) && NoSelfLoops(g.edges)
  }

  function FirstPass(names: Names, clients: seq<Client>, s: Source, g: Graph): Pass {
    EntityPass(names, clients, s.entityRejected, g.entities, |clients|)
  }

  /** The second pass; a doomed session raises before it. */
  ghost function AllOps(names: Names, clients: seq<Client>, s: Source, g: Graph): (seq<Op>, seq<Error>) {
    var p := FirstPass(names, clients, s, g);
    if p.session == Doomed then ([], [])
    else Ops(names, clients, s, p.ids, EdgeFails(clients, s, p.ids, p.session == Broken), |clients|)
  }

  /** What the transaction comes to. */
  ghost function Synced(names: Names, clients: seq<Client>, s: Source, g: Graph, now: int): Graph {
    Graph(FirstPass(names, clients, s, g).entities, Replay(g.edges, AllOps(names, clients, s, g).0, now))
  }

  /** The transaction can be committed. */
  ghost predicate Saves(names: Names, clients: seq<Client>, s: Source, g: Graph) {
    var p := FirstPass(names, clients, s, g);
    p.session == Usable && !RejectedBefore(clients, s, p.ids, |clients|, 0)
  }

  /** The graph after the sync. */
  ghost function Saved(names: Names, clients: seq<Client>, s: Source, g: Graph, now: int): Graph {
    if Saves(names, clients, s, g) then Synced(names, clients, s, g, now) else g
  }

  ghost function StatsOf(names: Names, clients: seq<Client>, s: Source, g: Graph): Stats {
    var p, ops := FirstPass(names, clients, s, g), AllOps(names, clients, s, g);
    Stats(|clients|, p.created, p.updated, |ops.0|, p.errors + ops.1)
  }

  lemma NothingMore(errors: seq<Error>, before: (seq<Op>, seq<Error>))
    ensures before.0 + [] == before.0 && before.1 + [] == before.1
    ensures forall e :: errors + (before.1 + [e]) == errors + before.1 + [e]
  {
  }

  /** What one record adds to the statements and the errors of the second pass. */
  lemma RecordStep(names: Names, edges: seq<Edge>, now: int, before: (seq<Op>, seq<Error>), errors: seq<Error>,
                   clientId: string, rels: seq<Relationship>, source: nat, ids: map<string, nat>,
                   fails: (nat, nat) -> bool, i: nat, j: nat)
    requires j < |rels|
    ensures var x := ClientOps(names, clientId, rels, source, ids, fails, i, j);
            var y := ClientOps(names, clientId, rels, source, ids, fails, i, j + 1);
            var one := Classify(names, rels[j], clientId, source, ids, fails(i, j));
            errors + (before.1 + y.1) == errors + (before.1 + x.1) + one.1 &&
            before.0 + y.0 == before.0 + x.0 + one.0 &&
            (one.0 == [] ==>
               before.0 + y.0 == before.0 + x.0 &&
               Replay(edges, before.0 + y.0, now) == Replay(edges, before.0 + x.0, now)) &&
            (one.1 == [] ==> errors + (before.1 + y.1) == errors + (before.1 + x.1)) &&
            (one.0 != [] ==> one.0 == [one.0[0]] &&
                             Replay(edges, before.0 + y.0, now) ==
                               UpsertEdge(Replay(edges, before.0 + x.0, now), one.0[0], now))
  {
    var x := ClientOps(names, clientId, rels, source, ids, fails, i, j);
    var y := ClientOps(names, clientId, rels, source, ids, fails, i, j + 1);
    var one := Classify(names, rels[j], clientId, source, ids, fails(i, j));
    assert y == (x.0 + one.0, x.1 + one.1);
    hide ClientOps, UpsertEdge;
    assert errors + (before.1 + (x.1 + one.1)) == errors + (before.1 + x.1) + one.1;
    assert before.0 + (x.0 + one.0) == before.0 + x.0 + one.0;
    if one.0 == [] {
      assert before.0 + x.0 + one.0 == before.0 + x.0;
    } else {
      assert (before.0 + x.0 + one.0)[..|before.0 + x.0|] == before.0 + x.0;
    }
  }

  class KnowledgeGraph {
    const names: Names
    var entities: seq<Entity>
    var edges: seq<Edge>
    var session: Session

    constructor (names: Names)
      ensures this.names == names && entities == [] && edges == [] && session == Usable
    {
      this.names := names;
      entities, edges, session := [], [], Usable;
    }

    ghost function Value(): Graph
      reads this
    {
      Graph(entities, edges)
    }

    /** The row's id and whether it was created; None when a statement raises. */
    method UpsertEntityFromXpm(ghost p: Pass, record: Client, rejected: bool) returns (id: Option<nat>, created: bool)
      requires p.entities == entities && p.session == session
      modifies this`entities, this`session
      ensures var after := UpsertEntity(names, p, record, rejected);
              entities == after.entities && session == after.session &&
              match id
              case None => after == p.(errors := p.errors + [EntityFailed(record.id)], session := session)
              case Some(k) => after.ids == p.ids[record.id := k] && after.errors == p.errors &&
                              after.created == p.created + (if created then 1 else 0) &&
                              after.updated == p.updated + (if created then 0 else 1)
    {
      created := false;
      if session != Usable {
        session := Broken;
        return None, false;
      }
      match Find(entities, record.id) {
        case ManyRows => id := None;
        case NoRow =>
          if rejected {
            session := Broken;
            return None, false;
          }
          id, created := Some(|entities|), true;
          entities := entities + [Entity(names.entityType(record.kind), record.name, Some(record.name),
                                         Some(record.id))];
        case OneRow(i) =>
          var e := entities[i].(entityType := names.entityType(record.kind), name := record.name);
          if e.displayName == None || e.displayName == Some("") {
            e := e.(displayName := Some(record.name));
          }
          entities := entities[i := e];
          session := if rejected then Doomed else Usable;
          id := Some(i);
      }
    }

    method UpsertRelationshipFromXpm(op: Op, now: int)
      modifies this`edges
      ensures edges == UpsertEdge(old(edges), op, now)
    {
      var i := 0;
      if op.active {
        i := Conflict(edges, op.key);
        var p := Provenance(op.relationshipId, now, Some(now));
        if i < |edges| {
          edges := edges[i := edges[i].(provenance := p, confidence := 1.0, updatedAt := now)];
        } else {
          edges := edges + [Edge(op.key, p, 1.0, true, now)];
        }
        return;
      }
      ghost var before := edges;
      while i < |edges|
        invariant 0 <= i <= |edges| == |before|
        invariant forall k | 0 <= k < i :: edges[k] == Deactivated(before[k], op, now)
        invariant forall k | i <= k < |edges| :: edges[k] == before[k]
      {
        if edges[i].active && edges[i].key == op.key {
          edges := edges[i := edges[i].(active := false, updatedAt := now,
                                        provenance := Provenance(op.relationshipId, now, None))];
        }
        i := i + 1;
      }
    }

    /** The second pass over the records of one client, whose listing has succeeded. */
    method SyncRecords(clients: seq<Client>, s: Source, now: int, ids: map<string, nat>, ghost broken: bool, i: nat,
                       ghost oldEdges: seq<Edge>, ghost before: (seq<Op>, seq<Error>), stats: Stats,
                       ghost errors: seq<Error>)
        returns (after: Stats)
      requires i < |clients| && clients[i].id in ids && s.listing(i).Some? && session != Doomed
      requires session == Broken <==> broken || RejectedBefore(clients, s, ids, i, 0)
      requires edges == Replay(oldEdges, before.0, now)
      requires stats.edgesUpserted == |before.0| && stats.errors == errors + before.1
      modifies this`edges, this`session
      ensures session != Doomed
      ensures session == Broken <==> broken || RejectedBefore(clients, s, ids, i, |s.listing(i).value|)
      ensures var ops := ClientOps(names, clients[i].id, s.listing(i).value, ids[clients[i].id], ids,
                                   EdgeFails(clients, s, ids, broken), i, |s.listing(i).value|);
              edges == Replay(oldEdges, before.0 + ops.0, now) &&
              after == stats.(edgesUpserted := |before.0 + ops.0|, errors := errors + (before.1 + ops.1))
    {
      hide UpsertEdge, RejectedBefore;
      ghost var fails := EdgeFails(clients, s, ids, broken);
      var source, rels := ids[clients[i].id], s.listing(i).value;
      NothingMore(errors, before);
      after := stats;
      for j := 0 to |rels|
        invariant session != Doomed
        invariant session == Broken <==> broken || RejectedBefore(clients, s, ids, i, j)
        invariant var ops := ClientOps(names, clients[i].id, rels, source, ids, fails, i, j);
                  edges == Replay(oldEdges, before.0 + ops.0, now) &&
                  after == stats.(edgesUpserted := |before.0 + ops.0|, errors := errors + (before.1 + ops.1))
      {
        RecordStep(names, oldEdges, now, before, errors, clients[i].id, rels, source, ids, fails, i, j);
        RejectedRecord(clients, s, ids, i, j);
        var r := rels[j];
        if r.toClientId !in ids {
          after := after.(errors := after.errors + [UnknownTarget(r.id, r.toClientId)]);
        } else if source == ids[r.toClientId] {
          after := after.(errors := after.errors + [SelfLoop(r.id, clients[i].id)]);
        } else if session == Broken || s.edgeRejected(i, j) {
          session := Broken;
          after := after.(errors := after.errors + [EdgeFailed(r.id)]);
        } else {
          var op := Op(Key(source, ids[r.toClientId], names.relationshipType(r.kind)), r.id, r.active);
          UpsertRelationshipFromXpm(op, now);
          after := after.(edgesUpserted := after.edgesUpserted + 1);
        }
      }
    }

    /** With a fresh session; `saved` when the final commit goes through. */
    method Sync(clients: seq<Client>, s: Source, now: int) returns (stats: Stats, saved: bool)
      requires session == Usable
      modifies this
      ensures saved == Saves(names, clients, s, old(Value())) && Value() == Saved(names, clients, s, old(Value()), now)
      ensures stats == StatsOf(names, clients, s, old(Value()))
    {
      hide UpsertEntity, UpsertEdge, Find, RejectedBefore;
      ghost var g := Value();
      var oldEntities, oldEdges := entities, edges;
      NothingRejected(clients, s);
      stats := Stats(|clients|, 0, 0, 0, []);
      if clients == [] {
        return stats, true;
      }
      var ids: map<string, nat> := map[];
      for i := 0 to |clients|
        invariant Pass(entities, ids, stats.created, stats.updated, stats.errors, session)
               == EntityPass(names, clients, s.entityRejected, g.entities, i)
        invariant stats.clientsSeen == |clients| && stats.edgesUpserted == 0 && edges == g.edges
      {
        var id, created := UpsertEntityFromXpm(EntityPass(names, clients, s.entityRejected, g.entities, i), clients[i],
                                               s.entityRejected(i));
        match id {
          case None => stats := stats.(errors := stats.errors + [EntityFailed(clients[i].id)]);
          case Some(k) =>
            ids := ids[clients[i].id := k];
            if created {
              stats := stats.(created := stats.created + 1);
            } else {
              stats := stats.(updated := stats.updated + 1);
            }
        }
      }
      ghost var p := FirstPass(names, clients, s, g);
      if session == Doomed {
        assert stats.errors + [] == stats.errors;
        entities, edges := oldEntities, oldEdges;
        return stats, false;
      }
      ghost var fails := EdgeFails(clients, s, ids, p.session == Broken);
      for i := 0 to |clients|
        invariant entities == p.entities && ids == p.ids && session != Doomed
        invariant session == Broken <==> p.session == Broken || RejectedBefore(clients, s, ids, i, 0)
        invariant var ops := Ops(names, clients, s, ids, fails, i);
                  edges == Replay(g.edges, ops.0, now) &&
                  stats == Stats(|clients|, p.created, p.updated, |ops.0|, p.errors + ops.1)
      {
        ghost var before := Ops(names, clients, s, ids, fails, i);
        NothingMore(p.errors, before);
        if clients[i].id !in ids {
          RejectedClient(clients, s, ids, i, 0);
          continue;
        }
        var listed := s.listing(i);
        if listed == None {
          stats := stats.(errors := stats.errors + [ListFailed(clients[i].id)]);
          RejectedClient(clients, s, ids, i, 0);
          continue;
        }
        stats := SyncRecords(clients, s, now, ids, p.session == Broken, i, g.edges, before, stats, p.errors);
        RejectedClient(clients, s, ids, i, |listed.value|);
      }
      saved := session == Usable;
      if !saved {
        entities, edges := oldEntities, oldEdges;
      }
    }
  }

  lemma NothingRejected(clients: seq<Client>, s: Source)
    ensures forall ids :: !RejectedBefore(clients, s, ids, 0, 0)
  {
  }

  /** When a sync is saved, told from the fetched batch: if and only if the database takes every
      client's row, and every record whose target is another client of the batch. */
  lemma SavesIff(names: Names, clients: seq<Client>, s: Source, g: Graph)
    requires Sound(g)
    ensures Saves(names, clients, s, g)
       <==> (forall i | 0 <= i < |clients| :: !s.entityRejected(i)) &&
            forall i: nat, j: nat | WithinBatch(clients, s, i, j) :: !s.edgeRejected(i, j)
  {
    hide EntityPass;
    if forall i | 0 <= i < |clients| :: !s.entityRejected(i) {
      EveryClientIsResolved(names, clients, s.entityRejected, g.entities, |clients|);
      SendsIffWithinBatch(names, clients, s, g);
    } else {
      var i :| 0 <= i < |clients| && s.entityRejected(i);
      RejectedSpoils(names, clients, s.entityRejected, g.entities, |clients|, i);
    }
    hide Sends, WithinBatch;
  }

  /** The record's two ends are different clients of the batch. */
  predicate WithinBatch(clients: seq<Client>, s: Source, i: nat, j: nat) {
    i < |clients| && s.listing(i).Some? && j < |s.listing(i).value| &&
    var to := s.listing(i).value[j].toClientId;
    to in ClientIds(clients) && to != clients[i].id
  }

  lemma SendsIffWithinBatch(names: Names, clients: seq<Client>, s: Source, g: Graph)
    requires Sound(g) && forall i | 0 <= i < |clients| :: !s.entityRejected(i)
    ensures forall i: nat, j: nat ::
              Sends(clients, s, FirstPass(names, clients, s, g).ids, i, j) <==> WithinBatch(clients, s, i, j)
  {
    hide EntityPass, FirstIds, UniqueActive, NoSelfLoops, PassOk;
    EveryClientIsResolved(names, clients, s.entityRejected, g.entities, |clients|);
    EntityPassOk(names, clients, s.entityRejected, g.entities, |clients|);
    FirstIdsAre(clients, |clients|);
    assert clients[..|clients|] == clients;
    var p := FirstPass(names, clients, s, g);
    forall i: nat, j: nat ensures Sends(clients, s, p.ids, i, j) <==> WithinBatch(clients, s, i, j) {
      if i < |clients| && s.listing(i).Some? && j < |s.listing(i).value| {
        assert clients[i] in clients;
        EndsDiffer(g.entities, p, clients[i].id, s.listing(i).value[j].toClientId);
      }
    }
  }

  lemma EndsDiffer(before: seq<Entity>, p: Pass, a: string, b: string)
    requires PassOk(before, p.entities, p.ids, p.created)
    ensures a in p.ids && b in p.ids ==> (p.ids[a] == p.ids[b] <==> a == b)
  {
  }

  /** Every sync, whatever fails, keeps the graph sound and accounts for every client. */
  lemma SyncKeepsSound(names: Names, clients: seq<Client>, s: Source, g: Graph, now: int)
    requires Sound(g)
    ensures Sound(Synced(names, clients, s, g, now)) && Sound(Saved(names, clients, s, g, now))
    ensures var stats := StatsOf(names, clients, s, g);
            stats.created + stats.updated + |FirstPass(names, clients, s, g).errors| == stats.clientsSeen
  {
    EntityPassOk(names, clients, s.entityRejected, g.entities, |clients|);
    EveryClientIsCounted(names, clients, s.entityRejected, g.entities, |clients|);
    AllOpsAre(names, clients, s, g);
    LastRecordDecides(g.edges, AllOps(names, clients, s, g).0, now, Key(0, 0, ""));
  }

  /** What is applied: in a saved sync, every record with two resolved, different endpoints. */
  lemma AllOpsAre(names: Names, clients: seq<Client>, s: Source, g: Graph)
    ensures forall op | op in AllOps(names, clients, s, g).0 :: op.key.source != op.key.target
    ensures Saves(names, clients, s, g) ==>
              forall op :: op in AllOps(names, clients, s, g).0 <==>
                exists i: nat, j: nat :: SendsOp(names, clients, s, FirstPass(names, clients, s, g).ids, i, j, op)
  {
    hide EntityPass, Ops;
    var p := FirstPass(names, clients, s, g);
    var fails := EdgeFails(clients, s, p.ids, p.session == Broken);
    forall op
      ensures op in Ops(names, clients, s, p.ids, fails, |clients|).0 <==>
              exists i, j :: 0 <= i < |clients| && 0 <= j && SendsOp(names, clients, s, p.ids, i, j, op) && !fails(i, j)
    {
      OpsAre(names, clients, s, p.ids, fails, |clients|, op);
    }
    if Saves(names, clients, s, g) {
      forall i: nat, j: nat | i < |clients| ensures !fails(i, j) {
      }
    }
  }

  /** A sync that is not saved changes nothing.  After one that is, a key that some record names
      with both its clients resolved is active exactly when the last such record says so; other
      keys keep their rows. */
  lemma SyncDecidesMentionedKeys(names: Names, clients: seq<Client>, s: Source, g: Graph, now: int, key: Key)
    requires Sound(g)
    ensures !Saves(names, clients, s, g) ==> Saved(names, clients, s, g, now) == g
    ensures Saves(names, clients, s, g) ==>
              var after, last := Saved(names, clients, s, g, now).edges, LastFor(AllOps(names, clients, s, g).0, key);
              (last.Some? <==> exists i: nat, j: nat, op: Op :: op.key == key &&
                                 SendsOp(names, clients, s, FirstPass(names, clients, s, g).ids, i, j, op)) &&
              (IsActive(after, key) <==> if last.Some? then last.value else IsActive(g.edges, key)) &&
              (last == None ==>
                 (forall i | 0 <= i < |g.edges| && g.edges[i].key == key :: i < |after| && after[i] == g.edges[i]) &&
                 forall i | |g.edges| <= i < |after| :: after[i].key != key)
  {
    hide EntityPass, Ops, SendsOp, IsActive, Replay;
    var ops := AllOps(names, clients, s, g).0;
    AllOpsAre(names, clients, s, g);
    LastRecordDecides(g.edges, ops, now, key);
    LastForExists(ops, key);
  }

  /** In terms of the listings: in a saved sync the record that decides a key is the last one
      that names it, clients in the order of the fetch and records in the order of the listing. */
  lemma LastListedDecides(names: Names, clients: seq<Client>, s: Source, g: Graph, now: int, i: nat, j: nat, op: Op)
    requires Sound(g) && Saves(names, clients, s, g)
    requires SendsOp(names, clients, s, FirstPass(names, clients, s, g).ids, i, j, op)
    requires var ids := FirstPass(names, clients, s, g).ids;
             forall a: nat, b: nat, other |
               (i < a || (i == a && j < b)) && SendsOp(names, clients, s, ids, a, b, other) :: other.key != op.key
    ensures IsActive(Saved(names, clients, s, g, now).edges, op.key) <==> op.active
  {
    hide EntityPass, Ops, SendsOp, IsActive, Replay, Sound;
    var p := FirstPass(names, clients, s, g);
    var fails := EdgeFails(clients, s, p.ids, p.session == Broken);
    forall a: nat, b: nat | a < |clients| ensures !fails(a, b) {
      NoneFails(clients, s, p.ids, a, b);
    }
    SendsIsOfAClient(names, clients, s, p.ids, i, j, op);
    LastIsTheLargest(names, clients, s, p.ids, fails, |clients|, op.key, i, j, op);
    SyncDecidesMentionedKeys(names, clients, s, g, now, op.key);
  }

  lemma NoneFails(clients: seq<Client>, s: Source, ids: map<string, nat>, i: nat, j: nat)
    requires !RejectedBefore(clients, s, ids, |clients|, 0) && i < |clients|
    ensures !EdgeFails(clients, s, ids, false)(i, j)
  {
  }

  lemma SendsIsOfAClient(names: Names, clients: seq<Client>, s: Source, ids: map<string, nat>, i: nat, j: nat, op: Op)
    requires SendsOp(names, clients, s, ids, i, j, op)
    ensures i < |clients|
  {
  }

  /** And after a saved sync each fetched client has a row, which says what its last record says. */
  lemma SavedRowsReflect(names: Names, clients: seq<Client>, s: Source, g: Graph, now: int, k: nat)
    requires Sound(g) && Saves(names, clients, s, g) && k < |clients|
    requires forall m | k < m < |clients| :: clients[m].id != clients[k].id
    ensures exists e :: e in Saved(names, clients, s, g, now).entities && Reflects(names, e, clients[k])
  {
    hide EntityPass, Reflects, Saves;
    SavesIff(names, clients, s, g);
    RowsReflectTheLastRecord(names, clients, s.entityRejected, g.entities, |clients|, k);
    var p := FirstPass(names, clients, s, g);
    assert p.entities[p.ids[clients[k].id]] in Saved(names, clients, s, g, now).entities;
  }

  lemma {:induction false} LastForExists(ops: seq<Op>, key: Key)
    ensures LastFor(ops, key).Some? <==> exists op :: op in ops && op.key == key
  {
    if ops != [] {
      LastForExists(ops[..|ops| - 1], key);
      assert ops == ops[..|ops| - 1] + [ops[|ops| - 1]];
    }
  }

  /** Syncing the same snapshot again saves again or fails again; it creates no entity,
      resolves every client to the same row, and leaves the set of active edges as it is. */
  lemma SecondSyncChangesNothing(names: Names, clients: seq<Client>, s: Source, g: Graph, now: int, later: int,
                                 key: Key)
    requires Sound(g)
    ensures var after := Saved(names, clients, s, g, now);
            var again := Saved(names, clients, s, after, later);
            (Saves(names, clients, s, after) <==> Saves(names, clients, s, g)) &&
            |again.entities| == |after.entities| && (IsActive(again.edges, key) <==> IsActive(after.edges, key)) &&
            (Saves(names, clients, s, g) ==>
               StatsOf(names, clients, s, after).created == 0 &&
               AllOps(names, clients, s, after) == AllOps(names, clients, s, g))
  {
    hide EntityPass, Ops, Replay, UniqueActive, NoSelfLoops, IsActive, LastFor, SendsOp, RejectedBefore, EdgeFails;
    var after := Saved(names, clients, s, g, now);
    SavesIff(names, clients, s, g);
    SyncKeepsSound(names, clients, s, g, now);
    SavesIff(names, clients, s, after);
    if Saves(names, clients, s, g) {
      SameIdsAgain(names, clients, s, g, now);
      SyncDecidesMentionedKeys(names, clients, s, g, now, key);
      SyncDecidesMentionedKeys(names, clients, s, after, later, key);
    }
  }

  lemma SameIdsAgain(names: Names, clients: seq<Client>, s: Source, g: Graph, now: int)
    requires Sound(g) && forall i | 0 <= i < |clients| :: !s.entityRejected(i)
    ensures var after := Synced(names, clients, s, g, now);
            var p, p' := FirstPass(names, clients, s, g), FirstPass(names, clients, s, after);
            p.session == p'.session == Usable && p'.ids == p.ids && p'.created == 0 &&
            |p'.entities| == |after.entities|
  {
    hide EntityPass, Ops, Replay, UniqueActive, NoSelfLoops;
    var after := Synced(names, clients, s, g, now);
    var ids, ids' := FirstPass(names, clients, s, g).ids, FirstPass(names, clients, s, after).ids;
    EntityPassOk(names, clients, s.entityRejected, g.entities, |clients|);
    EveryClientIsResolved(names, clients, s.entityRejected, g.entities, |clients|);
    EveryClientIsResolved(names, clients, s.entityRejected, after.entities, |clients|);
    FirstIdsAre(clients, |clients|);
    assert clients[..|clients|] == clients;
    SecondPass(names, clients, s.entityRejected, after.entities, ids, |clients|);
    assert ids == ids';
  }

  // ----- records that are not applied

  /** Record `j` of client `i` is noted as `e` instead of being applied. */
  predicate NotedAs(clients: seq<Client>, s: Source, ids: map<string, nat>, fails: (nat, nat) -> bool, i: nat, j: nat,
                    e: Error) {
    i < |clients| && clients[i].id in ids && s.listing(i).Some? && j < |s.listing(i).value| &&
    var r := s.listing(i).value[j];
    if r.toClientId !in ids then e == UnknownTarget(r.id, r.toClientId)
    else if ids[r.toClientId] == ids[clients[i].id] then e == SelfLoop(r.id, clients[i].id)
    else fails(i, j) && e == EdgeFailed(r.id)
  }

  predicate ListingNoted(clients: seq<Client>, s: Source, ids: map<string, nat>, i: nat, e: Error) {
    i < |clients| && clients[i].id in ids && s.listing(i) == None && e == ListFailed(clients[i].id)
  }

  /** Something about client `i` is noted as `e`. */
  ghost predicate Noted(clients: seq<Client>, s: Source, ids: map<string, nat>, fails: (nat, nat) -> bool, i: nat,
                        e: Error) {
    ListingNoted(clients, s, ids, i, e) || exists j: nat :: NotedAs(clients, s, ids, fails, i, j, e)
  }

  lemma {:induction false} ClientErrorsAre(names: Names, clients: seq<Client>, s: Source, ids: map<string, nat>,
                                           fails: (nat, nat) -> bool, i: nat, m: nat, e: Error)
    requires i < |clients| && clients[i].id in ids && s.listing(i).Some? && m <= |s.listing(i).value|
    ensures e in ClientOps(names, clients[i].id, s.listing(i).value, ids[clients[i].id], ids, fails, i, m).1
       <==> exists j :: 0 <= j < m && NotedAs(clients, s, ids, fails, i, j, e)
  {
    if m > 0 {
      ClientErrorsAre(names, clients, s, ids, fails, i, m - 1, e);
      var one := Classify(names, s.listing(i).value[m - 1], clients[i].id, ids[clients[i].id], ids, fails(i, m - 1));
      assert e in one.1 <==> NotedAs(clients, s, ids, fails, i, m - 1, e);
    }
  }

  lemma {:induction false} OpsErrorsAre(names: Names, clients: seq<Client>, s: Source, ids: map<string, nat>,
                                     fails: (nat, nat) -> bool, n: nat, e: Error)
    requires n <= |clients|
    ensures e in Ops(names, clients, s, ids, fails, n).1
       <==> exists i | 0 <= i < n :: Noted(clients, s, ids, fails, i, e)
  {
    if n > 0 {
      OpsErrorsAre(names, clients, s, ids, fails, n - 1, e);
      var i := n - 1;
      if clients[i].id in ids && s.listing(i).Some? {
        ClientErrorsAre(names, clients, s, ids, fails, i, |s.listing(i).value|, e);
      }
      var one := ClientStep(names, clients[i], s, ids, fails, i);
      assert e in one.1 <==> Noted(clients, s, ids, fails, i, e);
    }
  }

  /** The errors of the second pass are exactly those of the listings that failed and of the
      records that are not sent, or are sent when this or an earlier one is rejected. */
  lemma ErrorsAre(names: Names, clients: seq<Client>, s: Source, g: Graph, e: Error)
    requires FirstPass(names, clients, s, g).session != Doomed
    ensures var p := FirstPass(names, clients, s, g);
            var fails := EdgeFails(clients, s, p.ids, p.session == Broken);
            e in AllOps(names, clients, s, g).1 <==>
            exists i | 0 <= i < |clients| :: Noted(clients, s, p.ids, fails, i, e)
  {
    hide EntityPass, Ops, Noted;
    var p := FirstPass(names, clients, s, g);
    OpsErrorsAre(names, clients, s, p.ids, EdgeFails(clients, s, p.ids, p.session == Broken), |clients|, e);
  }

  lemma {:induction false} IdsAreOfTheBatch(names: Names, clients: seq<Client>, rejected: nat -> bool,
                                            entities: seq<Entity>, n: nat)
    requires n <= |clients|
    ensures EntityPass(names, clients, rejected, entities, n).ids.Keys <= FirstIds(clients, n)
  {
    hide Find;
    if n > 0 {
      IdsAreOfTheBatch(names, clients, rejected, entities, n - 1);
    }
  }

  lemma {:induction false} AllResolvedIffNoError(names: Names, clients: seq<Client>, rejected: nat -> bool,
                                                 entities: seq<Entity>, n: nat)
    requires n <= |clients| && EntityPass(names, clients, rejected, entities, n).errors == []
    ensures EntityPass(names, clients, rejected, entities, n).ids.Keys == FirstIds(clients, n)
  {
    hide Find;
    if n > 0 {
      var p := EntityPass(names, clients, rejected, entities, n - 1);
      assert |p.errors| <= |EntityPass(names, clients, rejected, entities, n).errors|;
      AllResolvedIffNoError(names, clients, rejected, entities, n - 1);
    }
  }

  /** The record's target is noted as unknown if and only if the first pass did not resolve
      it, and then the record is not applied.  A client outside the fetched batch is never
      resolved; when no entity failed, exactly those are not.  So after an incremental fetch an
      edge to an unchanged client is an error, although no entity upsert has failed. */
  lemma UnknownTargetIff(names: Names, clients: seq<Client>, s: Source, g: Graph, i: nat, j: nat)
    requires i < |clients| && s.listing(i).Some? && j < |s.listing(i).value|
    requires FirstPass(names, clients, s, g).session != Doomed && clients[i].id in FirstPass(names, clients, s, g).ids
    ensures var p, r := FirstPass(names, clients, s, g), s.listing(i).value[j];
            (UnknownTarget(r.id, r.toClientId) in AllOps(names, clients, s, g).1 <==> r.toClientId !in p.ids) &&
            (r.toClientId !in ClientIds(clients) ==> r.toClientId !in p.ids) &&
            (p.errors == [] ==>
               (UnknownTarget(r.id, r.toClientId) in AllOps(names, clients, s, g).1 <==>
                  r.toClientId !in ClientIds(clients)))
  {
    var p, r := FirstPass(names, clients, s, g), s.listing(i).value[j];
    var e := UnknownTarget(r.id, r.toClientId);
    var fails := EdgeFails(clients, s, p.ids, p.session == Broken);
    ErrorsAre(names, clients, s, g, e);
    IdsAreOfTheBatch(names, clients, s.entityRejected, g.entities, |clients|);
    if p.errors == [] {
      AllResolvedIffNoError(names, clients, s.entityRejected, g.entities, |clients|);
    }
    FirstIdsAre(clients, |clients|);
    assert clients[..|clients|] == clients;
    hide EntityPass, Ops, FirstIds, ClientIds;
    if r.toClientId !in p.ids {
      assert NotedAs(clients, s, p.ids, fails, i, j, e);
      assert Noted(clients, s, p.ids, fails, i, e);
    }
  }

  /** Both clients have their entity, one is fetched, nothing fails: its edge to the other is
      an error and the graph has no edge afterwards. */
  lemma IncrementalSyncDropsAnEdge(names: Names, now: int)
    ensures var a, b := Client("a", "A", None), Entity(names.entityType(None), "B", Some("B"), Some("b"));
            var g := Graph([Entity(names.entityType(None), "A", Some("A"), Some("a")), b], []);
            var s := Source(_ => Some([Relationship("r", "b", None, true)]), _ => false, (_, _) => false);
            FirstPass(names, [a], s, g).errors == [] && AllOps(names, [a], s, g) == ([], [UnknownTarget("r", "b")]) &&
            Synced(names, [a], s, g, now) == g
  {
    var a, b := Client("a", "A", None), Entity(names.entityType(None), "B", Some("B"), Some("b"));
    var first := Entity(names.entityType(None), "A", Some("A"), Some("a"));
    var g := Graph([first, b], []);
    var rels := [Relationship("r", "b", None, true)];
    var s := Source(_ => Some(rels), _ => false, (_, _) => false);
    assert UniqueClients(g.entities) && Matches(g.entities[0], "a") && "a" != "b";
    FindOwn(g.entities, "a", 0);
    hide Find;
    var p := FirstPass(names, [a], s, g);
    assert p == UpsertEntity(names, EntityPass(names, [a], s.entityRejected, g.entities, 0), a, false);
    assert p.ids == map["a" := 0] && "b" !in p.ids;
    assert g.entities[0 := first] == g.entities;
    var none: seq<Op>, unknown := [], [UnknownTarget("r", "b")];
    assert none + none == none && [] + unknown == unknown;
    assert Classify(names, rels[0], "a", 0, p.ids, false) == (none, unknown);
    var fails := EdgeFails([a], s, p.ids, false);
    assert ClientOps(names, "a", rels, 0, p.ids, fails, 0, 0) == ([], []);
    assert ClientOps(names, "a", rels, 0, p.ids, fails, 0, 1) == (none, unknown);
    assert Ops(names, [a], s, p.ids, fails, 0) == ([], []);
    assert Ops(names, [a], s, p.ids, fails, 1) == ([], [UnknownTarget("r", "b")]);
  }
}
