/**
 Many domain transactions open at once, on many tenants.  A transaction takes the lock of its
 idempotency key, if it has one, then the lock of its tenant's audit chain, appends, and commits
 or aborts; both locks are held to the end.  It sees the committed rows and its own.
 */
module Ledger {
  import opened Ordering
  import opened HashChain
  import opened Maps
  import opened Tables
  import opened AuditCore

  datatype Phase = Started | KeyHeld | AuditHeld

  /** An open transaction: the locks it holds (by phase) and the rows it has inserted so far. */
  datatype Txn = Txn(tenant: string, key: Option<string>, phase: Phase, audit: map<nat, AuditRow>,
                     events: map<nat, EventEnvelope>, source: map<nat, nat>)

  /** The committed rows.  source (which audit row an outbox row announces) and log (a tenant's
      rows in commit order) are history. */
  datatype Db = Db(audit: map<nat, AuditRow>, events: map<nat, EventEnvelope>, source: map<nat, nat>,
                   log: map<string, seq<AuditRow>>)

  /** The id sequences are never rolled back. */
  datatype Sequences = Sequences(audit: nat, outbox: nat)

  datatype State = State(db: Db, ids: Sequences, open: map<nat, Txn>)

  datatype Action =
    | Begin(x: nat, tenant: string, key: Option<string>)
    | LockKey(x: nat)
    | LockAudit(x: nat)
    | Append(x: nat, moduleName: string, eventType: string, entityId: string, payload: Json, occurredAt: string,
             now: string)
    | Commit(x: nat)
    | Abort(x: nat)

  const Init := State(Db(map[], map[], map[], map[]), Sequences(0, 0), map[])

  predicate HoldsKey(t: Txn, key: string) { t.key == Some(key) && t.phase != Started }

  predicate HoldsAudit(t: Txn, tenant: string) { t.tenant == tenant && t.phase == AuditHeld }

  /** u holds the next lock that t has to take. */
  predicate Awaits(t: Txn, u: Txn) {
    match t.phase
    case Started => if t.key.Some? then HoldsKey(u, t.key.value) else HoldsAudit(u, t.tenant)
    case KeyHeld => HoldsAudit(u, t.tenant)
    case AuditHeld => false
  }

  predicate WaitsFor(open: map<nat, Txn>, x: nat, y: nat) {
    x in open && y in open && x != y && Awaits(open[x], open[y])
  }

  predicate Blocked(open: map<nat, Txn>, x: nat) {
    exists y | y in open :: WaitsFor(open, x, y)
  }

  /** The lock that leads to that phase is the next one to take, and it is free. */
  predicate CanLock(open: map<nat, Txn>, x: nat, next: Phase) {
    x in open && !Blocked(open, x) && NextLock(open[x], next)
  }

  predicate NextLock(t: Txn, next: Phase) {
    match next
    case Started => false
    case KeyHeld => t.phase == Started && t.key.Some?
    case AuditHeld => t.phase == (if t.key.Some? then KeyHeld else Started)
  }

  function LogOf(log: map<string, seq<AuditRow>>, tenant: string): seq<AuditRow> {
    if tenant in log then log[tenant] else []
  }

  function Next(ids: Sequences): Sequences { Sequences(ids.audit + 1, ids.outbox + 1) }

  /** The transaction after its append: the audit row and the outbox row go in together. */
  function Appended(h: Hash, db: Db, ids: Sequences, t: Txn, a: Action): Txn
    requires a.Append?
  {
    var content := AuditContent(t.tenant, a.moduleName, a.eventType, a.entityId, a.occurredAt, a.payload);
    var row := NewAuditRow(h, db.audit + t.audit, ids.audit, content);
    var event := NewOutboxRow(ids.outbox, t.tenant, TOPIC, a.entityId, EventPayload(content, row.eventHash),
                              a.now).event;
    t.(audit := t.audit[ids.audit := row], events := t.events[ids.outbox := event],
       source := t.source[ids.outbox := ids.audit])
  }

  function CommitOf(db: Db, t: Txn): Db {
    Db(db.audit + t.audit, db.events + t.events, db.source + t.source,
       db.log[t.tenant := LogOf(db.log, t.tenant) + TenantRows(t.audit, t.tenant)])
  }

  /** One step.  A step that is not possible now (a lock is taken, no such transaction) waits. */
  function Apply(h: Hash, s: State, a: Action): State {
    match a
    case Begin(x, tenant, key) =>
      if x in s.open then s else s.(open := s.open[x := Txn(tenant, key, Started, map[], map[], map[])])
    case LockKey(x) =>
      if CanLock(s.open, x, KeyHeld)
      then s.(open := s.open[x := s.open[x].(phase := KeyHeld)]) else s
    case LockAudit(x) =>
      if CanLock(s.open, x, AuditHeld)
      then s.(open := s.open[x := s.open[x].(phase := AuditHeld)]) else s
    case Append(x, _, _, _, _, _, _) =>
      if x in s.open && s.open[x].phase == AuditHeld
      then State(s.db, Next(s.ids), s.open[x := Appended(h, s.db, s.ids, s.open[x], a)]) else s
    case Commit(x) =>
      if x in s.open then State(CommitOf(s.db, s.open[x]), s.ids, s.open - {x}) else s
    case Abort(x) =>
      s.(open := s.open - {x})
  }

  function Run(h: Hash, s: State, actions: seq<Action>): State
    decreases |actions|
  {
    if actions == [] then s else Run(h, Apply(h, s, actions[0]), actions[1..])
  }

  ghost predicate Announced(audit: map<nat, AuditRow>, events: map<nat, EventEnvelope>, source: map<nat, nat>) {
    forall o | o in source :: o in events && source[o] in audit && Announces(events[o], audit[source[o]])
  }

  ghost predicate Injective(source: map<nat, nat>) {
    forall o, p | o in source && p in source && source[o] == source[p] :: o == p
  }

  /** Every event announces one audit row, and every audit row is announced by exactly one event. */
  ghost predicate Paired(audit: map<nat, AuditRow>, events: map<nat, EventEnvelope>, source: map<nat, nat>) {
    && source.Keys == events.Keys
    && source.Values == audit.Keys
    && Announced(audit, events, source)
    && Injective(source)
  }

  predicate AuditIds(audit: map<nat, AuditRow>, bound: nat) {
    forall i | i in audit :: i < bound && audit[i].id == i
  }

  predicate EventIds(events: map<nat, EventEnvelope>, bound: nat) {
    forall o | o in events :: o < bound && events[o].id == o
  }

  predicate Bounded(db: Db, ids: Sequences) {
    AuditIds(db.audit, ids.audit) && EventIds(db.events, ids.outbox)
  }

  predicate OfTenant(audit: map<nat, AuditRow>, tenant: string) {
    forall i | i in audit :: audit[i].content.tenantId == tenant
  }

  /** A transaction's own rows are new rows of its tenant, announced one to one. */
  ghost predicate OwnRows(db: Db, ids: Sequences, t: Txn) {
    && AuditIds(t.audit, ids.audit) && EventIds(t.events, ids.outbox)
    && t.audit.Keys !! db.audit.Keys && t.events.Keys !! db.events.Keys
    && OfTenant(t.audit, t.tenant)
    && Paired(t.audit, t.events, t.source)
    && (t.phase != AuditHeld ==> t.audit == map[] && t.events == map[])
  }

  /** They come after the committed rows of the tenant and continue its chain. */
  ghost predicate Continues(h: Hash, audit: map<nat, AuditRow>, t: Txn) {
    && (forall i, j | i in TenantIdSet(audit, t.tenant) && j in t.audit :: i < j)
    && Verifies(h, ChainOf(audit + t.audit, t.tenant))
  }

  /** Two open transactions share no lock and no row. */
  predicate Apart(t: Txn, u: Txn) {
    && (t.phase == AuditHeld ==> !HoldsAudit(u, t.tenant))
    && (t.phase != Started && t.key.Some? ==> !HoldsKey(u, t.key.value))
    && t.audit.Keys !! u.audit.Keys && t.events.Keys !! u.events.Keys
  }

  ghost predicate AllSound(h: Hash, db: Db, ids: Sequences, open: map<nat, Txn>) {
    forall x | x in open :: OwnRows(db, ids, open[x]) && Continues(h, db.audit, open[x])
  }

  predicate AllApart(open: map<nat, Txn>) {
    forall x, y | x in open && y in open && x != y :: Apart(open[x], open[y])
  }

  /** A tenant's committed chain verifies and is its committed appends, in commit order. */
  ghost predicate TenantSound(h: Hash, db: Db, tenant: string) {
    Verifies(h, ChainOf(db.audit, tenant)) && TenantRows(db.audit, tenant) == LogOf(db.log, tenant)
  }

  ghost predicate Committed(h: Hash, db: Db) {
    (forall tenant :: TenantSound(h, db, tenant)) && Paired(db.audit, db.events, db.source)
  }

  ghost predicate Inv(h: Hash, s: State) {
    && Committed(h, s.db)
    && Bounded(s.db, s.ids)
    && AllSound(h, s.db, s.ids, s.open)
    && AllApart(s.open)
  }

  lemma InjectiveUnion(m: map<nat, nat>, n: map<nat, nat>)
    requires Injective(m) && Injective(n) && m.Values !! n.Values
    ensures Injective(m + n)
  {
    assert forall o | o in m :: m[o] in m.Values;
    assert forall o | o in n :: n[o] in n.Values;
  }

  lemma AnnouncedUnion(audit: map<nat, AuditRow>, events: map<nat, EventEnvelope>, source: map<nat, nat>,
                       audit': map<nat, AuditRow>, events': map<nat, EventEnvelope>, source': map<nat, nat>)
    requires Announced(audit, events, source) && Announced(audit', events', source')
    requires audit.Keys !! audit'.Keys && events.Keys !! events'.Keys
    ensures Announced(audit + audit', events + events', source + source')
  {}

  lemma PairedUnion(audit: map<nat, AuditRow>, events: map<nat, EventEnvelope>, source: map<nat, nat>,
                    audit': map<nat, AuditRow>, events': map<nat, EventEnvelope>, source': map<nat, nat>)
    requires Paired(audit, events, source) && Paired(audit', events', source')
    requires audit.Keys !! audit'.Keys && events.Keys !! events'.Keys
    ensures Paired(audit + audit', events + events', source + source')
  {
    ValuesUnion(source, source');
    InjectiveUnion(source, source');
    AnnouncedUnion(audit, events, source, audit', events', source');
  }

  lemma PairedOne(i: nat, row: AuditRow, o: nat, event: EventEnvelope)
    requires Announces(event, row)
    ensures Paired(map[i := row], map[o := event], map[o := i])
  {
    assert map[o := i][o] == i;
    assert map[o := i].Values == {i};
  }

  lemma InitInv(h: Hash)
    ensures Inv(h, Init)
  {
    forall tenant ensures TenantSound(h, Init.db, tenant) {
      assert TenantIdSet(Init.db.audit, tenant) == {};
    }
  }

  /** Replacing one transaction by another that shares nothing with the rest. */
  lemma ApartUpdated(open: map<nat, Txn>, x: nat, t: Txn)
    requires AllApart(open)
    requires forall y | y in open && y != x :: Apart(t, open[y]) && Apart(open[y], t)
    ensures AllApart(open[x := t])
  {}

  lemma SoundUpdated(h: Hash, db: Db, ids: Sequences, open: map<nat, Txn>, x: nat, t: Txn)
    requires AllSound(h, db, ids, open) && OwnRows(db, ids, t) && Continues(h, db.audit, t)
    ensures AllSound(h, db, ids, open[x := t])
  {}

  lemma FreshApart(open: map<nat, Txn>, t: Txn)
    requires t.phase == Started && t.audit == map[] && t.events == map[]
    ensures forall y | y in open :: Apart(t, open[y]) && Apart(open[y], t)
  {}

  lemma BeginSound(h: Hash, db: Db, ids: Sequences, open: map<nat, Txn>, x: nat, t: Txn)
    requires AllSound(h, db, ids, open) && AllApart(open)
    requires Verifies(h, ChainOf(db.audit, t.tenant)) && t == Txn(t.tenant, t.key, Started, map[], map[], map[])
    ensures AllSound(h, db, ids, open[x := t]) && AllApart(open[x := t])
  {
    UnionEmpty(db.audit);
    SoundUpdated(h, db, ids, open, x, t);
    FreshApart(open, t);
    ApartUpdated(open, x, t);
  }

  lemma LockApart(open: map<nat, Txn>, x: nat, y: nat, t: Txn)
    requires x in open && y in open && x != y && !Blocked(open, x)
    requires Apart(open[x], open[y]) && Apart(open[y], open[x])
    requires t == open[x].(phase := t.phase) && NextLock(open[x], t.phase)
    ensures Apart(t, open[y]) && Apart(open[y], t)
  {
    assert !WaitsFor(open, x, y);
  }

  lemma LockSound(h: Hash, db: Db, ids: Sequences, open: map<nat, Txn>, x: nat, t: Txn)
    requires AllSound(h, db, ids, open) && AllApart(open)
    requires CanLock(open, x, t.phase) && t == open[x].(phase := t.phase)
    ensures AllSound(h, db, ids, open[x := t]) && AllApart(open[x := t])
  {
    forall y | y in open && y != x ensures Apart(t, open[y]) && Apart(open[y], t) {
      LockApart(open, x, y, t);
    }
    ApartUpdated(open, x, t);
    SoundUpdated(h, db, ids, open, x, t);
  }

  lemma AppendContinues(h: Hash, audit: map<nat, AuditRow>, t: Txn, id: nat, content: AuditContent)
    requires HexDigest(h) && content.tenantId == t.tenant
    requires AuditIds(audit, id) && AuditIds(t.audit, id) && Continues(h, audit, t)
    ensures Continues(h, audit, t.(audit := t.audit[id := NewAuditRow(h, audit + t.audit, id, content)]))
  {
    AppendedVerifies(h, audit, t.audit, id, content, NewAuditRow(h, audit + t.audit, id, content));
  }

  lemma AppendedVerifies(h: Hash, audit: map<nat, AuditRow>, own: map<nat, AuditRow>, id: nat, content: AuditContent,
                         row: AuditRow)
    requires HexDigest(h) && AuditIds(audit, id) && AuditIds(own, id)
    requires Verifies(h, ChainOf(audit + own, content.tenantId))
    requires row == NewAuditRow(h, audit + own, id, content)
    ensures Verifies(h, ChainOf(audit + own[id := row], content.tenantId))
  {
    AppendExtends(h, audit + own, id, content);
    InsertRight(audit, own, id, row);
  }

  lemma AppendPaired(audit: map<nat, AuditRow>, events: map<nat, EventEnvelope>, source: map<nat, nat>, i: nat,
                     row: AuditRow, o: nat, event: EventEnvelope)
    requires Paired(audit, events, source) && i !in audit && o !in events && Announces(event, row)
    ensures Paired(audit[i := row], events[o := event], source[o := i])
  {
    PairedOne(i, row, o, event);
    PairedUnion(audit, events, source, map[i := row], map[o := event], map[o := i]);
    InsertIsUnion(audit, i, row);
    InsertIsUnion(events, o, event);
    InsertIsUnion(source, o, i);
  }

  lemma InsertedIds(audit: map<nat, AuditRow>, i: nat, row: AuditRow, events: map<nat, EventEnvelope>, o: nat,
                    event: EventEnvelope)
    requires AuditIds(audit, i) && EventIds(events, o) && OfTenant(audit, row.content.tenantId)
    requires row.id == i && event.id == o
    ensures AuditIds(audit[i := row], i + 1) && EventIds(events[o := event], o + 1)
    ensures OfTenant(audit[i := row], row.content.tenantId)
  {}

  lemma FreshIds(db: Db, ids: Sequences)
    requires Bounded(db, ids)
    ensures ids.audit !in db.audit && ids.outbox !in db.events
  {}

  lemma AppendOwnRows(h: Hash, db: Db, ids: Sequences, t: Txn, a: Action)
    requires a.Append? && t.phase == AuditHeld && OwnRows(db, ids, t) && Bounded(db, ids)
    ensures OwnRows(db, Next(ids), Appended(h, db, ids, t, a))
  {
    var t' := Appended(h, db, ids, t, a);
    FreshIds(db, ids);
    AppendPaired(t.audit, t.events, t.source, ids.audit, t'.audit[ids.audit], ids.outbox, t'.events[ids.outbox]);
    InsertedIds(t.audit, ids.audit, t'.audit[ids.audit], t.events, ids.outbox, t'.events[ids.outbox]);
  }

  /** The sequences moved on; nothing else did. */
  lemma NextKeeps(h: Hash, db: Db, ids: Sequences, open: map<nat, Txn>)
    requires AllSound(h, db, ids, open)
    ensures AllSound(h, db, Next(ids), open)
  {
    forall x | x in open ensures OwnRows(db, Next(ids), open[x]) { assert OwnRows(db, ids, open[x]); }
  }

  lemma AppendApart(t: Txn, u: Txn, t': Txn, i: nat, o: nat)
    requires Apart(t, u) && Apart(u, t) && i !in u.audit && o !in u.events
    requires t' == t.(audit := t'.audit, events := t'.events, source := t'.source)
    requires t'.audit.Keys == t.audit.Keys + {i} && t'.events.Keys == t.events.Keys + {o}
    ensures Apart(t', u) && Apart(u, t')
  {}

  lemma AppendSound(h: Hash, db: Db, ids: Sequences, open: map<nat, Txn>, x: nat, a: Action)
    requires HexDigest(h) && Bounded(db, ids) && AllSound(h, db, ids, open)
    requires a.Append? && x in open && open[x].phase == AuditHeld
    ensures AllSound(h, db, Next(ids), open[x := Appended(h, db, ids, open[x], a)])
  {
    var t' := Appended(h, db, ids, open[x], a);
    assert OwnRows(db, ids, open[x]);
    AppendContinues(h, db.audit, open[x], ids.audit, t'.audit[ids.audit].content);
    AppendOwnRows(h, db, ids, open[x], a);
    NextKeeps(h, db, ids, open);
    SoundUpdated(h, db, Next(ids), open, x, t');
  }

  lemma AppendAllApart(h: Hash, db: Db, ids: Sequences, open: map<nat, Txn>, x: nat, a: Action)
    requires AllApart(open) && a.Append? && x in open
    requires forall y | y in open :: AuditIds(open[y].audit, ids.audit) && EventIds(open[y].events, ids.outbox)
    ensures AllApart(open[x := Appended(h, db, ids, open[x], a)])
  {
    var t' := Appended(h, db, ids, open[x], a);
    forall y | y in open && y != x ensures Apart(t', open[y]) && Apart(open[y], t') {
      AppendApart(open[x], open[y], t', ids.audit, ids.outbox);
    }
    ApartUpdated(open, x, t');
  }

  /** Rows of one tenant committed on top of the table leave every other tenant's rows alone. */
  lemma OthersUntouched(audit: map<nat, AuditRow>, more: map<nat, AuditRow>, owner: string, tenant: string)
    requires audit.Keys !! more.Keys && tenant != owner && OfTenant(more, owner)
    ensures TenantRows(audit + more, tenant) == TenantRows(audit, tenant)
    ensures TenantIdSet(audit + more, tenant) == TenantIdSet(audit, tenant)
  {
    TenantRowsAgree(audit, audit + more, tenant);
  }

  lemma CommitTenant(h: Hash, db: Db, t: Txn, tenant: string)
    requires db.audit.Keys !! t.audit.Keys && OfTenant(t.audit, t.tenant) && Continues(h, db.audit, t)
    requires TenantSound(h, db, tenant)
    ensures TenantSound(h, CommitOf(db, t), tenant)
  {
    if tenant == t.tenant {
      TenantRowsConcat(db.audit, t.audit, tenant);
    } else {
      OthersUntouched(db.audit, t.audit, t.tenant, tenant);
    }
  }

  lemma IdsUnion(audit: map<nat, AuditRow>, audit': map<nat, AuditRow>, auditSeq: nat, events: map<nat, EventEnvelope>,
                 events': map<nat, EventEnvelope>, outboxSeq: nat)
    requires AuditIds(audit, auditSeq) && AuditIds(audit', auditSeq)
    requires EventIds(events, outboxSeq) && EventIds(events', outboxSeq)
    ensures AuditIds(audit + audit', auditSeq) && EventIds(events + events', outboxSeq)
  {}

  lemma CommitCommitted(h: Hash, db: Db, ids: Sequences, t: Txn)
    requires Committed(h, db) && Bounded(db, ids) && OwnRows(db, ids, t) && Continues(h, db.audit, t)
    ensures Committed(h, CommitOf(db, t)) && Bounded(CommitOf(db, t), ids)
  {
    forall tenant ensures TenantSound(h, CommitOf(db, t), tenant) {
      assert TenantSound(h, db, tenant);
      CommitTenant(h, db, t, tenant);
    }
    PairedUnion(db.audit, db.events, db.source, t.audit, t.events, t.source);
    IdsUnion(db.audit, t.audit, ids.audit, db.events, t.events, ids.outbox);
  }

  lemma CommitContinues(h: Hash, audit: map<nat, AuditRow>, t: Txn, u: Txn)
    requires Continues(h, audit, u) && Apart(t, u) && audit.Keys !! t.audit.Keys && OfTenant(t.audit, t.tenant)
    requires t.phase != AuditHeld ==> t.audit == map[]
    requires u.phase != AuditHeld ==> u.audit == map[]
    requires Verifies(h, ChainOf(audit + t.audit, u.tenant))
    ensures Continues(h, audit + t.audit, u)
  {
    if u.phase != AuditHeld {
      UnionEmpty(audit + t.audit);
    } else if t.tenant != u.tenant {
      OtherContinues(h, audit, t, u);
    } else {
      UnionEmpty(audit);
    }
  }

  lemma OtherContinues(h: Hash, audit: map<nat, AuditRow>, t: Txn, u: Txn)
    requires Continues(h, audit, u) && Apart(t, u) && audit.Keys !! t.audit.Keys && OfTenant(t.audit, t.tenant)
    requires t.tenant != u.tenant
    ensures Continues(h, audit + t.audit, u)
  {
    OthersUntouched(audit, t.audit, t.tenant, u.tenant);
    UnionSwap(audit, t.audit, u.audit);
    OthersUntouched(audit + u.audit, t.audit, t.tenant, u.tenant);
  }

  lemma CommitSound(h: Hash, db: Db, ids: Sequences, open: map<nat, Txn>, x: nat)
    requires AllSound(h, db, ids, open) && AllApart(open) && x in open
    requires Committed(h, CommitOf(db, open[x]))
    ensures AllSound(h, CommitOf(db, open[x]), ids, open - {x})
  {
    var t := open[x];
    forall y | y in open && y != x
      ensures OwnRows(CommitOf(db, t), ids, open[y]) && Continues(h, CommitOf(db, t).audit, open[y])
    {
      assert Apart(t, open[y]) && OwnRows(db, ids, t) && OwnRows(db, ids, open[y]);
      assert TenantSound(h, CommitOf(db, t), open[y].tenant);
      CommitContinues(h, db.audit, t, open[y]);
    }
  }

  lemma ApartRemoved(open: map<nat, Txn>, x: nat)
    requires AllApart(open)
    ensures AllApart(open - {x})
  {}

  lemma CommitKeeps(h: Hash, s: State, x: nat, s': State)
    requires Inv(h, s) && x in s.open && s' == State(CommitOf(s.db, s.open[x]), s.ids, s.open - {x})
    ensures Inv(h, s')
  {
    assert OwnRows(s.db, s.ids, s.open[x]) && Continues(h, s.db.audit, s.open[x]);
    CommitCommitted(h, s.db, s.ids, s.open[x]);
    CommitSound(h, s.db, s.ids, s.open, x);
    ApartRemoved(s.open, x);
    InvParts(h, CommitOf(s.db, s.open[x]), s.ids, s.open - {x}, s');
  }

  lemma InvParts(h: Hash, db: Db, ids: Sequences, open: map<nat, Txn>, s: State)
    requires Committed(h, db) && Bounded(db, ids) && AllSound(h, db, ids, open) && AllApart(open)
    requires s == State(db, ids, open)
    ensures Inv(h, s)
  {}

  lemma BeginKeeps(h: Hash, s: State, x: nat, tenant: string, key: Option<string>, s': State)
    requires Inv(h, s) && s' == s.(open := s.open[x := Txn(tenant, key, Started, map[], map[], map[])])
    ensures Inv(h, s')
  {
    assert TenantSound(h, s.db, tenant);
    BeginSound(h, s.db, s.ids, s.open, x, Txn(tenant, key, Started, map[], map[], map[]));
    InvParts(h, s.db, s.ids, s'.open, s');
  }

  lemma LockKeeps(h: Hash, s: State, x: nat, next: Phase, s': State)
    requires Inv(h, s) && CanLock(s.open, x, next) && s' == s.(open := s.open[x := s.open[x].(phase := next)])
    ensures Inv(h, s')
  {
    LockSound(h, s.db, s.ids, s.open, x, s.open[x].(phase := next));
    InvParts(h, s.db, s.ids, s'.open, s');
  }

  lemma AppendKeeps(h: Hash, s: State, x: nat, a: Action, s': State)
    requires HexDigest(h) && Inv(h, s) && a.Append? && x in s.open && s.open[x].phase == AuditHeld
    requires s' == State(s.db, Next(s.ids), s.open[x := Appended(h, s.db, s.ids, s.open[x], a)])
    ensures Inv(h, s')
  {
    AppendSound(h, s.db, s.ids, s.open, x, a);
    assert forall y | y in s.open :: OwnRows(s.db, s.ids, s.open[y]);
    AppendAllApart(h, s.db, s.ids, s.open, x, a);
    InvParts(h, s.db, Next(s.ids), s'.open, s');
  }

  lemma AbortKeeps(h: Hash, s: State, x: nat, s': State)
    requires Inv(h, s) && s' == s.(open := s.open - {x})
    ensures Inv(h, s')
  {
    InvParts(h, s.db, s.ids, s'.open, s');
  }

  lemma ApplyKeeps(h: Hash, s: State, a: Action)
    requires HexDigest(h) && Inv(h, s)
    ensures Inv(h, Apply(h, s, a))
  {
    var s' := Apply(h, s, a);
    if s' == s {
      InvSame(h, s, s');
    } else {
      match a
      case Begin(x, tenant, key) => BeginKeeps(h, s, x, tenant, key, s');
      case LockKey(x) => LockKeeps(h, s, x, KeyHeld, s');
      case LockAudit(x) => LockKeeps(h, s, x, AuditHeld, s');
      case Append(x, _, _, _, _, _, _) => AppendKeeps(h, s, x, a, s');
      case Commit(x) => CommitKeeps(h, s, x, s');
      case Abort(x) => AbortKeeps(h, s, x, s');
    }
  }

  lemma InvSame(h: Hash, s: State, s': State)
    requires Inv(h, s) && s' == s
    ensures Inv(h, s')
  {}

  lemma {:induction false} RunKeeps(h: Hash, s: State, actions: seq<Action>)
    requires HexDigest(h) && Inv(h, s)
    ensures Inv(h, Run(h, s, actions))
    decreases |actions|
  {
    if actions != [] {
      ApplyKeeps(h, s, actions[0]);
      RunKeeps(h, Apply(h, s, actions[0]), actions[1..]);
    }
  }

  /** Whatever the interleaving, the committed state has every tenant's chain verifying, made of
      exactly that tenant's committed appends in commit order, and one outbox row per audit row. */
  lemma EveryChainVerifies(h: Hash, actions: seq<Action>, tenant: string, v: Verdict)
    requires HexDigest(h)
    requires IsVerdict(h, ChainOf(Run(h, Init, actions).db.audit, tenant), v)
    ensures var db := Run(h, Init, actions).db;
      && v == Verdict(true, |LogOf(db.log, tenant)|, None)
      && TenantRows(db.audit, tenant) == LogOf(db.log, tenant)
      && Paired(db.audit, db.events, db.source)
  {
    var db := Run(h, Init, actions).db;
    InitInv(h);
    RunKeeps(h, Init, actions);
    assert TenantSound(h, db, tenant);
    VerdictExact(h, ChainOf(db.audit, tenant), v);
  }

  /** Only a commit changes committed rows, and only those of its own tenant. */
  lemma OtherTenantsStand(h: Hash, s: State, a: Action, tenant: string)
    requires AllSound(h, s.db, s.ids, s.open)
    requires a.Commit? && a.x in s.open ==> s.open[a.x].tenant != tenant
    ensures TenantRows(Apply(h, s, a).db.audit, tenant) == TenantRows(s.db.audit, tenant)
    ensures LogOf(Apply(h, s, a).db.log, tenant) == LogOf(s.db.log, tenant)
  {
    if a.Commit? && a.x in s.open {
      assert OwnRows(s.db, s.ids, s.open[a.x]);
      CommitOther(s.db, s.open[a.x], tenant);
    }
  }

  lemma CommitOther(db: Db, t: Txn, tenant: string)
    requires db.audit.Keys !! t.audit.Keys && OfTenant(t.audit, t.tenant) && tenant != t.tenant
    ensures TenantRows(CommitOf(db, t).audit, tenant) == TenantRows(db.audit, tenant)
    ensures LogOf(CommitOf(db, t).log, tenant) == LogOf(db.log, tenant)
  {
    OthersUntouched(db.audit, t.audit, t.tenant, tenant);
  }

  lemma RunFirst(h: Hash, s: State, actions: seq<Action>, k: nat)
    requires k < |actions|
    ensures Run(h, s, actions[k..]) == Run(h, Apply(h, s, actions[k]), actions[k + 1..])
  {
    assert actions[k..][1..] == actions[k + 1..];
  }

  lemma RunFour(h: Hash, s: State, a: Action, b: Action, c: Action, d: Action)
    ensures Run(h, s, [a, b, c, d]) == Apply(h, Apply(h, Apply(h, Apply(h, s, a), b), c), d)
  {
    var all := [a, b, c, d];
    assert all[0..] == all && all[4..] == [];
    RunFirst(h, s, all, 0);
    RunFirst(h, Apply(h, s, a), all, 1);
    RunFirst(h, Apply(h, Apply(h, s, a), b), all, 2);
    RunFirst(h, Apply(h, Apply(h, Apply(h, s, a), b), c), all, 3);
  }

  /** The state of a transaction alone in the database that has taken its tenant's lock. */
  predicate Alone(s: State, x: nat, tenant: string) {
    s.open == map[x := Txn(tenant, None, AuditHeld, map[], map[], map[])]
  }

  lemma AloneLocks(h: Hash, s: State, x: nat, tenant: string)
    requires s.open == map[]
    ensures var s' := Apply(h, Apply(h, s, Begin(x, tenant, None)), LockAudit(x));
      Alone(s', x, tenant) && s'.db == s.db && s'.ids == s.ids
  {
    var s1 := Apply(h, s, Begin(x, tenant, None));
    assert s1.open == map[x := Txn(tenant, None, Started, map[], map[], map[])];
    assert !Blocked(s1.open, x);
  }

  /** What one append adds to an empty transaction is what append_audit_event adds. */
  lemma AloneAppends(h: Hash, db: Db, ids: Sequences, t: Txn, a: Action, core: Core)
    requires a.Append? && t.audit == map[] && t.events == map[]
    requires core.audit == db.audit && core.auditSeq == ids.audit && core.outboxSeq == ids.outbox
    ensures var t' := Appended(h, db, ids, t, a);
      var after := AppendAudit(h, core,
                               AuditContent(t.tenant, a.moduleName, a.eventType, a.entityId, a.occurredAt, a.payload),
                               a.now);
      && t'.audit == map[ids.audit := after.audit[ids.audit]]
      && t'.events == map[ids.outbox := after.outbox[ids.outbox].event]
      && after.audit == db.audit[ids.audit := after.audit[ids.audit]]
      && Next(ids) == Sequences(after.auditSeq, after.outboxSeq)
  {
    UnionEmpty(db.audit);
  }

  /** The database shows one more append on top of core. */
  predicate AppendShown(h: Hash, before: Db, core: Core, content: AuditContent, now: string, s: State) {
    var after := AppendAudit(h, core, content, now);
    && s.open == map[] && s.db.audit == after.audit && s.ids == Sequences(after.auditSeq, after.outboxSeq)
    && s.db.events == before.events[core.outboxSeq := after.outbox[core.outboxSeq].event]
  }

  lemma AloneFinishes(h: Hash, s: State, x: nat, tenant: string, a: Action, core: Core)
    requires Alone(s, x, tenant) && a.Append? && a.x == x
    requires core.audit == s.db.audit && core.auditSeq == s.ids.audit && core.outboxSeq == s.ids.outbox
    ensures AppendShown(h, s.db, core,
                        AuditContent(tenant, a.moduleName, a.eventType, a.entityId, a.occurredAt, a.payload), a.now,
                        Apply(h, Apply(h, s, a), Commit(x)))
  {
    var t' := Appended(h, s.db, s.ids, s.open[x], a);
    AloneAppends(h, s.db, s.ids, s.open[x], a, core);
    AloneSteps(h, s, x, tenant, a, t');
    InsertIsUnion(s.db.audit, s.ids.audit, t'.audit[s.ids.audit]);
    InsertIsUnion(s.db.events, s.ids.outbox, t'.events[s.ids.outbox]);
  }

  lemma AloneSteps(h: Hash, s: State, x: nat, tenant: string, a: Action, t: Txn)
    requires Alone(s, x, tenant) && a.Append? && a.x == x && t == Appended(h, s.db, s.ids, s.open[x], a)
    ensures Apply(h, Apply(h, s, a), Commit(x)) == State(CommitOf(s.db, t), Next(s.ids), map[])
  {
    assert Apply(h, s, a) == State(s.db, Next(s.ids), map[x := t]);
    CommitCloses(h, Apply(h, s, a), x);
    assert map[x := t] - {x} == map[];
  }

  /** A transaction with one append and no other transaction around does what append_audit_event
      does. */
  lemma AppendIsARun(h: Hash, s: State, x: nat, tenant: string, a: Action, core: Core)
    requires s.open == map[] && a.Append? && a.x == x
    requires core.audit == s.db.audit && core.auditSeq == s.ids.audit && core.outboxSeq == s.ids.outbox
    ensures AppendShown(h, s.db, core,
                        AuditContent(tenant, a.moduleName, a.eventType, a.entityId, a.occurredAt, a.payload), a.now,
                        Run(h, s, [Begin(x, tenant, None), LockAudit(x), a, Commit(x)]))
  {
    RunFour(h, s, Begin(x, tenant, None), LockAudit(x), a, Commit(x));
    AloneLocks(h, s, x, tenant);
    AloneFinishes(h, Apply(h, Apply(h, s, Begin(x, tenant, None)), LockAudit(x)), x, tenant, a, core);
  }

  lemma CommitCloses(h: Hash, s: State, x: nat)
    requires x in s.open
    ensures Apply(h, s, Commit(x)) == State(CommitOf(s.db, s.open[x]), s.ids, s.open - {x})
  {}

  function PhaseRank(p: Phase): nat {
    match p case Started => 0 case KeyHeld => 1 case AuditHeld => 2
  }

  /** Waiting always points to a transaction further on in the lock order. */
  lemma WaitsUpward(open: map<nat, Txn>, x: nat, y: nat)
    requires WaitsFor(open, x, y)
    ensures PhaseRank(open[x].phase) < PhaseRank(open[y].phase)
  {}

  /** A chain of waits, each transaction waiting for the next. */
  ghost predicate WaitChain(open: map<nat, Txn>, path: seq<nat>) {
    forall i | 0 <= i < |path| - 1 :: WaitsFor(open, path[i], path[i + 1])
  }

  /** No chain of waits has more than three transactions in it, none closes a cycle, and while any
      transaction is open some open one can take its next step. */
  lemma NoDeadlock(open: map<nat, Txn>, path: seq<nat>)
    ensures WaitChain(open, path) ==> |path| <= 3 && (|path| >= 2 ==> path[0] != path[|path| - 1])
    ensures open != map[] ==> exists x | x in open :: !Blocked(open, x)
  {
    if WaitChain(open, path) && |path| >= 2 {
      WaitsUpward(open, path[0], path[1]);
      if |path| >= 3 { WaitsUpward(open, path[1], path[2]); }
      if |path| >= 4 { WaitsUpward(open, path[2], path[3]); }
    }
    if open != map[] {
      var x :| x in open;
      if Blocked(open, x) {
        var y :| y in open && WaitsFor(open, x, y);
        WaitsUpward(open, x, y);
        if Blocked(open, y) {
          var z :| z in open && WaitsFor(open, y, z);
          WaitsUpward(open, y, z);
          assert !Blocked(open, z);
        }
      }
    }
  }

  /** A key's lock was taken for a key; so it is in every reachable state. */
  predicate HasKeys(open: map<nat, Txn>) { forall x | x in open :: open[x].phase == KeyHeld ==> open[x].key.Some? }

  lemma {:induction false} KeysStay(h: Hash, s: State, actions: seq<Action>)
    requires HasKeys(s.open)
    ensures HasKeys(Run(h, s, actions).open)
    decreases |actions|
  {
    if actions != [] { KeysStay(h, Apply(h, s, actions[0]), actions[1..]); }
  }

  /** What a transaction has to do next to finish: take its next lock, or commit. */
  function NextStep(t: Txn, x: nat): Action {
    match t.phase
    case Started => if t.key.Some? then LockKey(x) else LockAudit(x)
    case KeyHeld => LockAudit(x)
    case AuditHeld => Commit(x)
  }

  /** In every reachable state with an open transaction, the next step of some open transaction does
      not have to wait. */
  lemma Progress(h: Hash, actions: seq<Action>)
    ensures var s := Run(h, Init, actions);
      s.open != map[] ==> exists x :: x in s.open && Apply(h, s, NextStep(s.open[x], x)) != s
  {
    var s := Run(h, Init, actions);
    KeysStay(h, Init, actions);
    if s.open != map[] { SomeStep(h, s); }
  }

  lemma SomeStep(h: Hash, s: State)
    requires s.open != map[] && HasKeys(s.open)
    ensures exists x :: x in s.open && Apply(h, s, NextStep(s.open[x], x)) != s
  {
    NoDeadlock(s.open, []);
    var x :| x in s.open && !Blocked(s.open, x);
    StepTaken(h, s, x);
  }

  lemma StepTaken(h: Hash, s: State, x: nat)
    requires x in s.open && !Blocked(s.open, x) && HasKeys(s.open)
    ensures var s' := Apply(h, s, NextStep(s.open[x], x));
      if s.open[x].phase == AuditHeld then s'.open == s.open - {x}
      else if s.open[x].phase == Started && s.open[x].key.Some? then
        s'.open == s.open[x := s.open[x].(phase := KeyHeld)]
      else s'.open == s.open[x := s.open[x].(phase := AuditHeld)]
  {}

  /** The transactions that hold the most locks wait for no one. */
  lemma FurthestGoes(open: map<nat, Txn>, x: nat)
    requires x in open && forall y | y in open && y != x :: PhaseRank(open[y].phase) <= PhaseRank(open[x].phase)
    ensures !Blocked(open, x)
  {
    forall y | y in open ensures !WaitsFor(open, x, y) {
      if WaitsFor(open, x, y) { WaitsUpward(open, x, y); }
    }
  }

  /** Locks and commits only: nothing is given up. */
  predicate Finishing(actions: seq<Action>) {
    forall i | 0 <= i < |actions| :: actions[i].LockKey? || actions[i].LockAudit? || actions[i].Commit?
  }

  /** A transaction that no other one is ahead of can take its locks and commit at once. */
  lemma {:induction false} FinishFurthest(h: Hash, s: State, x: nat) returns (steps: seq<Action>)
    requires x in s.open && forall y | y in s.open && y != x :: PhaseRank(s.open[y].phase) <= PhaseRank(s.open[x].phase)
    requires HasKeys(s.open)
    ensures Finishing(steps) && |steps| <= 3 - PhaseRank(s.open[x].phase)
    ensures Run(h, s, steps).open == s.open - {x}
    decreases 2 - PhaseRank(s.open[x].phase)
  {
    FurthestGoes(s.open, x);
    StepTaken(h, s, x);
    var step := NextStep(s.open[x], x);
    var s' := Apply(h, s, step);
    if s.open[x].phase == AuditHeld {
      steps := [step];
      assert Run(h, s', []) == s';
    } else {
      var rest := FinishFurthest(h, s', x);
      steps := [step] + rest;
      assert steps[1..] == rest;
      assert s'.open - {x} == s.open - {x};
    }
  }

  lemma {:induction false} SomeFurthest(open: map<nat, Txn>) returns (x: nat)
    requires open != map[]
    ensures x in open && forall y | y in open :: PhaseRank(open[y].phase) <= PhaseRank(open[x].phase)
  {
    x :| x in open;
    if y :| y in open && PhaseRank(open[y].phase) > PhaseRank(open[x].phase) {
      x := y;
      if z :| z in open && PhaseRank(open[z].phase) > PhaseRank(open[x].phase) { x := z; }
    }
  }

  lemma {:induction false} FinishAll(h: Hash, s: State) returns (steps: seq<Action>)
    requires HasKeys(s.open)
    ensures Finishing(steps) && |steps| <= 3 * |s.open| && Run(h, s, steps).open == map[]
    decreases |s.open|
  {
    if s.open == map[] {
      steps := [];
    } else {
      var x := SomeFurthest(s.open);
      var first := FinishFurthest(h, s, x);
      var s' := Run(h, s, first);
      OneLess(s.open, x);
      var rest := FinishAll(h, s');
      steps := first + rest;
      RunAppend(h, s, first, rest);
    }
  }

  /** From every reachable state, locks and commits alone finish all open transactions, in at most
      three steps for each. */
  lemma AllFinish(h: Hash, actions: seq<Action>) returns (steps: seq<Action>)
    ensures var s := Run(h, Init, actions);
      Finishing(steps) && |steps| <= 3 * |s.open| && Run(h, s, steps).open == map[]
  {
    KeysStay(h, Init, actions);
    steps := FinishAll(h, Run(h, Init, actions));
  }

  lemma OneLess(open: map<nat, Txn>, x: nat)
    requires x in open
    ensures |open - {x}| == |open| - 1
  {
    assert (open - {x}).Keys == open.Keys - {x};
    assert |(open - {x}).Keys| == |open - {x}| && |open.Keys| == |open|;
  }

  lemma {:induction false} RunAppend(h: Hash, s: State, a: seq<Action>, b: seq<Action>)
    ensures Run(h, s, a + b) == Run(h, Run(h, s, a), b)
    decreases |a|
  {
    if a == [] {
      assert a + b == b;
    } else {
      assert (a + b)[1..] == a[1..] + b;
      RunAppend(h, Apply(h, s, a[0]), a[1..], b);
    }
  }
}
