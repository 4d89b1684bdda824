/** The tenant audit chain and its outbox rows (core.py), one transaction at a time. */
module AuditCore {
  import opened Ordering
  import opened HashChain
  import opened Tables

  type Hash = Material<AuditContent> -> string

  function TenantIdSet(audit: map<nat, AuditRow>, tenant: string): set<nat> {
    set i | i in audit && audit[i].content.tenantId == tenant
  }

  /** The rows with the given ids, in the given order. */
  function Pick(audit: map<nat, AuditRow>, ids: seq<nat>): (rows: seq<AuditRow>)
    requires forall i | i in ids :: i in audit
    ensures |rows| == |ids| && forall k | 0 <= k < |ids| :: rows[k] == audit[ids[k]]
  {
    if ids == [] then [] else [audit[ids[0]]] + Pick(audit, ids[1..])
  }

  /** SELECT * FROM audit_events WHERE tenant_id = tenant ORDER BY id. */
  function TenantRows(audit: map<nat, AuditRow>, tenant: string): (rows: seq<AuditRow>) {
    Pick(audit, Ascending(TenantIdSet(audit, tenant)))
  }

  function AsLink(row: AuditRow): Link<AuditContent> {
    Link(row.content, row.previousHash, row.eventHash)
  }

  function Links(rows: seq<AuditRow>): (chain: seq<Link<AuditContent>>)
    ensures |chain| == |rows|
  {
    seq(|rows|, k requires 0 <= k < |rows| => AsLink(rows[k]))
  }

  function ChainOf(audit: map<nat, AuditRow>, tenant: string): seq<Link<AuditContent>> {
    Links(TenantRows(audit, tenant))
  }

  /** The hash a new audit row points at; an empty hash would count as missing. */
  function PreviousHash(audit: map<nat, AuditRow>, tenant: string): string {
    var head := Head(ChainOf(audit, tenant));
    if head == "" then GENESIS else head
  }

  function NewAuditRow(h: Hash, visible: map<nat, AuditRow>, id: nat, content: AuditContent): AuditRow {
    var previous := PreviousHash(visible, content.tenantId);
    AuditRow(id, content, previous, h(Material(content, previous)))
  }

  function NewOutboxRow(id: nat, tenant: string, topic: string, aggregateId: string, payload: Json,
                        now: string): OutboxRow
  {
    OutboxRow(EventEnvelope(id, tenant, topic, aggregateId, payload, now), None, 0, None, None)
  }

  const TOPIC := "audit.event.created"

  function EventPayload(content: AuditContent, eventHash: string): Json {
    JObj(map["module" := JStr(content.moduleName), "event_type" := JStr(content.eventType),
             "event_hash" := JStr(eventHash)])
  }

  /** The outbox row announces exactly this audit row. */
  predicate Announces(event: EventEnvelope, row: AuditRow) {
    && event.tenantId == row.content.tenantId
    && event.topic == TOPIC
    && event.aggregateId == row.content.entityId
    && event.payload == EventPayload(row.content, row.eventHash)
  }

  /** The two tables written by every domain transaction, and their id sequences. */
  datatype Core = Core(audit: map<nat, AuditRow>, outbox: map<nat, OutboxRow>, auditSeq: nat, outboxSeq: nat) {
    ghost predicate Valid() {
      && (forall i | i in audit :: i < auditSeq && audit[i].id == i)
      && (forall i | i in outbox :: i < outboxSeq && outbox[i].event.id == i)
    }
  }

  function AppendOutbox(c: Core, tenant: string, topic: string, aggregateId: string, payload: Json, now: string): Core {
    c.(outbox := c.outbox[c.outboxSeq := NewOutboxRow(c.outboxSeq, tenant, topic, aggregateId, payload, now)],
       outboxSeq := c.outboxSeq + 1)
  }

  /** append_audit_event: occurredAt is the clock reading for the audit row, now the one for the outbox row. */
  function AppendAudit(h: Hash, c: Core, content: AuditContent, now: string): Core {
    var row := NewAuditRow(h, c.audit, c.auditSeq, content);
    AppendOutbox(c.(audit := c.audit[c.auditSeq := row], auditSeq := c.auditSeq + 1),
                 content.tenantId, TOPIC, content.entityId, EventPayload(content, row.eventHash), now)
  }

  lemma {:induction false} PickConcat(audit: map<nat, AuditRow>, more: map<nat, AuditRow>, a: seq<nat>, b: seq<nat>)
    requires forall i | i in a :: i in audit && i !in more
    requires forall i | i in b :: i in more
    ensures forall i | i in a + b :: i in audit + more
    ensures Pick(audit + more, a + b) == Pick(audit, a) + Pick(more, b)
  {
    if a == [] {
      assert a + b == b;
      assert forall k | 0 <= k < |b| :: b[k] in b;
    } else {
      assert (a + b)[1..] == a[1..] + b;
      PickConcat(audit, more, a[1..], b);
    }
  }

  /** Rows that are all younger than the tenant's rows come after them in its chain. */
  lemma TenantRowsConcat(audit: map<nat, AuditRow>, more: map<nat, AuditRow>, tenant: string)
    requires audit.Keys !! more.Keys
    requires forall i, j | i in TenantIdSet(audit, tenant) && j in TenantIdSet(more, tenant) :: i < j
    ensures TenantRows(audit + more, tenant) == TenantRows(audit, tenant) + TenantRows(more, tenant)
  {
    var a, b := TenantIdSet(audit, tenant), TenantIdSet(more, tenant);
    TenantIdsUnion(audit, more, tenant);
    AscendingConcat(a, b);
    var x, y := Ascending(a), Ascending(b);
    assert forall i | i in x :: i in a;
    assert forall i | i in y :: i in b;
    PickConcat(audit, more, x, y);
  }

  lemma TenantIdsUnion(audit: map<nat, AuditRow>, more: map<nat, AuditRow>, tenant: string)
    requires audit.Keys !! more.Keys
    ensures TenantIdSet(audit + more, tenant) == TenantIdSet(audit, tenant) + TenantIdSet(more, tenant)
  {}

  lemma {:induction false} PickAgrees(a: map<nat, AuditRow>, b: map<nat, AuditRow>, ids: seq<nat>)
    requires forall i | i in ids :: i in a && i in b && a[i] == b[i]
    ensures Pick(a, ids) == Pick(b, ids)
  {
    assert forall k | 0 <= k < |ids| :: ids[k] in ids;
  }

  /** A tenant's chain depends on that tenant's rows alone. */
  lemma TenantRowsAgree(a: map<nat, AuditRow>, b: map<nat, AuditRow>, tenant: string)
    requires TenantIdSet(a, tenant) == TenantIdSet(b, tenant)
    requires forall i | i in TenantIdSet(a, tenant) :: a[i] == b[i]
    ensures TenantRows(a, tenant) == TenantRows(b, tenant)
  {
    var ids := Ascending(TenantIdSet(a, tenant));
    assert forall i | i in ids :: i in TenantIdSet(a, tenant) && i in TenantIdSet(b, tenant);
    PickAgrees(a, b, ids);
  }

  lemma LinksConcat(a: seq<AuditRow>, b: seq<AuditRow>)
    ensures Links(a + b) == Links(a) + Links(b)
  {}

  lemma TenantRowsOne(row: AuditRow, tenant: string)
    ensures TenantRows(map[row.id := row], tenant) == if row.content.tenantId == tenant then [row] else []
  {
    var ids := TenantIdSet(map[row.id := row], tenant);
    if row.content.tenantId == tenant {
      assert ids == {row.id};
      AscendingOne(row.id);
    } else {
      assert ids == {};
    }
  }

  /** A row appended above all of its tenant's rows comes last in that tenant's chain and
      in no other. */
  lemma RowAppended(audit: map<nat, AuditRow>, row: AuditRow, tenant: string)
    requires row.id !in audit
    requires forall i | i in TenantIdSet(audit, row.content.tenantId) :: i < row.id
    ensures TenantRows(audit[row.id := row], tenant) ==
      TenantRows(audit, tenant) + if tenant == row.content.tenantId then [row] else []
  {
    var one := map[row.id := row];
    assert audit[row.id := row] == audit + one;
    assert TenantIdSet(one, tenant) == if tenant == row.content.tenantId then {row.id} else {};
    TenantRowsOne(row, tenant);
    TenantRowsConcat(audit, one, tenant);
  }

  /** A row built on the head of a verifying chain keeps it verifying. */
  lemma NewRowVerifies(h: Hash, audit: map<nat, AuditRow>, id: nat, content: AuditContent)
    requires HexDigest(h)
    requires Verifies(h, ChainOf(audit, content.tenantId))
    ensures Verifies(h, ChainOf(audit, content.tenantId) + [AsLink(NewAuditRow(h, audit, id, content))])
  {
    var chain := ChainOf(audit, content.tenantId);
    if chain != [] { assert GoodAt(h, chain, |chain| - 1); }
    AppendVerifies(h, chain, AsLink(NewAuditRow(h, audit, id, content)));
  }

  lemma AppendExtends(h: Hash, audit: map<nat, AuditRow>, id: nat, content: AuditContent)
    requires HexDigest(h) && id !in audit
    requires forall i | i in TenantIdSet(audit, content.tenantId) :: i < id
    requires Verifies(h, ChainOf(audit, content.tenantId))
    ensures var row := NewAuditRow(h, audit, id, content);
      && ChainOf(audit[id := row], content.tenantId) == ChainOf(audit, content.tenantId) + [AsLink(row)]
      && Verifies(h, ChainOf(audit[id := row], content.tenantId))
  {
    var row := NewAuditRow(h, audit, id, content);
    RowAppended(audit, row, content.tenantId);
    NewRowVerifies(h, audit, id, content);
    LinksConcat(TenantRows(audit, content.tenantId), [row]);
    assert Links([row]) == [AsLink(row)];
  }

  /** One append: the tenant's chain grows by one verifying record and other tenants' chains stand. */
  lemma AppendAuditKeepsChains(h: Hash, c: Core, content: AuditContent, now: string, tenant: string)
    requires HexDigest(h) && c.Valid()
    requires Verifies(h, ChainOf(c.audit, content.tenantId)) && Verifies(h, ChainOf(c.audit, tenant))
    ensures var d := AppendAudit(h, c, content, now);
      && Verifies(h, ChainOf(d.audit, tenant))
      && |ChainOf(d.audit, tenant)| == |ChainOf(c.audit, tenant)| + (if tenant == content.tenantId then 1 else 0)
      && (tenant != content.tenantId ==> TenantRows(d.audit, tenant) == TenantRows(c.audit, tenant))
  {
    var row := NewAuditRow(h, c.audit, c.auditSeq, content);
    if tenant == content.tenantId {
      AppendExtends(h, c.audit, c.auditSeq, content);
    } else {
      RowAppended(c.audit, row, tenant);
      var rows := TenantRows(c.audit, tenant);
      assert rows + [] == rows;
    }
  }

  /** ... and the outbox gains exactly the row that announces the new audit row: waiting, with no
      attempts, and with the module, the event type and the hash of that row. */
  lemma AppendAuditAnnounces(h: Hash, c: Core, content: AuditContent, now: string)
    requires c.Valid()
    ensures var d := AppendAudit(h, c, content, now); var row := d.audit[c.auditSeq];
      && d.Valid()
      && d.audit == c.audit[c.auditSeq := row]
      && row == AuditRow(c.auditSeq, content, row.previousHash, h(Material(content, row.previousHash)))
      && d.outbox == c.outbox[c.outboxSeq := d.outbox[c.outboxSeq]]
      && d.outbox[c.outboxSeq] ==
           OutboxRow(EventEnvelope(c.outboxSeq, row.content.tenantId, "audit.event.created", row.content.entityId,
                                   JObj(map["module" := JStr(row.content.moduleName),
                                            "event_type" := JStr(row.content.eventType),
                                            "event_hash" := JStr(row.eventHash)]), now), None, 0, None, None)
  {}

  /** Every tenant's chain verifies. */
  ghost predicate ChainsOk(h: Hash, core: Core) {
    core.Valid() && forall tenant :: Verifies(h, ChainOf(core.audit, tenant))
  }

  /** The owner's chain is one longer, the others are as long as before. */
  predicate Longer(before: Core, after: Core, tenant: string, owner: string) {
    |ChainOf(after.audit, tenant)| == |ChainOf(before.audit, tenant)| + if tenant == owner then 1 else 0
  }

  lemma AppendKeepsChains(h: Hash, core: Core, content: AuditContent, now: string)
    requires HexDigest(h) && ChainsOk(h, core)
    ensures ChainsOk(h, AppendAudit(h, core, content, now))
    ensures forall tenant :: Longer(core, AppendAudit(h, core, content, now), tenant, content.tenantId)
  {
    AppendAuditAnnounces(h, core, content, now);
    forall tenant
      ensures Verifies(h, ChainOf(AppendAudit(h, core, content, now).audit, tenant))
      ensures Longer(core, AppendAudit(h, core, content, now), tenant, content.tenantId)
    {
      AppendAuditKeepsChains(h, core, content, now, tenant);
    }
  }

  /** A second row with the hash of an earlier one of its tenant (the unique key of the table)
      would be a collision. */
  lemma UniqueHashNeverFires(h: Hash, audit: map<nat, AuditRow>, id: nat, content: AuditContent, k: nat)
      returns (m: Material<AuditContent>, n: Material<AuditContent>)
    requires HexDigest(h) && id !in audit
    requires forall i | i in TenantIdSet(audit, content.tenantId) :: i < id
    requires Verifies(h, ChainOf(audit, content.tenantId))
    requires k < |TenantRows(audit, content.tenantId)|
    requires TenantRows(audit, content.tenantId)[k].eventHash == NewAuditRow(h, audit, id, content).eventHash
    ensures Collision(h, m, n)
  {
    AppendExtends(h, audit, id, content);
    var longer := ChainOf(audit[id := NewAuditRow(h, audit, id, content)], content.tenantId);
    m, n := NoRepeat(h, longer, k, |longer| - 1);
  }

  /** Two databases whose chains of a tenant verify and end in the same hash hold the same rows
      for it, ids aside, or show a collision. */
  lemma AuditBinding(h: Hash, a: map<nat, AuditRow>, b: map<nat, AuditRow>, tenant: string)
      returns (m: Material<AuditContent>, n: Material<AuditContent>)
    requires HexDigest(h)
    requires Verifies(h, ChainOf(a, tenant)) && Verifies(h, ChainOf(b, tenant))
    requires Head(ChainOf(a, tenant)) == Head(ChainOf(b, tenant))
    ensures ChainOf(a, tenant) == ChainOf(b, tenant) || Collision(h, m, n)
  {
    var x, y := ChainOf(a, tenant), ChainOf(b, tenant);
    m := Material(AuditContent("", "", "", "", "", JNull), "");
    n := m;
    if x != [] { assert GoodAt(h, x, |x| - 1) && |Head(x)| == 64; }
    if y != [] { assert GoodAt(h, y, |y| - 1) && |Head(y)| == 64; }
    if x != [] && y != [] { m, n := Binding(h, x, y); }
  }

  /** The database seen through core.py: one open connection, committed on return. */
  class AuditStore {
    const hash: Hash
    var audit: map<nat, AuditRow>
    var outbox: map<nat, OutboxRow>
    var auditSeq: nat
    var outboxSeq: nat

    constructor (hash: Hash)
      ensures this.hash == hash && State() == Core(map[], map[], 0, 0)
    {
      this.hash := hash;
      audit, outbox, auditSeq, outboxSeq := map[], map[], 0, 0;
    }

    function State(): Core reads this { Core(audit, outbox, auditSeq, outboxSeq) }

    method AppendOutboxEvent(tenant: string, topic: string, aggregateId: string, payload: Json, now: string)
      modifies this`outbox, this`outboxSeq
      ensures State() == AppendOutbox(old(State()), tenant, topic, aggregateId, payload, now)
      ensures outboxSeq == old(outboxSeq) + 1
      ensures outbox == old(outbox)[old(outboxSeq) :=
        OutboxRow(EventEnvelope(old(outboxSeq), tenant, topic, aggregateId, payload, now), None, 0, None, None)]
    {
      outbox := outbox[outboxSeq := NewOutboxRow(outboxSeq, tenant, topic, aggregateId, payload, now)];
      outboxSeq := outboxSeq + 1;
    }

    method AppendAuditEvent(moduleName: string, eventType: string, entityId: string, payload: Json, tenant: string,
                            occurredAt: string, now: string)
        returns (eventHash: string)
      modifies this
      ensures var content := AuditContent(tenant, moduleName, eventType, entityId, occurredAt, payload);
        && State() == AppendAudit(hash, old(State()), content, now)
        && eventHash == hash(Material(content, PreviousHash(old(audit), tenant)))
        && audit == old(audit)[old(auditSeq) :=
             AuditRow(old(auditSeq), content, PreviousHash(old(audit), tenant), eventHash)]
      ensures var said := JObj(map["module" := JStr(moduleName), "event_type" := JStr(eventType),
                                   "event_hash" := JStr(eventHash)]);
        outbox == old(outbox)[old(outboxSeq) :=
          OutboxRow(EventEnvelope(old(outboxSeq), tenant, "audit.event.created", entityId, said, now),
                    None, 0, None, None)]
    {
      var previous := Head(ChainOf(audit, tenant));
      var previousHash := if previous == "" then GENESIS else previous;
      var content := AuditContent(tenant, moduleName, eventType, entityId, occurredAt, payload);
      eventHash := hash(Material(content, previousHash));
      audit := audit[auditSeq := AuditRow(auditSeq, content, previousHash, eventHash)];
      auditSeq := auditSeq + 1;
      AppendOutboxEvent(tenant, TOPIC, entityId, EventPayload(content, eventHash), now);
    }

    /** verify_audit_chain: the loop over the tenant's rows in id order. */
    method VerifyAuditChain(tenant: string) returns (verdict: Verdict)
      ensures IsVerdict(hash, ChainOf(audit, tenant), verdict)
    {
      verdict := VerifyRows(hash, TenantRows(audit, tenant));
    }
  }

  /** The loop of verify_audit_chain. */
  method VerifyRows(h: Hash, rows: seq<AuditRow>) returns (verdict: Verdict)
    ensures IsVerdict(h, Links(rows), verdict)
  {
    ghost var chain := Links(rows);
    var previousHash, count := GENESIS, 0;
    for k := 0 to |rows|
      invariant count == k
      invariant previousHash == Head(chain[..k])
      invariant forall i: nat | i < k :: GoodAt(h, chain, i)
    {
      var row := rows[k];
      if row.previousHash != previousHash || h(Material(row.content, row.previousHash)) != row.eventHash {
        return Verdict(false, count, Some(row.eventHash));
      }
      assert GoodAt(h, chain, k);
      assert chain[..k + 1][k] == chain[k];
      previousHash := row.eventHash;
      count := count + 1;
    }
    return Verdict(true, count, None);
  }
}
