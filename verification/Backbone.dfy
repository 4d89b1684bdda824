/**
 The event and audit backbone end to end: domain transactions that commit audit rows together
 with outbox rows, and the workers, replays and consumers that act on those outbox rows.
 */
module Backbone {
  import opened Ordering
  import opened HashChain
  import opened Tables
  import opened AuditCore
  import opened Outbox
  import L = Ledger
  import D = Delivery

  datatype State = State(ledger: L.State, delivery: D.State)

  /** A step of a domain transaction, or a step of the delivery protocol. */
  datatype Action = Domain(domain: L.Action) | Queue(queue: D.Action)

  const Init := State(L.Init, D.Init)

  /** Outbox rows come from domain commits only: the commit that makes the audit rows visible
      makes the outbox rows visible. */
  function Apply(h: Hash, max: nat, s: State, a: Action): State {
    match a
    case Domain(b) =>
      State(L.Apply(h, s.ledger, b),
            if b.Commit? && b.x in s.ledger.open
              then D.Apply(max, s.delivery, D.Enqueue(s.ledger.open[b.x].events)) else s.delivery)
    case Queue(b) =>
      if b.Enqueue? then s else State(s.ledger, D.Apply(max, s.delivery, b))
  }

  function Run(h: Hash, max: nat, s: State, actions: seq<Action>): State
    decreases |actions|
  {
    if actions == [] then s else Run(h, max, Apply(h, max, s, actions[0]), actions[1..])
  }

  /** The outbox holds exactly the events of the committed domain transactions. */
  predicate Linked(events: map<nat, EventEnvelope>, outbox: map<nat, OutboxRow>) {
    outbox.Keys == events.Keys && forall o | o in outbox :: outbox[o].event == events[o]
  }

  ghost predicate Inv(h: Hash, max: nat, s: State) {
    L.Inv(h, s.ledger) && D.Inv(max, s.delivery) && Linked(s.ledger.db.events, s.delivery.q.outbox)
  }

  lemma CommitIsFresh(h: Hash, db: L.Db, ids: L.Sequences, open: map<nat, L.Txn>, x: nat, outbox: map<nat, OutboxRow>)
    requires L.AllSound(h, db, ids, open) && Linked(db.events, outbox) && x in open
    ensures D.Fresh(outbox, open[x].events)
    ensures Linked(db.events + open[x].events, outbox + D.NewRows(open[x].events))
  {
    assert L.OwnRows(db, ids, open[x]);
    LinkedUnion(db.events, outbox, open[x].events);
  }

  lemma LinkedUnion(events: map<nat, EventEnvelope>, outbox: map<nat, OutboxRow>, more: map<nat, EventEnvelope>)
    requires Linked(events, outbox) && more.Keys !! outbox.Keys
    ensures Linked(events + more, outbox + D.NewRows(more))
  {}

  lemma SettledLinked(events: map<nat, EventEnvelope>, q: D.Queue, b: D.Batch, max: nat)
    requires Linked(events, q.outbox) && D.BatchOk(q, b, max)
    ensures Linked(events, D.Settled(q, b, max).outbox)
  {}

  /** Publishing, replaying and consuming add no outbox row and change no event. */
  lemma QueueLinked(events: map<nat, EventEnvelope>, max: nat, s: D.State, a: D.Action)
    requires D.BatchesOk(s.q, s.open, max) && Linked(events, s.q.outbox) && !a.Enqueue?
    ensures Linked(events, D.Apply(max, s, a).q.outbox)
  {
    if a.CommitBatch? && a.w in s.open { SettledLinked(events, s.q, s.open[a.w], max); }
  }

  lemma LedgerKeepsEvents(h: Hash, s: L.State, a: L.Action)
    ensures L.Apply(h, s, a).db.events ==
      if a.Commit? && a.x in s.open then s.db.events + s.open[a.x].events else s.db.events
  {}

  lemma DomainKeeps(h: Hash, max: nat, s: State, b: L.Action)
    requires HexDigest(h) && 0 < max && Inv(h, max, s)
    ensures Inv(h, max, Apply(h, max, s, Domain(b)))
  {
    L.ApplyKeeps(h, s.ledger, b);
    LedgerKeepsEvents(h, s.ledger, b);
    if b.Commit? && b.x in s.ledger.open {
      CommitIsFresh(h, s.ledger.db, s.ledger.ids, s.ledger.open, b.x, s.delivery.q.outbox);
      D.ApplyKeeps(max, s.delivery, D.Enqueue(s.ledger.open[b.x].events));
    }
  }

  lemma {:induction false} RunKeeps(h: Hash, max: nat, s: State, actions: seq<Action>)
    requires HexDigest(h) && 0 < max && Inv(h, max, s)
    ensures Inv(h, max, Run(h, max, s, actions))
    decreases |actions|
  {
    if actions != [] {
      match actions[0] {
        case Domain(b) => DomainKeeps(h, max, s, b);
        case Queue(b) =>
          if !b.Enqueue? {
            D.ApplyKeeps(max, s.delivery, b);
            QueueLinked(s.ledger.db.events, max, s.delivery, b);
          }
      }
      RunKeeps(h, max, Apply(h, max, s, actions[0]), actions[1..]);
    }
  }

  lemma Reachable(h: Hash, max: nat, actions: seq<Action>)
    requires HexDigest(h) && 0 < max
    ensures Inv(h, max, Run(h, max, Init, actions))
  {
    L.InitInv(h);
    D.InitInv(max);
    RunKeeps(h, max, Init, actions);
  }

  /** The audit row that an outbox row announces. */
  ghost predicate AnnouncesCommitted(db: L.Db, event: EventEnvelope) {
    event.id in db.source && db.source[event.id] in db.audit && Announces(event, db.audit[db.source[event.id]])
  }

  /** In every committed state of every run there is one outbox row per audit row, on the topic of
      audit events, and its payload is the module, the event type and the hash of that audit row. */
  lemma OneOutboxRowPerAuditRow(h: Hash, max: nat, actions: seq<Action>)
    requires HexDigest(h) && 0 < max
    ensures var s := Run(h, max, Init, actions);
      var db, outbox := s.ledger.db, s.delivery.q.outbox;
      && (forall o | o in outbox :: outbox[o].event.id == o && o in db.source && db.source[o] in db.audit)
      && (forall o | o in outbox ::
            var event, row := outbox[o].event, db.audit[db.source[o]];
            && event.topic == "audit.event.created"
            && event.tenantId == row.content.tenantId && event.aggregateId == row.content.entityId
            && event.payload == JObj(map["module" := JStr(row.content.moduleName),
                                         "event_type" := JStr(row.content.eventType),
                                         "event_hash" := JStr(row.eventHash)]))
      && (forall i | i in db.audit :: exists o | o in outbox :: db.source[o] == i)
      && (forall o, p | o in outbox && p in outbox && db.source[o] == db.source[p] :: o == p)
  {
    Reachable(h, max, actions);
    var s := Run(h, max, Init, actions);
    PairedLinked(s.ledger.db, s.delivery.q.outbox, max);
  }

  lemma PairedLinked(db: L.Db, outbox: map<nat, OutboxRow>, max: nat)
    requires L.Paired(db.audit, db.events, db.source) && Linked(db.events, outbox) && RowsOk(outbox, max)
    ensures forall o | o in outbox :: outbox[o].event.id == o && AnnouncesCommitted(db, outbox[o].event)
    ensures forall i | i in db.audit :: exists o | o in outbox :: db.source[o] == i
    ensures forall o, p | o in outbox && p in outbox && db.source[o] == db.source[p] :: o == p
  {
    forall i | i in db.audit ensures exists o | o in outbox :: db.source[o] == i {
      assert i in db.source.Values;
      var o :| o in db.source && db.source[o] == i;
      assert o in outbox;
    }
  }

  /** Whatever commits, aborts, fails, is replayed or repeated, and in whatever order: a consumer
      applies an outbox row at most once and has a receipt exactly if it did; what it applied is a
      committed outbox row that announces a committed audit row; and a published row was
      delivered. */
  lemma EndToEnd(h: Hash, max: nat, actions: seq<Action>, key: ReceiptKey)
    requires HexDigest(h) && 0 < max
    ensures var s := Run(h, max, Init, actions);
      var u, outbox := s.delivery.usage, s.delivery.q.outbox;
      && D.Applied(u.effects, key) <= 1
      && (key in u.receipts <==> D.Applied(u.effects, key) == 1)
      && (forall i | 0 <= i < |u.effects| ::
            D.Genuine(outbox, u.effects[i].event) && AnnouncesCommitted(s.ledger.db, u.effects[i].event))
      && (D.Published(outbox, key.eventId) ==> 1 <= D.Deliveries(s.delivery.hist.delivered, key.eventId))
  {
    Reachable(h, max, actions);
    var s := Run(h, max, Init, actions);
    PairedLinked(s.ledger.db, s.delivery.q.outbox, max);
    UsageSound(max, s.delivery, key);
    forall i | 0 <= i < |s.delivery.usage.effects|
      ensures AnnouncesCommitted(s.ledger.db, s.delivery.usage.effects[i].event)
    {
      assert D.Genuine(s.delivery.q.outbox, s.delivery.usage.effects[i].event);
    }
  }

  lemma UsageSound(max: nat, s: D.State, key: ReceiptKey)
    requires D.Inv(max, s)
    ensures D.Applied(s.usage.effects, key) <= 1
    ensures key in s.usage.receipts <==> D.Applied(s.usage.effects, key) == 1
    ensures forall i | 0 <= i < |s.usage.effects| :: D.Genuine(s.q.outbox, s.usage.effects[i].event)
    ensures D.Published(s.q.outbox, key.eventId) ==> 1 <= D.Deliveries(s.hist.delivered, key.eventId)
  {
    assert D.AppliedOnce(s.usage, key);
    assert D.Conserved(s.q.outbox, s.open, s.hist, key.eventId);
  }

  /** And every tenant's chain verifies, with as many rows as it has committed appends. */
  lemma ChainsVerify(h: Hash, max: nat, actions: seq<Action>, tenant: string, v: Verdict)
    requires HexDigest(h) && 0 < max
    requires IsVerdict(h, ChainOf(Run(h, max, Init, actions).ledger.db.audit, tenant), v)
    ensures v == Verdict(true, |L.LogOf(Run(h, max, Init, actions).ledger.db.log, tenant)|, None)
  {
    Reachable(h, max, actions);
    var db := Run(h, max, Init, actions).ledger.db;
    assert L.TenantSound(h, db, tenant);
    VerdictExact(h, ChainOf(db.audit, tenant), v);
  }
}
