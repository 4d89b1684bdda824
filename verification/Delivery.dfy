/**
 The whole delivery protocol as a machine: any number of publishing workers with open batches,
 replays that read before they write, consumers that read their receipt before they run, and a
 publisher that fails at will.  Its theorems hold for every sequence of steps.
 */
module Delivery {
  import opened Ordering
  import opened Maps
  import opened Tables
  import opened Outbox

  /** An open publishing transaction: its claimed rows, those still to publish in order, and
      what came of the others.  Nothing of it is visible before it commits. */
  datatype Batch = Batch(claimed: map<nat, OutboxRow>, queue: seq<nat>, done: map<nat, Attempt>)

  /** Committed queue tables. */
  datatype Queue = Queue(outbox: map<nat, OutboxRow>, dead: map<nat, DeadLetter>)

  /** What happened outside the database, or is recorded here for the claims only: acknowledged
      deliveries, batches rolled back, every message that reached the broker, and published rows
      whose attempts a late replay reset. */
  datatype History = History(delivered: seq<EventEnvelope>, aborted: seq<Batch>, broker: set<EventEnvelope>,
                             zeroed: set<nat>)

  /** Committed receipts and effects, and the consumer transactions now running. */
  datatype Usage = Usage(receipts: set<ReceiptKey>, effects: seq<Effect>, running: map<nat, Effect>)

  /** Replay transactions: those that have only read their dead letter, and those whose update holds
      the lock of the outbox row until they end. */
  datatype Replays = Replays(read: map<nat, nat>, held: map<nat, nat>)

  datatype State = State(q: Queue, open: map<nat, Batch>, replays: Replays, hist: History, usage: Usage)

  datatype Action =
    | Enqueue(rows: map<nat, EventEnvelope>)
    | Claim(w: nat, limit: nat)
    | Publish(w: nat, attempt: Attempt)
    | CommitBatch(w: nat)
    | AbortBatch(w: nat)
    | BeginReplay(p: nat, outboxId: nat)
    | UpdateReplay(p: nat)
    | CommitReplay(p: nat, now: string)
    | AbortReplay(p: nat)
    | BeginProcess(c: nat, consumer: string, event: EventEnvelope)
    | FinishProcess(c: nat, handlerRaises: bool)

  const Init := State(Queue(map[], map[]), map[], Replays(map[], map[]), History([], [], {}, {}), Usage({}, [], map[]))

  function Locked(open: map<nat, Batch>): set<nat> {
    set w, o | w in open && o in open[w].claimed :: o
  }

  predicate Fresh(outbox: map<nat, OutboxRow>, rows: map<nat, EventEnvelope>) {
    rows.Keys !! outbox.Keys && forall o | o in rows :: rows[o].id == o
  }

  function NewRows(rows: map<nat, EventEnvelope>): map<nat, OutboxRow> {
    map o | o in rows :: OutboxRow(rows[o], None, 0, None, None)
  }

  /** The rows locked by updates of replays. */
  function Held(held: map<nat, nat>): set<nat> {
    set p | p in held :: held[p]
  }

  function ClaimBatch(outbox: map<nat, OutboxRow>, locked: set<nat>, max: nat, limit: nat): Batch {
    var ids := ClaimIds(outbox, locked, max, limit);
    Batch(Rows(outbox, ids), ids, map[])
  }

  /** The update of a replay finds its rows and does not have to wait for a lock. */
  predicate CanUpdate(s: State, p: nat) {
    && p in s.replays.read && s.replays.read[p] in s.q.outbox && s.replays.read[p] in s.q.dead
    && s.replays.read[p] !in Locked(s.open) + Held(s.replays.held)
  }

  predicate CanCommit(s: State, p: nat) {
    p in s.replays.held && s.replays.held[p] in s.q.outbox && s.replays.held[p] in s.q.dead
  }

  function ReplayedQueue(q: Queue, o: nat, now: string): Queue
    requires o in q.outbox && o in q.dead
  {
    Queue(q.outbox[o := Revived(q.outbox[o])], q.dead[o := q.dead[o].(replayedAt := Some(now))])
  }

  /** What the commit of a replay writes. */
  function ReplayCommitted(s: State, p: nat, now: string): State
    requires CanCommit(s, p)
  {
    var o := s.replays.held[p];
    s.(q := ReplayedQueue(s.q, o, now),
       replays := Replays(s.replays.read, s.replays.held - {p}),
       hist := s.hist.(zeroed := if s.q.outbox[o].publishedAt.Some? then s.hist.zeroed + {o} else s.hist.zeroed))
  }

  /** The batch after one publisher call. */
  function Attempted(b: Batch, a: Attempt): Batch
    requires b.queue != []
  {
    Batch(b.claimed, b.queue[1..], b.done[b.queue[0] := a])
  }

  predicate CanPublish(open: map<nat, Batch>, w: nat) {
    w in open && open[w].queue != [] && open[w].queue[0] in open[w].claimed
  }

  /** The unique key of the dead letters fires on the next row. */
  predicate Violates(dead: map<nat, DeadLetter>, b: Batch, a: Attempt, max: nat)
    requires b.queue != [] && b.queue[0] in b.claimed
  {
    b.queue[0] in dead && Exhausted(b.claimed[b.queue[0]], a, max)
  }

  predicate Reaches(a: Attempt) { a.Delivered? || a.reached }

  function Heard(hist: History, event: EventEnvelope, a: Attempt): History {
    hist.(delivered := if a.Delivered? then hist.delivered + [event] else hist.delivered,
          broker := if Reaches(a) then hist.broker + {event} else hist.broker)
  }

  function RolledBack(s: State, w: nat): State
    requires w in s.open
  {
    s.(open := s.open - {w}, hist := s.hist.(aborted := s.hist.aborted + [s.open[w]]))
  }

  function Settled(q: Queue, b: Batch, max: nat): Queue {
    Queue(Settle(q.outbox, b.claimed, b.done, max), q.dead + Letters(b.claimed, b.done, max))
  }

  /** One publisher call: the batch goes on, or the unique key ends it. */
  function PublishStep(max: nat, s: State, w: nat, a: Attempt): State
    requires CanPublish(s.open, w)
  {
    var b := s.open[w];
    var s' := s.(hist := Heard(s.hist, b.claimed[b.queue[0]].event, a));
    if Violates(s.q.dead, b, a, max) then RolledBack(s', w) else s'.(open := s.open[w := Attempted(b, a)])
  }

  /** One step.  A step that is not possible now changes nothing: the call waits or is refused. */
  function Apply(max: nat, s: State, a: Action): State {
    match a
    case Enqueue(rows) =>
      if Fresh(s.q.outbox, rows) then s.(q := s.q.(outbox := s.q.outbox + NewRows(rows))) else s
    case Claim(w, limit) =>
      if w in s.open then s else
        s.(open := s.open[w := ClaimBatch(s.q.outbox, Locked(s.open) + Held(s.replays.held), max, limit)])
    case Publish(w, attempt) =>
      if CanPublish(s.open, w) then PublishStep(max, s, w, attempt) else s
    case CommitBatch(w) =>
      if w in s.open && s.open[w].queue == [] then s.(q := Settled(s.q, s.open[w], max), open := s.open - {w}) else s
    case AbortBatch(w) =>
      if w in s.open then RolledBack(s, w) else s
    case BeginReplay(p, o) =>
      if p !in s.replays.held && o in s.q.dead && s.q.dead[o].replayedAt.None?
      then s.(replays := s.replays.(read := s.replays.read[p := o])) else s
    case UpdateReplay(p) =>
      if CanUpdate(s, p)
      then s.(replays := Replays(s.replays.read - {p}, s.replays.held[p := s.replays.read[p]])) else s
    case CommitReplay(p, now) =>
      if CanCommit(s, p) then ReplayCommitted(s, p, now) else s
    case AbortReplay(p) =>
      s.(replays := Replays(s.replays.read - {p}, s.replays.held - {p}))
    case BeginProcess(c, consumer, event) =>
      if c !in s.usage.running && event in s.hist.broker && ReceiptKey(consumer, event.id) !in s.usage.receipts
      then s.(usage := s.usage.(running := s.usage.running[c := Effect(consumer, event)])) else s
    case FinishProcess(c, handlerRaises) =>
      if c !in s.usage.running then s else
        var e := s.usage.running[c];
        var u := s.usage.(running := s.usage.running - {c});
        if handlerRaises || KeyOf(e) in u.receipts then s.(usage := u)
        else s.(usage := u.(receipts := u.receipts + {KeyOf(e)}, effects := u.effects + [e]))
  }

  function KeyOf(e: Effect): ReceiptKey { ReceiptKey(e.consumer, e.event.id) }

  function Run(max: nat, s: State, actions: seq<Action>): State
    decreases |actions|
  {
    if actions == [] then s else Run(max, Apply(max, s, actions[0]), actions[1..])
  }

  // ----- counting

  function Deliveries(log: seq<EventEnvelope>, o: nat): nat {
    if log == [] then 0 else Deliveries(log[..|log| - 1], o) + if log[|log| - 1].id == o then 1 else 0
  }

  predicate DeliveredIn(b: Batch, o: nat) { o in b.done && b.done[o].Delivered? }

  /** How many rolled-back batches had delivered the row. */
  function Lost(aborted: seq<Batch>, o: nat): nat {
    if aborted == [] then 0 else
      Lost(aborted[..|aborted| - 1], o) + if DeliveredIn(aborted[|aborted| - 1], o) then 1 else 0
  }

  /** How many times the effect of an event was applied for a consumer. */
  function Applied(effects: seq<Effect>, key: ReceiptKey): nat {
    if effects == [] then 0 else
      Applied(effects[..|effects| - 1], key) + if KeyOf(effects[|effects| - 1]) == key then 1 else 0
  }

  predicate Published(outbox: map<nat, OutboxRow>, o: nat) { o in outbox && outbox[o].publishedAt.Some? }

  predicate InFlight(open: map<nat, Batch>, o: nat) { exists w | w in open :: DeliveredIn(open[w], o) }

  lemma DeliveriesAppend(log: seq<EventEnvelope>, e: EventEnvelope, o: nat)
    ensures Deliveries(log + [e], o) == Deliveries(log, o) + if e.id == o then 1 else 0
  {
    assert (log + [e])[..|log|] == log;
  }

  lemma LostAppend(aborted: seq<Batch>, b: Batch, o: nat)
    ensures Lost(aborted + [b], o) == Lost(aborted, o) + if DeliveredIn(b, o) then 1 else 0
  {
    assert (aborted + [b])[..|aborted|] == aborted;
  }

  lemma AppliedAppend(effects: seq<Effect>, e: Effect, key: ReceiptKey)
    ensures Applied(effects + [e], key) == Applied(effects, key) + if KeyOf(e) == key then 1 else 0
  {
    assert (effects + [e])[..|effects|] == effects;
  }

  // ----- the invariant

  predicate QueueOk(q: Queue, max: nat) { RowsOk(q.outbox, max) && LettersOk(q.outbox, q.dead) }

  /** The claimed rows are still as they were claimed, because no one else may write them. */
  predicate ClaimsHold(outbox: map<nat, OutboxRow>, b: Batch, max: nat) {
    forall o | o in b.claimed :: o in outbox && b.claimed[o] == outbox[o] && Claimable(b.claimed[o], max)
  }

  /** Every claimed row is either done or still in the queue, once. */
  predicate Splits(queue: seq<nat>, claimed: set<nat>, done: set<nat>) {
    && (forall i | 0 <= i < |queue| :: queue[i] in claimed && queue[i] !in done)
    && (forall i, j | 0 <= i < j < |queue| :: queue[i] != queue[j])
    && done <= claimed
    && (forall o | o in claimed :: o in queue || o in done)
  }

  predicate QueueSplits(b: Batch) { Splits(b.queue, b.claimed.Keys, b.done.Keys) }

  predicate BatchOk(q: Queue, b: Batch, max: nat) {
    && ClaimsHold(q.outbox, b, max)
    && QueueSplits(b)
    && Letters(b.claimed, b.done, max).Keys !! q.dead.Keys
  }

  predicate BatchesOk(q: Queue, open: map<nat, Batch>, max: nat) {
    forall w | w in open :: BatchOk(q, open[w], max)
  }

  /** Open batches never hold the same row. */
  predicate Disjoint(open: map<nat, Batch>) {
    forall v, w | v in open && w in open && v != w :: open[v].claimed.Keys !! open[w].claimed.Keys
  }

  /** No open batch holds a row that the update of a replay has locked. */
  predicate ReplaysOk(dead: map<nat, DeadLetter>, open: map<nat, Batch>, replays: Replays) {
    && (forall p | p in replays.read :: replays.read[p] in dead)
    && (forall p | p in replays.held :: replays.held[p] in dead)
    && Held(replays.held) !! Locked(open)
  }

  predicate Genuine(outbox: map<nat, OutboxRow>, e: EventEnvelope) { e.id in outbox && outbox[e.id].event == e }

  predicate BrokerOk(outbox: map<nat, OutboxRow>, hist: History) {
    forall e | e in hist.broker :: Genuine(outbox, e)
  }

  /** A published row has no attempts on record exactly if a late replay reset it. */
  predicate ZeroedOk(outbox: map<nat, OutboxRow>, zeroed: set<nat>) {
    && (forall o | o in zeroed :: Published(outbox, o))
    && (forall o | o in outbox && Published(outbox, o) :: outbox[o].attempts == 0 <==> o in zeroed)
  }

  /** Every acknowledged delivery of a row is accounted for: by the row being published, by a
      batch still open, or by a batch that rolled back after delivering it. */
  predicate Conserved(outbox: map<nat, OutboxRow>, open: map<nat, Batch>, hist: History, o: nat) {
    Deliveries(hist.delivered, o) == Lost(hist.aborted, o)
      + (if Published(outbox, o) then 1 else 0) + (if InFlight(open, o) then 1 else 0)
  }

  ghost predicate AllConserved(outbox: map<nat, OutboxRow>, open: map<nat, Batch>, hist: History) {
    forall o: nat :: Conserved(outbox, open, hist, o)
  }

  /** An effect is applied exactly once for a key with a receipt, and never for one without. */
  predicate AppliedOnce(u: Usage, key: ReceiptKey) { Applied(u.effects, key) == if key in u.receipts then 1 else 0 }

  ghost predicate UsageOk(broker: set<EventEnvelope>, u: Usage) {
    && (forall key :: AppliedOnce(u, key))
    && (forall i | 0 <= i < |u.effects| :: u.effects[i].event in broker)
    && (forall c | c in u.running :: u.running[c].event in broker)
  }

  /** The tables, and how open batches and replays stand to them. */
  predicate ProtocolOk(q: Queue, open: map<nat, Batch>, replays: Replays, max: nat) {
    QueueOk(q, max) && BatchesOk(q, open, max) && Disjoint(open) && ReplaysOk(q.dead, open, replays)
  }

  /** The record of what happened outside. */
  ghost predicate HistoryOk(outbox: map<nat, OutboxRow>, open: map<nat, Batch>, hist: History) {
    BrokerOk(outbox, hist) && ZeroedOk(outbox, hist.zeroed) && AllConserved(outbox, open, hist)
  }

  ghost predicate Inv(max: nat, s: State) {
    ProtocolOk(s.q, s.open, s.replays, max) && HistoryOk(s.q.outbox, s.open, s.hist) && UsageOk(s.hist.broker, s.usage)
  }

  /** Rows are never removed and their immutable columns never change. */
  predicate Extends(outbox: map<nat, OutboxRow>, outbox': map<nat, OutboxRow>) {
    forall o | o in outbox :: o in outbox' && outbox'[o].event == outbox[o].event
  }

  lemma InitInv(max: nat)
    ensures Inv(max, Init)
  {}

  // ----- domain commits

  lemma EnqueueQueue(q: Queue, rows: map<nat, EventEnvelope>, max: nat)
    requires 0 < max && QueueOk(q, max) && Fresh(q.outbox, rows)
    ensures QueueOk(Queue(q.outbox + NewRows(rows), q.dead), max) && Extends(q.outbox, q.outbox + NewRows(rows))
  {}

  lemma EnqueueBatch(q: Queue, rows: map<nat, EventEnvelope>, b: Batch, max: nat)
    requires BatchOk(q, b, max) && Fresh(q.outbox, rows)
    ensures BatchOk(Queue(q.outbox + NewRows(rows), q.dead), b, max)
  {}

  lemma EnqueueProtocol(q: Queue, open: map<nat, Batch>, replays: Replays, rows: map<nat, EventEnvelope>, max: nat)
    requires 0 < max && ProtocolOk(q, open, replays, max) && Fresh(q.outbox, rows)
    ensures ProtocolOk(Queue(q.outbox + NewRows(rows), q.dead), open, replays, max)
  {
    var q' := Queue(q.outbox + NewRows(rows), q.dead);
    EnqueueQueue(q, rows, max);
    forall w | w in open ensures BatchOk(q', open[w], max) { EnqueueBatch(q, rows, open[w], max); }
  }

  lemma EnqueueHistory(outbox: map<nat, OutboxRow>, open: map<nat, Batch>, hist: History, rows: map<nat, EventEnvelope>)
    requires HistoryOk(outbox, open, hist) && Fresh(outbox, rows)
    ensures HistoryOk(outbox + NewRows(rows), open, hist)
  {
    BrokerMonotone(outbox, outbox + NewRows(rows), hist);
    SamePublishedConserved(outbox, outbox + NewRows(rows), open, hist, hist);
  }

  // ----- publishing

  lemma ClaimBatchOk(q: Queue, locked: set<nat>, max: nat, limit: nat)
    ensures BatchOk(q, ClaimBatch(q.outbox, locked, max, limit), max)
    ensures ClaimBatch(q.outbox, locked, max, limit).claimed.Keys !! locked
  {
    ClaimIdsSpec(q.outbox, locked, max, limit);
    var ids := ClaimIds(q.outbox, locked, max, limit);
    FreshBatchOk(q, ids, max);
  }

  lemma FreshBatchOk(q: Queue, ids: seq<nat>, max: nat)
    requires forall o | o in ids :: o in q.outbox && Claimable(q.outbox[o], max)
    requires forall i, j | 0 <= i < j < |ids| :: ids[i] < ids[j]
    ensures BatchOk(q, Batch(Rows(q.outbox, ids), ids, map[]), max)
  {
    assert forall i | 0 <= i < |ids| :: ids[i] in ids;
    assert Letters(Rows(q.outbox, ids), map[], max) == map[];
  }

  lemma ClaimDisjoint(open: map<nat, Batch>, w: nat, b: Batch)
    requires Disjoint(open) && w !in open && b.claimed.Keys !! Locked(open)
    ensures Disjoint(open[w := b])
  {
    forall v | v in open ensures open[v].claimed.Keys !! b.claimed.Keys {
      assert forall o | o in open[v].claimed :: o in Locked(open);
    }
  }

  predicate DoneClaimed(open: map<nat, Batch>) {
    forall w | w in open :: open[w].done.Keys <= open[w].claimed.Keys
  }

  lemma InFlightOpened(open: map<nat, Batch>, w: nat, b: Batch, o: nat)
    requires w !in open && b.done == map[]
    ensures InFlight(open[w := b], o) <==> InFlight(open, o)
  {
    if InFlight(open, o) {
      var v :| v in open && DeliveredIn(open[v], o);
      assert DeliveredIn(open[w := b][v], o);
    }
  }

  /** One more attempt in an open batch puts that row in flight if it was delivered, and no other. */
  lemma InFlightAttempted(open: map<nat, Batch>, w: nat, a: Attempt, o: nat)
    requires Disjoint(open) && DoneClaimed(open)
    requires w in open && open[w].queue != [] && open[w].queue[0] in open[w].claimed
    requires open[w].queue[0] !in open[w].done
    ensures InFlight(open[w := Attempted(open[w], a)], o) <==>
      InFlight(open, o) || (o == open[w].queue[0] && a.Delivered?)
    ensures o == open[w].queue[0] ==> !InFlight(open, o)
  {
    var b' := Attempted(open[w], a);
    var open' := open[w := b'];
    if InFlight(open, o) {
      var v :| v in open && DeliveredIn(open[v], o);
      assert DeliveredIn(open'[v], o);
    }
    if o == open[w].queue[0] && a.Delivered? { assert w in open' && DeliveredIn(open'[w], o); }
  }

  lemma InFlightClosed(open: map<nat, Batch>, w: nat, o: nat)
    requires Disjoint(open) && DoneClaimed(open) && w in open
    ensures InFlight(open - {w}, o) <==> InFlight(open, o) && !DeliveredIn(open[w], o)
  {
    if InFlight(open, o) && !DeliveredIn(open[w], o) {
      var v :| v in open && DeliveredIn(open[v], o);
      assert v in open - {w} && DeliveredIn((open - {w})[v], o);
    }
  }

  lemma BatchesDoneClaimed(q: Queue, open: map<nat, Batch>, max: nat)
    requires BatchesOk(q, open, max)
    ensures DoneClaimed(open)
  {
    forall w | w in open ensures open[w].done.Keys <= open[w].claimed.Keys { assert BatchOk(q, open[w], max); }
  }

  lemma LockedMore(open: map<nat, Batch>, w: nat, b: Batch)
    ensures Locked(open[w := b]) <= Locked(open) + b.claimed.Keys
  {}

  lemma ClaimProtocol(q: Queue, open: map<nat, Batch>, replays: Replays, w: nat, limit: nat, max: nat)
    requires ProtocolOk(q, open, replays, max) && w !in open
    ensures ProtocolOk(q, open[w := ClaimBatch(q.outbox, Locked(open) + Held(replays.held), max, limit)], replays, max)
  {
    var locked := Locked(open) + Held(replays.held);
    var b := ClaimBatch(q.outbox, locked, max, limit);
    ClaimBatchOk(q, locked, max, limit);
    ClaimDisjoint(open, w, b);
    LockedMore(open, w, b);
  }

  lemma ClaimHistory(outbox: map<nat, OutboxRow>, open: map<nat, Batch>, hist: History, w: nat, b: Batch)
    requires HistoryOk(outbox, open, hist) && w !in open && b.done == map[]
    ensures HistoryOk(outbox, open[w := b], hist)
  {
    var open' := open[w := b];
    forall o: nat ensures Conserved(outbox, open', hist, o) {
      assert Conserved(outbox, open, hist, o);
      InFlightOpened(open, w, b, o);
    }
  }

  lemma AttemptedOk(q: Queue, b: Batch, a: Attempt, max: nat)
    requires BatchOk(q, b, max) && b.queue != [] && !Violates(q.dead, b, a, max)
    ensures BatchOk(q, Attempted(b, a), max)
  {
    var o := b.queue[0];
    assert QueueSplits(b);
    assert o in b.claimed && o !in b.done;
    LettersStep(b.claimed, b.done, max, o, a);
    AttemptedSplits(b, a);
  }

  lemma AttemptedSplits(b: Batch, a: Attempt)
    requires QueueSplits(b) && b.queue != []
    ensures QueueSplits(Attempted(b, a))
  {
    HeadDone(b.queue, b.claimed.Keys, b.done.Keys, b.queue[1..], b.done.Keys + {b.queue[0]});
    assert Attempted(b, a).done.Keys == b.done.Keys + {b.queue[0]};
  }

  lemma HeadDone(queue: seq<nat>, claimed: set<nat>, done: set<nat>, rest: seq<nat>, done': set<nat>)
    requires Splits(queue, claimed, done) && queue != [] && rest == queue[1..] && done' == done + {queue[0]}
    ensures Splits(rest, claimed, done')
  {
    assert queue == [queue[0]] + rest;
    assert forall i | 0 <= i < |rest| :: rest[i] == queue[i + 1];
  }

  lemma HeardOk(outbox: map<nat, OutboxRow>, hist: History, event: EventEnvelope, a: Attempt)
    requires BrokerOk(outbox, hist) && Genuine(outbox, event)
    ensures BrokerOk(outbox, Heard(hist, event, a))
  {}

  lemma UsageMonotone(broker: set<EventEnvelope>, broker': set<EventEnvelope>, u: Usage)
    requires UsageOk(broker, u) && broker <= broker'
    ensures UsageOk(broker', u)
  {}

  /** A delivery puts its row in flight. */
  lemma AttemptConserved(q: Queue, open: map<nat, Batch>, hist: History, w: nat, a: Attempt, max: nat, o: nat)
    requires BatchesOk(q, open, max) && Disjoint(open) && RowsOk(q.outbox, max) && CanPublish(open, w)
    requires Conserved(q.outbox, open, hist, o)
    ensures Conserved(q.outbox, open[w := Attempted(open[w], a)],
                      Heard(hist, open[w].claimed[open[w].queue[0]].event, a), o)
  {
    var b := open[w];
    assert BatchOk(q, b, max) && QueueSplits(b) && ClaimsHold(q.outbox, b, max);
    var event := b.claimed[b.queue[0]].event;
    assert event.id == b.queue[0];
    BatchesDoneClaimed(q, open, max);
    InFlightAttempted(open, w, a, o);
    DeliveriesAppend(hist.delivered, event, o);
  }

  lemma AllAttemptConserved(q: Queue, open: map<nat, Batch>, hist: History, w: nat, a: Attempt, max: nat)
    requires BatchesOk(q, open, max) && Disjoint(open) && RowsOk(q.outbox, max) && CanPublish(open, w)
    requires AllConserved(q.outbox, open, hist)
    ensures AllConserved(q.outbox, open[w := Attempted(open[w], a)],
                         Heard(hist, open[w].claimed[open[w].queue[0]].event, a))
  {
    var open', hist' := open[w := Attempted(open[w], a)], Heard(hist, open[w].claimed[open[w].queue[0]].event, a);
    forall o: nat ensures Conserved(q.outbox, open', hist', o) {
      assert Conserved(q.outbox, open, hist, o);
      AttemptConserved(q, open, hist, w, a, max, o);
    }
  }

  lemma PublishBatches(q: Queue, open: map<nat, Batch>, w: nat, a: Attempt, max: nat)
    requires BatchesOk(q, open, max) && Disjoint(open) && CanPublish(open, w) && !Violates(q.dead, open[w], a, max)
    ensures BatchesOk(q, open[w := Attempted(open[w], a)], max) && Disjoint(open[w := Attempted(open[w], a)])
  {
    assert BatchOk(q, open[w], max);
    AttemptedOk(q, open[w], a, max);
  }

  lemma NextIsGenuine(q: Queue, open: map<nat, Batch>, w: nat, max: nat)
    requires BatchesOk(q, open, max) && RowsOk(q.outbox, max) && CanPublish(open, w)
    ensures Genuine(q.outbox, open[w].claimed[open[w].queue[0]].event)
  {
    assert BatchOk(q, open[w], max) && ClaimsHold(q.outbox, open[w], max);
  }

  lemma PublishProtocol(q: Queue, open: map<nat, Batch>, replays: Replays, w: nat, a: Attempt, max: nat)
    requires ProtocolOk(q, open, replays, max) && CanPublish(open, w) && !Violates(q.dead, open[w], a, max)
    ensures ProtocolOk(q, open[w := Attempted(open[w], a)], replays, max)
  {
    PublishBatches(q, open, w, a, max);
    SameClaims(open, w, Attempted(open[w], a));
  }

  lemma SameClaims(open: map<nat, Batch>, w: nat, b: Batch)
    requires w in open && b.claimed == open[w].claimed
    ensures Locked(open[w := b]) <= Locked(open)
  {}

  lemma PublishHistory(q: Queue, open: map<nat, Batch>, hist: History, w: nat, a: Attempt, max: nat)
    requires BatchesOk(q, open, max) && Disjoint(open) && RowsOk(q.outbox, max) && CanPublish(open, w)
    requires HistoryOk(q.outbox, open, hist)
    ensures HistoryOk(q.outbox, open[w := Attempted(open[w], a)],
                      Heard(hist, open[w].claimed[open[w].queue[0]].event, a))
  {
    NextIsGenuine(q, open, w, max);
    HeardOk(q.outbox, hist, open[w].claimed[open[w].queue[0]].event, a);
    AllAttemptConserved(q, open, hist, w, a, max);
  }

  lemma RollBackConserved(outbox: map<nat, OutboxRow>, open: map<nat, Batch>, hist: History, w: nat, o: nat)
    requires Disjoint(open) && DoneClaimed(open) && w in open
    requires Conserved(outbox, open, hist, o)
    ensures Conserved(outbox, open - {w}, hist.(aborted := hist.aborted + [open[w]]), o)
  {
    InFlightClosed(open, w, o);
    LostAppend(hist.aborted, open[w], o);
    if DeliveredIn(open[w], o) { assert InFlight(open, o); }
  }

  lemma RollBackProtocol(q: Queue, open: map<nat, Batch>, replays: Replays, w: nat, max: nat)
    requires ProtocolOk(q, open, replays, max) && w in open
    ensures ProtocolOk(q, open - {w}, replays, max)
  {
    assert Locked(open - {w}) <= Locked(open);
  }

  lemma RollBackHistory(outbox: map<nat, OutboxRow>, open: map<nat, Batch>, hist: History, w: nat)
    requires Disjoint(open) && DoneClaimed(open) && w in open && HistoryOk(outbox, open, hist)
    ensures HistoryOk(outbox, open - {w}, hist.(aborted := hist.aborted + [open[w]]))
  {
    forall o: nat ensures Conserved(outbox, open - {w}, hist.(aborted := hist.aborted + [open[w]]), o) {
      assert Conserved(outbox, open, hist, o);
      RollBackConserved(outbox, open, hist, w, o);
    }
  }

  /** A message of a batch that the unique key then rolls back may have reached the broker. */
  lemma LeakHistory(outbox: map<nat, OutboxRow>, open: map<nat, Batch>, hist: History, event: EventEnvelope, a: Attempt)
    requires HistoryOk(outbox, open, hist) && Genuine(outbox, event) && a.Failed?
    ensures HistoryOk(outbox, open, Heard(hist, event, a))
  {
    HeardOk(outbox, hist, event, a);
    forall o: nat ensures Conserved(outbox, open, Heard(hist, event, a), o) { assert Conserved(outbox, open, hist, o); }
  }

  // ----- committing a batch

  lemma CommitOtherBatch(q: Queue, b: Batch, c: Batch, max: nat)
    requires BatchOk(q, b, max) && BatchOk(q, c, max) && b.claimed.Keys !! c.claimed.Keys
    ensures BatchOk(Settled(q, b, max), c, max)
  {
    assert forall o | o in c.claimed :: Settle(q.outbox, b.claimed, b.done, max)[o] == q.outbox[o];
  }

  lemma CommitQueue(q: Queue, b: Batch, max: nat)
    requires QueueOk(q, max) && BatchOk(q, b, max)
    ensures QueueOk(Settled(q, b, max), max) && Extends(q.outbox, Settled(q, b, max).outbox)
  {
    SettleRowsOk(q.outbox, b.claimed, b.done, max);
    SettleLettersOk(q.outbox, q.dead, b.claimed, b.done, max);
  }

  /** Committing publishes exactly the rows that the batch had delivered. */
  lemma CommitPublishes(q: Queue, b: Batch, max: nat, o: nat)
    requires BatchOk(q, b, max)
    ensures Published(Settled(q, b, max).outbox, o) <==> Published(q.outbox, o) || DeliveredIn(b, o)
    ensures DeliveredIn(b, o) ==> !Published(q.outbox, o)
  {
    if o in b.done { assert o in b.claimed; }
  }

  lemma CommitZeroed(q: Queue, b: Batch, max: nat, zeroed: set<nat>)
    requires BatchOk(q, b, max) && ZeroedOk(q.outbox, zeroed)
    ensures ZeroedOk(Settled(q, b, max).outbox, zeroed)
  {
    var outbox' := Settled(q, b, max).outbox;
    forall o | o in zeroed ensures Published(outbox', o) { CommitPublishes(q, b, max, o); }
    forall o | o in outbox' && Published(outbox', o) ensures outbox'[o].attempts == 0 <==> o in zeroed {
      CommitPublishes(q, b, max, o);
    }
  }

  lemma BrokerMonotone(outbox: map<nat, OutboxRow>, outbox': map<nat, OutboxRow>, hist: History)
    requires BrokerOk(outbox, hist) && Extends(outbox, outbox')
    ensures BrokerOk(outbox', hist)
  {
    forall e | e in hist.broker ensures Genuine(outbox', e) { assert Genuine(outbox, e); }
  }

  lemma CommitConserved(q: Queue, open: map<nat, Batch>, hist: History, w: nat, max: nat, o: nat)
    requires BatchesOk(q, open, max) && Disjoint(open) && w in open && Conserved(q.outbox, open, hist, o)
    ensures Conserved(Settled(q, open[w], max).outbox, open - {w}, hist, o)
  {
    assert BatchOk(q, open[w], max);
    BatchesDoneClaimed(q, open, max);
    CommitPublishes(q, open[w], max, o);
    InFlightClosed(open, w, o);
    if DeliveredIn(open[w], o) { assert InFlight(open, o); }
  }

  lemma CommitBatches(q: Queue, open: map<nat, Batch>, w: nat, max: nat)
    requires BatchesOk(q, open, max) && Disjoint(open) && w in open
    ensures BatchesOk(Settled(q, open[w], max), open - {w}, max)
  {
    forall v | v in open && v != w ensures BatchOk(Settled(q, open[w], max), open[v], max) {
      CommitOtherBatch(q, open[w], open[v], max);
    }
  }

  lemma CommitProtocol(q: Queue, open: map<nat, Batch>, replays: Replays, w: nat, max: nat)
    requires ProtocolOk(q, open, replays, max) && w in open
    ensures ProtocolOk(Settled(q, open[w], max), open - {w}, replays, max)
  {
    assert BatchOk(q, open[w], max);
    CommitQueue(q, open[w], max);
    CommitBatches(q, open, w, max);
    assert Locked(open - {w}) <= Locked(open);
  }

  lemma CommitHistory(q: Queue, open: map<nat, Batch>, hist: History, w: nat, max: nat)
    requires QueueOk(q, max) && BatchesOk(q, open, max) && Disjoint(open) && w in open
    requires HistoryOk(q.outbox, open, hist)
    ensures HistoryOk(Settled(q, open[w], max).outbox, open - {w}, hist)
  {
    assert BatchOk(q, open[w], max);
    CommitQueue(q, open[w], max);
    CommitZeroed(q, open[w], max, hist.zeroed);
    BrokerMonotone(q.outbox, Settled(q, open[w], max).outbox, hist);
    forall o: nat ensures Conserved(Settled(q, open[w], max).outbox, open - {w}, hist, o) {
      assert Conserved(q.outbox, open, hist, o);
      CommitConserved(q, open, hist, w, max, o);
    }
  }

  // ----- replays

  lemma ReplayBatches(q: Queue, open: map<nat, Batch>, o: nat, now: string, max: nat)
    requires BatchesOk(q, open, max) && o in q.outbox && o in q.dead && o !in Locked(open)
    ensures BatchesOk(ReplayedQueue(q, o, now), open, max)
  {
    forall w | w in open ensures BatchOk(ReplayedQueue(q, o, now), open[w], max) {
      assert BatchOk(q, open[w], max);
      assert o in open[w].claimed ==> o in Locked(open);
    }
  }

  /** A replay touches neither published_at nor the immutable columns of any row. */
  lemma ReplayFrame(q: Queue, o: nat, now: string)
    requires o in q.outbox && o in q.dead
    ensures Extends(q.outbox, ReplayedQueue(q, o, now).outbox)
    ensures forall k: nat :: Published(ReplayedQueue(q, o, now).outbox, k) == Published(q.outbox, k)
  {}

  lemma SamePublishedConserved(outbox: map<nat, OutboxRow>, outbox': map<nat, OutboxRow>, open: map<nat, Batch>,
                               hist: History, hist': History)
    requires AllConserved(outbox, open, hist) && hist'.delivered == hist.delivered && hist'.aborted == hist.aborted
    requires forall k: nat :: Published(outbox', k) == Published(outbox, k)
    ensures AllConserved(outbox', open, hist')
  {
    forall k: nat ensures Conserved(outbox', open, hist', k) { assert Conserved(outbox, open, hist, k); }
  }

  lemma ReplayProtocol(q: Queue, open: map<nat, Batch>, replays: Replays, p: nat, now: string, max: nat)
    requires 0 < max && ProtocolOk(q, open, replays, max)
    requires p in replays.held && replays.held[p] in q.outbox && replays.held[p] in q.dead
    ensures ProtocolOk(ReplayedQueue(q, replays.held[p], now), open, Replays(replays.read, replays.held - {p}), max)
  {
    var o := replays.held[p];
    assert o in Held(replays.held);
    RevivedOk(q.outbox, q.dead, o, now, max);
    ReplayBatches(q, open, o, now, max);
    assert Held(replays.held - {p}) <= Held(replays.held);
  }

  lemma ReplayHistory(q: Queue, open: map<nat, Batch>, hist: History, o: nat, now: string)
    requires HistoryOk(q.outbox, open, hist) && o in q.outbox && o in q.dead
    ensures HistoryOk(ReplayedQueue(q, o, now).outbox, open,
                      hist.(zeroed := if q.outbox[o].publishedAt.Some? then hist.zeroed + {o} else hist.zeroed))
  {
    var hist' := hist.(zeroed := if q.outbox[o].publishedAt.Some? then hist.zeroed + {o} else hist.zeroed);
    ReplayFrame(q, o, now);
    BrokerMonotone(q.outbox, ReplayedQueue(q, o, now).outbox, hist);
    SamePublishedConserved(q.outbox, ReplayedQueue(q, o, now).outbox, open, hist, hist');
    ReplayZeroed(q.outbox, hist.zeroed, o);
  }

  lemma UpdateReplaysOk(dead: map<nat, DeadLetter>, open: map<nat, Batch>, replays: Replays, p: nat)
    requires ReplaysOk(dead, open, replays) && p in replays.read && replays.read[p] !in Locked(open)
    ensures ReplaysOk(dead, open, Replays(replays.read - {p}, replays.held[p := replays.read[p]]))
  {
    assert Held(replays.held[p := replays.read[p]]) <= Held(replays.held) + {replays.read[p]};
  }

  lemma AbortReplaysOk(dead: map<nat, DeadLetter>, open: map<nat, Batch>, replays: Replays, p: nat)
    requires ReplaysOk(dead, open, replays)
    ensures ReplaysOk(dead, open, Replays(replays.read - {p}, replays.held - {p}))
  {
    assert Held(replays.held - {p}) <= Held(replays.held);
  }

  lemma ReplayZeroed(outbox: map<nat, OutboxRow>, zeroed: set<nat>, o: nat)
    requires ZeroedOk(outbox, zeroed) && o in outbox
    ensures ZeroedOk(outbox[o := Revived(outbox[o])], if outbox[o].publishedAt.Some? then zeroed + {o} else zeroed)
  {}

  // ----- consumers

  lemma FinishProcessOk(broker: set<EventEnvelope>, u: Usage, c: nat)
    requires UsageOk(broker, u) && c in u.running && KeyOf(u.running[c]) !in u.receipts
    ensures var e := u.running[c];
      UsageOk(broker, Usage(u.receipts + {KeyOf(e)}, u.effects + [e], u.running - {c}))
  {
    var e := u.running[c];
    var u' := Usage(u.receipts + {KeyOf(e)}, u.effects + [e], u.running - {c});
    forall key ensures AppliedOnce(u', key) {
      assert AppliedOnce(u, key);
      AppliedAppend(u.effects, e, key);
    }
  }

  lemma SameUsage(broker: set<EventEnvelope>, u: Usage, running: map<nat, Effect>)
    requires UsageOk(broker, u) && forall c | c in running :: running[c].event in broker
    ensures UsageOk(broker, u.(running := running))
  {
    forall key ensures AppliedOnce(u.(running := running), key) { assert AppliedOnce(u, key); }
  }

  lemma ProcessUsage(max: nat, s: State, a: Action)
    requires UsageOk(s.hist.broker, s.usage) && (a.BeginProcess? || a.FinishProcess?)
    ensures UsageOk(s.hist.broker, Apply(max, s, a).usage)
  {
    var u := s.usage;
    if a.FinishProcess? && a.c in u.running && !a.handlerRaises && KeyOf(u.running[a.c]) !in u.receipts {
      FinishProcessOk(s.hist.broker, u, a.c);
    } else if a.FinishProcess? {
      SameUsage(s.hist.broker, u, u.running - {a.c});
    } else if a.event in s.hist.broker {
      SameUsage(s.hist.broker, u, u.running[a.c := Effect(a.consumer, a.event)]);
    }
  }

  // ----- every step, every run

  lemma PublishRollsBack(max: nat, s: State, w: nat, a: Attempt)
    requires Inv(max, s) && CanPublish(s.open, w) && Violates(s.q.dead, s.open[w], a, max)
    ensures Inv(max, PublishStep(max, s, w, a))
  {
    var event := s.open[w].claimed[s.open[w].queue[0]].event;
    UsageMonotone(s.hist.broker, Heard(s.hist, event, a).broker, s.usage);
    NextIsGenuine(s.q, s.open, w, max);
    BatchesDoneClaimed(s.q, s.open, max);
    LeakHistory(s.q.outbox, s.open, s.hist, event, a);
    RollBackHistory(s.q.outbox, s.open, Heard(s.hist, event, a), w);
    RollBackProtocol(s.q, s.open, s.replays, w, max);
  }

  lemma PublishGoesOn(max: nat, s: State, w: nat, a: Attempt)
    requires Inv(max, s) && CanPublish(s.open, w) && !Violates(s.q.dead, s.open[w], a, max)
    ensures Inv(max, PublishStep(max, s, w, a))
  {
    UsageMonotone(s.hist.broker, Heard(s.hist, s.open[w].claimed[s.open[w].queue[0]].event, a).broker, s.usage);
    PublishProtocol(s.q, s.open, s.replays, w, a, max);
    PublishHistory(s.q, s.open, s.hist, w, a, max);
  }

  lemma PublishKeeps(max: nat, s: State, w: nat, a: Attempt)
    requires Inv(max, s) && CanPublish(s.open, w)
    ensures Inv(max, PublishStep(max, s, w, a))
  {
    if Violates(s.q.dead, s.open[w], a, max) { PublishRollsBack(max, s, w, a); } else { PublishGoesOn(max, s, w, a); }
  }

  lemma EnqueueKeeps(max: nat, s: State, rows: map<nat, EventEnvelope>)
    requires 0 < max && Inv(max, s)
    ensures Inv(max, Apply(max, s, Enqueue(rows)))
  {
    if Fresh(s.q.outbox, rows) {
      EnqueueProtocol(s.q, s.open, s.replays, rows, max);
      EnqueueHistory(s.q.outbox, s.open, s.hist, rows);
    }
  }

  lemma ProcessKeeps(max: nat, s: State, a: Action)
    requires Inv(max, s) && (a.BeginProcess? || a.FinishProcess?)
    ensures Inv(max, Apply(max, s, a))
  {
    ProcessUsage(max, s, a);
    ProcessFrame(max, s, a);
  }

  lemma ProcessFrame(max: nat, s: State, a: Action)
    requires a.BeginProcess? || a.FinishProcess?
    ensures Apply(max, s, a) == s.(usage := Apply(max, s, a).usage)
  {}

  lemma BatchStepKeeps(max: nat, s: State, a: Action)
    requires Inv(max, s) && (a.Claim? || a.Publish? || a.CommitBatch? || a.AbortBatch?)
    ensures Inv(max, Apply(max, s, a))
  {
    if a.Publish? {
      if CanPublish(s.open, a.w) { PublishKeeps(max, s, a.w, a.attempt); }
    } else if a.Claim? && a.w !in s.open {
      ClaimProtocol(s.q, s.open, s.replays, a.w, a.limit, max);
      ClaimHistory(s.q.outbox, s.open, s.hist, a.w, Apply(max, s, a).open[a.w]);
    } else if a.CommitBatch? && a.w in s.open && s.open[a.w].queue == [] {
      CommitProtocol(s.q, s.open, s.replays, a.w, max);
      CommitHistory(s.q, s.open, s.hist, a.w, max);
    } else if a.AbortBatch? && a.w in s.open {
      BatchesDoneClaimed(s.q, s.open, max);
      RollBackProtocol(s.q, s.open, s.replays, a.w, max);
      RollBackHistory(s.q.outbox, s.open, s.hist, a.w);
    }
  }

  lemma ReplaysAfter(max: nat, s: State, a: Action, s': State)
    requires ReplaysOk(s.q.dead, s.open, s.replays) && s' == Apply(max, s, a)
    requires a.BeginReplay? || a.UpdateReplay? || a.AbortReplay?
    ensures s' == s.(replays := s'.replays) && ReplaysOk(s.q.dead, s.open, s'.replays)
  {
    if a.UpdateReplay? && CanUpdate(s, a.p) { UpdateReplaysOk(s.q.dead, s.open, s.replays, a.p); }
    if a.AbortReplay? { AbortReplaysOk(s.q.dead, s.open, s.replays, a.p); }
  }

  lemma ReplaysKeep(max: nat, s: State, s': State)
    requires Inv(max, s) && s' == s.(replays := s'.replays) && ReplaysOk(s.q.dead, s.open, s'.replays)
    ensures Inv(max, s')
  {}

  lemma ReplayCommitKeeps(max: nat, s: State, p: nat, now: string, s': State)
    requires 0 < max && Inv(max, s) && CanCommit(s, p) && s' == ReplayCommitted(s, p, now)
    ensures Inv(max, s')
  {
    ReplayProtocol(s.q, s.open, s.replays, p, now, max);
    ReplayHistory(s.q, s.open, s.hist, s.replays.held[p], now);
  }

  lemma ReplayStepKeeps(max: nat, s: State, a: Action, s': State)
    requires 0 < max && Inv(max, s) && s' == Apply(max, s, a)
    requires a.BeginReplay? || a.UpdateReplay? || a.CommitReplay? || a.AbortReplay?
    ensures Inv(max, s')
  {
    if !a.CommitReplay? {
      ReplaysAfter(max, s, a, s');
      ReplaysKeep(max, s, s');
    } else if CanCommit(s, a.p) {
      ReplayCommitKeeps(max, s, a.p, a.now, s');
    }
  }

  lemma ApplyKeeps(max: nat, s: State, a: Action)
    requires 0 < max && Inv(max, s)
    ensures Inv(max, Apply(max, s, a))
  {
    match a
    case Enqueue(rows) => EnqueueKeeps(max, s, rows);
    case Claim(_, _) => BatchStepKeeps(max, s, a);
    case Publish(_, _) => BatchStepKeeps(max, s, a);
    case CommitBatch(_) => BatchStepKeeps(max, s, a);
    case AbortBatch(_) => BatchStepKeeps(max, s, a);
    case BeginReplay(_, _) => ReplayStepKeeps(max, s, a, Apply(max, s, a));
    case UpdateReplay(_) => ReplayStepKeeps(max, s, a, Apply(max, s, a));
    case CommitReplay(_, _) => ReplayStepKeeps(max, s, a, Apply(max, s, a));
    case AbortReplay(_) => ReplayStepKeeps(max, s, a, Apply(max, s, a));
    case BeginProcess(_, _, _) => ProcessKeeps(max, s, a);
    case FinishProcess(_, _) => ProcessKeeps(max, s, a);
  }

  lemma {:induction false} RunKeeps(max: nat, s: State, actions: seq<Action>)
    requires 0 < max && Inv(max, s)
    ensures Inv(max, Run(max, s, actions))
    decreases |actions|
  {
    if actions != [] {
      ApplyKeeps(max, s, actions[0]);
      RunKeeps(max, Apply(max, s, actions[0]), actions[1..]);
    }
  }

  // ----- what holds in every run

  /** Every row is waiting, published or dead-lettered, within its attempt budget; it is
      dead-lettered exactly when it has an unreplayed dead letter, which copies it and gives its last
      error as the reason. */
  lemma RowPhases(max: nat, actions: seq<Action>, o: nat)
    requires 0 < max && o in Run(max, Init, actions).q.outbox
    ensures var q := Run(max, Init, actions).q; var row := q.outbox[o];
      && (Claimable(row, max) || row.publishedAt.Some? || row.deadLetteredAt.Some?)
      && (row.publishedAt.Some? ==> row.deadLetteredAt.None? && row.attempts <= max)
      && (row.deadLetteredAt.Some? ==> row.publishedAt.None? && row.attempts == max)
      && (row.deadLetteredAt.Some? <==> o in q.dead && q.dead[o].replayedAt.None?)
      && (o in q.dead ==> Copies(q.dead[o], row.event))
      && (row.deadLetteredAt.Some? ==> row.lastError == Some(q.dead[o].failureReason))
  {
    InitInv(max);
    RunKeeps(max, Init, actions);
  }

  /** Once published, a row stays published, whatever is replayed. */
  lemma {:induction false} PublishedStays(max: nat, s: State, actions: seq<Action>, o: nat)
    requires 0 < max && Inv(max, s) && Published(s.q.outbox, o)
    ensures Published(Run(max, s, actions).q.outbox, o)
    decreases |actions|
  {
    if actions != [] {
      ApplyKeeps(max, s, actions[0]);
      PublishedStep(max, s, actions[0], o);
      PublishedStays(max, Apply(max, s, actions[0]), actions[1..], o);
    }
  }

  lemma PublishedStep(max: nat, s: State, a: Action, o: nat)
    requires BatchesOk(s.q, s.open, max) && Published(s.q.outbox, o)
    ensures Published(Apply(max, s, a).q.outbox, o)
  {
    if a.CommitBatch? && a.w in s.open { CommitPublishes(s.q, s.open[a.w], max, o); }
  }

  /** Workers never hold the same row, and a row is delivered at most once more often than there
      were rolled-back batches that had delivered it; a published row was delivered. */
  lemma DeliveryBound(max: nat, actions: seq<Action>, o: nat)
    requires 0 < max
    ensures var s := Run(max, Init, actions);
      && Disjoint(s.open)
      && Lost(s.hist.aborted, o) <= Deliveries(s.hist.delivered, o) <= Lost(s.hist.aborted, o) + 1
      && (Published(s.q.outbox, o) ==> Deliveries(s.hist.delivered, o) == Lost(s.hist.aborted, o) + 1)
  {
    InitInv(max);
    RunKeeps(max, Init, actions);
    var s := Run(max, Init, actions);
    assert Conserved(s.q.outbox, s.open, s.hist, o);
    InFlightUnpublished(s.q, s.open, max, o);
  }

  lemma InFlightUnpublished(q: Queue, open: map<nat, Batch>, max: nat, o: nat)
    requires BatchesOk(q, open, max)
    ensures InFlight(open, o) ==> !Published(q.outbox, o)
  {
    if InFlight(open, o) {
      var w :| w in open && DeliveredIn(open[w], o);
      CommitPublishes(q, open[w], max, o);
    }
  }

  /** Each consumer applies an event's effect at most once, has a receipt exactly if it did, and
      only ever applies events that are rows of the outbox. */
  lemma EffectsOnce(max: nat, actions: seq<Action>, key: ReceiptKey)
    requires 0 < max
    ensures var s := Run(max, Init, actions);
      && Applied(s.usage.effects, key) <= 1
      && (key in s.usage.receipts <==> Applied(s.usage.effects, key) == 1)
      && forall i | 0 <= i < |s.usage.effects| :: Genuine(s.q.outbox, s.usage.effects[i].event)
  {
    InitInv(max);
    RunKeeps(max, Init, actions);
    assert AppliedOnce(Run(max, Init, actions).usage, key);
  }

  // ----- the attempts of a published row

  /** The step writes a replay onto a row that is published by now.  The replay was begun while
      the dead letter was unreplayed, and another replay finished in between. */
  predicate LateReplay(s: State, a: Action) {
    a.CommitReplay? && CanCommit(s, a.p) && Published(s.q.outbox, s.replays.held[a.p])
  }

  predicate SomeLateReplay(max: nat, s: State, actions: seq<Action>)
    decreases |actions|
  {
    actions != [] && (LateReplay(s, actions[0]) || SomeLateReplay(max, Apply(max, s, actions[0]), actions[1..]))
  }

  ghost predicate PublishedCounted(outbox: map<nat, OutboxRow>) {
    forall o | o in outbox && Published(outbox, o) :: 1 <= outbox[o].attempts
  }

  lemma ZeroedStep(max: nat, s: State, a: Action)
    ensures s.hist.zeroed <= Apply(max, s, a).hist.zeroed
    ensures LateReplay(s, a) ==> s.replays.held[a.p] in Apply(max, s, a).hist.zeroed
    ensures !LateReplay(s, a) ==> Apply(max, s, a).hist.zeroed == s.hist.zeroed
  {}

  lemma {:induction false} ZeroedRun(max: nat, s: State, actions: seq<Action>)
    ensures s.hist.zeroed <= Run(max, s, actions).hist.zeroed
    ensures SomeLateReplay(max, s, actions) ==> Run(max, s, actions).hist.zeroed != {}
    ensures !SomeLateReplay(max, s, actions) ==> Run(max, s, actions).hist.zeroed == s.hist.zeroed
    decreases |actions|
  {
    if actions != [] {
      ZeroedStep(max, s, actions[0]);
      ZeroedRun(max, Apply(max, s, actions[0]), actions[1..]);
    }
  }

  /** At the end of a run every published row shows at least one attempt if and only if no replay
      was ever written onto a row that was already published. */
  lemma PublishedCountedExactly(max: nat, actions: seq<Action>)
    requires 0 < max
    ensures PublishedCounted(Run(max, Init, actions).q.outbox) <==> !SomeLateReplay(max, Init, actions)
  {
    InitInv(max);
    RunKeeps(max, Init, actions);
    ZeroedRun(max, Init, actions);
    var s := Run(max, Init, actions);
    if s.hist.zeroed != {} {
      var o :| o in s.hist.zeroed;
      assert Published(s.q.outbox, o) && s.q.outbox[o].attempts == 0;
    }
  }

  /** A replay that still finds its dead letter unreplayed is never late. */
  lemma TimelyReplay(max: nat, s: State, a: Action)
    requires Inv(max, s) && a.CommitReplay? && a.p in s.replays.held && s.q.dead[s.replays.held[a.p]].replayedAt.None?
    ensures !LateReplay(s, a)
  {}

  // ----- a run with a late replay

  const EVENT := EventEnvelope(0, "default", "audit.event.created", "run", JNull, "t0")

  const OFFLINE: Attempt := Failed("broker offline", "t1", false)

  const ARRIVED: Attempt := Delivered("t3")

  /** One row, one attempt allowed: it fails and is dead-lettered; two operators begin to replay
      it; the first replay finishes and the row is published; then the second one finishes. */
  const LATE_RUN: seq<Action> :=
    [Enqueue(map[0 := EVENT]), Claim(0, 1), Publish(0, OFFLINE), CommitBatch(0),
     BeginReplay(1, 0), BeginReplay(2, 0), UpdateReplay(1), CommitReplay(1, "t2"),
     Claim(0, 1), Publish(0, ARRIVED), CommitBatch(0), UpdateReplay(2), CommitReplay(2, "t4")]

  lemma RunFrom(max: nat, s: State, actions: seq<Action>, k: nat)
    requires k < |actions|
    ensures Run(max, s, actions[k..]) == Run(max, Apply(max, s, actions[k]), actions[k + 1..])
  {
    assert actions[k..][1..] == actions[k + 1..];
  }

  lemma RunTwo(max: nat, s: State, actions: seq<Action>, k: nat)
    requires k + 1 < |actions|
    ensures Run(max, s, actions[k..])
      == Run(max, Apply(max, Apply(max, s, actions[k]), actions[k + 1]), actions[k + 2..])
  {
    RunFrom(max, s, actions, k);
    RunFrom(max, Apply(max, s, actions[k]), actions, k + 1);
  }

  lemma RunThree(max: nat, s: State, actions: seq<Action>, k: nat)
    requires k + 2 < |actions|
    ensures Run(max, s, actions[k..])
      == Run(max, Apply(max, Apply(max, Apply(max, s, actions[k]), actions[k + 1]), actions[k + 2]), actions[k + 3..])
  {
    RunFrom(max, s, actions, k);
    RunFrom(max, Apply(max, s, actions[k]), actions, k + 1);
    RunFrom(max, Apply(max, Apply(max, s, actions[k]), actions[k + 1]), actions, k + 2);
  }

  lemma OneRowClaim(row: OutboxRow)
    requires Claimable(row, 1)
    ensures ClaimBatch(map[0 := row], {}, 1, 1) == Batch(map[0 := row], [0], map[])
  {
    assert ClaimableSet(map[0 := row], {}, 1) == {0};
    AscendingOne(0);
    assert ClaimIds(map[0 := row], {}, 1, 1) == [0];
    assert Rows(map[0 := row], [0]) == map[0 := row];
  }

  /** The dead letters after one attempt on the row. */
  function LettersAfter(row: OutboxRow, dead: map<nat, DeadLetter>, a: Attempt): map<nat, DeadLetter> {
    if Exhausted(row, a, 1) then dead[0 := LetterFor(row, a)] else dead
  }

  lemma OneRowSettle(row: OutboxRow, dead: map<nat, DeadLetter>, a: Attempt)
    requires Claimable(row, 1)
    ensures Settled(Queue(map[0 := row], dead), Batch(map[0 := row], [], map[0 := a]), 1)
      == Queue(map[0 := AfterAttempt(row, a, 1)], LettersAfter(row, dead, a))
  {
    assert Settle(map[0 := row], map[0 := row], map[0 := a], 1) == map[0 := AfterAttempt(row, a, 1)];
    if Exhausted(row, a, 1) {
      assert Letters(map[0 := row], map[0 := a], 1) == map[0 := LetterFor(row, a)];
      InsertIsUnion(dead, 0, LetterFor(row, a));
    } else {
      assert Letters(map[0 := row], map[0 := a], 1) == map[];
      UnionEmpty(dead);
    }
  }

  /** One row, no batch open, no update of a replay pending. */
  predicate Quiet(s: State, row: OutboxRow, dead: map<nat, DeadLetter>, read: map<nat, nat>) {
    s.q == Queue(map[0 := row], dead) && s.open == map[] && s.replays == Replays(read, map[])
  }

  function OneBatch(s: State, a: Attempt): State {
    Apply(1, Apply(1, Apply(1, s, Claim(0, 1)), Publish(0, a)), CommitBatch(0))
  }

  function OneReplay(s: State, p: nat, now: string): State
  {
    Apply(1, Apply(1, s, UpdateReplay(p)), CommitReplay(p, now))
  }

  function TwoReads(s: State): State { Apply(1, Apply(1, s, BeginReplay(1, 0)), BeginReplay(2, 0)) }

  lemma ClaimOne(s: State, row: OutboxRow, dead: map<nat, DeadLetter>, read: map<nat, nat>)
    requires Quiet(s, row, dead, read) && Claimable(row, 1)
    ensures Apply(1, s, Claim(0, 1)) == s.(open := map[0 := Batch(map[0 := row], [0], map[])])
  {
    NoLocks(s.open, s.replays.held);
    OneRowClaim(row);
  }

  lemma NoLocks(open: map<nat, Batch>, held: map<nat, nat>)
    requires open == map[] && held == map[]
    ensures Locked(open) + Held(held) == {}
  {}

  lemma PublishOne(s: State, row: OutboxRow, a: Attempt)
    requires s.open == map[0 := Batch(map[0 := row], [0], map[])] && (Exhausted(row, a, 1) ==> 0 !in s.q.dead)
    ensures var s' := Apply(1, s, Publish(0, a));
      s'.open == map[0 := Batch(map[0 := row], [], map[0 := a])] && s'.q == s.q && s'.replays == s.replays
  {
    var b := Batch(map[0 := row], [0], map[]);
    assert Attempted(b, a) == Batch(map[0 := row], [], map[0 := a]);
    assert s.open[0 := Attempted(b, a)] == map[0 := Attempted(b, a)];
  }

  lemma CommitOne(s: State, row: OutboxRow, dead: map<nat, DeadLetter>, read: map<nat, nat>, a: Attempt)
    requires s.q == Queue(map[0 := row], dead) && s.replays == Replays(read, map[]) && Claimable(row, 1)
    requires s.open == map[0 := Batch(map[0 := row], [], map[0 := a])]
    ensures Quiet(Apply(1, s, CommitBatch(0)), AfterAttempt(row, a, 1), LettersAfter(row, dead, a), read)
  {
    OneRowSettle(row, dead, a);
    assert s.open - {0} == map[];
  }

  /** A batch of one worker on a single claimable row, from claim to commit. */
  lemma OneRowBatch(s: State, row: OutboxRow, dead: map<nat, DeadLetter>, read: map<nat, nat>, a: Attempt)
    requires Quiet(s, row, dead, read) && Claimable(row, 1) && (Exhausted(row, a, 1) ==> 0 !in dead)
    ensures Quiet(OneBatch(s, a), AfterAttempt(row, a, 1), LettersAfter(row, dead, a), read)
  {
    ClaimOne(s, row, dead, read);
    var s1 := Apply(1, s, Claim(0, 1));
    PublishOne(s1, row, a);
    CommitOne(Apply(1, s1, Publish(0, a)), row, dead, read, a);
  }

  lemma ReadTwice(s: State, row: OutboxRow, dead: map<nat, DeadLetter>)
    requires Quiet(s, row, dead, map[]) && 0 in dead && dead[0].replayedAt.None?
    ensures Quiet(TwoReads(s), row, dead, map[1 := 0, 2 := 0])
  {}

  lemma ReplayOne(s: State, row: OutboxRow, dead: map<nat, DeadLetter>, read: map<nat, nat>, p: nat, now: string)
    requires Quiet(s, row, dead, read) && p in read && read[p] == 0 && 0 in dead
    ensures Quiet(OneReplay(s, p, now), Revived(row), dead[0 := dead[0].(replayedAt := Some(now))], read - {p})
  {
    assert Locked(map[]) + Held(map[]) == {};
    var s1 := Apply(1, s, UpdateReplay(p));
    assert s1 == s.(replays := Replays(read - {p}, map[p := 0]));
    assert map[p := 0] - {p} == map[];
    assert map[0 := row][0 := Revived(row)] == map[0 := Revived(row)];
  }

  /** The run above, step by step. */
  lemma LateRun(s1: State, row: OutboxRow, failed: Attempt, delivered: Attempt)
    requires Quiet(s1, row, map[], map[]) && Claimable(row, 1) && failed.Failed? && delivered.Delivered?
    ensures OneReplay(OneBatch(OneReplay(TwoReads(OneBatch(s1, failed)), 1, "t2"), delivered), 2, "t4").q.outbox
      == map[0 := Revived(AfterAttempt(Revived(AfterAttempt(row, failed, 1)), delivered, 1))]
  {
    var row1, dead1 := AfterAttempt(row, failed, 1), LettersAfter(row, map[], failed);
    OneRowBatch(s1, row, map[], map[], failed);
    ReadTwice(OneBatch(s1, failed), row1, dead1);
    LateHalf(TwoReads(OneBatch(s1, failed)), row1, dead1, delivered);
  }

  lemma LateHalf(s: State, row: OutboxRow, dead: map<nat, DeadLetter>, delivered: Attempt)
    requires Quiet(s, row, dead, map[1 := 0, 2 := 0]) && 0 in dead && row.publishedAt.None? && delivered.Delivered?
    ensures OneReplay(OneBatch(OneReplay(s, 1, "t2"), delivered), 2, "t4").q.outbox
      == map[0 := Revived(AfterAttempt(Revived(row), delivered, 1))]
  {
    var dead1 := dead[0 := dead[0].(replayedAt := Some("t2"))];
    ReplayOne(s, row, dead, map[1 := 0, 2 := 0], 1, "t2");
    assert map[1 := 0, 2 := 0] - {1} == map[2 := 0];
    var s1 := OneReplay(s, 1, "t2");
    OneRowBatch(s1, Revived(row), dead1, map[2 := 0], delivered);
    ReplayOne(OneBatch(s1, delivered), AfterAttempt(Revived(row), delivered, 1), dead1, map[2 := 0], 2, "t4");
  }

  /** So a published row can end up with no attempt on record. */
  lemma LateReplayZeroes()
    ensures var q := Run(1, Init, LATE_RUN).q;
      Published(q.outbox, 0) && q.outbox[0].attempts == 0
  {
    var row := OutboxRow(EVENT, None, 0, None, None);
    var s1 := Apply(1, Init, Enqueue(map[0 := EVENT]));
    assert NewRows(map[0 := EVENT]) == map[0 := row];
    assert map[] + map[0 := row] == map[0 := row];
    LateRun(s1, row, OFFLINE, ARRIVED);
    LateRunIs(LATE_RUN);
  }

  lemma LateRunIs(all: seq<Action>)
    requires all == LATE_RUN
    ensures Run(1, Init, all)
      == OneReplay(OneBatch(OneReplay(TwoReads(OneBatch(Apply(1, Init, Enqueue(map[0 := EVENT])), OFFLINE)), 1, "t2"),
                            ARRIVED), 2, "t4")
  {
    assert all[0..] == all;
    RunFrom(1, Init, all, 0);
    FirstReplay(Apply(1, Init, Enqueue(map[0 := EVENT])), all);
    SecondReplay(OneReplay(TwoReads(OneBatch(Apply(1, Init, Enqueue(map[0 := EVENT])), OFFLINE)), 1, "t2"), all);
  }

  lemma FirstReplay(s: State, all: seq<Action>)
    requires all == LATE_RUN
    ensures Run(1, s, all[1..]) == Run(1, OneReplay(TwoReads(OneBatch(s, OFFLINE)), 1, "t2"), all[8..])
  {
    RunThree(1, s, all, 1);
    RunTwo(1, OneBatch(s, OFFLINE), all, 4);
    RunTwo(1, TwoReads(OneBatch(s, OFFLINE)), all, 6);
  }

  lemma SecondReplay(s: State, all: seq<Action>)
    requires all == LATE_RUN
    ensures Run(1, s, all[8..]) == OneReplay(OneBatch(s, ARRIVED), 2, "t4")
  {
    RunThree(1, s, all, 8);
    RunTwo(1, OneBatch(s, ARRIVED), all, 11);
  }
}
