/** Claiming, retrying, dead-lettering and replaying outbox rows, and consuming them once (outbox.py). */
module Outbox {
  import opened Ordering
  import opened Maps
  import opened Tables

  /** How one call of the publisher ended.  A publisher that raises may still have handed the
      message over (reached). */
  datatype Attempt = Delivered(now: string) | Failed(error: string, now: string, reached: bool)

  datatype Error = InvalidLimit | IntegrityError | UnknownDeadLetter | HandlerError

  datatype Result<T> = Ok(value: T) | Err(error: Error)

  datatype Counts = Counts(selected: nat, published: nat, failed: nat)

  predicate Claimable(row: OutboxRow, max: nat) {
    row.publishedAt.None? && row.deadLetteredAt.None? && row.attempts < max
  }

  function ClaimableSet(outbox: map<nat, OutboxRow>, locked: set<nat>, max: nat): set<nat> {
    set o | o in outbox && o !in locked && Claimable(outbox[o], max)
  }

  /** SELECT ... WHERE claimable ORDER BY id LIMIT limit FOR UPDATE SKIP LOCKED. */
  function ClaimIds(outbox: map<nat, OutboxRow>, locked: set<nat>, max: nat, limit: nat): seq<nat> {
    var ids := Ascending(ClaimableSet(outbox, locked, max));
    if limit < |ids| then ids[..limit] else ids
  }

  /** The error column holds at most 2000 characters of the exception text. */
  function Clip(error: string): (clipped: string)
    ensures clipped <= error && |clipped| == if |error| <= 2000 then |error| else 2000
  {
    if |error| <= 2000 then error else error[..2000]
  }

  predicate Exhausted(row: OutboxRow, a: Attempt, max: nat) {
    a.Failed? && row.attempts + 1 >= max
  }

  /** The row as written after one attempt. */
  function AfterAttempt(row: OutboxRow, a: Attempt, max: nat): OutboxRow {
    match a
    case Delivered(now) => row.(publishedAt := Some(now), attempts := row.attempts + 1)
    case Failed(error, now, _) =>
      row.(attempts := row.attempts + 1, lastError := Some(Clip(error)),
           deadLetteredAt := if row.attempts + 1 >= max then Some(now) else None)
  }

  function LetterFor(row: OutboxRow, a: Attempt): DeadLetter
    requires a.Failed?
  {
    DeadLetter(row.event.id, row.event.tenantId, row.event.topic, row.event.aggregateId, row.event.payload,
               Clip(a.error), a.now, None)
  }

  /** The outbox table after the attempts in done, made on the claimed copies of the rows.  An
      UPDATE only touches a row that is still unpublished. */
  function Settle(outbox: map<nat, OutboxRow>, claimed: map<nat, OutboxRow>, done: map<nat, Attempt>,
                  max: nat): map<nat, OutboxRow>
  {
    map o | o in outbox ::
      if o in done && o in claimed && outbox[o].publishedAt.None? then AfterAttempt(claimed[o], done[o], max) else
        outbox[o]
  }

  /** The dead letters inserted along with those attempts. */
  function Letters(claimed: map<nat, OutboxRow>, done: map<nat, Attempt>, max: nat): map<nat, DeadLetter> {
    map o | o in done && o in claimed && Exhausted(claimed[o], done[o], max) :: LetterFor(claimed[o], done[o])
  }

  function Revived(row: OutboxRow): OutboxRow {
    row.(attempts := 0, lastError := None, deadLetteredAt := None)
  }

  /** A row is in one of three phases: waiting, published, dead-lettered. */
  predicate RowOk(row: OutboxRow, max: nat) {
    && (row.publishedAt.None? && row.deadLetteredAt.None? ==> row.attempts < max)
    && (row.publishedAt.Some? ==> row.deadLetteredAt.None? && row.attempts <= max)
    && (row.deadLetteredAt.Some? ==> row.attempts == max)
  }

  predicate RowsOk(outbox: map<nat, OutboxRow>, max: nat) {
    forall o | o in outbox :: outbox[o].event.id == o && RowOk(outbox[o], max)
  }

  predicate Copies(letter: DeadLetter, event: EventEnvelope) {
    && letter.outboxId == event.id && letter.tenantId == event.tenantId && letter.topic == event.topic
    && letter.aggregateId == event.aggregateId && letter.payload == event.payload
  }

  /** A row is dead-lettered exactly when it has an unreplayed dead letter; every dead letter
      copies its row. */
  predicate LettersOk(outbox: map<nat, OutboxRow>, dead: map<nat, DeadLetter>) {
    && (forall o | o in dead :: o in outbox && Copies(dead[o], outbox[o].event)
          && (dead[o].replayedAt.None? <==> outbox[o].deadLetteredAt.Some?)
          && (dead[o].replayedAt.None? ==> outbox[o].lastError == Some(dead[o].failureReason)))
    && (forall o | o in outbox && outbox[o].deadLetteredAt.Some? :: o in dead)
  }

  /** One attempt moves a waiting row to exactly one phase and spends one unit of its budget. */
  lemma AfterAttemptPhase(row: OutboxRow, a: Attempt, max: nat)
    requires Claimable(row, max)
    ensures var after := AfterAttempt(row, a, max);
      && RowOk(after, max) && after.event == row.event && after.attempts == row.attempts + 1
      && (after.publishedAt.Some? <==> a.Delivered?)
      && (after.deadLetteredAt.Some? <==> Exhausted(row, a, max))
      && (Claimable(after, max) <==> a.Failed? && !Exhausted(row, a, max))
  {}

  lemma SettleRowsOk(outbox: map<nat, OutboxRow>, claimed: map<nat, OutboxRow>, done: map<nat, Attempt>, max: nat)
    requires RowsOk(outbox, max)
    requires forall o | o in claimed :: o in outbox && claimed[o] == outbox[o] && Claimable(claimed[o], max)
    ensures RowsOk(Settle(outbox, claimed, done, max), max)
  {
    var outbox' := Settle(outbox, claimed, done, max);
    forall o | o in outbox' ensures outbox'[o].event.id == o && RowOk(outbox'[o], max) {
      if o in claimed && o in done { AfterAttemptPhase(claimed[o], done[o], max); }
    }
  }

  lemma SettleLettersOk(outbox: map<nat, OutboxRow>, dead: map<nat, DeadLetter>, claimed: map<nat, OutboxRow>,
                        done: map<nat, Attempt>, max: nat)
    requires RowsOk(outbox, max) && LettersOk(outbox, dead)
    requires forall o | o in claimed :: o in outbox && claimed[o] == outbox[o] && Claimable(claimed[o], max)
    requires Letters(claimed, done, max).Keys !! dead.Keys
    ensures LettersOk(Settle(outbox, claimed, done, max), dead + Letters(claimed, done, max))
  {
    var outbox', letters := Settle(outbox, claimed, done, max), Letters(claimed, done, max);
    forall o | o in dead + letters
      ensures o in outbox' && Copies((dead + letters)[o], outbox'[o].event)
      ensures (dead + letters)[o].replayedAt.None? <==> outbox'[o].deadLetteredAt.Some?
    {
      if o in claimed && o in done { AfterAttemptPhase(claimed[o], done[o], max); }
    }
    forall o | o in outbox' && outbox'[o].deadLetteredAt.Some? ensures o in dead + letters {
      if o in claimed && o in done { AfterAttemptPhase(claimed[o], done[o], max); }
    }
  }

  lemma RevivedOk(outbox: map<nat, OutboxRow>, dead: map<nat, DeadLetter>, o: nat, now: string, max: nat)
    requires 0 < max && RowsOk(outbox, max) && LettersOk(outbox, dead) && o in dead
    ensures o in outbox
    ensures RowsOk(outbox[o := Revived(outbox[o])], max)
    ensures LettersOk(outbox[o := Revived(outbox[o])], dead[o := dead[o].(replayedAt := Some(now))])
  {}

  /** The attempts of the first n claimed rows, the publisher being asked once per row in order. */
  function AttemptsOf(ids: seq<nat>, publisher: nat -> Attempt, n: nat): (done: map<nat, Attempt>)
    requires n <= |ids|
    ensures done.Keys == set i | 0 <= i < n :: ids[i]
  {
    if n == 0 then map[] else AttemptsOf(ids, publisher, n - 1)[ids[n - 1] := publisher(n - 1)]
  }

  /** The copies of the claimed rows that the batch works on. */
  function Rows(outbox: map<nat, OutboxRow>, ids: seq<nat>): map<nat, OutboxRow>
  {
    map o | o in outbox && o in ids :: outbox[o]
  }

  /** The envelopes delivered among the first n claimed rows, in order. */
  function Sent(claimed: map<nat, OutboxRow>, ids: seq<nat>, publisher: nat -> Attempt,
                n: nat): (sent: seq<EventEnvelope>)
    requires n <= |ids|
    ensures |sent| <= n
  {
    if n == 0 then [] else
      var before := Sent(claimed, ids, publisher, n - 1);
      if ids[n - 1] in claimed && publisher(n - 1).Delivered? then before + [claimed[ids[n - 1]].event] else before
  }

  /** The i-th claimed row exhausts its attempts although it already has a dead letter: the
      unique key fires and the whole batch rolls back. */
  predicate Conflict(claimed: map<nat, OutboxRow>, dead: map<nat, DeadLetter>, ids: seq<nat>, publisher: nat -> Attempt,
                     max: nat, i: nat)
    requires i < |ids|
  {
    ids[i] in dead && ids[i] in claimed && Exhausted(claimed[ids[i]], publisher(i), max)
  }

  /** The claim: claimable unlocked ids in increasing order, as many as the limit allows, and none
      left out below one taken. */
  lemma ClaimIdsSpec(outbox: map<nat, OutboxRow>, locked: set<nat>, max: nat, limit: nat)
    ensures var ids, all := ClaimIds(outbox, locked, max, limit), ClaimableSet(outbox, locked, max);
      && (forall o | o in ids :: o in all)
      && (forall i, j | 0 <= i < j < |ids| :: ids[i] < ids[j])
      && (forall o, p | o in all && o !in ids && p in ids :: p < o)
      && |ids| == (if limit < |all| then limit else |all|)
  {
    var ids := ClaimIds(outbox, locked, max, limit);
    TakeLowest(ClaimableSet(outbox, locked, max), Ascending(ClaimableSet(outbox, locked, max)), ids, |ids|);
  }

  /** The first k elements of an enumeration: they are its least ones. */
  lemma TakeLowest(s: set<nat>, all: seq<nat>, ids: seq<nat>, k: nat)
    requires Enumerates(all, s) && k <= |all| && ids == all[..k]
    ensures (forall o | o in ids :: o in s) && forall i, j | 0 <= i < j < |ids| :: ids[i] < ids[j]
    ensures forall o, p | o in s && o !in ids && p in ids :: p < o
  {
    forall o | o in ids ensures o in s { assert o in all; }
    forall o, p | o in s && o !in ids && p in ids ensures p < o { Above(all, k, o, p); }
  }

  lemma Above(all: seq<nat>, k: nat, o: nat, p: nat)
    requires (forall i, j | 0 <= i < j < |all| :: all[i] < all[j]) && k <= |all|
    requires o in all && o !in all[..k] && p in all[..k]
    ensures p < o
  {
    var j :| 0 <= j < |all| && all[j] == o;
    var i :| 0 <= i < k && all[..k][i] == p;
    assert forall n | 0 <= n < k :: all[n] in all[..k];
  }

  lemma SettleStep(outbox: map<nat, OutboxRow>, claimed: map<nat, OutboxRow>, done: map<nat, Attempt>, max: nat, o: nat,
                   a: Attempt)
    requires o in outbox && o in claimed && o !in done && outbox[o].publishedAt.None?
    ensures Settle(outbox, claimed, done[o := a], max)
      == Settle(outbox, claimed, done, max)[o := AfterAttempt(claimed[o], a, max)]
    ensures Settle(outbox, claimed, done, max)[o] == outbox[o]
  {}

  lemma LettersStep(claimed: map<nat, OutboxRow>, done: map<nat, Attempt>, max: nat, o: nat, a: Attempt)
    requires o in claimed && o !in done
    ensures Letters(claimed, done[o := a], max) ==
      if Exhausted(claimed[o], a, max) then Letters(claimed, done, max)[o := LetterFor(claimed[o], a)] else
        Letters(claimed, done, max)
    ensures o !in Letters(claimed, done, max)
  {}

  /** The tables after the first n claimed rows. */
  predicate Progress(outbox0: map<nat, OutboxRow>, dead0: map<nat, DeadLetter>, claimed: map<nat, OutboxRow>,
                     done: map<nat, Attempt>, max: nat, outbox: map<nat, OutboxRow>, dead: map<nat, DeadLetter>)
  {
    outbox == Settle(outbox0, claimed, done, max) && dead == dead0 + Letters(claimed, done, max)
  }

  lemma ProgressStep(outbox0: map<nat, OutboxRow>, dead0: map<nat, DeadLetter>, claimed: map<nat, OutboxRow>,
                     done: map<nat, Attempt>, max: nat, outbox: map<nat, OutboxRow>, dead: map<nat, DeadLetter>, o: nat,
                     a: Attempt)
    requires Progress(outbox0, dead0, claimed, done, max, outbox, dead)
    requires o in outbox0 && o in claimed && o !in done && outbox0[o].publishedAt.None?
    ensures o in outbox && outbox[o] == outbox0[o] && (o in dead <==> o in dead0)
    ensures Progress(outbox0, dead0, claimed, done[o := a], max, outbox[o := AfterAttempt(claimed[o], a, max)],
      if Exhausted(claimed[o], a, max) then dead[o := LetterFor(claimed[o], a)] else dead)
  {
    SettleStep(outbox0, claimed, done, max, o, a);
    LettersStep(claimed, done, max, o, a);
    if Exhausted(claimed[o], a, max) { InsertRight(dead0, Letters(claimed, done, max), o, LetterFor(claimed[o], a)); }
  }

  lemma NoProgress(outbox: map<nat, OutboxRow>, dead: map<nat, DeadLetter>, claimed: map<nat, OutboxRow>, max: nat)
    ensures Progress(outbox, dead, claimed, map[], max, outbox, dead)
  {
    assert Letters(claimed, map[], max) == map[];
    UnionEmpty(dead);
  }

  lemma ClaimedRow(outbox: map<nat, OutboxRow>, max: nat, limit: nat, publisher: nat -> Attempt, i: nat)
    requires i < |ClaimIds(outbox, {}, max, limit)|
    ensures var ids := ClaimIds(outbox, {}, max, limit);
      && ids[i] in outbox && Claimable(outbox[ids[i]], max)
      && ids[i] in Rows(outbox, ids) && Rows(outbox, ids)[ids[i]] == outbox[ids[i]]
      && ids[i] !in AttemptsOf(ids, publisher, i)
  {
    ClaimIdsSpec(outbox, {}, max, limit);
    var ids := ClaimIds(outbox, {}, max, limit);
    assert ids[i] in ids;
  }

  /** The first claimed row from the i-th on whose attempt violates the unique key. */
  function FirstConflict(claimed: map<nat, OutboxRow>, dead: map<nat, DeadLetter>, ids: seq<nat>,
                         publisher: nat -> Attempt, max: nat, i: nat): (k: nat)
    requires i <= |ids|
    ensures i <= k <= |ids|
    ensures k < |ids| ==> Conflict(claimed, dead, ids, publisher, max, k)
    ensures forall j: nat | i <= j < k :: !Conflict(claimed, dead, ids, publisher, max, j)
    decreases |ids| - i
  {
    if i == |ids| || Conflict(claimed, dead, ids, publisher, max, i) then i
    else FirstConflict(claimed, dead, ids, publisher, max, i + 1)
  }

  datatype Outcome = Outcome(outbox: map<nat, OutboxRow>, dead: map<nat, DeadLetter>, sent: seq<EventEnvelope>,
                             r: Result<Counts>)

  /** What a batch does: every claimed row is settled by its attempt, or, if the unique key fires,
      nothing changes in the database and the messages sent before that stay sent. */
  function BatchOutcome(outbox: map<nat, OutboxRow>, dead: map<nat, DeadLetter>, ids: seq<nat>,
                        publisher: nat -> Attempt, max: nat): Outcome
  {
    var claimed, done := Rows(outbox, ids), AttemptsOf(ids, publisher, |ids|);
    var k := FirstConflict(claimed, dead, ids, publisher, max, 0);
    var sent := Sent(claimed, ids, publisher, k);
    if k < |ids| then Outcome(outbox, dead, sent, Err(IntegrityError))
    else Outcome(Settle(outbox, claimed, done, max), dead + Letters(claimed, done, max), sent,
                 Ok(Counts(|ids|, |sent|, |ids| - |sent|)))
  }

  /** The counts of a batch: the rows it selected, the messages it sent, and the rest. */
  lemma BatchCounts(outbox: map<nat, OutboxRow>, dead: map<nat, DeadLetter>, ids: seq<nat>, publisher: nat -> Attempt,
                    max: nat)
    ensures var batch := BatchOutcome(outbox, dead, ids, publisher, max);
      batch.r.Ok? ==>
        && batch.r.value.selected == |ids| && batch.r.value.published == |batch.sent|
        && batch.r.value.failed == |ids| - |batch.sent|
  {}

  lemma ConflictOrNot(claimed: map<nat, OutboxRow>, dead: map<nat, DeadLetter>, ids: seq<nat>,
                      publisher: nat -> Attempt, max: nat, i: nat)
    requires i < |ids| && i <= FirstConflict(claimed, dead, ids, publisher, max, 0)
    ensures if Conflict(claimed, dead, ids, publisher, max, i)
      then FirstConflict(claimed, dead, ids, publisher, max, 0) == i
      else i + 1 <= FirstConflict(claimed, dead, ids, publisher, max, 0)
  {}

  lemma BatchAborts(outbox: map<nat, OutboxRow>, dead: map<nat, DeadLetter>, ids: seq<nat>, publisher: nat -> Attempt,
                    max: nat, k: nat, outcome: Outcome)
    requires k < |ids| && FirstConflict(Rows(outbox, ids), dead, ids, publisher, max, 0) == k
    requires outcome == Outcome(outbox, dead, Sent(Rows(outbox, ids), ids, publisher, k), Err(IntegrityError))
    ensures outcome == BatchOutcome(outbox, dead, ids, publisher, max)
  {}

  lemma BatchCommits(outbox: map<nat, OutboxRow>, dead: map<nat, DeadLetter>, ids: seq<nat>, publisher: nat -> Attempt,
                     max: nat, outcome: Outcome)
    requires FirstConflict(Rows(outbox, ids), dead, ids, publisher, max, 0) == |ids|
    requires Progress(outbox, dead, Rows(outbox, ids), AttemptsOf(ids, publisher, |ids|), max, outcome.outbox,
                      outcome.dead)
    requires outcome.sent == Sent(Rows(outbox, ids), ids, publisher, |ids|)
    requires outcome.r == Ok(Counts(|ids|, |outcome.sent|, |ids| - |outcome.sent|))
    ensures outcome == BatchOutcome(outbox, dead, ids, publisher, max)
  {}

  lemma RoundStep(outbox0: map<nat, OutboxRow>, dead0: map<nat, DeadLetter>, limit: nat, publisher: nat -> Attempt,
                  max: nat, ids: seq<nat>, claimed: map<nat, OutboxRow>, i: nat, outbox: map<nat, OutboxRow>,
                  dead: map<nat, DeadLetter>)
    requires ids == ClaimIds(outbox0, {}, max, limit) && claimed == Rows(outbox0, ids) && i < |ids|
    requires Progress(outbox0, dead0, claimed, AttemptsOf(ids, publisher, i), max, outbox, dead)
    requires i <= FirstConflict(claimed, dead0, ids, publisher, max, 0)
    ensures ids[i] in outbox && outbox[ids[i]].publishedAt.None? && ids[i] in claimed
    ensures var row, a, k := claimed[ids[i]], publisher(i), FirstConflict(claimed, dead0, ids, publisher, max, 0);
      && (if ids[i] in dead && Exhausted(row, a, max) then k == i else i + 1 <= k)
      && Progress(outbox0, dead0, claimed, AttemptsOf(ids, publisher, i + 1), max,
                  outbox[ids[i] := AfterAttempt(row, a, max)],
                  if Exhausted(row, a, max) then dead[ids[i] := LetterFor(row, a)] else dead)
  {
    ClaimedRow(outbox0, max, limit, publisher, i);
    ProgressStep(outbox0, dead0, claimed, AttemptsOf(ids, publisher, i), max, outbox, dead, ids[i], publisher(i));
    ConflictOrNot(claimed, dead0, ids, publisher, max, i);
  }

  /** The outcome of one publisher call, written to the tables. */
  method RecordAttempt(outbox: map<nat, OutboxRow>, dead: map<nat, DeadLetter>, id: nat, row: OutboxRow,
                       attempt: Attempt, max: nat)
      returns (outbox': map<nat, OutboxRow>, dead': map<nat, DeadLetter>, violated: bool)
    requires id in outbox && outbox[id].publishedAt.None?
    ensures violated <==> id in dead && Exhausted(row, attempt, max)
    ensures outbox' == outbox[id := AfterAttempt(row, attempt, max)]
    ensures attempt.Delivered? ==>
      outbox'[id] == row.(publishedAt := Some(attempt.now), attempts := row.attempts + 1)
    ensures attempt.Failed? ==>
      && outbox'[id] == row.(attempts := row.attempts + 1, lastError := outbox'[id].lastError,
                             deadLetteredAt := if row.attempts + 1 < max then None else Some(attempt.now))
      && outbox'[id].lastError == Some(if |attempt.error| <= 2000 then attempt.error else attempt.error[..2000])
    ensures attempt.Failed? && max <= row.attempts + 1 && !violated ==>
      dead' == dead[id := DeadLetter(row.event.id, row.event.tenantId, row.event.topic, row.event.aggregateId,
                                     row.event.payload, outbox'[id].lastError.value, attempt.now, None)]
    ensures dead' == if Exhausted(row, attempt, max) && !violated then dead[id := LetterFor(row, attempt)] else dead
  {
    outbox', dead', violated := outbox, dead, false;
    match attempt
    case Delivered(now) =>
      if outbox[id].publishedAt.None? {
        outbox' := outbox[id := row.(publishedAt := Some(now), attempts := row.attempts + 1)];
      }
    case Failed(text, now, _) =>
      var attempts, error := row.attempts + 1, Clip(text);
      if outbox[id].publishedAt.None? {
        outbox' := outbox[id := row.(attempts := attempts, lastError := Some(error),
                                     deadLetteredAt := if attempts >= max then Some(now) else None)];
      }
      if attempts >= max {
        if id in dead {
          violated := true;
        } else {
          dead' := dead[id := DeadLetter(row.event.id, row.event.tenantId, row.event.topic, row.event.aggregateId,
                                         row.event.payload, error, now, None)];
        }
      }
  }

  /** publish_batch, with the tables and the broker as fields. */
  class OutboxStore {
    const maxAttempts: nat
    var outbox: map<nat, OutboxRow>
    var dead: map<nat, DeadLetter>
    var sent: seq<EventEnvelope>
    var receipts: set<ReceiptKey>
    var effects: seq<Effect>

    constructor (maxAttempts: nat, outbox: map<nat, OutboxRow>, dead: map<nat, DeadLetter>)
      requires 1 <= maxAttempts
      ensures this.maxAttempts == maxAttempts && this.outbox == outbox && this.dead == dead
      ensures sent == [] && receipts == {} && effects == []
    {
      this.maxAttempts, this.outbox, this.dead := maxAttempts, outbox, dead;
      sent, receipts, effects := [], {}, [];
    }

    method PublishBatch(limit: int, publisher: nat -> Attempt) returns (r: Result<Counts>)
      modifies this`outbox, this`dead, this`sent
      ensures limit < 1 || limit > 1000 ==>
        r == Err(InvalidLimit) && outbox == old(outbox) && dead == old(dead) && sent == old(sent)
      ensures 1 <= limit <= 1000 ==> old(sent) <= sent
      ensures 1 <= limit <= 1000 ==>
        Outcome(outbox, dead, sent[|old(sent)|..], r)
          == BatchOutcome(old(outbox), old(dead), ClaimIds(old(outbox), {}, maxAttempts, limit), publisher, maxAttempts)
    {
      if limit < 1 || limit > 1000 { return Err(InvalidLimit); }
      var outcome := Attempts(outbox, dead, limit, publisher, maxAttempts);
      sent := sent + outcome.sent;
      outbox, dead, r := outcome.outbox, outcome.dead, outcome.r;
    }

    /** replay_dead_letter: the row gets a fresh set of attempts, the dead letter is marked replayed. */
    method ReplayDeadLetter(outboxId: nat, now: string) returns (r: Result<()>)
      modifies this`outbox, this`dead
      ensures var known := outboxId in old(dead) && old(dead)[outboxId].replayedAt.None?;
        && r == (if known then Ok(()) else Err(UnknownDeadLetter))
        && outbox == (if known && outboxId in old(outbox)
                      then old(outbox)[outboxId := Revived(old(outbox)[outboxId])] else old(outbox))
        && dead == (if known then old(dead)[outboxId := old(dead)[outboxId].(replayedAt := Some(now))] else old(dead))
      ensures r.Ok? && outboxId in outbox ==>
        outbox[outboxId] == OutboxRow(outbox[outboxId].event, old(outbox)[outboxId].publishedAt, 0, None, None)
        && outbox[outboxId].event == old(outbox)[outboxId].event
    {
      if outboxId !in dead || dead[outboxId].replayedAt.Some? { return Err(UnknownDeadLetter); }
      if outboxId in outbox {
        outbox := outbox[outboxId := outbox[outboxId].(attempts := 0, lastError := None, deadLetteredAt := None)];
      }
      dead := dead[outboxId := dead[outboxId].(replayedAt := Some(now))];
      return Ok(());
    }

    /** process: the handler's effect and the receipt are written together or not at all, and a
        duplicate writes neither. */
    method Process(consumer: string, event: EventEnvelope, handlerRaises: bool) returns (r: Result<bool>)
      modifies this`receipts, this`effects
      ensures var key := ReceiptKey(consumer, event.id);
        if key in old(receipts) then r == Ok(false) && receipts == old(receipts) && effects == old(effects)
        else if handlerRaises then r == Err(HandlerError) && receipts == old(receipts) && effects == old(effects)
        else r == Ok(true) && receipts == old(receipts) + {key} && effects == old(effects) + [Effect(consumer, event)]
    {
      var key := ReceiptKey(consumer, event.id);
      if key in receipts { return Ok(false); }
      if handlerRaises { return Err(HandlerError); }
      effects := effects + [Effect(consumer, event)];
      receipts := receipts + {key};
      return Ok(true);
    }
  }

  /** One round of the loop: the publisher was asked about the i-th claimed row. */
  method Round(ghost outbox0: map<nat, OutboxRow>, ghost dead0: map<nat, DeadLetter>, ghost limit: nat,
               publisher: nat -> Attempt, max: nat, ids: seq<nat>, claimed: map<nat, OutboxRow>, i: nat,
               outbox: map<nat, OutboxRow>, dead: map<nat, DeadLetter>)
      returns (outbox': map<nat, OutboxRow>, dead': map<nat, DeadLetter>, violated: bool)
    requires ids == ClaimIds(outbox0, {}, max, limit) && claimed == Rows(outbox0, ids) && i < |ids|
    requires Progress(outbox0, dead0, claimed, AttemptsOf(ids, publisher, i), max, outbox, dead)
    requires i <= FirstConflict(claimed, dead0, ids, publisher, max, 0)
    ensures ids[i] in claimed
    ensures if violated then FirstConflict(claimed, dead0, ids, publisher, max, 0) == i
      else i + 1 <= FirstConflict(claimed, dead0, ids, publisher, max, 0)
    ensures violated ==> publisher(i).Failed?
    ensures !violated ==> Progress(outbox0, dead0, claimed, AttemptsOf(ids, publisher, i + 1), max, outbox', dead')
  {
    RoundStep(outbox0, dead0, limit, publisher, max, ids, claimed, i, outbox, dead);
    outbox', dead', violated := RecordAttempt(outbox, dead, ids[i], claimed[ids[i]], publisher(i), max);
  }

  /** The loop of publish_batch inside its transaction: one publisher call per claimed row. */
  method Attempts(outbox0: map<nat, OutboxRow>, dead0: map<nat, DeadLetter>, limit: nat, publisher: nat -> Attempt,
                  max: nat)
      returns (outcome: Outcome)
    ensures outcome == BatchOutcome(outbox0, dead0, ClaimIds(outbox0, {}, max, limit), publisher, max)
  {
    var ids := ClaimIds(outbox0, {}, max, limit);
    var claimed := Rows(outbox0, ids);
    var outbox, dead, messages := outbox0, dead0, [];
    var published, failed := 0, 0;
    ghost var k := FirstConflict(claimed, dead0, ids, publisher, max, 0);
    NoProgress(outbox0, dead0, claimed, max);
    for i := 0 to |ids|
      invariant Progress(outbox0, dead0, claimed, AttemptsOf(ids, publisher, i), max, outbox, dead)
      invariant messages == Sent(claimed, ids, publisher, i)
      invariant published == |messages| && published + failed == i <= k
    {
      var violated;
      outbox, dead, violated := Round(outbox0, dead0, limit, publisher, max, ids, claimed, i, outbox, dead);
      if violated {
        outcome := Outcome(outbox0, dead0, messages, Err(IntegrityError));
        BatchAborts(outbox0, dead0, ids, publisher, max, i, outcome);
        return;
      }
      if publisher(i).Delivered? {
        messages := messages + [claimed[ids[i]].event];
        published := published + 1;
      } else {
        failed := failed + 1;
      }
    }
    outcome := Outcome(outbox, dead, messages, Ok(Counts(|ids|, published, failed)));
    BatchCommits(outbox0, dead0, ids, publisher, max, outcome);
  }

  datatype Effect = Effect(consumer: string, event: EventEnvelope)
}
