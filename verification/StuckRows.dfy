/**
 Waiting rows that already have a dead letter: when the worker meets the unique key of the dead
 letters, and so when it can and cannot be said to run without an exception.
 */
module StuckRows {
  import opened Ordering
  import opened Tables
  import opened Outbox
  import opened Worker

  /** The row waits although it was dead-lettered before. */
  predicate Stuck(outbox: map<nat, OutboxRow>, dead: map<nat, DeadLetter>, max: nat, o: nat) {
    o in outbox && o in dead && Claimable(outbox[o], max)
  }

  ghost predicate AlwaysFails(publisher: nat -> Attempt) {
    forall i :: publisher(i).Failed?
  }

  lemma {:induction false} AttemptAt(ids: seq<nat>, publisher: nat -> Attempt, n: nat, i: nat)
    requires i < n <= |ids| && forall j | i < j < n :: ids[j] != ids[i]
    ensures ids[i] in AttemptsOf(ids, publisher, n) && AttemptsOf(ids, publisher, n)[ids[i]] == publisher(i)
  {
    if i < n - 1 { AttemptAt(ids, publisher, n - 1, i); }
  }

  /** A batch of failures that does not meet the unique key leaves the row stuck: had the row been
      claimed and exhausted, the key would have fired. */
  lemma StuckStays(outbox: map<nat, OutboxRow>, dead: map<nat, DeadLetter>, ids: seq<nat>, publisher: nat -> Attempt,
                   max: nat, o: nat)
    requires Stuck(outbox, dead, max, o) && AlwaysFails(publisher)
    requires forall j, k | 0 <= j < k < |ids| :: ids[j] < ids[k]
    requires FirstConflict(Rows(outbox, ids), dead, ids, publisher, max, 0) == |ids|
    ensures Stuck(Settle(outbox, Rows(outbox, ids), AttemptsOf(ids, publisher, |ids|), max), dead, max, o)
  {
    if o in ids {
      var i: nat :| i < |ids| && ids[i] == o;
      AttemptAt(ids, publisher, |ids|, i);
      assert !Conflict(Rows(outbox, ids), dead, ids, publisher, max, i);
      AfterAttemptPhase(outbox[o], publisher(i), max);
    }
  }

  lemma BatchWithoutConflict(outbox: map<nat, OutboxRow>, dead: map<nat, DeadLetter>, ids: seq<nat>,
                             publisher: nat -> Attempt, max: nat, batch: Outcome)
    requires batch == BatchOutcome(outbox, dead, ids, publisher, max) && batch.r.Ok?
    ensures FirstConflict(Rows(outbox, ids), dead, ids, publisher, max, 0) == |ids|
    ensures batch.outbox == Settle(outbox, Rows(outbox, ids), AttemptsOf(ids, publisher, |ids|), max)
    ensures dead.Keys <= batch.dead.Keys
  {}

  /** Settling at least one claimed row lowers the budget. */
  lemma SettledBudget(outbox: map<nat, OutboxRow>, ids: seq<nat>, publisher: nat -> Attempt, max: nat)
    requires ids != [] && forall o | o in ids :: o in ClaimableSet(outbox, {}, max)
    ensures Budget(Settle(outbox, Rows(outbox, ids), AttemptsOf(ids, publisher, |ids|), max), max) < Budget(outbox, max)
  {
    var claimed, done := Rows(outbox, ids), AttemptsOf(ids, publisher, |ids|);
    SettleLighter(outbox, claimed, done, max);
    var o := ids[0];
    assert o in ids && o in claimed && o in done;
    BudgetDrops(outbox, Settle(outbox, claimed, done, max), Ascending(outbox.Keys), max, o);
  }

  /** Under a failing publisher a batch raises, or the row stays stuck and the budget drops. */
  lemma FailingBatch(outbox: map<nat, OutboxRow>, dead: map<nat, DeadLetter>, poll: Poll, max: nat, o: nat,
                     batch: Outcome)
    requires Stuck(outbox, dead, max, o) && AlwaysFails(poll.publisher) && 1 <= poll.limit
    requires batch == NextBatch(outbox, dead, poll, max) && batch.r.Ok?
    ensures Stuck(batch.outbox, batch.dead, max, o) && Budget(batch.outbox, max) < Budget(outbox, max)
  {
    var ids := ClaimIds(outbox, {}, max, poll.limit);
    ClaimIdsSpec(outbox, {}, max, poll.limit);
    NothingClaimable(outbox, max, poll.limit);
    assert o in ClaimableSet(outbox, {}, max);
    BatchWithoutConflict(outbox, dead, ids, poll.publisher, max, batch);
    StuckStays(outbox, dead, ids, poll.publisher, max, o);
    SettledBudget(outbox, ids, poll.publisher, max);
  }

  predicate LimitsOk(polls: seq<Poll>) { forall i | 0 <= i < |polls| :: 1 <= polls[i].limit }

  ghost predicate AllFail(polls: seq<Poll>) { forall i | 0 <= i < |polls| :: AlwaysFails(polls[i].publisher) }

  lemma {:induction false} StuckOrRaised(outbox: map<nat, OutboxRow>, dead: map<nat, DeadLetter>, polls: seq<Poll>,
                                         max: nat, o: nat)
    requires Stuck(outbox, dead, max, o) && LimitsOk(polls) && AllFail(polls)
    ensures var end := After(outbox, dead, polls, max);
      end.r.Err? || (Stuck(end.outbox, end.dead, max, o) && Budget(end.outbox, max) + |polls| <= Budget(outbox, max))
  {
    if polls != [] {
      var n := |polls| - 1;
      StuckOrRaised(outbox, dead, polls[..n], max, o);
      var before := After(outbox, dead, polls[..n], max);
      var batch := NextBatch(before.outbox, before.dead, polls[n], max);
      if before.r.Ok? {
        ThenIs(before, batch);
        if batch.r.Ok? { FailingBatch(before.outbox, before.dead, polls[n], max, o, batch); }
      }
    }
  }

  /** While the publisher keeps failing, a stuck row ends the worker with an exception, at the latest
      after as many batches as there are unused attempts. */
  lemma StuckRaises(outbox: map<nat, OutboxRow>, dead: map<nat, DeadLetter>, polls: seq<Poll>, max: nat, o: nat)
    requires Stuck(outbox, dead, max, o) && LimitsOk(polls) && AllFail(polls) && Budget(outbox, max) <= |polls|
    ensures After(outbox, dead, polls, max).r.Err?
  {
    StuckOrRaised(outbox, dead, polls, max, o);
    var end := After(outbox, dead, polls, max);
    if end.r.Ok? { BudgetPositive(end.outbox, Ascending(end.outbox.Keys), max, o); }
  }

  function Failing(n: nat): seq<Poll> { seq(n, _ => Poll(1, _ => Failed("broker offline", "t1", false))) }

  /** No publisher and no batch limits make the worker raise. */
  ghost predicate NeverRaises(outbox: map<nat, OutboxRow>, dead: map<nat, DeadLetter>, max: nat) {
    forall polls | LimitsOk(polls) :: After(outbox, dead, polls, max).r.Ok?
  }

  lemma SoundNeverRaises(outbox: map<nat, OutboxRow>, dead: map<nat, DeadLetter>, max: nat)
    requires Sound(outbox, dead, max)
    ensures NeverRaises(outbox, dead, max)
  {
    forall polls | LimitsOk(polls) ensures After(outbox, dead, polls, max).r.Ok? {
      BudgetSpent(outbox, dead, polls, max);
    }
  }

  lemma FailingPolls(n: nat)
    ensures |Failing(n)| == n && LimitsOk(Failing(n)) && AllFail(Failing(n))
  {}

  lemma StuckMayRaise(outbox: map<nat, OutboxRow>, dead: map<nat, DeadLetter>, max: nat, o: nat)
    requires Stuck(outbox, dead, max, o)
    ensures !NeverRaises(outbox, dead, max)
  {
    var polls := Failing(Budget(outbox, max));
    FailingPolls(Budget(outbox, max));
    StuckRaises(outbox, dead, polls, max, o);
  }

  /** The worker raises under no publisher and no batch limits, if and only if no waiting row has an
      earlier dead letter. */
  lemma NeverRaisesIff(outbox: map<nat, OutboxRow>, dead: map<nat, DeadLetter>, max: nat)
    requires RowsOk(outbox, max) && LettersOk(outbox, dead)
    ensures NeverRaises(outbox, dead, max) <==> NoPriorLetters(outbox, dead, max)
  {
    if NoPriorLetters(outbox, dead, max) {
      SoundNeverRaises(outbox, dead, max);
    } else {
      var o :| o in outbox && Claimable(outbox[o], max) && o in dead;
      StuckMayRaise(outbox, dead, max, o);
    }
  }

  // ----- a concrete run

  function Fresh(event: EventEnvelope): OutboxRow { OutboxRow(event, None, 0, None, None) }

  const OFFLINE := (_: nat) => Failed("broker offline", "t1", false)
  const HALFWAY := (i: nat) => if i == 0 then Delivered("t3") else Failed("broker offline", "t3", false)

  function TwoRows(a: OutboxRow, b: OutboxRow): map<nat, OutboxRow> { map[0 := a, 1 := b] }

  lemma ClaimsBoth(a: OutboxRow, b: OutboxRow)
    requires Claimable(a, 1) && Claimable(b, 1)
    ensures ClaimIds(TwoRows(a, b), {}, 1, 2) == [0, 1] && Rows(TwoRows(a, b), [0, 1]) == TwoRows(a, b)
  {
    assert ClaimableSet(TwoRows(a, b), {}, 1) == {0, 1};
    AscendingIs([0, 1], {0, 1});
  }

  lemma TwoAttempts(publisher: nat -> Attempt)
    ensures AttemptsOf([0, 1], publisher, 2) == map[0 := publisher(0), 1 := publisher(1)]
  {
    assert AttemptsOf([0, 1], publisher, 0) == map[];
    assert AttemptsOf([0, 1], publisher, 1) == map[0 := publisher(0)];
  }

  lemma BothSettled(a: OutboxRow, b: OutboxRow, done: map<nat, Attempt>)
    requires Claimable(a, 1) && Claimable(b, 1) && done == map[0 := OFFLINE(0), 1 := OFFLINE(1)]
    ensures Settle(TwoRows(a, b), TwoRows(a, b), done, 1)
      == TwoRows(AfterAttempt(a, OFFLINE(0), 1), AfterAttempt(b, OFFLINE(1), 1))
  {}

  lemma BothDead(a: OutboxRow, b: OutboxRow, done: map<nat, Attempt>)
    requires Claimable(a, 1) && Claimable(b, 1) && done == map[0 := OFFLINE(0), 1 := OFFLINE(1)]
    ensures (map[] + Letters(TwoRows(a, b), done, 1)).Keys == {0, 1}
  {
    assert Letters(TwoRows(a, b), done, 1).Keys == {0, 1};
  }

  lemma NoLettersNoConflict(claimed: map<nat, OutboxRow>, ids: seq<nat>, publisher: nat -> Attempt, max: nat)
    ensures FirstConflict(claimed, map[], ids, publisher, max, 0) == |ids|
  {
    assert forall i: nat | i < |ids| :: !Conflict(claimed, map[], ids, publisher, max, i);
  }

  /** Both rows fail with their only attempt and are dead-lettered. */
  lemma FirstBatch(a: OutboxRow, b: OutboxRow, batch: Outcome)
    requires Claimable(a, 1) && Claimable(b, 1) && batch == NextBatch(TwoRows(a, b), map[], Poll(2, OFFLINE), 1)
    ensures batch.r.Ok? && batch.dead.Keys == {0, 1}
    ensures batch.outbox == TwoRows(AfterAttempt(a, OFFLINE(0), 1), AfterAttempt(b, OFFLINE(1), 1))
  {
    ClaimsBoth(a, b);
    TwoAttempts(OFFLINE);
    NoLettersNoConflict(TwoRows(a, b), [0, 1], OFFLINE, 1);
    BothSettled(a, b, AttemptsOf([0, 1], OFFLINE, 2));
    BothDead(a, b, AttemptsOf([0, 1], OFFLINE, 2));
  }

  /** Replayed, the first one is delivered; the second one fails again and meets its dead letter. */
  lemma SecondBatch(a: OutboxRow, b: OutboxRow, dead: map<nat, DeadLetter>)
    requires Claimable(a, 1) && Claimable(b, 1) && 1 in dead
    ensures NextBatch(TwoRows(a, b), dead, Poll(2, HALFWAY), 1)
      == Outcome(TwoRows(a, b), dead, [a.event], Err(IntegrityError))
  {
    ClaimsBoth(a, b);
    var claimed, ids := TwoRows(a, b), [0, 1];
    assert !Conflict(claimed, dead, ids, HALFWAY, 1, 0) && Conflict(claimed, dead, ids, HALFWAY, 1, 1);
    assert FirstConflict(claimed, dead, ids, HALFWAY, 1, 1) == 1;
    assert FirstConflict(claimed, dead, ids, HALFWAY, 1, 0) == 1;
    assert Sent(claimed, ids, HALFWAY, 0) == [];
    assert Sent(claimed, ids, HALFWAY, 1) == [] + [a.event];
  }

  function Replayed(letters: map<nat, DeadLetter>, now: string): map<nat, DeadLetter> {
    map o | o in letters :: letters[o].(replayedAt := Some(now))
  }

  /** Two new rows, one attempt allowed: both are dead-lettered, both are replayed, and the next batch
      rolls back although it has delivered the first of them. */
  lemma DeliveredThenRolledBack(a: EventEnvelope, b: EventEnvelope, first: Outcome)
    requires first == NextBatch(TwoRows(Fresh(a), Fresh(b)), map[], Poll(2, OFFLINE), 1)
    ensures first.r.Ok? && first.outbox.Keys == {0, 1}
    ensures var outbox, dead := TwoRows(Revived(first.outbox[0]), Revived(first.outbox[1])), Replayed(first.dead, "t2");
      NextBatch(outbox, dead, Poll(2, HALFWAY), 1) == Outcome(outbox, dead, [a], Err(IntegrityError))
  {
    FirstBatch(Fresh(a), Fresh(b), first);
    ReplayAndFail(Fresh(a), Fresh(b), first.outbox, first.dead);
  }

  lemma ReplayAndFail(a: OutboxRow, b: OutboxRow, outbox: map<nat, OutboxRow>, dead: map<nat, DeadLetter>)
    requires outbox == TwoRows(AfterAttempt(a, OFFLINE(0), 1), AfterAttempt(b, OFFLINE(1), 1)) && dead.Keys == {0, 1}
    requires a.publishedAt.None? && b.publishedAt.None?
    ensures var outbox', dead' := TwoRows(Revived(outbox[0]), Revived(outbox[1])), Replayed(dead, "t2");
      NextBatch(outbox', dead', Poll(2, HALFWAY), 1) == Outcome(outbox', dead', [a.event], Err(IntegrityError))
  {
    SecondBatch(Revived(outbox[0]), Revived(outbox[1]), Replayed(dead, "t2"));
  }
}
