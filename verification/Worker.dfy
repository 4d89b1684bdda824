/** The polling worker (worker.py): batch after batch over the outbox, with any publisher. */
module Worker {
  import opened Ordering
  import opened Tables
  import opened Outbox

  /** One round of the worker: the batch limit, and the publisher as it behaves during that batch. */
  datatype Poll = Poll(limit: nat, publisher: nat -> Attempt)

  function NextBatch(outbox: map<nat, OutboxRow>, dead: map<nat, DeadLetter>, poll: Poll, max: nat): Outcome {
    BatchOutcome(outbox, dead, ClaimIds(outbox, {}, max, poll.limit), poll.publisher, max)
  }

  /** A batch after others; an exception ends the worker. */
  function Then(before: Outcome, batch: Outcome): Outcome {
    if before.r.Err? then before else batch.(sent := before.sent + batch.sent)
  }

  /** Batches one after the other, until one raises. */
  function After(outbox: map<nat, OutboxRow>, dead: map<nat, DeadLetter>, polls: seq<Poll>, max: nat): Outcome {
    if polls == [] then Outcome(outbox, dead, [], Ok(Counts(0, 0, 0))) else
      var before := After(outbox, dead, polls[..|polls| - 1], max);
      Then(before, NextBatch(before.outbox, before.dead, polls[|polls| - 1], max))
  }

  // ----- batches on an outbox without earlier dead letters

  /** No row that can still be claimed has an earlier dead letter. */
  predicate NoPriorLetters(outbox: map<nat, OutboxRow>, dead: map<nat, DeadLetter>, max: nat) {
    forall o | o in outbox && Claimable(outbox[o], max) :: o !in dead
  }

  /** The invariant of the worker's loop. */
  predicate Sound(outbox: map<nat, OutboxRow>, dead: map<nat, DeadLetter>, max: nat) {
    RowsOk(outbox, max) && LettersOk(outbox, dead) && NoPriorLetters(outbox, dead, max)
  }

  predicate IsClaim(outbox: map<nat, OutboxRow>, claimed: map<nat, OutboxRow>, max: nat) {
    forall o | o in claimed :: o in outbox && claimed[o] == outbox[o] && Claimable(claimed[o], max)
  }

  lemma ClaimedRows(outbox: map<nat, OutboxRow>, max: nat, limit: nat)
    ensures IsClaim(outbox, Rows(outbox, ClaimIds(outbox, {}, max, limit)), max)
  {
    ClaimIdsSpec(outbox, {}, max, limit);
  }

  lemma NoConflict(outbox: map<nat, OutboxRow>, dead: map<nat, DeadLetter>, ids: seq<nat>, publisher: nat -> Attempt,
                   max: nat)
    requires NoPriorLetters(outbox, dead, max) && forall o | o in ids :: o in ClaimableSet(outbox, {}, max)
    ensures FirstConflict(Rows(outbox, ids), dead, ids, publisher, max, 0) == |ids|
  {
    forall i: nat | i < |ids| ensures !Conflict(Rows(outbox, ids), dead, ids, publisher, max, i) {
      assert ids[i] in ids;
    }
  }

  /** The unique key cannot fire, so the batch commits. */
  lemma BatchCommitsCleanly(outbox: map<nat, OutboxRow>, dead: map<nat, DeadLetter>, poll: Poll, max: nat)
    requires NoPriorLetters(outbox, dead, max)
    ensures var ids := ClaimIds(outbox, {}, max, poll.limit);
      var claimed, done := Rows(outbox, ids), AttemptsOf(ids, poll.publisher, |ids|);
      var batch := NextBatch(outbox, dead, poll, max);
      && batch.outbox == Settle(outbox, claimed, done, max)
      && batch.dead == dead + Letters(claimed, done, max)
      && batch.r.Ok?
  {
    ClaimIdsSpec(outbox, {}, max, poll.limit);
    NoConflict(outbox, dead, ClaimIds(outbox, {}, max, poll.limit), poll.publisher, max);
  }

  lemma SettledNoPrior(outbox: map<nat, OutboxRow>, dead: map<nat, DeadLetter>, claimed: map<nat, OutboxRow>,
                       done: map<nat, Attempt>, max: nat)
    requires NoPriorLetters(outbox, dead, max) && IsClaim(outbox, claimed, max)
    ensures NoPriorLetters(Settle(outbox, claimed, done, max), dead + Letters(claimed, done, max), max)
  {
    var outbox' := Settle(outbox, claimed, done, max);
    forall o | o in outbox' && Claimable(outbox'[o], max) ensures o !in dead + Letters(claimed, done, max) {
      if o in claimed && o in done { AfterAttemptPhase(claimed[o], done[o], max); }
    }
  }

  lemma FreshLetters(outbox: map<nat, OutboxRow>, dead: map<nat, DeadLetter>, claimed: map<nat, OutboxRow>,
                     done: map<nat, Attempt>, max: nat)
    requires NoPriorLetters(outbox, dead, max) && IsClaim(outbox, claimed, max)
    ensures Letters(claimed, done, max).Keys !! dead.Keys
  {}

  lemma BatchSound(outbox: map<nat, OutboxRow>, dead: map<nat, DeadLetter>, poll: Poll, max: nat)
    requires Sound(outbox, dead, max)
    ensures var batch := NextBatch(outbox, dead, poll, max);
      batch.r.Ok? && Sound(batch.outbox, batch.dead, max)
  {
    var ids := ClaimIds(outbox, {}, max, poll.limit);
    var claimed, done := Rows(outbox, ids), AttemptsOf(ids, poll.publisher, |ids|);
    ClaimedRows(outbox, max, poll.limit);
    BatchCommitsCleanly(outbox, dead, poll, max);
    SettledNoPrior(outbox, dead, claimed, done, max);
    SettleRowsOk(outbox, claimed, done, max);
    FreshLetters(outbox, dead, claimed, done, max);
    SettleLettersOk(outbox, dead, claimed, done, max);
  }

  // ----- termination

  /** The attempts a row may still use up. */
  function Weight(row: OutboxRow, max: nat): nat {
    if Claimable(row, max) then max - row.attempts else 0
  }

  function BudgetOf(outbox: map<nat, OutboxRow>, ids: seq<nat>, max: nat): nat {
    if ids == [] then 0
    else (if ids[0] in outbox then Weight(outbox[ids[0]], max) else 0) + BudgetOf(outbox, ids[1..], max)
  }

  /** The sum of max_attempts - attempts over the waiting rows. */
  function Budget(outbox: map<nat, OutboxRow>, max: nat): nat {
    BudgetOf(outbox, Ascending(outbox.Keys), max)
  }

  predicate Lighter(outbox: map<nat, OutboxRow>, outbox': map<nat, OutboxRow>, max: nat) {
    outbox'.Keys == outbox.Keys && forall o | o in outbox :: Weight(outbox'[o], max) <= Weight(outbox[o], max)
  }

  lemma {:induction false} BudgetDrops(outbox: map<nat, OutboxRow>, outbox': map<nat, OutboxRow>, ids: seq<nat>,
                                       max: nat, o: nat)
    requires Lighter(outbox, outbox', max)
    requires o in outbox && Weight(outbox'[o], max) < Weight(outbox[o], max)
    ensures BudgetOf(outbox', ids, max) <= BudgetOf(outbox, ids, max)
    ensures o in ids ==> BudgetOf(outbox', ids, max) < BudgetOf(outbox, ids, max)
  {
    if ids != [] {
      BudgetDrops(outbox, outbox', ids[1..], max, o);
      assert ids == [ids[0]] + ids[1..];
    }
  }

  lemma {:induction false} BudgetPositive(outbox: map<nat, OutboxRow>, ids: seq<nat>, max: nat, o: nat)
    requires o in ids && o in outbox && Claimable(outbox[o], max)
    ensures 0 < BudgetOf(outbox, ids, max)
  {
    if ids[0] != o {
      assert ids == [ids[0]] + ids[1..];
      BudgetPositive(outbox, ids[1..], max, o);
    }
  }

  lemma SettleLighter(outbox: map<nat, OutboxRow>, claimed: map<nat, OutboxRow>, done: map<nat, Attempt>, max: nat)
    requires IsClaim(outbox, claimed, max)
    ensures Lighter(outbox, Settle(outbox, claimed, done, max), max)
    ensures forall o | o in claimed
      && o in done :: Weight(Settle(outbox, claimed, done, max)[o], max) < Weight(outbox[o], max)
  {
    var outbox' := Settle(outbox, claimed, done, max);
    forall o | o in outbox
      ensures Weight(outbox'[o], max) <= Weight(outbox[o], max)
      ensures o in claimed && o in done ==> Weight(outbox'[o], max) < Weight(outbox[o], max)
    {
      if o in claimed && o in done { AfterAttemptPhase(claimed[o], done[o], max); }
    }
  }

  /** A batch that selects a row strictly lowers the budget, whatever the publisher does. */
  lemma BatchLowersBudget(outbox: map<nat, OutboxRow>, dead: map<nat, DeadLetter>, poll: Poll, max: nat)
    requires NoPriorLetters(outbox, dead, max) && ClaimIds(outbox, {}, max, poll.limit) != []
    ensures Budget(NextBatch(outbox, dead, poll, max).outbox, max) < Budget(outbox, max)
  {
    var ids := ClaimIds(outbox, {}, max, poll.limit);
    var done, claimed := AttemptsOf(ids, poll.publisher, |ids|), Rows(outbox, ids);
    ClaimIdsSpec(outbox, {}, max, poll.limit);
    ClaimedRows(outbox, max, poll.limit);
    BatchCommitsCleanly(outbox, dead, poll, max);
    SettleLighter(outbox, claimed, done, max);
    var outbox' := Settle(outbox, claimed, done, max);
    var o := ids[0];
    assert o in ids && o in claimed && o in done;
    BudgetDrops(outbox, outbox', Ascending(outbox.Keys), max, o);
  }

  lemma NothingClaimable(outbox: map<nat, OutboxRow>, max: nat, limit: nat)
    requires 1 <= limit
    ensures ClaimIds(outbox, {}, max, limit) == [] <==> ClaimableSet(outbox, {}, max) == {}
    ensures Budget(outbox, max) == 0 ==> ClaimableSet(outbox, {}, max) == {}
  {
    ClaimIdsSpec(outbox, {}, max, limit);
    if Budget(outbox, max) == 0 {
      forall o | o in ClaimableSet(outbox, {}, max) ensures false {
        BudgetPositive(outbox, Ascending(outbox.Keys), max, o);
      }
    }
  }

  /** Once nothing is claimable, batches change nothing. */
  lemma IdleBatch(outbox: map<nat, OutboxRow>, dead: map<nat, DeadLetter>, poll: Poll, max: nat)
    requires ClaimableSet(outbox, {}, max) == {}
    ensures var batch := NextBatch(outbox, dead, poll, max);
      batch.outbox == outbox && batch.dead == dead && batch.sent == []
  {
    ClaimIdsSpec(outbox, {}, max, poll.limit);
    NoProgress(outbox, dead, Rows(outbox, []), max);
  }

  /** The tables are sound, and every batch so far has lowered the budget or found nothing. */
  predicate Spent(outbox: map<nat, OutboxRow>, dead: map<nat, DeadLetter>, polls: nat, budget: nat, max: nat) {
    Sound(outbox, dead, max) && (ClaimableSet(outbox, {}, max) == {} || Budget(outbox, max) + polls <= budget)
  }

  lemma SpentBatch(outbox: map<nat, OutboxRow>, dead: map<nat, DeadLetter>, poll: Poll, polls: nat, budget: nat,
                   max: nat, batch: Outcome)
    requires Spent(outbox, dead, polls, budget, max) && 1 <= poll.limit && batch == NextBatch(outbox, dead, poll, max)
    ensures batch.r.Ok? && Spent(batch.outbox, batch.dead, polls + 1, budget, max)
  {
    BatchSound(outbox, dead, poll, max);
    if ClaimableSet(outbox, {}, max) == {} {
      IdleBatch(outbox, dead, poll, max);
    } else {
      NothingClaimable(outbox, max, poll.limit);
      BatchLowersBudget(outbox, dead, poll, max);
    }
  }

  lemma ThenIs(before: Outcome, batch: Outcome)
    requires before.r.Ok?
    ensures Then(before, batch) == Outcome(batch.outbox, batch.dead, before.sent + batch.sent, batch.r)
  {}

  lemma {:induction false} BudgetSpent(outbox: map<nat, OutboxRow>, dead: map<nat, DeadLetter>, polls: seq<Poll>,
                                       max: nat)
    requires Sound(outbox, dead, max)
    requires forall i | 0 <= i < |polls| :: 1 <= polls[i].limit
    ensures var end := After(outbox, dead, polls, max);
      end.r.Ok? && Spent(end.outbox, end.dead, |polls|, Budget(outbox, max), max)
  {
    if polls != [] {
      var n := |polls| - 1;
      BudgetSpent(outbox, dead, polls[..n], max);
      var before := After(outbox, dead, polls[..n], max);
      var batch := NextBatch(before.outbox, before.dead, polls[n], max);
      SpentBatch(before.outbox, before.dead, polls[n], n, Budget(outbox, max), max, batch);
      ThenIs(before, batch);
    }
  }

  lemma Drained(end: Outcome, polls: nat, budget: nat, max: nat)
    requires Spent(end.outbox, end.dead, polls, budget, max) && budget <= polls
    ensures forall o | o in end.outbox :: end.outbox[o].publishedAt.Some? || end.outbox[o].deadLetteredAt.Some?
  {
    NothingClaimable(end.outbox, max, 1);
    forall o | o in end.outbox ensures end.outbox[o].publishedAt.Some? || end.outbox[o].deadLetteredAt.Some? {
      assert o !in ClaimableSet(end.outbox, {}, max);
    }
  }

  /** Whatever the publisher does, no batch raises, and after as many batches as the budget has
      units every row is published or dead-lettered. */
  lemma Terminates(outbox: map<nat, OutboxRow>, dead: map<nat, DeadLetter>, polls: seq<Poll>, max: nat)
    requires Sound(outbox, dead, max)
    requires forall i | 0 <= i < |polls| :: 1 <= polls[i].limit
    ensures var end := After(outbox, dead, polls, max);
      && end.r.Ok? && Sound(end.outbox, end.dead, max)
      && (Budget(outbox, max) <= |polls| ==>
            forall o | o in end.outbox :: end.outbox[o].publishedAt.Some? || end.outbox[o].deadLetteredAt.Some?)
  {
    BudgetSpent(outbox, dead, polls, max);
    if Budget(outbox, max) <= |polls| {
      Drained(After(outbox, dead, polls, max), |polls|, Budget(outbox, max), max);
    }
  }

  // ----- a publisher that never fails

  /** The envelopes of the rows with the given ids, in that order. */
  function Envelopes(outbox: map<nat, OutboxRow>, ids: seq<nat>): seq<EventEnvelope> {
    if ids == [] then [] else
      var last := ids[|ids| - 1];
      Envelopes(outbox, ids[..|ids| - 1]) + if last in outbox then [outbox[last].event] else []
  }

  lemma {:induction false} EnvelopesConcat(outbox: map<nat, OutboxRow>, a: seq<nat>, b: seq<nat>)
    ensures Envelopes(outbox, a + b) == Envelopes(outbox, a) + Envelopes(outbox, b)
  {
    if b == [] {
      assert a + b == a;
    } else {
      assert (a + b)[..|a + b| - 1] == a + b[..|b| - 1];
      EnvelopesConcat(outbox, a, b[..|b| - 1]);
    }
  }

  predicate SameEvents(outbox: map<nat, OutboxRow>, outbox': map<nat, OutboxRow>) {
    outbox'.Keys == outbox.Keys && forall o | o in outbox :: outbox'[o].event == outbox[o].event
  }

  lemma {:induction false} EnvelopesAgree(outbox: map<nat, OutboxRow>, outbox': map<nat, OutboxRow>, ids: seq<nat>)
    requires SameEvents(outbox, outbox')
    ensures Envelopes(outbox', ids) == Envelopes(outbox, ids)
  {
    if ids != [] { EnvelopesAgree(outbox, outbox', ids[..|ids| - 1]); }
  }

  lemma SameEventsTrans(a: map<nat, OutboxRow>, b: map<nat, OutboxRow>, c: map<nat, OutboxRow>)
    requires SameEvents(a, b) && SameEvents(b, c)
    ensures SameEvents(a, c)
  {}

  ghost predicate NeverFails(publisher: nat -> Attempt) {
    forall i :: publisher(i).Delivered?
  }

  lemma {:induction false} SentAll(outbox: map<nat, OutboxRow>, ids: seq<nat>, publisher: nat -> Attempt, n: nat)
    requires NeverFails(publisher) && n <= |ids|
    ensures Sent(Rows(outbox, ids), ids, publisher, n) == Envelopes(outbox, ids[..n])
  {
    if n > 0 {
      SentAll(outbox, ids, publisher, n - 1);
      assert ids[..n][..n - 1] == ids[..n - 1];
      assert ids[n - 1] in ids;
    }
  }

  lemma {:induction false} AllDelivered(ids: seq<nat>, publisher: nat -> Attempt, n: nat)
    requires n <= |ids| && NeverFails(publisher)
    ensures forall o | o in AttemptsOf(ids, publisher, n) :: AttemptsOf(ids, publisher, n)[o].Delivered?
  {
    if n > 0 { AllDelivered(ids, publisher, n - 1); }
  }

  lemma CleanSettle(outbox: map<nat, OutboxRow>, ids: seq<nat>, publisher: nat -> Attempt, max: nat)
    requires NeverFails(publisher)
    requires forall o | o in ids :: o in ClaimableSet(outbox, {}, max)
    ensures var outbox' := Settle(outbox, Rows(outbox, ids), AttemptsOf(ids, publisher, |ids|), max);
      && ClaimableSet(outbox', {}, max) == ClaimableSet(outbox, {}, max) - (set o | o in ids)
      && SameEvents(outbox, outbox')
  {
    var done := AttemptsOf(ids, publisher, |ids|);
    AllDelivered(ids, publisher, |ids|);
    assert forall o :: o in done <==> o in ids;
  }

  lemma NeverConflicts(claimed: map<nat, OutboxRow>, dead: map<nat, DeadLetter>, ids: seq<nat>,
                       publisher: nat -> Attempt, max: nat)
    requires NeverFails(publisher)
    ensures FirstConflict(claimed, dead, ids, publisher, max, 0) == |ids|
  {
    assert forall i: nat | i < |ids| :: !Conflict(claimed, dead, ids, publisher, max, i);
  }

  /** Of the waiting ids, the lowest k were delivered in id order, and exactly the others still wait. */
  predicate DeliveredFirst(outbox: map<nat, OutboxRow>, waiting: seq<nat>, k: nat, outbox': map<nat, OutboxRow>,
                           sent: seq<EventEnvelope>, max: nat)
  {
    && k <= |waiting|
    && sent == Envelopes(outbox, waiting[..k])
    && Waiting(outbox', max) == waiting[k..]
    && SameEvents(outbox, outbox')
  }

  function Waiting(outbox: map<nat, OutboxRow>, max: nat): seq<nat> {
    Ascending(ClaimableSet(outbox, {}, max))
  }

  function AtMost(a: nat, b: nat): nat { if a <= b then a else b }

  lemma ClaimIsPrefix(outbox: map<nat, OutboxRow>, max: nat, limit: nat)
    ensures ClaimIds(outbox, {}, max, limit) == Waiting(outbox, max)[..AtMost(limit, |Waiting(outbox, max)|)]
  {
    var waiting := Waiting(outbox, max);
    assert waiting[..|waiting|] == waiting;
  }

  lemma CleanOutcome(outbox: map<nat, OutboxRow>, dead: map<nat, DeadLetter>, ids: seq<nat>, publisher: nat -> Attempt,
                     max: nat)
    requires NeverFails(publisher)
    ensures var batch := BatchOutcome(outbox, dead, ids, publisher, max);
      && batch.r.Ok?
      && batch.outbox == Settle(outbox, Rows(outbox, ids), AttemptsOf(ids, publisher, |ids|), max)
      && batch.sent == Envelopes(outbox, ids)
  {
    NeverConflicts(Rows(outbox, ids), dead, ids, publisher, max);
    SentAll(outbox, ids, publisher, |ids|);
    assert ids[..|ids|] == ids;
  }

  /** Settling the first ids leaves the others waiting. */
  lemma CleanRest(outbox: map<nat, OutboxRow>, publisher: nat -> Attempt, max: nat, k: nat)
    requires NeverFails(publisher) && k <= |Waiting(outbox, max)|
    ensures var ids := Waiting(outbox, max)[..k];
      var outbox' := Settle(outbox, Rows(outbox, ids), AttemptsOf(ids, publisher, |ids|), max);
      Waiting(outbox', max) == Waiting(outbox, max)[k..] && SameEvents(outbox, outbox')
  {
    var waiting := Waiting(outbox, max);
    forall o | o in waiting[..k] ensures o in ClaimableSet(outbox, {}, max) { assert o in waiting; }
    CleanSettle(outbox, waiting[..k], publisher, max);
    AscendingDrop(ClaimableSet(outbox, {}, max), k);
  }

  /** One batch delivers the lowest waiting rows, up to its limit. */
  lemma CleanBatch(outbox: map<nat, OutboxRow>, dead: map<nat, DeadLetter>, poll: Poll, max: nat, waiting: seq<nat>,
                   k: nat, batch: Outcome)
    requires NeverFails(poll.publisher) && batch == NextBatch(outbox, dead, poll, max)
    requires waiting == Waiting(outbox, max) && k == AtMost(poll.limit, |waiting|)
    ensures batch.r.Ok? && DeliveredFirst(outbox, waiting, k, batch.outbox, batch.sent, max)
  {
    ClaimIsPrefix(outbox, max, poll.limit);
    CleanOutcome(outbox, dead, ClaimIds(outbox, {}, max, poll.limit), poll.publisher, max);
    CleanRest(outbox, poll.publisher, max, k);
  }

  lemma DeliveredBoth(outbox: map<nat, OutboxRow>, waiting: seq<nat>, k: nat, rest: seq<nat>,
                      outbox': map<nat, OutboxRow>, sent: seq<EventEnvelope>, j: nat, outbox'': map<nat, OutboxRow>,
                      sent': seq<EventEnvelope>, m: nat, max: nat)
    requires DeliveredFirst(outbox, waiting, k, outbox', sent, max)
    requires rest == waiting[k..] && m == k + j
    requires DeliveredFirst(outbox', rest, j, outbox'', sent', max)
    ensures DeliveredFirst(outbox, waiting, m, outbox'', sent + sent', max)
  {
    EnvelopesAgree(outbox, outbox', waiting[k..][..j]);
    EnvelopesSplit(outbox, waiting, k, j, m);
    DropTwice(waiting, k, j, m);
    SameEventsTrans(outbox, outbox', outbox'');
  }

  lemma DropTwice(s: seq<nat>, k: nat, j: nat, m: nat)
    requires m == k + j <= |s|
    ensures s[k..][j..] == s[m..]
  {}

  lemma EnvelopesSplit(outbox: map<nat, OutboxRow>, ids: seq<nat>, k: nat, j: nat, m: nat)
    requires m == k + j <= |ids|
    ensures Envelopes(outbox, ids[..m]) == Envelopes(outbox, ids[..k]) + Envelopes(outbox, ids[k..][..j])
  {
    assert ids[..k] + ids[k..][..j] == ids[..m];
    EnvelopesConcat(outbox, ids[..k], ids[k..][..j]);
  }

  function Total(polls: seq<Poll>): nat {
    if polls == [] then 0 else Total(polls[..|polls| - 1]) + polls[|polls| - 1].limit
  }

  lemma AtMostSum(a: nat, b: nat, n: nat)
    ensures AtMost(a, n) + AtMost(b, n - AtMost(a, n)) == AtMost(a + b, n)
  {}

  /** Batches with limits adding up to total delivered the first total waiting rows. */
  predicate Drains(outbox: map<nat, OutboxRow>, total: nat, end: Outcome, max: nat) {
    DrainsFrom(outbox, Waiting(outbox, max), total, end, max)
  }

  predicate DrainsFrom(outbox: map<nat, OutboxRow>, waiting: seq<nat>, total: nat, end: Outcome, max: nat) {
    end.r.Ok? && DeliveredFirst(outbox, waiting, AtMost(total, |waiting|), end.outbox, end.sent, max)
  }

  lemma DrainsThen(outbox: map<nat, OutboxRow>, total: nat, before: Outcome, rest: seq<nat>, limit: nat, batch: Outcome,
                   total': nat, max: nat)
    requires Drains(outbox, total, before, max) && rest == Waiting(before.outbox, max) && total' == total + limit
    requires batch.r.Ok? && DeliveredFirst(before.outbox, rest, AtMost(limit, |rest|), batch.outbox, batch.sent, max)
    ensures Drains(outbox, total', Then(before, batch), max)
  {
    ThenIs(before, batch);
    BothDrain(outbox, Waiting(outbox, max), total, before, rest, limit, batch, total', max);
  }

  lemma BothDrain(outbox: map<nat, OutboxRow>, waiting: seq<nat>, total: nat, before: Outcome, rest: seq<nat>,
                  limit: nat, batch: Outcome, total': nat, max: nat)
    requires DrainsFrom(outbox, waiting, total, before, max) && rest == Waiting(before.outbox, max)
    requires total' == total + limit
    requires batch.r.Ok? && DeliveredFirst(before.outbox, rest, AtMost(limit, |rest|), batch.outbox, batch.sent, max)
    ensures DeliveredFirst(outbox, waiting, AtMost(total', |waiting|), batch.outbox, before.sent + batch.sent, max)
  {
    AtMostSum(total, limit, |waiting|);
    DeliveredBoth(outbox, waiting, AtMost(total, |waiting|), rest, before.outbox, before.sent, AtMost(limit, |rest|),
                  batch.outbox, batch.sent, AtMost(total', |waiting|), max);
  }

  lemma DrainStep(outbox: map<nat, OutboxRow>, total: nat, before: Outcome, poll: Poll, total': nat, end: Outcome,
                  max: nat)
    requires NeverFails(poll.publisher) && Drains(outbox, total, before, max)
    requires end == Then(before, NextBatch(before.outbox, before.dead, poll, max)) && total' == total + poll.limit
    ensures Drains(outbox, total', end, max)
  {
    var rest, batch := Waiting(before.outbox, max), NextBatch(before.outbox, before.dead, poll, max);
    CleanBatch(before.outbox, before.dead, poll, max, rest, AtMost(poll.limit, |rest|), batch);
    DrainsThen(outbox, total, before, rest, poll.limit, batch, total', max);
  }

  lemma DrainsNone(outbox: map<nat, OutboxRow>, dead: map<nat, DeadLetter>, max: nat)
    ensures Drains(outbox, 0, Outcome(outbox, dead, [], Ok(Counts(0, 0, 0))), max)
  {
    var waiting := Waiting(outbox, max);
    assert waiting[..0] == [] && waiting[0..] == waiting;
  }

  /** Any sequence of batch limits delivers the waiting rows exactly once each and in increasing
      id order, as far as the limits reach. */
  lemma {:induction false} DrainsInOrder(outbox: map<nat, OutboxRow>, dead: map<nat, DeadLetter>, polls: seq<Poll>,
                                         max: nat)
    requires forall i | 0 <= i < |polls| :: NeverFails(polls[i].publisher)
    ensures Drains(outbox, Total(polls), After(outbox, dead, polls, max), max)
  {
    if polls == [] {
      DrainsNone(outbox, dead, max);
    } else {
      var n := |polls| - 1;
      DrainsInOrder(outbox, dead, polls[..n], max);
      DrainStep(outbox, Total(polls[..n]), After(outbox, dead, polls[..n], max), polls[n], Total(polls),
                After(outbox, dead, polls, max), max);
    }
  }

  /** Limits that reach far enough deliver every waiting row and leave none. */
  lemma DrainsAll(outbox: map<nat, OutboxRow>, dead: map<nat, DeadLetter>, polls: seq<Poll>, max: nat)
    requires forall i | 0 <= i < |polls| :: NeverFails(polls[i].publisher)
    requires |Waiting(outbox, max)| <= Total(polls)
    ensures After(outbox, dead, polls, max).sent == Envelopes(outbox, Waiting(outbox, max))
    ensures ClaimableSet(After(outbox, dead, polls, max).outbox, {}, max) == {}
  {
    DrainsInOrder(outbox, dead, polls, max);
    DrainsFar(outbox, Total(polls), After(outbox, dead, polls, max), max);
  }

  lemma DrainsFar(outbox: map<nat, OutboxRow>, total: nat, end: Outcome, max: nat)
    requires Drains(outbox, total, end, max) && |Waiting(outbox, max)| <= total
    ensures end.sent == Envelopes(outbox, Waiting(outbox, max)) && ClaimableSet(end.outbox, {}, max) == {}
  {
    AllDeliveredFirst(outbox, Waiting(outbox, max), end.outbox, end.sent, max);
  }

  lemma AllDeliveredFirst(outbox: map<nat, OutboxRow>, waiting: seq<nat>, outbox': map<nat, OutboxRow>,
                          sent: seq<EventEnvelope>, max: nat)
    requires DeliveredFirst(outbox, waiting, |waiting|, outbox', sent, max)
    ensures sent == Envelopes(outbox, waiting) && ClaimableSet(outbox', {}, max) == {}
  {
    assert waiting[..|waiting|] == waiting && waiting[|waiting|..] == [];
    assert |ClaimableSet(outbox', {}, max)| == |Ascending(ClaimableSet(outbox', {}, max))|;
  }

  // ----- the loop

  /** The polls of a worker with one batch size, the publisher behaving in turn as listed. */
  function Polls(batchSize: nat, publishers: seq<nat -> Attempt>): (polls: seq<Poll>)
    ensures |polls| == |publishers|
  {
    seq(|publishers|, n requires 0 <= n < |publishers| => Poll(batchSize, publishers[n]))
  }

  lemma PollsExtend(batchSize: nat, publishers: seq<nat -> Attempt>, n: nat)
    requires n < |publishers|
    ensures Polls(batchSize, publishers[..n + 1])
      == Polls(batchSize, publishers[..n]) + [Poll(batchSize, publishers[n])]
  {}

  lemma AfterOneMore(outbox: map<nat, OutboxRow>, dead: map<nat, DeadLetter>, polls: seq<Poll>, poll: Poll, max: nat)
    ensures var before := After(outbox, dead, polls, max);
      After(outbox, dead, polls + [poll], max) == Then(before, NextBatch(before.outbox, before.dead, poll, max))
  {
    assert (polls + [poll])[..|polls|] == polls;
  }

  /** The tables and the broker show the given outcome, apart from the counts of the last batch. */
  predicate Shows(outbox: map<nat, OutboxRow>, dead: map<nat, DeadLetter>, sent: seq<EventEnvelope>, ok: bool,
                  end: Outcome)
  {
    end.outbox == outbox && end.dead == dead && end.sent == sent && end.r.Ok? == ok
  }

  lemma ShowsThen(before: Outcome, outbox: map<nat, OutboxRow>, dead: map<nat, DeadLetter>, sent: seq<EventEnvelope>,
                  batch: Outcome)
    requires Shows(outbox, dead, sent, true, before)
    ensures Shows(batch.outbox, batch.dead, sent + batch.sent, batch.r.Ok?, Then(before, batch))
  {}

  /** The tables and the broker after n polls, none of which raised. */
  predicate Running(outbox0: map<nat, OutboxRow>, dead0: map<nat, DeadLetter>, batchSize: nat,
                    publishers: seq<nat -> Attempt>, n: nat, max: nat, outbox: map<nat, OutboxRow>,
                    dead: map<nat, DeadLetter>, sent: seq<EventEnvelope>)
    requires n <= |publishers|
  {
    Shows(outbox, dead, sent, true, After(outbox0, dead0, Polls(batchSize, publishers[..n]), max))
  }

  /** The next poll keeps the worker running, or raises and is the last one. */
  lemma PollStep(outbox0: map<nat, OutboxRow>, dead0: map<nat, DeadLetter>, batchSize: nat,
                 publishers: seq<nat -> Attempt>, n: nat, max: nat, outbox: map<nat, OutboxRow>,
                 dead: map<nat, DeadLetter>, sent: seq<EventEnvelope>, outbox': map<nat, OutboxRow>,
                 dead': map<nat, DeadLetter>, more: seq<EventEnvelope>, sent': seq<EventEnvelope>, r: Result<Counts>)
    requires n < |publishers| && Running(outbox0, dead0, batchSize, publishers, n, max, outbox, dead, sent)
    requires Outcome(outbox', dead', more, r) == NextBatch(outbox, dead, Poll(batchSize, publishers[n]), max)
    requires sent' == sent + more
    ensures r.Ok? ==> Running(outbox0, dead0, batchSize, publishers, n + 1, max, outbox', dead', sent')
    ensures r.Err? ==> Shows(outbox', dead', sent', false, After(outbox0, dead0, Polls(batchSize, publishers), max))
  {
    var polls, batch := Polls(batchSize, publishers[..n]), Outcome(outbox', dead', more, r);
    AfterOneMore(outbox0, dead0, polls, Poll(batchSize, publishers[n]), max);
    PollsExtend(batchSize, publishers, n);
    ShowsThen(After(outbox0, dead0, polls, max), outbox, dead, sent, batch);
    if r.Err? { RaisedIsLast(outbox0, dead0, batchSize, publishers, n + 1, max); }
  }

  lemma LastApart<T>(a: seq<T>, b: seq<T>)
    requires b != []
    ensures a + b == (a + b[..|b| - 1]) + [b[|b| - 1]]
  {}

  lemma {:induction false} StaysRaised(outbox: map<nat, OutboxRow>, dead: map<nat, DeadLetter>, polls: seq<Poll>,
                                       more: seq<Poll>, max: nat)
    requires After(outbox, dead, polls, max).r.Err?
    ensures After(outbox, dead, polls + more, max) == After(outbox, dead, polls, max)
  {
    if more == [] {
      assert polls + more == polls;
    } else {
      var n := |more| - 1;
      StaysRaised(outbox, dead, polls, more[..n], max);
      LastApart(polls, more);
      AfterOneMore(outbox, dead, polls + more[..n], more[n], max);
    }
  }

  /** A batch that raised is the last one, however many publishers were still to come. */
  lemma RaisedIsLast(outbox0: map<nat, OutboxRow>, dead0: map<nat, DeadLetter>, batchSize: nat,
                     publishers: seq<nat -> Attempt>, n: nat, max: nat)
    requires n <= |publishers| && After(outbox0, dead0, Polls(batchSize, publishers[..n]), max).r.Err?
    ensures After(outbox0, dead0, Polls(batchSize, publishers), max)
      == After(outbox0, dead0, Polls(batchSize, publishers[..n]), max)
  {
    PollsSplit(batchSize, publishers, n);
    StaysRaised(outbox0, dead0, Polls(batchSize, publishers[..n]), Polls(batchSize, publishers[n..]), max);
  }

  lemma PollsSplit(batchSize: nat, publishers: seq<nat -> Attempt>, n: nat)
    requires n <= |publishers|
    ensures Polls(batchSize, publishers[..n]) + Polls(batchSize, publishers[n..]) == Polls(batchSize, publishers)
  {}

  lemma SentGrows(sent0: seq<EventEnvelope>, before: seq<EventEnvelope>, more: seq<EventEnvelope>,
                  sent: seq<EventEnvelope>)
      returns (messages: seq<EventEnvelope>)
    requires sent0 + before <= sent && more == sent[|sent0 + before|..]
    ensures messages == before + more && sent == sent0 + messages
  {
    messages := before + more;
  }

  /** run_outbox_worker: publish batches until asked to stop, here after one poll per publisher in
      the list.  An exception of a batch ends the worker. */
  method RunOutboxWorker(store: OutboxStore, publishers: seq<nat -> Attempt>, batchSize: int) returns (r: Result<()>)
    modifies store`outbox, store`dead, store`sent
    ensures old(store.sent) <= store.sent
    ensures 1 <= batchSize <= 1000 ==>
      Shows(store.outbox, store.dead, store.sent[|old(store.sent)|..], r.Ok?,
            After(old(store.outbox), old(store.dead), Polls(batchSize, publishers), store.maxAttempts))
    ensures !(1 <= batchSize <= 1000) ==>
      store.outbox == old(store.outbox) && store.dead == old(store.dead) && store.sent == old(store.sent)
    ensures !(1 <= batchSize <= 1000) ==> r == if publishers == [] then Ok(()) else Err(InvalidLimit)
  {
    ghost var outbox0, dead0, sent0, max := store.outbox, store.dead, store.sent, store.maxAttempts;
    ghost var messages: seq<EventEnvelope> := [];
    var n := 0;
    while n < |publishers|
      invariant n <= |publishers| && store.sent == sent0 + messages
      invariant 1 <= batchSize <= 1000 ==>
        Running(outbox0, dead0, batchSize, publishers, n, max, store.outbox, store.dead, messages)
      invariant !(1 <= batchSize <= 1000) ==>
        n == 0 && store.outbox == outbox0 && store.dead == dead0 && store.sent == sent0
    {
      ghost var outbox1, dead1, sent1 := store.outbox, store.dead, store.sent;
      var counts := store.PublishBatch(batchSize, publishers[n]);
      if 1 <= batchSize <= 1000 {
        ghost var before, more := messages, store.sent[|sent1|..];
        messages := SentGrows(sent0, before, more, store.sent);
        PollStep(outbox0, dead0, batchSize, publishers, n, max, outbox1, dead1, before, store.outbox, store.dead, more,
                 messages, counts);
      } else {
        assert counts == Err(InvalidLimit);
      }
      if counts.Err? { return Err(counts.error); }
      assert counts.Ok? && 1 <= batchSize <= 1000;
      assert Running(outbox0, dead0, batchSize, publishers, n + 1, max, store.outbox, store.dead, messages);
      n := n + 1;
    }
    assert publishers[..n] == publishers;
    return Ok(());
  }
}
