/** What publish_batch, replay_dead_letter and process do in one call is a run of the delivery machine. */
module BatchRun {
  import opened Tables
  import opened Outbox
  import opened Delivery

  /** The publisher calls from the i-th on, then the commit. */
  function Publishes(w: nat, publisher: nat -> Attempt, i: nat, n: nat): seq<Action>
    decreases n - i
  {
    if i >= n then [CommitBatch(w)] else [Publish(w, publisher(i))] + Publishes(w, publisher, i + 1, n)
  }

  /** A worker that lost its batch does nothing more. */
  lemma {:induction false} Stranded(max: nat, s: State, w: nat, publisher: nat -> Attempt, i: nat, n: nat)
    requires w !in s.open
    ensures Run(max, s, Publishes(w, publisher, i, n)) == s
    decreases n - i
  {
    var actions := Publishes(w, publisher, i, n);
    if i < n {
      assert actions[1..] == Publishes(w, publisher, i + 1, n);
      Stranded(max, s, w, publisher, i + 1, n);
    } else {
      assert Run(max, s, []) == s;
    }
  }

  /** The batch has made its first i attempts. */
  predicate Midway(s: State, w: nat, claimed: map<nat, OutboxRow>, ids: seq<nat>, publisher: nat -> Attempt, i: nat)
    requires i <= |ids|
  {
    s.open == map[w := Batch(claimed, ids[i..], AttemptsOf(ids, publisher, i))]
  }

  lemma Advance(max: nat, s: State, w: nat, claimed: map<nat, OutboxRow>, ids: seq<nat>, publisher: nat -> Attempt,
                i: nat)
    requires i < |ids| && ids[i] in claimed && Midway(s, w, claimed, ids, publisher, i)
    ensures var s' := Apply(max, s, Publish(w, publisher(i)));
      && s'.q == s.q
      && (if Conflict(claimed, s.q.dead, ids, publisher, max, i) then s'.open == map[]
          else Midway(s', w, claimed, ids, publisher, i + 1))
      && s'.hist.delivered == s.hist.delivered + (if publisher(i).Delivered? then [claimed[ids[i]].event] else [])
  {
    var b := s.open[w];
    assert b.queue[0] == ids[i] && b.queue[1..] == ids[i + 1..];
    assert s.open - {w} == map[];
    assert map[w := b][w := Attempted(b, publisher(i))] == map[w := Attempted(b, publisher(i))];
  }

  lemma DeliveredNext(s: State, claimed: map<nat, OutboxRow>, ids: seq<nat>, publisher: nat -> Attempt, i: nat,
                      before: seq<EventEnvelope>, s1: State)
    requires i < |ids| && ids[i] in claimed && s.hist.delivered == before + Sent(claimed, ids, publisher, i)
    requires s1.hist.delivered == s.hist.delivered + (if publisher(i).Delivered? then [claimed[ids[i]].event] else [])
    ensures s1.hist.delivered == before + Sent(claimed, ids, publisher, i + 1)
    ensures publisher(i).Failed? ==> s1.hist.delivered == before + Sent(claimed, ids, publisher, i)
  {}

  /** What is left to do after i attempts leads to the outcome of the batch. */
  ghost predicate Finishes(max: nat, s: State, w: nat, claimed: map<nat, OutboxRow>, ids: seq<nat>,
                           publisher: nat -> Attempt, i: nat, before: seq<EventEnvelope>)
    requires i <= |ids|
  {
    var s' := Run(max, s, Publishes(w, publisher, i, |ids|));
    var k := FirstConflict(claimed, s.q.dead, ids, publisher, max, i);
    && s'.open == map[]
    && s'.hist.delivered == before + Sent(claimed, ids, publisher, k)
    && s'.q == if k < |ids| then s.q else Settled(s.q, Batch(claimed, [], AttemptsOf(ids, publisher, |ids|)), max)
  }

  lemma LastCommit(max: nat, s: State, w: nat, claimed: map<nat, OutboxRow>, ids: seq<nat>, publisher: nat -> Attempt,
                   before: seq<EventEnvelope>)
    requires Midway(s, w, claimed, ids, publisher, |ids|)
    requires s.hist.delivered == before + Sent(claimed, ids, publisher, |ids|)
    ensures Finishes(max, s, w, claimed, ids, publisher, |ids|, before)
  {
    assert ids[|ids|..] == [];
    assert s.open - {w} == map[];
    assert Run(max, Apply(max, s, CommitBatch(w)), []) == Apply(max, s, CommitBatch(w));
  }

  lemma OneMoreAttempt(max: nat, s: State, w: nat, claimed: map<nat, OutboxRow>, ids: seq<nat>,
                       publisher: nat -> Attempt, i: nat, before: seq<EventEnvelope>, s1: State)
    requires i < |ids| && s1 == Apply(max, s, Publish(w, publisher(i))) && s1.q == s.q
    requires !Conflict(claimed, s.q.dead, ids, publisher, max, i)
    requires Finishes(max, s1, w, claimed, ids, publisher, i + 1, before)
    ensures Finishes(max, s, w, claimed, ids, publisher, i, before)
  {
    assert Publishes(w, publisher, i, |ids|)[1..] == Publishes(w, publisher, i + 1, |ids|);
  }

  lemma RolledBackAt(max: nat, s: State, w: nat, claimed: map<nat, OutboxRow>, ids: seq<nat>, publisher: nat -> Attempt,
                     i: nat, before: seq<EventEnvelope>, s1: State)
    requires i < |ids| && s1 == Apply(max, s, Publish(w, publisher(i))) && s1.q == s.q && s1.open == map[]
    requires Conflict(claimed, s.q.dead, ids, publisher, max, i)
    requires s1.hist.delivered == before + Sent(claimed, ids, publisher, i)
    ensures Finishes(max, s, w, claimed, ids, publisher, i, before)
  {
    assert Publishes(w, publisher, i, |ids|)[1..] == Publishes(w, publisher, i + 1, |ids|);
    Stranded(max, s1, w, publisher, i + 1, |ids|);
  }

  lemma {:induction false} Finish(max: nat, s: State, w: nat, claimed: map<nat, OutboxRow>, ids: seq<nat>,
                                  publisher: nat -> Attempt, i: nat, before: seq<EventEnvelope>)
    requires i <= |ids| && Midway(s, w, claimed, ids, publisher, i)
    requires forall j | 0 <= j < |ids| :: ids[j] in claimed
    requires s.hist.delivered == before + Sent(claimed, ids, publisher, i)
    ensures Finishes(max, s, w, claimed, ids, publisher, i, before)
    decreases |ids| - i
  {
    if i == |ids| {
      LastCommit(max, s, w, claimed, ids, publisher, before);
    } else {
      var s1 := Apply(max, s, Publish(w, publisher(i)));
      Advance(max, s, w, claimed, ids, publisher, i);
      if Conflict(claimed, s.q.dead, ids, publisher, max, i) {
        DeliveredNext(s, claimed, ids, publisher, i, before, s1);
        RolledBackAt(max, s, w, claimed, ids, publisher, i, before, s1);
      } else {
        DeliveredNext(s, claimed, ids, publisher, i, before, s1);
        Finish(max, s1, w, claimed, ids, publisher, i + 1, before);
        OneMoreAttempt(max, s, w, claimed, ids, publisher, i, before, s1);
      }
    }
  }

  /** With no other batch open, claiming, publishing row by row and committing leaves the queue,
      and the log of deliveries, exactly as one call of publish_batch does. */
  lemma BatchIsARun(max: nat, s: State, w: nat, limit: nat, publisher: nat -> Attempt)
    requires s.open == map[] && s.replays.held == map[]
    ensures var ids := ClaimIds(s.q.outbox, {}, max, limit);
      var s' := Run(max, s, [Claim(w, limit)] + Publishes(w, publisher, 0, |ids|));
      var outcome := BatchOutcome(s.q.outbox, s.q.dead, ids, publisher, max);
      && s'.open == map[]
      && s'.q == Queue(outcome.outbox, outcome.dead)
      && s'.hist.delivered == s.hist.delivered + outcome.sent
  {
    var ids := ClaimIds(s.q.outbox, {}, max, limit);
    ClaimStarts(max, s, w, limit, ids);
    ClaimedPresent(s.q.outbox, max, limit, ids);
    assert ids[0..] == ids;
    var s1 := Apply(max, s, Claim(w, limit));
    var actions := [Claim(w, limit)] + Publishes(w, publisher, 0, |ids|);
    assert actions[1..] == Publishes(w, publisher, 0, |ids|);
    assert s.hist.delivered + [] == s.hist.delivered;
    Finish(max, s1, w, Rows(s.q.outbox, ids), ids, publisher, 0, s.hist.delivered);
  }

  lemma ClaimStarts(max: nat, s: State, w: nat, limit: nat, ids: seq<nat>)
    requires s.open == map[] && s.replays.held == map[] && ids == ClaimIds(s.q.outbox, {}, max, limit)
    ensures Apply(max, s, Claim(w, limit)) == s.(open := map[w := Batch(Rows(s.q.outbox, ids), ids, map[])])
  {
    assert Locked(map[]) + Held(map[]) == {};
  }

  lemma ClaimedPresent(outbox: map<nat, OutboxRow>, max: nat, limit: nat, ids: seq<nat>)
    requires ids == ClaimIds(outbox, {}, max, limit)
    ensures forall j | 0 <= j < |ids| :: ids[j] in Rows(outbox, ids)
  {
    ClaimIdsSpec(outbox, {}, max, limit);
    assert forall j | 0 <= j < |ids| :: ids[j] in ids;
  }

  lemma RunOfTwo(max: nat, s: State, a: Action, b: Action)
    ensures Run(max, s, [a, b]) == Apply(max, Apply(max, s, a), b)
  {
    assert [a, b][0..] == [a, b] && [a, b][2..] == [];
    RunTwo(max, s, [a, b], 0);
  }

  lemma RunOfThree(max: nat, s: State, a: Action, b: Action, c: Action)
    ensures Run(max, s, [a, b, c]) == Apply(max, Apply(max, Apply(max, s, a), b), c)
  {
    assert [a, b, c][0..] == [a, b, c] && [a, b, c][3..] == [];
    RunThree(max, s, [a, b, c], 0);
  }

  /** A replay whose read and write meet no other transaction does what replay_dead_letter does. */
  lemma ReplayIsARun(max: nat, s: State, p: nat, o: nat, now: string)
    requires Inv(max, s) && s.open == map[] && s.replays == Replays(map[], map[])
    ensures var known := o in s.q.dead && s.q.dead[o].replayedAt.None?;
      && (known ==> o in s.q.outbox)
      && Run(max, s, [BeginReplay(p, o), UpdateReplay(p), CommitReplay(p, now)]).q ==
        if known then ReplayedQueue(s.q, o, now) else s.q
  {
    RunOfThree(max, s, BeginReplay(p, o), UpdateReplay(p), CommitReplay(p, now));
    assert Locked(map[]) + Held(map[]) == {};
  }

  /** A consumer transaction whose read and write meet no other does what process does. */
  lemma ProcessIsARun(max: nat, s: State, c: nat, consumer: string, event: EventEnvelope, handlerRaises: bool)
    requires c !in s.usage.running && event in s.hist.broker
    ensures var u := Run(max, s, [BeginProcess(c, consumer, event), FinishProcess(c, handlerRaises)]).usage;
      var key := ReceiptKey(consumer, event.id);
      if key in s.usage.receipts || handlerRaises then u.receipts == s.usage.receipts && u.effects == s.usage.effects
      else u.receipts == s.usage.receipts + {key} && u.effects == s.usage.effects + [Effect(consumer, event)]
  {
    RunOfTwo(max, s, BeginProcess(c, consumer, event), FinishProcess(c, handlerRaises));
  }
}
