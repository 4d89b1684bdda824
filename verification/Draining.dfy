/**
 How far several workers get together: in the delivery machine every committed batch that claimed a
 row uses up attempts, whatever else is interleaved with it.
 */
module Draining {
  import opened Ordering
  import opened Tables
  import opened Outbox
  import opened Worker
  import D = Delivery

  /** The step commits a batch that claimed something. */
  predicate CommitsWork(s: D.State, a: D.Action) {
    a.CommitBatch? && a.w in s.open && s.open[a.w].queue == [] && s.open[a.w].claimed != map[]
  }

  /** The attempts that a step can bring in: those of new rows, and those of a replayed one. */
  function Arrivals(max: nat, a: D.Action): nat {
    match a case Enqueue(rows) => max * |rows| case CommitReplay(_, _) => max case _ => 0
  }

  function AllArrivals(max: nat, actions: seq<D.Action>): nat {
    if actions == [] then 0 else Arrivals(max, actions[0]) + AllArrivals(max, actions[1..])
  }

  /** How many batches with work are committed along the run. */
  function Commits(max: nat, s: D.State, actions: seq<D.Action>): nat
    decreases |actions|
  {
    if actions == [] then 0 else
      (if CommitsWork(s, actions[0]) then 1 else 0) + Commits(max, D.Apply(max, s, actions[0]), actions[1..])
  }

  /** Committing a batch that claimed a row strictly lowers the budget. */
  lemma CommitLowersBudget(q: D.Queue, b: D.Batch, max: nat)
    requires D.BatchOk(q, b, max) && b.queue == [] && b.claimed != map[]
    ensures Budget(D.Settled(q, b, max).outbox, max) < Budget(q.outbox, max)
  {
    SettleLighter(q.outbox, b.claimed, b.done, max);
    var o :| o in b.claimed;
    assert o in b.done;
    BudgetDrops(q.outbox, D.Settled(q, b, max).outbox, Ascending(q.outbox.Keys), max, o);
  }

  // ----- what new rows and replays bring in

  function WeightAt(outbox: map<nat, OutboxRow>, o: nat, max: nat): (w: nat)
    ensures w <= max
  {
    if o in outbox then Weight(outbox[o], max) else 0
  }

  function Among(ids: seq<nat>, keys: set<nat>): seq<nat> {
    if ids == [] then [] else if ids[0] in keys then [ids[0]] + Among(ids[1..], keys) else Among(ids[1..], keys)
  }

  lemma {:induction false} AmongWeighs(outbox: map<nat, OutboxRow>, ids: seq<nat>, max: nat)
    ensures BudgetOf(outbox, Among(ids, outbox.Keys), max) == BudgetOf(outbox, ids, max)
  {
    if ids != [] {
      AmongWeighs(outbox, ids[1..], max);
      if ids[0] in outbox.Keys {
        assert ([ids[0]] + Among(ids[1..], outbox.Keys))[1..] == Among(ids[1..], outbox.Keys);
      }
    }
  }

  lemma {:induction false} AmongEnumerates(ids: seq<nat>, s: set<nat>, keys: set<nat>)
    requires Enumerates(ids, s)
    ensures Enumerates(Among(ids, keys), s * keys)
  {
    if ids != [] {
      TailEnumerates(ids, s);
      AmongEnumerates(ids[1..], s - {ids[0]}, keys);
      HeadAmong(ids[0], Among(ids[1..], keys), s, keys);
    }
  }

  lemma Prepended(head: nat, rest: seq<nat>, t: set<nat>)
    requires Enumerates(rest, t) && head !in t && forall x | x in t :: head < x
    ensures Enumerates([head] + rest, {head} + t)
  {
    forall i | 0 <= i < |rest| ensures head < rest[i] { assert rest[i] in rest; }
  }

  lemma HeadAmong(head: nat, rest: seq<nat>, s: set<nat>, keys: set<nat>)
    requires head in s && Enumerates(rest, (s - {head}) * keys) && forall x | x in s :: head <= x
    ensures Enumerates(if head in keys then [head] + rest else rest, s * keys)
  {
    if head in keys {
      Prepended(head, rest, (s - {head}) * keys);
      assert {head} + (s - {head}) * keys == s * keys;
    } else {
      assert (s - {head}) * keys == s * keys;
    }
  }

  /** Rows that are not there weigh nothing, so more ids may be looked at. */
  lemma BudgetOver(outbox: map<nat, OutboxRow>, all: set<nat>, max: nat)
    requires outbox.Keys <= all
    ensures Budget(outbox, max) == BudgetOf(outbox, Ascending(all), max)
  {
    AmongEnumerates(Ascending(all), all, outbox.Keys);
    assert all * outbox.Keys == outbox.Keys;
    AscendingIs(Among(Ascending(all), outbox.Keys), outbox.Keys);
    AmongWeighs(outbox, Ascending(all), max);
  }

  lemma {:induction false} BudgetGrows(outbox: map<nat, OutboxRow>, outbox': map<nat, OutboxRow>, ids: seq<nat>,
                                       more: set<nat>, max: nat)
    requires forall i, j | 0 <= i < j < |ids| :: ids[i] < ids[j]
    requires forall o | o in ids && o !in more :: WeightAt(outbox', o, max) <= WeightAt(outbox, o, max)
    ensures BudgetOf(outbox', ids, max) <= BudgetOf(outbox, ids, max) + max * |more|
  {
    if ids != [] {
      var rest := more - {ids[0]};
      assert ids == [ids[0]] + ids[1..];
      BudgetGrows(outbox, outbox', ids[1..], rest, max);
      HeadGrows(WeightAt(outbox', ids[0], max), WeightAt(outbox, ids[0], max), max, more, ids[0]);
    }
  }

  lemma HeadGrows(w': nat, w: nat, max: nat, more: set<nat>, o: nat)
    requires w' <= max && (o !in more ==> w' <= w)
    ensures w' + max * |more - {o}| <= w + max * |more|
  {
    if o in more {
      assert |more - {o}| == |more| - 1;
      assert max * |more| == max * (|more| - 1) + max;
    } else {
      assert more - {o} == more;
    }
  }

  lemma ArrivalsBudget(outbox: map<nat, OutboxRow>, outbox': map<nat, OutboxRow>, more: set<nat>, max: nat, added: nat)
    requires outbox'.Keys == outbox.Keys + more && added == max * |more|
    requires forall o | o in outbox && o !in more :: outbox'[o] == outbox[o]
    ensures Budget(outbox', max) <= Budget(outbox, max) + added
  {
    BudgetOver(outbox, outbox'.Keys, max);
    BudgetGrows(outbox, outbox', Ascending(outbox'.Keys), more, max);
  }

  lemma EnqueuedRows(outbox: map<nat, OutboxRow>, rows: map<nat, EventEnvelope>, after: map<nat, OutboxRow>)
    requires D.Fresh(outbox, rows) && after == outbox + D.NewRows(rows)
    ensures after.Keys == outbox.Keys + rows.Keys && |rows.Keys| == |rows|
    ensures forall o | o in outbox && o !in rows.Keys :: after[o] == outbox[o]
  {
    assert D.NewRows(rows).Keys == rows.Keys;
  }

  lemma SameProduct(a: nat, b: nat, c: nat)
    requires b == c
    ensures a * b == a * c
  {}

  lemma OneArrival(outbox: map<nat, OutboxRow>, o: nat, row: OutboxRow, max: nat)
    requires o in outbox
    ensures Budget(outbox[o := row], max) <= Budget(outbox, max) + max
  {
    assert outbox[o := row].Keys == outbox.Keys + {o} && max * |{o}| == max;
    ArrivalsBudget(outbox, outbox[o := row], {o}, max, max);
  }

  lemma ReplayBudget(outbox: map<nat, OutboxRow>, o: nat, after: map<nat, OutboxRow>, max: nat)
    requires o in outbox && after == outbox[o := Revived(outbox[o])]
    ensures Budget(after, max) <= Budget(outbox, max) + max
  {
    OneArrival(outbox, o, Revived(outbox[o]), max);
  }

  // ----- any run

  /** Every step but arrivals and commits of batches with work leaves the outbox alone. */
  lemma OtherStepsIdle(max: nat, s: D.State, a: D.Action)
    requires D.BatchesOk(s.q, s.open, max) && !a.Enqueue? && !a.CommitReplay? && !CommitsWork(s, a)
    ensures D.Apply(max, s, a).q.outbox == s.q.outbox
  {
    if a.CommitBatch? && a.w in s.open {
      assert D.BatchOk(s.q, s.open[a.w], max);
      assert s.open[a.w].queue == [] ==> Settle(s.q.outbox, s.open[a.w].claimed, s.open[a.w].done, max) == s.q.outbox;
    }
  }

  lemma EnqueueStep(max: nat, s: D.State, a: D.Action)
    requires a.Enqueue?
    ensures Budget(D.Apply(max, s, a).q.outbox, max) <= Budget(s.q.outbox, max) + Arrivals(max, a)
  {
    if D.Fresh(s.q.outbox, a.rows) {
      var after := D.Apply(max, s, a).q.outbox;
      EnqueuedRows(s.q.outbox, a.rows, after);
      SameProduct(max, |a.rows|, |a.rows.Keys|);
      ArrivalsBudget(s.q.outbox, after, a.rows.Keys, max, Arrivals(max, a));
    }
  }

  lemma ReplayStep(max: nat, s: D.State, a: D.Action)
    requires a.CommitReplay?
    ensures Budget(D.Apply(max, s, a).q.outbox, max) <= Budget(s.q.outbox, max) + Arrivals(max, a)
  {
    if D.CanCommit(s, a.p) {
      ReplayBudget(s.q.outbox, s.replays.held[a.p], D.Apply(max, s, a).q.outbox, max);
    }
  }

  lemma StepBudget(max: nat, s: D.State, a: D.Action)
    requires D.BatchesOk(s.q, s.open, max)
    ensures Budget(D.Apply(max, s, a).q.outbox, max) + (if CommitsWork(s, a) then 1 else 0)
      <= Budget(s.q.outbox, max) + Arrivals(max, a)
  {
    if CommitsWork(s, a) {
      assert D.BatchOk(s.q, s.open[a.w], max);
      CommitLowersBudget(s.q, s.open[a.w], max);
    } else if a.Enqueue? {
      EnqueueStep(max, s, a);
    } else if a.CommitReplay? {
      ReplayStep(max, s, a);
    } else {
      OtherStepsIdle(max, s, a);
    }
  }

  /** However the batches of the workers, the replays and the new rows interleave, and whatever fails
      and rolls back: as many batches with work are committed as there were unused attempts, plus
      max for every replay and every new row, at most. */
  lemma {:induction false} CommitsAreBounded(max: nat, s: D.State, actions: seq<D.Action>)
    requires 0 < max && D.Inv(max, s)
    ensures Budget(D.Run(max, s, actions).q.outbox, max) + Commits(max, s, actions)
      <= Budget(s.q.outbox, max) + AllArrivals(max, actions)
    decreases |actions|
  {
    if actions != [] {
      StepBudget(max, s, actions[0]);
      D.ApplyKeeps(max, s, actions[0]);
      CommitsAreBounded(max, D.Apply(max, s, actions[0]), actions[1..]);
    }
  }

  lemma SpentNoneWaits(outbox: map<nat, OutboxRow>, max: nat, o: nat)
    requires RowsOk(outbox, max) && Budget(outbox, max) == 0 && o in outbox
    ensures outbox[o].publishedAt.Some? || outbox[o].deadLetteredAt.Some?
  {
    NothingClaimable(outbox, max, 1);
    assert RowOk(outbox[o], max) && o !in ClaimableSet(outbox, {}, max);
  }

  lemma EndRowsOk(max: nat, s: D.State, actions: seq<D.Action>)
    requires 0 < max && D.Inv(max, s)
    ensures RowsOk(D.Run(max, s, actions).q.outbox, max)
  {
    D.RunKeeps(max, s, actions);
  }

  /** And once there were that many, no row waits. */
  lemma NoneWaits(max: nat, s: D.State, actions: seq<D.Action>, o: nat)
    requires 0 < max && D.Inv(max, s) && o in D.Run(max, s, actions).q.outbox
    requires Budget(s.q.outbox, max) + AllArrivals(max, actions) <= Commits(max, s, actions)
    ensures var row := D.Run(max, s, actions).q.outbox[o]; row.publishedAt.Some? || row.deadLetteredAt.Some?
  {
    var outbox := D.Run(max, s, actions).q.outbox;
    assert Budget(outbox, max) == 0 by { CommitsAreBounded(max, s, actions); }
    assert RowsOk(outbox, max) by { EndRowsOk(max, s, actions); }
    SpentNoneWaits(outbox, max, o);
  }

  /** While no dead letter has been replayed the unique key never fires, so a batch is rolled back
      only from outside. */
  lemma KeyNeverFires(max: nat, s: D.State, w: nat, a: Attempt)
    requires D.Inv(max, s) && D.CanPublish(s.open, w)
    requires forall o | o in s.q.dead :: s.q.dead[o].replayedAt.None?
    ensures !D.Violates(s.q.dead, s.open[w], a, max)
  {
    assert D.BatchOk(s.q, s.open[w], max) && D.ClaimsHold(s.q.outbox, s.open[w], max);
  }
}
