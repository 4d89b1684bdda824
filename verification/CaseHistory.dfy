/**
 Control cases under any interleaving of ingested events and of transitions whose reads may be
 stale by the time they write.
 */
module CaseHistory {
  import opened Tables
  import opened ControlPulse

  /** The tables, and the transitions that have read but not yet written. */
  datatype State = State(db: ControlDb, open: map<nat, Pending>)

  datatype Action =
    | IngestEvent(tenant: string, event: ControlEvent, occurredAt: string, createdAt: string)
    | Begin(x: nat, tenant: string, caseId: nat, actor: string, toStatus: string, reason: string)
    | Finish(x: nat, occurredAt: string, auditedAt: string, createdAt: string)

  const Init := State(Empty, map[])

  function Apply(l: Library, s: State, a: Action): State {
    match a
    case IngestEvent(tenant, e, occurredAt, createdAt) => s.(db := Ingest(l, s.db, tenant, e, occurredAt, createdAt).0)
    case Begin(x, tenant, caseId, actor, toStatus, reason) =>
      var p := ReadTransition(s.db, tenant, caseId, actor, toStatus, reason);
      if x !in s.open && p.Ok? then s.(open := s.open[x := p.value]) else s
    case Finish(x, occurredAt, auditedAt, createdAt) =>
      if x in s.open
      then State(WriteTransition(l, s.db, s.open[x], occurredAt, auditedAt, createdAt).0, s.open - {x}) else s
  }

  function Run(l: Library, s: State, actions: seq<Action>): State
    decreases |actions|
  {
    if actions == [] then s else Run(l, Apply(l, s, actions[0]), actions[1..])
  }

  /** OPEN, IN_REVIEW, REMEDIATED, CLOSED and round again. */
  function Cycle(k: nat): Status {
    if k % 4 == 0 then Opened else if k % 4 == 1 then InReview else if k % 4 == 2 then Remediated else Closed
  }

  /** case_history: the transitions of one case in the order in which they were written. */
  function HistoryOf(history: seq<Transition>, caseId: nat): seq<Transition> {
    if history == [] then [] else
      var last := history[|history| - 1];
      HistoryOf(history[..|history| - 1], caseId) + if last.caseId == caseId then [last] else []
  }

  function Closures(walk: seq<Transition>): nat {
    if walk == [] then 0 else Closures(walk[..|walk| - 1]) + if walk[|walk| - 1].to == Closed then 1 else 0
  }

  /** The k-th transition leads from the k-th state of the cycle to the next one. */
  predicate Gapless(walk: seq<Transition>) {
    forall k: nat | k < |walk| :: walk[k].from == Cycle(k) && walk[k].to == Cycle(k + 1)
  }

  lemma CycleNext(k: nat)
    ensures Next(Cycle(k)) == Cycle(k + 1)
  {}

  lemma HistoryMore(history: seq<Transition>, t: Transition, caseId: nat)
    ensures HistoryOf(history + [t], caseId) == HistoryOf(history, caseId) + if t.caseId == caseId then [t] else []
  {
    assert (history + [t])[..|history|] == history;
  }

  /** A gapless walk closes the case once in every four transitions, at the third. */
  lemma {:induction false} ClosuresOf(walk: seq<Transition>)
    requires Gapless(walk)
    ensures Closures(walk) == (|walk| + 1) / 4
  {
    if walk != [] {
      var n := |walk| - 1;
      assert walk[n].to == Cycle(n + 1);
      ClosuresOf(walk[..n]);
    }
  }

  // ----- the invariant

  predicate CaseOk(c: ControlCase, walk: seq<Transition>) {
    1 <= c.version && c.status == Cycle(c.version - 1) && |walk| == c.version - 1 && Gapless(walk)
  }

  predicate KeyOk(events: map<EventKey, EventRow>, c: ControlCase) {
    c.key in events && events[c.key].event.eventId == c.key.eventId
  }

  /** The transition belongs to a case of its tenant, and a closing actor is not the event's actor. */
  predicate Independent(events: map<EventKey, EventRow>, cases: seq<ControlCase>, caseId: nat, tenant: string,
                        to: Status, actor: string)
  {
    && caseId < |cases| && cases[caseId].key.tenant == tenant && cases[caseId].key in events
    && (to == Closed ==> actor != events[cases[caseId].key].event.actor)
  }

  ghost predicate CasesOk(events: map<EventKey, EventRow>, cases: seq<ControlCase>, history: seq<Transition>) {
    && (forall i: nat | i < |cases| :: CaseOk(cases[i], HistoryOf(history, i)) && KeyOk(events, cases[i]))
    && (forall i: nat | |cases| <= i :: HistoryOf(history, i) == [])
  }

  predicate HistoryOk(events: map<EventKey, EventRow>, cases: seq<ControlCase>, history: seq<Transition>) {
    forall k | 0 <= k < |history| ::
      var t := history[k]; Independent(events, cases, t.caseId, t.tenant, t.to, t.actor)
  }

  predicate OpenOk(events: map<EventKey, EventRow>, cases: seq<ControlCase>, open: map<nat, Pending>) {
    forall x | x in open ::
      var p := open[x]; Independent(events, cases, p.caseId, p.tenant, Next(p.seen.status), p.actor)
  }

  ghost predicate Inv(s: State) {
    && CasesOk(s.db.events, s.db.cases, s.db.history)
    && HistoryOk(s.db.events, s.db.cases, s.db.history)
    && OpenOk(s.db.events, s.db.cases, s.open)
  }

  /** Rows stay where they are and keep their events. */
  predicate SameKeys(before: ControlDb, after: ControlDb) {
    && |before.cases| <= |after.cases|
    && (forall i: nat | i < |before.cases| ::
          after.cases[i].key == before.cases[i].key && after.cases[i].fact == before.cases[i].fact)
    && (forall k | k in before.events :: k in after.events && after.events[k] == before.events[k])
  }

  lemma IngestSameKeys(l: Library, db: ControlDb, tenant: string, e: ControlEvent, occurredAt: string,
                       createdAt: string)
    ensures SameKeys(db, Ingest(l, db, tenant, e, occurredAt, createdAt).0)
  {}

  lemma IngestKeeps(l: Library, s: State, tenant: string, e: ControlEvent, occurredAt: string, createdAt: string)
    requires Inv(s)
    ensures Inv(Apply(l, s, IngestEvent(tenant, e, occurredAt, createdAt)))
  {
    var db' := Ingest(l, s.db, tenant, e, occurredAt, createdAt).0;
    IngestSameKeys(l, s.db, tenant, e, occurredAt, createdAt);
    IngestCases(l, s.db, tenant, e, occurredAt, createdAt);
    Carried(s.db, db', s.open);
  }

  lemma NewCases(events: map<EventKey, EventRow>, cases: seq<ControlCase>, history: seq<Transition>, key: EventKey,
                 row: EventRow, facts: seq<Fact>)
    requires CasesOk(events, cases, history) && row.event.eventId == key.eventId
    ensures CasesOk(events[key := row], cases + OpenCases(key, facts), history)
  {
    var added := OpenCases(key, facts);
    forall i: nat | i < |cases + added|
      ensures CaseOk((cases + added)[i], HistoryOf(history, i)) && KeyOk(events[key := row], (cases + added)[i])
    {
      if i < |cases| {
        assert (cases + added)[i] == cases[i] && KeyOk(events, cases[i]);
      } else {
        assert HistoryOf(history, i) == [];
        assert (cases + added)[i] == ControlCase(key, facts[i - |cases|], Opened, 1);
      }
    }
  }

  lemma IngestCases(l: Library, db: ControlDb, tenant: string, e: ControlEvent, occurredAt: string, createdAt: string)
    requires CasesOk(db.events, db.cases, db.history)
    ensures var db' := Ingest(l, db, tenant, e, occurredAt, createdAt).0;
      db'.history == db.history && CasesOk(db'.events, db'.cases, db'.history)
  {
    var key := EventKey(tenant, e.eventId);
    if l.hour(e.occurredAt).Some? && key !in db.events {
      NewCases(db.events, db.cases, db.history, key, EventRow(e, l.evidence(e)), Facts(l, e));
    }
  }

  /** What was independent stays so. */
  lemma Carried(before: ControlDb, after: ControlDb, open: map<nat, Pending>)
    requires SameKeys(before, after)
    requires HistoryOk(before.events, before.cases, before.history) && OpenOk(before.events, before.cases, open)
    ensures HistoryOk(after.events, after.cases, before.history) && OpenOk(after.events, after.cases, open)
  {}

  lemma WriteSameKeys(l: Library, db: ControlDb, p: Pending, occurredAt: string, auditedAt: string, createdAt: string)
    ensures SameKeys(db, WriteTransition(l, db, p, occurredAt, auditedAt, createdAt).0)
  {
    if StillAsRead(db, p) { MovedSameKeys(l, db, p, occurredAt, TransitionAudit(p, auditedAt), createdAt); }
  }

  lemma MovedSameKeys(l: Library, db: ControlDb, p: Pending, occurredAt: string, content: AuditContent,
                      createdAt: string)
    requires p.caseId < |db.cases|
    ensures SameKeys(db, Moved(l, db, p, occurredAt, content, createdAt))
  {}

  /** A transition that passes the comparison moves its case one step along the cycle. */
  lemma WalkExtended(c: ControlCase, walk: seq<Transition>, t: Transition)
    requires CaseOk(c, walk) && t.from == c.status && t.to == Next(c.status)
    ensures CaseOk(c.(status := Next(c.status), version := c.version + 1), walk + [t])
  {
    CycleNext(c.version - 1);
  }

  /** The transition shows in the history of its own case only. */
  lemma MovedCase(c: ControlCase, history: seq<Transition>, i: nat, t: Transition, j: nat)
    requires CaseOk(c, HistoryOf(history, j)) && t.caseId == i && t.from == c.status && t.to == Next(c.status) && i == j
    ensures CaseOk(c.(status := t.to, version := c.version + 1), HistoryOf(history + [t], j))
  {
    HistoryMore(history, t, j);
    WalkExtended(c, HistoryOf(history, j), t);
  }

  lemma OtherHistory(history: seq<Transition>, t: Transition, j: nat)
    requires t.caseId != j
    ensures HistoryOf(history + [t], j) == HistoryOf(history, j)
  {
    HistoryMore(history, t, j);
  }

  lemma MovedCases(events: map<EventKey, EventRow>, cases: seq<ControlCase>, history: seq<Transition>, i: nat,
                   t: Transition)
    requires CasesOk(events, cases, history) && i < |cases| && t.caseId == i && t.from == cases[i].status
    requires t.to == Next(cases[i].status)
    ensures CasesOk(events, cases[i := cases[i].(status := t.to, version := cases[i].version + 1)], history + [t])
  {
    forall j: nat | j != i ensures HistoryOf(history + [t], j) == HistoryOf(history, j) { OtherHistory(history, t, j); }
    MovedCase(cases[i], history, i, t, i);
  }

  lemma WriteCases(l: Library, db: ControlDb, p: Pending, occurredAt: string, auditedAt: string, createdAt: string)
    requires CasesOk(db.events, db.cases, db.history) && StillAsRead(db, p)
    ensures var db' := Moved(l, db, p, occurredAt, TransitionAudit(p, auditedAt), createdAt);
      CasesOk(db'.events, db'.cases, db'.history)
  {
    MovedCases(db.events, db.cases, db.history, p.caseId,
               Transition(p.tenant, p.caseId, p.seen.status, Next(p.seen.status), p.actor, p.reason, occurredAt));
  }

  lemma WrittenCases(l: Library, db: ControlDb, p: Pending, occurredAt: string, auditedAt: string, createdAt: string,
                     db': ControlDb)
    requires CasesOk(db.events, db.cases, db.history)
    requires db' == WriteTransition(l, db, p, occurredAt, auditedAt, createdAt).0
    ensures CasesOk(db'.events, db'.cases, db'.history)
  {
    if StillAsRead(db, p) { WriteCases(l, db, p, occurredAt, auditedAt, createdAt); }
  }

  /** The history of a write: nothing, or the transition itself. */
  lemma WrittenHistory(l: Library, db: ControlDb, p: Pending, occurredAt: string, auditedAt: string, createdAt: string,
                       db': ControlDb)
    requires db' == WriteTransition(l, db, p, occurredAt, auditedAt, createdAt).0
    ensures db'.history == db.history
      || db'.history == db.history
        + [Transition(p.tenant, p.caseId, p.seen.status, Next(p.seen.status), p.actor, p.reason, occurredAt)]
  {}

  lemma HistoryOkMore(events: map<EventKey, EventRow>, cases: seq<ControlCase>, history: seq<Transition>, t: Transition)
    requires HistoryOk(events, cases, history) && Independent(events, cases, t.caseId, t.tenant, t.to, t.actor)
    ensures HistoryOk(events, cases, history + [t])
  {}

  lemma IndependentStays(before: ControlDb, after: ControlDb, p: Pending)
    requires SameKeys(before, after)
    requires Independent(before.events, before.cases, p.caseId, p.tenant, Next(p.seen.status), p.actor)
    ensures Independent(after.events, after.cases, p.caseId, p.tenant, Next(p.seen.status), p.actor)
  {}

  lemma WrittenOk(l: Library, db: ControlDb, open: map<nat, Pending>, p: Pending, occurredAt: string, auditedAt: string,
                  createdAt: string, db': ControlDb)
    requires HistoryOk(db.events, db.cases, db.history) && OpenOk(db.events, db.cases, open)
    requires Independent(db.events, db.cases, p.caseId, p.tenant, Next(p.seen.status), p.actor)
    requires db' == WriteTransition(l, db, p, occurredAt, auditedAt, createdAt).0
    ensures HistoryOk(db'.events, db'.cases, db'.history) && OpenOk(db'.events, db'.cases, open)
  {
    WriteSameKeys(l, db, p, occurredAt, auditedAt, createdAt);
    Carried(db, db', open);
    WrittenHistory(l, db, p, occurredAt, auditedAt, createdAt, db');
    IndependentStays(db, db', p);
    if db'.history != db.history {
      HistoryOkMore(db'.events, db'.cases, db.history,
                    Transition(p.tenant, p.caseId, p.seen.status, Next(p.seen.status), p.actor, p.reason, occurredAt));
    }
  }

  lemma FinishKeeps(l: Library, s: State, x: nat, occurredAt: string, auditedAt: string, createdAt: string)
    requires Inv(s) && x in s.open
    ensures Inv(Apply(l, s, Finish(x, occurredAt, auditedAt, createdAt)))
  {
    var p := s.open[x];
    var db' := WriteTransition(l, s.db, p, occurredAt, auditedAt, createdAt).0;
    WrittenCases(l, s.db, p, occurredAt, auditedAt, createdAt, db');
    WrittenOk(l, s.db, s.open - {x}, p, occurredAt, auditedAt, createdAt, db');
  }

  lemma ApplyKeeps(l: Library, s: State, a: Action)
    requires Inv(s)
    ensures Inv(Apply(l, s, a))
  {
    match a
    case IngestEvent(tenant, e, occurredAt, createdAt) => IngestKeeps(l, s, tenant, e, occurredAt, createdAt);
    case Begin(_, _, _, _, _, _) =>
    case Finish(x, occurredAt, auditedAt, createdAt) =>
      if x in s.open { FinishKeeps(l, s, x, occurredAt, auditedAt, createdAt); }
  }

  lemma {:induction false} RunKeeps(l: Library, s: State, actions: seq<Action>)
    requires Inv(s)
    ensures Inv(Run(l, s, actions))
    decreases |actions|
  {
    if actions != [] {
      ApplyKeeps(l, s, actions[0]);
      RunKeeps(l, Apply(l, s, actions[0]), actions[1..]);
    }
  }

  /** In every run: a case's status is the state of the cycle that its version says, its history is
      the gapless walk there, it was closed once per four versions, and whoever closed it is not
      the actor of its event. */
  lemma CasesWalkTheCycle(l: Library, actions: seq<Action>, i: nat)
    requires i < |Run(l, Init, actions).db.cases|
    ensures var db := Run(l, Init, actions).db;
      var c, walk := db.cases[i], HistoryOf(db.history, i);
      && 1 <= c.version && c.status == Cycle(c.version - 1)
      && |walk| == c.version - 1 && Gapless(walk) && Closures(walk) == c.version / 4
      && (forall k | 0 <= k < |db.history| && db.history[k].caseId == i && db.history[k].to == Closed ::
            c.key in db.events && db.history[k].actor != db.events[c.key].event.actor)
  {
    RunKeeps(l, Init, actions);
    ClosuresOf(HistoryOf(Run(l, Init, actions).db.history, i));
  }

  // ----- repeated events

  predicate SameFacts(before: seq<ControlCase>, after: seq<ControlCase>) {
    |before| == |after|
    && forall i: nat | i < |before| :: after[i].key == before[i].key && after[i].fact == before[i].fact
  }

  lemma {:induction false} StoredFactsSame(before: seq<ControlCase>, after: seq<ControlCase>, n: nat, key: EventKey)
    requires SameFacts(before, after) && n <= |before|
    ensures StoredFacts(after, n, key) == StoredFacts(before, n, key)
  {
    if n > 0 { StoredFactsSame(before, after, n - 1, key); }
  }

  lemma {:induction false} StoredFactsConcat(a: seq<ControlCase>, b: seq<ControlCase>, n: nat, key: EventKey)
    requires n <= |b|
    ensures StoredFacts(a + b, |a| + n, key) == StoredFacts(a, |a|, key) + StoredFacts(b, n, key)
  {
    if n > 0 {
      StoredFactsConcat(a, b, n - 1, key);
    } else {
      StoredFactsPrefix(a, b, |a|, key);
    }
  }

  lemma {:induction false} StoredFactsPrefix(a: seq<ControlCase>, b: seq<ControlCase>, n: nat, key: EventKey)
    requires n <= |a|
    ensures StoredFacts(a + b, n, key) == StoredFacts(a, n, key)
  {
    if n > 0 { StoredFactsPrefix(a, b, n - 1, key); }
  }

  lemma OpenedFacts(key: EventKey, facts: seq<Fact>, n: nat, other: EventKey)
    requires n <= |facts|
    ensures StoredFacts(OpenCases(key, facts), n, other) == if other == key then facts[..n] else []
  {
    CasesOfOne(OpenCases(key, facts), key, facts, n, other);
  }

  lemma {:induction false} CasesOfOne(cases: seq<ControlCase>, key: EventKey, facts: seq<Fact>, n: nat, other: EventKey)
    requires n <= |cases| == |facts| && forall i: nat | i < |cases| :: cases[i].key == key && cases[i].fact == facts[i]
    ensures StoredFacts(cases, n, other) == if other == key then facts[..n] else []
  {
    if n > 0 {
      CasesOfOne(cases, key, facts, n - 1, other);
      assert facts[..n] == facts[..n - 1] + [facts[n - 1]];
    }
  }

  lemma {:induction false} NoFacts(cases: seq<ControlCase>, n: nat, key: EventKey)
    requires n <= |cases| && forall i: nat | i < n :: cases[i].key != key
    ensures StoredFacts(cases, n, key) == []
  {
    if n > 0 { NoFacts(cases, n - 1, key); }
  }

  function FactsIn(db: ControlDb, key: EventKey): seq<Fact> { StoredFacts(db.cases, |db.cases|, key) }

  lemma AddedFacts(cases: seq<ControlCase>, added: seq<ControlCase>, key: EventKey)
    requires StoredFacts(cases, |cases|, key) == [] || StoredFacts(added, |added|, key) == []
    ensures StoredFacts(cases + added, |cases + added|, key) ==
      if StoredFacts(cases, |cases|, key) == [] then StoredFacts(added, |added|, key) else
        StoredFacts(cases, |cases|, key)
  {
    StoredFactsConcat(cases, added, |added|, key);
  }

  lemma OpenedAll(mine: EventKey, facts: seq<Fact>, key: EventKey)
    ensures StoredFacts(OpenCases(mine, facts), |facts|, key) == if key == mine then facts else []
  {
    OpenedFacts(mine, facts, |facts|, key);
    assert facts[..|facts|] == facts;
  }

  lemma UnknownHasNone(events: map<EventKey, EventRow>, cases: seq<ControlCase>, key: EventKey)
    requires key !in events && forall i: nat | i < |cases| :: KeyOk(events, cases[i])
    ensures StoredFacts(cases, |cases|, key) == []
  {
    forall i: nat | i < |cases| ensures cases[i].key != key { assert KeyOk(events, cases[i]); }
    NoFacts(cases, |cases|, key);
  }

  /** Ingesting a new event stores its facts and leaves those of the other events alone. */
  lemma IngestFacts(l: Library, db: ControlDb, tenant: string, e: ControlEvent, occurredAt: string, createdAt: string,
                    key: EventKey)
    requires l.hour(e.occurredAt).Some? && forall i: nat | i < |db.cases| :: KeyOk(db.events, db.cases[i])
    requires EventKey(tenant, e.eventId) !in db.events
    ensures FactsIn(IngestNew(l, db, tenant, e, occurredAt, createdAt), key) ==
      if key == EventKey(tenant, e.eventId) then Facts(l, e) else FactsIn(db, key)
  {
    var mine := EventKey(tenant, e.eventId);
    UnknownHasNone(db.events, db.cases, mine);
    OpenedAll(mine, Facts(l, e), key);
    AddedFacts(db.cases, OpenCases(mine, Facts(l, e)), key);
  }

  lemma MovedFacts(l: Library, db: ControlDb, p: Pending, occurredAt: string, auditedAt: string, createdAt: string,
                   key: EventKey)
    requires p.caseId < |db.cases|
    ensures FactsIn(Moved(l, db, p, occurredAt, TransitionAudit(p, auditedAt), createdAt), key) == FactsIn(db, key)
  {
    StoredFactsSame(db.cases, Moved(l, db, p, occurredAt, TransitionAudit(p, auditedAt), createdAt).cases, |db.cases|,
                    key);
  }

  lemma IngestFactsStay(l: Library, db: ControlDb, tenant: string, e: ControlEvent, occurredAt: string,
                        createdAt: string, key: EventKey)
    requires key in db.events && forall i: nat | i < |db.cases| :: KeyOk(db.events, db.cases[i])
    ensures var db' := Ingest(l, db, tenant, e, occurredAt, createdAt).0;
      key in db'.events && FactsIn(db', key) == FactsIn(db, key)
  {
    if l.hour(e.occurredAt).Some? && EventKey(tenant, e.eventId) !in db.events {
      IngestFacts(l, db, tenant, e, occurredAt, createdAt, key);
    }
  }

  lemma WriteFactsStay(l: Library, db: ControlDb, p: Pending, occurredAt: string, auditedAt: string, createdAt: string,
                       key: EventKey)
    requires key in db.events
    ensures var db' := WriteTransition(l, db, p, occurredAt, auditedAt, createdAt).0;
      key in db'.events && FactsIn(db', key) == FactsIn(db, key)
  {
    if StillAsRead(db, p) { MovedFacts(l, db, p, occurredAt, auditedAt, createdAt, key); }
  }

  lemma FactsStayOne(l: Library, s: State, a: Action, key: EventKey)
    requires Inv(s) && key in s.db.events
    ensures key in Apply(l, s, a).db.events && FactsIn(Apply(l, s, a).db, key) == FactsIn(s.db, key)
  {
    match a
    case IngestEvent(tenant, e, occurredAt, createdAt) =>
      IngestFactsStay(l, s.db, tenant, e, occurredAt, createdAt, key);
    case Begin(_, _, _, _, _, _) =>
    case Finish(x, occurredAt, auditedAt, createdAt) =>
      if x in s.open { WriteFactsStay(l, s.db, s.open[x], occurredAt, auditedAt, createdAt, key); }
  }

  lemma {:induction false} FactsStay(l: Library, s: State, actions: seq<Action>, key: EventKey)
    requires Inv(s) && key in s.db.events
    ensures key in Run(l, s, actions).db.events && FactsIn(Run(l, s, actions).db, key) == FactsIn(s.db, key)
    decreases |actions|
  {
    if actions != [] {
      FactsStayOne(l, s, actions[0], key);
      ApplyKeeps(l, s, actions[0]);
      FactsStay(l, Apply(l, s, actions[0]), actions[1..], key);
    }
  }

  /** Ingesting an event id a second time, however much later and with whatever content, changes
      nothing and returns the facts that the first ingestion returned. */
  lemma IngestTwice(l: Library, before: seq<Action>, tenant: string, e: ControlEvent, occurredAt: string,
                    createdAt: string, between: seq<Action>, again: ControlEvent, laterAt: string, laterCreated: string)
    requires again.eventId == e.eventId && l.hour(e.occurredAt).Some? && l.hour(again.occurredAt).Some?
    requires EventKey(tenant, e.eventId) !in Run(l, Init, before).db.events
    ensures var first := Apply(l, Run(l, Init, before), IngestEvent(tenant, e, occurredAt, createdAt));
      var db := Run(l, first, between).db;
      Ingest(l, db, tenant, again, laterAt, laterCreated) == (db, Ok(Facts(l, e)))
  {
    var s := Run(l, Init, before);
    RunKeeps(l, Init, before);
    IngestKeeps(l, s, tenant, e, occurredAt, createdAt);
    var key := EventKey(tenant, e.eventId);
    IngestFacts(l, s.db, tenant, e, occurredAt, createdAt, key);
    FactsStay(l, Apply(l, s, IngestEvent(tenant, e, occurredAt, createdAt)), between, key);
  }
}
