/**
 The stream processor together with events that reach the control service directly, between any two
 of its steps.
 */
module DirectIngest {
  import opened ControlPulse
  import opened EventStream
  import H = CaseHistory
  import P = StreamProcessor

  datatype Action =
    | Processor(a: P.Action)
    | Direct(event: ControlEvent, occurredAt: string, createdAt: string)

  function Apply(f: P.Setting, s: P.State, a: Action): P.State {
    match a
    case Processor(b) => P.Apply(f, s, b)
    case Direct(event, occurredAt, createdAt) =>
      s.(db := Ingest(f.library, s.db, f.tenant, event, occurredAt, createdAt).0)
  }

  function Run(f: P.Setting, s: P.State, actions: seq<Action>): P.State
    decreases |actions|
  {
    if actions == [] then s else Run(f, Apply(f, s, actions[0]), actions[1..])
  }

  // ----- what both ways in keep

  /** Every record before n has been ingested: its id is known. */
  predicate Present(f: P.Setting, stream: seq<Record>, n: nat, events: map<EventKey, EventRow>) {
    n <= |stream| && forall i: nat | i < n :: P.KeyAt(f, stream, i) in events
  }

  /** The cases of a stored event are the facts of that event, once each and in order. */
  predicate Evaluated(l: Library, db: ControlDb, key: EventKey) {
    && key in db.events && l.hour(db.events[key].event.occurredAt).Some?
    && H.FactsIn(db, key) == Facts(l, db.events[key].event)
  }

  predicate KeysOk(db: ControlDb) { forall i: nat | i < |db.cases| :: H.KeyOk(db.events, db.cases[i]) }

  ghost predicate DbOk(l: Library, db: ControlDb) {
    KeysOk(db) && forall key | key in db.events :: Evaluated(l, db, key)
  }

  ghost predicate Inv(f: P.Setting, s: P.State) {
    P.Counted(f, s) && Present(f, s.stream, s.ingested, s.db.events) && DbOk(f.library, s.db)
  }

  /** Known ids stay known, with their rows. */
  predicate Keeps(before: ControlDb, after: ControlDb) {
    forall key | key in before.events :: key in after.events && after.events[key] == before.events[key]
  }

  // ----- the service

  lemma IngestKeys(l: Library, db: ControlDb, tenant: string, e: ControlEvent, occurredAt: string, createdAt: string)
    requires KeysOk(db)
    ensures var db' := Ingest(l, db, tenant, e, occurredAt, createdAt).0;
      KeysOk(db') && Keeps(db, db')
  {
    var db' := Ingest(l, db, tenant, e, occurredAt, createdAt).0;
    forall i: nat | i < |db'.cases| ensures H.KeyOk(db'.events, db'.cases[i]) {
      if i < |db.cases| { assert H.KeyOk(db.events, db.cases[i]) && db'.cases[i] == db.cases[i]; }
    }
  }

  lemma IngestEvaluates(l: Library, db: ControlDb, tenant: string, e: ControlEvent, occurredAt: string,
                        createdAt: string, key: EventKey)
    requires DbOk(l, db) && key in Ingest(l, db, tenant, e, occurredAt, createdAt).0.events
    ensures Evaluated(l, Ingest(l, db, tenant, e, occurredAt, createdAt).0, key)
  {
    if l.hour(e.occurredAt).Some? && EventKey(tenant, e.eventId) !in db.events {
      H.IngestFacts(l, db, tenant, e, occurredAt, createdAt, key);
      if key != EventKey(tenant, e.eventId) { assert Evaluated(l, db, key); }
    } else {
      assert Evaluated(l, db, key);
    }
  }

  lemma IngestDbOk(l: Library, db: ControlDb, tenant: string, e: ControlEvent, occurredAt: string, createdAt: string,
                   db': ControlDb)
    requires DbOk(l, db) && db' == Ingest(l, db, tenant, e, occurredAt, createdAt).0
    ensures DbOk(l, db') && Keeps(db, db')
    ensures l.hour(e.occurredAt).Some? ==> EventKey(tenant, e.eventId) in db'.events
  {
    IngestKeys(l, db, tenant, e, occurredAt, createdAt);
    forall key | key in db'.events ensures Evaluated(l, db', key) {
      IngestEvaluates(l, db, tenant, e, occurredAt, createdAt, key);
    }
  }

  lemma MoveDbOk(l: Library, db: ControlDb, p: Pending, at: string, auditedAt: string, createdAt: string,
                 db': ControlDb)
    requires DbOk(l, db) && db' == WriteTransition(l, db, p, at, auditedAt, createdAt).0
    ensures DbOk(l, db') && db'.events == db.events
  {
    MoveKeys(l, db, p, at, auditedAt, createdAt);
    forall key | key in db'.events ensures Evaluated(l, db', key) {
      assert Evaluated(l, db, key);
      H.WriteFactsStay(l, db, p, at, auditedAt, createdAt, key);
    }
  }

  lemma MoveKeys(l: Library, db: ControlDb, p: Pending, at: string, auditedAt: string, createdAt: string)
    requires KeysOk(db)
    ensures var db' := WriteTransition(l, db, p, at, auditedAt, createdAt).0;
      KeysOk(db') && db'.events == db.events
  {
    var db' := WriteTransition(l, db, p, at, auditedAt, createdAt).0;
    forall i: nat | i < |db'.cases| ensures H.KeyOk(db'.events, db'.cases[i]) {
      assert H.KeyOk(db.events, db.cases[i]);
    }
  }

  lemma StillPresent(f: P.Setting, stream: seq<Record>, n: nat, before: ControlDb, after: ControlDb)
    requires Present(f, stream, n, before.events) && Keeps(before, after)
    ensures Present(f, stream, n, after.events)
  {
    forall i: nat | i < n ensures P.KeyAt(f, stream, i) in after.events {
      assert P.KeyAt(f, stream, i) in before.events;
    }
  }

  lemma OneMorePresent(f: P.Setting, stream: seq<Record>, n: nat, c: nat, before: ControlDb, after: ControlDb, n': nat)
    requires Present(f, stream, n, before.events) && Keeps(before, after) && c <= n && c < |stream|
    requires n' == P.Max(n, c + 1)
    requires P.KeyAt(f, stream, c) in after.events
    ensures Present(f, stream, n', after.events)
  {
    StillPresent(f, stream, n, before, after);
  }

  // ----- the steps

  lemma DirectKeeps(f: P.Setting, s: P.State, event: ControlEvent, occurredAt: string, createdAt: string, s': P.State)
    requires Inv(f, s) && s' == Apply(f, s, Direct(event, occurredAt, createdAt))
    ensures Inv(f, s')
  {
    IngestDbOk(f.library, s.db, f.tenant, event, occurredAt, createdAt, s'.db);
    StillPresent(f, s.stream, s.ingested, s.db, s'.db);
    SameCounted(f, s, s');
  }

  lemma SameCounted(f: P.Setting, s: P.State, s': P.State)
    requires P.Counted(f, s) && s' == s.(db := s'.db)
    ensures P.Counted(f, s')
  {}

  lemma IngestKeeps(f: P.Setting, s: P.State, occurredAt: string, createdAt: string, s': P.State)
    requires Inv(f, s) && s' == P.IngestStep(f, s, occurredAt, createdAt)
    ensures Inv(f, s')
  {
    P.IngestCounted(f, s, occurredAt, createdAt);
    if s.call.Processing? && !s.call.half && s.call.queue != [] {
      P.IngestStepIs(f, s, occurredAt, createdAt);
      if P.Parses(f, s.stream, s.checkpoint) { RecordKeeps(f, s, occurredAt, createdAt, s'); }
    }
  }

  lemma RecordKeeps(f: P.Setting, s: P.State, occurredAt: string, createdAt: string, s': P.State)
    requires Inv(f, s) && s.checkpoint < |s.stream| && P.Parses(f, s.stream, s.checkpoint)
    requires s'.stream == s.stream && s'.ingested == P.Max(s.ingested, s.checkpoint + 1)
    requires s'.db == Ingest(f.library, s.db, f.tenant, s.stream[s.checkpoint].content.event, occurredAt, createdAt).0
    ensures Present(f, s'.stream, s'.ingested, s'.db.events) && DbOk(f.library, s'.db)
  {
    IngestDbOk(f.library, s.db, f.tenant, s.stream[s.checkpoint].content.event, occurredAt, createdAt, s'.db);
    OneMorePresent(f, s.stream, s.ingested, s.checkpoint, s.db, s'.db, s'.ingested);
  }

  lemma AppendKeeps(f: P.Setting, s: P.State, event: ControlEvent, now: string, s': P.State)
    requires Inv(f, s) && s' == P.AppendStep(f, s, event, now)
    ensures Inv(f, s')
  {
    P.AppendIs(f, s, event, now);
    P.CallStays(s.stream, s'.stream[|s.stream|..], s.checkpoint, s.call, s.ingested);
    assert s'.stream == s.stream + s'.stream[|s.stream|..];
    forall i: nat | i < s.ingested ensures P.KeyAt(f, s'.stream, i) in s.db.events {
      assert P.KeyAt(f, s.stream, i) in s.db.events;
    }
  }

  lemma OtherKeeps(f: P.Setting, s: P.State, a: P.Action, s': P.State)
    requires Inv(f, s) && s' == P.Apply(f, s, a) && !a.Append? && !a.IngestNext? && !a.MoveCase?
    ensures Inv(f, s')
  {
    if a.Start? && s.call.Idle? { P.FetchedOk(f, s.stream, s.checkpoint, a.maxRecords, s.ingested); }
    if a.WriteCheckpoint? && s.call.Processing? && s.call.half && s.call.queue != [] {
      P.QueueHead(f, s.stream, s.checkpoint, s.call, s.ingested);
    }
  }

  lemma MoveKeeps(f: P.Setting, s: P.State, p: Pending, at: string, auditedAt: string, createdAt: string, s': P.State)
    requires Inv(f, s) && s' == P.Apply(f, s, P.MoveCase(p, at, auditedAt, createdAt))
    ensures Inv(f, s')
  {
    MoveDbOk(f.library, s.db, p, at, auditedAt, createdAt, s'.db);
    SameCounted(f, s, s');
  }

  lemma ApplyKeeps(f: P.Setting, s: P.State, a: Action, s': P.State)
    requires Inv(f, s) && s' == Apply(f, s, a)
    ensures Inv(f, s')
  {
    match a
    case Direct(event, occurredAt, createdAt) => DirectKeeps(f, s, event, occurredAt, createdAt, s');
    case Processor(b) =>
      match b
      case Append(event, now) => AppendKeeps(f, s, event, now, s');
      case IngestNext(occurredAt, createdAt) => IngestKeeps(f, s, occurredAt, createdAt, s');
      case MoveCase(p, at, auditedAt, createdAt) => MoveKeeps(f, s, p, at, auditedAt, createdAt, s');
      case _ => OtherKeeps(f, s, b, s');
  }

  lemma {:induction false} RunKeeps(f: P.Setting, s: P.State, actions: seq<Action>)
    requires Inv(f, s)
    ensures Inv(f, Run(f, s, actions))
    decreases |actions|
  {
    if actions != [] {
      ApplyKeeps(f, s, actions[0], Apply(f, s, actions[0]));
      RunKeeps(f, Apply(f, s, actions[0]), actions[1..]);
    }
  }

  /** Whatever chunks, replays, crashes, appends and direct events came in whatever order: no record
      of the ingested prefix is missing, the checkpoint does not pass it, and every stored event, on
      whichever way it came first, has exactly the cases of its own facts. */
  lemma NothingMissing(f: P.Setting, actions: seq<Action>, i: nat, key: EventKey)
    ensures var s := Run(f, P.Init, actions);
      && 0 <= s.checkpoint <= s.ingested <= |s.stream|
      && (i < s.ingested ==> P.KeyAt(f, s.stream, i) in s.db.events)
      && (key in s.db.events ==> Evaluated(f.library, s.db, key))
  {
    RunKeeps(f, P.Init, actions);
  }
}
