/**
 Feeding the stream to the control service with a checkpoint (event_stream.py,
 ControlStreamProcessor): calls in chunks, replays, and crashes between any two steps.
 */
module StreamProcessor {
  import opened Ordering
  import opened ControlPulse
  import opened EventStream

  /** A call of process_available under way: the records it read and has not finished.  half: the
      first of them has been ingested but the checkpoint does not say so yet. */
  datatype Call = Idle | Processing(queue: seq<Record>, half: bool)

  /** ingested counts, for the claims only, the records that have been ingested from the start. */
  datatype State = State(stream: seq<Record>, checkpoint: int, call: Call, db: ControlDb, ingested: nat)

  datatype Action =
    | Append(event: ControlEvent, now: string)
    | ResetCheckpoint
    | Start(maxRecords: Option<int>)
    | IngestNext(occurredAt: string, createdAt: string)
    | WriteCheckpoint
    | Return
    | Crash
    | MoveCase(pending: Pending, at: string, auditedAt: string, createdAt: string)

  /** What stays fixed: the hash of the stream, the hash and clock functions, the tenant. */
  datatype Setting = Setting(hash: StreamHash, library: Library, tenant: string)

  const Init := State([], 0, Idle, Empty, 0)

  /** records[:limit] in Python; a negative limit drops records from the end. */
  function Slice(records: seq<Record>, limit: int): (r: seq<Record>)
    ensures r <= records
    ensures 0 <= limit ==> |r| == AtMost(limit, |records|)
    ensures limit < 0 ==> |r| == Max(0, |records| + limit)
  {
    if limit >= |records| then records
    else if limit >= 0 then records[..limit]
    else if |records| + limit >= 0 then records[..|records| + limit]
    else []
  }

  function Fetched(stream: seq<Record>, start: int, maxRecords: Option<int>): seq<Record> {
    var records := ReadFrom(stream, |stream|, start);
    if maxRecords.Some? then Slice(records, maxRecords.value) else records
  }

  function Max(a: nat, b: int): nat { if a < b then b else a }

  function AtMost(a: nat, b: nat): nat { if a <= b then a else b }

  function AppendStep(f: Setting, s: State, event: ControlEvent, now: string): State {
    s.(stream := s.stream + [NextRecord(f.hash, ReadFrom(s.stream, |s.stream|, 0), event, now)])
  }

  function StartStep(s: State, maxRecords: Option<int>): State {
    if s.call.Idle? then s.(call := Processing(Fetched(s.stream, s.checkpoint, maxRecords), false)) else s
  }

  /** The first record of the call is ingested. */
  function HalfDone(s: State, db: ControlDb): State
    requires s.call.Processing? && s.call.queue != []
  {
    State(s.stream, s.checkpoint, Processing(s.call.queue, true), db,
          Max(s.ingested, s.call.queue[0].content.offset + 1))
  }

  /** The first record of the call is ingested and the checkpoint says so. */
  function Done(s: State, db: ControlDb): State
    requires s.call.Processing? && s.call.queue != []
  {
    var next := s.call.queue[0].content.offset + 1;
    State(s.stream, next, Processing(s.call.queue[1..], false), db, Max(s.ingested, next))
  }

  function IngestStep(f: Setting, s: State, occurredAt: string, createdAt: string): State {
    if s.call.Idle? || s.call.half || s.call.queue == [] then s else
      var record := s.call.queue[0];
      var done := Ingest(f.library, s.db, f.tenant, record.content.event, occurredAt, createdAt);
      if done.1.Err? then s.(call := Idle) else HalfDone(s, done.0)
  }

  function CheckpointStep(s: State): State {
    if s.call.Idle? || !s.call.half || s.call.queue == [] then s
    else s.(checkpoint := s.call.queue[0].content.offset + 1, call := Processing(s.call.queue[1..], false))
  }

  /** One step; a step that does not apply now changes nothing.  A replay is ResetCheckpoint and
      then Start(None); a crash may come between them. */
  function Apply(f: Setting, s: State, a: Action): State {
    match a
    case Append(event, now) => AppendStep(f, s, event, now)
    case ResetCheckpoint => if s.call.Idle? then s.(checkpoint := 0) else s
    case Start(maxRecords) => StartStep(s, maxRecords)
    case IngestNext(occurredAt, createdAt) => IngestStep(f, s, occurredAt, createdAt)
    case WriteCheckpoint => CheckpointStep(s)
    case Return => if s.call.Processing? && s.call.queue == [] then s.(call := Idle) else s
    case Crash => s.(call := Idle)
    case MoveCase(pending, at, auditedAt, createdAt) =>
      s.(db := WriteTransition(f.library, s.db, pending, at, auditedAt, createdAt).0)
  }

  function Run(f: Setting, s: State, actions: seq<Action>): State
    decreases |actions|
  {
    if actions == [] then s else Run(f, Apply(f, s, actions[0]), actions[1..])
  }

  // ----- one pass over a prefix

  /** The i-th record is the first one with its event id. */
  predicate FirstOfId(stream: seq<Record>, i: nat)
    requires i < |stream|
  {
    forall j: nat | j < i :: stream[j].content.event.eventId != stream[i].content.event.eventId
  }

  function KeyAt(f: Setting, stream: seq<Record>, i: nat): EventKey
    requires i < |stream|
  {
    EventKey(f.tenant, stream[i].content.event.eventId)
  }

  function RowAt(f: Setting, stream: seq<Record>, i: nat): EventRow
    requires i < |stream|
  {
    EventRow(stream[i].content.event, f.library.evidence(stream[i].content.event))
  }

  function FactsAt(f: Setting, stream: seq<Record>, i: nat): seq<Fact>
    requires i < |stream|
  {
    var e := stream[i].content.event;
    if f.library.hour(e.occurredAt).Some? then Facts(f.library, e) else []
  }

  /** The events of one pass over the first n records that keeps the first record of each id. */
  function PassEvents(f: Setting, stream: seq<Record>, n: nat): map<EventKey, EventRow>
    requires n <= |stream|
  {
    if n == 0 then map[] else
      var before := PassEvents(f, stream, n - 1);
      if FirstOfId(stream, n - 1) then before[KeyAt(f, stream, n - 1) := RowAt(f, stream, n - 1)] else before
  }

  /** A case without its progress. */
  datatype Opening = Opening(key: EventKey, fact: Fact)

  function Openings(key: EventKey, facts: seq<Fact>): seq<Opening> {
    if facts == [] then [] else Openings(key, facts[..|facts| - 1]) + [Opening(key, facts[|facts| - 1])]
  }

  /** The cases that this pass opens. */
  function PassCases(f: Setting, stream: seq<Record>, n: nat): seq<Opening>
    requires n <= |stream|
  {
    if n == 0 then [] else
      var before := PassCases(f, stream, n - 1);
      if FirstOfId(stream, n - 1) then before + Openings(KeyAt(f, stream, n - 1), FactsAt(f, stream, n - 1)) else before
  }

  predicate OpenedAs(cases: seq<ControlCase>, openings: seq<Opening>) {
    |cases| == |openings| && forall i: nat | i < |cases| :: Opening(cases[i].key, cases[i].fact) == openings[i]
  }

  /** An id is known after n records exactly if one of them has it. */
  lemma {:induction false} PassKnows(f: Setting, stream: seq<Record>, n: nat, key: EventKey)
    requires n <= |stream|
    ensures key in PassEvents(f, stream, n) <==> exists i: nat | i < n :: KeyAt(f, stream, i) == key
  {
    if n > 0 {
      PassKnows(f, stream, n - 1, key);
      if KeyAt(f, stream, n - 1) == key && !FirstOfId(stream, n - 1) {
        var j: nat :| j < n - 1 && stream[j].content.event.eventId == stream[n - 1].content.event.eventId;
        assert KeyAt(f, stream, j) == key;
      }
    }
  }

  lemma FirstIffUnknown(f: Setting, stream: seq<Record>, n: nat)
    requires n < |stream|
    ensures FirstOfId(stream, n) <==> KeyAt(f, stream, n) !in PassEvents(f, stream, n)
  {
    PassKnows(f, stream, n, KeyAt(f, stream, n));
    if KeyAt(f, stream, n) in PassEvents(f, stream, n) {
      var i: nat :| i < n && KeyAt(f, stream, i) == KeyAt(f, stream, n);
    } else {
      forall j: nat | j < n ensures stream[j].content.event.eventId != stream[n].content.event.eventId {
        assert KeyAt(f, stream, j) != KeyAt(f, stream, n);
      }
    }
  }

  /** Records added later do not change the pass over a prefix. */
  lemma {:induction false} PassOfPrefix(f: Setting, stream: seq<Record>, more: seq<Record>, n: nat)
    requires n <= |stream|
    ensures PassEvents(f, stream + more, n) == PassEvents(f, stream, n)
    ensures PassCases(f, stream + more, n) == PassCases(f, stream, n)
  {
    if n > 0 {
      PassOfPrefix(f, stream, more, n - 1);
      assert forall j: nat | j < n :: (stream + more)[j] == stream[j];
      assert FirstOfId(stream + more, n - 1) == FirstOfId(stream, n - 1);
    }
  }

  lemma {:induction false} OpeningsOf(key: EventKey, facts: seq<Fact>)
    ensures |Openings(key, facts)| == |facts|
    ensures forall i: nat | i < |facts| :: Openings(key, facts)[i] == Opening(key, facts[i])
  {
    if facts != [] { OpeningsOf(key, facts[..|facts| - 1]); }
  }

  lemma OpenedMore(cases: seq<ControlCase>, openings: seq<Opening>, key: EventKey, facts: seq<Fact>)
    requires OpenedAs(cases, openings)
    ensures OpenedAs(cases + OpenCases(key, facts), openings + Openings(key, facts))
  {
    OpeningsOf(key, facts);
  }

  // ----- the invariant

  /** The tables show one pass over the first n records. */
  predicate ShowsPass(f: Setting, stream: seq<Record>, n: nat, db: ControlDb)
    requires n <= |stream|
  {
    db.events == PassEvents(f, stream, n) && OpenedAs(db.cases, PassCases(f, stream, n))
  }

  /** A call works on the records from the checkpoint on. */
  predicate CallOk(stream: seq<Record>, checkpoint: int, call: Call, ingested: nat) {
    call.Processing? ==>
      && 0 <= checkpoint && checkpoint + |call.queue| <= |stream|
      && call.queue == stream[checkpoint..checkpoint + |call.queue|]
      && (call.half ==> call.queue != [] && checkpoint < ingested)
  }

  /** The timestamp of the i-th record parses. */
  predicate Parses(f: Setting, stream: seq<Record>, i: nat)
    requires i < |stream|
  {
    f.library.hour(stream[i].content.event.occurredAt).Some?
  }

  /** The first n records have been ingested, which takes that their timestamps parse. */
  predicate Passed(f: Setting, stream: seq<Record>, n: nat, db: ControlDb) {
    n <= |stream| && ShowsPass(f, stream, n, db) && forall i: nat | i < n :: Parses(f, stream, i)
  }

  /** The stream verifies and the call and the checkpoint stand in their places in it. */
  ghost predicate Counted(f: Setting, s: State) {
    && StreamVerifies(f.hash, s.stream)
    && 0 <= s.checkpoint <= s.ingested
    && CallOk(s.stream, s.checkpoint, s.call, s.ingested)
  }

  ghost predicate Inv(f: Setting, s: State) {
    Counted(f, s) && Passed(f, s.stream, s.ingested, s.db)
  }

  lemma PassedStays(f: Setting, stream: seq<Record>, more: seq<Record>, n: nat, db: ControlDb)
    requires Passed(f, stream, n, db)
    ensures Passed(f, stream + more, n, db)
  {
    PassOfPrefix(f, stream, more, n);
    forall i: nat | i < n ensures Parses(f, stream + more, i) { assert Parses(f, stream, i); }
  }

  lemma CallStays(stream: seq<Record>, more: seq<Record>, checkpoint: int, call: Call, ingested: nat)
    requires CallOk(stream, checkpoint, call, ingested)
    ensures CallOk(stream + more, checkpoint, call, ingested)
  {
    if call.Processing? {
      var n := |call.queue|;
      assert (stream + more)[checkpoint..checkpoint + n] == stream[checkpoint..checkpoint + n];
    }
  }

  /** append reads the whole of a verifying stream. */
  lemma AppendIs(f: Setting, s: State, event: ControlEvent, now: string)
    requires StreamVerifies(f.hash, s.stream)
    ensures var record := NextRecord(f.hash, s.stream, event, now);
      AppendStep(f, s, event, now) == s.(stream := s.stream + [record]) && StreamVerifies(f.hash, s.stream + [record])
  {
    ReadFromVerified(f.hash, s.stream, |s.stream|, 0);
    assert s.stream[0..|s.stream|] == s.stream;
    AppendKeepsStream(f.hash, s.stream, event, now);
  }

  lemma AppendKeeps(f: Setting, s: State, event: ControlEvent, now: string)
    requires Inv(f, s)
    ensures Inv(f, AppendStep(f, s, event, now))
  {
    AppendIs(f, s, event, now);
    var more := [NextRecord(f.hash, s.stream, event, now)];
    PassedStays(f, s.stream, more, s.ingested, s.db);
    CallStays(s.stream, more, s.checkpoint, s.call, s.ingested);
  }

  lemma PrefixOfRest(stream: seq<Record>, c: nat, queue: seq<Record>)
    requires c <= |stream| && queue <= stream[c..]
    ensures c + |queue| <= |stream| && queue == stream[c..c + |queue|]
  {}

  lemma FetchedOk(f: Setting, stream: seq<Record>, checkpoint: nat, maxRecords: Option<int>, ingested: nat)
    requires StreamVerifies(f.hash, stream) && checkpoint <= |stream|
    ensures CallOk(stream, checkpoint, Processing(Fetched(stream, checkpoint, maxRecords), false), ingested)
    ensures maxRecords.None? ==> Fetched(stream, checkpoint, maxRecords) == stream[checkpoint..]
  {
    ReadFromVerified(f.hash, stream, |stream|, checkpoint);
    PrefixOfRest(stream, checkpoint, Fetched(stream, checkpoint, maxRecords));
  }

  /** A call works on the records from the checkpoint on: all that wait, or the first m of them, or,
      for a negative m, all but the last -m. */
  lemma FetchedCount(h: StreamHash, stream: seq<Record>, checkpoint: nat, maxRecords: Option<int>)
    requires StreamVerifies(h, stream) && checkpoint <= |stream|
    ensures var fetched, waiting := Fetched(stream, checkpoint, maxRecords), |stream| - checkpoint;
      && fetched <= stream[checkpoint..]
      && |fetched| == match maxRecords
                      case None => waiting
                      case Some(m) =>
                        if 0 <= m then (if m < waiting then m else waiting)
                        else if waiting + m < 0 then 0 else waiting + m
  {
    ReadFromVerified(h, stream, |stream|, checkpoint);
  }

  lemma StartKeeps(f: Setting, s: State, maxRecords: Option<int>)
    requires Inv(f, s)
    ensures Inv(f, StartStep(s, maxRecords))
  {
    FetchedOk(f, s.stream, s.checkpoint, maxRecords, s.ingested);
  }

  /** Ingesting a record that was ingested before changes nothing at all. */
  lemma KnownRecord(f: Setting, stream: seq<Record>, n: nat, db: ControlDb, i: nat, occurredAt: string,
                    createdAt: string)
    requires i < n <= |stream| && ShowsPass(f, stream, n, db)
    ensures Ingest(f.library, db, f.tenant, stream[i].content.event, occurredAt, createdAt).0 == db
  {
    PassKnows(f, stream, n, KeyAt(f, stream, i));
  }

  /** What ingesting the n-th record does to the events and cases. */
  predicate Extends(f: Setting, stream: seq<Record>, n: nat, before: ControlDb, after: ControlDb)
    requires n < |stream|
  {
    var key := KeyAt(f, stream, n);
    if key in before.events then after == before else
      && after.events == before.events[key := RowAt(f, stream, n)]
      && after.cases == before.cases + OpenCases(key, FactsAt(f, stream, n))
  }

  lemma IngestExtends(f: Setting, stream: seq<Record>, n: nat, db: ControlDb, occurredAt: string, createdAt: string)
    requires n < |stream| && Parses(f, stream, n)
    ensures Extends(f, stream, n, db, Ingest(f.library, db, f.tenant, stream[n].content.event, occurredAt, createdAt).0)
  {}

  lemma ExtendedPass(f: Setting, stream: seq<Record>, n: nat, before: ControlDb, after: ControlDb)
    requires n < |stream| && ShowsPass(f, stream, n, before) && Extends(f, stream, n, before, after)
    ensures ShowsPass(f, stream, n + 1, after)
  {
    FirstIffUnknown(f, stream, n);
    if FirstOfId(stream, n) {
      OpenedMore(before.cases, PassCases(f, stream, n), KeyAt(f, stream, n), FactsAt(f, stream, n));
    }
  }

  /** Ingesting the next record extends the pass by it. */
  lemma NextRecordPassed(f: Setting, stream: seq<Record>, n: nat, db: ControlDb, occurredAt: string, createdAt: string)
    requires n < |stream| && Passed(f, stream, n, db) && Parses(f, stream, n)
    ensures Passed(f, stream, n + 1, Ingest(f.library, db, f.tenant, stream[n].content.event, occurredAt, createdAt).0)
  {
    IngestExtends(f, stream, n, db, occurredAt, createdAt);
    ExtendedPass(f, stream, n, db, Ingest(f.library, db, f.tenant, stream[n].content.event, occurredAt, createdAt).0);
  }

  lemma SamePass(f: Setting, stream: seq<Record>, n: nat, db: ControlDb, s: State)
    requires Passed(f, stream, n, db) && s.stream == stream && s.ingested == n && s.db == db
    ensures Passed(f, s.stream, s.ingested, s.db)
  {}

  lemma QueueHead(f: Setting, stream: seq<Record>, checkpoint: nat, call: Call, ingested: nat)
    requires StreamVerifies(f.hash, stream) && CallOk(stream, checkpoint, call, ingested) && call.Processing?
    requires call.queue != []
    ensures checkpoint < |stream| && call.queue[0] == stream[checkpoint]
    ensures stream[checkpoint].content.offset == checkpoint
    ensures call.queue[1..] == stream[checkpoint + 1..checkpoint + |call.queue|]
  {
    assert InPlace(f.hash, stream, checkpoint);
  }

  lemma HalfCounted(f: Setting, s: State, db: ControlDb)
    requires Counted(f, s) && s.call.Processing? && s.call.queue != []
    ensures Counted(f, HalfDone(s, db)) && HalfDone(s, db).ingested == Max(s.ingested, s.checkpoint + 1)
  {
    QueueHead(f, s.stream, s.checkpoint, s.call, s.ingested);
  }

  lemma DoneCounted(f: Setting, s: State, db: ControlDb)
    requires Counted(f, s) && s.call.Processing? && s.call.queue != []
    ensures Counted(f, Done(s, db)) && Done(s, db).checkpoint == s.checkpoint + 1
    ensures Done(s, db).ingested == Max(s.ingested, s.checkpoint + 1)
  {
    QueueHead(f, s.stream, s.checkpoint, s.call, s.ingested);
  }

  lemma IngestCounted(f: Setting, s: State, occurredAt: string, createdAt: string)
    requires Counted(f, s)
    ensures Counted(f, IngestStep(f, s, occurredAt, createdAt))
  {
    if s.call.Processing? && !s.call.half && s.call.queue != [] {
      HalfCounted(f, s, Ingest(f.library, s.db, f.tenant, s.call.queue[0].content.event, occurredAt, createdAt).0);
    }
  }

  lemma IngestStepIs(f: Setting, s: State, occurredAt: string, createdAt: string)
    requires Counted(f, s) && s.call.Processing? && !s.call.half && s.call.queue != []
    ensures s.checkpoint < |s.stream|
    ensures var s' := IngestStep(f, s, occurredAt, createdAt);
      if Parses(f, s.stream, s.checkpoint)
      then s'.stream == s.stream && s'.ingested == Max(s.ingested, s.checkpoint + 1)
        && s'.db == Ingest(f.library, s.db, f.tenant, s.stream[s.checkpoint].content.event, occurredAt, createdAt).0
      else s' == s.(call := Idle)
  {
    QueueHead(f, s.stream, s.checkpoint, s.call, s.ingested);
  }

  lemma IngestStepPassed(f: Setting, s: State, occurredAt: string, createdAt: string, s': State)
    requires Inv(f, s) && s' == IngestStep(f, s, occurredAt, createdAt)
    ensures Passed(f, s'.stream, s'.ingested, s'.db)
  {
    if s.call.Processing? && !s.call.half && s.call.queue != [] {
      IngestStepIs(f, s, occurredAt, createdAt);
      if Parses(f, s.stream, s.checkpoint) {
        RecordPasses(f, s.stream, s.ingested, s.db, s.checkpoint, occurredAt, createdAt, s');
      }
    }
  }

  lemma RecordPasses(f: Setting, stream: seq<Record>, n: nat, db: ControlDb, c: nat, occurredAt: string,
                     createdAt: string, s': State)
    requires Passed(f, stream, n, db) && c <= n && c < |stream| && Parses(f, stream, c)
    requires s'.stream == stream && s'.ingested == Max(n, c + 1)
    requires s'.db == Ingest(f.library, db, f.tenant, stream[c].content.event, occurredAt, createdAt).0
    ensures Passed(f, s'.stream, s'.ingested, s'.db)
  {
    if c < n {
      KnownRecord(f, stream, n, db, c, occurredAt, createdAt);
      SamePass(f, stream, n, db, s');
    } else {
      NextRecordPassed(f, stream, n, db, occurredAt, createdAt);
      SamePass(f, stream, n + 1, s'.db, s');
    }
  }

  lemma IngestKeeps(f: Setting, s: State, occurredAt: string, createdAt: string)
    requires Inv(f, s)
    ensures Inv(f, IngestStep(f, s, occurredAt, createdAt))
  {
    IngestCounted(f, s, occurredAt, createdAt);
    IngestStepPassed(f, s, occurredAt, createdAt, IngestStep(f, s, occurredAt, createdAt));
  }

  lemma CheckpointKeeps(f: Setting, s: State)
    requires Inv(f, s)
    ensures Inv(f, CheckpointStep(s))
  {
    if s.call.Processing? && s.call.half && s.call.queue != [] {
      QueueHead(f, s.stream, s.checkpoint, s.call, s.ingested);
    }
  }

  lemma MoveShows(f: Setting, stream: seq<Record>, n: nat, db: ControlDb, p: Pending, at: string, auditedAt: string,
                  createdAt: string)
    requires n <= |stream| && ShowsPass(f, stream, n, db)
    ensures ShowsPass(f, stream, n, WriteTransition(f.library, db, p, at, auditedAt, createdAt).0)
  {}

  lemma ApplyKeeps(f: Setting, s: State, a: Action)
    requires Inv(f, s)
    ensures Inv(f, Apply(f, s, a))
  {
    match a
    case Append(event, now) => AppendKeeps(f, s, event, now);
    case ResetCheckpoint =>
    case Start(maxRecords) => StartKeeps(f, s, maxRecords);
    case IngestNext(occurredAt, createdAt) => IngestKeeps(f, s, occurredAt, createdAt);
    case WriteCheckpoint => CheckpointKeeps(f, s);
    case Return =>
    case Crash =>
    case MoveCase(p, at, auditedAt, createdAt) => MoveShows(f, s.stream, s.ingested, s.db, p, at, auditedAt, createdAt);
  }

  lemma {:induction false} RunKeeps(f: Setting, s: State, actions: seq<Action>)
    requires Inv(f, s)
    ensures Inv(f, Run(f, s, actions))
    decreases |actions|
  {
    if actions != [] {
      ApplyKeeps(f, s, actions[0]);
      RunKeeps(f, Apply(f, s, actions[0]), actions[1..]);
    }
  }

  /** Whatever chunks, replays, crashes and appends came in whatever order: the stored events and
      the opened cases are those of one pass over a prefix of the stream that reaches at least to
      the checkpoint, and no record of the prefix is missing. */
  lemma Converges(f: Setting, actions: seq<Action>, key: EventKey)
    ensures var s := Run(f, Init, actions);
      && 0 <= s.checkpoint <= s.ingested <= |s.stream|
      && s.db.events == PassEvents(f, s.stream, s.ingested)
      && OpenedAs(s.db.cases, PassCases(f, s.stream, s.ingested))
      && (key in s.db.events <==> exists i: nat | i < s.ingested :: KeyAt(f, s.stream, i) == key)
  {
    RunKeeps(f, Init, actions);
    var s := Run(f, Init, actions);
    PassKnows(f, s.stream, s.ingested, key);
  }

  /** A step of the processor itself. */
  predicate OfProcessor(a: Action) { !a.Append? && !a.MoveCase? }

  lemma ReplayStep(f: Setting, s: State, a: Action)
    requires Inv(f, s) && s.ingested == |s.stream| && OfProcessor(a)
    ensures Apply(f, s, a).db == s.db && Apply(f, s, a).stream == s.stream && Apply(f, s, a).ingested == s.ingested
  {
    if a.IngestNext? && s.call.Processing? && !s.call.half && s.call.queue != [] {
      QueueHead(f, s.stream, s.checkpoint, s.call, s.ingested);
      KnownRecord(f, s.stream, s.ingested, s.db, s.checkpoint, a.occurredAt, a.createdAt);
    }
  }

  /** Once the stream is fully ingested, the processor changes nothing any more, replays and crashes
      included: not the events, not the case statuses, not the audit chain or the outbox. */
  lemma {:induction false} ReplayChangesNothing(f: Setting, s: State, actions: seq<Action>)
    requires Inv(f, s) && s.ingested == |s.stream|
    requires forall i | 0 <= i < |actions| :: OfProcessor(actions[i])
    ensures Run(f, s, actions).db == s.db
    decreases |actions|
  {
    if actions != [] {
      ApplyKeeps(f, s, actions[0]);
      ReplayStep(f, s, actions[0]);
      ReplayChangesNothing(f, Apply(f, s, actions[0]), actions[1..]);
    }
  }

  // ----- one call from start to return

  /** The clock readings for each record of a call. */
  type Clock = nat -> (string, string)

  function StepActions(clock: Clock, n: nat): seq<Action> {
    if n == 0 then [] else StepActions(clock, n - 1) + [IngestNext(clock(n - 1).0, clock(n - 1).1), WriteCheckpoint]
  }

  /** The call after its first n records. */
  function Steps(f: Setting, s: State, clock: Clock, n: nat): State { Run(f, s, StepActions(clock, n)) }

  /** One record: it is ingested and the checkpoint is written. */
  function OneRecord(f: Setting, s: State, at: (string, string)): State {
    Apply(f, Apply(f, s, IngestNext(at.0, at.1)), WriteCheckpoint)
  }

  function Started(f: Setting, s: State, maxRecords: Option<int>): State { Apply(f, s, Start(maxRecords)) }

  /** process_available without a crash, as a run of the machine. */
  function Processed(f: Setting, s: State, maxRecords: Option<int>, clock: Clock): State {
    Apply(f, Steps(f, Started(f, s, maxRecords), clock, |Fetched(s.stream, s.checkpoint, maxRecords)|), Return)
  }

  lemma {:induction false} RunConcat(f: Setting, s: State, a: seq<Action>, b: seq<Action>)
    ensures Run(f, s, a + b) == Run(f, Run(f, s, a), b)
    decreases |a|
  {
    if a == [] {
      assert a + b == b;
    } else {
      assert (a + b)[1..] == a[1..] + b;
      RunConcat(f, Apply(f, s, a[0]), a[1..], b);
    }
  }

  lemma RunRecord(f: Setting, s: State, at: (string, string))
    ensures Run(f, s, [IngestNext(at.0, at.1), WriteCheckpoint]) == OneRecord(f, s, at)
  {
    var a, b := IngestNext(at.0, at.1), WriteCheckpoint;
    assert [a, b][1..] == [b] && [b][1..] == [];
    assert Run(f, OneRecord(f, s, at), []) == OneRecord(f, s, at);
  }

  lemma StepsNext(f: Setting, s: State, clock: Clock, n: nat)
    ensures Steps(f, s, clock, n + 1) == OneRecord(f, Steps(f, s, clock, n), clock(n))
  {
    RunConcat(f, s, StepActions(clock, n), [IngestNext(clock(n).0, clock(n).1), WriteCheckpoint]);
    RunRecord(f, Steps(f, s, clock, n), clock(n));
  }

  /** One record of a call that stands between two records, as ProcessRecord works. */
  function RecordDone(f: Setting, s: State, at: (string, string)): State
    requires s.call.Processing? && !s.call.half && s.call.queue != []
  {
    var record := s.call.queue[0];
    var done := Ingest(f.library, s.db, f.tenant, record.content.event, at.0, at.1);
    if done.1.Err? then s.(call := Idle) else Done(s, done.0)
  }

  lemma OneRecordIs(f: Setting, s: State, at: (string, string))
    requires s.call.Processing? && !s.call.half && s.call.queue != []
    ensures OneRecord(f, s, at) == RecordDone(f, s, at)
  {}

  lemma IdleRecord(f: Setting, s: State, at: (string, string))
    requires s.call.Idle?
    ensures OneRecord(f, s, at) == s
  {}

  /** A call that raised has stopped. */
  lemma {:induction false} IdleStays(f: Setting, s: State, clock: Clock, m: nat, n: nat)
    requires m <= n && Steps(f, s, clock, m).call.Idle?
    ensures Steps(f, s, clock, n) == Steps(f, s, clock, m)
  {
    if m < n {
      IdleStays(f, s, clock, m, n - 1);
      StepsNext(f, s, clock, n - 1);
      IdleRecord(f, Steps(f, s, clock, n - 1), clock(n - 1));
    }
  }

  /** The first of the first n records whose timestamp does not parse; n if they all do. */
  function FirstBad(f: Setting, stream: seq<Record>, n: nat): (k: nat)
    requires n <= |stream|
    ensures k <= n && (forall i: nat | i < k :: Parses(f, stream, i)) && (k < n ==> !Parses(f, stream, k))
  {
    if n == 0 then 0 else
      var k := FirstBad(f, stream, n - 1);
      if k == n - 1 && Parses(f, stream, n - 1) then n else k
  }

  lemma RecordCounted(f: Setting, s: State, at: (string, string), s': State)
    requires Counted(f, s) && s.call.Processing? && !s.call.half && s.call.queue != [] && s' == RecordDone(f, s, at)
    ensures Counted(f, s') && s'.stream == s.stream && s.checkpoint < |s.stream|
    ensures if Parses(f, s.stream, s.checkpoint)
      then s'.call == Processing(s.call.queue[1..], false) && s'.checkpoint == s.checkpoint + 1
        && s'.ingested == Max(s.ingested, s'.checkpoint)
      else s' == s.(call := Idle)
  {
    QueueHead(f, s.stream, s.checkpoint, s.call, s.ingested);
    DoneCounted(f, s, Ingest(f.library, s.db, f.tenant, s.call.queue[0].content.event, at.0, at.1).0);
  }

  lemma RecordPassed(f: Setting, s: State, at: (string, string), s': State)
    requires Inv(f, s) && s.call.Processing? && !s.call.half && s.call.queue != [] && s' == RecordDone(f, s, at)
    ensures Passed(f, s'.stream, s'.ingested, s'.db)
  {
    QueueHead(f, s.stream, s.checkpoint, s.call, s.ingested);
    if Parses(f, s.stream, s.checkpoint) {
      RecordPasses(f, s.stream, s.ingested, s.db, s.checkpoint, at.0, at.1, s');
    }
  }

  /** After n records of a call: all of them are done, or the call stopped at the first record of
      the stream that does not parse. */
  predicate Reached(s: State, n: nat, stop: nat, s': State)
    requires s.call.Processing? && n <= |s.call.queue|
  {
    && s'.stream == s.stream && s'.ingested == Max(s.ingested, s'.checkpoint)
    && (if s.checkpoint + n <= stop then s'.call == Processing(s.call.queue[n..], false)
        && s'.checkpoint == s.checkpoint + n
        else s'.call.Idle? && s'.checkpoint == stop)
  }

  lemma ReachedNext(f: Setting, s: State, n: nat, stop: nat, m: State, at: (string, string), s': State)
    requires s.call.Processing? && n < |s.call.queue| && stop == FirstBad(f, s.stream, |s.stream|)
    requires Inv(f, m) && Reached(s, n, stop, m) && s' == OneRecord(f, m, at)
    ensures Inv(f, s') && Reached(s, n + 1, stop, s')
  {
    if m.call.Idle? {
      IdleRecord(f, m, at);
    } else {
      DropOne(s.call.queue, n);
      OneRecordIs(f, m, at);
      RecordCounted(f, m, at, s');
      RecordPassed(f, m, at, s');
    }
  }

  /** Where the call stands after n of its records, with the invariant kept. */
  ghost predicate GotTo(f: Setting, s: State, clock: Clock, n: nat, stop: nat) {
    && s.call.Processing? && n <= |s.call.queue|
    && Inv(f, Steps(f, s, clock, n)) && Reached(s, n, stop, Steps(f, s, clock, n))
  }

  lemma StepsAdvance(f: Setting, s: State, clock: Clock, n: nat, stop: nat)
    requires GotTo(f, s, clock, 0, stop) && n <= |s.call.queue| && stop == FirstBad(f, s.stream, |s.stream|)
    ensures GotTo(f, s, clock, n, stop)
  {
    var k := 0;
    while k < n
      invariant k <= n && GotTo(f, s, clock, k, stop)
    {
      OneStep(f, s, clock, k, stop);
      k := k + 1;
    }
  }

  lemma OneStep(f: Setting, s: State, clock: Clock, n: nat, stop: nat)
    requires GotTo(f, s, clock, n, stop) && n < |s.call.queue| && stop == FirstBad(f, s.stream, |s.stream|)
    ensures GotTo(f, s, clock, n + 1, stop)
  {
    StepsNext(f, s, clock, n);
    ReachedNext(f, s, n, stop, Steps(f, s, clock, n), clock(n), Steps(f, s, clock, n + 1));
  }

  lemma NoStep(f: Setting, s: State, clock: Clock, stop: nat)
    requires Inv(f, s) && s.call.Processing? && !s.call.half && stop == FirstBad(f, s.stream, |s.stream|)
    ensures GotTo(f, s, clock, 0, stop)
  {
    assert s.call.queue[0..] == s.call.queue;
    NoBadPassed(f, s, stop);
    assert Steps(f, s, clock, 0) == s;
  }

  /** Whatever has been ingested lies before the first record that does not parse. */
  lemma NoBadPassed(f: Setting, s: State, stop: nat)
    requires Inv(f, s) && stop == FirstBad(f, s.stream, |s.stream|)
    ensures s.checkpoint <= s.ingested <= stop
  {
    assert Passed(f, s.stream, s.ingested, s.db);
  }

  lemma DropOne(queue: seq<Record>, n: nat)
    requires n < |queue|
    ensures queue[n..] != [] && queue[n..][1..] == queue[n + 1..] && queue[n..][0] == queue[n]
  {}

  /** A verifying stream and a checkpoint in it. */
  ghost predicate FetchedFrom(h: StreamHash, stream: seq<Record>, checkpoint: int) {
    StreamVerifies(h, stream) && 0 <= checkpoint <= |stream|
  }

  /** How many of the waiting records a call takes. */
  function Share(waiting: nat, maxRecords: Option<int>): nat {
    match maxRecords
    case None => waiting
    case Some(m) => if m < 0 then Max(0, waiting + m) else AtMost(m, waiting)
  }

  /** The records have consecutive offsets from start on. */
  predicate Steady(records: seq<Record>, start: int) {
    forall n | 0 <= n < |records| :: records[n].content.offset == start + n
  }

  lemma FetchedSteady(h: StreamHash, stream: seq<Record>, start: int, maxRecords: Option<int>, records: seq<Record>)
    requires records == Fetched(stream, start, maxRecords)
    ensures FetchedFrom(h, stream, start) ==>
      Steady(records, start) && |records| == Share(|stream| - start, maxRecords)
  {
    if FetchedFrom(h, stream, start) {
      FetchedCount(h, stream, start, maxRecords);
      forall n | 0 <= n < |records| ensures records[n].content.offset == start + n {
        assert InPlace(h, stream, start + n);
        assert stream[start..][n] == stream[start + n];
      }
    }
  }

  lemma TakesShare(f: Setting, s: State, maxRecords: Option<int>)
    requires Inv(f, s)
    ensures s.checkpoint <= |s.stream|
    ensures |Fetched(s.stream, s.checkpoint, maxRecords)| == Share(|s.stream| - s.checkpoint, maxRecords)
  {
    FetchedCount(f.hash, s.stream, s.checkpoint, maxRecords);
  }

  /** A call of any size works off its share of the waiting records or stops at the first record of the
      stream whose timestamp does not parse, whichever comes first, and keeps the invariant. */
  lemma CallEndsAt(f: Setting, s: State, maxRecords: Option<int>, clock: Clock)
    requires Inv(f, s) && s.call.Idle?
    ensures s.checkpoint <= |s.stream|
    ensures var s', n, stop := Processed(f, s, maxRecords, clock), Share(|s.stream| - s.checkpoint, maxRecords),
      FirstBad(f, s.stream, |s.stream|);
      && Inv(f, s') && s'.call.Idle? && s'.stream == s.stream
      && s'.checkpoint == AtMost(s.checkpoint + n, stop)
      && s'.ingested == Max(s.ingested, s'.checkpoint)
  {
    TakesShare(f, s, maxRecords);
    StartKeeps(f, s, maxRecords);
    var started, n := StartStep(s, maxRecords), |Fetched(s.stream, s.checkpoint, maxRecords)|;
    AllSteps(f, started, clock, FirstBad(f, s.stream, |s.stream|));
    CallReturns(f, started, n, FirstBad(f, s.stream, |s.stream|), Steps(f, started, clock, n));
  }

  lemma CallReturns(f: Setting, s: State, n: nat, stop: nat, last: State)
    requires s.call.Processing? && n == |s.call.queue| && Inv(f, last) && Reached(s, n, stop, last)
    ensures var s' := Apply(f, last, Return);
      && Inv(f, s') && s'.call.Idle? && s'.stream == s.stream
      && s'.checkpoint == AtMost(s.checkpoint + n, stop)
      && s'.ingested == Max(s.ingested, s'.checkpoint)
  {
    assert s.call.queue[n..] == [];
  }

  lemma AllSteps(f: Setting, s: State, clock: Clock, stop: nat)
    requires Inv(f, s) && s.call.Processing? && !s.call.half && stop == FirstBad(f, s.stream, |s.stream|)
    ensures GotTo(f, s, clock, |s.call.queue|, stop)
  {
    NoStep(f, s, clock, stop);
    StepsAdvance(f, s, clock, |s.call.queue|, stop);
  }

  /** Wherever its checkpoint stands, a full call brings checkpoint and ingested prefix exactly to
      the first record of the stream whose timestamp does not parse; that is the end of the stream
      if and only if every record parses. */
  lemma CatchesUp(f: Setting, s: State, clock: Clock)
    requires Inv(f, s) && s.call.Idle?
    ensures var s' := Processed(f, s, None, clock);
      && Inv(f, s') && s'.call.Idle? && s'.stream == s.stream
      && s'.checkpoint == s'.ingested == FirstBad(f, s.stream, |s.stream|)
      && (s'.checkpoint == |s.stream| <==> forall i: nat | i < |s.stream| :: Parses(f, s.stream, i))
  {
    CallEndsAt(f, s, None, clock);
    NoBadPassed(f, s, FirstBad(f, s.stream, |s.stream|));
  }

  /** Calls one after the other, each with a limit of its own. */
  function Chunks(f: Setting, s: State, limits: seq<nat>, clocks: nat -> Clock): State {
    if limits == [] then s else
      var n := |limits| - 1;
      Processed(f, Chunks(f, s, limits[..n], clocks), Some(limits[n]), clocks(n))
  }

  function Sum(limits: seq<nat>): nat {
    if limits == [] then 0 else Sum(limits[..|limits| - 1]) + limits[|limits| - 1]
  }

  /** The checkpoint has got to reach, or to the first record that does not parse if that comes first. */
  ghost predicate GotAsFarAs(f: Setting, stream: seq<Record>, reach: nat, s: State) {
    && Inv(f, s) && s.call.Idle? && s.stream == stream
    && s.checkpoint == AtMost(reach, FirstBad(f, stream, |stream|))
  }

  /** Chunk by chunk the checkpoint moves by the limits, up to the first record that does not parse. */
  lemma {:induction false} ChunksAdvance(f: Setting, s: State, limits: seq<nat>, clocks: nat -> Clock)
    requires Inv(f, s) && s.call.Idle?
    ensures GotAsFarAs(f, s.stream, s.checkpoint + Sum(limits), Chunks(f, s, limits, clocks))
  {
    if limits == [] {
      NoBadPassed(f, s, FirstBad(f, s.stream, |s.stream|));
    } else {
      var n := |limits| - 1;
      ChunksAdvance(f, s, limits[..n], clocks);
      NextChunk(f, s.stream, s.checkpoint + Sum(limits[..n]), Chunks(f, s, limits[..n], clocks), limits[n], clocks(n));
    }
  }

  lemma NextChunk(f: Setting, stream: seq<Record>, reach: nat, m: State, limit: nat, clock: Clock)
    requires GotAsFarAs(f, stream, reach, m)
    ensures GotAsFarAs(f, stream, reach + limit, Processed(f, m, Some(limit), clock))
  {
    CallEndsAt(f, m, Some(limit), clock);
  }

  lemma {:induction false} PositiveSum(limits: seq<nat>)
    requires forall i | 0 <= i < |limits| :: 1 <= limits[i]
    ensures |limits| <= Sum(limits)
  {
    if limits != [] { PositiveSum(limits[..|limits| - 1]); }
  }

  /** So chunks of any positive sizes get to the first record that does not parse, or to the end, in
      at most as many calls as there are records before it. */
  lemma ChunksCatchUp(f: Setting, s: State, limits: seq<nat>, clocks: nat -> Clock)
    requires Inv(f, s) && s.call.Idle? && forall i | 0 <= i < |limits| :: 1 <= limits[i]
    requires FirstBad(f, s.stream, |s.stream|) - s.checkpoint <= |limits|
    ensures var s' := Chunks(f, s, limits, clocks);
      && s'.checkpoint == s'.ingested == FirstBad(f, s.stream, |s.stream|)
      && (s'.checkpoint == |s.stream| <==> forall i: nat | i < |s.stream| :: Parses(f, s.stream, i))
  {
    PositiveSum(limits);
    ChunksAdvance(f, s, limits, clocks);
    NoBadPassed(f, Chunks(f, s, limits, clocks), FirstBad(f, s.stream, |s.stream|));
  }

  /** What ingest_and_evaluate returns for the next record of the call. */
  function NextFound(f: Setting, s: State, at: (string, string)): Result<seq<Fact>> {
    if s.call.Processing? && s.call.queue != []
    then Ingest(f.library, s.db, f.tenant, s.call.queue[0].content.event, at.0, at.1).1
    else Err(BadTimestamp)
  }

  /** The number of cases that were returned for the first n records. */
  function CasesReturned(f: Setting, s: State, clock: Clock, n: nat): nat {
    if n == 0 then 0 else
      var found := NextFound(f, Steps(f, s, clock, n - 1), clock(n - 1));
      CasesReturned(f, s, clock, n - 1) + if found.Ok? then |found.value| else 0
  }

  /** One round of process_available: what it did is one more step of the call. */
  lemma RoundIs(f: Setting, s: State, clock: Clock, n: nat, before: State, after: State, found: Result<seq<Fact>>)
    requires Steps(f, s, clock, n) == before && before.call.Processing? && !before.call.half && before.call.queue != []
    requires after == RecordDone(f, before, clock(n)) && found == NextFound(f, before, clock(n))
    ensures Steps(f, s, clock, n + 1) == after && (found.Err? <==> after.call.Idle?)
    ensures CasesReturned(f, s, clock, n + 1) == CasesReturned(f, s, clock, n) + if found.Ok? then |found.value| else 0
  {
    StepsNext(f, s, clock, n);
    OneRecordIs(f, before, clock(n));
  }

  /** A call is over when it has stopped or has no record left. */
  lemma CallIs(f: Setting, s: State, maxRecords: Option<int>, clock: Clock, n: nat, last: State)
    requires var fetched := |Fetched(s.stream, s.checkpoint, maxRecords)|;
      n <= fetched && last == Steps(f, StartStep(s, maxRecords), clock, n)
        && (last.call.Idle? || (n == fetched && last.call == Processing([], false)))
    ensures Processed(f, s, maxRecords, clock) == last.(call := Idle)
  {
    if last.call.Idle? {
      IdleStays(f, StartStep(s, maxRecords), clock, n, |Fetched(s.stream, s.checkpoint, maxRecords)|);
    }
  }

  datatype Report = Report(startOffset: int, nextOffset: int, processed: nat, cases: nat)

  class ControlStreamProcessor {
    const stream: JsonlEventStream
    const service: ControlStore
    var checkpoint: int
    ghost var ingested: nat

    constructor (stream: JsonlEventStream, service: ControlStore)
      ensures this.stream == stream && this.service == service && checkpoint == 0 && ingested == 0
    {
      this.stream, this.service, checkpoint, ingested := stream, service, 0, 0;
    }

    function TheSetting(): Setting { Setting(stream.hash, service.library, service.tenant) }

    ghost function Shown(call: Call): State
      reads this, stream, service
    {
      State(stream.records, checkpoint, call, service.State(), ingested)
    }

    /** One round of the loop: the record is ingested, then the checkpoint is written. */
    method ProcessRecord(record: Record, at: (string, string), ghost queue: seq<Record>) returns (r: Result<seq<Fact>>)
      requires queue != [] && record == queue[0]
      modifies this, service
      ensures r == NextFound(TheSetting(), old(Shown(Processing(queue, false))), at)
      ensures Shown(if r.Err? then Idle else Processing(queue[1..], false))
        == RecordDone(TheSetting(), old(Shown(Processing(queue, false))), at)
    {
      r := service.IngestAndEvaluate(record.content.event, at.0, at.1);
      if r.Err? { return; }
      ingested := Max(ingested, record.content.offset + 1);
      checkpoint := record.content.offset + 1;
    }

    /** process_available: the fetched records one by one. */
    method ProcessAvailable(maxRecords: Option<int>, clock: Clock) returns (r: Result<Report>)
      modifies this, service
      ensures Shown(Idle) == Processed(TheSetting(), old(Shown(Idle)), maxRecords, clock)
      ensures r.Ok? ==>
        var fetched := Fetched(old(stream.records), old(checkpoint), maxRecords);
        r.value == Report(old(checkpoint), checkpoint, |fetched|,
                          CasesReturned(TheSetting(), Started(TheSetting(), old(Shown(Idle)), maxRecords), clock,
                                        |fetched|))
      ensures r.Ok? && FetchedFrom(stream.hash, stream.records, old(checkpoint)) ==>
        && r.value.processed == Share(|stream.records| - old(checkpoint), maxRecords)
        && r.value.startOffset == old(checkpoint) && r.value.nextOffset == old(checkpoint) + r.value.processed
    {
      ghost var f, idle := TheSetting(), Shown(Idle);
      ghost var s := StartStep(idle, maxRecords);
      var start := checkpoint;
      var records := Fetched(stream.records, start, maxRecords);
      var cases := 0;
      assert records[0..] == records;
      for n := 0 to |records|
        invariant Steps(f, s, clock, n) == Shown(Processing(records[n..], false))
        invariant cases == CasesReturned(f, s, clock, n)
        invariant Steady(records, start) ==> checkpoint == start + n
      {
        ghost var before := Shown(Processing(records[n..], false));
        DropOne(records, n);
        var found := ProcessRecord(records[n], clock(n), records[n..]);
        ghost var after := Shown(if found.Err? then Idle else Processing(records[n + 1..], false));
        RoundIs(f, s, clock, n, before, after, found);
        if found.Err? {
          CallIs(f, idle, maxRecords, clock, n + 1, after);
          return Err(found.error);
        }
        cases := cases + |found.value|;
      }
      CallIs(f, idle, maxRecords, clock, |records|, Shown(Processing(records[|records|..], false)));
      FetchedSteady(stream.hash, stream.records, start, maxRecords, records);
      return Ok(Report(start, checkpoint, |records|, cases));
    }

    /** replay: the whole stream again from offset 0. */
    method Replay(clock: Clock) returns (r: Result<Report>)
      modifies this, service
      ensures Shown(Idle) == Processed(TheSetting(), Apply(TheSetting(), old(Shown(Idle)), ResetCheckpoint), None,
                                       clock)
      ensures r.Ok? ==> r.value.startOffset == 0 && r.value.nextOffset == checkpoint
      ensures r.Ok? && StreamVerifies(stream.hash, stream.records) ==>
        r.value.processed == checkpoint == |stream.records|
    {
      checkpoint := 0;
      r := ProcessAvailable(None, clock);
    }
  }
}
