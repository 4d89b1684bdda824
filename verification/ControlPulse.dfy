/**
 Control events and the cases they open (controlpulse.py): ingestion that is deduplicated by event
 id, and case transitions that compare and swap what they read earlier.
 */
module ControlPulse {
  import opened Ordering
  import opened Tables
  import opened AuditCore
  import opened Text

  datatype ControlEvent = ControlEvent( eventId: string, eventType: string, actor: string, resource: string,
                                       occurredAt: string, approved: bool, privileged: bool, outcome: string,
                                       payload: map<string, Json>)

  datatype EventKey = EventKey(tenant: string, eventId: string)

  datatype EventRow = EventRow(event: ControlEvent, evidenceHash: string)

  /** What a case says about its event. */
  datatype Fact = Fact(controlId: string, severity: string, explanation: string, evidenceHash: string)

  datatype Status = Opened | InReview | Remediated | Closed

  datatype ControlCase = ControlCase(key: EventKey, fact: Fact, status: Status, version: nat)

  datatype Transition = Transition(tenant: string, caseId: nat, from: Status, to: Status, actor: string, reason: string,
                                   occurredAt: string)

  /** The tables.  Cases are listed in id order, and a case is named by its place in the list. */
  datatype ControlDb = ControlDb(events: map<EventKey, EventRow>, cases: seq<ControlCase>, history: seq<Transition>,
                                 core: Core)

  const Empty := ControlDb(map[], [], [], Core(map[], map[], 0, 0))

  datatype Error = BadTimestamp | BlankReason | UnknownCase | InvalidTransition | NotIndependent | Conflict

  datatype Result<+T> = Ok(value: T) | Err(error: Error)

  /** The hash functions over canonical JSON, and the hour of an ISO timestamp, None if it does not
      parse. */
  datatype Library = Library(audit: Hash, evidence: ControlEvent -> string, hour: string -> Option<int>)

  // ----- ingestion

  datatype Control = Privileged | Unapproved | NoBackup | DisabledLogin

  predicate Broken(e: ControlEvent, hour: int, control: Control) {
    match control
    case Privileged => e.privileged && (hour < 7 || hour >= 22)
    case Unapproved => e.eventType == "DEPLOYMENT" && !e.approved
    case NoBackup => e.eventType == "BACKUP" && e.outcome != "SUCCESS"
    case DisabledLogin =>
      e.eventType == "LOGIN" && e.outcome == "SUCCESS" && "account_status" in e.payload
        && e.payload["account_status"] == JStr("DISABLED")
  }

  /** The controls in the order in which they are checked. */
  function ControlAt(k: nat): Control
    requires k < 4
  {
    if k == 0 then Privileged else if k == 1 then Unapproved else if k == 2 then NoBackup else DisabledLogin
  }

  function FactOf(control: Control, evidenceHash: string): Fact {
    match control
    case Privileged => Fact("AC-PRIV-001", "HIGH", "privileged operation outside working hours", evidenceHash)
    case Unapproved => Fact("CM-APPROVAL-001", "HIGH", "production change without approval", evidenceHash)
    case NoBackup => Fact("OP-BACKUP-001", "HIGH", "backup job failed", evidenceHash)
    case DisabledLogin => Fact("AC-TERM-001", "CRITICAL", "login of a disabled account", evidenceHash)
  }

  function FactFor(evidenceHash: string): Control -> Fact { (control: Control) => FactOf(control, evidenceHash) }

  /** The facts of those among the first n controls that the event breaks, in order. */
  function FactsAmong(e: ControlEvent, hour: int, n: nat, fact: Control -> Fact): seq<Fact>
    requires n <= 4
  {
    if n == 0 then [] else
      var before := FactsAmong(e, hour, n - 1, fact);
      if Broken(e, hour, ControlAt(n - 1)) then before + [fact(ControlAt(n - 1))] else before
  }

  /** _evaluate, for an event whose timestamp parses. */
  function Facts(l: Library, e: ControlEvent): seq<Fact>
    requires l.hour(e.occurredAt).Some?
  {
    FactsAmong(e, l.hour(e.occurredAt).value, 4, FactFor(l.evidence(e)))
  }

  function OpenCases(key: EventKey, facts: seq<Fact>): seq<ControlCase> {
    seq(|facts|, i requires 0 <= i < |facts| => ControlCase(key, facts[i], Opened, 1))
  }

  /** SELECT ... WHERE event_id ORDER BY id: the facts of the event's cases among the first n. */
  function StoredFacts(cases: seq<ControlCase>, n: nat, key: EventKey): seq<Fact>
    requires n <= |cases|
  {
    if n == 0 then [] else
      StoredFacts(cases, n - 1, key) + if cases[n - 1].key == key then [cases[n - 1].fact] else []
  }

  function IngestNew(l: Library, db: ControlDb, tenant: string, e: ControlEvent, occurredAt: string,
                     createdAt: string): ControlDb
    requires l.hour(e.occurredAt).Some?
  {
    var key, facts := EventKey(tenant, e.eventId), Facts(l, e);
    ControlDb(db.events[key := EventRow(e, l.evidence(e))], db.cases + OpenCases(key, facts), db.history,
              AppendAudit(l.audit, db.core,
                AuditContent(tenant, "controlpulse", "EVENT_EVALUATED", e.eventId, occurredAt,
                             JObj(map["evidence_hash" := JStr(l.evidence(e)), "case_count" := JInt(|facts|)])),
                createdAt))
  }

  /** ingest_and_evaluate: an event that does not parse raises, a known event id changes nothing. */
  function Ingest(l: Library, db: ControlDb, tenant: string, e: ControlEvent, occurredAt: string,
                  createdAt: string): (ControlDb, Result<seq<Fact>>)
  {
    var key := EventKey(tenant, e.eventId);
    if l.hour(e.occurredAt).None? then (db, Err(BadTimestamp))
    else if key in db.events then (db, Ok(StoredFacts(db.cases, |db.cases|, key)))
    else (IngestNew(l, db, tenant, e, occurredAt, createdAt), Ok(Facts(l, e)))
  }

  // ----- transitions

  function Next(s: Status): Status {
    match s case Opened => InReview case InReview => Remediated case Remediated => Closed case Closed => Opened
  }

  function Name(s: Status): string {
    match s case Opened => "OPEN" case InReview => "IN_REVIEW" case Remediated => "REMEDIATED" case Closed => "CLOSED"
  }

  /** A transition that has made its read. */
  datatype Pending = Pending(tenant: string, caseId: nat, seen: ControlCase, actor: string, reason: string)

  /** The read of transition_case and the checks before its write. */
  function ReadTransition(db: ControlDb, tenant: string, caseId: nat, actor: string, toStatus: string,
                          reason: string): Result<Pending>
  {
    if IsBlank(reason) then Err(BlankReason)
    else if caseId >= |db.cases| || db.cases[caseId].key.tenant != tenant
      || db.cases[caseId].key !in db.events then Err(UnknownCase)
    else
      var c := db.cases[caseId];
      if Upper(toStatus) != Name(Next(c.status)) then Err(InvalidTransition)
      else if Next(c.status) == Closed && actor == db.events[c.key].event.actor then Err(NotIndependent)
      else Ok(Pending(tenant, caseId, c, actor, reason))
  }

  /** The update finds the row only if its status and version are still as read. */
  predicate StillAsRead(db: ControlDb, p: Pending) {
    && p.caseId < |db.cases| && db.cases[p.caseId].key.tenant == p.tenant
    && db.cases[p.caseId].status == p.seen.status && db.cases[p.caseId].version == p.seen.version
  }

  function TransitionAudit(p: Pending, auditedAt: string): AuditContent {
    var from, to := p.seen.status, Next(p.seen.status);
    AuditContent(p.tenant, "controlpulse", "CASE_TRANSITIONED", Number(p.caseId), auditedAt,
                 JObj(map["from" := JStr(Name(from)), "to" := JStr(Name(to)), "actor" := JStr(p.actor),
                          "reason" := JStr(p.reason)]))
  }

  function Moved(l: Library, db: ControlDb, p: Pending, occurredAt: string, content: AuditContent,
                 createdAt: string): ControlDb
    requires p.caseId < |db.cases|
  {
    var to := Next(p.seen.status);
    ControlDb(db.events,
              db.cases[p.caseId := db.cases[p.caseId].(status := to, version := p.seen.version + 1)],
              db.history + [Transition(p.tenant, p.caseId, p.seen.status, to, p.actor, p.reason, occurredAt)],
              AppendAudit(l.audit, db.core, content, createdAt))
  }

  lemma MovedIs(l: Library, db: ControlDb, p: Pending, occurredAt: string, content: AuditContent, createdAt: string,
                after: ControlDb)
    requires p.caseId < |db.cases| && after.events == db.events
    requires after.cases == db.cases[p.caseId := db.cases[p.caseId].(status := Next(p.seen.status),
                                                                     version := p.seen.version + 1)]
    requires after.history == db.history
      + [Transition(p.tenant, p.caseId, p.seen.status, Next(p.seen.status), p.actor, p.reason, occurredAt)]
    requires after.core == AppendAudit(l.audit, db.core, content, createdAt)
    ensures after == Moved(l, db, p, occurredAt, content, createdAt)
  {}

  function WriteTransition(l: Library, db: ControlDb, p: Pending, occurredAt: string, auditedAt: string,
                           createdAt: string): (ControlDb, Result<()>)
  {
    if StillAsRead(db, p) then (Moved(l, db, p, occurredAt, TransitionAudit(p, auditedAt), createdAt), Ok(())) else
      (db, Err(Conflict))
  }

  /** str() of a case id. */
  function Number(n: nat): string {
    (if n < 10 then "" else Number(n / 10)) + [['0', '1', '2', '3', '4', '5', '6', '7', '8', '9'][n % 10]]
  }

  class ControlStore {
    const library: Library
    const tenant: string
    var events: map<EventKey, EventRow>
    var cases: seq<ControlCase>
    var history: seq<Transition>
    var core: Core

    constructor (library: Library, tenant: string)
      ensures this.library == library && this.tenant == tenant && State() == Empty
    {
      this.library, this.tenant := library, tenant;
      events, cases, history, core := map[], [], [], Core(map[], map[], 0, 0);
    }

    function State(): ControlDb reads this { ControlDb(events, cases, history, core) }

    method IngestAndEvaluate(e: ControlEvent, occurredAt: string, createdAt: string) returns (r: Result<seq<Fact>>)
      modifies this
      ensures (State(), r) == Ingest(library, old(State()), tenant, e, occurredAt, createdAt)
    {
      var evidenceHash := library.evidence(e);
      var found := EvaluateEvent(e, evidenceHash, library.hour(e.occurredAt));
      if found.Err? { return found; }
      var key := EventKey(tenant, e.eventId);
      if key in events { return Ok(StoredFacts(cases, |cases|, key)); }
      InsertEvent(e, evidenceHash, found.value, occurredAt, createdAt);
      return found;
    }

    /** The inserts of ingest_and_evaluate. */
    method InsertEvent(e: ControlEvent, evidenceHash: string, found: seq<Fact>, occurredAt: string, createdAt: string)
      requires library.hour(e.occurredAt).Some? && evidenceHash == library.evidence(e) && found == Facts(library, e)
      modifies this
      ensures State() == IngestNew(library, old(State()), tenant, e, occurredAt, createdAt)
    {
      var key := EventKey(tenant, e.eventId);
      events := events[key := EventRow(e, evidenceHash)];
      if found != [] { cases := cases + OpenCases(key, found); }
      var payload := JObj(map["evidence_hash" := JStr(evidenceHash), "case_count" := JInt(|found|)]);
      core := AppendAudit(library.audit, core,
                          AuditContent(tenant, "controlpulse", "EVENT_EVALUATED", e.eventId, occurredAt, payload),
                          createdAt);
      assert found == [] ==> old(cases) + OpenCases(key, found) == old(cases);
    }

    /** transition_case with nothing between its read and its write. */
    method TransitionCase(caseId: nat, actor: string, toStatus: string, reason: string, occurredAt: string,
                          auditedAt: string, createdAt: string)
        returns (r: Result<()>)
      modifies this`cases, this`history, this`core
      ensures var p := ReadTransition(old(State()), tenant, caseId, actor, toStatus, reason);
        if p.Err? then r == Err(p.error) && State() == old(State())
        else (State(), r) == WriteTransition(library, old(State()), p.value, occurredAt, auditedAt, createdAt) && r.Ok?
    {
      if IsBlank(reason) { return Err(BlankReason); }
      if caseId >= |cases| || cases[caseId].key.tenant != tenant || cases[caseId].key !in events {
        return Err(UnknownCase);
      }
      var row := cases[caseId];
      if Upper(toStatus) != Name(Next(row.status)) { return Err(InvalidTransition); }
      if Next(row.status) == Closed && actor == events[row.key].event.actor { return Err(NotIndependent); }
      var p := Pending(tenant, caseId, row, actor, reason);
      MoveCase(p, occurredAt, TransitionAudit(p, auditedAt), createdAt);
      return Ok(());
    }

    /** The writes of transition_case. */
    method MoveCase(p: Pending, occurredAt: string, content: AuditContent, createdAt: string)
      requires StillAsRead(State(), p)
      modifies this`cases, this`history, this`core
      ensures State() == Moved(library, old(State()), p, occurredAt, content, createdAt)
    {
      var row := cases[p.caseId].(status := Next(p.seen.status), version := p.seen.version + 1);
      var entry := Transition(p.tenant, p.caseId, p.seen.status, Next(p.seen.status), p.actor, p.reason, occurredAt);
      ghost var before := State();
      cases, history, core := cases[p.caseId := row], history + [entry],
        AppendAudit(library.audit, core, content, createdAt);
      MovedIs(library, before, p, occurredAt, content, createdAt, State());
    }
  }

  /** _evaluate. */
  method EvaluateEvent(e: ControlEvent, evidenceHash: string, hour: Option<int>) returns (r: Result<seq<Fact>>)
    ensures r == if hour.None? then Err(BadTimestamp) else Ok(FactsAmong(e, hour.value, 4, FactFor(evidenceHash)))
  {
    if hour.None? { return Err(BadTimestamp); }
    var cases := CheckControls(e, hour.value, FactFor(evidenceHash));
    return Ok(cases);
  }

  /** The list grows control by control. */
  method CheckControls(e: ControlEvent, hour: int, fact: Control -> Fact) returns (cases: seq<Fact>)
    ensures cases == FactsAmong(e, hour, 4, fact)
  {
    cases := [];
    if e.privileged && (hour < 7 || hour >= 22) {
      cases := cases + [fact(Privileged)];
    }
    assert cases == FactsAmong(e, hour, 1, fact);
    if e.eventType == "DEPLOYMENT" && !e.approved {
      cases := cases + [fact(Unapproved)];
    }
    assert cases == FactsAmong(e, hour, 2, fact);
    if e.eventType == "BACKUP" && e.outcome != "SUCCESS" {
      cases := cases + [fact(NoBackup)];
    }
    assert cases == FactsAmong(e, hour, 3, fact);
    if e.eventType == "LOGIN" && e.outcome == "SUCCESS" && "account_status" in e.payload
      && e.payload["account_status"] == JStr("DISABLED") {
      cases := cases + [fact(DisabledLogin)];
    }
  }
}
