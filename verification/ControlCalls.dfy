/** What one call of the control service stores and answers, column by column. */
module ControlCalls {
  import opened Ordering
  import opened Text
  import opened Tables
  import opened AuditCore
  import opened ControlPulse

  function If(condition: bool, fact: Fact): seq<Fact> { if condition then [fact] else [] }

  /** An event opens a case for each control that it breaks, in this order and with its evidence hash. */
  lemma OpensCases(l: Library, e: ControlEvent)
    requires l.hour(e.occurredAt).Some?
    ensures var hour, hash := l.hour(e.occurredAt).value, l.evidence(e);
      Facts(l, e) ==
        If(e.privileged && !(7 <= hour < 22),
           Fact("AC-PRIV-001", "HIGH", "privileged operation outside working hours", hash))
        + If(e.eventType == "DEPLOYMENT" && !e.approved,
             Fact("CM-APPROVAL-001", "HIGH", "production change without approval", hash))
        + If(e.eventType == "BACKUP" && e.outcome != "SUCCESS",
             Fact("OP-BACKUP-001", "HIGH", "backup job failed", hash))
        + If(e.eventType == "LOGIN" && e.outcome == "SUCCESS"
             && "account_status" in e.payload && e.payload["account_status"] == JStr("DISABLED"),
             Fact("AC-TERM-001", "CRITICAL", "login of a disabled account", hash))
  {
    ControlByControl(e, l.hour(e.occurredAt).value, FactFor(l.evidence(e)));
  }

  lemma ControlByControl(e: ControlEvent, hour: int, fact: Control -> Fact)
    ensures FactsAmong(e, hour, 4, fact) ==
      If(Broken(e, hour, Privileged), fact(Privileged)) + If(Broken(e, hour, Unapproved), fact(Unapproved))
      + If(Broken(e, hour, NoBackup), fact(NoBackup)) + If(Broken(e, hour, DisabledLogin), fact(DisabledLogin))
  {
    assert FactsAmong(e, hour, 0, fact) == [];
    NextControl(e, hour, 0, fact);
    NextControl(e, hour, 1, fact);
    NextControl(e, hour, 2, fact);
    NextControl(e, hour, 3, fact);
  }

  lemma NextControl(e: ControlEvent, hour: int, n: nat, fact: Control -> Fact)
    requires n < 4
    ensures FactsAmong(e, hour, n + 1, fact)
      == FactsAmong(e, hour, n, fact) + If(Broken(e, hour, ControlAt(n)), fact(ControlAt(n)))
  {}

  /** ingest_and_evaluate: a timestamp that does not parse raises, a known id changes nothing, and a new
      event goes in with its hash, one open case of version 1 per fact behind the stored ones, and an
      audit row that counts them. */
  lemma IngestStores(l: Library, db: ControlDb, tenant: string, e: ControlEvent, occurredAt: string, createdAt: string)
    ensures var (db', r) := Ingest(l, db, tenant, e, occurredAt, createdAt); var key := EventKey(tenant, e.eventId);
      && (l.hour(e.occurredAt).None? ==> r == Err(BadTimestamp) && db' == db)
      && (l.hour(e.occurredAt).Some? && key in db.events ==> r.Ok? && db' == db)
      && (l.hour(e.occurredAt).Some? && key !in db.events ==>
            && r == Ok(Facts(l, e)) && db'.history == db.history
            && db'.events == db.events[key := EventRow(e, l.evidence(e))]
            && |db'.cases| == |db.cases| + |r.value| && db'.cases[..|db.cases|] == db.cases
            && (forall i: nat | i < |r.value| ::
                  db'.cases[|db.cases| + i] == ControlCase(key, r.value[i], Opened, 1))
            && db'.core == AppendAudit(l.audit, db.core,
                             AuditContent(tenant, "controlpulse", "EVENT_EVALUATED", e.eventId, occurredAt,
                                          JObj(map["evidence_hash" := JStr(l.evidence(e)),
                                                   "case_count" := JInt(|r.value|)])), createdAt))
  {}

  // ----- transitions

  /** How a status is written. */
  predicate Written(s: Status, text: string) {
    match s
    case Opened => text == "OPEN"
    case InReview => text == "IN_REVIEW"
    case Remediated => text == "REMEDIATED"
    case Closed => text == "CLOSED"
  }

  /** The texts that a case accepts in each status. */
  predicate Accepts(s: Status, text: string) {
    match s
    case Opened => text == "IN_REVIEW"
    case InReview => text == "REMEDIATED"
    case Remediated => text == "CLOSED"
    case Closed => text == "OPEN"
  }

  predicate IsKnown(db: ControlDb, tenant: string, caseId: nat) {
    caseId < |db.cases| && db.cases[caseId].key.tenant == tenant && db.cases[caseId].key in db.events
  }

  /** Which transitions are refused, and with which error, in the order of the checks. */
  lemma TransitionRead(db: ControlDb, tenant: string, caseId: nat, actor: string, toStatus: string, reason: string)
    ensures var r := ReadTransition(db, tenant, caseId, actor, toStatus, reason);
      if IsBlank(reason) then r == Err(BlankReason)
      else if !IsKnown(db, tenant, caseId) then r == Err(UnknownCase)
      else
        var c := db.cases[caseId];
        if !Accepts(c.status, Upper(toStatus)) then r == Err(InvalidTransition)
        else if Upper(toStatus) == "CLOSED" && actor == db.events[c.key].event.actor then r == Err(NotIndependent)
        else r == Ok(Pending(tenant, caseId, c, actor, reason))
  {
    StatusTextsDiffer();
  }

  lemma StatusTextsDiffer()
    ensures "OPEN" != "IN_REVIEW" && "OPEN" != "REMEDIATED" && "OPEN" != "CLOSED"
    ensures "IN_REVIEW" != "REMEDIATED" && "IN_REVIEW" != "CLOSED" && "REMEDIATED" != "CLOSED"
  {
    assert |"OPEN"| == 4 && |"IN_REVIEW"| == 9 && |"REMEDIATED"| == 10 && |"CLOSED"| == 6;
  }

  /** What a transition writes when nothing has come between: the case alone moves, to the status that
      was asked for, with the next version, and one history row and one audit row name both statuses. */
  lemma TransitionStores(l: Library, db: ControlDb, tenant: string, caseId: nat, actor: string, toStatus: string,
                         reason: string, p: Pending, occurredAt: string, auditedAt: string, createdAt: string,
                         from: string, to: Status)
    requires ReadTransition(db, tenant, caseId, actor, toStatus, reason) == Ok(p)
    requires Written(db.cases[caseId].status, from) && Written(to, Upper(toStatus))
    ensures caseId < |db.cases|
    ensures var (db', r) := WriteTransition(l, db, p, occurredAt, auditedAt, createdAt); var c := db.cases[caseId];
      && r.Ok? && db'.events == db.events
      && db'.cases == db.cases[caseId := ControlCase(c.key, c.fact, to, c.version + 1)]
      && db'.history == db.history + [Transition(tenant, caseId, c.status, to, actor, reason, occurredAt)]
      && db'.core == AppendAudit(l.audit, db.core,
                       AuditContent(tenant, "controlpulse", "CASE_TRANSITIONED", Number(caseId), auditedAt,
                                    JObj(map["from" := JStr(from), "to" := JStr(Upper(toStatus)),
                                             "actor" := JStr(actor), "reason" := JStr(reason)])), createdAt)
  {
    ReadIs(db, tenant, caseId, actor, toStatus, reason, from, to, p);
    PendingStores(l, db, p, from, to, Upper(toStatus), occurredAt, auditedAt, createdAt);
  }

  lemma ReadIs(db: ControlDb, tenant: string, caseId: nat, actor: string, toStatus: string, reason: string,
               from: string, to: Status, p: Pending)
    requires ReadTransition(db, tenant, caseId, actor, toStatus, reason) == Ok(p)
    requires Written(db.cases[caseId].status, from) && Written(to, Upper(toStatus))
    ensures caseId < |db.cases| && p == Pending(tenant, caseId, db.cases[caseId], actor, reason)
    ensures p.seen.key.tenant == tenant
    ensures Name(p.seen.status) == from && Next(p.seen.status) == to && Name(to) == Upper(toStatus)
  {
    TransitionRead(db, tenant, caseId, actor, toStatus, reason);
    TextsName(db.cases[caseId].status, from, to, Upper(toStatus));
  }

  lemma TextsName(s: Status, from: string, to: Status, text: string)
    requires Written(s, from) && Written(to, text) && Accepts(s, text)
    ensures Name(s) == from && to == Next(s) && Name(to) == text
  {
    StatusTextsDiffer();
  }

  lemma PendingStores(l: Library, db: ControlDb, p: Pending, from: string, to: Status, text: string, occurredAt: string,
                      auditedAt: string, createdAt: string)
    requires p.caseId < |db.cases| && p.seen == db.cases[p.caseId] && p.seen.key.tenant == p.tenant
    requires Name(p.seen.status) == from && Next(p.seen.status) == to && Name(to) == text
    ensures var (db', r) := WriteTransition(l, db, p, occurredAt, auditedAt, createdAt);
      && r.Ok? && db'.events == db.events
      && db'.cases == db.cases[p.caseId := ControlCase(p.seen.key, p.seen.fact, to, p.seen.version + 1)]
      && db'.history == db.history
           + [Transition(p.tenant, p.caseId, p.seen.status, to, p.actor, p.reason, occurredAt)]
      && db'.core == AppendAudit(l.audit, db.core,
                       AuditContent(p.tenant, "controlpulse", "CASE_TRANSITIONED", Number(p.caseId), auditedAt,
                                    JObj(map["from" := JStr(from), "to" := JStr(text),
                                             "actor" := JStr(p.actor), "reason" := JStr(p.reason)])), createdAt)
  {
    TransitionContent(p, auditedAt);
    MovedColumns(l, db, p, occurredAt, TransitionAudit(p, auditedAt), createdAt);
  }

  lemma TransitionContent(p: Pending, auditedAt: string)
    ensures TransitionAudit(p, auditedAt) ==
      AuditContent(p.tenant, "controlpulse", "CASE_TRANSITIONED", Number(p.caseId), auditedAt,
                   JObj(map["from" := JStr(Name(p.seen.status)), "to" := JStr(Name(Next(p.seen.status))),
                            "actor" := JStr(p.actor), "reason" := JStr(p.reason)]))
  {}

  lemma MovedColumns(l: Library, db: ControlDb, p: Pending, occurredAt: string, content: AuditContent,
                     createdAt: string)
    requires p.caseId < |db.cases| && p.seen == db.cases[p.caseId]
    ensures var db' := Moved(l, db, p, occurredAt, content, createdAt);
      && db'.events == db.events
      && db'.cases == db.cases[p.caseId :=
           ControlCase(p.seen.key, p.seen.fact, Next(p.seen.status), p.seen.version + 1)]
      && db'.history == db.history
           + [Transition(p.tenant, p.caseId, p.seen.status, Next(p.seen.status), p.actor, p.reason, occurredAt)]
      && db'.core == AppendAudit(l.audit, db.core, content, createdAt)
  {}

  /** The number that a decimal text stands for. */
  function Reads(text: string): nat {
    if text == "" then 0 else
      var last := text[|text| - 1];
      10 * Reads(text[..|text| - 1]) + if '0' <= last <= '9' then (last - '0') as int else 0
  }

  lemma {:induction false} NumberReads(n: nat)
    ensures Reads(Number(n)) == n
  {
    var digit := ['0', '1', '2', '3', '4', '5', '6', '7', '8', '9'][n % 10];
    var front := if n < 10 then "" else Number(n / 10);
    assert Number(n) == front + [digit] && Number(n)[..|Number(n)| - 1] == front;
    DigitReads(n % 10);
    if n >= 10 { NumberReads(n / 10); }
  }

  lemma DigitReads(n: nat)
    requires n < 10
    ensures var digit := ['0', '1', '2', '3', '4', '5', '6', '7', '8', '9'][n];
      '0' <= digit <= '9' && (digit - '0') as int == n
  {}
}
