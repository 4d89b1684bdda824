/** Ingesting invoices and running rules over them, under idempotency keys (taxflow.py). */
module TaxFlow {
  import opened Ordering
  import opened Tables
  import opened AuditCore
  import opened Decimals
  import opened TaxRules
  import opened Generator
  import opened RuleRun
  import opened Text
  import opened Retry

  datatype Operation = TaxIngest | TaxRunRules

  datatype Scope = Scope(tenant: string, operation: Operation, key: string)

  datatype Request = IngestRequest(rows: seq<TaxTransaction>) | RunRequest(ruleVersion: string, pack: RulePack)

  datatype Reply = Ingested(rows: nat) | Completed(runId: string, ruleVersion: string, transactions: nat,
                                                   findings: nat, packHash: string)

  datatype IdempotencyRecord = IdempotencyRecord(requestHash: string, reply: Reply)

  datatype TaxRun = TaxRun(tenant: string, ruleVersion: string, pack: RulePack, transactionCount: nat,
                           findingCount: nat)

  datatype StoredFinding = StoredFinding(tenant: string, runId: string, finding: Finding)

  /** The tables behind the service.  Transactions are listed in id order. */
  datatype TaxDb = TaxDb(transactions: seq<TaxRow>, runs: map<string, TaxRun>, findings: seq<StoredFinding>,
                         records: map<Scope, IdempotencyRecord>, core: Core)

  const Empty := TaxDb([], map[], [], map[], Core(map[], map[], 0, 0))

  /** The argument rule_pack: absent, an empty dictionary (which Python takes for absent), or a pack. */
  datatype PackArgument = NoPack | EmptyPack | GivenPack(pack: RulePack)

  /** A call of the service, with the clock readings and the fresh identifier it draws. */
  datatype Call =
    | Ingest(tenant: string, rows: seq<TaxTransaction>, key: Option<string>, batchId: string, now: string,
             occurredAt: string, createdAt: string)
    | RunRules(tenant: string, ruleVersion: Option<string>, rulePack: PackArgument, key: Option<string>, runId: string,
               occurredAt: string, createdAt: string)

  /** The hash functions over canonical JSON, and Decimal() on texts. */
  datatype Library = Library(audit: Hash, request: Request -> string, transaction: TaxTransaction -> string,
                             pack: RulePack -> string, numeral: string -> Option<Decimal>)

  function EffectivePack(argument: PackArgument): RulePack {
    if argument.GivenPack? then argument.pack else DEFAULT_RULE_PACK
  }

  function EffectiveVersion(version: Option<string>, pack: RulePack): string {
    if version.Some? && version.value != "" then version.value else pack.packId + "/" + pack.version
  }

  function RequestOf(c: Call): Request {
    match c
    case Ingest(_, rows, _, _, _, _, _) => IngestRequest(rows)
    case RunRules(_, version, argument, _, _, _, _) =>
      var pack := EffectivePack(argument);
      RunRequest(EffectiveVersion(version, pack), pack)
  }

  function OperationOf(c: Call): Operation { if c.Ingest? then TaxIngest else TaxRunRules }

  function ScopeOf(c: Call): Option<Scope> {
    if c.key.None? then None else Some(Scope(c.tenant, OperationOf(c), c.key.value))
  }

  /** A key has 1 to 100 characters and is not blank. */
  predicate GoodKey(key: string) { !IsBlank(key) && |key| <= 100 }

  /** _idempotent_response: the stored reply, None if the call is new. */
  function StoredReply(records: map<Scope, IdempotencyRecord>, scope: Option<Scope>,
                       requestHash: string): Result<Option<Reply>>
  {
    if scope.None? then Ok(None)
    else if !GoodKey(scope.value.key) then Err(BadKey)
    else if scope.value !in records then Ok(None)
    else if records[scope.value].requestHash != requestHash then Err(KeyReused)
    else Ok(Some(records[scope.value].reply))
  }

  function StoreReply(records: map<Scope, IdempotencyRecord>, scope: Option<Scope>, requestHash: string,
                      reply: Reply): map<Scope, IdempotencyRecord>
  {
    if scope.None? then records else records[scope.value := IdempotencyRecord(requestHash, reply)]
  }

  /** The rows of one tenant among the first n, in id order. */
  function TenantTransactions(rows: seq<TaxRow>, n: nat, tenant: string): seq<TaxRow>
    requires n <= |rows|
  {
    if n == 0 then [] else
      TenantTransactions(rows, n - 1, tenant) + if rows[n - 1].tenantId == tenant then [rows[n - 1]] else []
  }

  /** The rows of a batch as stored after the first `before` rows. */
  function Inserted(l: Library, c: Call, before: nat): seq<TaxRow>
    requires c.Ingest?
  {
    seq(|c.rows|, k requires 0 <= k < |c.rows| =>
      Stored(c.rows[k], before + k, c.tenant, l.transaction(c.rows[k]), c.now))
  }

  function IngestPayload(rows: nat): Json { JObj(map["rows" := JInt(rows)]) }

  function RunPayload(reply: Reply): Json
    requires reply.Completed?
  {
    JObj(map["rule_version" := JStr(reply.ruleVersion), "transactions" := JInt(reply.transactions),
             "findings" := JInt(reply.findings), "rule_pack_hash" := JStr(reply.packHash)])
  }

  function Appended(l: Library, core: Core, c: Call, eventType: string, entityId: string, payload: Json): Core {
    AppendAudit(l.audit, core, AuditContent(c.tenant, "taxflow", eventType, entityId, c.occurredAt, payload),
                c.createdAt)
  }

  /** ingest, once its key is known to be free. */
  function IngestNew(l: Library, db: TaxDb, c: Call): (TaxDb, Reply)
    requires c.Ingest?
  {
    var reply := Ingested(|c.rows|);
    (TaxDb(db.transactions + Inserted(l, c, |db.transactions|), db.runs, db.findings,
           StoreReply(db.records, ScopeOf(c), l.request(RequestOf(c)), reply),
           Appended(l, db.core, c, "BATCH_INGESTED", c.batchId, IngestPayload(|c.rows|))),
     reply)
  }

  function Tagged(found: seq<Finding>, tenant: string, runId: string): seq<StoredFinding> {
    seq(|found|, k requires 0 <= k < |found| => StoredFinding(tenant, runId, found[k]))
  }

  /** What the rules find in the tenant's rows. */
  function RunFindings(l: Library, transactions: seq<TaxRow>, tenant: string, rules: seq<Rule>): Result<seq<Finding>> {
    var rows := TenantTransactions(transactions, |transactions|, tenant);
    Findings(VerdictsIn(Context(DuplicateIds(rows), l.numeral)), rows, |rows|, rules)
  }

  function RunReply(l: Library, db: TaxDb, c: Call, found: seq<Finding>): Reply
    requires c.RunRules?
  {
    var request := RequestOf(c);
    Completed(c.runId, request.ruleVersion, |TenantTransactions(db.transactions, |db.transactions|, c.tenant)|,
              |found|, l.pack(request.pack))
  }

  /** run_rules with these findings, once its key is known to be free. */
  function RunNew(l: Library, db: TaxDb, c: Call, found: seq<Finding>): (TaxDb, Reply)
    requires c.RunRules?
  {
    var request, reply := RequestOf(c), RunReply(l, db, c, found);
    (TaxDb(db.transactions,
           db.runs[c.runId := TaxRun(c.tenant, request.ruleVersion, request.pack, reply.transactions, |found|)],
           db.findings + Tagged(found, c.tenant, c.runId),
           StoreReply(db.records, ScopeOf(c), l.request(request), reply),
           Appended(l, db.core, c, "RULE_RUN_COMPLETED", c.runId, RunPayload(reply))),
     reply)
  }

  /** The effect of a call whose key is free.  run_id is a primary key. */
  function Fresh(l: Library, db: TaxDb, c: Call): (TaxDb, Result<Reply>)
    requires c.RunRules? ==> WellFormed(EffectivePack(c.rulePack))
  {
    match c
    case Ingest(_, _, _, _, _, _, _) =>
      var done := IngestNew(l, db, c);
      (done.0, Ok(done.1))
    case RunRules(_, _, _, _, _, _, _) =>
      if c.runId in db.runs then (db, Err(IntegrityError)) else
        var found := RunFindings(l, db.transactions, c.tenant, EffectivePack(c.rulePack).rules.value);
        if found.Err? then (db, Err(found.error)) else
          var done := RunNew(l, db, c, found.value);
          (done.0, Ok(done.1))
  }

  predicate Accepted(c: Call) { c.RunRules? ==> WellFormed(EffectivePack(c.rulePack)) }

  /** A call whose pack was accepted, as one transaction: replayed, refused or fresh. */
  function Perform(l: Library, db: TaxDb, c: Call): (TaxDb, Result<Reply>)
    requires Accepted(c)
  {
    var stored := StoredReply(db.records, ScopeOf(c), l.request(RequestOf(c)));
    if stored.Err? then (db, Err(stored.error))
    else if stored.value.Some? then (db, Ok(stored.value.value))
    else Fresh(l, db, c)
  }

  class TaxFlowStore {
    const library: Library
    var transactions: seq<TaxRow>
    var runs: map<string, TaxRun>
    var findings: seq<StoredFinding>
    var records: map<Scope, IdempotencyRecord>
    var core: Core

    constructor (library: Library)
      ensures this.library == library && State() == Empty
    {
      this.library := library;
      transactions, runs, findings, records, core := [], map[], [], map[], Core(map[], map[], 0, 0);
    }

    function State(): TaxDb reads this { TaxDb(transactions, runs, findings, records, core) }

    method IngestTransactions(c: Call) returns (r: Result<Reply>)
      requires c.Ingest?
      modifies this
      ensures (State(), r) == Perform(library, old(State()), c)
    {
      var requestHash := library.request(IngestRequest(c.rows));
      var stored := StoredReply(records, ScopeOf(c), requestHash);
      if stored.Err? { return Err(stored.error); }
      if stored.value.Some? { return Ok(stored.value.value); }
      if c.rows != [] { transactions := transactions + Inserted(library, c, |transactions|); }
      core := Appended(library, core, c, "BATCH_INGESTED", c.batchId, IngestPayload(|c.rows|));
      var reply := Ingested(|c.rows|);
      records := StoreReply(records, ScopeOf(c), requestHash, reply);
      assert c.rows == [] ==> old(transactions) + Inserted(library, c, |old(transactions)|) == old(transactions);
      return Ok(reply);
    }

    method RunTaxRules(c: Call) returns (r: Result<Reply>)
      requires c.RunRules?
      modifies this
      ensures if Accepted(c) then (State(), r) == Perform(library, old(State()), c) else
        r.Err? && State() == old(State())
    {
      var pack := EffectivePack(c.rulePack);
      var valid := ValidateRulePack(pack);
      if valid.Err? { return Err(valid.error); }
      var version := EffectiveVersion(c.ruleVersion, pack);
      var requestHash := library.request(RunRequest(version, pack));
      var stored := StoredReply(records, ScopeOf(c), requestHash);
      if stored.Err? { return Err(stored.error); }
      if stored.value.Some? { return Ok(stored.value.value); }
      r := RunFresh(c, pack, version, requestHash);
    }

    /** The rest of run_rules for a call that is not a repeat. */
    method RunFresh(c: Call, pack: RulePack, version: string, requestHash: string) returns (r: Result<Reply>)
      requires c.RunRules? && Accepted(c) && RequestOf(c) == RunRequest(version, pack)
      requires pack == EffectivePack(c.rulePack)
      requires requestHash == library.request(RequestOf(c))
      modifies this
      ensures (State(), r) == Fresh(library, old(State()), c)
    {
      if c.runId in runs { return Err(IntegrityError); }
      var rows := TenantTransactions(transactions, |transactions|, c.tenant);
      var found := EvaluateRows(rows, pack.rules.value, Context(DuplicateIds(rows), library.numeral));
      assert found == RunFindings(library, transactions, c.tenant, pack.rules.value);
      if found.Err? { return Err(found.error); }
      r := StoreRun(c, pack, version, requestHash, |rows|, found.value);
    }

    /** The inserts of run_rules. */
    method StoreRun(c: Call, pack: RulePack, version: string, requestHash: string, rows: nat, found: seq<Finding>)
      returns (r: Result<Reply>)
      requires c.RunRules? && RequestOf(c) == RunRequest(version, pack) && requestHash == library.request(RequestOf(c))
      requires rows == |TenantTransactions(transactions, |transactions|, c.tenant)|
      modifies this
      ensures (State(), r) == (RunNew(library, old(State()), c, found).0, Ok(RunNew(library, old(State()), c, found).1))
    {
      var reply := Completed(c.runId, version, rows, |found|, library.pack(pack));
      ghost var before := State();
      runs, findings, core, records :=
        runs[c.runId := TaxRun(c.tenant, version, pack, rows, |found|)],
        findings + Tagged(found, c.tenant, c.runId),
        Appended(library, core, c, "RULE_RUN_COMPLETED", c.runId, RunPayload(reply)),
        StoreReply(records, ScopeOf(c), requestHash, reply);
      RunNewIs(library, before, c, found, reply, State());
      return Ok(reply);
    }
  }

  lemma RunNewIs(l: Library, db: TaxDb, c: Call, found: seq<Finding>, reply: Reply, after: TaxDb)
    requires c.RunRules? && reply == RunReply(l, db, c, found) && after.transactions == db.transactions
    requires after.runs == db.runs[c.runId := TaxRun(c.tenant, RequestOf(c).ruleVersion, RequestOf(c).pack,
                                                     reply.transactions, |found|)]
    requires after.findings == db.findings + Tagged(found, c.tenant, c.runId)
    requires after.core == Appended(l, db.core, c, "RULE_RUN_COMPLETED", c.runId, RunPayload(reply))
    requires after.records == StoreReply(db.records, ScopeOf(c), l.request(RequestOf(c)), reply)
    ensures RunNew(l, db, c, found) == (after, reply)
  {}

  // ----- any sequence of calls

  function Scopes(db: TaxDb): set<Scope> { db.records.Keys }

  /** A call as a step of a keyed service. */
  function Served(l: Library, db: TaxDb, c: Call): Step<TaxDb, Reply> {
    if !Accepted(c) then Step(db, None) else
      var done := Perform(l, db, c);
      Step(done.0, if done.1.Ok? then Some(done.1.value) else None)
  }

  function TaxService(l: Library): Service<TaxDb, Call, Reply> { (db: TaxDb, c: Call) => Served(l, db, c) }

  /** A fresh call either raises and changes nothing or files its reply under its key. */
  predicate Files(before: TaxDb, scope: Option<Scope>, after: TaxDb, r: Result<Reply>) {
    && (r.Err? ==> after == before)
    && (r.Ok? ==> Scopes(after) == Scopes(before) + if scope.Some? then {scope.value} else {})
  }

  lemma IngestFiles(l: Library, db: TaxDb, c: Call)
    requires c.Ingest?
    ensures Files(db, ScopeOf(c), IngestNew(l, db, c).0, Ok(IngestNew(l, db, c).1))
  {}

  lemma RunFiles(l: Library, db: TaxDb, c: Call, found: seq<Finding>)
    requires c.RunRules?
    ensures Files(db, ScopeOf(c), RunNew(l, db, c, found).0, Ok(RunNew(l, db, c, found).1))
  {}

  lemma FreshFiles(l: Library, db: TaxDb, c: Call)
    requires Accepted(c)
    ensures Files(db, ScopeOf(c), Fresh(l, db, c).0, Fresh(l, db, c).1)
  {
    if c.Ingest? {
      IngestFiles(l, db, c);
    } else if c.runId !in db.runs {
      var found := RunFindings(l, db.transactions, c.tenant, EffectivePack(c.rulePack).rules.value);
      if found.Ok? { RunFiles(l, db, c, found.value); }
    }
  }

  lemma PerformFiles(l: Library, db: TaxDb, c: Call)
    requires Accepted(c)
    ensures Files(db, ScopeOf(c), Perform(l, db, c).0, Perform(l, db, c).1)
  {
    if StoredReply(db.records, ScopeOf(c), l.request(RequestOf(c))) == Ok(None) {
      FreshFiles(l, db, c);
    } else {
      ReplayFiles(l, db, c);
    }
  }

  lemma ReplayFiles(l: Library, db: TaxDb, c: Call)
    requires Accepted(c) && StoredReply(db.records, ScopeOf(c), l.request(RequestOf(c))) != Ok(None)
    ensures Files(db, ScopeOf(c), Perform(l, db, c).0, Perform(l, db, c).1)
  {
    if Perform(l, db, c).1.Ok? { UsedKeyIdle(l, db, c); }
  }

  lemma UsedKeyIdle(l: Library, db: TaxDb, c: Call)
    requires Accepted(c) && ScopeOf(c).Some? && ScopeOf(c).value in Scopes(db)
    ensures Perform(l, db, c).0 == db && Scopes(db) == Scopes(db) + {ScopeOf(c).value}
  {}

  /** A call changes nothing if it raises or its key is taken, and takes its key if it succeeds. */
  lemma ServedSpec(l: Library, db: TaxDb, c: Call)
    ensures var step := Served(l, db, c);
      && (step.response.None? ==> step.after == db)
      && (ScopeOf(c).Some? && ScopeOf(c).value in Scopes(db) ==> step.after == db)
      && Scopes(step.after) == Scopes(db) + if step.response.Some? && ScopeOf(c).Some? then {ScopeOf(c).value} else {}
  {
    if Accepted(c) {
      PerformFiles(l, db, c);
      if ScopeOf(c).Some? && ScopeOf(c).value in Scopes(db) { UsedKeyIdle(l, db, c); }
    }
  }

  lemma TaxIsKeyed(l: Library)
    ensures Keyed(TaxService(l), ScopeOf, Scopes)
  {
    forall db, c
      ensures TaxService(l)(db, c).response.None? ==> TaxService(l)(db, c).after == db
      ensures ScopeOf(c).Some? && ScopeOf(c).value in Scopes(db) ==> TaxService(l)(db, c).after == db
      ensures Scopes(TaxService(l)(db, c).after) ==
        Scopes(db) + if TaxService(l)(db, c).response.Some? && ScopeOf(c).Some? then {ScopeOf(c).value} else {}
    {
      ServedSpec(l, db, c);
    }
  }

  /** Retry erasure: any calls leave the same state as only the first success of each key does. */
  lemma RetryErasure(l: Library, db: TaxDb, calls: seq<Call>)
    ensures var kept := Kept(TaxService(l), ScopeOf, Scopes, db, calls, |calls|);
      After(TaxService(l), db, kept, |kept|) == After(TaxService(l), db, calls, |calls|)
  {
    TaxIsKeyed(l);
    Erasure(TaxService(l), ScopeOf, Scopes, db, calls, |calls|);
  }

  // ----- repeats

  predicate KeepsRecords(before: map<Scope, IdempotencyRecord>, after: map<Scope, IdempotencyRecord>) {
    forall k | k in before :: k in after && after[k] == before[k]
  }

  predicate Recorded(records: map<Scope, IdempotencyRecord>, scope: Scope, requestHash: string, reply: Reply) {
    scope in records && records[scope] == IdempotencyRecord(requestHash, reply)
  }

  /** A fresh call files its reply under its key and leaves the other records alone. */
  lemma FreshRecords(l: Library, db: TaxDb, c: Call)
    requires Accepted(c) && Fresh(l, db, c).1.Ok?
    ensures Fresh(l, db, c).0.records
      == StoreReply(db.records, ScopeOf(c), l.request(RequestOf(c)), Fresh(l, db, c).1.value)
  {}

  lemma StoredReplies(records: map<Scope, IdempotencyRecord>, scope: Scope, requestHash: string, reply: Reply)
    ensures scope !in records ==> KeepsRecords(records, StoreReply(records, Some(scope), requestHash, reply))
    ensures Recorded(StoreReply(records, Some(scope), requestHash, reply), scope, requestHash, reply)
  {}

  lemma PerformRecords(l: Library, db: TaxDb, c: Call)
    requires Accepted(c)
    ensures KeepsRecords(db.records, Perform(l, db, c).0.records)
    ensures ScopeOf(c).Some? && Perform(l, db, c).1.Ok? ==>
      Recorded(Perform(l, db, c).0.records, ScopeOf(c).value, l.request(RequestOf(c)), Perform(l, db, c).1.value)
  {
    var stored := StoredReply(db.records, ScopeOf(c), l.request(RequestOf(c)));
    if stored == Ok(None) {
      FreshFiles(l, db, c);
      if Fresh(l, db, c).1.Ok? {
        FreshRecords(l, db, c);
        if ScopeOf(c).Some? {
          StoredReplies(db.records, ScopeOf(c).value, l.request(RequestOf(c)), Fresh(l, db, c).1.value);
        }
      }
    }
  }

  lemma {:induction false} RecordsStay(l: Library, db: TaxDb, calls: seq<Call>, m: nat, n: nat)
    requires m <= n <= |calls|
    ensures KeepsRecords(After(TaxService(l), db, calls, m).records, After(TaxService(l), db, calls, n).records)
  {
    if m < n {
      RecordsStay(l, db, calls, m, n - 1);
      if Accepted(calls[n - 1]) { PerformRecords(l, After(TaxService(l), db, calls, n - 1), calls[n - 1]); }
    }
  }

  /** The call leaves the database alone; it gets the reply if its request has that hash, and
      otherwise raises. */
  predicate Answered(l: Library, db: TaxDb, c: Call, requestHash: string, reply: Reply) {
    Served(l, db, c) == Step(db, if Accepted(c) && l.request(RequestOf(c)) == requestHash then Some(reply) else None)
  }

  lemma UsedKey(l: Library, db: TaxDb, c: Call, requestHash: string, reply: Reply)
    requires ScopeOf(c).Some? && GoodKey(ScopeOf(c).value.key)
    requires Recorded(db.records, ScopeOf(c).value, requestHash, reply)
    ensures Answered(l, db, c, requestHash, reply)
    ensures Accepted(c) && l.request(RequestOf(c)) != requestHash ==> Perform(l, db, c).1 == Err(KeyReused)
  {}

  lemma SuccessIsRecorded(l: Library, db: TaxDb, c: Call)
    requires ScopeOf(c).Some? && Served(l, db, c).response.Some?
    ensures GoodKey(ScopeOf(c).value.key)
    ensures Recorded(Served(l, db, c).after.records, ScopeOf(c).value, l.request(RequestOf(c)),
                     Served(l, db, c).response.value)
  {
    PerformRecords(l, db, c);
  }

  lemma StillRecorded(before: map<Scope, IdempotencyRecord>, after: map<Scope, IdempotencyRecord>, scope: Scope,
                      requestHash: string, reply: Reply)
    requires KeepsRecords(before, after) && Recorded(before, scope, requestHash, reply)
    ensures Recorded(after, scope, requestHash, reply)
  {}

  /** What a successful call under a key leaves for later: its request hash and its reply. */
  predicate Filed(l: Library, db: TaxDb, c: Call, reply: Reply)
    requires ScopeOf(c).Some?
  {
    Recorded(db.records, ScopeOf(c).value, l.request(RequestOf(c)), reply)
  }

  lemma FiledNext(l: Library, db: TaxDb, calls: seq<Call>, i: nat)
    requires i < |calls| && ScopeOf(calls[i]).Some? && ResponseAt(TaxService(l), db, calls, i).Some?
    ensures GoodKey(ScopeOf(calls[i]).value.key)
    ensures Filed(l, After(TaxService(l), db, calls, i + 1), calls[i], ResponseAt(TaxService(l), db, calls, i).value)
  {
    SuccessIsRecorded(l, After(TaxService(l), db, calls, i), calls[i]);
  }

  lemma FiledLater(l: Library, db: TaxDb, calls: seq<Call>, i: nat, j: nat, reply: Reply)
    requires i < j <= |calls| && ScopeOf(calls[i]).Some?
    requires Filed(l, After(TaxService(l), db, calls, i + 1), calls[i], reply)
    ensures Filed(l, After(TaxService(l), db, calls, j), calls[i], reply)
  {
    RecordsStay(l, db, calls, i + 1, j);
    StillRecorded(After(TaxService(l), db, calls, i + 1).records, After(TaxService(l), db, calls, j).records,
                  ScopeOf(calls[i]).value, l.request(RequestOf(calls[i])), reply);
  }

  /** Once a call has succeeded under a key, every later call with that key leaves the database as
      it is; it returns the first reply if its request hashes alike, and raises otherwise. */
  lemma Repeats(l: Library, db: TaxDb, calls: seq<Call>, i: nat, j: nat)
    requires i < j < |calls| && ScopeOf(calls[i]).Some? && ScopeOf(calls[j]) == ScopeOf(calls[i])
    requires ResponseAt(TaxService(l), db, calls, i).Some?
    ensures Answered(l, After(TaxService(l), db, calls, j), calls[j], l.request(RequestOf(calls[i])),
                     ResponseAt(TaxService(l), db, calls, i).value)
  {
    FiledNext(l, db, calls, i);
    FiledLater(l, db, calls, i, j, ResponseAt(TaxService(l), db, calls, i).value);
    UsedKey(l, After(TaxService(l), db, calls, j), calls[j], l.request(RequestOf(calls[i])),
            ResponseAt(TaxService(l), db, calls, i).value);
  }
}
