/** What one call of the tax service stores and answers, column by column. */
module TaxCalls {
  import opened Ordering
  import opened Text
  import opened Tables
  import opened AuditCore
  import opened TaxRules
  import opened Generator
  import opened RuleRun
  import opened TaxFlow
  import opened StoredRuns
  import opened Retry

  // ----- keys and requests

  /** Two calls share a key exactly if they give the same key for the same tenant and operation. */
  lemma SameScopeIff(c: Call, d: Call)
    ensures ScopeOf(c).None? <==> c.key.None?
    ensures c.key.Some? ==>
      (ScopeOf(d) == ScopeOf(c) <==> d.key == c.key && d.tenant == c.tenant && d.Ingest? == c.Ingest?)
  {}

  /** The pack that a run applies, and the version under which it is stored. */
  predicate Applies(c: Call, pack: RulePack, version: string)
    requires c.RunRules?
  {
    && (c.rulePack.GivenPack? ==> pack == c.rulePack.pack)
    && (!c.rulePack.GivenPack? ==> pack == DEFAULT_RULE_PACK)
    && (if c.ruleVersion.Some? && c.ruleVersion.value != "" then version == c.ruleVersion.value
        else version == pack.packId + "/" + pack.version)
  }

  /** The request says what the call asks for: its rows, or its pack and version. */
  predicate Asks(c: Call, request: Request) {
    match request
    case IngestRequest(rows) => c.Ingest? && c.rows == rows
    case RunRequest(version, pack) => c.RunRules? && Applies(c, pack, version)
  }

  lemma RequestIs(c: Call, request: Request)
    ensures Asks(c, request) <==> request == RequestOf(c)
  {}

  /** A key is taken exactly if a call with it, for the same tenant and operation, has succeeded. */
  lemma KeyTakenIff(l: Library, calls: seq<Call>, n: nat, scope: Scope)
    requires n <= |calls|
    ensures scope in After(TaxService(l), Empty, calls, n).records <==>
      exists i: nat | i < n ::
        && calls[i].tenant == scope.tenant && calls[i].key == Some(scope.key)
        && (calls[i].Ingest? <==> scope.operation == TaxIngest)
        && ResponseAt(TaxService(l), Empty, calls, i).Some?
  {
    TaxIsKeyed(l);
    UsedExactly(TaxService(l), ScopeOf, Scopes, Empty, calls, n, scope);
    forall i: nat | i < n
      ensures ScopeOf(calls[i]) == Some(scope) <==>
        calls[i].tenant == scope.tenant && calls[i].key == Some(scope.key)
        && (calls[i].Ingest? <==> scope.operation == TaxIngest)
    {}
  }

  /** A key that is blank or longer than 100 characters is refused. */
  lemma BadKeyRefused(l: Library, db: TaxDb, c: Call)
    requires Accepted(c) && c.key.Some?
    requires IsBlank(c.key.value) || |c.key.value| > 100
    ensures Perform(l, db, c) == (db, Err(BadKey))
  {}

  /** A call under a key that a call of the same tenant and operation has succeeded with changes
      nothing; it gets that call's reply if what it asks for hashes alike, and otherwise raises. */
  lemma RepeatExactly(l: Library, calls: seq<Call>, i: nat, j: nat, asked: Request, asks: Request)
    requires i < j < |calls| && ResponseAt(TaxService(l), Empty, calls, i).Some?
    requires calls[i].key.Some? && calls[j].key == calls[i].key
    requires calls[j].tenant == calls[i].tenant && calls[j].Ingest? == calls[i].Ingest?
    requires Asks(calls[i], asked) && Asks(calls[j], asks)
    ensures After(TaxService(l), Empty, calls, j + 1) == After(TaxService(l), Empty, calls, j)
    ensures asks.RunRequest? && !WellFormed(asks.pack) ==> ResponseAt(TaxService(l), Empty, calls, j).None?
    ensures asks.IngestRequest? || WellFormed(asks.pack) ==>
      ResponseAt(TaxService(l), Empty, calls, j)
        == if l.request(asks) == l.request(asked) then ResponseAt(TaxService(l), Empty, calls, i) else None
  {
    SameScopeIff(calls[i], calls[j]);
    RequestIs(calls[i], asked);
    RequestIs(calls[j], asks);
    Repeats(l, Empty, calls, i, j);
  }

  // ----- what a new call stores

  /** The key of the call is fit and has not been used by its tenant for its operation. */
  predicate IsNew(db: TaxDb, c: Call) {
    c.key.Some? ==>
      && !IsBlank(c.key.value) && |c.key.value| <= 100
      && Scope(c.tenant, if c.Ingest? then TaxIngest else TaxRunRules, c.key.value) !in db.records
  }

  lemma NewIsFresh(l: Library, db: TaxDb, c: Call)
    requires Accepted(c) && IsNew(db, c)
    ensures Perform(l, db, c) == Fresh(l, db, c)
  {}

  lemma RowsInserted(l: Library, c: Call, n: nat)
    requires c.Ingest?
    ensures |Inserted(l, c, n)| == |c.rows|
    ensures forall k: nat | k < |c.rows| :: Inserted(l, c, n)[k] == RowOf(l, c, n + k, c.rows[k])
  {}

  /** The columns of the stored row of a transaction. */
  function RowOf(l: Library, c: Call, id: nat, tx: TaxTransaction): TaxRow
    requires c.Ingest?
  {
    TaxRow(id, c.tenant, tx.invoiceId, tx.sellerTaxId, tx.buyerTaxId, tx.invoiceDate, tx.amount, tx.taxRate,
           tx.taxAmount, tx.currency, l.transaction(tx), c.now)
  }

  /** ingest: the rows go in behind the stored ones, in their order and with their columns; the audit
      row counts them and the key keeps the reply. */
  lemma IngestStores(l: Library, db: TaxDb, c: Call)
    requires c.Ingest? && IsNew(db, c)
    ensures var (db', r) := Perform(l, db, c); var n := |db.transactions|;
      && r == Ok(Ingested(|c.rows|)) && db'.runs == db.runs && db'.findings == db.findings
      && |db'.transactions| == n + |c.rows| && db'.transactions[..n] == db.transactions
      && (forall k: nat | k < |c.rows| ::
            db'.transactions[n + k] == RowOf(l, c, n + k, c.rows[k]))
      && db'.core == AppendAudit(l.audit, db.core,
                       AuditContent(c.tenant, "taxflow", "BATCH_INGESTED", c.batchId, c.occurredAt,
                                    JObj(map["rows" := JInt(|c.rows|)])), c.createdAt)
      && db'.records == if c.key.None? then db.records else
           db.records[Scope(c.tenant, TaxIngest, c.key.value) :=
             IdempotencyRecord(l.request(IngestRequest(c.rows)), Ingested(|c.rows|))]
  {
    NewIsFresh(l, db, c);
    RequestIs(c, IngestRequest(c.rows));
    RowsInserted(l, c, |db.transactions|);
  }

  /** run_rules: the run sees every row that its tenant has at that moment, its findings go in behind
      the stored ones under the tenant and the run, and run, reply and audit row agree on the counts. */
  lemma RunStores(l: Library, db: TaxDb, c: Call, pack: RulePack, version: string)
    returns (places: seq<nat>, at: seq<Place>, found: seq<Finding>)
    requires c.RunRules? && Applies(c, pack, version) && WellFormed(pack) && IsNew(db, c)
    requires Numbered(db.transactions) && Perform(l, db, c).1.Ok?
    ensures var (db', r) := Perform(l, db, c); var run := TaxRun(c.tenant, version, pack, |places|, |found|);
      && Exact(l, db.transactions, |db.transactions|, run, places, at, found)
      && r == Ok(Completed(c.runId, version, |places|, |found|, l.pack(pack)))
      && c.runId !in db.runs && db'.runs == db.runs[c.runId := run] && db'.transactions == db.transactions
      && |db'.findings| == |db.findings| + |found| && db'.findings[..|db.findings|] == db.findings
      && (forall m: nat | m < |found| ::
            db'.findings[|db.findings| + m] == StoredFinding(c.tenant, c.runId, found[m]))
      && db'.core == AppendAudit(l.audit, db.core,
                       AuditContent(c.tenant, "taxflow", "RULE_RUN_COMPLETED", c.runId, c.occurredAt,
                                    JObj(map["rule_version" := JStr(version), "transactions" := JInt(|places|),
                                             "findings" := JInt(|found|), "rule_pack_hash" := JStr(l.pack(pack))])),
                       c.createdAt)
      && db'.records == if c.key.None? then db.records else
           db.records[Scope(c.tenant, TaxRunRules, c.key.value) :=
             IdempotencyRecord(l.request(RunRequest(version, pack)), r.value)]
  {
    RequestIs(c, RunRequest(version, pack));
    NewIsFresh(l, db, c);
    found := RunFindings(l, db.transactions, c.tenant, pack.rules.value).value;
    places, at := RunSees(l, db.transactions, c, pack, version, found);
    RunWrites(l, db, c, pack, version, found, |places|);
  }

  lemma RunSees(l: Library, rows: seq<TaxRow>, c: Call, pack: RulePack, version: string, found: seq<Finding>)
    returns (places: seq<nat>, at: seq<Place>)
    requires Numbered(rows) && WellFormed(pack) && RunFindings(l, rows, c.tenant, pack.rules.value) == Ok(found)
    ensures |places| == |TenantTransactions(rows, |rows|, c.tenant)|
    ensures Exact(l, rows, |rows|, TaxRun(c.tenant, version, pack, |places|, |found|), places, at, found)
  {
    var n := |rows|;
    assert rows[..n] == rows;
    var run := TaxRun(c.tenant, version, pack, |TenantTransactions(rows, n, c.tenant)|, |found|);
    assert ShownAt(FinderOf(l), rows, n, run, found);
    places, at := ShownIsExact(l, rows, n, run, found);
  }

  lemma RunWrites(l: Library, db: TaxDb, c: Call, pack: RulePack, version: string, found: seq<Finding>, n: nat)
    requires c.RunRules? && RequestOf(c) == RunRequest(version, pack) && c.runId !in db.runs && Accepted(c)
    requires n == |TenantTransactions(db.transactions, |db.transactions|, c.tenant)|
    ensures var (db', reply) := RunNew(l, db, c, found);
      && reply == Completed(c.runId, version, n, |found|, l.pack(pack))
      && db'.runs == db.runs[c.runId := TaxRun(c.tenant, version, pack, n, |found|)]
      && db'.transactions == db.transactions
      && |db'.findings| == |db.findings| + |found| && db'.findings[..|db.findings|] == db.findings
      && (forall m: nat | m < |found| ::
            db'.findings[|db.findings| + m] == StoredFinding(c.tenant, c.runId, found[m]))
      && db'.core == AppendAudit(l.audit, db.core,
                       AuditContent(c.tenant, "taxflow", "RULE_RUN_COMPLETED", c.runId, c.occurredAt,
                                    JObj(map["rule_version" := JStr(version), "transactions" := JInt(n),
                                             "findings" := JInt(|found|), "rule_pack_hash" := JStr(l.pack(pack))])),
                       c.createdAt)
      && db'.records == if c.key.None? then db.records else
           db.records[Scope(c.tenant, TaxRunRules, c.key.value) :=
             IdempotencyRecord(l.request(RunRequest(version, pack)), reply)]
  {}
}
