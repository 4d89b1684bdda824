/** What any sequence of calls of the tax service leaves behind: exact findings and verifying chains. */
module TaxHistory {
  import opened HashChain
  import opened Tables
  import opened AuditCore
  import opened TaxRules
  import opened RuleRun
  import opened TaxFlow
  import opened StoredRuns
  import opened Retry

  // ----- the stored rows

  /** The rows are numbered in the order of their insertion, and every run has its findings. */
  ghost predicate TablesOk(find: Finder, rows: seq<TaxRow>, runs: map<string, TaxRun>, findings: seq<StoredFinding>) {
    Numbered(rows) && AllRecorded(find, rows, runs, findings) && AllFiled(runs, findings)
  }

  lemma IngestTables(l: Library, db: TaxDb, c: Call)
    requires c.Ingest? && TablesOk(FinderOf(l), db.transactions, db.runs, db.findings)
    ensures var db' := IngestNew(l, db, c).0; TablesOk(FinderOf(l), db'.transactions, db'.runs, db'.findings)
  {
    NumberedMore(l, db.transactions, c);
    RowsAdded(FinderOf(l), db.transactions, Inserted(l, c, |db.transactions|), db.runs, db.findings);
  }

  lemma RunTables(l: Library, db: TaxDb, c: Call, found: seq<Finding>)
    requires c.RunRules? && Accepted(c) && c.runId !in db.runs
    requires TablesOk(FinderOf(l), db.transactions, db.runs, db.findings)
    requires RunFindings(l, db.transactions, c.tenant, EffectivePack(c.rulePack).rules.value) == Ok(found)
    ensures var db' := RunNew(l, db, c, found).0; TablesOk(FinderOf(l), db'.transactions, db'.runs, db'.findings)
  {
    var run := RunNew(l, db, c, found).0.runs[c.runId];
    assert db.transactions[..|db.transactions|] == db.transactions;
    RunAdded(FinderOf(l), db.transactions, db.runs, db.findings, c.runId, run, found, c.tenant);
    RunFiled(db.runs, db.findings, c.runId, run, found);
  }

  lemma FreshTables(l: Library, db: TaxDb, c: Call)
    requires Accepted(c) && Fresh(l, db, c).1.Ok? && TablesOk(FinderOf(l), db.transactions, db.runs, db.findings)
    ensures var db' := Fresh(l, db, c).0; TablesOk(FinderOf(l), db'.transactions, db'.runs, db'.findings)
  {
    if c.Ingest? {
      IngestTables(l, db, c);
    } else {
      RunTables(l, db, c, RunFindings(l, db.transactions, c.tenant, EffectivePack(c.rulePack).rules.value).value);
    }
  }

  /** What a fresh call does to the audit chain: one append for the caller's tenant. */
  lemma FreshAudit(l: Library, db: TaxDb, c: Call) returns (content: AuditContent)
    requires Accepted(c) && Fresh(l, db, c).1.Ok?
    ensures content.tenantId == c.tenant
    ensures Fresh(l, db, c).0.core == AppendAudit(l.audit, db.core, content, c.createdAt)
  {
    if c.Ingest? {
      content := AuditContent(c.tenant, "taxflow", "BATCH_INGESTED", c.batchId, c.occurredAt, IngestPayload(|c.rows|));
    } else {
      var found := RunFindings(l, db.transactions, c.tenant, EffectivePack(c.rulePack).rules.value).value;
      content := AuditContent(c.tenant, "taxflow", "RULE_RUN_COMPLETED", c.runId, c.occurredAt,
                              RunPayload(RunReply(l, db, c, found)));
    }
  }

  // ----- the audit chains

  function CallsOf(calls: seq<Call>, tenant: string): nat {
    if calls == [] then 0 else
      CallsOf(calls[..|calls| - 1], tenant) + if calls[|calls| - 1].tenant == tenant then 1 else 0
  }

  lemma CallsOfMore(calls: seq<Call>, c: Call, tenant: string)
    ensures CallsOf(calls + [c], tenant) == CallsOf(calls, tenant) + if c.tenant == tenant then 1 else 0
  {
    assert (calls + [c])[..|calls|] == calls;
  }

  /** A call that is the first success of its key took the fresh path. */
  lemma FirstIsFresh(l: Library, calls: seq<Call>, i: nat)
    requires i < |calls| && FirstSuccess(TaxService(l), ScopeOf, Scopes, Empty, calls, i)
    ensures var before := After(TaxService(l), Empty, calls, i);
      && Accepted(calls[i]) && Fresh(l, before, calls[i]).1.Ok?
      && After(TaxService(l), Empty, calls, i + 1) == Fresh(l, before, calls[i]).0
  {
    TaxIsKeyed(l);
    var before := After(TaxService(l), Empty, calls, i);
    if ScopeOf(calls[i]).Some? {
      UsedExactly(TaxService(l), ScopeOf, Scopes, Empty, calls, i, ScopeOf(calls[i]).value);
    }
    FreshPath(l, before, calls[i]);
  }

  lemma FreshPath(l: Library, db: TaxDb, c: Call)
    requires Served(l, db, c).response.Some? && (ScopeOf(c).Some? ==> ScopeOf(c).value !in db.records)
    ensures Accepted(c) && Fresh(l, db, c).1.Ok? && Served(l, db, c).after == Fresh(l, db, c).0
  {
    assert StoredReply(db.records, ScopeOf(c), l.request(RequestOf(c))).Ok?;
    assert Perform(l, db, c) == Fresh(l, db, c);
  }

  /** The state of the runs and of the chains after n calls. */
  ghost predicate Sound(l: Library, db: TaxDb, kept: seq<Call>) {
    && TablesOk(FinderOf(l), db.transactions, db.runs, db.findings)
    && ChainsOk(l.audit, db.core)
    && forall tenant :: |ChainOf(db.core.audit, tenant)| == CallsOf(kept, tenant)
  }

  lemma SoundStep(l: Library, db: TaxDb, kept: seq<Call>, c: Call)
    requires HexDigest(l.audit) && Sound(l, db, kept) && Accepted(c) && Fresh(l, db, c).1.Ok?
    ensures Sound(l, Fresh(l, db, c).0, kept + [c])
  {
    FreshTables(l, db, c);
    var content := FreshAudit(l, db, c);
    OneRowMore(l.audit, db.core, kept, c, content, Fresh(l, db, c).0.core);
  }

  lemma OneRowMore(h: Hash, core: Core, kept: seq<Call>, c: Call, content: AuditContent, core': Core)
    requires HexDigest(h) && ChainsOk(h, core)
    requires (forall tenant :: |ChainOf(core.audit, tenant)| == CallsOf(kept, tenant))
    requires content.tenantId == c.tenant && core' == AppendAudit(h, core, content, c.createdAt)
    ensures ChainsOk(h, core') && forall tenant :: |ChainOf(core'.audit, tenant)| == CallsOf(kept + [c], tenant)
  {
    AppendKeepsChains(h, core, content, c.createdAt);
    forall tenant ensures |ChainOf(core'.audit, tenant)| == CallsOf(kept + [c], tenant) {
      CallsOfMore(kept, c, tenant);
      assert Longer(core, core', tenant, c.tenant);
    }
  }

  lemma EmptySound(l: Library)
    ensures Sound(l, Empty, [])
  {
    forall r: string ensures RunRecorded(FinderOf(l), Empty.transactions, Empty.runs, Empty.findings, r) {}
    forall tenant ensures ChainOf(Empty.core.audit, tenant) == [] {
      assert TenantIdSet(Empty.core.audit, tenant) == {};
    }
  }

  /** After any calls: every run has exactly the findings of its pack in the rows it saw, every
      tenant's chain verifies, and it has one row for each kept call of the tenant; repeats and
      refused calls leave no row. */
  lemma AlwaysSound(l: Library, calls: seq<Call>, n: nat)
    requires HexDigest(l.audit) && n <= |calls|
    ensures Sound(l, After(TaxService(l), Empty, calls, n), Kept(TaxService(l), ScopeOf, Scopes, Empty, calls, n))
  {
    var p := (db: TaxDb, kept: seq<Call>) => Sound(l, db, kept);
    TaxIsKeyed(l);
    EmptySound(l);
    forall i: nat | i < |calls| ensures KeepsAt(TaxService(l), ScopeOf, Scopes, Empty, calls, p, i) {
      var before, kept := After(TaxService(l), Empty, calls, i), Kept(TaxService(l), ScopeOf, Scopes, Empty, calls, i);
      if FirstSuccess(TaxService(l), ScopeOf, Scopes, Empty, calls, i) && p(before, kept) {
        KeptStep(l, calls, i, before, kept);
      }
    }
    KeptInduction(TaxService(l), ScopeOf, Scopes, Empty, calls, p, n);
  }

  lemma KeptStep(l: Library, calls: seq<Call>, i: nat, before: TaxDb, kept: seq<Call>)
    requires HexDigest(l.audit) && i < |calls| && FirstSuccess(TaxService(l), ScopeOf, Scopes, Empty, calls, i)
    requires before == After(TaxService(l), Empty, calls, i) && Sound(l, before, kept)
    ensures Sound(l, After(TaxService(l), Empty, calls, i + 1), kept + [calls[i]])
  {
    FirstIsFresh(l, calls, i);
    SoundStep(l, before, kept, calls[i]);
  }

  // ----- what the findings table holds

  /** The stored findings of a run are exactly the matching pairs of a rule of its pack and one of the
      rows that its tenant had when it ran, each once, rows first; it counts those rows and findings.
      Every finding names a row of the run's tenant and is stored under that tenant. */
  lemma StoredFindingsExactly(l: Library, calls: seq<Call>, n: nat, r: string)
    returns (k: nat, places: seq<nat>, at: seq<Place>)
    requires HexDigest(l.audit) && n <= |calls| && r in After(TaxService(l), Empty, calls, n).runs
    ensures var db := After(TaxService(l), Empty, calls, n); var run, found := db.runs[r], FindingsOf(db.findings, r);
      && Exact(l, db.transactions, k, run, places, at, found)
      && run.transactionCount == |set i: nat | i < k && db.transactions[i].tenantId == run.tenant|
      && (forall m | 0 <= m < |found| :: NamesRowOf(db.transactions, k, run.tenant, found[m]))
      && (forall i | 0 <= i < |db.findings| && db.findings[i].runId == r :: db.findings[i].tenant == run.tenant)
  {
    AlwaysSound(l, calls, n);
    var db := After(TaxService(l), Empty, calls, n);
    k, places, at := RecordedIsExact(l, db.transactions, db.runs, db.findings, r);
  }

  lemma RecordedIsExact(l: Library, rows: seq<TaxRow>, runs: map<string, TaxRun>, findings: seq<StoredFinding>,
                        r: string)
    returns (k: nat, places: seq<nat>, at: seq<Place>)
    requires TablesOk(FinderOf(l), rows, runs, findings) && r in runs
    ensures var found := FindingsOf(findings, r);
      && Exact(l, rows, k, runs[r], places, at, found)
      && runs[r].transactionCount == |TenantPlaces(rows, k, runs[r].tenant)|
      && (forall m | 0 <= m < |found| :: NamesRowOf(rows, k, runs[r].tenant, found[m]))
      && (forall i | 0 <= i < |findings| && findings[i].runId == r :: findings[i].tenant == runs[r].tenant)
  {
    assert RunRecorded(FinderOf(l), rows, runs, findings, r);
    var found := FindingsOf(findings, r);
    k :| ShownAt(FinderOf(l), rows, k, runs[r], found);
    places, at := ShownIsExact(l, rows, k, runs[r], found);
    forall m | 0 <= m < |found| ensures NamesRowOf(rows, k, runs[r].tenant, found[m]) {
      ExactNamesRows(l, rows, k, runs[r], places, at, found, m);
    }
  }

  /** So no stored run reports a transaction twice under one rule code. */
  lemma StoredNeverTwice(l: Library, calls: seq<Call>, n: nat, r: string, i: nat, j: nat)
    requires HexDigest(l.audit) && n <= |calls| && r in After(TaxService(l), Empty, calls, n).runs
    requires i < j < |FindingsOf(After(TaxService(l), Empty, calls, n).findings, r)|
    ensures var found := FindingsOf(After(TaxService(l), Empty, calls, n).findings, r);
      found[i].transactionId != found[j].transactionId || found[i].ruleCode != found[j].ruleCode
  {
    var db := After(TaxService(l), Empty, calls, n);
    var k, places, at := StoredFindingsExactly(l, calls, n, r);
    ExactNeverTwice(l, db.transactions, k, db.runs[r], places, at, FindingsOf(db.findings, r), i, j);
  }
}
