/** The rows of transactions, runs and findings that the tax service stores, table by table. */
module StoredRuns {
  import opened Ordering
  import opened TaxRules
  import opened RuleRun
  import opened TaxFlow

  /** What rules find in the rows of a tenant. */
  type Finder = (seq<TaxRow>, string, seq<Rule>) -> Result<seq<Finding>>

  function FinderOf(l: Library): Finder {
    (rows: seq<TaxRow>, tenant: string, rules: seq<Rule>) => RunFindings(l, rows, tenant, rules)
  }

  /** The findings of one run, in the order in which they were stored. */
  function FindingsOf(findings: seq<StoredFinding>, runId: string): seq<Finding> {
    if findings == [] then [] else
      var last := findings[|findings| - 1];
      FindingsOf(findings[..|findings| - 1], runId) + if last.runId == runId then [last.finding] else []
  }

  lemma {:induction false} FindingsConcat(a: seq<StoredFinding>, b: seq<StoredFinding>, runId: string)
    ensures FindingsOf(a + b, runId) == FindingsOf(a, runId) + FindingsOf(b, runId)
  {
    if b == [] {
      assert a + b == a;
    } else {
      assert (a + b)[..|a + b| - 1] == a + b[..|b| - 1];
      FindingsConcat(a, b[..|b| - 1], runId);
    }
  }

  lemma {:induction false} FindingsTagged(found: seq<Finding>, tenant: string, runId: string, other: string)
    ensures FindingsOf(Tagged(found, tenant, runId), other) == if other == runId then found else []
  {
    if found != [] {
      var n := |found| - 1;
      assert Tagged(found, tenant, runId)[..n] == Tagged(found[..n], tenant, runId);
      FindingsTagged(found[..n], tenant, runId, other);
    }
  }

  /** The run saw the first k rows: its findings are what its pack finds in them. */
  predicate ShownAt(find: Finder, rows: seq<TaxRow>, k: nat, run: TaxRun, found: seq<Finding>) {
    && k <= |rows| && WellFormed(run.pack)
    && find(rows[..k], run.tenant, run.pack.rules.value) == Ok(found)
    && run.transactionCount == |TenantTransactions(rows[..k], k, run.tenant)| && run.findingCount == |found|
  }

  ghost predicate RunShown(find: Finder, rows: seq<TaxRow>, run: TaxRun, found: seq<Finding>) {
    exists k: nat :: ShownAt(find, rows, k, run, found)
  }

  /** A run has its findings; without the run there is none. */
  ghost predicate RunRecorded(find: Finder, rows: seq<TaxRow>, runs: map<string, TaxRun>, findings: seq<StoredFinding>,
                              r: string)
  {
    if r in runs then RunShown(find, rows, runs[r], FindingsOf(findings, r)) else FindingsOf(findings, r) == []
  }

  ghost predicate AllRecorded(find: Finder, rows: seq<TaxRow>, runs: map<string, TaxRun>,
                              findings: seq<StoredFinding>)
  {
    forall r: string :: RunRecorded(find, rows, runs, findings, r)
  }

  lemma ShownStays(find: Finder, rows: seq<TaxRow>, more: seq<TaxRow>, run: TaxRun, found: seq<Finding>)
    requires RunShown(find, rows, run, found)
    ensures RunShown(find, rows + more, run, found)
  {
    var k: nat :| ShownAt(find, rows, k, run, found);
    assert (rows + more)[..k] == rows[..k];
    assert ShownAt(find, rows + more, k, run, found);
  }

  /** Rows that are added later do not change what a run saw. */
  lemma RowsAdded(find: Finder, rows: seq<TaxRow>, more: seq<TaxRow>, runs: map<string, TaxRun>,
                  findings: seq<StoredFinding>)
    requires AllRecorded(find, rows, runs, findings)
    ensures AllRecorded(find, rows + more, runs, findings)
  {
    forall r: string ensures RunRecorded(find, rows + more, runs, findings, r) {
      assert RunRecorded(find, rows, runs, findings, r);
      if r in runs { ShownStays(find, rows, more, runs[r], FindingsOf(findings, r)); }
    }
  }

  /** Every stored finding belongs to a stored run and stands under the tenant of that run. */
  predicate AllFiled(runs: map<string, TaxRun>, findings: seq<StoredFinding>) {
    forall i | 0 <= i < |findings| :: findings[i].runId in runs && findings[i].tenant == runs[findings[i].runId].tenant
  }

  lemma RunFiled(runs: map<string, TaxRun>, findings: seq<StoredFinding>, runId: string, run: TaxRun,
                 found: seq<Finding>)
    requires AllFiled(runs, findings) && runId !in runs
    ensures AllFiled(runs[runId := run], findings + Tagged(found, run.tenant, runId))
  {}

  lemma RunAdded(find: Finder, rows: seq<TaxRow>, runs: map<string, TaxRun>, findings: seq<StoredFinding>,
                 runId: string, run: TaxRun, found: seq<Finding>, tenant: string)
    requires AllRecorded(find, rows, runs, findings) && runId !in runs && ShownAt(find, rows, |rows|, run, found)
    ensures AllRecorded(find, rows, runs[runId := run], findings + Tagged(found, tenant, runId))
  {
    var more, runs' := Tagged(found, tenant, runId), runs[runId := run];
    var all := findings + more;
    forall r: string ensures RunRecorded(find, rows, runs', all, r) {
      assert RunRecorded(find, rows, runs, findings, r);
      FindingsAdded(findings, found, tenant, runId, r);
      if r == runId { NewShown(find, rows, run, found, FindingsOf(all, r)); }
    }
  }

  lemma NewShown(find: Finder, rows: seq<TaxRow>, run: TaxRun, found: seq<Finding>, stored: seq<Finding>)
    requires ShownAt(find, rows, |rows|, run, found) && stored == [] + found
    ensures RunShown(find, rows, run, stored)
  {
    assert stored == found;
    assert ShownAt(find, rows, |rows|, run, stored);
  }

  lemma FindingsAdded(findings: seq<StoredFinding>, found: seq<Finding>, tenant: string, runId: string, r: string)
    ensures var all := findings + Tagged(found, tenant, runId);
      FindingsOf(all, r) == if r == runId then FindingsOf(findings, r) + found else FindingsOf(findings, r)
  {
    FindingsConcat(findings, Tagged(found, tenant, runId), r);
    FindingsTagged(found, tenant, runId, r);
  }

  // ----- ids

  /** Ids are given out in order. */
  predicate Numbered(rows: seq<TaxRow>) { forall i: nat | i < |rows| :: rows[i].id == i }

  predicate Rising(rows: seq<TaxRow>, bound: nat) {
    (forall i | 0 <= i < |rows| :: rows[i].id < bound) && forall i, j | 0 <= i < j < |rows| :: rows[i].id < rows[j].id
  }

  lemma {:induction false} TenantRising(rows: seq<TaxRow>, n: nat, tenant: string)
    requires n <= |rows| && Numbered(rows)
    ensures Rising(TenantTransactions(rows, n, tenant), n)
  {
    if n > 0 { TenantRising(rows, n - 1, tenant); }
  }

  lemma TenantDistinct(rows: seq<TaxRow>, n: nat, tenant: string)
    requires n <= |rows| && Numbered(rows)
    ensures DistinctIds(TenantTransactions(rows, n, tenant))
  {
    TenantRising(rows, n, tenant);
  }

  lemma NumberedMore(l: Library, rows: seq<TaxRow>, c: Call)
    requires c.Ingest? && Numbered(rows)
    ensures Numbered(rows + Inserted(l, c, |rows|))
  {}

  // ----- what a stored run says

  /** The positions of the tenant's rows among the first k. */
  function TenantPlaces(rows: seq<TaxRow>, k: nat, tenant: string): set<nat>
    requires k <= |rows|
  {
    set i: nat | i < k && rows[i].tenantId == tenant
  }

  predicate PlacesIn(places: seq<nat>, k: nat) { forall m | 0 <= m < |places| :: places[m] < k }

  function RowsAt(rows: seq<TaxRow>, places: seq<nat>): seq<TaxRow>
    requires PlacesIn(places, |rows|)
  {
    seq(|places|, m requires 0 <= m < |places| => rows[places[m]])
  }

  /** The rows of a tenant among the first n are exactly those at its positions, once each, in order. */
  lemma {:induction false} TenantRowsExactly(rows: seq<TaxRow>, n: nat, tenant: string) returns (places: seq<nat>)
    requires n <= |rows|
    ensures Enumerates(places, TenantPlaces(rows, n, tenant)) && PlacesIn(places, n)
    ensures TenantTransactions(rows, n, tenant) == RowsAt(rows, places)
  {
    if n == 0 {
      places := [];
    } else {
      places := TenantRowsExactly(rows, n - 1, tenant);
      NextPlace(rows, n - 1, tenant);
      if rows[n - 1].tenantId == tenant {
        PlaceAdded(places, TenantPlaces(rows, n - 1, tenant), n - 1);
        RowsAtMore(rows, places, n - 1);
        places := places + [n - 1];
      }
    }
  }

  lemma NextPlace(rows: seq<TaxRow>, n: nat, tenant: string)
    requires n < |rows|
    ensures TenantPlaces(rows, n + 1, tenant)
      == TenantPlaces(rows, n, tenant) + if rows[n].tenantId == tenant then {n} else {}
  {}

  lemma RowsAtMore(rows: seq<TaxRow>, places: seq<nat>, n: nat)
    requires PlacesIn(places, |rows|) && n < |rows|
    ensures PlacesIn(places + [n], |rows|) && RowsAt(rows, places + [n]) == RowsAt(rows, places) + [rows[n]]
  {}

  lemma PlaceAdded(places: seq<nat>, s: set<nat>, n: nat)
    requires Enumerates(places, s) && PlacesIn(places, n)
    ensures Enumerates(places + [n], s + {n}) && PlacesIn(places + [n], n + 1)
  {
    forall x ensures x in places + [n] <==> x in s + {n} { assert x in places <==> x in s; }
  }

  function ContextOf(l: Library, rows: seq<TaxRow>): Context { Context(DuplicateIds(rows), l.numeral) }

  /** The run saw exactly the rows of its tenant among the first k, counts them and its findings, and
      has exactly the matching pairs of a rule of its pack and such a row, each once and in order. */
  ghost predicate Exact(l: Library, rows: seq<TaxRow>, k: nat, run: TaxRun, places: seq<nat>, at: seq<Place>,
                        found: seq<Finding>)
  {
    && k <= |rows| && WellFormed(run.pack)
    && Enumerates(places, TenantPlaces(rows, k, run.tenant)) && PlacesIn(places, k)
    && run.transactionCount == |TenantPlaces(rows, k, run.tenant)| == |places| && run.findingCount == |found|
    && var rules, seen := run.pack.rules.value, RowsAt(rows, places);
       && DistinctIds(seen)
       && Findings(VerdictsIn(ContextOf(l, seen)), seen, |seen|, rules) == Ok(found)
       && Places(VerdictsIn(ContextOf(l, seen)), seen, rules, |seen|, at, found)
  }

  /** The finding names a row of the tenant among the first k. */
  predicate NamesRowOf(rows: seq<TaxRow>, k: nat, tenant: string, finding: Finding)
    requires k <= |rows|
  {
    exists i: nat | i < k ::
      && rows[i].tenantId == tenant && finding.transactionId == rows[i].id
      && finding.invoiceId == rows[i].invoiceId && finding.sourceHash == rows[i].sourceHash
  }

  lemma ExactNamesRows(l: Library, rows: seq<TaxRow>, k: nat, run: TaxRun, places: seq<nat>, at: seq<Place>,
                       found: seq<Finding>, m: nat)
    requires Exact(l, rows, k, run, places, at, found) && m < |found|
    ensures NamesRowOf(rows, k, run.tenant, found[m])
  {
    var seen := RowsAt(rows, places);
    assert FoundAt(VerdictsIn(ContextOf(l, seen)), seen, run.pack.rules.value, at[m], found[m]);
    var i := places[at[m].row];
    assert i in places && i in TenantPlaces(rows, k, run.tenant);
  }

  lemma ShownIsExact(l: Library, rows: seq<TaxRow>, k: nat, run: TaxRun, found: seq<Finding>)
    returns (places: seq<nat>, at: seq<Place>)
    requires Numbered(rows) && ShownAt(FinderOf(l), rows, k, run, found)
    ensures Exact(l, rows, k, run, places, at, found)
  {
    places := TenantRowsExactly(rows[..k], k, run.tenant);
    assert TenantPlaces(rows[..k], k, run.tenant) == TenantPlaces(rows, k, run.tenant);
    AscendingIs(places, TenantPlaces(rows, k, run.tenant));
    var seen := RowsAt(rows, places);
    assert seen == RowsAt(rows[..k], places);
    TenantDistinct(rows[..k], k, run.tenant);
    at := FindingsExactly(VerdictsIn(ContextOf(l, seen)), seen, |seen|, run.pack.rules.value);
  }

  lemma ExactNeverTwice(l: Library, rows: seq<TaxRow>, k: nat, run: TaxRun, places: seq<nat>, at: seq<Place>,
                        found: seq<Finding>, i: nat, j: nat)
    requires Exact(l, rows, k, run, places, at, found) && i < j < |found|
    ensures found[i].transactionId != found[j].transactionId || found[i].ruleCode != found[j].ruleCode
  {
    var seen := RowsAt(rows, places);
    NoRepeatedFinding(VerdictsIn(ContextOf(l, seen)), seen, run.pack.rules.value, i, j);
  }
}
