/** One rule run over one table state (taxflow.run_rules, _evaluate_row): which findings it yields. */
module RuleRun {
  import opened Ordering
  import opened Decimals
  import opened TaxRules
  import opened VatCheck

  datatype Finding = Finding( transactionId: nat, invoiceId: string, ruleCode: string, severity: string,
                             explanation: string, sourceHash: string, invoiceDate: string, evidence: Evidence)

  /** What each rule says of each row. */
  type Verdicts = (Rule, TaxRow) -> Result<(bool, Evidence)>

  function VerdictsIn(ctx: Context): Verdicts {
    (rule: Rule, row: TaxRow) => Evaluate(rule.operator, ColumnsOf(row), ctx)
  }

  predicate Matches(v: Verdicts, rule: Rule, row: TaxRow) { v(rule, row).Ok? && v(rule, row).value.0 }

  function FindingFor(v: Verdicts, rule: Rule, row: TaxRow): Finding
    requires v(rule, row).Ok?
  {
    Finding(row.id, row.invoiceId, rule.code, rule.severity, rule.message, row.sourceHash, row.invoiceDate,
            v(rule, row).value.1)
  }

  /** The findings of the first n rules on one row. */
  function RowFindings(v: Verdicts, rules: seq<Rule>, n: nat, row: TaxRow): Result<seq<Finding>>
    requires n <= |rules|
  {
    if n == 0 then Ok([]) else
      var before, verdict := RowFindings(v, rules, n - 1, row), v(rules[n - 1], row);
      if before.Err? then before
      else if verdict.Err? then Err(verdict.error)
      else if verdict.value.0 then Ok(before.value + [FindingFor(v, rules[n - 1], row)]) else before
  }

  /** The findings of the first n rows. */
  function Findings(v: Verdicts, rows: seq<TaxRow>, n: nat, rules: seq<Rule>): Result<seq<Finding>>
    requires n <= |rows|
  {
    if n == 0 then Ok([]) else
      var before, more := Findings(v, rows, n - 1, rules), RowFindings(v, rules, |rules|, rows[n - 1]);
      if before.Err? then before else if more.Err? then more else Ok(before.value + more.value)
  }

  lemma {:induction false} RowStaysErr(v: Verdicts, rules: seq<Rule>, n: nat, row: TaxRow)
    requires n <= |rules| && RowFindings(v, rules, n, row).Err?
    ensures RowFindings(v, rules, |rules|, row) == RowFindings(v, rules, n, row)
    decreases |rules| - n
  {
    if n < |rules| { RowStaysErr(v, rules, n + 1, row); }
  }

  lemma {:induction false} RunStaysErr(v: Verdicts, rows: seq<TaxRow>, n: nat, rules: seq<Rule>)
    requires n <= |rows| && Findings(v, rows, n, rules).Err?
    ensures Findings(v, rows, |rows|, rules) == Findings(v, rows, n, rules)
    decreases |rows| - n
  {
    if n < |rows| { RunStaysErr(v, rows, n + 1, rules); }
  }

  /** The result so far with one more rule's verdict. */
  function Extended(before: seq<Finding>, rule: Rule, row: TaxRow,
                    verdict: Result<(bool, Evidence)>): Result<seq<Finding>>
  {
    if verdict.Err? then Err(verdict.error)
    else if verdict.value.0 then
      Ok(before + [Finding(row.id, row.invoiceId, rule.code, rule.severity, rule.message, row.sourceHash,
                           row.invoiceDate, verdict.value.1)])
    else Ok(before)
  }

  lemma RowStep(v: Verdicts, rules: seq<Rule>, n: nat, row: TaxRow, before: seq<Finding>,
                verdict: Result<(bool, Evidence)>)
    requires n < |rules| && RowFindings(v, rules, n, row) == Ok(before) && verdict == v(rules[n], row)
    ensures RowFindings(v, rules, n + 1, row) == Extended(before, rules[n], row, verdict)
    ensures verdict.Err? ==> RowFindings(v, rules, |rules|, row) == Extended(before, rules[n], row, verdict)
  {
    if verdict.Err? { RowStaysErr(v, rules, n + 1, row); }
  }

  method RuleVerdict(rule: Rule, row: TaxRow, ctx: Context) returns (verdict: Result<(bool, Evidence)>)
    ensures verdict == VerdictsIn(ctx)(rule, row)
  {
    verdict := EvaluateRule(rule, row, ctx);
  }

  /** _evaluate_row: every rule on one row. */
  method EvaluateRow(row: TaxRow, rules: seq<Rule>, ctx: Context) returns (r: Result<seq<Finding>>)
    ensures r == RowFindings(VerdictsIn(ctx), rules, |rules|, row)
  {
    ghost var v := VerdictsIn(ctx);
    r := Ok([]);
    for n := 0 to |rules|
      invariant r.Ok? && r == RowFindings(v, rules, n, row)
    {
      var verdict := RuleVerdict(rules[n], row, ctx);
      RowStep(v, rules, n, row, r.value, verdict);
      r := Extended(r.value, rules[n], row, verdict);
      if r.Err? { return; }
    }
  }

  function Joined(before: seq<Finding>, more: Result<seq<Finding>>): Result<seq<Finding>> {
    if more.Err? then more else Ok(before + more.value)
  }

  lemma RunStep(v: Verdicts, rows: seq<TaxRow>, n: nat, rules: seq<Rule>, before: seq<Finding>,
                more: Result<seq<Finding>>)
    requires n < |rows| && Findings(v, rows, n, rules) == Ok(before) && more == RowFindings(v, rules, |rules|, rows[n])
    ensures Findings(v, rows, n + 1, rules) == Joined(before, more)
    ensures more.Err? ==> Findings(v, rows, |rows|, rules) == Joined(before, more)
  {
    if more.Err? { RunStaysErr(v, rows, n + 1, rules); }
  }

  /** The loop of run_rules over the tenant's rows. */
  method EvaluateRows(rows: seq<TaxRow>, rules: seq<Rule>, ctx: Context) returns (r: Result<seq<Finding>>)
    ensures r == Findings(VerdictsIn(ctx), rows, |rows|, rules)
  {
    ghost var v := VerdictsIn(ctx);
    r := Ok([]);
    for n := 0 to |rows|
      invariant r.Ok? && r == Findings(v, rows, n, rules)
    {
      var more := EvaluateRow(rows[n], rules, ctx);
      RunStep(v, rows, n, rules, r.value, more);
      r := Joined(r.value, more);
      if r.Err? { return; }
    }
  }

  // ----- the findings are exactly the matching pairs

  /** A row and a rule, by their positions. */
  datatype Place = Place(row: nat, rule: nat)

  predicate Before(p: Place, q: Place) { p.row < q.row || (p.row == q.row && p.rule < q.rule) }

  predicate InOrder(at: seq<Place>) { forall k, l | 0 <= k < l < |at| :: Before(at[k], at[l]) }

  /** The finding is the one of the rule at that place, which matches the row at that place. */
  predicate FoundAt(v: Verdicts, rows: seq<TaxRow>, rules: seq<Rule>, p: Place, finding: Finding) {
    && p.row < |rows| && p.rule < |rules| && Matches(v, rules[p.rule], rows[p.row])
    && var row, rule := rows[p.row], rules[p.rule];
       && finding.transactionId == row.id && finding.invoiceId == row.invoiceId
       && finding.sourceHash == row.sourceHash && finding.invoiceDate == row.invoiceDate
       && finding.ruleCode == rule.code && finding.severity == rule.severity && finding.explanation == rule.message
       && finding.evidence == v(rule, row).value.1
  }

  lemma OrderConcat(a: seq<Place>, b: seq<Place>)
    requires InOrder(a) && InOrder(b)
    requires forall p, q | p in a && q in b :: Before(p, q)
    ensures InOrder(a + b)
  {
    forall k, l | 0 <= k < l < |a + b| ensures Before((a + b)[k], (a + b)[l]) {
      if k < |a| && |a| <= l { assert a[k] in a && b[l - |a|] in b; }
    }
  }

  /** at lists, in order, the places among the first n rules of row i that match. */
  ghost predicate RowPlaces(v: Verdicts, rows: seq<TaxRow>, rules: seq<Rule>, i: nat, n: nat, at: seq<Place>,
                            found: seq<Finding>)
    requires i < |rows| && n <= |rules|
  {
    && |at| == |found| && InOrder(at)
    && (forall k | 0 <= k < |at| :: at[k].row == i && at[k].rule < n && FoundAt(v, rows, rules, at[k], found[k]))
    && (forall j: nat | j < n && Matches(v, rules[j], rows[i]) :: Place(i, j) in at)
  }

  lemma {:induction false} RowExactly(v: Verdicts, rows: seq<TaxRow>, rules: seq<Rule>, i: nat, n: nat)
    returns (at: seq<Place>)
    requires i < |rows| && n <= |rules| && RowFindings(v, rules, n, rows[i]).Ok?
    ensures RowPlaces(v, rows, rules, i, n, at, RowFindings(v, rules, n, rows[i]).value)
  {
    if n == 0 {
      at := [];
    } else {
      at := RowExactly(v, rows, rules, i, n - 1);
      if Matches(v, rules[n - 1], rows[i]) {
        RowPlacesMore(v, rows, rules, i, n - 1, at, RowFindings(v, rules, n - 1, rows[i]).value);
        at := at + [Place(i, n - 1)];
      }
    }
  }

  lemma RowPlacesMore(v: Verdicts, rows: seq<TaxRow>, rules: seq<Rule>, i: nat, n: nat, at: seq<Place>,
                      found: seq<Finding>)
    requires i < |rows| && n < |rules| && RowPlaces(v, rows, rules, i, n, at, found) && Matches(v, rules[n], rows[i])
    ensures RowPlaces(v, rows, rules, i, n + 1, at + [Place(i, n)], found + [FindingFor(v, rules[n], rows[i])])
  {
    OrderConcat(at, [Place(i, n)]);
    forall j: nat | j < n + 1 && Matches(v, rules[j], rows[i]) ensures Place(i, j) in at + [Place(i, n)] {
      if j < n { assert Place(i, j) in at; }
    }
  }

  /** at lists, in row-then-rule order, the places among the first n rows that match. */
  ghost predicate Places(v: Verdicts, rows: seq<TaxRow>, rules: seq<Rule>, n: nat, at: seq<Place>, found: seq<Finding>)
    requires n <= |rows|
  {
    && InOrder(at) && AllFound(v, rows, rules, n, at, found)
    && (forall i: nat, j: nat | i < n && j < |rules| && Matches(v, rules[j], rows[i]) :: Place(i, j) in at)
  }

  /** The order of two lists of places: the second one is about a later row. */
  lemma PlacesOrder(at: seq<Place>, at': seq<Place>, n: nat)
    requires InOrder(at) && InOrder(at')
    requires (forall k | 0 <= k < |at| :: at[k].row < n) && forall k | 0 <= k < |at'| :: at'[k].row == n
    ensures InOrder(at + at')
  {
    forall p, q | p in at && q in at' ensures Before(p, q) {}
    OrderConcat(at, at');
  }

  predicate AllFound(v: Verdicts, rows: seq<TaxRow>, rules: seq<Rule>, n: nat, at: seq<Place>, found: seq<Finding>) {
    |at| == |found| && forall k | 0 <= k < |at| :: at[k].row < n && FoundAt(v, rows, rules, at[k], found[k])
  }

  lemma FoundMore(v: Verdicts, rows: seq<TaxRow>, rules: seq<Rule>, n: nat, at: seq<Place>, found: seq<Finding>,
                  at': seq<Place>, found': seq<Finding>)
    requires AllFound(v, rows, rules, n, at, found) && AllFound(v, rows, rules, n + 1, at', found')
    ensures AllFound(v, rows, rules, n + 1, at + at', found + found')
  {}

  lemma PlacesMore(v: Verdicts, rows: seq<TaxRow>, rules: seq<Rule>, n: nat, at: seq<Place>, found: seq<Finding>,
                   at': seq<Place>, found': seq<Finding>)
    requires n < |rows| && Places(v, rows, rules, n, at, found) && RowPlaces(v, rows, rules, n, |rules|, at', found')
    ensures Places(v, rows, rules, n + 1, at + at', found + found')
  {
    PlacesOrder(at, at', n);
    FoundMore(v, rows, rules, n, at, found, at', found');
    forall i: nat, j: nat | i < n + 1 && j < |rules| && Matches(v, rules[j], rows[i]) ensures Place(i, j) in at + at' {
      assert i < n ==> Place(i, j) in at;
      assert i == n ==> Place(i, j) in at';
    }
  }

  /** A run that does not raise yields exactly the findings of the matching (row, rule) pairs, each
      once, rows first and rules in their order within a row. */
  lemma {:induction false} FindingsExactly(v: Verdicts, rows: seq<TaxRow>, n: nat, rules: seq<Rule>)
    returns (at: seq<Place>)
    requires n <= |rows| && Findings(v, rows, n, rules).Ok?
    ensures Places(v, rows, rules, n, at, Findings(v, rows, n, rules).value)
  {
    if n == 0 {
      at := [];
    } else {
      at := FindingsExactly(v, rows, n - 1, rules);
      var at' := RowExactly(v, rows, rules, n - 1, |rules|);
      PlacesMore(v, rows, rules, n - 1, at, Findings(v, rows, n - 1, rules).value,
                 at', RowFindings(v, rules, |rules|, rows[n - 1]).value);
      at := at + at';
    }
  }

  predicate DistinctIds(rows: seq<TaxRow>) { forall i, j | 0 <= i < j < |rows| :: rows[i].id != rows[j].id }

  /** No transaction is reported twice under one rule code. */
  lemma NoRepeatedFinding(v: Verdicts, rows: seq<TaxRow>, rules: seq<Rule>, k: nat, l: nat)
    requires Findings(v, rows, |rows|, rules).Ok? && DistinctIds(rows) && RulesOk(rules)
    requires k < l < |Findings(v, rows, |rows|, rules).value|
    ensures var found := Findings(v, rows, |rows|, rules).value;
      found[k].transactionId != found[l].transactionId || found[k].ruleCode != found[l].ruleCode
  {
    var at := FindingsExactly(v, rows, |rows|, rules);
    var p, q := at[k], at[l];
    assert Before(p, q);
    assert FoundAt(v, rows, rules, p, Findings(v, rows, |rows|, rules).value[k]);
    assert FoundAt(v, rows, rules, q, Findings(v, rows, |rows|, rules).value[l]);
  }

  /** SELECT invoice_id ... GROUP BY invoice_id HAVING count(*) > 1. */
  function DuplicateIds(rows: seq<TaxRow>): set<string> {
    set i, j | 0 <= i < j < |rows| && rows[i].invoiceId == rows[j].invoiceId :: rows[i].invoiceId
  }

  function ReportedAs(found: seq<Finding>, code: string): set<nat> {
    set k | 0 <= k < |found| && found[k].ruleCode == code :: found[k].transactionId
  }

  /** Another row has the same invoice number. */
  predicate Shared(rows: seq<TaxRow>, i: nat)
    requires i < |rows|
  {
    exists j | 0 <= j < |rows| && j != i :: rows[j].invoiceId == rows[i].invoiceId
  }

  /** The rule flags invoice numbers that occur more than once, as the default pack does. */
  predicate FlagsDuplicates(rule: Rule) { rule.operator == InSet("invoice_id", DUPLICATES) }

  /** Under a rule against duplicates the rows of an invoice number are reported all or none: all of
      them exactly if there are two or more. */
  lemma DuplicatesAllOrNone(rows: seq<TaxRow>, rules: seq<Rule>, j: nat, ctx: Context, i: nat, found: seq<Finding>)
    requires i < |rows| && DistinctIds(rows) && ctx.duplicates == DuplicateIds(rows)
    requires RulesOk(rules) && j < |rules| && FlagsDuplicates(rules[j])
    requires Findings(VerdictsIn(ctx), rows, |rows|, rules) == Ok(found)
    ensures rows[i].id in ReportedAs(found, rules[j].code) <==> Shared(rows, i)
  {
    DuplicateFlag(rows, rules[j], ctx, i);
    ReportedIffMatches(VerdictsIn(ctx), rows, rules, i, j, found);
  }

  /** Under the default pack a row is reported as DUPLICATE_INVOICE exactly if another row has its
      invoice number. */
  lemma DefaultDuplicates(rows: seq<TaxRow>, rules: seq<Rule>, ctx: Context, i: nat, found: seq<Finding>)
    requires i < |rows| && DistinctIds(rows) && ctx.duplicates == DuplicateIds(rows) && rules == DEFAULT_RULES
    requires Findings(VerdictsIn(ctx), rows, |rows|, rules) == Ok(found)
    ensures rows[i].id in ReportedAs(found, "DUPLICATE_INVOICE") <==>
      exists j | 0 <= j < |rows| && j != i :: rows[j].invoiceId == rows[i].invoiceId
  {
    ThirdDefault(rules);
    DuplicatesUnder(rows, rules, 2, "DUPLICATE_INVOICE", ctx, i, found);
  }

  lemma ThirdDefault(rules: seq<Rule>)
    requires rules == DEFAULT_RULES
    ensures RulesOk(rules) && |rules| == 4 && rules[2].code == "DUPLICATE_INVOICE" && FlagsDuplicates(rules[2])
  {
    DefaultWellFormed();
  }

  lemma DuplicatesUnder(rows: seq<TaxRow>, rules: seq<Rule>, j: nat, code: string, ctx: Context, i: nat,
                        found: seq<Finding>)
    requires i < |rows| && DistinctIds(rows) && ctx.duplicates == DuplicateIds(rows)
    requires RulesOk(rules) && j < |rules| && FlagsDuplicates(rules[j]) && rules[j].code == code
    requires Findings(VerdictsIn(ctx), rows, |rows|, rules) == Ok(found)
    ensures rows[i].id in ReportedAs(found, code) <==>
      exists k | 0 <= k < |rows| && k != i :: rows[k].invoiceId == rows[i].invoiceId
  {
    DuplicatesAllOrNone(rows, rules, j, ctx, i, found);
  }

  /** A transaction is reported under the code of a rule exactly if that rule matches it. */
  lemma ReportedIffMatches(v: Verdicts, rows: seq<TaxRow>, rules: seq<Rule>, i: nat, j: nat, found: seq<Finding>)
    requires i < |rows| && j < |rules| && DistinctIds(rows) && RulesOk(rules)
    requires Findings(v, rows, |rows|, rules) == Ok(found)
    ensures rows[i].id in ReportedAs(found, rules[j].code) <==> Matches(v, rules[j], rows[i])
  {
    var at := FindingsExactly(v, rows, |rows|, rules);
    PlacesReport(v, rows, rules, i, j, at, found);
  }

  lemma PlacesReport(v: Verdicts, rows: seq<TaxRow>, rules: seq<Rule>, i: nat, j: nat, at: seq<Place>,
                     found: seq<Finding>)
    requires i < |rows| && j < |rules| && DistinctIds(rows) && Places(v, rows, rules, |rows|, at, found)
    requires forall k | 0 <= k < |rules| :: rules[k].code == rules[j].code ==> k == j
    ensures rows[i].id in ReportedAs(found, rules[j].code) <==> Matches(v, rules[j], rows[i])
  {
    if Matches(v, rules[j], rows[i]) {
      assert Place(i, j) in at;
      var k :| 0 <= k < |at| && at[k] == Place(i, j);
      assert FoundAt(v, rows, rules, at[k], found[k]);
    }
    if rows[i].id in ReportedAs(found, rules[j].code) {
      var k :| 0 <= k < |found| && found[k].ruleCode == rules[j].code && found[k].transactionId == rows[i].id;
      assert FoundAt(v, rows, rules, at[k], found[k]);
    }
  }

  lemma DuplicateFlag(rows: seq<TaxRow>, rule: Rule, ctx: Context, i: nat)
    requires i < |rows| && ctx.duplicates == DuplicateIds(rows) && FlagsDuplicates(rule)
    ensures Matches(VerdictsIn(ctx), rule, rows[i]) <==> Shared(rows, i)
  {
    assert ColumnsOf(rows[i])("invoice_id") == Some(Text(Some(rows[i].invoiceId)));
    if j :| 0 <= j < |rows| && j != i && rows[j].invoiceId == rows[i].invoiceId {
      var a, b := if i < j then i else j, if i < j then j else i;
      assert 0 <= a < b < |rows| && rows[a].invoiceId == rows[b].invoiceId;
      assert rows[a].invoiceId in DuplicateIds(rows);
    }
  }

  /** The default pack is well-formed, and on rows within the digit limits it never raises. */
  lemma {:induction false} DefaultPackNeverRaises(rows: seq<TaxRow>, n: nat, ctx: Context)
    requires n <= |rows| && forall i | 0 <= i < |rows| :: WithinLimits(rows[i])
    ensures WellFormed(DEFAULT_RULE_PACK) && Findings(VerdictsIn(ctx), rows, n, DEFAULT_RULES).Ok?
  {
    DefaultWellFormed();
    if n > 0 {
      DefaultPackNeverRaises(rows, n - 1, ctx);
      forall j | 0 <= j < 4 ensures VerdictsIn(ctx)(DEFAULT_RULES[j], rows[n - 1]).Ok? {
        DefaultVerdict(rows[n - 1], ctx, j);
      }
      NoneRaises(VerdictsIn(ctx), DEFAULT_RULES, 4, rows[n - 1]);
    }
  }

  lemma DefaultWellFormed()
    ensures WellFormed(DEFAULT_RULE_PACK)
  {
    forall i, j | 0 <= i < j < 4 ensures DEFAULT_RULES[i].code != DEFAULT_RULES[j].code {
      assert |"TAX_ID_REQUIRED"| == 15 && |"VAT_RECALC"| == 10 && |"DUPLICATE_INVOICE"| == 17
        && |"EXTREME_AMOUNT"| == 14;
    }
  }

  lemma {:induction false} NoneRaises(v: Verdicts, rules: seq<Rule>, n: nat, row: TaxRow)
    requires n <= |rules| && forall j | 0 <= j < |rules| :: v(rules[j], row).Ok?
    ensures RowFindings(v, rules, n, row).Ok?
  {
    if n > 0 { NoneRaises(v, rules, n - 1, row); }
  }

  lemma DefaultVerdict(row: TaxRow, ctx: Context, j: nat)
    requires WithinLimits(row) && j < 4
    ensures VerdictsIn(ctx)(DEFAULT_RULES[j], row).Ok?
  {
    DefaultColumns(row);
    EvaluateMeans(DEFAULT_RULES[j].operator, ColumnsOf(row), ctx);
    if j == 0 {
      assert AllKnown(ColumnsOf(row), ["seller_tax_id", "buyer_tax_id"], 2);
    } else if j == 1 {
      VatExact(row, ctx);
    }
  }

  lemma DefaultColumns(row: TaxRow)
    ensures KnownColumn(ColumnsOf(row), "seller_tax_id") && KnownColumn(ColumnsOf(row), "buyer_tax_id")
    ensures KnownColumn(ColumnsOf(row), "invoice_id") && ColumnsOf(row)("amount") == Some(Number(Dec(row.amount, -4)))
  {}
}
