/** The tax rule engine (tax_rules.py) and the evaluation of one table state (taxflow.py). */
module TaxRules {
  import opened Ordering
  import opened Decimals

  datatype Error =
    | BadPack | BadCode | BadOperator(code: string) | BadSeverity(code: string) | BadMessage(code: string)
    | KeyError(name: string) | InvalidOperation | UnsupportedOperator
    | BadKey | KeyReused | IntegrityError

  datatype Result<+T> = Ok(value: T) | Err(error: Error)

  /** A row of tax_transactions.  Money columns hold exact multiples of 10^-4, the rate of 10^-6. */
  datatype TaxRow = TaxRow( id: nat, tenantId: string, invoiceId: string, sellerTaxId: Option<string>,
                           buyerTaxId: Option<string>, invoiceDate: string, amount: int, taxRate: int, taxAmount: int,
                           currency: string, sourceHash: string, ingestedAt: string)

  datatype Cell = Text(text: Option<string>) | Number(number: Decimal)

  function Column(row: TaxRow, name: string): Option<Cell> {
    if name == "id" then Some(Number(Dec(row.id, 0)))
    else if name == "tenant_id" then Some(Text(Some(row.tenantId)))
    else if name == "invoice_id" then Some(Text(Some(row.invoiceId)))
    else if name == "seller_tax_id" then Some(Text(row.sellerTaxId))
    else if name == "buyer_tax_id" then Some(Text(row.buyerTaxId))
    else if name == "invoice_date" then Some(Text(Some(row.invoiceDate)))
    else if name == "amount" then Some(Number(Dec(row.amount, -4)))
    else if name == "tax_rate" then Some(Number(Dec(row.taxRate, -6)))
    else if name == "tax_amount" then Some(Number(Dec(row.taxAmount, -4)))
    else if name == "currency" then Some(Text(Some(row.currency)))
    else if name == "source_hash" then Some(Text(Some(row.sourceHash)))
    else if name == "ingested_at" then Some(Text(Some(row.ingestedAt)))
    else None
  }

  datatype Operator =
    | RequiredAll(fields: seq<string>)
    | ComputedEqual(actual: string, factors: seq<string>, tolerance: Decimal)
    | InSet(field: string, context: string)
    | Gte(amount: string, threshold: Decimal)
    | Unknown(name: string)

  datatype Rule = Rule(code: string, operator: Operator, severity: string, message: string)

  /** A missing key of a rule pack reads as "" or None. */
  datatype RulePack = RulePack(packId: string, version: string, rules: Option<seq<Rule>>)

  const SEVERITIES := {"LOW", "MEDIUM", "HIGH", "CRITICAL"}

  const DUPLICATES := "duplicate_invoice_ids"

  const TAX_ID_REQUIRED := Rule("TAX_ID_REQUIRED", RequiredAll(["seller_tax_id", "buyer_tax_id"]), "HIGH",
                                "tax id of a counterparty missing")
  const VAT_RECALC := Rule("VAT_RECALC", ComputedEqual("tax_amount", ["amount", "tax_rate"], Dec(1, -2)), "HIGH",
                           "tax differs from amount times rate")
  const DUPLICATE_INVOICE := Rule("DUPLICATE_INVOICE", InSet("invoice_id", DUPLICATES), "MEDIUM",
                                  "invoice number repeated")
  const EXTREME_AMOUNT := Rule("EXTREME_AMOUNT", Gte("amount", Dec(5000000, 0)), "MEDIUM",
                               "amount over the demonstration threshold")

  const DEFAULT_RULES := [TAX_ID_REQUIRED, VAT_RECALC, DUPLICATE_INVOICE, EXTREME_AMOUNT]

  const DEFAULT_RULE_PACK := RulePack("cn-tax-demo", "2026.08.2", Some(DEFAULT_RULES))

  // ----- validating a pack

  function Codes(rules: seq<Rule>): set<string> { set i | 0 <= i < |rules| :: rules[i].code }

  lemma CodesMore(rules: seq<Rule>, i: nat)
    requires i < |rules|
    ensures Codes(rules[..i + 1]) == Codes(rules[..i]) + {rules[i].code}
  {
    var a, b := rules[..i], rules[..i + 1];
    assert b == a + [rules[i]];
    forall c | c in Codes(a) + {rules[i].code} ensures c in Codes(b) {
      if c in Codes(a) {
        var j :| 0 <= j < i && a[j].code == c;
        assert b[j].code == c;
      } else { assert b[i].code == c; }
    }
    forall c | c in Codes(b) ensures c in Codes(a) + {rules[i].code} {
      var j :| 0 <= j < i + 1 && b[j].code == c;
      if j < i { assert a[j].code == c; }
    }
  }

  /** What is wrong with the i-th rule, given the rules before it. */
  function Fault(rules: seq<Rule>, i: nat): Option<Error>
    requires i < |rules|
  {
    var rule := rules[i];
    if rule.code == "" || rule.code in Codes(rules[..i]) then Some(BadCode)
    else if rule.operator.Unknown? then Some(BadOperator(rule.code))
    else if rule.severity !in SEVERITIES then Some(BadSeverity(rule.code))
    else if rule.message == "" then Some(BadMessage(rule.code))
    else None
  }

  predicate RulesOk(rules: seq<Rule>) {
    && (forall i | 0 <= i < |rules| ::
          rules[i].code != "" && !rules[i].operator.Unknown? && rules[i].message != ""
            && rules[i].severity in {"LOW", "MEDIUM", "HIGH", "CRITICAL"})
    && (forall i, j | 0 <= i < j < |rules| :: rules[i].code != rules[j].code)
  }

  predicate WellFormed(pack: RulePack) {
    pack.packId != "" && pack.version != "" && pack.rules.Some? && RulesOk(pack.rules.value)
  }

  lemma FaultFree(rules: seq<Rule>)
    ensures (forall i: nat | i < |rules| :: Fault(rules, i) == None) <==> RulesOk(rules)
  {
    if forall i: nat | i < |rules| :: Fault(rules, i) == None {
      forall i, j | 0 <= i < j < |rules| ensures rules[i].code != rules[j].code {
        assert Fault(rules, j) == None;
        assert rules[..j][i] == rules[i];
      }
      forall i | 0 <= i < |rules|
        ensures rules[i].code != "" && !rules[i].operator.Unknown? && rules[i].severity in SEVERITIES
        ensures rules[i].message != ""
      {
        assert Fault(rules, i) == None;
      }
    }
  }

  /** Accepts exactly the well-formed packs, and otherwise names the first fault. */
  method ValidateRulePack(pack: RulePack) returns (r: Result<()>)
    ensures r.Ok? <==> WellFormed(pack)
    ensures r == Err(BadPack) <==> pack.packId == "" || pack.version == "" || pack.rules.None?
    ensures r.Err? && r.error != BadPack ==> exists i: nat | i < |pack.rules.value| ::
      Fault(pack.rules.value, i) == Some(r.error) && forall j: nat | j < i :: Fault(pack.rules.value, j) == None
  {
    if pack.packId == "" || pack.version == "" || pack.rules.None? { return Err(BadPack); }
    var rules := pack.rules.value;
    FaultFree(rules);
    var codes: set<string> := {};
    for i := 0 to |rules|
      invariant codes == Codes(rules[..i])
      invariant forall j: nat | j < i :: Fault(rules, j) == None
    {
      var rule := rules[i];
      if rule.code == "" || rule.code in codes {
        assert Fault(rules, i) == Some(BadCode);
        return Err(BadCode);
      }
      CodesMore(rules, i);
      codes := codes + {rule.code};
      if rule.operator.Unknown? {
        assert Fault(rules, i) == Some(BadOperator(rule.code));
        return Err(BadOperator(rule.code));
      }
      if rule.severity !in SEVERITIES {
        assert Fault(rules, i) == Some(BadSeverity(rule.code));
        return Err(BadSeverity(rule.code));
      }
      if rule.message == "" {
        assert Fault(rules, i) == Some(BadMessage(rule.code));
        return Err(BadMessage(rule.code));
      }
      assert Fault(rules, i) == None;
    }
    return Ok(());
  }

  // ----- evaluating a rule

  /** The values a rule can refer to.  numeral is Decimal() on a text, None where it raises. */
  datatype Context = Context(duplicates: set<string>, numeral: string -> Option<Decimal>)

  datatype Evidence =
    | Missing(fields: seq<string>)
    | Compared(expected: Decimal, actual: Decimal)
    | Member(value: Cell)
    | Reached(actual: Decimal, threshold: Decimal)

  /** row[name], for the names that are columns. */
  type Columns = string -> Option<Cell>

  function ColumnsOf(row: TaxRow): Columns { (name: string) => Column(row, name) }

  function NumberIn(row: Columns, field: string, ctx: Context): Result<Decimal> {
    match row(field)
    case None => Err(KeyError(field))
    case Some(Number(d)) => Ok(d)
    case Some(Text(None)) => Err(InvalidOperation)
    case Some(Text(Some(text))) =>
      if ctx.numeral(text).Some? then Ok(ctx.numeral(text).value) else Err(InvalidOperation)
  }

  predicate Blank(cell: Cell) { cell == Text(None) || cell == Text(Some("")) }

  /** The fields among the first n that hold nothing. */
  function MissingFields(row: Columns, fields: seq<string>, n: nat): Result<seq<string>>
    requires n <= |fields|
  {
    if n == 0 then Ok([]) else
      var before := MissingFields(row, fields, n - 1);
      var cell := row(fields[n - 1]);
      if before.Err? then before
      else if cell.None? then Err(KeyError(fields[n - 1]))
      else if Blank(cell.value) then Ok(before.value + [fields[n - 1]]) else before
  }

  function Product(row: Columns, factors: seq<string>, n: nat, ctx: Context): Result<Decimal>
    requires n <= |factors|
  {
    if n == 0 then Ok(Dec(1, 0)) else
      var before, factor := Product(row, factors, n - 1, ctx), NumberIn(row, factors[n - 1], ctx);
      if before.Err? then before else if factor.Err? then factor else Ok(Mul(before.value, factor.value))
  }

  /** The verdict once the expected value is known. */
  function Judge(expected: Decimal, actual: Result<Decimal>, tolerance: Decimal): Result<(bool, Evidence)> {
    if !Quantizes(expected, -2) then Err(InvalidOperation)
    else if actual.Err? then Err(actual.error)
    else
      var rounded := Quantize(expected, -2);
      Ok((Less(tolerance, Absolute(Minus(rounded, actual.value))), Compared(rounded, actual.value)))
  }

  function Evaluate(operator: Operator, row: Columns, ctx: Context): Result<(bool, Evidence)> {
    match operator
    case RequiredAll(fields) =>
      var missing := MissingFields(row, fields, |fields|);
      if missing.Err? then Err(missing.error) else Ok((missing.value != [], Missing(missing.value)))
    case ComputedEqual(actual, factors, tolerance) =>
      var expected := Product(row, factors, |factors|, ctx);
      if expected.Err? then Err(expected.error) else Judge(expected.value, NumberIn(row, actual, ctx), tolerance)
    case InSet(field, context) =>
      var cell := row(field);
      if cell.None? then Err(KeyError(field))
      else if context != DUPLICATES then Err(KeyError(context))
      else Ok((cell.value.Text? && cell.value.text.Some? && cell.value.text.value in ctx.duplicates,
               Member(cell.value)))
    case Gte(field, threshold) =>
      var actual := NumberIn(row, field, ctx);
      if actual.Err? then Err(actual.error) else Ok((!Less(actual.value, threshold), Reached(actual.value, threshold)))
    case Unknown(_) => Err(UnsupportedOperator)
  }

  // ----- what the verdicts mean

  predicate KnownColumn(row: Columns, field: string) { row(field).Some? }

  /** The column exists and Decimal() takes its text. */
  predicate HasNumber(row: Columns, field: string, ctx: Context) {
    var cell := row(field);
    cell.Some? && (cell.value.Number? || (cell.value.text.Some? && ctx.numeral(cell.value.text.value).Some?))
  }

  /** What reading a number from such a column raises otherwise. */
  function NumberError(row: Columns, field: string): Error {
    if KnownColumn(row, field) then InvalidOperation else KeyError(field)
  }

  predicate AllKnown(row: Columns, fields: seq<string>, n: nat)
    requires n <= |fields|
  {
    forall i: nat | i < n :: KnownColumn(row, fields[i])
  }

  predicate AllNumbers(row: Columns, factors: seq<string>, n: nat, ctx: Context)
    requires n <= |factors|
  {
    forall i: nat | i < n :: HasNumber(row, factors[i], ctx)
  }

  predicate HoldsNothing(row: Columns, field: string) {
    row(field).Some? && (row(field).value == Text(None) || row(field).value == Text(Some("")))
  }

  /** The places of the fields that hold nothing, among the first n. */
  function EmptyPlaces(row: Columns, fields: seq<string>, n: nat): set<nat>
    requires n <= |fields|
  {
    set i: nat | i < n && HoldsNothing(row, fields[i])
  }

  predicate ListsAt(fields: seq<string>, at: seq<nat>, missing: seq<string>) {
    |missing| == |at| && forall k: nat | k < |at| :: at[k] < |fields| && missing[k] == fields[at[k]]
  }

  /** missing lists the fields at these places, in order. */
  ghost predicate FieldsAt(fields: seq<string>, places: set<nat>, missing: seq<string>) {
    exists at: seq<nat> :: Enumerates(at, places) && ListsAt(fields, at, missing)
  }

  ghost predicate FirstUnknown(row: Columns, fields: seq<string>, n: nat, error: Error)
    requires n <= |fields|
  {
    exists i: nat :: i < n && !KnownColumn(row, fields[i]) && error == KeyError(fields[i]) && AllKnown(row, fields, i)
  }

  /** The empty fields in order, or the first name that is no column. */
  ghost predicate MissingMeans(row: Columns, fields: seq<string>, n: nat, r: Result<seq<string>>)
    requires n <= |fields|
  {
    && (r.Ok? <==> AllKnown(row, fields, n))
    && (r.Ok? ==> FieldsAt(fields, EmptyPlaces(row, fields, n), r.value))
    && (r.Err? ==> FirstUnknown(row, fields, n, r.error))
  }

  /** The product without any rounding. */
  function ExactProduct(row: Columns, factors: seq<string>, n: nat, ctx: Context): Decimal
    requires n <= |factors| && AllNumbers(row, factors, n, ctx)
  {
    if n == 0 then Dec(1, 0) else
      assert HasNumber(row, factors[n - 1], ctx);
      var before, factor := ExactProduct(row, factors, n - 1, ctx), NumberIn(row, factors[n - 1], ctx).value;
      Dec(before.n * factor.n, before.exp + factor.exp)
  }

  predicate FitsAt(row: Columns, factors: seq<string>, n: nat, ctx: Context)
    requires n <= |factors| && AllNumbers(row, factors, n, ctx)
  {
    Abs(ExactProduct(row, factors, n, ctx).n) < Pow10(PRECISION)
  }

  /** No coefficient on the way has more digits than the context. */
  predicate FitsAllTheWay(row: Columns, factors: seq<string>, n: nat, ctx: Context)
    requires n <= |factors| && AllNumbers(row, factors, n, ctx)
  {
    forall m: nat | m <= n :: FitsAt(row, factors, m, ctx)
  }

  ghost predicate FirstWithoutNumber(row: Columns, factors: seq<string>, n: nat, ctx: Context, error: Error)
    requires n <= |factors|
  {
    exists i: nat :: i < n && !HasNumber(row, factors[i], ctx) && error == NumberError(row, factors[i])
      && AllNumbers(row, factors, i, ctx)
  }

  /** The product of the numbers, exact if it fits all the way, or the error of the first factor
      without one. */
  ghost predicate ProductMeans(row: Columns, factors: seq<string>, n: nat, ctx: Context, r: Result<Decimal>)
    requires n <= |factors|
  {
    && (r.Ok? <==> AllNumbers(row, factors, n, ctx))
    && (r.Ok? && FitsAllTheWay(row, factors, n, ctx) ==> r.value == ExactProduct(row, factors, n, ctx))
    && (r.Err? ==> FirstWithoutNumber(row, factors, n, ctx, r.error))
  }

  /** expected is the product to the cent, at most half a cent off. */
  predicate ToTheCent(expected: Decimal, product: Decimal) {
    expected.exp == -2 && 2.0 * AbsReal(ValueOf(expected) - ValueOf(product)) <= 0.01
  }

  /** Raises exactly if a factor or the actual value is no number, or the product is too large;
      otherwise flags exactly if the rounded product and the actual value are further apart than the
      tolerance. */
  ghost predicate ComputedEqualMeans(actual: string, factors: seq<string>, tolerance: Decimal, row: Columns,
                                     ctx: Context, product: Result<Decimal>, r: Result<(bool, Evidence)>)
  {
    && ProductMeans(row, factors, |factors|, ctx, product)
    && (r.Ok? <==> product.Ok? && Quantizes(product.value, -2) && HasNumber(row, actual, ctx))
    && (r.Ok? ==>
          && r.value.1.Compared? && ToTheCent(r.value.1.expected, product.value)
          && NumberIn(row, actual, ctx) == Ok(r.value.1.actual)
          && (DifferenceFits(r.value.1.expected, r.value.1.actual) ==>
                (r.value.0 <==> AbsReal(ValueOf(r.value.1.expected) - ValueOf(r.value.1.actual)) > ValueOf(tolerance)))
          && (r.value.0 <==> ValueOf(Absolute(Minus(r.value.1.expected, r.value.1.actual))) > ValueOf(tolerance)))
    && (r.Err? ==> r.error == if product.Err? then product.error
                              else if Quantizes(product.value, -2) then NumberError(row, actual) else InvalidOperation)
  }

  /** Raises exactly on a name that is no column; otherwise flags exactly if some field is empty, and
      lists the empty ones in order. */
  ghost predicate RequiredAllMeans(fields: seq<string>, row: Columns, r: Result<(bool, Evidence)>) {
    && (r.Ok? <==> AllKnown(row, fields, |fields|))
    && (r.Ok? ==>
          && (r.value.0 <==> exists i: nat :: i < |fields| && HoldsNothing(row, fields[i]))
          && r.value.1.Missing? && FieldsAt(fields, EmptyPlaces(row, fields, |fields|), r.value.1.fields))
    && (r.Err? ==> FirstUnknown(row, fields, |fields|, r.error))
  }

  /** Raises exactly on an unknown column or set; otherwise flags exactly the texts in the set. */
  ghost predicate InSetMeans(field: string, context: string, row: Columns, ctx: Context, r: Result<(bool, Evidence)>) {
    && (r.Ok? <==> KnownColumn(row, field) && context == DUPLICATES)
    && (r.Ok? ==>
          && r.value.1 == Member(row(field).value)
          && (r.value.0 <==> exists text :: text in ctx.duplicates && row(field) == Some(Text(Some(text)))))
    && (r.Err? ==> r.error == KeyError(if KnownColumn(row, field) then context else field))
  }

  /** Raises exactly if the column holds no number; otherwise flags exactly the values at or above the
      threshold. */
  ghost predicate GteMeans(field: string, threshold: Decimal, row: Columns, ctx: Context, r: Result<(bool, Evidence)>) {
    && (r.Ok? <==> HasNumber(row, field, ctx))
    && (r.Ok? ==>
          && r.value.1.Reached? && r.value.1.threshold == threshold && NumberIn(row, field, ctx) == Ok(r.value.1.actual)
          && (r.value.0 <==> ValueOf(r.value.1.actual) >= ValueOf(threshold)))
    && (r.Err? ==> r.error == NumberError(row, field))
  }

  /** What the result of a rule says of the row, operator by operator. */
  ghost predicate Meaning(operator: Operator, row: Columns, ctx: Context, r: Result<(bool, Evidence)>) {
    match operator
    case RequiredAll(fields) => RequiredAllMeans(fields, row, r)
    case ComputedEqual(actual, factors, tolerance) =>
      exists product :: ComputedEqualMeans(actual, factors, tolerance, row, ctx, product, r)
    case InSet(field, context) => InSetMeans(field, context, row, ctx, r)
    case Gte(field, threshold) => GteMeans(field, threshold, row, ctx, r)
    case Unknown(_) => r == Err(UnsupportedOperator)
  }

  lemma NumberMeans(row: Columns, field: string, ctx: Context)
    ensures NumberIn(row, field, ctx).Ok? <==> HasNumber(row, field, ctx)
    ensures NumberIn(row, field, ctx).Err? ==> NumberIn(row, field, ctx).error == NumberError(row, field)
  {}

  lemma PlacesGrow(row: Columns, fields: seq<string>, n: nat)
    requires n < |fields|
    ensures EmptyPlaces(row, fields, n + 1)
      == EmptyPlaces(row, fields, n) + if HoldsNothing(row, fields[n]) then {n} else {}
  {}

  lemma PlaceAdded(fields: seq<string>, before: set<nat>, n: nat, missing: seq<string>)
    requires n < |fields| && (forall i | i in before :: i < n) && FieldsAt(fields, before, missing)
    ensures FieldsAt(fields, before + {n}, missing + [fields[n]])
  {
    var at :| Enumerates(at, before) && ListsAt(fields, at, missing);
    LastEnumerated(at, before, n);
    assert ListsAt(fields, at + [n], missing + [fields[n]]);
  }

  lemma LastEnumerated(at: seq<nat>, before: set<nat>, n: nat)
    requires Enumerates(at, before) && forall i | i in before :: i < n
    ensures Enumerates(at + [n], before + {n})
  {
    assert forall k | 0 <= k < |at| :: at[k] in at;
  }

  lemma OneMorePlace(row: Columns, fields: seq<string>, n: nat, missing: seq<string>)
    requires n < |fields| && FieldsAt(fields, EmptyPlaces(row, fields, n), missing)
    ensures FieldsAt(fields, EmptyPlaces(row, fields, n + 1),
                     if HoldsNothing(row, fields[n]) then missing + [fields[n]] else missing)
  {
    PlacesGrow(row, fields, n);
    if HoldsNothing(row, fields[n]) {
      PlaceAdded(fields, EmptyPlaces(row, fields, n), n, missing);
    } else {
      assert EmptyPlaces(row, fields, n) + {} == EmptyPlaces(row, fields, n);
    }
  }

  lemma NothingMissing(row: Columns, fields: seq<string>)
    ensures MissingMeans(row, fields, 0, MissingFields(row, fields, 0))
  {
    assert Enumerates([], EmptyPlaces(row, fields, 0)) && ListsAt(fields, [], []);
  }

  lemma MissingFieldsMeans(row: Columns, fields: seq<string>, n: nat, r: Result<seq<string>>)
    requires n <= |fields| && r == MissingFields(row, fields, n)
    ensures MissingMeans(row, fields, n, r)
  {
    var m := 0;
    NothingMissing(row, fields);
    while m < n
      invariant m <= n && MissingMeans(row, fields, m, MissingFields(row, fields, m))
    {
      MissingNext(row, fields, m);
      m := m + 1;
    }
  }

  lemma MissingNext(row: Columns, fields: seq<string>, n: nat)
    requires n < |fields| && MissingMeans(row, fields, n, MissingFields(row, fields, n))
    ensures MissingMeans(row, fields, n + 1, MissingFields(row, fields, n + 1))
  {
    MissingMore(row, fields, n);
    MissingStep(row, fields, n, MissingFields(row, fields, n), MissingFields(row, fields, n + 1));
  }

  function WithField(row: Columns, before: Result<seq<string>>, field: string): Result<seq<string>> {
    if before.Err? then before
    else if row(field).None? then Err(KeyError(field))
    else if HoldsNothing(row, field) then Ok(before.value + [field]) else before
  }

  lemma MissingMore(row: Columns, fields: seq<string>, n: nat)
    requires n < |fields|
    ensures MissingFields(row, fields, n + 1) == WithField(row, MissingFields(row, fields, n), fields[n])
  {}

  lemma MissingStep(row: Columns, fields: seq<string>, n: nat, before: Result<seq<string>>, r: Result<seq<string>>)
    requires n < |fields| && MissingMeans(row, fields, n, before) && r == WithField(row, before, fields[n])
    ensures MissingMeans(row, fields, n + 1, r)
  {
    if before.Err? {
      UnknownStays(row, fields, n, before.error);
    } else if KnownColumn(row, fields[n]) {
      OneMorePlace(row, fields, n, before.value);
    }
  }

  lemma UnknownStays(row: Columns, fields: seq<string>, n: nat, error: Error)
    requires n < |fields| && FirstUnknown(row, fields, n, error)
    ensures FirstUnknown(row, fields, n + 1, error) && !AllKnown(row, fields, n + 1)
  {
    var i: nat :| i < n && !KnownColumn(row, fields[i]) && error == KeyError(fields[i]) && AllKnown(row, fields, i);
  }

  lemma ProductMeansIt(row: Columns, factors: seq<string>, n: nat, ctx: Context)
    requires n <= |factors|
    ensures ProductMeans(row, factors, n, ctx, Product(row, factors, n, ctx))
  {
    var m := 0;
    NoProduct(row, factors, ctx);
    while m < n
      invariant m <= n && ProductMeans(row, factors, m, ctx, Product(row, factors, m, ctx))
    {
      ProductNext(row, factors, m, ctx);
      m := m + 1;
    }
  }

  lemma NoProduct(row: Columns, factors: seq<string>, ctx: Context)
    ensures ProductMeans(row, factors, 0, ctx, Product(row, factors, 0, ctx))
  {}

  lemma ProductNext(row: Columns, factors: seq<string>, n: nat, ctx: Context)
    requires n < |factors| && ProductMeans(row, factors, n, ctx, Product(row, factors, n, ctx))
    ensures ProductMeans(row, factors, n + 1, ctx, Product(row, factors, n + 1, ctx))
  {
    ProductMeansStep(row, factors, n, ctx, Product(row, factors, n, ctx));
    ProductMore(row, factors, n, ctx);
  }

  function WithFactor(row: Columns, before: Result<Decimal>, factor: string, ctx: Context): Result<Decimal> {
    if before.Err? then before else Times(before.value, NumberIn(row, factor, ctx))
  }

  lemma ProductMore(row: Columns, factors: seq<string>, n: nat, ctx: Context)
    requires n < |factors|
    ensures Product(row, factors, n + 1, ctx) == WithFactor(row, Product(row, factors, n, ctx), factors[n], ctx)
  {}

  lemma ProductMeansStep(row: Columns, factors: seq<string>, n: nat, ctx: Context, before: Result<Decimal>)
    requires n < |factors| && ProductMeans(row, factors, n, ctx, before)
    ensures ProductMeans(row, factors, n + 1, ctx, WithFactor(row, before, factors[n], ctx))
  {
    NumberMeans(row, factors[n], ctx);
    if before.Err? {
      WithoutNumberStays(row, factors, n, ctx, before.error);
    } else if HasNumber(row, factors[n], ctx) {
      OneMoreNumber(row, factors, n, ctx);
      if FitsAllTheWay(row, factors, n + 1, ctx) {
        FitsBefore(row, factors, n, ctx);
        ExactStep(row, factors, n, ctx);
      }
    }
  }

  lemma OneMoreNumber(row: Columns, factors: seq<string>, n: nat, ctx: Context)
    requires n < |factors| && AllNumbers(row, factors, n, ctx) && HasNumber(row, factors[n], ctx)
    ensures AllNumbers(row, factors, n + 1, ctx)
  {}

  lemma ExactStep(row: Columns, factors: seq<string>, n: nat, ctx: Context)
    requires n < |factors| && AllNumbers(row, factors, n + 1, ctx) && AllNumbers(row, factors, n, ctx)
    requires FitsAt(row, factors, n + 1, ctx)
    ensures NumberIn(row, factors[n], ctx).Ok?
    ensures Mul(ExactProduct(row, factors, n, ctx), NumberIn(row, factors[n], ctx).value)
      == ExactProduct(row, factors, n + 1, ctx)
  {
    NumberMeans(row, factors[n], ctx);
    FitExact(ExactProduct(row, factors, n + 1, ctx));
  }

  lemma FitsBefore(row: Columns, factors: seq<string>, n: nat, ctx: Context)
    requires n < |factors| && AllNumbers(row, factors, n + 1, ctx) && FitsAllTheWay(row, factors, n + 1, ctx)
    ensures AllNumbers(row, factors, n, ctx) && FitsAllTheWay(row, factors, n, ctx)
    ensures FitsAt(row, factors, n + 1, ctx)
  {}

  lemma WithoutNumberStays(row: Columns, factors: seq<string>, n: nat, ctx: Context, error: Error)
    requires n < |factors| && FirstWithoutNumber(row, factors, n, ctx, error)
    ensures FirstWithoutNumber(row, factors, n + 1, ctx, error) && !AllNumbers(row, factors, n + 1, ctx)
  {
    var i: nat :| i < n && !HasNumber(row, factors[i], ctx) && error == NumberError(row, factors[i])
      && AllNumbers(row, factors, i, ctx);
  }

  lemma RequiredAllHolds(fields: seq<string>, row: Columns, ctx: Context)
    ensures RequiredAllMeans(fields, row, Evaluate(RequiredAll(fields), row, ctx))
  {
    MissingFieldsMeans(row, fields, |fields|, MissingFields(row, fields, |fields|));
    var missing := MissingFields(row, fields, |fields|);
    if missing.Ok? { EmptyIffNone(row, fields, missing.value); }
  }

  lemma EmptyIffNone(row: Columns, fields: seq<string>, missing: seq<string>)
    requires FieldsAt(fields, EmptyPlaces(row, fields, |fields|), missing)
    ensures missing != [] <==> exists i: nat :: i < |fields| && HoldsNothing(row, fields[i])
  {
    var at :| Enumerates(at, EmptyPlaces(row, fields, |fields|)) && ListsAt(fields, at, missing);
    if at != [] { assert at[0] in at; }
    if i: nat :| i < |fields| && HoldsNothing(row, fields[i]) { assert i in at; }
  }

  lemma ComputedEqualHolds(actual: string, factors: seq<string>, tolerance: Decimal, row: Columns, ctx: Context)
    ensures ComputedEqualMeans(actual, factors, tolerance, row, ctx, Product(row, factors, |factors|, ctx),
                               Evaluate(ComputedEqual(actual, factors, tolerance), row, ctx))
  {
    var product, r := Product(row, factors, |factors|, ctx),
      Evaluate(ComputedEqual(actual, factors, tolerance), row, ctx);
    ProductMeansIt(row, factors, |factors|, ctx);
    ComparedMeans(actual, factors, tolerance, row, ctx, product, r);
  }

  lemma ComparedMeans(actual: string, factors: seq<string>, tolerance: Decimal, row: Columns, ctx: Context,
                      product: Result<Decimal>, r: Result<(bool, Evidence)>)
    requires ProductMeans(row, factors, |factors|, ctx, product)
    requires r == if product.Err? then Err(product.error) else
      Judge(product.value, NumberIn(row, actual, ctx), tolerance)
    ensures ComputedEqualMeans(actual, factors, tolerance, row, ctx, product, r)
  {
    NumberMeans(row, actual, ctx);
    if product.Ok? && Quantizes(product.value, -2) && HasNumber(row, actual, ctx) {
      JudgeMeans(product.value, NumberIn(row, actual, ctx).value, tolerance);
    }
  }

  lemma JudgeMeans(product: Decimal, actual: Decimal, tolerance: Decimal)
    requires Quantizes(product, -2)
    ensures var r := Judge(product, Ok(actual), tolerance); var expected := Quantize(product, -2);
      && r.Ok? && r.value.1 == Compared(expected, actual) && ToTheCent(expected, product)
      && (r.value.0 <==> ValueOf(Absolute(Minus(expected, actual))) > ValueOf(tolerance))
      && (DifferenceFits(expected, actual) ==>
          (r.value.0 <==> AbsReal(ValueOf(expected) - ValueOf(actual)) > ValueOf(tolerance)))
  {
    var expected := Quantize(product, -2);
    QuantizeMeans(product, -2);
    OneCent();
    LessMeans(tolerance, Absolute(Minus(expected, actual)));
    if DifferenceFits(expected, actual) { DistanceMeans(expected, actual); }
  }

  lemma OneCent()
    ensures ValueOf(Dec(1, -2)) == 0.01
  {
    assert Pow10(2) == 100;
  }

  lemma GteHolds(field: string, threshold: Decimal, row: Columns, ctx: Context)
    ensures GteMeans(field, threshold, row, ctx, Evaluate(Gte(field, threshold), row, ctx))
  {
    NumberMeans(row, field, ctx);
    if HasNumber(row, field, ctx) { LessMeans(NumberIn(row, field, ctx).value, threshold); }
  }

  /** The result of evaluating a rule means what the predicates above say. */
  lemma EvaluateMeans(operator: Operator, row: Columns, ctx: Context)
    ensures Meaning(operator, row, ctx, Evaluate(operator, row, ctx))
  {
    match operator
    case RequiredAll(fields) => RequiredAllHolds(fields, row, ctx);
    case ComputedEqual(actual, factors, tolerance) => ComputedEqualHolds(actual, factors, tolerance, row, ctx);
    case InSet(_, _) =>
    case Gte(field, threshold) => GteHolds(field, threshold, row, ctx);
    case Unknown(_) =>
  }

  /** required_all: the list of the fields that hold nothing. */
  method FindMissing(fields: seq<string>, row: Columns) returns (r: Result<seq<string>>)
    ensures MissingMeans(row, fields, |fields|, r)
    ensures r == MissingFields(row, fields, |fields|)
  {
    MissingFieldsMeans(row, fields, |fields|, MissingFields(row, fields, |fields|));
    var missing := [];
    for n := 0 to |fields|
      invariant MissingFields(row, fields, n) == Ok(missing)
    {
      var cell := row(fields[n]);
      if cell.None? {
        StaysErr(row, fields, n + 1);
        return Err(KeyError(fields[n]));
      }
      if Blank(cell.value) { missing := missing + [fields[n]]; }
    }
    return Ok(missing);
  }

  function Times(expected: Decimal, factor: Result<Decimal>): Result<Decimal> {
    if factor.Err? then factor else Ok(Mul(expected, factor.value))
  }

  lemma ProductStep(row: Columns, factors: seq<string>, n: nat, ctx: Context, before: Decimal, factor: Result<Decimal>)
    requires n < |factors| && Product(row, factors, n, ctx) == Ok(before) && factor == NumberIn(row, factors[n], ctx)
    ensures Product(row, factors, n + 1, ctx) == Times(before, factor)
    ensures factor.Err? ==> Product(row, factors, |factors|, ctx) == Times(before, factor)
  {
    if factor.Err? { ProductStaysErr(row, factors, n + 1, ctx); }
  }

  /** computed_equal: the factors multiplied one by one. */
  method Multiply(factors: seq<string>, row: Columns, ctx: Context) returns (r: Result<Decimal>)
    ensures ProductMeans(row, factors, |factors|, ctx, r)
    ensures r == Product(row, factors, |factors|, ctx)
  {
    ProductMeansIt(row, factors, |factors|, ctx);
    r := Ok(Dec(1, 0));
    for n := 0 to |factors|
      invariant r.Ok? && r == Product(row, factors, n, ctx)
    {
      var factor := NumberIn(row, factors[n], ctx);
      ProductStep(row, factors, n, ctx, r.value, factor);
      r := Times(r.value, factor);
      if r.Err? { return; }
    }
  }

  /** evaluate_rule: the verdict means what Meaning says, and is the one that rule runs use. */
  method EvaluateRule(rule: Rule, row: TaxRow, ctx: Context) returns (r: Result<(bool, Evidence)>)
    ensures Meaning(rule.operator, ColumnsOf(row), ctx, r)
    ensures r == Evaluate(rule.operator, ColumnsOf(row), ctx)
  {
    var columns := ColumnsOf(row);
    EvaluateMeans(rule.operator, columns, ctx);
    match rule.operator
    case RequiredAll(fields) =>
      var missing := FindMissing(fields, columns);
      if missing.Err? { return Err(missing.error); }
      return Ok((missing.value != [], Missing(missing.value)));
    case ComputedEqual(actual, factors, tolerance) =>
      var expected := Multiply(factors, columns, ctx);
      if expected.Err? { return Err(expected.error); }
      return Judge(expected.value, NumberIn(columns, actual, ctx), tolerance);
    case InSet(field, context) =>
      var cell := columns(field);
      if cell.None? { return Err(KeyError(field)); }
      if context != DUPLICATES { return Err(KeyError(context)); }
      var value := cell.value;
      return Ok((value.Text? && value.text.Some? && value.text.value in ctx.duplicates, Member(value)));
    case Gte(field, threshold) =>
      var actual := NumberIn(columns, field, ctx);
      if actual.Err? { return Err(actual.error); }
      return Ok((!Less(actual.value, threshold), Reached(actual.value, threshold)));
    case Unknown(_) =>
      return Err(UnsupportedOperator);
  }

  lemma {:induction false} StaysErr(row: Columns, fields: seq<string>, n: nat)
    requires n <= |fields| && MissingFields(row, fields, n).Err?
    ensures MissingFields(row, fields, |fields|) == MissingFields(row, fields, n)
    decreases |fields| - n
  {
    if n < |fields| { StaysErr(row, fields, n + 1); }
  }

  lemma {:induction false} ProductStaysErr(row: Columns, factors: seq<string>, n: nat, ctx: Context)
    requires n <= |factors| && Product(row, factors, n, ctx).Err?
    ensures Product(row, factors, |factors|, ctx) == Product(row, factors, n, ctx)
    decreases |factors| - n
  {
    if n < |factors| { ProductStaysErr(row, factors, n + 1, ctx); }
  }
}
