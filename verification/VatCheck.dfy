/** What the VAT_RECALC rule flags, and which generated rows it flags. */
module VatCheck {
  import opened Ordering
  import opened Decimals
  import opened TaxRules

  const LIMIT := 100_000_000_000_000_000_000

  /** The digit limits of the API: twenty digits of money, and a rate of at most one. */
  predicate WithinLimits(row: TaxRow) {
    -LIMIT < row.amount < LIMIT && -LIMIT < row.taxAmount < LIMIT && -1_000_000 <= row.taxRate <= 1_000_000
  }

  /** The expected tax in cents. */
  function ExpectedCents(row: TaxRow): int { HalfUp(row.amount * row.taxRate, 100_000_000) }

  /** |tax_amount - amount * rate|, in units of 10^-10. */
  function Deviation(row: TaxRow): nat { Abs(row.taxAmount * 1_000_000 - row.amount * row.taxRate) }

  predicate Flagged(rule: Rule, row: TaxRow, ctx: Context) {
    Evaluate(rule.operator, ColumnsOf(row), ctx).Ok? && Evaluate(rule.operator, ColumnsOf(row), ctx).value.0
  }

  lemma Powers()
    ensures Pow10(0) == 1 && Pow10(2) == 100 && Pow10(8) == 100_000_000 && Pow10(20) == LIMIT
    ensures Pow10(PRECISION) == 10_000_000_000_000_000_000_000_000_000
  {
    assert Pow10(8) == 100_000_000;
    Pow10Sum(8, 8);
    Pow10Sum(16, 4);
    assert Pow10(4) == 10_000;
    Pow10Sum(20, 8);
  }

  lemma ProductBound(a: int, r: int)
    requires -LIMIT < a < LIMIT && -1_000_000 <= r <= 1_000_000
    ensures -1_000_000 * LIMIT <= a * r <= 1_000_000 * LIMIT
  {
    SignedProduct(a, r);
    MulMonotone(Abs(a), Abs(r), 1_000_000);
  }

  lemma MulMonotone(a: nat, b: nat, c: nat)
    requires b <= c
    ensures a * b <= a * c
  {}

  lemma SignedProduct(a: int, r: int)
    ensures Abs(a * r) == Abs(a) * Abs(r)
  {
    if a < 0 { assert a * r == -(-a * r); }
    if r < 0 { assert Abs(a) * r == -(Abs(a) * -r); }
  }

  /** Within the limits the product fits the 28 digits of the context, so nothing is rounded before
      the expected tax is. */
  lemma ProductExact(row: TaxRow, ctx: Context)
    requires WithinLimits(row)
    ensures Product(ColumnsOf(row), ["amount", "tax_rate"], 2, ctx) == Ok(Dec(row.amount * row.taxRate, -10))
  {
    FirstFactor(row, ctx);
    SecondFactor(row, ctx);
  }

  lemma FirstFactor(row: TaxRow, ctx: Context)
    requires WithinLimits(row)
    ensures Product(ColumnsOf(row), ["amount", "tax_rate"], 1, ctx) == Ok(Dec(row.amount, -4))
  {
    Powers();
    assert Product(ColumnsOf(row), ["amount", "tax_rate"], 0, ctx) == Ok(Dec(1, 0));
    FitExact(Dec(1 * row.amount, 0 + -4));
  }

  lemma SecondFactor(row: TaxRow, ctx: Context)
    requires WithinLimits(row) && Product(ColumnsOf(row), ["amount", "tax_rate"], 1, ctx) == Ok(Dec(row.amount, -4))
    ensures Product(ColumnsOf(row), ["amount", "tax_rate"], 2, ctx) == Ok(Dec(row.amount * row.taxRate, -10))
  {
    assert NumberIn(ColumnsOf(row), "tax_rate", ctx) == Ok(Dec(row.taxRate, -6));
    TimesRate(row.amount, row.taxRate);
  }

  lemma TimesRate(amount: int, rate: int)
    requires -LIMIT < amount < LIMIT && -1_000_000 <= rate <= 1_000_000
    ensures Mul(Dec(amount, -4), Dec(rate, -6)) == Dec(amount * rate, -10)
  {
    Powers();
    ProductBound(amount, rate);
    FitExact(Dec(amount * rate, -10));
  }

  lemma CentsBound(row: TaxRow)
    requires WithinLimits(row)
    ensures Abs(ExpectedCents(row)) <= LIMIT
    ensures 2 * Abs(ExpectedCents(row) * 100_000_000 - row.amount * row.taxRate) <= 100_000_000
  {
    ProductBound(row.amount, row.taxRate);
    HalfUpNearest(row.amount * row.taxRate, 100_000_000);
  }

  lemma JudgeCents(cents: int, tax: int)
    requires Abs(cents) <= LIMIT && -LIMIT < tax < LIMIT
    ensures Less(Dec(1, -2), Absolute(Minus(Dec(cents, -2), Dec(tax, -4)))) <==> Abs(cents * 100 - tax) > 100
  {
    Powers();
    var difference := cents * 100 - tax;
    assert At(Dec(cents, -2), -4) == cents * 100 && At(Dec(tax, -4), -4) == tax;
    FitExact(Dec(difference, -4));
    FitExact(Dec(Abs(difference), -4));
    assert At(Dec(1, -2), -4) == 100;
  }

  /** The rule never raises within the limits, and flags exactly the rows whose tax is more than one
      cent off the expected tax, rounded half-up to the cent. */
  lemma VatExact(row: TaxRow, ctx: Context)
    requires WithinLimits(row)
    ensures Evaluate(VAT_RECALC.operator, ColumnsOf(row), ctx).Ok?
    ensures Flagged(VAT_RECALC, row, ctx) <==> Abs(ExpectedCents(row) * 100 - row.taxAmount) > 100
  {
    Powers();
    ProductExact(row, ctx);
    CentsBound(row);
    var product := Dec(row.amount * row.taxRate, -10);
    assert Rescaled(product, -2) == ExpectedCents(row);
    DigitsAtMost(Abs(ExpectedCents(row)), PRECISION);
    JudgeCents(ExpectedCents(row), row.taxAmount);
  }

  /** A row is never flagged below a deviation of 0.0051, and always flagged above 0.015. */
  lemma VatBounds(row: TaxRow, ctx: Context)
    requires WithinLimits(row)
    ensures Deviation(row) < 51_000_000 ==> !Flagged(VAT_RECALC, row, ctx)
    ensures Deviation(row) > 150_000_000 ==> Flagged(VAT_RECALC, row, ctx)
  {
    VatExact(row, ctx);
    CentsBound(row);
  }

  function SomeRow(amount: int, taxRate: int, taxAmount: int): TaxRow {
    TaxRow(0, "default", "INV", Some("S"), Some("B"), "2026-01-01", amount, taxRate, taxAmount, "CNY", "", "")
  }

  /** Neither bound can be moved: at 0.0051 a row is flagged, at 0.015 one is not. */
  lemma VatBoundsTight(ctx: Context)
    ensures exists row: TaxRow :: WithinLimits(row) && Deviation(row) == 51_000_000 && Flagged(VAT_RECALC, row, ctx)
    ensures exists row: TaxRow :: WithinLimits(row) && Deviation(row) == 150_000_000 && !Flagged(VAT_RECALC, row, ctx)
  {
    var low, high := SomeRow(10_050, 1_000_000, 9_999), SomeRow(10_050, 1_000_000, 10_200);
    assert ExpectedCents(low) == 101 && ExpectedCents(high) == 101;
    VatExact(low, ctx);
    VatExact(high, ctx);
    assert Deviation(low) == 51_000_000 && Deviation(high) == 150_000_000;
  }
}
