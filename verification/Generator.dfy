/** The synthetic invoices (taxflow.generate_transactions) and the rules they break. */
module Generator {
  import opened Ordering
  import opened Decimals
  import opened TaxRules
  import opened VatCheck

  /** An invoice as ingested: money in multiples of 10^-4, the rate in multiples of 10^-6. */
  datatype TaxTransaction = TaxTransaction( invoiceId: string, sellerTaxId: Option<string>, buyerTaxId: Option<string>,
                                           invoiceDate: string, amount: int, taxRate: int, taxAmount: int,
                                           currency: string)

  datatype Anomaly = MissingTaxId | TaxMismatch | Duplicate | ExtremeAmount

  /** What the random generator yields for one row: the amount in multiples of 10^-4, the chosen
      rate in percent, and whether, and how, the row is distorted. */
  datatype Draw = Draw(amount: nat, percent: nat, seller: string, buyer: string, date: string, anomalous: bool,
                       anomaly: Anomaly)

  /** uniform(50, 100_000) to four places, a choice of five rates, non-empty tax ids. */
  predicate Possible(d: Draw) {
    500_000 <= d.amount <= 1_000_000_000 && d.percent in {0, 3, 6, 9, 13} && d.seller != "" && d.buyer != ""
  }

  /** The last k decimal digits of n. */
  function Padded(n: nat, k: nat): string {
    if k == 0 then "" else Padded(n / 10, k - 1) + [['0', '1', '2', '3', '4', '5', '6', '7', '8', '9'][n % 10]]
  }

  function InvoiceId(i: nat): string { "INV-" + (if i < 1_000_000_000 then Padded(i, 9) else Padded(i, Digits(i))) }

  function Plain(d: Draw, i: nat): TaxTransaction {
    TaxTransaction(InvoiceId(i), Some(d.seller), Some(d.buyer), d.date, d.amount, d.percent * 10_000,
                   HalfUp(d.amount * d.percent, 100), "CNY")
  }

  /** The branch that a distorted row takes; the first row has no predecessor to repeat. */
  function Branch(d: Draw, i: nat): Option<Anomaly> {
    if !d.anomalous then None
    else if d.anomaly == Duplicate && i == 0 then Some(ExtremeAmount)
    else Some(d.anomaly)
  }

  /** A row, a duplicate taking the invoice number of the row before it. */
  function Distorted(d: Draw, i: nat, previous: string): TaxTransaction {
    var tx := Plain(d, i);
    match Branch(d, i)
    case None => tx
    case Some(MissingTaxId) => tx.(sellerTaxId := None)
    case Some(TaxMismatch) => tx.(taxAmount := tx.taxAmount + 173_100)
    case Some(Duplicate) => tx.(invoiceId := previous)
    case Some(ExtremeAmount) => tx.(amount := 95_000_000_000, taxAmount := 12_350_000_000)
  }

  /** The invoice number before the i-th row. */
  function Previous(data: seq<TaxTransaction>, i: nat): string
    requires i <= |data|
  {
    if i == 0 then "" else data[i - 1].invoiceId
  }

  /** The i-th row is the distortion of its draw, given the row before it. */
  predicate GeneratedAt(draws: seq<Draw>, data: seq<TaxTransaction>, i: nat)
    requires i < |data| <= |draws|
  {
    data[i] == Distorted(draws[i], i, Previous(data, i))
  }

  predicate Generated(draws: seq<Draw>, data: seq<TaxTransaction>) {
    |data| <= |draws| && forall i: nat | i < |data| :: GeneratedAt(draws, data, i)
  }

  lemma StaysGenerated(draws: seq<Draw>, data: seq<TaxTransaction>, tx: TaxTransaction, i: nat)
    requires i < |data| < |draws| && GeneratedAt(draws, data, i)
    ensures GeneratedAt(draws, data + [tx], i)
  {}

  lemma LastGenerated(draws: seq<Draw>, data: seq<TaxTransaction>, tx: TaxTransaction)
    requires |data| < |draws| && tx == Distorted(draws[|data|], |data|, Previous(data, |data|))
    ensures GeneratedAt(draws, data + [tx], |data|)
  {}

  lemma OneMoreRow(draws: seq<Draw>, data: seq<TaxTransaction>, tx: TaxTransaction)
    requires Generated(draws, data) && |data| < |draws|
    requires tx == Distorted(draws[|data|], |data|, Previous(data, |data|))
    ensures Generated(draws, data + [tx])
  {
    LastGenerated(draws, data, tx);
    forall i: nat | i < |data| ensures GeneratedAt(draws, data + [tx], i) { StaysGenerated(draws, data, tx, i); }
  }

  method GenerateTransactions(draws: seq<Draw>) returns (data: seq<TaxTransaction>)
    ensures |data| == |draws| && Generated(draws, data)
  {
    data := [];
    for i := 0 to |draws|
      invariant |data| == i && Generated(draws, data)
    {
      var tx := Distort(Plain(draws[i], i), draws[i], data);
      OneMoreRow(draws, data, tx);
      data := data + [tx];
    }
  }

  /** The distortion of one row in the loop. */
  method Distort(plain: TaxTransaction, d: Draw, data: seq<TaxTransaction>) returns (tx: TaxTransaction)
    requires plain == Plain(d, |data|)
    ensures tx == Distorted(d, |data|, Previous(data, |data|))
  {
    tx := plain;
    if d.anomalous {
      if d.anomaly == MissingTaxId {
        tx := tx.(sellerTaxId := None);
      } else if d.anomaly == TaxMismatch {
        tx := tx.(taxAmount := tx.taxAmount + 173_100);
      } else if d.anomaly == Duplicate && data != [] {
        tx := tx.(invoiceId := data[|data| - 1].invoiceId);
      } else {
        tx := tx.(amount := 95_000_000_000, taxAmount := 12_350_000_000);
      }
    }
  }

  /** The row as stored. */
  function Stored(tx: TaxTransaction, id: nat, tenant: string, sourceHash: string, now: string): TaxRow {
    TaxRow(id, tenant, tx.invoiceId, tx.sellerTaxId, tx.buyerTaxId, tx.invoiceDate, tx.amount, tx.taxRate, tx.taxAmount,
           tx.currency, sourceHash, now)
  }

  /** The tax of an undistorted row is money(amount * rate). */
  lemma PlainTaxIsMoney(d: Draw, i: nat)
    requires Possible(d)
    ensures var product := Mul(Dec(d.amount, -4), Dec(d.percent, -2));
      Quantizes(product, -4) && Quantize(product, -4) == Dec(Plain(d, i).taxAmount, -4)
  {
    var product := d.amount * d.percent;
    SmallProduct(d.amount, d.percent, product);
    SmallMoney(product);
  }

  lemma SmallProduct(amount: nat, percent: nat, product: int)
    requires amount <= 1_000_000_000 && percent <= 13 && product == amount * percent
    ensures 0 <= product <= 13_000_000_000
    ensures Mul(Dec(amount, -4), Dec(percent, -2)) == Dec(product, -6)
  {
    MulMonotone(amount, percent, 13);
    ExactTimes(Dec(amount, -4), Dec(percent, -2), product);
  }

  lemma ExactTimes(x: Decimal, y: Decimal, product: int)
    requires product == x.n * y.n && 0 <= product <= 13_000_000_000
    ensures Mul(x, y) == Dec(product, x.exp + y.exp)
  {
    Powers();
    FitExact(Dec(product, x.exp + y.exp));
  }

  lemma SmallMoney(n: nat)
    requires n <= 13_000_000_000
    ensures Quantizes(Dec(n, -6), -4) && Quantize(Dec(n, -6), -4) == Dec(HalfUp(n, 100), -4)
  {
    Powers();
    HalfUpNearest(n, 100);
    DigitsAtMost(Abs(HalfUp(n, 100)), PRECISION);
  }

  lemma Scaled(product: int, tax: int)
    requires 0 <= product <= 13_000_000_000 && tax == HalfUp(product, 100)
    ensures 0 <= tax <= 130_000_000 && 2 * Abs(tax * 1_000_000 - product * 10_000) <= 1_000_000
  {
    HalfUpNearest(product, 100);
  }

  lemma DrawnProduct(amount: nat, percent: nat)
    requires amount <= 1_000_000_000 && percent <= 13
    ensures 0 <= amount * percent <= 13_000_000_000 && amount * (percent * 10_000) == amount * percent * 10_000
  {
    MulMonotone(amount, percent, 13);
  }

  /** A generated row has an exact amount and rate, and a tax rounded half-up to four places. */
  lemma PlainNearlyExact(d: Draw, i: nat)
    requires Possible(d)
    ensures var tx := Plain(d, i);
      && 0 <= tx.taxAmount <= 130_000_000
      && 2 * Abs(tx.taxAmount * 1_000_000 - tx.amount * tx.taxRate) <= 1_000_000
  {
    DrawnProduct(d.amount, d.percent);
    Scaled(d.amount * d.percent, HalfUp(d.amount * d.percent, 100));
  }

  /** What VAT_RECALC, TAX_ID_REQUIRED and EXTREME_AMOUNT say of a generated row, by the way it was
      distorted: an undistorted row breaks none of them, a mismatch always breaks the first. */
  lemma GeneratedFlags(d: Draw, i: nat, previous: string, row: TaxRow, ctx: Context)
    requires Possible(d)
    requires row == Stored(Distorted(d, i, previous), row.id, row.tenantId, row.sourceHash, row.ingestedAt)
    ensures Flagged(VAT_RECALC, row, ctx) <==>
      Branch(d, i) == Some(TaxMismatch) || (Branch(d, i) == Some(ExtremeAmount) && d.percent != 13)
    ensures Flagged(TAX_ID_REQUIRED, row, ctx) <==> Branch(d, i) == Some(MissingTaxId)
    ensures Flagged(EXTREME_AMOUNT, row, ctx) <==> Branch(d, i) == Some(ExtremeAmount)
  {
    VatFlags(d, i, row, ctx);
    GeneratedIds(d, i, previous, row, ctx);
    GeneratedExtremes(d, i, previous, row, ctx);
  }

  lemma GeneratedIds(d: Draw, i: nat, previous: string, row: TaxRow, ctx: Context)
    requires Possible(d)
    requires row == Stored(Distorted(d, i, previous), row.id, row.tenantId, row.sourceHash, row.ingestedAt)
    ensures Flagged(TAX_ID_REQUIRED, row, ctx) <==> Branch(d, i) == Some(MissingTaxId)
  {
    TaxIdFlags(row, ctx);
  }

  lemma GeneratedExtremes(d: Draw, i: nat, previous: string, row: TaxRow, ctx: Context)
    requires Possible(d)
    requires row == Stored(Distorted(d, i, previous), row.id, row.tenantId, row.sourceHash, row.ingestedAt)
    ensures Flagged(EXTREME_AMOUNT, row, ctx) <==> Branch(d, i) == Some(ExtremeAmount)
  {
    ExtremeFlags(row, ctx);
  }

  lemma VatFlags(d: Draw, i: nat, row: TaxRow, ctx: Context)
    requires Possible(d)
    requires var tx, branch := Plain(d, i), Branch(d, i);
      && row.taxRate == tx.taxRate
      && row.amount == (if branch == Some(ExtremeAmount) then 95_000_000_000 else tx.amount)
      && row.taxAmount == (if branch == Some(ExtremeAmount) then 12_350_000_000
                           else if branch == Some(TaxMismatch) then tx.taxAmount + 173_100 else tx.taxAmount)
    ensures Flagged(VAT_RECALC, row, ctx) <==>
      Branch(d, i) == Some(TaxMismatch) || (Branch(d, i) == Some(ExtremeAmount) && d.percent != 13)
  {
    PlainNearlyExact(d, i);
    if Branch(d, i) == Some(ExtremeAmount) {
      ExtremeVat(d.percent, row, ctx);
    } else {
      NearlyExactVat(row, ctx, if Branch(d, i) == Some(TaxMismatch) then 173_100 else 0);
    }
  }

  /** On the extreme amount the tax is that of the 13 percent rate. */
  lemma ExtremeVat(percent: nat, row: TaxRow, ctx: Context)
    requires percent in {0, 3, 6, 9, 13}
    requires row.taxRate == percent * 10_000 && row.amount == 95_000_000_000 && row.taxAmount == 12_350_000_000
    ensures Flagged(VAT_RECALC, row, ctx) <==> percent != 13
  {
    assert Deviation(row) == (13 - percent) * 950_000_000_000_000;
    VatBounds(row, ctx);
  }

  lemma NearlyExactVat(row: TaxRow, ctx: Context, added: nat)
    requires 0 <= row.amount <= 1_000_000_000 && 0 <= row.taxRate <= 130_000 && 0 <= row.taxAmount <= 131_000_000
    requires added == 0 || added == 173_100
    requires 2 * Abs((row.taxAmount - added) * 1_000_000 - row.amount * row.taxRate) <= 1_000_000
    ensures Flagged(VAT_RECALC, row, ctx) <==> added != 0
  {
    VatBounds(row, ctx);
  }

  // ----- invoice numbers

  lemma {:induction false} PaddedLength(n: nat, k: nat)
    ensures |Padded(n, k)| == k
  {
    if k > 0 { PaddedLength(n / 10, k - 1); }
  }

  lemma DigitsApart(m: nat, n: nat)
    requires m < 10 && n < 10 && m != n
    ensures var digits := ['0', '1', '2', '3', '4', '5', '6', '7', '8', '9']; digits[m] != digits[n]
  {}

  lemma {:induction false} PaddedDiffers(m: nat, n: nat, k: nat)
    requires m < Pow10(k) && n < Pow10(k) && m != n
    ensures Padded(m, k) != Padded(n, k)
  {
    PaddedLength(m / 10, k - 1);
    PaddedLength(n / 10, k - 1);
    var a, b := Padded(m, k), Padded(n, k);
    assert a[..k - 1] == Padded(m / 10, k - 1) && b[..k - 1] == Padded(n / 10, k - 1);
    if m / 10 != n / 10 {
      PaddedDiffers(m / 10, n / 10, k - 1);
    } else {
      DigitsApart(m % 10, n % 10);
    }
  }

  /** Different rows are numbered differently. */
  lemma InvoiceIdsDiffer(i: nat, j: nat)
    requires i != j
    ensures InvoiceId(i) != InvoiceId(j)
  {
    var m, n := if i < 1_000_000_000 then 9 else Digits(i), if j < 1_000_000_000 then 9 else Digits(j);
    PaddedLength(i, m);
    PaddedLength(j, n);
    assert InvoiceId(i)[4..] == Padded(i, m) && InvoiceId(j)[4..] == Padded(j, n);
    if m == n {
      Billion();
      PaddedDiffers(i, j, m);
    }
  }

  lemma Billion()
    ensures Pow10(9) == 1_000_000_000
  {
    Powers();
    Pow10Sum(4, 4);
    Pow10Sum(8, 1);
  }

  /** The number of a generated row is that of a row no later than it. */
  lemma {:induction false} NumberedNoLater(draws: seq<Draw>, data: seq<TaxTransaction>, i: nat) returns (k: nat)
    requires Generated(draws, data) && i < |data|
    ensures k <= i && data[i].invoiceId == InvoiceId(k)
  {
    NumberAt(draws, data, i);
    if Branch(draws[i], i) == Some(Duplicate) { k := NumberedNoLater(draws, data, i - 1); } else { k := i; }
  }

  lemma NumberAt(draws: seq<Draw>, data: seq<TaxTransaction>, i: nat)
    requires Generated(draws, data) && i < |data|
    ensures Branch(draws[i], i) == Some(Duplicate) ==> 0 < i && data[i].invoiceId == data[i - 1].invoiceId
    ensures Branch(draws[i], i) != Some(Duplicate) ==> data[i].invoiceId == InvoiceId(i)
  {
    assert GeneratedAt(draws, data, i);
  }

  /** Two generated rows share an invoice number only if the later one was drawn as a duplicate. */
  lemma SharedOnlyByDuplicates(draws: seq<Draw>, data: seq<TaxTransaction>, i: nat, j: nat)
    requires Generated(draws, data) && i < j < |data| && data[i].invoiceId == data[j].invoiceId
    ensures draws[j].anomalous && draws[j].anomaly == Duplicate
  {
    var k := NumberedNoLater(draws, data, i);
    assert GeneratedAt(draws, data, j);
    if Branch(draws[j], j) != Some(Duplicate) { InvoiceIdsDiffer(k, j); }
  }

  /** The columns of a generated row, by its draw. */
  lemma GeneratedColumns(draws: seq<Draw>, data: seq<TaxTransaction>, i: nat)
    requires Generated(draws, data) && i < |data|
    ensures var d, tx := draws[i], data[i];
      var missing, mismatch := d.anomalous && d.anomaly == MissingTaxId, d.anomalous && d.anomaly == TaxMismatch;
      var duplicate := d.anomalous && d.anomaly == Duplicate && 0 < i;
      var extreme := d.anomalous && (d.anomaly == ExtremeAmount || (d.anomaly == Duplicate && i == 0));
      && tx.sellerTaxId == (if missing then None else Some(d.seller)) && tx.buyerTaxId == Some(d.buyer)
      && tx.invoiceId == (if duplicate then data[i - 1].invoiceId else InvoiceId(i))
      && tx.amount == (if extreme then 9_500_000 * 10_000 else d.amount) && tx.taxRate == d.percent * 10_000
      && tx.taxAmount == (if extreme then 1_235_000 * 10_000
                          else HalfUp(d.amount * d.percent, 100) + if mismatch then 173_100 else 0)
      && tx.invoiceDate == d.date && tx.currency == "CNY"
  {
    assert GeneratedAt(draws, data, i);
  }

  predicate NoId(taxId: Option<string>) { taxId == None || taxId == Some("") }

  lemma TaxIdFlags(row: TaxRow, ctx: Context)
    ensures Flagged(TAX_ID_REQUIRED, row, ctx) <==> NoId(row.sellerTaxId) || NoId(row.buyerTaxId)
  {
    var fields := ["seller_tax_id", "buyer_tax_id"];
    assert ColumnsOf(row)(fields[0]) == Some(Text(row.sellerTaxId));
    assert ColumnsOf(row)(fields[1]) == Some(Text(row.buyerTaxId));
    assert Blank(Text(row.sellerTaxId)) == NoId(row.sellerTaxId) && Blank(Text(row.buyerTaxId)) == NoId(row.buyerTaxId);
    assert MissingFields(ColumnsOf(row), fields, 0) == Ok([]);
    var first := MissingFields(ColumnsOf(row), fields, 1);
    assert first == if NoId(row.sellerTaxId) then Ok([] + [fields[0]]) else Ok([]);
  }

  lemma ExtremeFlags(row: TaxRow, ctx: Context)
    ensures Flagged(EXTREME_AMOUNT, row, ctx) <==> 50_000_000_000 <= row.amount
  {
    Powers();
    Pow10Sum(2, 2);
    assert At(Dec(5_000_000, 0), -4) == 50_000_000_000 && At(Dec(row.amount, -4), -4) == row.amount;
  }
}
