/** What validation means, schema by schema: which inputs are complete, what value each field gets, and which amounts
    are said not to fit. */
module ValidationMeaning {
  import opened JsonTrees
  import opened Options
  import opened Validation
  import Money

  // ---------- fields ----------

  /** The field is there and has a value. */
  ghost predicate Has(h: Host, raw: Raw, n: Name, k: Kind) {
    n in raw && h.parse(k, raw[n]).Some?
  }

  /** The field is missing, null, or has a value. */
  ghost predicate MayHave(h: Host, raw: Raw, n: Name, k: Kind) {
    n in raw && raw[n] != Null ==> h.parse(k, raw[n]).Some?
  }

  /** A text whose upper-cased form has three letters. */
  ghost predicate IsCode(h: Host, j: Json) {
    match h.parse(TextKind, j)
    case Some(TextValue(text)) => |h.upper(text)| == 3 && h.alpha(h.upper(text))
    case _ => false
  }

  ghost predicate HasCode(h: Host, raw: Raw, n: Name) {
    n in raw && IsCode(h, raw[n])
  }

  ghost predicate MayHaveCode(h: Host, raw: Raw, n: Name) {
    n in raw && raw[n] != Null ==> IsCode(h, raw[n])
  }

  /** The day of a date that is there. */
  ghost function DayOf(h: Host, raw: Raw, n: Name): Option<int> {
    if n !in raw then None
    else match h.parse(DateKind, raw[n])
      case Some(DateValue(day)) => Some(day)
      case _ => None
  }

  /** Both dates are there, and the later one lies before the earlier one. */
  ghost predicate LiesBefore(h: Host, raw: Raw, later: Name, earlier: Name) {
    match (DayOf(h, raw, later), DayOf(h, raw, earlier))
    case (Some(end), Some(start)) => end < start
    case _ => false
  }

  // ---------- the four schemas ----------

  /** A field, what is asked of it, and whether it holds a currency code. */
  datatype Row = Row(n: Name, field: Field, code: bool)

  const INVOICE_ROWS := [
    Row(VendorName, Required(TextKind), false), Row(VendorAddress, Optional(TextKind), false),
    Row(InvoiceNumber, Required(TextKind), false), Row(InvoiceDate, Required(DateKind), false),
    Row(DueDate, Optional(DateKind), false), Row(Subtotal, Required(DecimalKind), false),
    Row(TaxAmount, Optional(DecimalKind), false), Row(TotalAmount, Required(DecimalKind), false),
    Row(Currency, Required(TextKind), true), Row(LineItems, Required(ListKind), false),
    Row(PaymentTerms, Optional(TextKind), false)]

  const CONTRACT_ROWS := [
    Row(Parties, Required(ListKind), false), Row(EffectiveDate, Required(DateKind), false),
    Row(TerminationDate, Optional(DateKind), false), Row(GoverningLaw, Optional(TextKind), false),
    Row(PaymentAmount, Optional(DecimalKind), false), Row(PaymentCurrency, Optional(TextKind), true),
    Row(NoticePeriodDays, Optional(IntKind), false), Row(KeyObligations, Required(ListKind), false)]

  const PAYSLIP_ROWS := [
    Row(EmployeeName, Required(TextKind), false), Row(EmployerName, Required(TextKind), false),
    Row(PayPeriodStart, Required(DateKind), false), Row(PayPeriodEnd, Required(DateKind), false),
    Row(GrossPay, Required(DecimalKind), false), Row(NetPay, Required(DecimalKind), false),
    Row(Currency, Required(TextKind), true), Row(Deductions, Required(ListKind), false),
    Row(PayDate, Required(DateKind), false)]

  const RECEIPT_ROWS := [
    Row(MerchantName, Required(TextKind), false), Row(MerchantAddress, Optional(TextKind), false),
    Row(OrderNumber, Optional(TextKind), false), Row(TransactionId, Optional(TextKind), false),
    Row(ReceiptDate, Required(DateKind), false), Row(ReceiptItems, Required(ListKind), false),
    Row(Subtotal, Optional(DecimalKind), false), Row(TaxAmount, Optional(DecimalKind), false),
    Row(TotalAmount, Required(DecimalKind), false), Row(Currency, Required(TextKind), true),
    Row(PaymentMethod, Optional(TextKind), false)]

  /** Required: there, with a value. Optional: missing, null, or with a value. A currency: with a three-letter code. */
  ghost predicate IsMet(h: Host, raw: Raw, row: Row) {
    match row.field
    case Required(kind) => if row.code then HasCode(h, raw, row.n) else Has(h, raw, row.n, kind)
    case Optional(kind) => if row.code then MayHaveCode(h, raw, row.n) else MayHave(h, raw, row.n, kind)
  }

  ghost predicate AreMet(h: Host, raw: Raw, rows: seq<Row>) {
    forall k :: 0 <= k < |rows| ==> IsMet(h, raw, rows[k])
  }

  ghost predicate IsInvoice(h: Host, raw: Raw) {
    AreMet(h, raw, INVOICE_ROWS) && !LiesBefore(h, raw, DueDate, InvoiceDate)
  }

  ghost predicate IsContract(h: Host, raw: Raw) {
    AreMet(h, raw, CONTRACT_ROWS) && !LiesBefore(h, raw, TerminationDate, EffectiveDate)
  }

  ghost predicate IsPayslip(h: Host, raw: Raw) {
    AreMet(h, raw, PAYSLIP_ROWS) && !LiesBefore(h, raw, PayPeriodEnd, PayPeriodStart)
  }

  ghost predicate IsReceipt(h: Host, raw: Raw) {
    AreMet(h, raw, RECEIPT_ROWS)
  }

  /** The row describes the k-th field of the schema. */
  ghost predicate DescribesField(row: Row, s: Schema, k: nat) {
    && k < |s.order| && s.order[k] == row.n && row.n in s.fields
    && row.field == s.fields[row.n] && (row.code <==> row.n == s.currency)
  }

  ghost predicate Describe(rows: seq<Row>, s: Schema) {
    |rows| == |s.order| && forall k :: 0 <= k < |rows| ==> DescribesField(rows[k], s, k)
  }

  lemma InvoiceRow(k: nat)
    requires k < |INVOICE_ROWS|
    ensures DescribesField(INVOICE_ROWS[k], INVOICE, k)
  {
  }

  lemma InvoiceDescribed()
    ensures Describe(INVOICE_ROWS, INVOICE)
  {
    forall k | 0 <= k < |INVOICE_ROWS| ensures DescribesField(INVOICE_ROWS[k], INVOICE, k) { InvoiceRow(k); }
  }

  lemma ContractRow(k: nat)
    requires k < |CONTRACT_ROWS|
    ensures DescribesField(CONTRACT_ROWS[k], CONTRACT, k)
  {
  }

  lemma ContractDescribed()
    ensures Describe(CONTRACT_ROWS, CONTRACT)
  {
    forall k | 0 <= k < |CONTRACT_ROWS| ensures DescribesField(CONTRACT_ROWS[k], CONTRACT, k) { ContractRow(k); }
  }

  lemma PayslipRow(k: nat)
    requires k < |PAYSLIP_ROWS|
    ensures DescribesField(PAYSLIP_ROWS[k], PAYSLIP, k)
  {
  }

  lemma PayslipDescribed()
    ensures Describe(PAYSLIP_ROWS, PAYSLIP)
  {
    forall k | 0 <= k < |PAYSLIP_ROWS| ensures DescribesField(PAYSLIP_ROWS[k], PAYSLIP, k) { PayslipRow(k); }
  }

  lemma ReceiptRow(k: nat)
    requires k < |RECEIPT_ROWS|
    ensures DescribesField(RECEIPT_ROWS[k], RECEIPT, k)
  {
  }

  lemma ReceiptDescribed()
    ensures Describe(RECEIPT_ROWS, RECEIPT)
  {
    forall k | 0 <= k < |RECEIPT_ROWS| ensures DescribesField(RECEIPT_ROWS[k], RECEIPT, k) { ReceiptRow(k); }
  }

  // ---------- any schema ----------

  /** What the schema asks of a field is met. */
  ghost predicate IsFine(h: Host, s: Schema, raw: Raw, n: Name)
    requires n in s.fields
  {
    IsMet(h, raw, Row(n, s.fields[n], n == s.currency))
  }

  ghost predicate DatesLieWrong(h: Host, s: Schema, raw: Raw) {
    s.dates.Some? && LiesBefore(h, raw, s.dates.value.later, s.dates.value.earlier)
  }

  lemma InErrorMeans(h: Host, s: Schema, raw: Raw, n: Name)
    requires IsHost(h) && IsSchema(s) && n in s.fields
    ensures IsInError(h, s, raw, n) <==> !IsFine(h, s, raw, n)
  {
  }

  lemma DatesFitMeans(h: Host, s: Schema, raw: Raw)
    requires IsHost(h) && IsSchema(s)
    ensures DatesFit(s, BestValues(h, s, raw)) <==> !DatesLieWrong(h, s, raw)
  {
    if s.dates.Some? {
      DayMeans(h, s, raw, s.dates.value.later);
      DayMeans(h, s, raw, s.dates.value.earlier);
    }
  }

  lemma DayMeans(h: Host, s: Schema, raw: Raw, n: Name)
    requires IsHost(h) && IsSchema(s) && n in s.fields && s.fields[n].kind.DateKind?
    ensures var v := BestValue(h, s, raw, n);
            DayOf(h, raw, n) == if v.DateValue? then Some(v.day) else None
  {
  }

  lemma FieldErrorsMean(h: Host, s: Schema, raw: Raw)
    requires IsHost(h) && IsSchema(s)
    ensures FieldErrors(h, s, raw, |s.order|) == [] <==> forall n :: n in s.fields ==> IsFine(h, s, raw, n)
  {
    var errors := FieldErrors(h, s, raw, |s.order|);
    assert s.order[..|s.order|] == s.order;
    forall n | n in s.fields ensures IsFine(h, s, raw, n) <==> !IsBlamed(errors, n) {
      InErrorMeans(h, s, raw, n);
      FieldErrorsAre(h, s, raw, |s.order|, n);
    }
    if errors != [] {
      FieldErrorsAre(h, s, raw, |s.order|, s.currency);
      assert errors[0] in errors;
      FieldErrorsAre(h, s, raw, |s.order|, errors[0].about.value);
    }
  }

  lemma ErrorsMean(h: Host, s: Schema, raw: Raw)
    requires IsHost(h) && IsSchema(s)
    ensures Errors(h, s, raw) == [] <==>
            (forall n :: n in s.fields ==> IsFine(h, s, raw, n)) && !DatesLieWrong(h, s, raw)
  {
    FieldErrorsMean(h, s, raw);
    DatesFitMeans(h, s, raw);
  }

  // ---------- each schema asks for exactly its fields ----------

  lemma FineMeans(h: Host, s: Schema, raw: Raw, rows: seq<Row>)
    requires IsSchema(s) && Describe(rows, s)
    ensures (forall n :: n in s.fields ==> IsFine(h, s, raw, n)) <==> AreMet(h, raw, rows)
  {
    forall k | 0 <= k < |rows|
      ensures rows[k].n in s.fields && (IsMet(h, raw, rows[k]) <==> IsFine(h, s, raw, rows[k].n))
    {
      assert DescribesField(rows[k], s, k);
    }
    if AreMet(h, raw, rows) {
      forall n | n in s.fields ensures IsFine(h, s, raw, n) {
        var k :| 0 <= k < |s.order| && s.order[k] == n;
        assert DescribesField(rows[k], s, k);
      }
    }
  }

  lemma InvoiceMeans(h: Host, raw: Raw)
    requires IsHost(h)
    ensures Errors(h, INVOICE, raw) == [] <==> IsInvoice(h, raw)
  {
    TheSchemas(INVOICE);
    ErrorsMean(h, INVOICE, raw);
    InvoiceDescribed();
    FineMeans(h, INVOICE, raw, INVOICE_ROWS);
  }

  lemma ContractMeans(h: Host, raw: Raw)
    requires IsHost(h)
    ensures Errors(h, CONTRACT, raw) == [] <==> IsContract(h, raw)
  {
    TheSchemas(CONTRACT);
    ErrorsMean(h, CONTRACT, raw);
    ContractDescribed();
    FineMeans(h, CONTRACT, raw, CONTRACT_ROWS);
  }

  lemma PayslipMeans(h: Host, raw: Raw)
    requires IsHost(h)
    ensures Errors(h, PAYSLIP, raw) == [] <==> IsPayslip(h, raw)
  {
    TheSchemas(PAYSLIP);
    ErrorsMean(h, PAYSLIP, raw);
    PayslipDescribed();
    FineMeans(h, PAYSLIP, raw, PAYSLIP_ROWS);
  }

  lemma ReceiptMeans(h: Host, raw: Raw)
    requires IsHost(h)
    ensures Errors(h, RECEIPT, raw) == [] <==> IsReceipt(h, raw)
  {
    TheSchemas(RECEIPT);
    ErrorsMean(h, RECEIPT, raw);
    ReceiptDescribed();
    FineMeans(h, RECEIPT, raw, RECEIPT_ROWS);
  }

  /** Nothing is in error exactly if every required field is there, every field that is there has a value, null being
      one for the optional fields only, a currency is a three-letter code, and the dates are in order. */
  lemma CompleteMeans(h: Host, raw: Raw)
    requires IsHost(h)
    ensures Errors(h, INVOICE, raw) == [] <==> IsInvoice(h, raw)
    ensures Errors(h, CONTRACT, raw) == [] <==> IsContract(h, raw)
    ensures Errors(h, PAYSLIP, raw) == [] <==> IsPayslip(h, raw)
    ensures Errors(h, RECEIPT, raw) == [] <==> IsReceipt(h, raw)
  {
    InvoiceMeans(h, raw);
    ContractMeans(h, raw);
    PayslipMeans(h, raw);
    ReceiptMeans(h, raw);
  }

  // ---------- values ----------

  /** The value that a field gets: its own if it has one, with a currency upper-cased, and none otherwise. */
  ghost predicate IsOwnValue(h: Host, raw: Raw, n: Name, k: Kind, code: bool, v: Value) {
    if n !in raw then v == NoValue
    else match h.parse(k, raw[n])
      case None => v == NoValue
      case Some(parsed) =>
        if !code then v == parsed
        else if IsCode(h, raw[n]) then parsed.TextValue? && v == TextValue(h.upper(parsed.text))
        else v == NoValue
  }

  lemma BestValueMeans(h: Host, s: Schema, raw: Raw, n: Name)
    requires IsHost(h) && IsSchema(s) && n in s.fields
    ensures IsOwnValue(h, raw, n, s.fields[n].kind, n == s.currency, BestValue(h, s, raw, n))
  {
  }

  /** Some field is there and acceptable; null is, for an optional field. */
  ghost predicate HasSomething(h: Host, s: Schema, raw: Raw) {
    exists n :: n in raw && n in s.fields && IsFine(h, s, raw, n)
  }

  lemma HasValidMeans(h: Host, s: Schema, raw: Raw)
    requires IsHost(h) && IsSchema(s)
    ensures HasValid(h, s, raw) <==> HasSomething(h, s, raw)
  {
    forall n | n in raw && n in s.fields ensures IsValid(h, s, raw, n) <==> IsFine(h, s, raw, n) {
      InErrorMeans(h, s, raw, n);
    }
    if HasValid(h, s, raw) {
      var n :| IsValid(h, s, raw, n);
      assert IsFine(h, s, raw, n);
    }
    if HasSomething(h, s, raw) {
      var n :| n in raw && n in s.fields && IsFine(h, s, raw, n);
      assert IsValid(h, s, raw, n);
    }
  }

  // ---------- amounts ----------

  ghost function AmountIn(h: Host, raw: Raw, n: Name): Option<real> {
    if n !in raw then None
    else match h.parse(DecimalKind, raw[n])
      case Some(MoneyValue(amount)) => Some(amount)
      case _ => None
  }

  ghost function AmountsIn(h: Host, raw: Raw, n: Name): Option<seq<real>> {
    if n !in raw then None
    else match h.parse(ListKind, raw[n])
      case Some(ListValue(_, amounts)) => Some(amounts)
      case _ => None
  }

  /** All three amounts are there, and to the cent the total is not the sum of the others. */
  ghost predicate SumIsOff(h: Host, raw: Raw, subtotal: Name, tax: Name, total: Name) {
    match (AmountIn(h, raw, subtotal), AmountIn(h, raw, tax), AmountIn(h, raw, total))
    case (Some(a), Some(b), Some(t)) => Money.Cents(t) != Money.Cents(a + b)
    case _ => false
  }

  /** All amounts are there, and to the cent the net pay is not the gross pay without the deductions. */
  ghost predicate RestIsOff(h: Host, raw: Raw, gross: Name, deductions: Name, net: Name) {
    match (AmountIn(h, raw, gross), AmountsIn(h, raw, deductions), AmountIn(h, raw, net))
    case (Some(g), Some(ds), Some(n)) => Money.Cents(n) != Money.Cents(g - Money.Sum(ds))
    case _ => false
  }

  lemma AmountMeans(h: Host, s: Schema, raw: Raw, n: Name)
    requires IsHost(h) && IsSchema(s) && n in s.fields
    ensures s.fields[n].kind.DecimalKind? ==> AmountOf(BestValues(h, s, raw), n) == AmountIn(h, raw, n)
    ensures s.fields[n].kind.ListKind? ==> AmountsOf(BestValues(h, s, raw), n) == AmountsIn(h, raw, n)
  {
  }

  lemma SumsMean(h: Host, s: Schema, raw: Raw)
    requires IsHost(h) && IsSchema(s) && s.check.Sums?
    requires forall n :: n in {s.check.subtotal, s.check.tax, s.check.total} ==>
               n in s.fields && s.fields[n].kind.DecimalKind?
    ensures QualityOf(s.check, BestValues(h, s, raw)) ==
            if SumIsOff(h, raw, s.check.subtotal, s.check.tax, s.check.total)
            then [Remark(Some(s.check.total), s.check.message)] else []
  {
    AmountMeans(h, s, raw, s.check.subtotal);
    AmountMeans(h, s, raw, s.check.tax);
    AmountMeans(h, s, raw, s.check.total);
  }

  lemma DeductsMean(h: Host, s: Schema, raw: Raw)
    requires IsHost(h) && IsSchema(s) && s.check.Deducts?
    requires forall n :: n in {s.check.gross, s.check.net} ==> n in s.fields && s.fields[n].kind.DecimalKind?
    requires s.check.deductions in s.fields && s.fields[s.check.deductions].kind.ListKind?
    ensures QualityOf(s.check, BestValues(h, s, raw)) ==
            if RestIsOff(h, raw, s.check.gross, s.check.deductions, s.check.net)
            then [Remark(Some(s.check.net), s.check.message)] else []
  {
    AmountMeans(h, s, raw, s.check.gross);
    AmountMeans(h, s, raw, s.check.deductions);
    AmountMeans(h, s, raw, s.check.net);
  }

  lemma CheckedAmounts()
    ensures forall n :: n in {Subtotal, TaxAmount, TotalAmount} ==>
              && n in INVOICE.fields && INVOICE.fields[n].kind.DecimalKind?
              && n in RECEIPT.fields && RECEIPT.fields[n].kind.DecimalKind?
    ensures forall n :: n in {GrossPay, NetPay} ==> n in PAYSLIP.fields && PAYSLIP.fields[n].kind.DecimalKind?
    ensures Deductions in PAYSLIP.fields && PAYSLIP.fields[Deductions].kind.ListKind?
  {
  }

  lemma InvoiceQuality(h: Host, raw: Raw)
    requires IsHost(h)
    ensures QualityOf(INVOICE.check, BestValues(h, INVOICE, raw)) ==
            if SumIsOff(h, raw, Subtotal, TaxAmount, TotalAmount)
            then [Remark(Some(TotalAmount), InvoiceTotalOff)] else []
  {
    TheSchemas(INVOICE);
    CheckedAmounts();
    SumsMean(h, INVOICE, raw);
  }

  lemma ContractQuality(h: Host, raw: Raw)
    ensures QualityOf(CONTRACT.check, BestValues(h, CONTRACT, raw)) == []
  {
  }

  lemma PayslipQuality(h: Host, raw: Raw)
    requires IsHost(h)
    ensures QualityOf(PAYSLIP.check, BestValues(h, PAYSLIP, raw)) ==
            if RestIsOff(h, raw, GrossPay, Deductions, NetPay) then [Remark(Some(NetPay), NetPayOff)] else []
  {
    TheSchemas(PAYSLIP);
    CheckedAmounts();
    DeductsMean(h, PAYSLIP, raw);
  }

  lemma ReceiptQuality(h: Host, raw: Raw)
    requires IsHost(h)
    ensures QualityOf(RECEIPT.check, BestValues(h, RECEIPT, raw)) ==
            if SumIsOff(h, raw, Subtotal, TaxAmount, TotalAmount)
            then [Remark(Some(TotalAmount), ReceiptTotalOff)] else []
  {
    TheSchemas(RECEIPT);
    CheckedAmounts();
    SumsMean(h, RECEIPT, raw);
  }
}
