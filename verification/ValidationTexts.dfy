/** `validate_extraction` by document type, with its warnings in words. */
module ValidationTexts {
  import opened JsonTrees
  import opened Options
  import opened Validation
  import opened ValidationMeaning

  // ---------- words ----------

  /** How the library words a missing field and an error raised by a validator. */
  datatype Wording = Wording(required: string, valueError: string -> string)

  function AmountText(n: Name): string {
    match n
    case Subtotal => "subtotal"
    case TaxAmount => "tax_amount"
    case TotalAmount => "total_amount"
    case Currency => "currency"
    case _ => ""
  }

  function InvoiceText(n: Name): string {
    match n
    case VendorName => "vendor_name"
    case VendorAddress => "vendor_address"
    case InvoiceNumber => "invoice_number"
    case InvoiceDate => "invoice_date"
    case DueDate => "due_date"
    case LineItems => "line_items"
    case PaymentTerms => "payment_terms"
    case _ => ""
  }

  function ContractText(n: Name): string {
    match n
    case Parties => "parties"
    case EffectiveDate => "effective_date"
    case TerminationDate => "termination_date"
    case GoverningLaw => "governing_law"
    case PaymentAmount => "payment_amount"
    case PaymentCurrency => "payment_currency"
    case NoticePeriodDays => "notice_period_days"
    case KeyObligations => "key_obligations"
    case _ => ""
  }

  function PayslipText(n: Name): string {
    match n
    case EmployeeName => "employee_name"
    case EmployerName => "employer_name"
    case PayPeriodStart => "pay_period_start"
    case PayPeriodEnd => "pay_period_end"
    case GrossPay => "gross_pay"
    case NetPay => "net_pay"
    case Deductions => "deductions"
    case PayDate => "pay_date"
    case _ => ""
  }

  function ReceiptText(n: Name): string {
    match n
    case MerchantName => "merchant_name"
    case MerchantAddress => "merchant_address"
    case OrderNumber => "order_number"
    case TransactionId => "transaction_id"
    case ReceiptDate => "receipt_date"
    case ReceiptItems => "items"
    case PaymentMethod => "payment_method"
    case _ => ""
  }

  function FieldText(n: Name): string {
    match n
    case Subtotal | TaxAmount | TotalAmount | Currency =>
      AmountText(n)
    case VendorName | VendorAddress | InvoiceNumber | InvoiceDate | DueDate | LineItems | PaymentTerms =>
      InvoiceText(n)
    case Parties | EffectiveDate | TerminationDate | GoverningLaw | PaymentAmount | PaymentCurrency |
         NoticePeriodDays | KeyObligations =>
      ContractText(n)
    case EmployeeName | EmployerName | PayPeriodStart | PayPeriodEnd | GrossPay | NetPay | Deductions | PayDate =>
      PayslipText(n)
    case MerchantName | MerchantAddress | OrderNumber | TransactionId | ReceiptDate | ReceiptItems |
         PaymentMethod =>
      ReceiptText(n)
  }

  function RuleText(r: Rule): string {
    match r
    case CurrencyCode => "currency must be a three-letter ISO 4217 code"
    case DueAfterInvoice => "due_date must be on or after invoice_date"
    case TerminatesAfterEffective => "termination_date must be on or after effective_date"
    case PeriodEndsAfterStart => "pay_period_end must be on or after pay_period_start"
  }

  function MessageText(w: Wording, m: Message): string {
    match m
    case Library(text) => text
    case FieldRequired => w.required
    case Violates(rule) => w.valueError(RuleText(rule))
    case RequiredMissing => "required field missing"
    case InvoiceTotalOff =>
      "does not equal subtotal plus tax_amount; document may include discounts, shipping, credits, or rounding"
    case NetPayOff =>
      "does not equal gross_pay minus visible deductions; document may omit deductions or include adjustments"
    case ReceiptTotalOff =>
      "does not equal subtotal plus tax_amount; receipt may include discounts, fees, credits, or rounding"
  }

  function AboutText(about: Option<Name>): string {
    match about
    case None => "model"
    case Some(n) => FieldText(n)
  }

  function TextOf(w: Wording, r: Remark): string {
    AboutText(r.about) + ": " + MessageText(w, r.message)
  }

  /** How remarks are put into words. */
  function Words(w: Wording): Remark -> string {
    (r: Remark) => TextOf(w, r)
  }

  /** The words of a field in error. */
  lemma FieldWordsAre(w: Wording, n: Name, text: string)
    ensures Words(w)(Remark(Some(n), FieldRequired)) == FieldText(n) + ": " + w.required
    ensures Words(w)(Remark(Some(n), Library(text))) == FieldText(n) + ": " + text
  {
  }

  /** The words of the rules, about a field or about the model. */
  lemma RuleWordsAre(w: Wording, n: Name, r: Rule)
    ensures Words(w)(Remark(Some(n), Violates(r))) == FieldText(n) + ": " + w.valueError(RuleText(r))
    ensures Words(w)(Remark(None, Violates(r))) == "model" + ": " + w.valueError(RuleText(r))
  {
  }

  lemma RulesAre()
    ensures RuleText(CurrencyCode) == "currency must be a three-letter ISO 4217 code"
    ensures RuleText(DueAfterInvoice) == "due_date must be on or after invoice_date"
    ensures RuleText(TerminatesAfterEffective) == "termination_date must be on or after effective_date"
    ensures RuleText(PeriodEndsAfterStart) == "pay_period_end must be on or after pay_period_start"
  {
  }

  /** The words of amounts that do not fit. */
  lemma InvoiceTotalWords(w: Wording)
    ensures MessageText(w, InvoiceTotalOff) ==
            "does not equal subtotal plus tax_amount; document may include discounts, shipping, credits, or rounding"
  {
  }

  lemma NetPayWords(w: Wording)
    ensures MessageText(w, NetPayOff) ==
            "does not equal gross_pay minus visible deductions; document may omit deductions or include adjustments"
  {
  }

  lemma ReceiptTotalWords(w: Wording)
    ensures MessageText(w, ReceiptTotalOff) ==
            "does not equal subtotal plus tax_amount; receipt may include discounts, fees, credits, or rounding"
  {
  }

  function Texts(text: Remark -> string, remarks: seq<Remark>): (r: seq<string>)
    ensures |r| == |remarks| && forall k :: 0 <= k < |r| ==> r[k] == text(remarks[k])
  {
    if remarks == [] then []
    else Texts(text, remarks[..|remarks| - 1]) + [text(remarks[|remarks| - 1])]
  }

  lemma TextsConcat(text: Remark -> string, a: seq<Remark>, b: seq<Remark>)
    ensures Texts(text, a + b) == Texts(text, a) + Texts(text, b)
  {
  }

  // ---------- what is said of one field ----------

  /** Of a field: that it is required and missing, every fault that the library finds in its value, or that its text is
      no currency code; nothing if it is there and acceptable, if it is null and may be, or if it may be missing. */
  ghost function Told(h: Host, text: Remark -> string, raw: Raw, row: Row): seq<string> {
    var (n, f) := (row.n, row.field);
    if n !in raw then if f.Required? then [text(Remark(Some(n), FieldRequired))] else []
    else if f.Optional? && raw[n] == Null then []
    else if h.parse(f.kind, raw[n]).None? then
      [text(Remark(Some(n), Library(h.faults(f, raw[n]).first)))] + MoreFaults(h.faults(f, raw[n]).more, text, n)
    else if row.code && !IsCode(h, raw[n]) then [text(Remark(Some(n), Violates(CurrencyCode)))]
    else []
  }

  ghost function MoreFaults(texts: seq<string>, text: Remark -> string, n: Name): seq<string> {
    seq(|texts|, i requires 0 <= i < |texts| => text(Remark(Some(n), Library(texts[i]))))
  }

  lemma FieldTold(h: Host, text: Remark -> string, s: Schema, raw: Raw, n: Name)
    requires IsHost(h) && IsSchema(s) && n in s.fields
    ensures Texts(text, ErrorsOf(h, s, raw, n)) == Told(h, text, raw, Row(n, s.fields[n], n == s.currency))
  {
    InErrorMeans(h, s, raw, n);
  }

  lemma OneMoreTold(h: Host, text: Remark -> string, s: Schema, raw: Raw, k: nat)
    requires IsHost(h) && IsSchema(s) && k < |s.order| && s.order[k] in s.fields
    ensures var n := s.order[k];
            Texts(text, FieldErrors(h, s, raw, k + 1)) ==
            Texts(text, FieldErrors(h, s, raw, k)) + Told(h, text, raw, Row(n, s.fields[n], n == s.currency))
  {
    FieldTold(h, text, s, raw, s.order[k]);
    TextsConcat(text, FieldErrors(h, s, raw, k), ErrorsOf(h, s, raw, s.order[k]));
  }

  // ---------- what is said of a document ----------

  ghost function RowsTold(h: Host, text: Remark -> string, raw: Raw, rows: seq<Row>): seq<string> {
    if rows == [] then []
    else RowsTold(h, text, raw, rows[..|rows| - 1]) + Told(h, text, raw, rows[|rows| - 1])
  }

  lemma RowIsTold(h: Host, text: Remark -> string, s: Schema, raw: Raw, row: Row, k: nat)
    requires IsHost(h) && IsSchema(s) && DescribesField(row, s, k)
    ensures Texts(text, FieldErrors(h, s, raw, k + 1))
         == Texts(text, FieldErrors(h, s, raw, k)) + Told(h, text, raw, row)
  {
    OneMoreTold(h, text, s, raw, k);
  }

  lemma {:induction false} RowsAreTold(h: Host, text: Remark -> string, s: Schema, raw: Raw, rows: seq<Row>, k: nat)
    requires IsHost(h) && IsSchema(s) && Describe(rows, s) && k <= |rows|
    ensures Texts(text, FieldErrors(h, s, raw, k)) == RowsTold(h, text, raw, rows[..k])
  {
    if k > 0 {
      RowsAreTold(h, text, s, raw, rows, k - 1);
      RowIsTold(h, text, s, raw, rows[k - 1], k - 1);
      assert rows[..k][..k - 1] == rows[..k - 1];
    }
  }

  /** The faults of the fields; only without any, a wrong order of the dates. */
  ghost function ErrorsSay(fields: seq<string>, datesLieWrong: bool, order: string): seq<string> {
    if fields != [] then fields else if datesLieWrong then [order] else []
  }

  /** And then an amount that does not fit. */
  ghost function AllTold(fields: seq<string>, datesLieWrong: bool, order: string, isOff: bool, quality: string)
    : seq<string>
  {
    ErrorsSay(fields, datesLieWrong, order) + if isOff then [quality] else []
  }

  ghost function InvoiceWarnings(h: Host, text: Remark -> string, raw: Raw): seq<string> {
    AllTold(RowsTold(h, text, raw, INVOICE_ROWS),
            LiesBefore(h, raw, DueDate, InvoiceDate), text(Remark(None, Violates(DueAfterInvoice))),
            SumIsOff(h, raw, Subtotal, TaxAmount, TotalAmount), text(Remark(Some(TotalAmount), InvoiceTotalOff)))
  }

  ghost function ContractWarnings(h: Host, text: Remark -> string, raw: Raw): seq<string> {
    AllTold(RowsTold(h, text, raw, CONTRACT_ROWS),
            LiesBefore(h, raw, TerminationDate, EffectiveDate), text(Remark(None, Violates(TerminatesAfterEffective))),
            false, "")
  }

  ghost function PayslipWarnings(h: Host, text: Remark -> string, raw: Raw): seq<string> {
    AllTold(RowsTold(h, text, raw, PAYSLIP_ROWS),
            LiesBefore(h, raw, PayPeriodEnd, PayPeriodStart), text(Remark(None, Violates(PeriodEndsAfterStart))),
            RestIsOff(h, raw, GrossPay, Deductions, NetPay), text(Remark(Some(NetPay), NetPayOff)))
  }

  ghost function ReceiptWarnings(h: Host, text: Remark -> string, raw: Raw): seq<string> {
    AllTold(RowsTold(h, text, raw, RECEIPT_ROWS), false, "",
            SumIsOff(h, raw, Subtotal, TaxAmount, TotalAmount), text(Remark(Some(TotalAmount), ReceiptTotalOff)))
  }

  lemma ErrorsAre(h: Host, s: Schema, raw: Raw)
    requires IsHost(h) && IsSchema(s)
    ensures var fields := FieldErrors(h, s, raw, |s.order|);
            Errors(h, s, raw) ==
            if fields != [] then fields
            else if DatesLieWrong(h, s, raw) then [Remark(None, Violates(s.dates.value.rule))] else []
  {
    DatesFitMeans(h, s, raw);
  }

  lemma ErrorsTold(h: Host, text: Remark -> string, s: Schema, raw: Raw, rows: seq<Row>, order: string)
    requires IsHost(h) && IsSchema(s) && Describe(rows, s)
    requires s.dates.Some? ==> order == text(Remark(None, Violates(s.dates.value.rule)))
    ensures Texts(text, Errors(h, s, raw))
         == ErrorsSay(RowsTold(h, text, raw, rows), DatesLieWrong(h, s, raw), order)
  {
    assert Texts(text, FieldErrors(h, s, raw, |s.order|)) == RowsTold(h, text, raw, rows) by {
      RowsAreTold(h, text, s, raw, rows, |rows|);
      assert rows[..|rows|] == rows;
    }
    ErrorsAre(h, s, raw);
  }

  lemma QualityTold(text: Remark -> string, errors: seq<Remark>, q: seq<Remark>, told: seq<string>, isOff: bool,
                    quality: string)
    requires Texts(text, errors) == told && if isOff then |q| == 1 && quality == text(q[0]) else q == []
    ensures Texts(text, errors + q) == told + if isOff then [quality] else []
  {
    TextsConcat(text, errors, q);
    assert Texts(text, q) == if isOff then [quality] else [];
  }

  /** The warnings of any schema, given what its check finds. */
  lemma SchemaTold(h: Host, text: Remark -> string, s: Schema, raw: Raw, rows: seq<Row>, order: string, isOff: bool,
                   quality: string)
    requires IsHost(h) && IsSchema(s) && Describe(rows, s)
    requires s.dates.Some? ==> order == text(Remark(None, Violates(s.dates.value.rule)))
    requires var q := QualityOf(s.check, BestValues(h, s, raw));
             if isOff then |q| == 1 && quality == text(q[0]) else q == []
    ensures Texts(text, Errors(h, s, raw) + QualityOf(s.check, BestValues(h, s, raw)))
         == AllTold(RowsTold(h, text, raw, rows), DatesLieWrong(h, s, raw), order, isOff, quality)
  {
    var told := ErrorsSay(RowsTold(h, text, raw, rows), DatesLieWrong(h, s, raw), order);
    ErrorsTold(h, text, s, raw, rows, order);
    QualityTold(text, Errors(h, s, raw), QualityOf(s.check, BestValues(h, s, raw)), told, isOff, quality);
  }

  // ---------- the result ----------

  datatype Validated = Validated(data: Option<Values>, warnings: seq<string>, status: Status)

  /** Every field of the document type is in the data, with its own value or none. */
  ghost predicate HasValues(h: Host, raw: Raw, rows: seq<Row>, data: Values) {
    && (forall n :: n in data <==> exists k :: 0 <= k < |rows| && rows[k].n == n)
    && forall k :: 0 <= k < |rows| && rows[k].n in data ==>
         IsOwnValue(h, raw, rows[k].n, rows[k].field.kind, rows[k].code, data[rows[k].n])
  }

  /** Completed exactly if the document is complete, failed exactly if no field that is there is acceptable, partial
      otherwise; only a failed validation gives no data. */
  ghost predicate IsOutcome(h: Host, raw: Raw, rows: seq<Row>, complete: bool, data: Option<Values>, status: Status) {
    && (status == Completed <==> complete)
    && (status == Failed <==> !complete && forall k :: 0 <= k < |rows| && rows[k].n in raw ==> !IsMet(h, raw, rows[k]))
    && (data.None? <==> status == Failed)
    && (data.Some? ==> HasValues(h, raw, rows, data.value))
  }

  lemma BestValuesAre(h: Host, s: Schema, raw: Raw, rows: seq<Row>)
    requires IsHost(h) && IsSchema(s) && Describe(rows, s)
    ensures HasValues(h, raw, rows, BestValues(h, s, raw))
  {
    forall n ensures n in s.fields <==> exists k :: 0 <= k < |rows| && rows[k].n == n {
      if n in s.fields {
        var k :| 0 <= k < |s.order| && s.order[k] == n;
        assert DescribesField(rows[k], s, k);
      }
      if k :| 0 <= k < |rows| && rows[k].n == n { assert DescribesField(rows[k], s, k); }
    }
    forall k | 0 <= k < |rows|
      ensures rows[k].n in s.fields
      ensures IsOwnValue(h, raw, rows[k].n, rows[k].field.kind, rows[k].code, BestValue(h, s, raw, rows[k].n))
    {
      assert DescribesField(rows[k], s, k);
      BestValueMeans(h, s, raw, rows[k].n);
    }
  }

  lemma SomethingMeans(h: Host, s: Schema, raw: Raw, rows: seq<Row>)
    requires IsHost(h) && IsSchema(s) && Describe(rows, s)
    ensures HasValid(h, s, raw) <==> exists k :: 0 <= k < |rows| && rows[k].n in raw && IsMet(h, raw, rows[k])
  {
    HasValidMeans(h, s, raw);
    forall k | 0 <= k < |rows|
      ensures rows[k].n in s.fields && (IsMet(h, raw, rows[k]) <==> IsFine(h, s, raw, rows[k].n))
    {
      assert DescribesField(rows[k], s, k);
    }
    if n :| n in raw && n in s.fields && IsFine(h, s, raw, n) {
      var k :| 0 <= k < |s.order| && s.order[k] == n;
      assert DescribesField(rows[k], s, k);
    }
  }

  lemma OutcomeIs(h: Host, s: Schema, raw: Raw, rows: seq<Row>, r: Recovered)
    requires IsHost(h) && IsSchema(s) && Describe(rows, s) && r.values == BestValues(h, s, raw)
    requires r.status.Completed? <==> Errors(h, s, raw) == []
    requires r.status.Failed? <==> Errors(h, s, raw) != [] && !HasValid(h, s, raw)
    requires r.data == if r.status.Failed? then None else Some(r.values)
    ensures IsOutcome(h, raw, rows, Errors(h, s, raw) == [], r.data, r.status)
  {
    BestValuesAre(h, s, raw, rows);
    SomethingMeans(h, s, raw, rows);
  }

  function SchemaFor(docType: string): Option<Schema> {
    if docType == "invoice" then Some(INVOICE)
    else if docType == "contract" then Some(CONTRACT)
    else if docType == "payslip" then Some(PAYSLIP)
    else if docType == "receipt" then Some(RECEIPT)
    else None
  }

  lemma InvoiceTold(h: Host, text: Remark -> string, raw: Raw)
    requires IsHost(h)
    ensures Texts(text, Errors(h, INVOICE, raw) + QualityOf(INVOICE.check, BestValues(h, INVOICE, raw)))
         == InvoiceWarnings(h, text, raw)
  {
    TheSchemas(INVOICE);
    InvoiceDescribed();
    InvoiceQuality(h, raw);
    SchemaTold(h, text, INVOICE, raw, INVOICE_ROWS, text(Remark(None, Violates(DueAfterInvoice))),
               SumIsOff(h, raw, Subtotal, TaxAmount, TotalAmount), text(Remark(Some(TotalAmount), InvoiceTotalOff)));
  }

  lemma ContractTold(h: Host, text: Remark -> string, raw: Raw)
    requires IsHost(h)
    ensures Texts(text, Errors(h, CONTRACT, raw) + QualityOf(CONTRACT.check, BestValues(h, CONTRACT, raw)))
         == ContractWarnings(h, text, raw)
  {
    TheSchemas(CONTRACT);
    ContractDescribed();
    ContractQuality(h, raw);
    SchemaTold(h, text, CONTRACT, raw, CONTRACT_ROWS, text(Remark(None, Violates(TerminatesAfterEffective))),
               false, "");
  }

  lemma PayslipTold(h: Host, text: Remark -> string, raw: Raw)
    requires IsHost(h)
    ensures Texts(text, Errors(h, PAYSLIP, raw) + QualityOf(PAYSLIP.check, BestValues(h, PAYSLIP, raw)))
         == PayslipWarnings(h, text, raw)
  {
    TheSchemas(PAYSLIP);
    PayslipDescribed();
    PayslipQuality(h, raw);
    SchemaTold(h, text, PAYSLIP, raw, PAYSLIP_ROWS, text(Remark(None, Violates(PeriodEndsAfterStart))),
               RestIsOff(h, raw, GrossPay, Deductions, NetPay), text(Remark(Some(NetPay), NetPayOff)));
  }

  lemma ReceiptTold(h: Host, text: Remark -> string, raw: Raw)
    requires IsHost(h)
    ensures Texts(text, Errors(h, RECEIPT, raw) + QualityOf(RECEIPT.check, BestValues(h, RECEIPT, raw)))
         == ReceiptWarnings(h, text, raw)
  {
    TheSchemas(RECEIPT);
    ReceiptDescribed();
    ReceiptQuality(h, raw);
    SchemaTold(h, text, RECEIPT, raw, RECEIPT_ROWS, "",
               SumIsOff(h, raw, Subtotal, TaxAmount, TotalAmount), text(Remark(Some(TotalAmount), ReceiptTotalOff)));
  }

  ghost predicate IsValidatedAs(v: Validated, h: Host, raw: Raw, rows: seq<Row>, complete: bool, warnings: seq<string>)
  {
    IsOutcome(h, raw, rows, complete, v.data, v.status) && v.warnings == warnings
  }

  /** What validation gives for each document type. */
  ghost predicate IsValidated(v: Validated, h: Host, text: Remark -> string, docType: string, raw: Raw) {
    && (docType == "invoice" ==>
          IsValidatedAs(v, h, raw, INVOICE_ROWS, IsInvoice(h, raw), InvoiceWarnings(h, text, raw)))
    && (docType == "contract" ==>
          IsValidatedAs(v, h, raw, CONTRACT_ROWS, IsContract(h, raw), ContractWarnings(h, text, raw)))
    && (docType == "payslip" ==>
          IsValidatedAs(v, h, raw, PAYSLIP_ROWS, IsPayslip(h, raw), PayslipWarnings(h, text, raw)))
    && (docType == "receipt" ==>
          IsValidatedAs(v, h, raw, RECEIPT_ROWS, IsReceipt(h, raw), ReceiptWarnings(h, text, raw)))
  }

  lemma OnlyFailedHasNoData(h: Host, text: Remark -> string, docType: string, raw: Raw, v: Validated)
    requires docType in {"invoice", "contract", "payslip", "receipt"} && IsValidated(v, h, text, docType, raw)
    ensures v.data.None? <==> v.status.Failed?
  {
  }

  /** What `Validate` promises. */
  ghost predicate IsResult(r: Recovered, h: Host, s: Schema, raw: Raw) {
    && r.values == BestValues(h, s, raw)
    && (r.status.Completed? <==> Errors(h, s, raw) == [])
    && (r.status.Failed? <==> Errors(h, s, raw) != [] && !HasValid(h, s, raw))
    && r.data == (if r.status.Failed? then None else Some(r.values))
    && r.warnings == Errors(h, s, raw) + QualityOf(s.check, r.values)
  }

  lemma InvoiceIsValidated(h: Host, text: Remark -> string, raw: Raw, r: Recovered)
    requires IsHost(h) && IsResult(r, h, INVOICE, raw)
    ensures IsValidatedAs(Validated(r.data, Texts(text, r.warnings), r.status), h, raw, INVOICE_ROWS, IsInvoice(h, raw),
                          InvoiceWarnings(h, text, raw))
  {
    TheSchemas(INVOICE);
    InvoiceMeans(h, raw);
    InvoiceDescribed();
    OutcomeIs(h, INVOICE, raw, INVOICE_ROWS, r);
    InvoiceTold(h, text, raw);
  }

  lemma ContractIsValidated(h: Host, text: Remark -> string, raw: Raw, r: Recovered)
    requires IsHost(h) && IsResult(r, h, CONTRACT, raw)
    ensures IsValidatedAs(Validated(r.data, Texts(text, r.warnings), r.status), h, raw, CONTRACT_ROWS,
                          IsContract(h, raw), ContractWarnings(h, text, raw))
  {
    TheSchemas(CONTRACT);
    ContractMeans(h, raw);
    ContractDescribed();
    OutcomeIs(h, CONTRACT, raw, CONTRACT_ROWS, r);
    ContractTold(h, text, raw);
  }

  lemma PayslipIsValidated(h: Host, text: Remark -> string, raw: Raw, r: Recovered)
    requires IsHost(h) && IsResult(r, h, PAYSLIP, raw)
    ensures IsValidatedAs(Validated(r.data, Texts(text, r.warnings), r.status), h, raw, PAYSLIP_ROWS, IsPayslip(h, raw),
                          PayslipWarnings(h, text, raw))
  {
    TheSchemas(PAYSLIP);
    PayslipMeans(h, raw);
    PayslipDescribed();
    OutcomeIs(h, PAYSLIP, raw, PAYSLIP_ROWS, r);
    PayslipTold(h, text, raw);
  }

  lemma ReceiptIsValidated(h: Host, text: Remark -> string, raw: Raw, r: Recovered)
    requires IsHost(h) && IsResult(r, h, RECEIPT, raw)
    ensures IsValidatedAs(Validated(r.data, Texts(text, r.warnings), r.status), h, raw, RECEIPT_ROWS, IsReceipt(h, raw),
                          ReceiptWarnings(h, text, raw))
  {
    TheSchemas(RECEIPT);
    ReceiptMeans(h, raw);
    ReceiptDescribed();
    OutcomeIs(h, RECEIPT, raw, RECEIPT_ROWS, r);
    ReceiptTold(h, text, raw);
  }

  lemma ResultIsValidated(h: Host, text: Remark -> string, docType: string, raw: Raw, s: Schema, r: Recovered)
    requires IsHost(h) && SchemaFor(docType) == Some(s) && IsResult(r, h, s, raw)
    ensures IsValidated(Validated(r.data, Texts(text, r.warnings), r.status), h, text, docType, raw)
  {
    if docType == "invoice" {
      InvoiceIsValidated(h, text, raw, r);
    } else if docType == "contract" {
      ContractIsValidated(h, text, raw, r);
    } else if docType == "payslip" {
      PayslipIsValidated(h, text, raw, r);
    } else {
      ReceiptIsValidated(h, text, raw, r);
    }
  }

  method PutIntoWords(text: Remark -> string, remarks: seq<Remark>) returns (warnings: seq<string>)
    ensures warnings == Texts(text, remarks)
  {
    warnings := [];
    for k := 0 to |remarks|
      invariant |warnings| == k && forall i :: 0 <= i < k ==> warnings[i] == text(remarks[i])
    {
      warnings := warnings + [text(remarks[k])];
    }
  }

  /** `validate_extraction`; `None` stands for the exception on an unknown document type. */
  method ValidateExtraction(h: Host, w: Wording, docType: string, raw: Raw) returns (v: Option<Validated>)
    requires IsHost(h)
    ensures v.Some? <==> docType in {"invoice", "contract", "payslip", "receipt"}
    ensures v.Some? ==> IsValidated(v.value, h, Words(w), docType, raw)
  {
    var schema := SchemaFor(docType);
    if schema.None? { return None; }
    TheSchemas(schema.value);
    var r := Validate(h, schema.value, raw);
    var warnings := PutIntoWords(Words(w), r.value.warnings);
    ResultIsValidated(h, Words(w), docType, raw, schema.value, r.value);
    v := Some(Validated(r.value.data, warnings, r.value.status));
  }
}
