/** Validation of extracted data against four schemas, and the recovery of single fields when it fails. */
module Validation {
  import opened JsonTrees
  import opened Options
  import Money

  // ---------- schemas ----------

  datatype Name =
    | VendorName | VendorAddress | InvoiceNumber | InvoiceDate | DueDate | Subtotal | TaxAmount | TotalAmount
    | Currency | LineItems | PaymentTerms
    | Parties | EffectiveDate | TerminationDate | GoverningLaw | PaymentAmount | PaymentCurrency | NoticePeriodDays
    | KeyObligations
    | EmployeeName | EmployerName | PayPeriodStart | PayPeriodEnd | GrossPay | NetPay | Deductions | PayDate
    | MerchantName | MerchantAddress | OrderNumber | TransactionId | ReceiptDate | ReceiptItems | PaymentMethod

  datatype Kind = TextKind | IntKind | DecimalKind | DateKind | ListKind

  /** An optional field may be null and defaults to null; the others are required. */
  datatype Field = Required(kind: Kind) | Optional(kind: Kind)

  /** The rules that the schemas themselves add. */
  datatype Rule = CurrencyCode | DueAfterInvoice | TerminatesAfterEffective | PeriodEndsAfterStart

  /** What is said of a field or of the whole record: a text of the library, that the field is required, a rule that is
      violated, or an amount that does not fit. `RequiredMissing` is the validator's own second look for fields that the
      library has not reported. */
  datatype Message = Library(text: string) | FieldRequired | Violates(rule: Rule) | RequiredMissing
                   | InvoiceTotalOff | NetPayOff | ReceiptTotalOff

  /** An error of the library or a warning; without a field it is about the model. */
  datatype Remark = Remark(about: Option<Name>, message: Message)

  /** `later` must not lie before `earlier`, if both are there. */
  datatype Dates = Dates(earlier: Name, later: Name, rule: Rule)

  /** Which amounts have to fit together for a record to pass without a quality warning. */
  datatype Check =
    | NoCheck
    | Sums(subtotal: Name, tax: Name, total: Name, message: Message)
    | Deducts(gross: Name, deductions: Name, net: Name, message: Message)

  /** The fields in their order, the field whose validator checks a currency code, the check of the model and the
      quality check. */
  datatype Schema = Schema(order: seq<Name>, fields: map<Name, Field>, currency: Name, dates: Option<Dates>,
                           check: Check)

  const INVOICE := Schema(
    [VendorName, VendorAddress, InvoiceNumber, InvoiceDate, DueDate, Subtotal, TaxAmount, TotalAmount, Currency,
     LineItems, PaymentTerms],
    map[VendorName := Required(TextKind), VendorAddress := Optional(TextKind), InvoiceNumber := Required(TextKind),
        InvoiceDate := Required(DateKind), DueDate := Optional(DateKind), Subtotal := Required(DecimalKind),
        TaxAmount := Optional(DecimalKind), TotalAmount := Required(DecimalKind), Currency := Required(TextKind),
        LineItems := Required(ListKind), PaymentTerms := Optional(TextKind)],
    Currency, Some(Dates(InvoiceDate, DueDate, DueAfterInvoice)),
    Sums(Subtotal, TaxAmount, TotalAmount, InvoiceTotalOff))

  const CONTRACT := Schema(
    [Parties, EffectiveDate, TerminationDate, GoverningLaw, PaymentAmount, PaymentCurrency, NoticePeriodDays,
     KeyObligations],
    map[Parties := Required(ListKind), EffectiveDate := Required(DateKind), TerminationDate := Optional(DateKind),
        GoverningLaw := Optional(TextKind), PaymentAmount := Optional(DecimalKind),
        PaymentCurrency := Optional(TextKind), NoticePeriodDays := Optional(IntKind),
        KeyObligations := Required(ListKind)],
    PaymentCurrency, Some(Dates(EffectiveDate, TerminationDate, TerminatesAfterEffective)), NoCheck)

  const PAYSLIP := Schema(
    [EmployeeName, EmployerName, PayPeriodStart, PayPeriodEnd, GrossPay, NetPay, Currency, Deductions, PayDate],
    map[EmployeeName := Required(TextKind), EmployerName := Required(TextKind), PayPeriodStart := Required(DateKind),
        PayPeriodEnd := Required(DateKind), GrossPay := Required(DecimalKind), NetPay := Required(DecimalKind),
        Currency := Required(TextKind), Deductions := Required(ListKind), PayDate := Required(DateKind)],
    Currency, Some(Dates(PayPeriodStart, PayPeriodEnd, PeriodEndsAfterStart)),
    Deducts(GrossPay, Deductions, NetPay, NetPayOff))

  const RECEIPT := Schema(
    [MerchantName, MerchantAddress, OrderNumber, TransactionId, ReceiptDate, ReceiptItems, Subtotal, TaxAmount,
     TotalAmount, Currency, PaymentMethod],
    map[MerchantName := Required(TextKind), MerchantAddress := Optional(TextKind), OrderNumber := Optional(TextKind),
        TransactionId := Optional(TextKind), ReceiptDate := Required(DateKind), ReceiptItems := Required(ListKind),
        Subtotal := Optional(DecimalKind), TaxAmount := Optional(DecimalKind), TotalAmount := Required(DecimalKind),
        Currency := Required(TextKind), PaymentMethod := Optional(TextKind)],
    Currency, None, Sums(Subtotal, TaxAmount, TotalAmount, ReceiptTotalOff))

  /** What the recovery needs of a schema. */
  ghost predicate IsSchema(s: Schema) {
    && (forall n :: n in s.fields <==> n in s.order)
    && (s.currency in s.fields && s.fields[s.currency].kind.TextKind?)
    && (s.dates.Some? ==>
          && s.dates.value.earlier in s.fields && s.fields[s.dates.value.earlier] == Required(DateKind)
          && s.dates.value.later in s.fields && s.fields[s.dates.value.later].kind.DateKind?)
  }

  lemma InvoiceOrder(n: Name)
    ensures n in INVOICE.fields <==> n in INVOICE.order
  {
  }

  lemma InvoiceIsSchema()
    ensures IsSchema(INVOICE)
  {
    forall n ensures n in INVOICE.fields <==> n in INVOICE.order { InvoiceOrder(n); }
  }

  lemma ContractOrder(n: Name)
    ensures n in CONTRACT.fields <==> n in CONTRACT.order
  {
  }

  lemma ContractIsSchema()
    ensures IsSchema(CONTRACT)
  {
    forall n ensures n in CONTRACT.fields <==> n in CONTRACT.order { ContractOrder(n); }
  }

  lemma PayslipOrder(n: Name)
    ensures n in PAYSLIP.fields <==> n in PAYSLIP.order
  {
  }

  lemma PayslipIsSchema()
    ensures IsSchema(PAYSLIP)
  {
    forall n ensures n in PAYSLIP.fields <==> n in PAYSLIP.order { PayslipOrder(n); }
  }

  lemma ReceiptOrder(n: Name)
    ensures n in RECEIPT.fields <==> n in RECEIPT.order
  {
  }

  lemma ReceiptIsSchema()
    ensures IsSchema(RECEIPT)
  {
    forall n ensures n in RECEIPT.fields <==> n in RECEIPT.order { ReceiptOrder(n); }
  }

  lemma TheSchemas(s: Schema)
    requires s == INVOICE || s == CONTRACT || s == PAYSLIP || s == RECEIPT
    ensures IsSchema(s)
  {
    InvoiceIsSchema();
    ContractIsSchema();
    PayslipIsSchema();
    ReceiptIsSchema();
  }

  // ---------- fields ----------

  /** A list comes with the amounts of its items, if they have any. */
  datatype Value = NoValue | TextValue(text: string) | IntValue(n: int) | MoneyValue(amount: real) | DateValue(day: int)
                 | ListValue(content: Json, amounts: seq<real>)

  predicate HasKind(v: Value, k: Kind) {
    match k
    case TextKind => v.TextValue?
    case IntKind => v.IntValue?
    case DecimalKind => v.MoneyValue?
    case DateKind => v.DateValue?
    case ListKind => v.ListValue?
  }

  /** What the library reports for a value that does not parse: at least one text. */
  datatype Faults = Faults(first: string, more: seq<string>)

  /** What the library and the language provide: parsing by kind, the faults of a value that does not parse, `upper` and
      `isalpha`. */
  datatype Host = Host(parse: (Kind, Json) -> Option<Value>, faults: (Field, Json) -> Faults,
                       upper: string -> string, alpha: string -> bool)

  /** The raw value that stands in for a required field. */
  function StandIn(k: Kind): Json {
    match k
    case TextKind => Str("")
    case IntKind => Num(0.0)
    case DecimalKind => Str("0")
    case DateKind => Str("1970-01-01")
    case ListKind => Arr(NoItems)
  }

  function FallbackRaw(f: Field): Json {
    match f
    case Optional(_) => Null
    case Required(kind) => StandIn(kind)
  }

  /** Parsing gives values of the kind asked for, accepts the stand-ins and rejects null. */
  ghost predicate IsHost(h: Host) {
    && (forall k, j :: h.parse(k, j).Some? ==> HasKind(h.parse(k, j).value, k))
    && (forall k :: h.parse(k, StandIn(k)).Some? && h.parse(k, Null).None?)
  }

  /** What the annotation of a field makes of a raw value. */
  function Parsed(h: Host, f: Field, raw: Json): Option<Value> {
    if f.Optional? && raw.Null? then Some(NoValue) else h.parse(f.kind, raw)
  }

  /** `validate_currency_code` */
  function CheckedCurrency(h: Host, v: Value): Option<Value> {
    if !v.TextValue? then Some(v)
    else
      var normalized := h.upper(v.text);
      if |normalized| != 3 || !h.alpha(normalized) then None else Some(TextValue(normalized))
  }

  /** The value of a field on its own: parsed and checked. */
  function FieldValue(h: Host, s: Schema, n: Name, raw: Json): Option<Value>
    requires n in s.fields
  {
    match Parsed(h, s.fields[n], raw)
    case None => None
    case Some(v) => if n == s.currency then CheckedCurrency(h, v) else Some(v)
  }

  // ---------- full validation ----------

  type Raw = map<Name, Json>

  type Values = map<Name, Value>

  /** A field is in error if it is there and has no value, or if it is required and missing. */
  predicate IsInError(h: Host, s: Schema, raw: Raw, n: Name)
    requires n in s.fields
  {
    if n in raw then FieldValue(h, s, n, raw[n]).None? else s.fields[n].Required?
  }

  /** What a field contributes: its own value if it is there and has one, its default otherwise. */
  function BestValue(h: Host, s: Schema, raw: Raw, n: Name): Value
    requires n in s.fields
  {
    if n in raw && FieldValue(h, s, n, raw[n]).Some? then FieldValue(h, s, n, raw[n]).value else NoValue
  }

  function BestValues(h: Host, s: Schema, raw: Raw): Values {
    map n | n in s.fields :: BestValue(h, s, raw, n)
  }

  predicate DatesFit(s: Schema, values: Values) {
    s.dates.Some? && s.dates.value.earlier in values && s.dates.value.later in values ==>
      var earlier, later := values[s.dates.value.earlier], values[s.dates.value.later];
      later.DateValue? && earlier.DateValue? ==> later.day >= earlier.day
  }

  /** One remark for each text. */
  function Remarks(n: Name, texts: seq<string>): (r: seq<Remark>)
    ensures |r| == |texts| && forall i :: 0 <= i < |r| ==> r[i] == Remark(Some(n), Library(texts[i]))
  {
    seq(|texts|, i requires 0 <= i < |texts| => Remark(Some(n), Library(texts[i])))
  }

  /** The errors of one field: one for each fault inside a value that does not parse, otherwise a single one. */
  function ErrorsOf(h: Host, s: Schema, raw: Raw, n: Name): seq<Remark>
    requires n in s.fields
  {
    if !IsInError(h, s, raw, n) then []
    else if n !in raw then [Remark(Some(n), FieldRequired)]
    else if Parsed(h, s.fields[n], raw[n]).None? then
      var faults := h.faults(s.fields[n], raw[n]);
      Remarks(n, [faults.first] + faults.more)
    else [Remark(Some(n), Violates(CurrencyCode))]
  }

  /** The errors of the first `k` fields, in their order. */
  function FieldErrors(h: Host, s: Schema, raw: Raw, k: nat): (r: seq<Remark>)
    requires k <= |s.order|
  {
    if k == 0 then []
    else
      var n := s.order[k - 1];
      FieldErrors(h, s, raw, k - 1) + if n in s.fields then ErrorsOf(h, s, raw, n) else []
  }

  /** All fields in error; only without any, the check of the whole model, whose error names no field. */
  function Errors(h: Host, s: Schema, raw: Raw): seq<Remark> {
    var errors := FieldErrors(h, s, raw, |s.order|);
    if errors != [] then errors
    else if DatesFit(s, BestValues(h, s, raw)) then []
    else [Remark(None, Violates(s.dates.value.rule))]
  }

  ghost predicate IsBlamed(errors: seq<Remark>, n: Name) {
    exists k :: 0 <= k < |errors| && errors[k].about == Some(n)
  }

  lemma BlamedInEither(a: seq<Remark>, b: seq<Remark>, n: Name)
    ensures IsBlamed(a + b, n) <==> IsBlamed(a, n) || IsBlamed(b, n)
  {
    if k :| 0 <= k < |a| && a[k].about == Some(n) { assert (a + b)[k] == a[k]; }
    if k :| 0 <= k < |b| && b[k].about == Some(n) { assert (a + b)[|a| + k] == b[k]; }
  }

  lemma ErrorsOfAre(h: Host, s: Schema, raw: Raw, m: Name)
    requires m in s.fields
    ensures ErrorsOf(h, s, raw, m) != [] <==> IsInError(h, s, raw, m)
    ensures forall k :: 0 <= k < |ErrorsOf(h, s, raw, m)| ==> ErrorsOf(h, s, raw, m)[k].about == Some(m)
  {
  }

  lemma BlamedAlone(errors: seq<Remark>, m: Name, n: Name)
    requires forall k :: 0 <= k < |errors| ==> errors[k].about == Some(m)
    ensures IsBlamed(errors, n) <==> n == m && errors != []
    ensures forall e :: e in errors ==> e.about == Some(m)
  {
    if errors != [] { assert errors[0].about == Some(m); }
  }

  lemma ErrorsOfBlame(h: Host, s: Schema, raw: Raw, m: Name, n: Name)
    requires m in s.fields
    ensures IsBlamed(ErrorsOf(h, s, raw, m), n) <==> n == m && IsInError(h, s, raw, m)
    ensures forall e :: e in ErrorsOf(h, s, raw, m) ==> e.about == Some(m)
  {
    ErrorsOfAre(h, s, raw, m);
    BlamedAlone(ErrorsOf(h, s, raw, m), m, n);
  }

  lemma {:induction false} FieldErrorsAre(h: Host, s: Schema, raw: Raw, k: nat, n: Name)
    requires k <= |s.order|
    ensures IsBlamed(FieldErrors(h, s, raw, k), n) <==>
            n in s.order[..k] && n in s.fields && IsInError(h, s, raw, n)
    ensures forall e :: e in FieldErrors(h, s, raw, k) ==> e.about.Some?
  {
    if k > 0 {
      var m := s.order[k - 1];
      FieldErrorsAre(h, s, raw, k - 1, n);
      assert s.order[..k] == s.order[..k - 1] + [m];
      if m in s.fields {
        ErrorsOfBlame(h, s, raw, m, n);
        BlamedInEither(FieldErrors(h, s, raw, k - 1), ErrorsOf(h, s, raw, m), n);
      } else {
        assert FieldErrors(h, s, raw, k - 1) + [] == FieldErrors(h, s, raw, k - 1);
      }
    }
  }

  lemma ErrorsBlame(h: Host, s: Schema, raw: Raw, n: Name)
    requires IsSchema(s) && n in s.fields
    ensures IsBlamed(Errors(h, s, raw), n) <==> IsInError(h, s, raw, n)
  {
    FieldErrorsAre(h, s, raw, |s.order|, n);
    assert s.order[..|s.order|] == s.order;
  }

  // ---------- recovery ----------

  function Candidate(s: Schema, raw: Raw, invalid: set<Name>): Raw {
    map n | n in s.fields :: if n in raw && n !in invalid then raw[n] else FallbackRaw(s.fields[n])
  }

  method CandidateWithFieldValue(s: Schema, raw: Raw, invalid: set<Name>) returns (values: Raw)
    requires forall n :: n in s.fields <==> n in s.order
    ensures values == Candidate(s, raw, invalid)
  {
    values := map[];
    for k := 0 to |s.order|
      invariant forall n :: n in values <==> n in s.order[..k]
      invariant forall n :: n in values ==> values[n] == Candidate(s, raw, invalid)[n]
    {
      var n := s.order[k];
      assert n in s.order && s.order[..k + 1] == s.order[..k] + [n];
      values := values[n := if n in raw && n !in invalid then raw[n] else FallbackRaw(s.fields[n])];
    }
    assert s.order[..|s.order|] == s.order;
  }

  /** The candidate in which every field but `n` is a stand-in. */
  function CandidateFor(s: Schema, n: Name, raw: Json): Raw {
    Candidate(s, map[], {})[n := raw]
  }

  method ValidatedFieldValue(h: Host, s: Schema, n: Name, raw: Json) returns (v: Option<Value>)
    requires (forall n :: n in s.fields <==> n in s.order) && n in s.fields
    ensures v == if Errors(h, s, CandidateFor(s, n, raw)) == [] then FieldValue(h, s, n, raw)
            else Parsed(h, s.fields[n], raw)
  {
    var candidate := CandidateWithFieldValue(s, map[], {});
    candidate := candidate[n := raw];
    if Errors(h, s, candidate) == [] {
      NoErrorsNoBlame(h, s, candidate, n);
      return Some(BestValue(h, s, candidate, n));
    }
    v := Parsed(h, s.fields[n], raw);
  }

  lemma NoErrorsNoBlame(h: Host, s: Schema, raw: Raw, n: Name)
    requires (forall n :: n in s.fields <==> n in s.order) && n in s.fields && Errors(h, s, raw) == []
    ensures !IsInError(h, s, raw, n)
  {
    FieldErrorsAre(h, s, raw, |s.order|, n);
    assert s.order[..|s.order|] == s.order;
  }

  /** Stand-ins are never in error, except that of a required currency. */
  lemma StandInsAreFine(h: Host, s: Schema, n: Name, raw: Json, other: Name)
    requires IsHost(h) && IsSchema(s) && n in s.fields && other in s.fields && other != n && other != s.currency
    ensures !IsInError(h, s, CandidateFor(s, n, raw), other)
  {
  }

  /** For the currency field the candidate validates whenever the field itself does. */
  lemma CurrencyCandidateValidates(h: Host, s: Schema, raw: Json)
    requires IsHost(h) && IsSchema(s) && FieldValue(h, s, s.currency, raw).Some?
    ensures Errors(h, s, CandidateFor(s, s.currency, raw)) == []
  {
    var candidate := CandidateFor(s, s.currency, raw);
    var errors := FieldErrors(h, s, candidate, |s.order|);
    forall n | n in s.fields ensures !IsInError(h, s, candidate, n) {
      if n != s.currency { StandInsAreFine(h, s, s.currency, raw, n); }
    }
    if errors != [] {
      FieldErrorsAre(h, s, candidate, |s.order|, s.currency);
      assert errors[0] in errors && errors[0].about.Some?;
      FieldErrorsAre(h, s, candidate, |s.order|, errors[0].about.value);
    }
    StandInDatesFit(h, s, raw);
  }

  lemma StandInDatesFit(h: Host, s: Schema, raw: Json)
    requires IsHost(h) && IsSchema(s)
    ensures DatesFit(s, BestValues(h, s, CandidateFor(s, s.currency, raw)))
  {
  }

  /** Whichever route is taken, a field that is not in error gets its own value, validator included. */
  lemma BothRoutesAgree(h: Host, s: Schema, n: Name, raw: Json)
    requires IsHost(h) && IsSchema(s) && n in s.fields && FieldValue(h, s, n, raw).Some?
    ensures FieldValue(h, s, n, raw) ==
            if Errors(h, s, CandidateFor(s, n, raw)) == [] then FieldValue(h, s, n, raw)
            else Parsed(h, s.fields[n], raw)
  {
    if n == s.currency { CurrencyCandidateValidates(h, s, raw); }
  }

  /** The candidate of any other field fails in the schemas with a required currency, so that its value comes from
      the plain parse of its annotation. */
  lemma OtherCandidatesFail(h: Host, s: Schema, n: Name, raw: Json)
    requires IsHost(h) && IsSchema(s) && s.fields[s.currency].Required? && n in s.fields && n != s.currency
    requires h.parse(TextKind, Str("")) == Some(TextValue("")) && h.upper("") == ""
    ensures Errors(h, s, CandidateFor(s, n, raw)) != []
  {
    var candidate := CandidateFor(s, n, raw);
    assert IsInError(h, s, candidate, s.currency);
    ErrorsBlame(h, s, candidate, s.currency);
  }

  datatype Status = Completed | Partial | Failed

  datatype Recovered = Recovered(values: Values, data: Option<Values>, warnings: seq<Remark>, status: Status)

  method InvalidFields(errors: seq<Remark>) returns (fields: set<Name>)
    ensures forall n :: n in fields <==> IsBlamed(errors, n)
  {
    fields := {};
    for k := 0 to |errors|
      invariant forall n :: n in fields <==> exists i :: 0 <= i < k && errors[i].about == Some(n)
    {
      if errors[k].about.Some? { fields := fields + {errors[k].about.value}; }
    }
  }

  /** Required fields that neither are there nor have been reported. */
  ghost predicate IsUnreported(s: Schema, raw: Raw, errors: seq<Remark>, n: Name) {
    n in s.fields && n !in raw && !IsBlamed(errors, n) && s.fields[n].Required?
  }

  ghost function Unreported(s: Schema, raw: Raw, errors: seq<Remark>, k: nat): seq<Remark>
    requires k <= |s.order|
  {
    if k == 0 then []
    else
      Unreported(s, raw, errors, k - 1)
      + if IsUnreported(s, raw, errors, s.order[k - 1]) then [Remark(Some(s.order[k - 1]), RequiredMissing)] else []
  }

  method Warnings(s: Schema, raw: Raw, errors: seq<Remark>) returns (warnings: seq<Remark>)
    ensures warnings == errors + Unreported(s, raw, errors, |s.order|)
  {
    warnings := [];
    var reported: set<Name> := {};
    for k := 0 to |errors|
      invariant warnings == errors[..k]
      invariant forall n :: n in reported <==> exists i :: 0 <= i < k && errors[i].about == Some(n)
    {
      if errors[k].about.Some? { reported := reported + {errors[k].about.value}; }
      warnings := warnings + [errors[k]];
    }
    for k := 0 to |s.order|
      invariant warnings == errors + Unreported(s, raw, errors, k)
    {
      var n := s.order[k];
      if n in s.fields && n !in raw && n !in reported && s.fields[n].Required? {
        warnings := warnings + [Remark(Some(n), RequiredMissing)];
      }
    }
  }

  /** Every required field that is missing is among the errors. */
  ghost predicate AllReported(s: Schema, raw: Raw, errors: seq<Remark>) {
    forall n :: n in s.fields && n !in raw && s.fields[n].Required? ==> IsBlamed(errors, n)
  }

  lemma {:induction false} ReportedOnce(s: Schema, raw: Raw, errors: seq<Remark>, k: nat)
    requires AllReported(s, raw, errors) && k <= |s.order|
    ensures Unreported(s, raw, errors, k) == []
  {
    if k > 0 { ReportedOnce(s, raw, errors, k - 1); }
  }

  /** A required field that is missing is always an error already: the second loop of the warnings adds nothing. */
  lemma NothingUnreported(h: Host, s: Schema, raw: Raw)
    requires IsSchema(s)
    ensures Unreported(s, raw, Errors(h, s, raw), |s.order|) == []
  {
    forall n | n in s.fields && n !in raw && s.fields[n].Required? ensures IsBlamed(Errors(h, s, raw), n) {
      ErrorsBlame(h, s, raw, n);
    }
    ReportedOnce(s, raw, Errors(h, s, raw), |s.order|);
  }

  /** A field that is there and not in error. */
  predicate IsValid(h: Host, s: Schema, raw: Raw, n: Name) {
    n in s.fields && n in raw && FieldValue(h, s, n, raw[n]).Some?
  }

  function ValidCount(h: Host, s: Schema, raw: Raw, k: nat): nat
    requires k <= |s.order|
  {
    if k == 0 then 0 else ValidCount(h, s, raw, k - 1) + if IsValid(h, s, raw, s.order[k - 1]) then 1 else 0
  }

  lemma {:induction false} CountMeans(h: Host, s: Schema, raw: Raw, k: nat)
    requires k <= |s.order|
    ensures ValidCount(h, s, raw, k) > 0 <==> exists i :: 0 <= i < k && IsValid(h, s, raw, s.order[i])
  {
    if k > 0 { CountMeans(h, s, raw, k - 1); }
  }

  ghost predicate HasValid(h: Host, s: Schema, raw: Raw) {
    exists n :: IsValid(h, s, raw, n)
  }

  lemma CountMeansValid(h: Host, s: Schema, raw: Raw)
    requires IsSchema(s)
    ensures ValidCount(h, s, raw, |s.order|) > 0 <==> HasValid(h, s, raw)
  {
    CountMeans(h, s, raw, |s.order|);
    if HasValid(h, s, raw) {
      var n :| IsValid(h, s, raw, n);
      assert n in s.order;
      var i :| 0 <= i < |s.order| && s.order[i] == n;
      assert IsValid(h, s, raw, s.order[i]);
    }
  }

  /** `invalid` are the fields in error. */
  ghost predicate AreInvalid(h: Host, s: Schema, raw: Raw, invalid: set<Name>) {
    forall n :: n in s.fields ==> (n in invalid <==> IsInError(h, s, raw, n))
  }

  /** One round of the recovery; `None` stands for an exception of the plain parse. */
  method RecoverField(h: Host, s: Schema, raw: Raw, invalid: set<Name>, n: Name) returns (v: Option<Value>, valid: bool)
    requires IsHost(h) && IsSchema(s) && n in s.fields && AreInvalid(h, s, raw, invalid)
    ensures v == Some(BestValue(h, s, raw, n)) && valid == IsValid(h, s, raw, n)
  {
    if n !in raw || n in invalid { return Some(NoValue), false; }
    BothRoutesAgree(h, s, n, raw[n]);
    v := ValidatedFieldValue(h, s, n, raw[n]);
    valid := true;
  }

  /** The first `k` fields have their best values. */
  ghost predicate AreBest(h: Host, s: Schema, raw: Raw, values: Values, k: nat)
    requires IsSchema(s) && k <= |s.order|
  {
    && values.Keys == (set n | n in s.order[..k])
    && forall n :: n in values ==> n in s.fields && values[n] == BestValue(h, s, raw, n)
  }

  lemma OneMoreBest(h: Host, s: Schema, raw: Raw, values: Values, k: nat)
    requires IsSchema(s) && k < |s.order| && AreBest(h, s, raw, values, k)
    ensures s.order[k] in s.fields
    ensures AreBest(h, s, raw, values[s.order[k] := BestValue(h, s, raw, s.order[k])], k + 1)
  {
    assert s.order[k] in s.order && s.order[..k + 1] == s.order[..k] + [s.order[k]];
  }

  lemma AllAreBest(h: Host, s: Schema, raw: Raw, values: Values)
    requires IsSchema(s) && AreBest(h, s, raw, values, |s.order|)
    ensures values == BestValues(h, s, raw)
  {
    assert s.order[..|s.order|] == s.order;
  }

  method RecoverFields(h: Host, s: Schema, raw: Raw, invalid: set<Name>) returns (values: Option<Values>, count: nat)
    requires IsHost(h) && IsSchema(s) && AreInvalid(h, s, raw, invalid)
    ensures values == Some(BestValues(h, s, raw)) && count == ValidCount(h, s, raw, |s.order|)
  {
    var sofar: Values := map[];
    count := 0;
    for k := 0 to |s.order|
      invariant AreBest(h, s, raw, sofar, k)
      invariant count == ValidCount(h, s, raw, k)
    {
      var n := s.order[k];
      OneMoreBest(h, s, raw, sofar, k);
      var v, valid := RecoverField(h, s, raw, invalid, n);
      if v.None? { return None, count; }
      sofar := sofar[n := v.value];
      if valid { count := count + 1; }
    }
    AllAreBest(h, s, raw, sofar);
    values := Some(sofar);
  }

  // ---------- quality ----------

  function AmountOf(values: Values, n: Name): Option<real> {
    if n in values && values[n].MoneyValue? then Some(values[n].amount) else None
  }

  function AmountsOf(values: Values, n: Name): Option<seq<real>> {
    if n in values && values[n].ListValue? then Some(values[n].amounts) else None
  }

  /** All amounts of the check are there, and the stated one does not fit the others. */
  predicate IsSuspicious(c: Check, values: Values) {
    match c
    case NoCheck => false
    case Sums(subtotal, tax, total, message) =>
      var (a, b, t) := (AmountOf(values, subtotal), AmountOf(values, tax), AmountOf(values, total));
      a.Some? && b.Some? && t.Some? && Money.IsMismatch(t.value, a.value + b.value)
    case Deducts(gross, deductions, net, message) =>
      var (g, ds, n) := (AmountOf(values, gross), AmountsOf(values, deductions), AmountOf(values, net));
      g.Some? && ds.Some? && n.Some? && Money.IsMismatch(n.value, g.value - Money.Sum(ds.value))
  }

  function QualityOf(c: Check, values: Values): seq<Remark> {
    if !IsSuspicious(c, values) then [] else [Remark(Some(if c.Sums? then c.total else c.net), c.message)]
  }

  /** `_quality_warnings`: at most one, and exactly when the amounts do not fit. */
  method QualityWarnings(c: Check, values: Values) returns (warnings: seq<Remark>)
    ensures warnings == QualityOf(c, values)
  {
    match c
    case NoCheck =>
      warnings := [];
    case Sums(subtotal, tax, total, message) =>
      var warns := Money.TotalWarns(AmountOf(values, subtotal), AmountOf(values, tax), AmountOf(values, total));
      warnings := if warns then [Remark(Some(total), message)] else [];
    case Deducts(gross, deductions, net, message) =>
      var warns := Money.PayslipWarns(AmountOf(values, gross), AmountOf(values, net), AmountsOf(values, deductions));
      warnings := if warns then [Remark(Some(net), message)] else [];
  }

  /** A record without a quality warning states a total that is at most one cent off, whenever its amounts are there:
      on validated and on recovered data alike. */
  lemma QuietMeansClose(c: Check, values: Values)
    requires QualityOf(c, values) == []
    ensures c.Sums? && AmountOf(values, c.subtotal).Some? && AmountOf(values, c.tax).Some?
            && AmountOf(values, c.total).Some? ==>
              Money.Abs(values[c.total].amount - (values[c.subtotal].amount + values[c.tax].amount)) <= 0.01
    ensures c.Deducts? && AmountOf(values, c.gross).Some? && AmountsOf(values, c.deductions).Some?
            && AmountOf(values, c.net).Some? ==>
              var left := values[c.gross].amount - Money.Sum(values[c.deductions].amounts);
              Money.Abs(values[c.net].amount - left) <= 0.01
  {
    match c
    case NoCheck =>
    case Sums(subtotal, tax, total, message) =>
      if AmountOf(values, subtotal).Some? && AmountOf(values, tax).Some? && AmountOf(values, total).Some? {
        Money.NoWarningMeansClose(values[total].amount, values[subtotal].amount + values[tax].amount);
      }
    case Deducts(gross, deductions, net, message) =>
      if AmountOf(values, gross).Some? && AmountsOf(values, deductions).Some? && AmountOf(values, net).Some? {
        Money.NoWarningMeansClose(values[net].amount, values[gross].amount - Money.Sum(values[deductions].amounts));
      }
  }

  lemma BlamedAreInvalid(h: Host, s: Schema, raw: Raw, invalid: set<Name>)
    requires IsSchema(s) && forall n :: n in invalid <==> IsBlamed(Errors(h, s, raw), n)
    ensures AreInvalid(h, s, raw, invalid)
  {
    forall n | n in s.fields ensures n in invalid <==> IsInError(h, s, raw, n) {
      ErrorsBlame(h, s, raw, n);
    }
  }

  /** `_recover_partial` */
  method RecoverPartial(h: Host, s: Schema, raw: Raw, errors: seq<Remark>) returns (r: Option<Recovered>)
    requires IsHost(h) && IsSchema(s) && errors == Errors(h, s, raw)
    ensures r.Some? && r.value.values == BestValues(h, s, raw)
    ensures r.value.status == if HasValid(h, s, raw) then Partial else Failed
    ensures r.value.data == if r.value.status.Failed? then None else Some(r.value.values)
    ensures r.value.warnings == errors + QualityOf(s.check, r.value.values)
  {
    var warnings := Warnings(s, raw, errors);
    assert warnings == errors by { NothingUnreported(h, s, raw); }
    var invalid := InvalidFields(errors);
    BlamedAreInvalid(h, s, raw, invalid);
    var values, count := RecoverFields(h, s, raw, invalid);
    CountMeansValid(h, s, raw);
    if values.None? { return None; }
    var status := if count > 0 then Partial else Failed;
    var quality := QualityWarnings(s.check, values.value);
    r := Some(Recovered(values.value, if count > 0 then values else None, warnings + quality, status));
  }

  /** `validate`: completed exactly when nothing is in error; otherwise what recovery gives. */
  method Validate(h: Host, s: Schema, raw: Raw) returns (r: Option<Recovered>)
    requires IsHost(h) && IsSchema(s)
    ensures r.Some? && r.value.values == BestValues(h, s, raw)
    ensures r.value.status.Completed? <==> Errors(h, s, raw) == []
    ensures r.value.status.Failed? <==> Errors(h, s, raw) != [] && !HasValid(h, s, raw)
    ensures r.value.data == if r.value.status.Failed? then None else Some(r.value.values)
    ensures r.value.warnings == Errors(h, s, raw) + QualityOf(s.check, r.value.values)
  {
    var errors := Errors(h, s, raw);
    if errors != [] {
      r := RecoverPartial(h, s, raw, errors);
    } else {
      var values := BestValues(h, s, raw);
      var quality := QualityWarnings(s.check, values);
      r := Some(Recovered(values, Some(values), quality, Completed));
    }
  }

  /** Recovery agrees with full validation: if two inputs agree on the fields that are not in error in the first, and
      the second validates as a whole, then full validation gives these fields the values that recovery gives. */
  lemma RecoveryAgreesWithValidation(h: Host, s: Schema, raw: Raw, whole: Raw, n: Name)
    requires IsSchema(s) && n in s.fields && n in raw && !IsBlamed(Errors(h, s, raw), n)
    requires Errors(h, s, whole) == [] && n in whole && whole[n] == raw[n]
    ensures BestValues(h, s, whole)[n] == BestValues(h, s, raw)[n] && FieldValue(h, s, n, raw[n]).Some?
  {
    ErrorsBlame(h, s, raw, n);
  }

  /** A currency that recovery keeps is the upper-cased three-letter code. */
  lemma RecoveredCurrency(h: Host, s: Schema, raw: Raw, text: string)
    requires IsHost(h) && IsSchema(s) && s.currency in raw && !IsBlamed(Errors(h, s, raw), s.currency)
    requires Parsed(h, s.fields[s.currency], raw[s.currency]) == Some(TextValue(text))
    ensures BestValues(h, s, raw)[s.currency] == TextValue(h.upper(text)) && |h.upper(text)| == 3
            && h.alpha(h.upper(text))
  {
    ErrorsBlame(h, s, raw, s.currency);
  }
}
