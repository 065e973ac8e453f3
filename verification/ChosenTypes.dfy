/** Which type replaces an `anyOf` list, told from its branches. */
module ChosenTypes {
  import opened JsonTrees
  import opened Simplifier
  import opened NormalForm
  import opened SchemaMeaning
  import opened ToolSchemas
  import opened DocumentTypes

  /** What counts as no type at all. */
  predicate IsNothing(j: Json) {
    || j == Null || j == Bool(false) || j == Num(0.0) || j == Str("") || j == Arr(NoItems) || j == Obj(NoMembers)
  }

  lemma TruthyMeans(j: Json)
    ensures Truthy(j) <==> !IsNothing(j)
  {
  }

  function Length(items: Items): nat {
    if items.NoItems? then 0 else 1 + Length(items.tail)
  }

  function Nth(items: Items, k: nat): Json
    requires k < Length(items)
  {
    if k == 0 then items.head else Nth(items.tail, k - 1)
  }

  /** Branch number `k` is a dictionary with a type other than `null`. */
  predicate HasTypeAt(branches: Items, k: nat) {
    && k < Length(branches) && Nth(branches, k).Obj? && TYPE in Keys(Nth(branches, k).members)
    && !IsNothing(Lookup(Nth(branches, k).members, TYPE)) && Lookup(Nth(branches, k).members, TYPE) != Str("null")
  }

  function TypeAt(branches: Items, k: nat): Json
    requires HasTypeAt(branches, k)
  {
    Lookup(Nth(branches, k).members, TYPE)
  }

  /** Some branch has the type. */
  ghost predicate Offers(branches: Items, t: Json) {
    exists k: nat :: HasTypeAt(branches, k) && TypeAt(branches, k) == t
  }

  ghost predicate IsFirstType(branches: Items, k: nat) {
    HasTypeAt(branches, k) && forall i: nat :: HasTypeAt(branches, i) ==> k <= i
  }

  /** `number` before `integer` before `boolean`, whatever their order; otherwise the first type, or `string`. */
  ghost predicate IsChosen(branches: Items, t: Json) {
    if Offers(branches, Str("number")) then t == Str("number")
    else if Offers(branches, Str("integer")) then t == Str("integer")
    else if Offers(branches, Str("boolean")) then t == Str("boolean")
    else
      && (forall k: nat :: IsFirstType(branches, k) ==> t == TypeAt(branches, k))
      && ((forall k: nat :: !HasTypeAt(branches, k)) ==> t == Str("string"))
  }

  // ---------- the collected types ----------

  lemma {:induction false} CollectedAre(branches: Items, t: Json)
    ensures t in Elems(NonNull(BranchTypes(branches))) <==> Offers(branches, t)
  {
    if branches.Item? {
      CollectedAre(branches.tail, t);
      OffersOneMore(branches, t);
      if branches.head.Obj? && TYPE in Keys(branches.head.members) {
        TruthyMeans(Lookup(branches.head.members, TYPE));
      }
    }
  }

  lemma OffersOneMore(branches: Items, t: Json)
    requires branches.Item?
    ensures Offers(branches, t) <==> (HasTypeAt(branches, 0) && TypeAt(branches, 0) == t) || Offers(branches.tail, t)
  {
    if k: nat :| HasTypeAt(branches, k) && TypeAt(branches, k) == t {
      if k > 0 { assert HasTypeAt(branches.tail, k - 1) && TypeAt(branches.tail, k - 1) == t; }
    }
    if k: nat :| HasTypeAt(branches.tail, k) && TypeAt(branches.tail, k) == t {
      assert HasTypeAt(branches, k + 1) && TypeAt(branches, k + 1) == t;
    }
  }

  lemma {:induction false} FirstCollected(branches: Items, k: nat)
    requires IsFirstType(branches, k)
    ensures NonNull(BranchTypes(branches)).Item? && NonNull(BranchTypes(branches)).head == TypeAt(branches, k)
  {
    if branches.head.Obj? && TYPE in Keys(branches.head.members) {
      TruthyMeans(Lookup(branches.head.members, TYPE));
    }
    if k > 0 {
      assert !HasTypeAt(branches, 0);
      forall i: nat | HasTypeAt(branches.tail, i) ensures k - 1 <= i {
        assert HasTypeAt(branches, i + 1);
      }
      FirstCollected(branches.tail, k - 1);
    }
  }

  /** The type that replaces the list is the chosen one. */
  lemma PrimaryTypeIsChosen(branches: Items)
    ensures IsChosen(branches, PrimaryType(branches))
  {
    var types := NonNull(BranchTypes(branches));
    CollectedAre(branches, Str("number"));
    CollectedAre(branches, Str("integer"));
    CollectedAre(branches, Str("boolean"));
    forall k: nat | IsFirstType(branches, k) ensures types.Item? && types.head == TypeAt(branches, k) {
      FirstCollected(branches, k);
    }
    if types.Item? {
      CollectedAre(branches, types.head);
    }
  }

  // ---------- the simplified dictionary ----------

  /** The dictionary's own `type`, if it has one, comes before its `anyOf` list. */
  predicate AnyOfComesLast(ms: Members) {
    match ms
    case NoMembers => true
    case Member(key, value, rest) => if IsAnyOfList(key, value) then TYPE !in Keys(rest) else AnyOfComesLast(rest)
  }

  lemma {:induction false} TypeStays(ms: Members, built: Members, t: Json, defs: Members, rank: map<string, nat>)
    requires Ranked(defs, rank) && SoundMembers(ms, defs, rank)
    requires TYPE !in Keys(ms) && !HasAnyOfList(ms) && UniqueKeys(ms)
    requires TYPE in Keys(built) && Lookup(built, TYPE) == t
    ensures var r := SimplifyMembers(ms, built, defs, rank); TYPE in Keys(r) && Lookup(r, TYPE) == t
    decreases ms
  {
    match ms
    case NoMembers =>
    case Member(key, value, rest) =>
      assert HasAnyOfList(rest) ==> HasAnyOfList(ms);
      TypeStays(rest, Put(built, key, Simplify(value, defs, rank)), t, defs, rank);
  }

  lemma {:induction false} LoopChooses(ms: Members, built: Members, defs: Members, rank: map<string, nat>)
    requires Ranked(defs, rank) && SoundMembers(ms, defs, rank)
    requires UniqueKeys(ms) && HasAnyOfList(ms) && AnyOfComesLast(ms)
    ensures var r := SimplifyMembers(ms, built, defs, rank);
            TYPE in Keys(r) && Lookup(r, TYPE) == PrimaryType(Lookup(ms, ANY_OF).items)
    decreases ms
  {
    match ms
    case Member(key, value, rest) =>
      if IsAnyOfList(key, value) {
        TypeStays(rest, Put(built, TYPE, PrimaryType(value.items)), PrimaryType(value.items), defs, rank);
      } else {
        LoopChooses(rest, Put(built, key, Simplify(value, defs, rank)), defs, rank);
      }
  }

  /** The `type` of a simplified dictionary with an `anyOf` list is the one chosen from the branches. */
  lemma SimplifiedTypeIsChosen(ms: Members, defs: Members, rank: map<string, nat>)
    requires Ranked(defs, rank) && Sound(Obj(ms), defs, rank) && !IsKnownRef(ms, defs)
    requires HasAnyOfList(ms) && AnyOfComesLast(ms)
    ensures var r := Simplify(Obj(ms), defs, rank).members;
            TYPE in Keys(r) && IsChosen(Lookup(ms, ANY_OF).items, Lookup(r, TYPE))
  {
    LoopChooses(ms, NoMembers, defs, rank);
    PrimaryTypeIsChosen(Lookup(ms, ANY_OF).items);
    assert TYPE != PATTERN && TYPE != FORMAT by { assert |TYPE| == 4 && |PATTERN| == 7 && |FORMAT| == 6; }
  }

  lemma {:induction false} LastWithoutType(ms: Members)
    requires TYPE !in Keys(ms)
    ensures AnyOfComesLast(ms)
  {
    match ms
    case NoMembers =>
    case Member(_, _, rest) => LastWithoutType(rest);
  }

  lemma {:induction false} LoopKeepsOwnType(ms: Members, built: Members, defs: Members, rank: map<string, nat>)
    requires Ranked(defs, rank) && SoundMembers(ms, defs, rank)
    requires UniqueKeys(ms) && TYPE in Keys(ms) && !(HasAnyOfList(ms) && AnyOfComesLast(ms))
    ensures var r := SimplifyMembers(ms, built, defs, rank);
            && Sound(Lookup(ms, TYPE), defs, rank)
            && TYPE in Keys(r) && Lookup(r, TYPE) == Simplify(Lookup(ms, TYPE), defs, rank)
    decreases ms
  {
    match ms
    case Member(key, value, rest) =>
      if IsAnyOfList(key, value) {
        LoopKeepsOwnType(rest, Put(built, TYPE, PrimaryType(value.items)), defs, rank);
      } else if key == TYPE {
        LastWithoutType(rest);
        TypeStays(rest, Put(built, key, Simplify(value, defs, rank)), Simplify(value, defs, rank), defs, rank);
      } else {
        LoopKeepsOwnType(rest, Put(built, key, Simplify(value, defs, rank)), defs, rank);
      }
  }

  /** Without an `anyOf` list, or with one before it, the dictionary's own `type` stays. */
  lemma OwnTypeStays(ms: Members, defs: Members, rank: map<string, nat>)
    requires Ranked(defs, rank) && Sound(Obj(ms), defs, rank) && !IsKnownRef(ms, defs)
    requires TYPE in Keys(ms) && !(HasAnyOfList(ms) && AnyOfComesLast(ms))
    ensures var r := Simplify(Obj(ms), defs, rank).members;
            && Sound(Lookup(ms, TYPE), defs, rank)
            && TYPE in Keys(r) && Lookup(r, TYPE) == Simplify(Lookup(ms, TYPE), defs, rank)
  {
    LoopKeepsOwnType(ms, NoMembers, defs, rank);
    assert TYPE != PATTERN && TYPE != FORMAT by { assert |TYPE| == 4 && |PATTERN| == 7 && |FORMAT| == 6; }
  }

  /** A resolved reference: every key of the simplified definition, with its value there, and the other keys next to the
      reference as they are. */
  lemma ResolvedKeysWin(ms: Members, defs: Members, rank: map<string, nat>, k: string)
    requires Ranked(defs, rank) && Sound(Obj(ms), defs, rank) && IsKnownRef(ms, defs)
    ensures var r := Simplify(Obj(ms), defs, rank).members;
            var resolved := Simplify(Lookup(defs, Target(ms, defs)), defs, rank).members;
            && (k in Keys(r) <==> k in Keys(resolved) || (k in Keys(ms) && k != REF))
            && (k in Keys(resolved) ==> Lookup(r, k) == Lookup(resolved, k))
            && (k in Keys(r) && k !in Keys(resolved) ==> Lookup(r, k) == Lookup(ms, k))
  {
    SimplifyKeepsKeysUnique(Lookup(defs, Target(ms, defs)), defs, rank);
  }

  /** A normal dictionary, said with the key names themselves. */
  lemma {:induction false} NormalMeans(ms: Members, defs: Members, name: string)
    requires NormalMembers(ms, defs, false)
    ensures "pattern" !in Keys(ms) && "format" !in Keys(ms)
    ensures "anyOf" in Keys(ms) ==> !Lookup(ms, "anyOf").Arr?
    ensures "$ref" in Keys(ms) && name in Keys(defs) && '/' !in name ==> Lookup(ms, "$ref") != Str("#/$defs/" + name)
    decreases ms
  {
    match ms
    case NoMembers =>
    case Member(key, value, rest) =>
      NormalMeans(rest, defs, name);
      if key == "$ref" && '/' !in name { PrefixIsDropped(name); }
  }

  // ---------- decimals ----------

  predicate IsTypedNumber(j: Json) {
    j.Obj? && TYPE in Keys(j.members) && Lookup(j.members, TYPE) == Str("number")
  }

  predicate IsDecimal(shape: Shape) {
    (shape.Plain? || shape.Optional?) && shape.kind.Money?
  }

  lemma DecimalOffersNumber(rest: Items, w: Wording)
    ensures Offers(Branches(Money, rest, w), Str("number"))
  {
    var branches := Branches(Money, rest, w);
    assert |"number"| == 6 && |"null"| == 4;
    assert Nth(branches, 0) == Typed("number");
    assert HasTypeAt(branches, 0) && TypeAt(branches, 0) == Str("number");
  }

  /** A decimal, optional or not, becomes a number. */
  lemma DecimalBecomesNumber(shape: Shape, name: string, part: string, w: Wording, defs: Members,
                             rank: map<string, nat>)
    requires Ranked(defs, rank) && IsDecimal(shape)
    requires Sound(Obj(FieldMembers(shape, part, w, Notes(name, w))), defs, rank)
    ensures IsTypedNumber(Simplify(Obj(FieldMembers(shape, part, w, Notes(name, w))), defs, rank))
  {
    var notes := Notes(name, w);
    var ms := FieldMembers(shape, part, w, notes);
    FieldHasNoRef(shape, name, part, w);
    NotesAreNoKeywords(name, w);
    assert TYPE in KEYWORDS && ANY_OF in KEYWORDS;
    DecimalOffersNumber(if shape.Optional? then Item(Typed("null"), NoItems) else NoItems, w);
    assert AnyOfComesLast(ms) && Lookup(ms, ANY_OF).Arr?;
    SimplifiedTypeIsChosen(ms, defs, rank);
  }

  /** The field of that name has that shape. */
  predicate HasField(fields: Fields, k: string, shape: Shape) {
    fields.Field? && if fields.name == k then fields.shape == shape else HasField(fields.rest, k, shape)
  }

  lemma {:induction false} PropertyOfField(fields: Fields, part: string, w: Wording, k: string, shape: Shape)
    requires HasField(fields, k, shape)
    ensures var props := Properties(fields, part, w);
            k in Keys(props) && Lookup(props, k) == Obj(FieldMembers(shape, part, w, Notes(k, w)))
  {
    if fields.name != k { PropertyOfField(fields.rest, part, w, k, shape); }
  }

  /** The simplified property `k` of a simplified record. */
  predicate HasProperty(record: Json, k: string) {
    && record.Obj? && PROPERTIES in Keys(record.members) && Lookup(record.members, PROPERTIES).Obj?
    && k in Keys(Lookup(record.members, PROPERTIES).members)
  }

  function Property(record: Json, k: string): Json
    requires HasProperty(record, k)
  {
    Lookup(Lookup(record.members, PROPERTIES).members, k)
  }

  /** Each field of a record is simplified on its own. */
  lemma RecordKeepsField(name: string, fields: Fields, part: string, w: Wording, defs: Members, rank: map<string, nat>,
                         k: string, shape: Shape)
    requires Ranked(defs, rank) && HasPlainNames(fields) && (IsFlat(fields) || HasPart(part, defs, rank))
    requires HasField(fields, k, shape)
    ensures Sound(Obj(RecordMembers(name, fields, part, w)), defs, rank)
    ensures Sound(Obj(FieldMembers(shape, part, w, Notes(k, w))), defs, rank)
    ensures var r := Simplify(Obj(RecordMembers(name, fields, part, w)), defs, rank);
            HasProperty(r, k)
            && Property(r, k) == Simplify(Obj(FieldMembers(shape, part, w, Notes(k, w))), defs, rank)
  {
    var ms, props := RecordMembers(name, fields, part, w), Properties(fields, part, w);
    RecordIsSound(name, fields, part, w, defs, rank);
    RecordKeys(name, fields, part, w);
    NoReference(ms, defs);
    assert Lookup(ms, PROPERTIES) == Obj(props);
    BuiltKeeps(ms, PROPERTIES, defs, rank);
    PropertiesAreSound(fields, part, w, defs, rank);
    PropertiesArePlain(fields, part, w);
    PropertiesAreKept(props, defs, rank);
    PropertyOfField(fields, part, w, k, shape);
    assert Simplify(Obj(props), defs, rank) == Obj(Built(props, defs, rank));
  }

  /** In the simplified schema of a document type, each decimal field is a number. */
  lemma DecimalsOfDocument(name: string, t: DocumentType, w: Wording, k: string, shape: Shape)
    requires IsDocumentType(t) && HasField(t.fields, k, shape) && IsDecimal(shape)
    ensures IsDocument(SchemaOf(name, t, w), RankOf(t), RankOf(t))
    ensures var r := Dereference(SchemaOf(name, t, w), RankOf(t));
            HasProperty(r, k) && IsTypedNumber(Property(r, k))
  {
    var (defs, rank) := (Definitions(t, w), RankOf(t));
    DocumentTypesAreRecordSchemas(name, t, w);
    RootAndDefinitions(name, t, w);
    PartIsThere(t, w);
    RecordKeepsField(name, t.fields, t.part, w, defs, rank, k, shape);
    DecimalBecomesNumber(shape, k, t.part, w, defs, rank);
  }

  lemma PartIsThere(t: DocumentType, w: Wording)
    requires IsDocumentType(t)
    ensures Ranked(Definitions(t, w), RankOf(t)) && HasPart(t.part, Definitions(t, w), RankOf(t))
  {
    PartIsRanked(t, w);
    RecordIsSound(t.part, t.partFields, t.part, w, Definitions(t, w), RankOf(t));
    assert Lookup(Definitions(t, w), t.part) == Obj(RecordMembers(t.part, t.partFields, t.part, w));
  }

  /** What a list of records holds after simplification. */
  predicate HasItems(j: Json) {
    j.Obj? && ITEMS in Keys(j.members)
  }

  lemma ListHoldsRecord(k: string, part: string, w: Wording, defs: Members, rank: map<string, nat>)
    requires Ranked(defs, rank) && HasPart(part, defs, rank)
    requires Sound(Obj(FieldMembers(Records, part, w, Notes(k, w))), defs, rank)
    ensures var r := Simplify(Obj(FieldMembers(Records, part, w, Notes(k, w))), defs, rank);
            HasItems(r) && SameProperties(Lookup(r.members, ITEMS), Simplify(Lookup(defs, part), defs, rank))
  {
    var ms := FieldMembers(Records, part, w, Notes(k, w));
    FieldHasNoRef(Records, k, part, w);
    FieldKeysAreUnique(Records, k, part, w);
    BuiltKeeps(ms, ITEMS, defs, rank);
    ReferenceHoldsRecord(part, defs, rank);
  }

  predicate SameProperties(a: Json, b: Json) {
    && a.Obj? && b.Obj? && (PROPERTIES in Keys(a.members) <==> PROPERTIES in Keys(b.members))
    && (PROPERTIES in Keys(a.members) ==> Lookup(a.members, PROPERTIES) == Lookup(b.members, PROPERTIES))
  }

  lemma ReferenceHoldsRecord(part: string, defs: Members, rank: map<string, nat>)
    requires Ranked(defs, rank) && HasPart(part, defs, rank)
    ensures var ref := Obj(Member(REF, Str(REF_PREFIX + part), NoMembers));
            && Sound(ref, defs, rank)
            && SameProperties(Simplify(ref, defs, rank), Simplify(Lookup(defs, part), defs, rank))
  {
    var ms := Member(REF, Str(REF_PREFIX + part), NoMembers);
    RefIsSound(part, defs, rank);
    assert (REF_PREFIX + part)[|REF_PREFIX|..] == part;
    LocalRefIsKnown(ms, defs);
    SimplifyKeepsKeysUnique(Lookup(defs, part), defs, rank);
    assert Remove(ms, REF) == NoMembers;
  }

  /** So is each decimal field of the records in its lists. */
  lemma DecimalsOfParts(name: string, t: DocumentType, w: Wording, list: string, k: string, shape: Shape)
    requires IsDocumentType(t) && HasField(t.fields, list, Records)
    requires HasField(t.partFields, k, shape) && IsDecimal(shape)
    ensures IsDocument(SchemaOf(name, t, w), RankOf(t), RankOf(t))
    ensures var r := Dereference(SchemaOf(name, t, w), RankOf(t));
            && HasProperty(r, list) && HasItems(Property(r, list))
            && HasProperty(Lookup(Property(r, list).members, ITEMS), k)
            && IsTypedNumber(Property(Lookup(Property(r, list).members, ITEMS), k))
  {
    var (defs, rank) := (Definitions(t, w), RankOf(t));
    DocumentTypesAreRecordSchemas(name, t, w);
    RootAndDefinitions(name, t, w);
    PartIsThere(t, w);
    RecordKeepsField(name, t.fields, t.part, w, defs, rank, list, Records);
    ListHoldsRecord(list, t.part, w, defs, rank);
    assert Lookup(defs, t.part) == Obj(RecordMembers(t.part, t.partFields, t.part, w));
    RecordKeepsField(t.part, t.partFields, t.part, w, defs, rank, k, shape);
    DecimalBecomesNumber(shape, k, t.part, w, defs, rank);
  }

  // ---------- the decimals by name ----------

  function Drop(fields: Fields, n: nat): Fields {
    if n == 0 || fields.NoFields? then fields else Drop(fields.rest, n - 1)
  }

  lemma {:induction false} DroppedIsNamed(fields: Fields, n: nat)
    requires Drop(fields, n).Field?
    ensures HasName(fields, Drop(fields, n).name)
  {
    if n > 0 { DroppedIsNamed(fields.rest, n - 1); }
  }

  /** With distinct names, the n-th field is found by its name. */
  lemma {:induction false} FieldIsFound(fields: Fields, n: nat)
    requires HasPlainNames(fields) && Drop(fields, n).Field?
    ensures HasField(fields, Drop(fields, n).name, Drop(fields, n).shape)
  {
    if n > 0 {
      FieldIsFound(fields.rest, n - 1);
      DroppedIsNamed(fields.rest, n - 1);
    }
  }

  /** The property of the simplified record is a number. */
  predicate HasNumber(r: Json, k: string) {
    HasProperty(r, k) && IsTypedNumber(Property(r, k))
  }

  /** The records in the simplified list have the property as a number. */
  predicate ItemsHaveNumber(r: Json, list: string, k: string) {
    HasProperty(r, list) && HasItems(Property(r, list)) && HasNumber(Lookup(Property(r, list).members, ITEMS), k)
  }

  lemma DecimalAt(name: string, t: DocumentType, w: Wording, n: nat, k: string)
    requires IsDocumentType(t) && Drop(t.fields, n).Field? && Drop(t.fields, n).name == k
    requires IsDecimal(Drop(t.fields, n).shape)
    ensures IsDocument(SchemaOf(name, t, w), RankOf(t), RankOf(t))
    ensures HasNumber(Dereference(SchemaOf(name, t, w), RankOf(t)), k)
  {
    FieldIsFound(t.fields, n);
    DecimalsOfDocument(name, t, w, k, Drop(t.fields, n).shape);
  }

  lemma PartDecimalAt(name: string, t: DocumentType, w: Wording, l: nat, list: string, n: nat, k: string)
    requires IsDocumentType(t) && Drop(t.fields, l).Field? && Drop(t.fields, l).name == list
    requires Drop(t.fields, l).shape == Records
    requires Drop(t.partFields, n).Field? && Drop(t.partFields, n).name == k && IsDecimal(Drop(t.partFields, n).shape)
    ensures IsDocument(SchemaOf(name, t, w), RankOf(t), RankOf(t))
    ensures ItemsHaveNumber(Dereference(SchemaOf(name, t, w), RankOf(t)), list, k)
  {
    FieldIsFound(t.fields, l);
    FieldIsFound(t.partFields, n);
    DecimalsOfParts(name, t, w, list, k, Drop(t.partFields, n).shape);
  }

  lemma InvoiceDecimals(name: string, w: Wording)
    ensures IsDocument(SchemaOf(name, INVOICE, w), RankOf(INVOICE), RankOf(INVOICE))
    ensures var r := Dereference(SchemaOf(name, INVOICE, w), RankOf(INVOICE));
            && HasNumber(r, "subtotal") && HasNumber(r, "tax_amount") && HasNumber(r, "total_amount")
            && ItemsHaveNumber(r, "line_items", "quantity") && ItemsHaveNumber(r, "line_items", "unit_price")
            && ItemsHaveNumber(r, "line_items", "amount")
  {
    InvoiceIsType();
    DecimalAt(name, INVOICE, w, 5, "subtotal");
    DecimalAt(name, INVOICE, w, 6, "tax_amount");
    DecimalAt(name, INVOICE, w, 7, "total_amount");
    PartDecimalAt(name, INVOICE, w, 9, "line_items", 1, "quantity");
    PartDecimalAt(name, INVOICE, w, 9, "line_items", 2, "unit_price");
    PartDecimalAt(name, INVOICE, w, 9, "line_items", 3, "amount");
  }

  lemma ContractDecimals(name: string, w: Wording)
    ensures IsDocument(SchemaOf(name, CONTRACT, w), RankOf(CONTRACT), RankOf(CONTRACT))
    ensures HasNumber(Dereference(SchemaOf(name, CONTRACT, w), RankOf(CONTRACT)), "payment_amount")
  {
    ContractIsType();
    DecimalAt(name, CONTRACT, w, 4, "payment_amount");
  }

  lemma PayslipDecimals(name: string, w: Wording)
    ensures IsDocument(SchemaOf(name, PAYSLIP, w), RankOf(PAYSLIP), RankOf(PAYSLIP))
    ensures var r := Dereference(SchemaOf(name, PAYSLIP, w), RankOf(PAYSLIP));
            HasNumber(r, "gross_pay") && HasNumber(r, "net_pay") && ItemsHaveNumber(r, "deductions", "amount")
  {
    PayslipIsType();
    DecimalAt(name, PAYSLIP, w, 4, "gross_pay");
    DecimalAt(name, PAYSLIP, w, 5, "net_pay");
    PartDecimalAt(name, PAYSLIP, w, 7, "deductions", 1, "amount");
  }

  lemma ReceiptDecimals(name: string, w: Wording)
    ensures IsDocument(SchemaOf(name, RECEIPT, w), RankOf(RECEIPT), RankOf(RECEIPT))
    ensures var r := Dereference(SchemaOf(name, RECEIPT, w), RankOf(RECEIPT));
            && HasNumber(r, "subtotal") && HasNumber(r, "tax_amount") && HasNumber(r, "total_amount")
            && ItemsHaveNumber(r, "items", "quantity") && ItemsHaveNumber(r, "items", "unit_price")
            && ItemsHaveNumber(r, "items", "amount")
  {
    ReceiptIsType();
    DecimalAt(name, RECEIPT, w, 6, "subtotal");
    DecimalAt(name, RECEIPT, w, 7, "tax_amount");
    DecimalAt(name, RECEIPT, w, 8, "total_amount");
    PartDecimalAt(name, RECEIPT, w, 5, "items", 1, "quantity");
    PartDecimalAt(name, RECEIPT, w, 5, "items", 2, "unit_price");
    PartDecimalAt(name, RECEIPT, w, 5, "items", 3, "amount");
  }
}
