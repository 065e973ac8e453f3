/** The four document types and the schemas that their models generate. */
module DocumentTypes {
  import opened JsonTrees
  import opened Simplifier
  import opened NormalForm
  import opened SchemaMeaning
  import opened ToolSchemas

  // ---------- types ----------

  datatype Kind = Text | Day | Money | Count

  datatype Shape = Plain(kind: Kind) | Optional(kind: Kind) | Texts | Records

  datatype Fields = NoFields | Field(name: string, shape: Shape, rest: Fields)

  /** A document type, with the one kind of record that its lists may hold. */
  datatype DocumentType = DocumentType(fields: Fields, part: string, partFields: Fields)

  const LINE_ITEM := Field("description", Plain(Text), Field("quantity", Optional(Money),
                     Field("unit_price", Optional(Money), Field("amount", Plain(Money), NoFields))))

  const PARTY := Field("name", Plain(Text), Field("role", Optional(Text), Field("address", Optional(Text), NoFields)))

  const DEDUCTION := Field("name", Plain(Text), Field("amount", Plain(Money), NoFields))

  const INVOICE_AMOUNTS := Field("subtotal", Plain(Money),
    Field("tax_amount", Optional(Money), Field("total_amount", Plain(Money), Field("currency", Plain(Text),
    Field("line_items", Records, Field("payment_terms", Optional(Text), NoFields))))))

  const INVOICE := DocumentType(
    Field("vendor_name", Plain(Text), Field("vendor_address", Optional(Text), Field("invoice_number", Plain(Text),
    Field("invoice_date", Plain(Day), Field("due_date", Optional(Day), INVOICE_AMOUNTS))))),
    "LineItem", LINE_ITEM)

  const CONTRACT := DocumentType(
    Field("parties", Records, Field("effective_date", Plain(Day), Field("termination_date", Optional(Day),
    Field("governing_law", Optional(Text), Field("payment_amount", Optional(Money),
    Field("payment_currency", Optional(Text), Field("notice_period_days", Optional(Count),
    Field("key_obligations", Texts, NoFields)))))))),
    "Party", PARTY)

  const PAYSLIP_AMOUNTS := Field("gross_pay", Plain(Money), Field("net_pay", Plain(Money),
    Field("currency", Plain(Text), Field("deductions", Records, Field("pay_date", Plain(Day), NoFields)))))

  const PAYSLIP := DocumentType(
    Field("employee_name", Plain(Text), Field("employer_name", Plain(Text), Field("pay_period_start", Plain(Day),
    Field("pay_period_end", Plain(Day), PAYSLIP_AMOUNTS)))),
    "Deduction", DEDUCTION)

  const RECEIPT_AMOUNTS := Field("items", Records,
    Field("subtotal", Optional(Money), Field("tax_amount", Optional(Money), Field("total_amount", Plain(Money),
    Field("currency", Plain(Text), Field("payment_method", Optional(Text), NoFields))))))

  const RECEIPT := DocumentType(
    Field("merchant_name", Plain(Text), Field("merchant_address", Optional(Text), Field("order_number", Optional(Text),
    Field("transaction_id", Optional(Text), Field("receipt_date", Plain(Day), RECEIPT_AMOUNTS))))),
    "LineItem", LINE_ITEM)

  predicate HasName(fields: Fields, name: string) {
    fields.Field? && (fields.name == name || HasName(fields.rest, name))
  }

  /** The names are distinct, and none is one that the simplifier treats specially. */
  predicate HasPlainNames(fields: Fields) {
    fields.Field? ==>
      && fields.name !in {REF, PATTERN, FORMAT, ANY_OF}
      && !HasName(fields.rest, fields.name) && HasPlainNames(fields.rest)
  }

  predicate IsFlat(fields: Fields) {
    fields.Field? ==> !fields.shape.Records? && IsFlat(fields.rest)
  }

  /** The records in lists hold no lists of records themselves. */
  predicate IsDocumentType(t: DocumentType) {
    HasPlainNames(t.fields) && HasPlainNames(t.partFields) && IsFlat(t.partFields) && IsSimpleName(t.part)
  }

  // ---------- the generated schemas ----------

  /** Titles and descriptions, by name, and the pattern of a decimal written as a string: whatever they are. */
  datatype Wording = Wording(title: string -> string, description: string -> string, numeral: string)

  function Notes(name: string, w: Wording): Members {
    Member("title", Str(w.title(name)), Member("description", Str(w.description(name)), NoMembers))
  }

  function Typed(name: string): Json {
    Obj(Member(TYPE, Str(name), NoMembers))
  }

  /** The branches that accept a value, before those of `rest`. */
  function Branches(kind: Kind, rest: Items, w: Wording): Items {
    match kind
    case Text => Item(Typed("string"), rest)
    case Day => Item(Obj(Member(FORMAT, Str("date"), Member(TYPE, Str("string"), NoMembers))), rest)
    case Count => Item(Typed("integer"), rest)
    case Money =>
      Item(Typed("number"),
           Item(Obj(Member(PATTERN, Str(w.numeral), Member(TYPE, Str("string"), NoMembers))), rest))
  }

  function FieldMembers(shape: Shape, part: string, w: Wording, notes: Members): Members {
    match shape
    case Plain(Text) => Member(TYPE, Str("string"), notes)
    case Plain(Day) => Member(FORMAT, Str("date"), Member(TYPE, Str("string"), notes))
    case Plain(Count) => Member(TYPE, Str("integer"), notes)
    case Plain(Money) => Member(ANY_OF, Arr(Branches(Money, NoItems, w)), notes)
    case Optional(kind) =>
      Member(ANY_OF, Arr(Branches(kind, Item(Typed("null"), NoItems), w)), Member("default", Null, notes))
    case Texts => Member(ITEMS, Typed("string"), Member(TYPE, Str("array"), notes))
    case Records =>
      Member(ITEMS, Obj(Member(REF, Str(REF_PREFIX + part), NoMembers)), Member(TYPE, Str("array"), notes))
  }

  function Properties(fields: Fields, part: string, w: Wording): Members {
    match fields
    case NoFields => NoMembers
    case Field(name, shape, rest) =>
      Member(name, Obj(FieldMembers(shape, part, w, Notes(name, w))), Properties(rest, part, w))
  }

  function RequiredNames(fields: Fields): Items {
    match fields
    case NoFields => NoItems
    case Field(name, shape, rest) =>
      if shape.Optional? then RequiredNames(rest) else Item(Str(name), RequiredNames(rest))
  }

  function RecordMembers(name: string, fields: Fields, part: string, w: Wording): Members {
    Member(PROPERTIES, Obj(Properties(fields, part, w)),
           Member(REQUIRED, Arr(RequiredNames(fields)),
                  Member("title", Str(w.title(name)), Member(TYPE, Str("object"), NoMembers))))
  }

  function Definitions(t: DocumentType, w: Wording): Members {
    Member(t.part, Obj(RecordMembers(t.part, t.partFields, t.part, w)), NoMembers)
  }

  function RootMembers(name: string, t: DocumentType, w: Wording): Members {
    RecordMembers(name, t.fields, t.part, w)
  }

  /** `model_json_schema` of the model `name`. */
  function SchemaOf(name: string, t: DocumentType, w: Wording): Json {
    Obj(Member(DEFS, Obj(Definitions(t, w)), RootMembers(name, t, w)))
  }

  function RankOf(t: DocumentType): map<string, nat> {
    map[t.part := 0]
  }

  // ---------- fields ----------

  lemma ScalarIsScalar(ms: Members)
    requires TYPE in Keys(ms) && Lookup(ms, TYPE).Str? && Lookup(ms, TYPE).s != ""
    requires Keys(ms) * KEYWORDS <= {TYPE, PATTERN, FORMAT}
    ensures IsScalar(Obj(ms))
  {
  }

  lemma {:induction false} BranchesAreScalars(kind: Kind, rest: Items, w: Wording)
    requires forall b :: b in Elems(rest) ==> IsScalar(b)
    ensures forall b :: b in Elems(Branches(kind, rest, w)) ==> IsScalar(b)
    ensures var b := Branches(kind, rest, w).head;
            b in Elems(Branches(kind, rest, w)) && IsScalar(b) && Lookup(b.members, TYPE) != Str("null")
  {
    var branches := Branches(kind, rest, w);
    ScalarIsScalar(branches.head.members);
    if kind.Money? { ScalarIsScalar(branches.tail.head.members); }
  }

  lemma ChoiceIsField(branches: Items, rest: Members, defs: Members)
    requires forall b :: b in Elems(branches) ==> IsScalar(b)
    requires exists b :: b in Elems(branches) && IsScalar(b) && Lookup(b.members, TYPE) != Str("null")
    requires Keys(rest) * KEYWORDS == {}
    ensures IsField(Obj(Member(ANY_OF, Arr(branches), rest)), defs)
  {
    var ms := Member(ANY_OF, Arr(branches), rest);
    assert Keys(ms) * KEYWORDS == {ANY_OF} && Lookup(ms, ANY_OF) == Arr(branches);
    assert IsChoice(ms);
  }

  lemma RefIsField(name: string, defs: Members)
    requires IsSimpleName(name) && name in Keys(defs)
    ensures IsField(Obj(Member(REF, Str(REF_PREFIX + name), NoMembers)), defs)
  {
    var ms := Member(REF, Str(REF_PREFIX + name), NoMembers);
    assert (REF_PREFIX + name)[|REF_PREFIX|..] == name;
    assert Keys(ms) == {REF};
  }

  lemma ListIsField(item: Json, rest: Members, defs: Members)
    requires IsField(item, defs) && Keys(rest) * KEYWORDS == {}
    ensures IsField(Obj(Member(ITEMS, item, Member(TYPE, Str("array"), rest))), defs)
  {
    var ms := Member(ITEMS, item, Member(TYPE, Str("array"), rest));
    assert Keys(ms) * KEYWORDS == {ITEMS, TYPE} && Lookup(ms, ITEMS) == item;
  }

  lemma NotesAreNoKeywords(name: string, w: Wording)
    ensures Keys(Notes(name, w)) == {"title", "description"} && Keys(Notes(name, w)) * KEYWORDS == {}
    ensures Keys(Member("default", Null, Notes(name, w))) * KEYWORDS == {}
  {
    assert forall k :: k in KEYWORDS ==> |k| != 11 && (|k| == 5 ==> k[0] != 't') && (|k| == 7 ==> k[0] != 'd');
    assert |"title"| == 5 && "title"[0] == 't' && |"default"| == 7 && "default"[0] == 'd' && |"description"| == 11;
    var notes := Notes(name, w);
    assert Keys(notes.rest) == {"description"} && Keys(notes) == {"title"} + Keys(notes.rest);
    assert Keys(Member("default", Null, notes)) == {"default"} + Keys(notes);
  }

  lemma PlainIsField(kind: Kind, part: string, w: Wording, notes: Members, defs: Members)
    requires Keys(notes) * KEYWORDS == {}
    ensures IsField(Obj(FieldMembers(Plain(kind), part, w, notes)), defs)
  {
    if kind.Money? {
      BranchesAreScalars(kind, NoItems, w);
      ChoiceIsField(Branches(kind, NoItems, w), notes, defs);
    } else {
      var ms := FieldMembers(Plain(kind), part, w, notes);
      ScalarIsScalar(ms);
    }
  }

  lemma FieldIsField(shape: Shape, name: string, part: string, w: Wording, defs: Members)
    requires shape.Records? ==> IsSimpleName(part) && part in Keys(defs)
    ensures IsField(Obj(FieldMembers(shape, part, w, Notes(name, w))), defs)
  {
    var notes := Notes(name, w);
    NotesAreNoKeywords(name, w);
    match shape
    case Plain(kind) => PlainIsField(kind, part, w, notes, defs);
    case Optional(kind) =>
      var none := Item(Typed("null"), NoItems);
      ScalarIsScalar(none.head.members);
      BranchesAreScalars(kind, none, w);
      ChoiceIsField(Branches(kind, none, w), Member("default", Null, notes), defs);
    case Texts =>
      ScalarIsScalar(Typed("string").members);
      ListIsField(Typed("string"), notes, defs);
    case Records =>
      RefIsField(part, defs);
      ListIsField(Obj(Member(REF, Str(REF_PREFIX + part), NoMembers)), notes, defs);
  }

  // ---------- records ----------

  lemma {:induction false} PropertyNames(fields: Fields, part: string, w: Wording, name: string)
    ensures name in Keys(Properties(fields, part, w)) <==> HasName(fields, name)
  {
    if fields.Field? { PropertyNames(fields.rest, part, w, name); }
  }

  lemma {:induction false} SpecialIsNoName(fields: Fields, name: string)
    requires HasPlainNames(fields) && name in {REF, PATTERN, FORMAT, ANY_OF}
    ensures !HasName(fields, name)
  {
    if fields.Field? { SpecialIsNoName(fields.rest, name); }
  }

  lemma PropertiesArePlain(fields: Fields, part: string, w: Wording)
    requires HasPlainNames(fields)
    ensures PlainNames(Properties(fields, part, w))
  {
    forall name | name in {REF, PATTERN, FORMAT, ANY_OF} ensures name !in Keys(Properties(fields, part, w)) {
      SpecialIsNoName(fields, name);
      PropertyNames(fields, part, w, name);
    }
  }

  /** Every property is that of some field. */
  lemma {:induction false} PropertyIsField(fields: Fields, part: string, w: Wording, defs: Members, k: string)
    requires k in Keys(Properties(fields, part, w))
    requires IsFlat(fields) || (IsSimpleName(part) && part in Keys(defs))
    ensures IsField(Lookup(Properties(fields, part, w), k), defs)
  {
    if fields.name == k {
      FieldIsField(fields.shape, fields.name, part, w, defs);
    } else {
      PropertyIsField(fields.rest, part, w, defs, k);
    }
  }

  lemma RecordKeys(name: string, fields: Fields, part: string, w: Wording)
    ensures Keys(RecordMembers(name, fields, part, w)) == {PROPERTIES, REQUIRED, "title", TYPE}
    ensures UniqueKeys(RecordMembers(name, fields, part, w))
    ensures "title" !in KEYWORDS && DEFS !in Keys(RecordMembers(name, fields, part, w))
  {
    var ms := RecordMembers(name, fields, part, w);
    var rest := ms.rest.rest;
    assert Keys(rest.rest) == {TYPE} && Keys(rest) == {"title"} + Keys(rest.rest);
    assert Keys(ms.rest) == {REQUIRED} + Keys(rest) && Keys(ms) == {PROPERTIES} + Keys(ms.rest);
    assert forall k :: k in KEYWORDS ==> |k| == 5 ==> k[0] != 't';
    assert |"title"| == 5 && "title"[0] == 't' && |PROPERTIES| == 10 && |REQUIRED| == 8 && |TYPE| == 4;
    assert |DEFS| == 5 && DEFS[0] == '$';
    assert UniqueKeys(rest.rest) && UniqueKeys(rest) && UniqueKeys(ms.rest);
  }

  lemma RecordIsRecordSchema(name: string, fields: Fields, part: string, w: Wording, defs: Members)
    requires HasPlainNames(fields) && (IsFlat(fields) || (IsSimpleName(part) && part in Keys(defs)))
    ensures IsRecordSchema(Obj(RecordMembers(name, fields, part, w)), defs)
  {
    var ms := RecordMembers(name, fields, part, w);
    var props := Properties(fields, part, w);
    RecordKeys(name, fields, part, w);
    PropertiesArePlain(fields, part, w);
    forall k | k in Keys(props) ensures IsField(Lookup(props, k), defs) {
      PropertyIsField(fields, part, w, defs, k);
    }
    assert Lookup(ms, PROPERTIES) == Obj(props);
  }

  // ---------- what the transformation demands ----------

  lemma OneMoreHeight(key: string, value: Json, rest: Members, defs: Members, rank: map<string, nat>)
    requires IsAnyOfList(key, value) || Height(value, defs, rank) == 0
    requires MembersHeight(rest, defs, rank) == 0
    ensures MembersHeight(Member(key, value, rest), defs, rank) == 0
  {
  }

  lemma TypedHeight(name: string, rest: Members, defs: Members, rank: map<string, nat>)
    requires MembersHeight(rest, defs, rank) == 0
    ensures MembersHeight(Member(TYPE, Str(name), rest), defs, rank) == 0
  {
    OneMoreHeight(TYPE, Str(name), rest, defs, rank);
  }

  lemma NotesHeight(name: string, w: Wording, defs: Members, rank: map<string, nat>)
    ensures MembersHeight(Notes(name, w), defs, rank) == 0
    ensures MembersHeight(Member("default", Null, Notes(name, w)), defs, rank) == 0
  {
    var notes := Notes(name, w);
    OneMoreHeight("description", notes.rest.value, NoMembers, defs, rank);
    OneMoreHeight("title", notes.value, notes.rest, defs, rank);
    OneMoreHeight("default", Null, notes, defs, rank);
  }

  lemma FieldMembersHeight(shape: Shape, name: string, part: string, w: Wording, defs: Members,
                           rank: map<string, nat>)
    requires !shape.Records?
    ensures MembersHeight(FieldMembers(shape, part, w, Notes(name, w)), defs, rank) == 0
  {
    var notes := Notes(name, w);
    NotesHeight(name, w, defs, rank);
    match shape
    case Plain(Text) => TypedHeight("string", notes, defs, rank);
    case Plain(Day) =>
      TypedHeight("string", notes, defs, rank);
      OneMoreHeight(FORMAT, Str("date"), Member(TYPE, Str("string"), notes), defs, rank);
    case Plain(Count) => TypedHeight("integer", notes, defs, rank);
    case Plain(Money) => OneMoreHeight(ANY_OF, Arr(Branches(Money, NoItems, w)), notes, defs, rank);
    case Optional(kind) =>
      var branches := Arr(Branches(kind, Item(Typed("null"), NoItems), w));
      OneMoreHeight(ANY_OF, branches, Member("default", Null, notes), defs, rank);
    case Texts =>
      TypedHeight("array", notes, defs, rank);
      TypedHeight("string", NoMembers, defs, rank);
      NoReference(Typed("string").members, defs);
      OneMoreHeight(ITEMS, Typed("string"), Member(TYPE, Str("array"), notes), defs, rank);
  }

  lemma FieldHasNoRef(shape: Shape, name: string, part: string, w: Wording)
    ensures REF !in Keys(FieldMembers(shape, part, w, Notes(name, w)))
  {
    NotesAreNoKeywords(name, w);
    assert REF in KEYWORDS;
  }

  lemma FieldHeight(shape: Shape, name: string, part: string, w: Wording, defs: Members, rank: map<string, nat>)
    requires !shape.Records?
    ensures Height(Obj(FieldMembers(shape, part, w, Notes(name, w))), defs, rank) == 0
  {
    FieldMembersHeight(shape, name, part, w, defs, rank);
    FieldHasNoRef(shape, name, part, w);
  }

  lemma {:induction false} PropertiesHeight(fields: Fields, part: string, w: Wording, defs: Members,
                                            rank: map<string, nat>)
    requires IsFlat(fields) && HasPlainNames(fields)
    ensures MembersHeight(Properties(fields, part, w), defs, rank) == 0
  {
    if fields.Field? {
      FieldHeight(fields.shape, fields.name, part, w, defs, rank);
      PropertiesHeight(fields.rest, part, w, defs, rank);
    }
  }

  lemma PartIsRanked(t: DocumentType, w: Wording)
    requires IsDocumentType(t)
    ensures Ranked(Definitions(t, w), RankOf(t))
  {
    var (defs, rank) := (Definitions(t, w), RankOf(t));
    var ms := RecordMembers(t.part, t.partFields, t.part, w);
    var props := Properties(t.partFields, t.part, w);
    RecordKeys(t.part, t.partFields, t.part, w);
    PropertiesHeight(t.partFields, t.part, w, defs, rank);
    PropertiesArePlain(t.partFields, t.part, w);
    assert Height(Obj(props), defs, rank) == 0;
    RecordHeight(ms, defs, rank, t.partFields, t.part, w);
    assert Lookup(defs, t.part) == Obj(ms);
  }

  lemma {:induction false} NamesHeight(fields: Fields, defs: Members, rank: map<string, nat>)
    ensures ItemsHeight(RequiredNames(fields), defs, rank) == 0
  {
    if fields.Field? { NamesHeight(fields.rest, defs, rank); }
  }

  lemma RecordHeight(ms: Members, defs: Members, rank: map<string, nat>, fields: Fields, part: string, w: Wording)
    requires ms == RecordMembers(part, fields, part, w)
    requires Height(Obj(Properties(fields, part, w)), defs, rank) == 0
    ensures Height(Obj(ms), defs, rank) == 0
  {
    RecordKeys(part, fields, part, w);
    var rest := ms.rest.rest;
    TypedHeight("object", NoMembers, defs, rank);
    OneMoreHeight("title", rest.value, rest.rest, defs, rank);
    NamesHeight(fields, defs, rank);
    OneMoreHeight(REQUIRED, ms.rest.value, rest, defs, rank);
    OneMoreHeight(PROPERTIES, ms.value, ms.rest, defs, rank);
  }

  lemma PartIsGrounded(t: DocumentType, w: Wording)
    ensures Grounded(Definitions(t, w), RankOf(t))
  {
    RecordKeys(t.part, t.partFields, t.part, w);
    assert Lookup(Definitions(t, w), t.part) == Obj(RecordMembers(t.part, t.partFields, t.part, w));
  }

  // The dictionaries have distinct keys, and references are strings.

  lemma OneMoreSound(key: string, value: Json, rest: Members, defs: Members, rank: map<string, nat>)
    requires Ranked(defs, rank) && SoundMembers(rest, defs, rank)
    requires IsAnyOfList(key, value) || Sound(value, defs, rank)
    ensures SoundMembers(Member(key, value, rest), defs, rank)
  {
  }

  lemma NotesAreSound(name: string, w: Wording, defs: Members, rank: map<string, nat>)
    requires Ranked(defs, rank)
    ensures SoundMembers(Notes(name, w), defs, rank)
    ensures SoundMembers(Member("default", Null, Notes(name, w)), defs, rank)
  {
    var notes := Notes(name, w);
    OneMoreSound("description", notes.rest.value, NoMembers, defs, rank);
    OneMoreSound("title", notes.value, notes.rest, defs, rank);
    OneMoreSound("default", Null, notes, defs, rank);
  }

  /** The reference is to a record that is sound itself. */
  ghost predicate HasPart(part: string, defs: Members, rank: map<string, nat>)
    requires Ranked(defs, rank)
  {
    && IsSimpleName(part) && part in Keys(defs)
    && Lookup(defs, part).Obj? && Sound(Lookup(defs, part), defs, rank)
  }

  lemma RefIsSound(part: string, defs: Members, rank: map<string, nat>)
    requires Ranked(defs, rank) && HasPart(part, defs, rank)
    ensures Sound(Obj(Member(REF, Str(REF_PREFIX + part), NoMembers)), defs, rank)
  {
    var ms := Member(REF, Str(REF_PREFIX + part), NoMembers);
    assert (REF_PREFIX + part)[|REF_PREFIX|..] == part;
    LocalRefIsKnown(ms, defs);
  }

  lemma FieldMembersAreSound(shape: Shape, name: string, part: string, w: Wording, defs: Members,
                             rank: map<string, nat>)
    requires Ranked(defs, rank) && (shape.Records? ==> HasPart(part, defs, rank))
    ensures SoundMembers(FieldMembers(shape, part, w, Notes(name, w)), defs, rank)
  {
    var notes := Notes(name, w);
    NotesAreSound(name, w, defs, rank);
    match shape
    case Plain(Text) => OneMoreSound(TYPE, Str("string"), notes, defs, rank);
    case Plain(Day) =>
      OneMoreSound(TYPE, Str("string"), notes, defs, rank);
      OneMoreSound(FORMAT, Str("date"), Member(TYPE, Str("string"), notes), defs, rank);
    case Plain(Count) => OneMoreSound(TYPE, Str("integer"), notes, defs, rank);
    case Plain(Money) => OneMoreSound(ANY_OF, Arr(Branches(Money, NoItems, w)), notes, defs, rank);
    case Optional(kind) =>
      var branches := Arr(Branches(kind, Item(Typed("null"), NoItems), w));
      OneMoreSound(ANY_OF, branches, Member("default", Null, notes), defs, rank);
    case Texts =>
      OneMoreSound(TYPE, Str("array"), notes, defs, rank);
      OneMoreSound(TYPE, Str("string"), NoMembers, defs, rank);
      NoReference(Typed("string").members, defs);
      OneMoreSound(ITEMS, Typed("string"), Member(TYPE, Str("array"), notes), defs, rank);
    case Records =>
      OneMoreSound(TYPE, Str("array"), notes, defs, rank);
      RefIsSound(part, defs, rank);
      OneMoreSound(ITEMS, FieldMembers(shape, part, w, notes).value, Member(TYPE, Str("array"), notes), defs, rank);
  }

  lemma FieldKeysAreUnique(shape: Shape, name: string, part: string, w: Wording)
    ensures UniqueKeys(FieldMembers(shape, part, w, Notes(name, w)))
  {
    var notes := Notes(name, w);
    NotesAreNoKeywords(name, w);
    assert UniqueKeys(notes.rest) && UniqueKeys(notes);
    assert {TYPE, FORMAT, ANY_OF, ITEMS} <= KEYWORDS;
    assert "default" !in Keys(notes) && UniqueKeys(Member("default", Null, notes));
    assert UniqueKeys(Member(TYPE, Str("array"), notes));
  }

  lemma FieldIsSound(shape: Shape, name: string, part: string, w: Wording, defs: Members, rank: map<string, nat>)
    requires Ranked(defs, rank) && (shape.Records? ==> HasPart(part, defs, rank))
    ensures Sound(Obj(FieldMembers(shape, part, w, Notes(name, w))), defs, rank)
  {
    FieldMembersAreSound(shape, name, part, w, defs, rank);
    FieldHasNoRef(shape, name, part, w);
    FieldKeysAreUnique(shape, name, part, w);
  }

  lemma {:induction false} PropertiesAreSound(fields: Fields, part: string, w: Wording, defs: Members,
                                              rank: map<string, nat>)
    requires Ranked(defs, rank) && HasPlainNames(fields) && (IsFlat(fields) || HasPart(part, defs, rank))
    ensures SoundMembers(Properties(fields, part, w), defs, rank) && UniqueKeys(Properties(fields, part, w))
  {
    match fields
    case NoFields =>
    case Field(name, shape, rest) =>
      PropertiesAreSound(rest, part, w, defs, rank);
      PropertyNames(rest, part, w, name);
      FieldIsSound(shape, name, part, w, defs, rank);
      OneMoreSound(name, Obj(FieldMembers(shape, part, w, Notes(name, w))), Properties(rest, part, w), defs, rank);
  }

  lemma {:induction false} NamesAreSound(fields: Fields, defs: Members, rank: map<string, nat>)
    requires Ranked(defs, rank)
    ensures SoundItems(RequiredNames(fields), defs, rank)
  {
    if fields.Field? { NamesAreSound(fields.rest, defs, rank); }
  }

  lemma RecordIsSound(name: string, fields: Fields, part: string, w: Wording, defs: Members, rank: map<string, nat>)
    requires Ranked(defs, rank) && HasPlainNames(fields) && (IsFlat(fields) || HasPart(part, defs, rank))
    ensures Sound(Obj(RecordMembers(name, fields, part, w)), defs, rank)
  {
    var ms := RecordMembers(name, fields, part, w);
    var props := Properties(fields, part, w);
    RecordKeys(name, fields, part, w);
    PropertiesAreSound(fields, part, w, defs, rank);
    PropertiesArePlain(fields, part, w);
    assert Sound(Obj(props), defs, rank);
    NamesAreSound(fields, defs, rank);
    var rest := ms.rest.rest;
    OneMoreSound(TYPE, Str("object"), NoMembers, defs, rank);
    OneMoreSound("title", rest.value, rest.rest, defs, rank);
    OneMoreSound(REQUIRED, ms.rest.value, rest, defs, rank);
    OneMoreSound(PROPERTIES, ms.value, ms.rest, defs, rank);
  }

  lemma RootAndDefinitions(name: string, t: DocumentType, w: Wording)
    ensures RootOf(SchemaOf(name, t, w)) == Obj(RootMembers(name, t, w))
    ensures DefsOf(SchemaOf(name, t, w)) == Definitions(t, w)
  {
    RecordKeys(name, t.fields, t.part, w);
  }

  /** Whatever the titles, descriptions and patterns: the schema of a document type is a document that the
      transformation accepts, and a record schema with record schemas as its definitions. */
  lemma DocumentTypesAreRecordSchemas(name: string, t: DocumentType, w: Wording)
    requires IsDocumentType(t)
    ensures var schema := SchemaOf(name, t, w);
            && IsDocument(schema, RankOf(t), RankOf(t))
            && IsRecordSchema(RootOf(schema), DefsOf(schema)) && AreRecordSchemas(DefsOf(schema))
  {
    var (defs, rank) := (Definitions(t, w), RankOf(t));
    RootAndDefinitions(name, t, w);
    PartIsRanked(t, w);
    PartIsGrounded(t, w);
    assert Lookup(defs, t.part) == Obj(RecordMembers(t.part, t.partFields, t.part, w));
    RecordIsSound(t.part, t.partFields, t.part, w, defs, rank);
    RecordIsSound(name, t.fields, t.part, w, defs, rank);
    RecordIsRecordSchema(t.part, t.partFields, t.part, w, defs);
    RecordIsRecordSchema(name, t.fields, t.part, w, defs);
  }

  // ---------- the four types ----------

  lemma PartsArePlain()
    ensures HasPlainNames(LINE_ITEM) && HasPlainNames(PARTY) && HasPlainNames(DEDUCTION)
    ensures IsFlat(LINE_ITEM) && IsFlat(PARTY) && IsFlat(DEDUCTION)
  {
  }

  lemma InvoiceAmountNames()
    ensures HasPlainNames(INVOICE_AMOUNTS)
  {
  }

  lemma InvoiceNamesDiffer(name: string)
    requires name in {"vendor_name", "vendor_address", "invoice_number", "invoice_date", "due_date"}
    ensures !HasName(INVOICE_AMOUNTS, name)
  {
  }

  lemma InvoiceIsType()
    ensures IsDocumentType(INVOICE)
  {
    PartsArePlain();
    InvoiceAmountNames();
    forall name | name in {"vendor_name", "vendor_address", "invoice_number", "invoice_date", "due_date"}
      ensures !HasName(INVOICE_AMOUNTS, name)
    {
      InvoiceNamesDiffer(name);
    }
  }

  lemma ContractIsType()
    ensures IsDocumentType(CONTRACT)
  {
    PartsArePlain();
  }

  lemma PayslipAmountNames()
    ensures HasPlainNames(PAYSLIP_AMOUNTS)
  {
  }

  lemma PayslipNamesDiffer(name: string)
    requires name in {"employee_name", "employer_name", "pay_period_start", "pay_period_end"}
    ensures !HasName(PAYSLIP_AMOUNTS, name)
  {
  }

  lemma PayslipIsType()
    ensures IsDocumentType(PAYSLIP)
  {
    PartsArePlain();
    PayslipAmountNames();
    forall name | name in {"employee_name", "employer_name", "pay_period_start", "pay_period_end"}
      ensures !HasName(PAYSLIP_AMOUNTS, name)
    {
      PayslipNamesDiffer(name);
    }
  }

  lemma ReceiptAmountNames()
    ensures HasPlainNames(RECEIPT_AMOUNTS)
  {
  }

  lemma ReceiptNamesDiffer(name: string)
    requires name in {"merchant_name", "merchant_address", "order_number", "transaction_id", "receipt_date"}
    ensures !HasName(RECEIPT_AMOUNTS, name)
  {
  }

  lemma ReceiptIsType()
    ensures IsDocumentType(RECEIPT)
  {
    PartsArePlain();
    ReceiptAmountNames();
    forall name | name in {"merchant_name", "merchant_address", "order_number", "transaction_id", "receipt_date"}
      ensures !HasName(RECEIPT_AMOUNTS, name)
    {
      ReceiptNamesDiffer(name);
    }
  }

  /** On each of the four document types, whatever a model returns within the simplified schema is accepted by the
      original one, as far as structure, types and required keys go. */
  lemma {:induction false} DocumentTypesOnlyNarrow(name: string, t: DocumentType, w: Wording, inst: Json, d: Dialect)
    requires t in {INVOICE, CONTRACT, PAYSLIP, RECEIPT} && IsLenient(d)
    ensures IsDocument(SchemaOf(name, t, w), RankOf(t), RankOf(t))
    ensures Valid(Dereference(SchemaOf(name, t, w), RankOf(t)), inst, NoMembers, map[], d) ==>
              Admits(SchemaOf(name, t, w), inst, RankOf(t), d)
  {
    InvoiceIsType();
    ContractIsType();
    PayslipIsType();
    ReceiptIsType();
    DocumentTypesAreRecordSchemas(name, t, w);
    ToolSchemasOnlyNarrow(SchemaOf(name, t, w), inst, RankOf(t), RankOf(t), d);
  }
}
