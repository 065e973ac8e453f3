/** The schemas of the document types, the only ones the simplifier is given: records of texts, dates, decimals,
    optional scalars and lists, with one definition per nested record. */
module ToolSchemas {
  import opened JsonTrees
  import opened Simplifier
  import opened NormalForm
  import opened SchemaMeaning

  // ---------- shapes ----------

  /** A typed value, possibly with `pattern` or `format`. */
  predicate IsScalar(j: Json) {
    && j.Obj?
    && TYPE in Keys(j.members) && Lookup(j.members, TYPE).Str? && Lookup(j.members, TYPE).s != ""
    && Keys(j.members) * KEYWORDS <= {TYPE, PATTERN, FORMAT}
  }

  /** Scalars to choose from, not all of them `null`: decimals and optional scalars. */
  ghost predicate IsChoice(ms: Members) {
    && Keys(ms) * KEYWORDS == {ANY_OF} && HasAnyOfList(ms)
    && (forall b :: b in Elems(Lookup(ms, ANY_OF).items) ==> IsScalar(b))
    && (exists b :: b in Elems(Lookup(ms, ANY_OF).items) && IsScalar(b) && Lookup(b.members, TYPE) != Str("null"))
  }

  ghost predicate IsField(j: Json, defs: Members)
    decreases Size(j)
  {
    j.Obj? &&
    (|| IsScalar(j)
     || IsChoice(j.members)
     || (Keys(j.members) * KEYWORDS == {REF} && IsLocalRef(j.members, defs))
     || (Keys(j.members) * KEYWORDS == {TYPE, ITEMS} && ITEMS in Keys(j.members)
         && IsField(Lookup(j.members, ITEMS), defs)))
  }

  ghost predicate IsRecordSchema(j: Json, defs: Members) {
    && j.Obj? && Keys(j.members) * KEYWORDS <= {TYPE, PROPERTIES, REQUIRED}
    && (PROPERTIES in Keys(j.members) ==>
          && Lookup(j.members, PROPERTIES).Obj?
          && AreFields(Lookup(j.members, PROPERTIES).members, defs))
  }

  ghost predicate AreFields(props: Members, defs: Members) {
    PlainNames(props) && forall k :: k in Keys(props) ==> IsField(Lookup(props, k), defs)
  }

  ghost predicate AreRecordSchemas(defs: Members) {
    forall name :: name in Keys(defs) ==> IsRecordSchema(Lookup(defs, name), defs)
  }

  // ---------- the chosen type is a branch's ----------

  lemma {:induction false} BranchHasType(branches: Items, t: Json)
    requires t in Elems(BranchTypes(branches))
    ensures exists b :: b in Elems(branches) && b.Obj? && TYPE in Keys(b.members) && Lookup(b.members, TYPE) == t
  {
    if t in Elems(BranchTypes(branches.tail)) {
      BranchHasType(branches.tail, t);
      var b :| b in Elems(branches.tail) && b.Obj? && TYPE in Keys(b.members) && Lookup(b.members, TYPE) == t;
      assert b in Elems(branches);
    } else {
      assert branches.head in Elems(branches);
    }
  }

  lemma {:induction false} TypeIsListed(branches: Items, b: Json)
    requires b in Elems(branches) && IsScalar(b)
    ensures Lookup(b.members, TYPE) in Elems(BranchTypes(branches))
  {
    if b != branches.head { TypeIsListed(branches.tail, b); }
  }

  lemma {:induction false} NonNullElems(types: Items, t: Json)
    ensures t in Elems(NonNull(types)) <==> t in Elems(types) && t != Str("null")
  {
    if types.Item? { NonNullElems(types.tail, t); }
  }

  lemma ChosenFromList(types: Items)
    requires types.Item?
    ensures Choose(types) in Elems(types)
  {
  }

  lemma SomeBranchIsBare(branches: Items, b: Json)
    requires forall x :: x in Elems(branches) ==> IsScalar(x)
    requires b in Elems(branches) && IsScalar(b) && Lookup(b.members, TYPE) != Str("null")
    ensures exists x :: x in Elems(branches) && IsBareBranch(x, PrimaryType(branches), true)
  {
    var types := BranchTypes(branches);
    TypeIsListed(branches, b);
    NonNullElems(types, Lookup(b.members, TYPE));
    ChosenFromList(NonNull(types));
    NonNullElems(types, PrimaryType(branches));
    BranchHasType(branches, PrimaryType(branches));
    var x :| x in Elems(branches) && x.Obj? && TYPE in Keys(x.members)
             && Lookup(x.members, TYPE) == PrimaryType(branches);
    assert IsScalar(x);
  }

  lemma ChoiceIsBare(ms: Members)
    requires IsChoice(ms)
    ensures AnyOfIsBare(ms, true)
  {
    var branches := Lookup(ms, ANY_OF).items;
    var b :| b in Elems(branches) && IsScalar(b) && Lookup(b.members, TYPE) != Str("null");
    SomeBranchIsBare(branches, b);
    assert TYPE in KEYWORDS && TYPE !in Keys(ms) * KEYWORDS;
  }

  // ---------- records lie within the narrowing fragment ----------

  const LOSSY := Fragment(true, true)

  lemma NoReference(ms: Members, defs: Members)
    requires REF !in Keys(ms) * KEYWORDS
    ensures !IsKnownRef(ms, defs)
  {
    assert REF in KEYWORDS;
  }

  lemma {:induction false} FieldWithin(j: Json, defs: Members, rank: map<string, nat>)
    requires Ranked(defs, rank) && AreRecordSchemas(defs) && IsField(j, defs)
    ensures Within(j, LOSSY, defs, rank)
    decreases Height(j, defs, rank), Size(j)
  {
    var ms := j.members;
    assert {REF, PROPERTIES, ITEMS, ANY_OF} <= KEYWORDS;
    if Keys(ms) * KEYWORDS == {REF} && IsLocalRef(ms, defs) {
      LocalRefIsKnown(ms, defs);
      RecordWithin(Lookup(defs, Target(ms, defs)), defs, rank);
    } else {
      NoReference(ms, defs);
      assert PROPERTIES !in Keys(ms) * KEYWORDS;
      if IsChoice(ms) {
        ChoiceIsBare(ms);
        assert ITEMS !in Keys(ms) * KEYWORDS;
      } else {
        assert ANY_OF !in Keys(ms) * KEYWORDS;
        if ITEMS in Keys(ms) {
          assert ITEMS in Keys(ms) * KEYWORDS;
          FieldWithin(Lookup(ms, ITEMS), defs, rank);
        }
      }
    }
  }

  lemma {:induction false} RecordWithin(j: Json, defs: Members, rank: map<string, nat>)
    requires Ranked(defs, rank) && AreRecordSchemas(defs) && IsRecordSchema(j, defs)
    ensures Within(j, LOSSY, defs, rank)
    decreases Height(j, defs, rank), Size(j)
  {
    var ms := j.members;
    NoReference(ms, defs);
    assert {PROPERTIES, ITEMS, ANY_OF} <= KEYWORDS;
    assert ITEMS !in Keys(ms) * KEYWORDS && ANY_OF !in Keys(ms) * KEYWORDS;
    if PROPERTIES in Keys(ms) {
      var props := Lookup(ms, PROPERTIES).members;
      forall k | k in Keys(props) ensures Within(Lookup(props, k), LOSSY, defs, rank) {
        NoReference(props, defs);
        FieldWithin(Lookup(props, k), defs, rank);
      }
    }
  }

  /** On the schema of a document type, whatever a model returns within the simplified schema is accepted by the
      original one, as far as structure, types and required keys go. */
  lemma {:induction false} ToolSchemasOnlyNarrow(schema: Json, inst: Json, rank: map<string, nat>,
                                                 order: map<string, nat>, d: Dialect)
    requires IsDocument(schema, rank, order) && IsLenient(d)
    requires IsRecordSchema(RootOf(schema), DefsOf(schema)) && AreRecordSchemas(DefsOf(schema))
    ensures Valid(Dereference(schema, rank), inst, NoMembers, map[], d) ==> Admits(schema, inst, order, d)
  {
    RecordWithin(RootOf(schema), DefsOf(schema), rank);
    SimplifyOnlyNarrowsLeniently(schema, inst, rank, order, d);
  }
}
