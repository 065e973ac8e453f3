/** Which instances a schema accepts before and after simplification, for the keywords of JSON Schema
    2020-12 that the document schemas use: `type`, `properties`, `required`, `items`, `anyOf`,
    `$ref` into `$defs`, `pattern` and `format`. */
module SchemaMeaning {
  import opened JsonTrees
  import opened Simplifier
  import opened NormalForm

  const PROPERTIES := "properties"
  const REQUIRED := "required"
  const ITEMS := "items"
  const KEYWORDS := {REF, TYPE, PROPERTIES, REQUIRED, ITEMS, ANY_OF, PATTERN, FORMAT}

  /** What the standard leaves to the implementation. */
  datatype Dialect = Dialect(
    pattern: (Json, string) -> bool,
    format: (Json, Json) -> bool,
    external: (string, Json) -> bool)

  // ---------- references and their well-foundedness ----------

  /** A definition name that needs no unescaping inside a JSON pointer or a URI fragment. */
  predicate IsSimpleName(name: string) {
    '/' !in name && '~' !in name && '%' !in name
  }

  predicate IsLocalPath(path: string, defs: Members) {
    && REF_PREFIX <= path
    && IsSimpleName(path[|REF_PREFIX|..])
    && path[|REF_PREFIX|..] in Keys(defs)
  }

  function LocalName(path: string, defs: Members): string
    requires IsLocalPath(path, defs)
    ensures LocalName(path, defs) in Keys(defs)
  {
    path[|REF_PREFIX|..]
  }

  predicate IsLocalRef(ms: Members, defs: Members) {
    REF in Keys(ms) && Lookup(ms, REF).Str? && IsLocalPath(Lookup(ms, REF).s, defs)
  }

  predicate HasAnyOfList(ms: Members) {
    ANY_OF in Keys(ms) && Lookup(ms, ANY_OF).Arr?
  }

  /** One more than the highest rank of a definition that applies to the very instance `schema` is
      checked against: references reached through `$ref` and `anyOf` only. */
  ghost function InPlace(schema: Json, defs: Members, order: map<string, nat>): nat
    decreases Size(schema)
  {
    match schema
    case Obj(ms) =>
      Max(if REF in Keys(ms) then RefInPlace(Lookup(ms, REF), defs, order) else 0,
          if HasAnyOfList(ms) then InPlaceItems(Lookup(ms, ANY_OF).items, defs, order) else 0)
    case _ => 0
  }

  ghost function RefInPlace(ref: Json, defs: Members, order: map<string, nat>): nat {
    if ref.Str? && IsLocalPath(ref.s, defs) && LocalName(ref.s, defs) in order
    then order[LocalName(ref.s, defs)] + 1
    else 0
  }

  ghost function InPlaceItems(items: Items, defs: Members, order: map<string, nat>): (r: nat)
    ensures forall x :: x in Elems(items) ==> InPlace(x, defs, order) <= r
    decreases ItemsSize(items)
  {
    match items
    case NoItems => 0
    case Item(head, tail) => Max(InPlace(head, defs, order), InPlaceItems(tail, defs, order))
  }

  /** No definition refers to itself without descending into the instance. */
  ghost predicate Grounded(defs: Members, order: map<string, nat>) {
    forall name :: name in Keys(defs) ==> name in order && InPlace(Lookup(defs, name), defs, order) <= order[name]
  }

  // ---------- validity ----------

  predicate HasType(name: string, inst: Json) {
    match inst
    case Null => name == "null"
    case Bool(_) => name == "boolean"
    case Num(n) => name == "number" || (name == "integer" && n == n.Floor as real)
    case Str(_) => name == "string"
    case Arr(_) => name == "array"
    case Obj(_) => name == "object"
  }

  ghost predicate TypeAllows(t: Json, inst: Json) {
    match t
    case Str(name) => HasType(name, inst)
    case Arr(items) => exists name :: Str(name) in Elems(items) && HasType(name, inst)
    case _ => true
  }

  ghost predicate HasRequired(req: Json, inst: Json) {
    req.Arr? && inst.Obj? ==> forall k :: Str(k) in Elems(req.items) ==> k in Keys(inst.members)
  }

  ghost predicate ChecksPass(ms: Members, inst: Json, d: Dialect) {
    && (PATTERN in Keys(ms) && inst.Str? ==> d.pattern(Lookup(ms, PATTERN), inst.s))
    && (FORMAT in Keys(ms) ==> d.format(Lookup(ms, FORMAT), inst))
  }

  ghost predicate Valid(schema: Json, inst: Json, defs: Members, order: map<string, nat>, d: Dialect)
    requires Grounded(defs, order)
    decreases Size(inst), InPlace(schema, defs, order), Size(schema)
  {
    match schema
    case Bool(b) => b
    case Obj(ms) =>
      && (TYPE in Keys(ms) ==> TypeAllows(Lookup(ms, TYPE), inst))
      && (REQUIRED in Keys(ms) ==> HasRequired(Lookup(ms, REQUIRED), inst))
      && ChecksPass(ms, inst, d)
      && (PROPERTIES in Keys(ms) ==> PropertiesHold(Lookup(ms, PROPERTIES), inst, defs, order, d))
      && (ITEMS in Keys(ms) ==> ItemsHold(Lookup(ms, ITEMS), inst, defs, order, d))
      && (ANY_OF in Keys(ms) ==> AnyOfHolds(Lookup(ms, ANY_OF), inst, defs, order, d))
      && (REF in Keys(ms) ==> RefHolds(Lookup(ms, REF), inst, defs, order, d))
    case _ => true
  }

  ghost predicate PropertiesHold(props: Json, inst: Json, defs: Members, order: map<string, nat>, d: Dialect)
    requires Grounded(defs, order)
    decreases Size(inst), 0, Size(props)
  {
    props.Obj? && inst.Obj? ==>
      forall k :: k in Keys(props.members) && k in Keys(inst.members) ==>
        Valid(Lookup(props.members, k), Lookup(inst.members, k), defs, order, d)
  }

  ghost predicate ItemsHold(sub: Json, inst: Json, defs: Members, order: map<string, nat>, d: Dialect)
    requires Grounded(defs, order)
    decreases Size(inst), 0, Size(sub)
  {
    inst.Arr? ==> forall x :: x in Elems(inst.items) ==> Valid(sub, x, defs, order, d)
  }

  ghost predicate AnyOfHolds(branches: Json, inst: Json, defs: Members, order: map<string, nat>, d: Dialect)
    requires Grounded(defs, order)
    decreases Size(inst), if branches.Arr? then InPlaceItems(branches.items, defs, order) else 0, Size(branches)
  {
    branches.Arr? ==> exists b :: b in Elems(branches.items) && Valid(b, inst, defs, order, d)
  }

  ghost predicate RefHolds(ref: Json, inst: Json, defs: Members, order: map<string, nat>, d: Dialect)
    requires Grounded(defs, order)
    decreases Size(inst), RefInPlace(ref, defs, order), Size(ref)
  {
    ref.Str? ==>
      if IsLocalPath(ref.s, defs) then Valid(Lookup(defs, LocalName(ref.s, defs)), inst, defs, order, d)
      else d.external(ref.s, inst)
  }

  // ---------- the fragments on which meaning is kept ----------

  /** Which lossy features a schema may use: lists under `anyOf`, and `pattern` or `format`. */
  datatype Fragment = Fragment(anyOf: bool, checks: bool)

  /** `pattern` and `format` never reject anything; by default `format` is only an annotation. */
  ghost predicate IsLenient(d: Dialect) {
    && (forall p: Json, text: string :: d.pattern(p, text))
    && (forall f: Json, inst: Json :: d.format(f, inst))
  }

  /** A branch that accepts every instance of the type the simplifier chooses for the list, `pattern` and
      `format` aside where the fragment admits them. */
  predicate IsBareBranch(branch: Json, chosen: Json, checks: bool) {
    && branch.Obj?
    && TYPE in Keys(branch.members)
    && Lookup(branch.members, TYPE) == chosen
    && Keys(branch.members) * KEYWORDS <= (if checks then {TYPE, PATTERN, FORMAT} else {TYPE})
  }

  ghost predicate AnyOfIsBare(ms: Members, checks: bool)
    requires HasAnyOfList(ms)
  {
    var branches := Lookup(ms, ANY_OF).items;
    && (exists b :: b in Elems(branches) && IsBareBranch(b, PrimaryType(branches), checks))
    && (TYPE in Keys(ms) ==> PrimaryType(branches).Str? && Lookup(ms, TYPE) == PrimaryType(branches))
  }

  /** Property names on which the simplifier mistakes a property for a keyword. */
  predicate PlainNames(props: Members) {
    REF !in Keys(props) && PATTERN !in Keys(props) && FORMAT !in Keys(props) && !HasAnyOfList(props)
  }

  ghost predicate Within(schema: Json, frag: Fragment, defs: Members, rank: map<string, nat>)
    requires Ranked(defs, rank)
    decreases Height(schema, defs, rank), Size(schema)
  {
    match schema
    case Obj(ms) =>
      if IsKnownRef(ms, defs) then
        && IsLocalRef(ms, defs)
        && Keys(ms) * KEYWORDS == {REF}
        && Within(Lookup(defs, Target(ms, defs)), frag, defs, rank)
      else
        && (PROPERTIES in Keys(ms) && Lookup(ms, PROPERTIES).Obj? ==>
              var props := Lookup(ms, PROPERTIES).members;
              && PlainNames(props)
              && forall k :: k in Keys(props) ==> Within(Lookup(props, k), frag, defs, rank))
        && (ITEMS in Keys(ms) ==> Within(Lookup(ms, ITEMS), frag, defs, rank))
        && (HasAnyOfList(ms) ==> frag.anyOf && AnyOfIsBare(ms, frag.checks))
        && (frag.checks || (PATTERN !in Keys(ms) && FORMAT !in Keys(ms)))
    case _ => true
  }

  // ---------- the dictionary the loop builds ----------

  lemma {:induction false} SoundValue(ms: Members, k: string, defs: Members, rank: map<string, nat>)
    requires Ranked(defs, rank) && SoundMembers(ms, defs, rank)
    requires k in Keys(ms) && !IsAnyOfList(k, Lookup(ms, k))
    ensures Sound(Lookup(ms, k), defs, rank)
  {
    if ms.key != k { SoundValue(ms.rest, k, defs, rank); }
  }

  /** Every key except `type` and a list under `anyOf` keeps its simplified value. */
  lemma {:induction false} LoopKeeps(ms: Members, built: Members, k: string, defs: Members, rank: map<string, nat>)
    requires Ranked(defs, rank) && SoundMembers(ms, defs, rank) && UniqueKeys(ms)
    requires k == TYPE ==> !HasAnyOfList(ms)
    ensures var r := SimplifyMembers(ms, built, defs, rank);
            if k in Keys(ms) && !IsAnyOfList(k, Lookup(ms, k)) then
              && Sound(Lookup(ms, k), defs, rank)
              && k in Keys(r) && Lookup(r, k) == Simplify(Lookup(ms, k), defs, rank)
            else
              && (k in Keys(r) <==> k in Keys(built))
              && (k in Keys(built) ==> Lookup(r, k) == Lookup(built, k))
    decreases ms
  {
    match ms
    case NoMembers =>
    case Member(key, value, rest) =>
      assert HasAnyOfList(rest) ==> HasAnyOfList(ms);
      if IsAnyOfList(key, value) {
        LoopKeeps(rest, Put(built, TYPE, PrimaryType(value.items)), k, defs, rank);
      } else {
        LoopKeeps(rest, Put(built, key, Simplify(value, defs, rank)), k, defs, rank);
      }
  }

  /** When every assignment to `type` writes the same string, that string is what remains. */
  lemma {:induction false} LoopWritesType(ms: Members, built: Members, t: Json, defs: Members, rank: map<string, nat>)
    requires Ranked(defs, rank) && SoundMembers(ms, defs, rank) && UniqueKeys(ms)
    requires HasAnyOfList(ms) || (TYPE in Keys(built) && Lookup(built, TYPE) == t)
    requires HasAnyOfList(ms) ==> PrimaryType(Lookup(ms, ANY_OF).items) == t
    requires TYPE in Keys(ms) ==> t.Str? && Lookup(ms, TYPE) == t
    ensures var r := SimplifyMembers(ms, built, defs, rank); TYPE in Keys(r) && Lookup(r, TYPE) == t
    decreases ms
  {
    match ms
    case NoMembers =>
    case Member(key, value, rest) =>
      if IsAnyOfList(key, value) {
        LoopWritesType(rest, Put(built, TYPE, PrimaryType(value.items)), t, defs, rank);
      } else {
        LoopWritesType(rest, Put(built, key, Simplify(value, defs, rank)), t, defs, rank);
      }
  }

  /** The members of a simplified dictionary that is not a reference. */
  ghost function Built(ms: Members, defs: Members, rank: map<string, nat>): Members
    requires Ranked(defs, rank) && SoundMembers(ms, defs, rank)
  {
    Remove(Remove(SimplifyMembers(ms, NoMembers, defs, rank), PATTERN), FORMAT)
  }

  lemma BuiltKeeps(ms: Members, k: string, defs: Members, rank: map<string, nat>)
    requires Ranked(defs, rank) && SoundMembers(ms, defs, rank) && UniqueKeys(ms)
    requires k != PATTERN && k != FORMAT && (k == TYPE ==> !HasAnyOfList(ms))
    ensures var r := Built(ms, defs, rank);
            if k in Keys(ms) && !IsAnyOfList(k, Lookup(ms, k)) then
              && Sound(Lookup(ms, k), defs, rank)
              && k in Keys(r) && Lookup(r, k) == Simplify(Lookup(ms, k), defs, rank)
            else k !in Keys(r)
  {
    LoopKeeps(ms, NoMembers, k, defs, rank);
  }

  lemma {:induction false} StringsSurvive(items: Items, s: string, defs: Members, rank: map<string, nat>)
    requires Ranked(defs, rank) && SoundItems(items, defs, rank)
    ensures Str(s) in Elems(items) <==> Str(s) in Elems(SimplifyItems(items, defs, rank))
    decreases items
  {
    match items
    case NoItems =>
    case Item(head, tail) => StringsSurvive(tail, s, defs, rank);
  }

  lemma TypeIsKept(t: Json, inst: Json, defs: Members, rank: map<string, nat>)
    requires Ranked(defs, rank) && Sound(t, defs, rank)
    ensures TypeAllows(t, inst) <==> TypeAllows(Simplify(t, defs, rank), inst)
  {
    if t.Arr? {
      forall s ensures Str(s) in Elems(t.items) <==> Str(s) in Elems(SimplifyItems(t.items, defs, rank)) {
        StringsSurvive(t.items, s, defs, rank);
      }
    }
  }

  lemma RequiredIsKept(req: Json, inst: Json, defs: Members, rank: map<string, nat>)
    requires Ranked(defs, rank) && Sound(req, defs, rank)
    ensures HasRequired(req, inst) <==> HasRequired(Simplify(req, defs, rank), inst)
  {
    if req.Arr? {
      forall s ensures Str(s) in Elems(req.items) <==> Str(s) in Elems(SimplifyItems(req.items, defs, rank)) {
        StringsSurvive(req.items, s, defs, rank);
      }
    }
  }

  // ---------- references ----------

  lemma {:induction false} SimpleNameIsLastSegment(path: string, name: string)
    requires '/' !in name && |name| <= |path| && path[|path| - |name|..] == name
    requires |name| < |path| ==> path[|path| - |name| - 1] == '/'
    ensures LastSegment(path) == name
  {
    if |name| == |path| {
      assert path == name;
    } else {
      assert path[1..][|path[1..]| - |name|..] == name;
      SimpleNameIsLastSegment(path[1..], name);
    }
  }

  /** For a plain definition name, the last path segment is the name the pointer denotes. */
  lemma LocalRefIsKnown(ms: Members, defs: Members)
    requires IsLocalRef(ms, defs)
    ensures IsKnownRef(ms, defs) && Target(ms, defs) == LocalName(Lookup(ms, REF).s, defs)
  {
    SimpleNameIsLastSegment(Lookup(ms, REF).s, LocalName(Lookup(ms, REF).s, defs));
  }

  ghost predicate SameAt(a: Members, b: Members, k: string) {
    && (k in Keys(a) <==> k in Keys(b))
    && (k in Keys(a) ==> Lookup(a, k) == Lookup(b, k))
  }

  /** Dictionaries that agree on the keywords accept the same instances. */
  lemma SameKeywordsSameMeaning(a: Members, b: Members, inst: Json, defs: Members, order: map<string, nat>, d: Dialect)
    requires Grounded(defs, order)
    requires SameAt(a, b, TYPE) && SameAt(a, b, REQUIRED) && SameAt(a, b, PATTERN) && SameAt(a, b, FORMAT)
    requires SameAt(a, b, PROPERTIES) && SameAt(a, b, ITEMS) && SameAt(a, b, ANY_OF) && SameAt(a, b, REF)
    ensures Valid(Obj(a), inst, defs, order, d) == Valid(Obj(b), inst, defs, order, d)
  {
  }

  // ---------- the theorems ----------

  /** Nothing that the simplifier drops could have rejected an instance. */
  ghost predicate IsExact(frag: Fragment, d: Dialect) {
    !frag.checks || IsLenient(d)
  }

  /** What a fragment promises about a verdict, or a clause of it, before and after. */
  ghost predicate ClauseRelated(frag: Fragment, d: Dialect, before: bool, after: bool) {
    (!frag.anyOf && before ==> after) && (IsExact(frag, d) && after ==> before)
  }

  ghost predicate Related(schema: Json, inst: Json, frag: Fragment, defs: Members, rank: map<string, nat>,
                          order: map<string, nat>, d: Dialect)
    requires Ranked(defs, rank) && Sound(schema, defs, rank) && Grounded(defs, order)
  {
    ClauseRelated(frag, d, Valid(schema, inst, defs, order, d),
                  Valid(Simplify(schema, defs, rank), inst, defs, order, d))
  }

  lemma {:induction false} MeaningInContext(schema: Json, inst: Json, frag: Fragment, defs: Members,
                                            rank: map<string, nat>, order: map<string, nat>, d: Dialect)
    requires Ranked(defs, rank) && Sound(schema, defs, rank) && Grounded(defs, order)
    requires Within(schema, frag, defs, rank)
    ensures Related(schema, inst, frag, defs, rank, order, d)
    decreases Height(schema, defs, rank), Size(schema)
  {
    match schema
    case Obj(ms) =>
      if IsKnownRef(ms, defs) {
        ReferenceIsRelated(ms, inst, frag, defs, rank, order, d);
      } else {
        DictionaryIsRelated(ms, inst, frag, defs, rank, order, d);
      }
    case _ =>
      OthersAreRelated(schema, inst, frag, defs, rank, order, d);
  }

  lemma OthersAreRelated(schema: Json, inst: Json, frag: Fragment, defs: Members, rank: map<string, nat>,
                         order: map<string, nat>, d: Dialect)
    requires Ranked(defs, rank) && Sound(schema, defs, rank) && Grounded(defs, order) && !schema.Obj?
    ensures Related(schema, inst, frag, defs, rank, order, d)
  {
  }

  lemma {:induction false} DictionaryIsRelated(ms: Members, inst: Json, frag: Fragment, defs: Members,
                                               rank: map<string, nat>, order: map<string, nat>, d: Dialect)
    requires Ranked(defs, rank) && Sound(Obj(ms), defs, rank) && Grounded(defs, order)
    requires Within(Obj(ms), frag, defs, rank) && !IsKnownRef(ms, defs)
    ensures Related(Obj(ms), inst, frag, defs, rank, order, d)
    decreases Height(Obj(ms), defs, rank), Size(Obj(ms)), 1
  {
    if PROPERTIES in Keys(ms) && Lookup(ms, PROPERTIES).Obj? && inst.Obj? {
      PropertiesAreRelated(ms, inst, frag, defs, rank, order, d);
    }
    PropertiesClauseIsRelated(ms, inst, frag, defs, rank, order, d);
    ItemsAreRelated(ms, inst, frag, defs, rank, order, d);
    assert Simplify(Obj(ms), defs, rank) == Obj(Built(ms, defs, rank));
    OtherClausesAreRelated(ms, inst, frag, defs, rank, order, d);
  }

  /** Given the clauses of the subschemas, the verdict. */
  lemma OtherClausesAreRelated(ms: Members, inst: Json, frag: Fragment, defs: Members, rank: map<string, nat>,
                               order: map<string, nat>, d: Dialect)
    requires Ranked(defs, rank) && Sound(Obj(ms), defs, rank) && Grounded(defs, order) && !IsKnownRef(ms, defs)
    requires HasAnyOfList(ms) ==> frag.anyOf && AnyOfIsBare(ms, frag.checks)
    requires frag.checks || (PATTERN !in Keys(ms) && FORMAT !in Keys(ms))
    requires ClauseRelated(frag, d, PropertiesClause(ms, inst, defs, order, d),
                           PropertiesClause(Built(ms, defs, rank), inst, defs, order, d))
    requires ClauseRelated(frag, d, ItemsClause(ms, inst, defs, order, d),
                           ItemsClause(Built(ms, defs, rank), inst, defs, order, d))
    ensures ClauseRelated(frag, d, Valid(Obj(ms), inst, defs, order, d),
                          Valid(Obj(Built(ms, defs, rank)), inst, defs, order, d))
  {
    RequiredIsRelated(ms, inst, defs, rank);
    RefIsRelated(ms, inst, defs, rank, order, d);
    ChecksAreRelated(ms, inst, frag, defs, rank, d);
    TypeAndAnyOfAreRelated(ms, inst, frag, defs, rank, order, d);
    ClausesMakeTheVerdict(ms, Built(ms, defs, rank), inst, frag, defs, order, d);
  }

  lemma {:induction false} ReferenceIsRelated(ms: Members, inst: Json, frag: Fragment, defs: Members,
                                              rank: map<string, nat>, order: map<string, nat>, d: Dialect)
    requires Ranked(defs, rank) && Sound(Obj(ms), defs, rank) && Grounded(defs, order)
    requires Within(Obj(ms), frag, defs, rank) && IsKnownRef(ms, defs)
    ensures Related(Obj(ms), inst, frag, defs, rank, order, d)
    decreases Height(Obj(ms), defs, rank), Size(Obj(ms)), 0
  {
    var resolved := Lookup(defs, Target(ms, defs));
    LocalRefIsKnown(ms, defs);
    MeaningInContext(resolved, inst, frag, defs, rank, order, d);
    var simple := Simplify(resolved, defs, rank).members;
    SimplifyKeepsKeysUnique(resolved, defs, rank);
    var bare := Remove(ms, REF);
    NoKeywordBesideRef(ms);
    SameKeywordsSameMeaning(Update(bare, simple), simple, inst, defs, order, d);
    OnlyRefMatters(ms, inst, defs, order, d);
  }

  lemma NoKeywordBesideRef(ms: Members)
    requires Keys(ms) * KEYWORDS == {REF}
    ensures forall k :: k in KEYWORDS && k in Keys(ms) ==> k == REF
    ensures TYPE !in Keys(ms) && REQUIRED !in Keys(ms) && PATTERN !in Keys(ms) && FORMAT !in Keys(ms)
    ensures PROPERTIES !in Keys(ms) && ITEMS !in Keys(ms) && ANY_OF !in Keys(ms)
  {
    forall k | k in KEYWORDS && k in Keys(ms) ensures k == REF {
      assert k in Keys(ms) * KEYWORDS;
    }
  }

  lemma OnlyRefMatters(ms: Members, inst: Json, defs: Members, order: map<string, nat>, d: Dialect)
    requires Grounded(defs, order) && IsLocalRef(ms, defs) && Keys(ms) * KEYWORDS == {REF}
    ensures Valid(Obj(ms), inst, defs, order, d)
            == Valid(Lookup(defs, LocalName(Lookup(ms, REF).s, defs)), inst, defs, order, d)
  {
    NoKeywordBesideRef(ms);
    assert RefHolds(Lookup(ms, REF), inst, defs, order, d)
        == Valid(Lookup(defs, LocalName(Lookup(ms, REF).s, defs)), inst, defs, order, d);
  }

  ghost predicate PropertiesRelated(ms: Members, inst: Json, frag: Fragment, defs: Members, rank: map<string, nat>,
                                    order: map<string, nat>, d: Dialect)
    requires Ranked(defs, rank) && SoundMembers(ms, defs, rank) && UniqueKeys(ms) && Grounded(defs, order)
    requires PROPERTIES in Keys(ms) && Lookup(ms, PROPERTIES).Obj? && inst.Obj?
  {
    BuiltKeeps(ms, PROPERTIES, defs, rank);
    var props := Lookup(ms, PROPERTIES).members;
    var props' := Lookup(Built(ms, defs, rank), PROPERTIES).members;
    && Keys(props) == Keys(props')
    && (forall k :: k in Keys(props) ==> PropertyRelated(props, props', k, inst.members, frag, defs, rank, order, d))
  }

  ghost predicate PropertyRelated(props: Members, props': Members, k: string, inst: Members, frag: Fragment,
                                  defs: Members, rank: map<string, nat>, order: map<string, nat>, d: Dialect)
    requires Ranked(defs, rank) && Grounded(defs, order) && k in Keys(props) && k in Keys(props')
  {
    && Sound(Lookup(props, k), defs, rank)
    && Lookup(props', k) == Simplify(Lookup(props, k), defs, rank)
    && (k in Keys(inst) ==> Related(Lookup(props, k), Lookup(inst, k), frag, defs, rank, order, d))
  }

  /** Each property is simplified on its own. */
  lemma PropertiesAreKept(props: Members, defs: Members, rank: map<string, nat>)
    requires Ranked(defs, rank) && SoundMembers(props, defs, rank) && UniqueKeys(props) && PlainNames(props)
    ensures Keys(Built(props, defs, rank)) == Keys(props)
    ensures forall k :: k in Keys(props) ==>
              && Sound(Lookup(props, k), defs, rank)
              && Lookup(Built(props, defs, rank), k) == Simplify(Lookup(props, k), defs, rank)
  {
    forall k ensures k in Keys(props) <==> k in Keys(Built(props, defs, rank)) {
      if k != PATTERN && k != FORMAT { BuiltKeeps(props, k, defs, rank); }
    }
    forall k | k in Keys(props)
      ensures Sound(Lookup(props, k), defs, rank)
      ensures Lookup(Built(props, defs, rank), k) == Simplify(Lookup(props, k), defs, rank)
    {
      BuiltKeeps(props, k, defs, rank);
    }
  }

  lemma {:induction false} PropertiesAreRelated(ms: Members, inst: Json, frag: Fragment, defs: Members,
                                                rank: map<string, nat>, order: map<string, nat>, d: Dialect)
    requires Ranked(defs, rank) && Sound(Obj(ms), defs, rank) && Grounded(defs, order)
    requires Within(Obj(ms), frag, defs, rank) && !IsKnownRef(ms, defs)
    requires PROPERTIES in Keys(ms) && Lookup(ms, PROPERTIES).Obj? && inst.Obj?
    ensures PropertiesRelated(ms, inst, frag, defs, rank, order, d)
    decreases Height(Obj(ms), defs, rank), Size(Obj(ms)), 0
  {
    BuiltKeeps(ms, PROPERTIES, defs, rank);
    var props := Lookup(ms, PROPERTIES).members;
    var props' := Built(props, defs, rank);
    assert Lookup(Built(ms, defs, rank), PROPERTIES) == Obj(props');
    PropertiesAreKept(props, defs, rank);
    forall k | k in Keys(props)
      ensures PropertyRelated(props, props', k, inst.members, frag, defs, rank, order, d)
    {
      if k in Keys(inst.members) {
        MeaningInContext(Lookup(props, k), Lookup(inst.members, k), frag, defs, rank, order, d);
      }
    }
  }

  // The clauses of a dictionary's verdict, one by one.

  ghost predicate TypeClause(ms: Members, inst: Json) {
    TYPE in Keys(ms) ==> TypeAllows(Lookup(ms, TYPE), inst)
  }

  ghost predicate RequiredClause(ms: Members, inst: Json) {
    REQUIRED in Keys(ms) ==> HasRequired(Lookup(ms, REQUIRED), inst)
  }

  ghost predicate PropertiesClause(ms: Members, inst: Json, defs: Members, order: map<string, nat>, d: Dialect)
    requires Grounded(defs, order)
  {
    PROPERTIES in Keys(ms) ==> PropertiesHold(Lookup(ms, PROPERTIES), inst, defs, order, d)
  }

  ghost predicate ItemsClause(ms: Members, inst: Json, defs: Members, order: map<string, nat>, d: Dialect)
    requires Grounded(defs, order)
  {
    ITEMS in Keys(ms) ==> ItemsHold(Lookup(ms, ITEMS), inst, defs, order, d)
  }

  ghost predicate AnyOfClause(ms: Members, inst: Json, defs: Members, order: map<string, nat>, d: Dialect)
    requires Grounded(defs, order)
  {
    ANY_OF in Keys(ms) ==> AnyOfHolds(Lookup(ms, ANY_OF), inst, defs, order, d)
  }

  ghost predicate RefClause(ms: Members, inst: Json, defs: Members, order: map<string, nat>, d: Dialect)
    requires Grounded(defs, order)
  {
    REF in Keys(ms) ==> RefHolds(Lookup(ms, REF), inst, defs, order, d)
  }

  lemma VerdictIsValid(ms: Members, inst: Json, defs: Members, order: map<string, nat>, d: Dialect)
    requires Grounded(defs, order)
    ensures Valid(Obj(ms), inst, defs, order, d) <==>
            && TypeClause(ms, inst) && RequiredClause(ms, inst) && ChecksPass(ms, inst, d)
            && PropertiesClause(ms, inst, defs, order, d) && ItemsClause(ms, inst, defs, order, d)
            && AnyOfClause(ms, inst, defs, order, d) && RefClause(ms, inst, defs, order, d)
  {
  }

  /** A dictionary's verdict is the conjunction of its clauses. */
  lemma ClausesMakeTheVerdict(ms: Members, built: Members, inst: Json, frag: Fragment, defs: Members,
                              order: map<string, nat>, d: Dialect)
    requires Grounded(defs, order)
    requires RequiredClause(ms, inst) <==> RequiredClause(built, inst)
    requires RefClause(ms, inst, defs, order, d) <==> RefClause(built, inst, defs, order, d)
    requires ClauseRelated(frag, d, ChecksPass(ms, inst, d), ChecksPass(built, inst, d))
    requires ClauseRelated(frag, d, PropertiesClause(ms, inst, defs, order, d),
                           PropertiesClause(built, inst, defs, order, d))
    requires ClauseRelated(frag, d, ItemsClause(ms, inst, defs, order, d), ItemsClause(built, inst, defs, order, d))
    requires ClauseRelated(frag, d, TypeClause(ms, inst) && AnyOfClause(ms, inst, defs, order, d),
                           TypeClause(built, inst) && AnyOfClause(built, inst, defs, order, d))
    ensures ClauseRelated(frag, d, Valid(Obj(ms), inst, defs, order, d), Valid(Obj(built), inst, defs, order, d))
  {
    VerdictIsValid(ms, inst, defs, order, d);
    VerdictIsValid(built, inst, defs, order, d);
  }

  lemma ChecksAreRelated(ms: Members, inst: Json, frag: Fragment, defs: Members, rank: map<string, nat>, d: Dialect)
    requires Ranked(defs, rank) && Sound(Obj(ms), defs, rank) && !IsKnownRef(ms, defs)
    requires frag.checks || (PATTERN !in Keys(ms) && FORMAT !in Keys(ms))
    ensures ClauseRelated(frag, d, ChecksPass(ms, inst, d), ChecksPass(Built(ms, defs, rank), inst, d))
  {
  }

  lemma RequiredIsRelated(ms: Members, inst: Json, defs: Members, rank: map<string, nat>)
    requires Ranked(defs, rank) && Sound(Obj(ms), defs, rank) && !IsKnownRef(ms, defs)
    ensures RequiredClause(ms, inst) <==> RequiredClause(Built(ms, defs, rank), inst)
  {
    BuiltKeeps(ms, REQUIRED, defs, rank);
    if REQUIRED in Keys(ms) { RequiredIsKept(Lookup(ms, REQUIRED), inst, defs, rank); }
  }

  lemma PropertiesClauseIsRelated(ms: Members, inst: Json, frag: Fragment, defs: Members,
                                  rank: map<string, nat>, order: map<string, nat>, d: Dialect)
    requires Ranked(defs, rank) && Sound(Obj(ms), defs, rank) && Grounded(defs, order) && !IsKnownRef(ms, defs)
    requires PROPERTIES in Keys(ms) && Lookup(ms, PROPERTIES).Obj? && inst.Obj? ==>
               PropertiesRelated(ms, inst, frag, defs, rank, order, d)
    ensures ClauseRelated(frag, d, PropertiesClause(ms, inst, defs, order, d),
                          PropertiesClause(Built(ms, defs, rank), inst, defs, order, d))
  {
    BuiltKeeps(ms, PROPERTIES, defs, rank);
  }

  lemma {:induction false} ItemsAreRelated(ms: Members, inst: Json, frag: Fragment, defs: Members,
                                           rank: map<string, nat>, order: map<string, nat>, d: Dialect)
    requires Ranked(defs, rank) && Sound(Obj(ms), defs, rank) && Grounded(defs, order)
    requires Within(Obj(ms), frag, defs, rank) && !IsKnownRef(ms, defs)
    ensures ClauseRelated(frag, d, ItemsClause(ms, inst, defs, order, d),
                          ItemsClause(Built(ms, defs, rank), inst, defs, order, d))
    decreases Height(Obj(ms), defs, rank), Size(Obj(ms)), 0
  {
    if ITEMS in Keys(ms) && inst.Arr? {
      SoundValue(ms, ITEMS, defs, rank);
      forall x | x in Elems(inst.items)
        ensures Related(Lookup(ms, ITEMS), x, frag, defs, rank, order, d)
      {
        MeaningInContext(Lookup(ms, ITEMS), x, frag, defs, rank, order, d);
      }
    }
    ItemsClauseIsRelated(ms, inst, frag, defs, rank, order, d);
  }

  lemma ItemsClauseIsRelated(ms: Members, inst: Json, frag: Fragment, defs: Members,
                             rank: map<string, nat>, order: map<string, nat>, d: Dialect)
    requires Ranked(defs, rank) && Sound(Obj(ms), defs, rank) && Grounded(defs, order) && !IsKnownRef(ms, defs)
    requires ITEMS in Keys(ms) && inst.Arr? ==>
               && Sound(Lookup(ms, ITEMS), defs, rank)
               && forall x :: x in Elems(inst.items) ==> Related(Lookup(ms, ITEMS), x, frag, defs, rank, order, d)
    ensures ClauseRelated(frag, d, ItemsClause(ms, inst, defs, order, d),
                          ItemsClause(Built(ms, defs, rank), inst, defs, order, d))
  {
    BuiltKeeps(ms, ITEMS, defs, rank);
  }

  lemma RefIsRelated(ms: Members, inst: Json, defs: Members, rank: map<string, nat>, order: map<string, nat>,
                     d: Dialect)
    requires Ranked(defs, rank) && Sound(Obj(ms), defs, rank) && Grounded(defs, order) && !IsKnownRef(ms, defs)
    ensures RefClause(ms, inst, defs, order, d) <==> RefClause(Built(ms, defs, rank), inst, defs, order, d)
  {
    BuiltKeeps(ms, REF, defs, rank);
  }

  lemma TypeIsRelated(ms: Members, inst: Json, defs: Members, rank: map<string, nat>)
    requires Ranked(defs, rank) && Sound(Obj(ms), defs, rank) && !IsKnownRef(ms, defs) && !HasAnyOfList(ms)
    ensures TypeClause(ms, inst) <==> TypeClause(Built(ms, defs, rank), inst)
  {
    BuiltKeeps(ms, TYPE, defs, rank);
    if TYPE in Keys(ms) { TypeIsKept(Lookup(ms, TYPE), inst, defs, rank); }
  }

  lemma AnyOfIsRelated(ms: Members, inst: Json, frag: Fragment, defs: Members,
                       rank: map<string, nat>, order: map<string, nat>, d: Dialect)
    requires Ranked(defs, rank) && Sound(Obj(ms), defs, rank) && Grounded(defs, order) && !IsKnownRef(ms, defs)
    requires HasAnyOfList(ms) && AnyOfIsBare(ms, frag.checks) && IsExact(frag, d)
    ensures TypeClause(Built(ms, defs, rank), inst) ==>
              TypeClause(ms, inst) && AnyOfClause(ms, inst, defs, order, d)
  {
    AnyOfWritesType(ms, frag.checks, defs, rank);
    BareBranchAccepts(Lookup(ms, ANY_OF).items, inst, frag.checks, defs, order, d);
  }

  lemma AnyOfWritesType(ms: Members, checks: bool, defs: Members, rank: map<string, nat>)
    requires Ranked(defs, rank) && Sound(Obj(ms), defs, rank) && !IsKnownRef(ms, defs)
    requires HasAnyOfList(ms) && AnyOfIsBare(ms, checks)
    ensures var (built, chosen) := (Built(ms, defs, rank), PrimaryType(Lookup(ms, ANY_OF).items));
            && TYPE in Keys(built) && Lookup(built, TYPE) == chosen && (TYPE in Keys(ms) ==> Lookup(ms, TYPE) == chosen)
  {
    LoopWritesType(ms, NoMembers, PrimaryType(Lookup(ms, ANY_OF).items), defs, rank);
  }

  lemma TypeAndAnyOfAreRelated(ms: Members, inst: Json, frag: Fragment, defs: Members,
                               rank: map<string, nat>, order: map<string, nat>, d: Dialect)
    requires Ranked(defs, rank) && Sound(Obj(ms), defs, rank) && Grounded(defs, order) && !IsKnownRef(ms, defs)
    requires HasAnyOfList(ms) ==> frag.anyOf && AnyOfIsBare(ms, frag.checks)
    ensures ClauseRelated(frag, d, TypeClause(ms, inst) && AnyOfClause(ms, inst, defs, order, d),
                          TypeClause(Built(ms, defs, rank), inst)
                          && AnyOfClause(Built(ms, defs, rank), inst, defs, order, d))
  {
    BuiltKeeps(ms, ANY_OF, defs, rank);
    if !HasAnyOfList(ms) {
      TypeIsRelated(ms, inst, defs, rank);
    } else if IsExact(frag, d) {
      AnyOfIsRelated(ms, inst, frag, defs, rank, order, d);
    }
  }

  lemma BareBranchAccepts(branches: Items, inst: Json, checks: bool, defs: Members, order: map<string, nat>, d: Dialect)
    requires Grounded(defs, order) && (checks ==> IsLenient(d))
    requires exists b :: b in Elems(branches) && IsBareBranch(b, PrimaryType(branches), checks)
    ensures TypeAllows(PrimaryType(branches), inst) ==>
              exists b :: b in Elems(branches) && Valid(b, inst, defs, order, d)
  {
    var b :| b in Elems(branches) && IsBareBranch(b, PrimaryType(branches), checks);
    BareBranchMeans(b, PrimaryType(branches), inst, checks, defs, order, d);
  }

  lemma BareBranchMeans(b: Json, chosen: Json, inst: Json, checks: bool, defs: Members,
                        order: map<string, nat>, d: Dialect)
    requires Grounded(defs, order) && (checks ==> IsLenient(d)) && IsBareBranch(b, chosen, checks)
    ensures Valid(b, inst, defs, order, d) == TypeAllows(chosen, inst)
  {
    forall k | k in KEYWORDS && k in Keys(b.members) ensures k == TYPE || (checks && k in {PATTERN, FORMAT}) {
      assert k in Keys(b.members) * KEYWORDS;
    }
    VerdictIsValid(b.members, inst, defs, order, d);
  }

  // ---------- the output stands alone ----------

  /** No part of the schema that applies to some instance refers to a definition or has an `anyOf` list. */
  ghost predicate StandsAlone(schema: Json, defs: Members)
    decreases Size(schema)
  {
    match schema
    case Obj(ms) =>
      && !IsLocalRef(ms, defs) && !HasAnyOfList(ms)
      && (PROPERTIES in Keys(ms) && Lookup(ms, PROPERTIES).Obj? ==>
            var props := Lookup(ms, PROPERTIES).members;
            forall k :: k in Keys(props) ==> StandsAlone(Lookup(props, k), defs))
      && (ITEMS in Keys(ms) ==> StandsAlone(Lookup(ms, ITEMS), defs))
    case _ => true
  }

  lemma SameKeywordsStandAlone(a: Members, b: Members, defs: Members)
    requires SameAt(a, b, PROPERTIES) && SameAt(a, b, ITEMS) && SameAt(a, b, ANY_OF) && SameAt(a, b, REF)
    ensures StandsAlone(Obj(a), defs) == StandsAlone(Obj(b), defs)
  {
  }

  lemma {:induction false} OutputStandsAlone(schema: Json, frag: Fragment, defs: Members, rank: map<string, nat>)
    requires Ranked(defs, rank) && Sound(schema, defs, rank) && Within(schema, frag, defs, rank)
    ensures StandsAlone(Simplify(schema, defs, rank), defs)
    decreases Height(schema, defs, rank), Size(schema)
  {
    match schema
    case Obj(ms) =>
      if IsKnownRef(ms, defs) {
        var resolved := Lookup(defs, Target(ms, defs));
        OutputStandsAlone(resolved, frag, defs, rank);
        var simple := Simplify(resolved, defs, rank).members;
        SimplifyKeepsKeysUnique(resolved, defs, rank);
        NoKeywordBesideRef(ms);
        SameKeywordsStandAlone(Update(Remove(ms, REF), simple), simple, defs);
      } else {
        BuiltStandsAlone(ms, frag, defs, rank);
      }
    case _ =>
  }

  lemma {:induction false} BuiltStandsAlone(ms: Members, frag: Fragment, defs: Members, rank: map<string, nat>)
    requires Ranked(defs, rank) && Sound(Obj(ms), defs, rank) && !IsKnownRef(ms, defs)
    requires Within(Obj(ms), frag, defs, rank)
    ensures StandsAlone(Obj(Built(ms, defs, rank)), defs)
    decreases Height(Obj(ms), defs, rank), Size(Obj(ms)), 1
  {
    var built := Built(ms, defs, rank);
    BuiltKeeps(ms, ANY_OF, defs, rank);
    BuiltKeeps(ms, ITEMS, defs, rank);
    if ITEMS in Keys(ms) {
      SoundValue(ms, ITEMS, defs, rank);
      OutputStandsAlone(Lookup(ms, ITEMS), frag, defs, rank);
    }
    BuiltHasNoLocalRef(ms, defs, rank);
    BuiltKeeps(ms, PROPERTIES, defs, rank);
    if PROPERTIES in Keys(ms) && Lookup(ms, PROPERTIES).Obj? {
      BuiltPropertiesStandAlone(ms, frag, defs, rank);
    }
  }

  lemma BuiltHasNoLocalRef(ms: Members, defs: Members, rank: map<string, nat>)
    requires Ranked(defs, rank) && Sound(Obj(ms), defs, rank) && !IsKnownRef(ms, defs)
    ensures !IsLocalRef(Built(ms, defs, rank), defs)
  {
    BuiltKeeps(ms, REF, defs, rank);
    if IsLocalRef(Built(ms, defs, rank), defs) { LocalRefIsKnown(ms, defs); }
  }

  lemma {:induction false} BuiltPropertiesStandAlone(ms: Members, frag: Fragment, defs: Members, rank: map<string, nat>)
    requires Ranked(defs, rank) && Sound(Obj(ms), defs, rank) && !IsKnownRef(ms, defs)
    requires Within(Obj(ms), frag, defs, rank) && PROPERTIES in Keys(ms) && Lookup(ms, PROPERTIES).Obj?
    ensures var built := Built(ms, defs, rank);
            && PROPERTIES in Keys(built) && Lookup(built, PROPERTIES).Obj?
            && forall k :: k in Keys(Lookup(built, PROPERTIES).members) ==>
                 StandsAlone(Lookup(Lookup(built, PROPERTIES).members, k), defs)
    decreases Height(Obj(ms), defs, rank), Size(Obj(ms)), 0
  {
    BuiltKeeps(ms, PROPERTIES, defs, rank);
    var props := Lookup(ms, PROPERTIES).members;
    var props' := Built(props, defs, rank);
    assert Lookup(Built(ms, defs, rank), PROPERTIES) == Obj(props');
    forall k | k in Keys(props') ensures StandsAlone(Lookup(props', k), defs) {
      if k == PATTERN || k == FORMAT {
        assert false;
      } else {
        BuiltKeeps(props, k, defs, rank);
        OutputStandsAlone(Lookup(props, k), frag, defs, rank);
      }
    }
  }

  ghost predicate SameAlone(schema: Json, inst: Json, defs: Members, order: map<string, nat>, d: Dialect)
    requires Grounded(defs, order)
  {
    Valid(schema, inst, defs, order, d) == Valid(schema, inst, NoMembers, map[], d)
  }

  /** A schema that stands alone means the same without the definitions. */
  lemma {:induction false} DefinitionsDoNotMatter(schema: Json, inst: Json, defs: Members,
                                                  order: map<string, nat>, d: Dialect)
    requires Grounded(defs, order) && StandsAlone(schema, defs)
    ensures SameAlone(schema, inst, defs, order, d)
    decreases Size(schema)
  {
    match schema
    case Obj(ms) =>
      if PROPERTIES in Keys(ms) && Lookup(ms, PROPERTIES).Obj? && inst.Obj? {
        var props := Lookup(ms, PROPERTIES).members;
        forall k | k in Keys(props) && k in Keys(inst.members)
          ensures SameAlone(Lookup(props, k), Lookup(inst.members, k), defs, order, d)
        {
          DefinitionsDoNotMatter(Lookup(props, k), Lookup(inst.members, k), defs, order, d);
        }
      }
      if ITEMS in Keys(ms) && inst.Arr? {
        forall x | x in Elems(inst.items)
          ensures SameAlone(Lookup(ms, ITEMS), x, defs, order, d)
        {
          DefinitionsDoNotMatter(Lookup(ms, ITEMS), x, defs, order, d);
        }
      }
      LoneClauses(ms, inst, defs, order, d);
    case _ =>
  }

  lemma LoneClauses(ms: Members, inst: Json, defs: Members, order: map<string, nat>, d: Dialect)
    requires Grounded(defs, order) && !IsLocalRef(ms, defs) && !HasAnyOfList(ms)
    requires PROPERTIES in Keys(ms) && Lookup(ms, PROPERTIES).Obj? && inst.Obj? ==>
               var props := Lookup(ms, PROPERTIES).members;
               forall k :: k in Keys(props) && k in Keys(inst.members) ==>
                 SameAlone(Lookup(props, k), Lookup(inst.members, k), defs, order, d)
    requires ITEMS in Keys(ms) && inst.Arr? ==>
               forall x :: x in Elems(inst.items) ==> SameAlone(Lookup(ms, ITEMS), x, defs, order, d)
    ensures SameAlone(Obj(ms), inst, defs, order, d)
  {
    VerdictIsValid(ms, inst, defs, order, d);
    VerdictIsValid(ms, inst, NoMembers, map[], d);
  }

  // ---------- the headline results ----------

  /** What a fragment promises about the schema that the model gets: it is judged on its own, since the code hands
      it over without the definitions. */
  lemma MeaningIsRelated(schema: Json, inst: Json, frag: Fragment, defs: Members, rank: map<string, nat>,
                         order: map<string, nat>, d: Dialect)
    requires Ranked(defs, rank) && Sound(schema, defs, rank) && Grounded(defs, order)
    requires Within(schema, frag, defs, rank)
    ensures ClauseRelated(frag, d, Valid(schema, inst, defs, order, d),
                          Valid(Simplify(schema, defs, rank), inst, NoMembers, map[], d))
  {
    MeaningInContext(schema, inst, frag, defs, rank, order, d);
    OutputStandsAlone(schema, frag, defs, rank);
    DefinitionsDoNotMatter(Simplify(schema, defs, rank), inst, defs, order, d);
  }

  /** A schema document together with witnesses that its references end. */
  ghost predicate IsDocument(schema: Json, rank: map<string, nat>, order: map<string, nat>) {
    schema.Obj? && Accepts(schema, rank) && Grounded(DefsOf(schema), order)
  }

  ghost predicate DocumentWithin(schema: Json, frag: Fragment, rank: map<string, nat>)
    requires Accepts(schema, rank)
  {
    Within(RootOf(schema), frag, DefsOf(schema), rank)
  }

  /** The instances a document accepts: `$defs` only serves its references. */
  ghost predicate Admits(schema: Json, inst: Json, order: map<string, nat>, d: Dialect)
    requires Grounded(DefsOf(schema), order)
  {
    Valid(schema, inst, DefsOf(schema), order, d)
  }

  lemma DefsAreNoKeyword(schema: Json, inst: Json, order: map<string, nat>, d: Dialect)
    requires schema.Obj? && UniqueKeys(RootOf(schema).members) && Grounded(DefsOf(schema), order)
    ensures Admits(schema, inst, order, d) == Valid(RootOf(schema), inst, DefsOf(schema), order, d)
  {
    SameKeywordsSameMeaning(schema.members, RootOf(schema).members, inst, DefsOf(schema), order, d);
  }

  /** The whole transformation, document to document. Only where the output has a `$defs` key of its own is it judged
      without one. */
  lemma {:induction false} DocumentsAreRelated(schema: Json, inst: Json, frag: Fragment, rank: map<string, nat>,
                                               order: map<string, nat>, d: Dialect)
    requires IsDocument(schema, rank, order) && DocumentWithin(schema, frag, rank)
    ensures ClauseRelated(frag, d, Admits(schema, inst, order, d),
                          Valid(Dereference(schema, rank), inst, NoMembers, map[], d))
    ensures !ReachesDefs(RootOf(schema), DefsOf(schema), rank) ==> DefsOf(Dereference(schema, rank)) == NoMembers
  {
    DefsAreNoKeyword(schema, inst, order, d);
    MeaningIsRelated(RootOf(schema), inst, frag, DefsOf(schema), rank, order, d);
    DefsSurviveExactlyWhenReached(RootOf(schema), DefsOf(schema), rank);
  }

  /** Without `anyOf` lists, `pattern` and `format`, simplification keeps the meaning exactly. */
  lemma {:induction false} SimplifyKeepsMeaning(schema: Json, inst: Json, rank: map<string, nat>,
                                                order: map<string, nat>, d: Dialect)
    requires IsDocument(schema, rank, order) && DocumentWithin(schema, Fragment(false, false), rank)
    ensures Valid(Dereference(schema, rank), inst, NoMembers, map[], d) <==> Admits(schema, inst, order, d)
  {
    DocumentsAreRelated(schema, inst, Fragment(false, false), rank, order, d);
  }

  /** Without `anyOf` lists, every instance accepted before is accepted after. */
  lemma {:induction false} SimplifyOnlyWidens(schema: Json, inst: Json, rank: map<string, nat>,
                                              order: map<string, nat>, d: Dialect)
    requires IsDocument(schema, rank, order) && DocumentWithin(schema, Fragment(false, true), rank)
    ensures Admits(schema, inst, order, d) ==> Valid(Dereference(schema, rank), inst, NoMembers, map[], d)
  {
    DocumentsAreRelated(schema, inst, Fragment(false, true), rank, order, d);
  }

  /** Where every `anyOf` list has a bare branch of the chosen type and nothing outside the lists uses
      `pattern` or `format`, every instance accepted after was accepted before. */
  lemma {:induction false} SimplifyOnlyNarrows(schema: Json, inst: Json, rank: map<string, nat>,
                                               order: map<string, nat>, d: Dialect)
    requires IsDocument(schema, rank, order) && DocumentWithin(schema, Fragment(true, false), rank)
    ensures Valid(Dereference(schema, rank), inst, NoMembers, map[], d) ==> Admits(schema, inst, order, d)
  {
    DocumentsAreRelated(schema, inst, Fragment(true, false), rank, order, d);
  }

  /** The same with `pattern` and `format` anywhere, also in the branches, if neither ever rejects an instance: this
      covers the schemas of the document types, with their dates and decimals. */
  lemma {:induction false} SimplifyOnlyNarrowsLeniently(schema: Json, inst: Json, rank: map<string, nat>,
                                                        order: map<string, nat>, d: Dialect)
    requires IsDocument(schema, rank, order) && DocumentWithin(schema, Fragment(true, true), rank) && IsLenient(d)
    ensures Valid(Dereference(schema, rank), inst, NoMembers, map[], d) ==> Admits(schema, inst, order, d)
  {
    DocumentsAreRelated(schema, inst, Fragment(true, true), rank, order, d);
  }

  lemma LoneAnyOfSimplifies(branches: Items, defs: Members, rank: map<string, nat>)
    requires Ranked(defs, rank)
    ensures var schema := Obj(Member(ANY_OF, Arr(branches), NoMembers));
            && Sound(schema, defs, rank)
            && Simplify(schema, defs, rank) == Obj(Member(TYPE, PrimaryType(branches), NoMembers))
  {
    var ms := Member(ANY_OF, Arr(branches), NoMembers);
    var built := Member(TYPE, PrimaryType(branches), NoMembers);
    assert SoundMembers(ms, defs, rank);
    assert SimplifyMembers(NoMembers, Put(NoMembers, TYPE, PrimaryType(branches)), defs, rank) == built;
    assert SimplifyMembers(ms, NoMembers, defs, rank) == built;
    assert Remove(Remove(built, PATTERN), FORMAT) == built;
  }

  lemma TypeAloneDecides(t: Json, inst: Json, defs: Members, order: map<string, nat>, d: Dialect)
    requires Grounded(defs, order)
    ensures Valid(Obj(Member(TYPE, t, NoMembers)), inst, defs, order, d) <==> TypeAllows(t, inst)
  {
    var ms := Member(TYPE, t, NoMembers);
    assert Keys(ms) == {TYPE};
    VerdictIsValid(ms, inst, defs, order, d);
  }

  /** What a lone `anyOf` list turns into accepts exactly the instances of the chosen type, whatever its
      branches say. */
  lemma AnyOfBecomesOneType(branches: Items, inst: Json, defs: Members, rank: map<string, nat>,
                            order: map<string, nat>, d: Dialect)
    requires Ranked(defs, rank) && Grounded(defs, order)
    ensures var schema := Obj(Member(ANY_OF, Arr(branches), NoMembers));
            && Sound(schema, defs, rank)
            && (Valid(Simplify(schema, defs, rank), inst, defs, order, d) <==> TypeAllows(PrimaryType(branches), inst))
  {
    LoneAnyOfSimplifies(branches, defs, rank);
    TypeAloneDecides(PrimaryType(branches), inst, defs, order, d);
  }

  /** An optional value has the type of its only other branch. */
  lemma OptionalHasType(branch: Json, t: string)
    requires branch.Obj? && TYPE in Keys(branch.members) && Lookup(branch.members, TYPE) == Str(t)
    requires t != "" && t != "null"
    ensures var none := Obj(Member(TYPE, Str("null"), NoMembers));
            PrimaryType(Item(branch, Item(none, NoItems))) == Str(t)
  {
    var none := Obj(Member(TYPE, Str("null"), NoMembers));
    assert BranchTypes(Item(none, NoItems)) == Item(Str("null"), NoItems);
    assert BranchTypes(Item(branch, Item(none, NoItems))) == Item(Str(t), Item(Str("null"), NoItems));
    assert NonNull(Item(Str("null"), NoItems)) == NoItems;
    assert NonNull(Item(Str(t), Item(Str("null"), NoItems))) == Item(Str(t), NoItems);
  }

  /** The usual optional number: `null` is accepted before and rejected after, so the narrowing is strict. */
  lemma OptionalNumberLosesNull(defs: Members, rank: map<string, nat>, order: map<string, nat>, d: Dialect)
    requires Ranked(defs, rank) && Grounded(defs, order)
    ensures var number := Obj(Member(TYPE, Str("number"), NoMembers));
            var none := Obj(Member(TYPE, Str("null"), NoMembers));
            var schema := Obj(Member(ANY_OF, Arr(Item(number, Item(none, NoItems))), NoMembers));
            && Sound(schema, defs, rank)
            && Valid(schema, Null, defs, order, d)
            && !Valid(Simplify(schema, defs, rank), Null, defs, order, d)
  {
    var number := Obj(Member(TYPE, Str("number"), NoMembers));
    var none := Obj(Member(TYPE, Str("null"), NoMembers));
    var branches := Item(number, Item(none, NoItems));
    AnyOfBecomesOneType(branches, Null, defs, rank, order, d);
    assert |"number"| == 6 && |"null"| == 4;
    OptionalHasType(number, "number");
    TypeAloneDecides(Str("null"), Null, defs, order, d);
    assert none in Elems(branches.tail) && none in Elems(branches);
    LoneAnyOfAccepts(branches, none, Null, defs, order, d);
  }

  lemma LoneAnyOfAccepts(branches: Items, branch: Json, inst: Json, defs: Members, order: map<string, nat>, d: Dialect)
    requires Grounded(defs, order) && branch in Elems(branches) && Valid(branch, inst, defs, order, d)
    ensures Valid(Obj(Member(ANY_OF, Arr(branches), NoMembers)), inst, defs, order, d)
  {
    VerdictIsValid(Member(ANY_OF, Arr(branches), NoMembers), inst, defs, order, d);
  }

  lemma OneKeywordRejects(ms: Members, inst: Json, defs: Members, order: map<string, nat>, d: Dialect)
    requires Grounded(defs, order)
    requires || (TYPE in Keys(ms) && !TypeAllows(Lookup(ms, TYPE), inst))
             || (FORMAT in Keys(ms) && !d.format(Lookup(ms, FORMAT), inst))
    ensures !Valid(Obj(ms), inst, defs, order, d)
  {
  }

  lemma LoneAnyOfRejects(branches: Items, inst: Json, defs: Members, order: map<string, nat>, d: Dialect)
    requires Grounded(defs, order)
    requires forall b :: b in Elems(branches) ==> !Valid(b, inst, defs, order, d)
    ensures !Valid(Obj(Member(ANY_OF, Arr(branches), NoMembers)), inst, defs, order, d)
  {
    assert !AnyOfHolds(Arr(branches), inst, defs, order, d);
  }

  /** An optional date, whose only string branch is not bare: after simplification any string passes,
      also one the format rejects. */
  lemma OptionalDateForgetsItsFormat(text: string, defs: Members, rank: map<string, nat>, order: map<string, nat>,
                                     d: Dialect)
    requires Ranked(defs, rank) && Grounded(defs, order)
    requires !d.format(Str("date"), Str(text))
    ensures var day := Obj(Member(FORMAT, Str("date"), Member(TYPE, Str("string"), NoMembers)));
            var none := Obj(Member(TYPE, Str("null"), NoMembers));
            var schema := Obj(Member(ANY_OF, Arr(Item(day, Item(none, NoItems))), NoMembers));
            && Sound(schema, defs, rank)
            && !Valid(schema, Str(text), defs, order, d)
            && Valid(Simplify(schema, defs, rank), Str(text), defs, order, d)
  {
    var day := Member(FORMAT, Str("date"), Member(TYPE, Str("string"), NoMembers));
    var none := Member(TYPE, Str("null"), NoMembers);
    var branches := Item(Obj(day), Item(Obj(none), NoItems));
    AnyOfBecomesOneType(branches, Str(text), defs, rank, order, d);
    assert Lookup(day, TYPE) == Str("string") && |"string"| == 6 && |"null"| == 4;
    OptionalHasType(Obj(day), "string");
    OneKeywordRejects(day, Str(text), defs, order, d);
    OneKeywordRejects(none, Str(text), defs, order, d);
    LoneAnyOfRejects(branches, Str(text), defs, order, d);
  }
}
