/** The schema simplifier that runs before a tool is offered to a Gemini model: it inlines
    `$ref`, replaces every `anyOf` list by one type and drops `pattern` and `format`. */
module Simplifier {
  import opened JsonTrees

  const REF := "$ref"
  const DEFS := "$defs"
  const ANY_OF := "anyOf"
  const TYPE := "type"
  const PATTERN := "pattern"
  const FORMAT := "format"
  const REF_PREFIX := "#/$defs/"

  /** `ref_path.split("/")[-1]` */
  function LastSegment(path: string): string {
    if '/' in path then LastSegment(path[1..]) else path
  }

  predicate IsAnyOfList(key: string, value: Json) {
    key == ANY_OF && value.Arr?
  }

  /** A member list whose `$ref` names one of the definitions. */
  predicate IsKnownRef(ms: Members, defs: Members) {
    && REF in Keys(ms)
    && Lookup(ms, REF).Str?
    && REF_PREFIX <= Lookup(ms, REF).s
    && LastSegment(Lookup(ms, REF).s) in Keys(defs)
  }

  function Target(ms: Members, defs: Members): string
    requires IsKnownRef(ms, defs)
    ensures Target(ms, defs) in Keys(defs)
  {
    LastSegment(Lookup(ms, REF).s)
  }

  // ---------- acyclic definitions ----------

  function Max(a: nat, b: nat): nat {
    if a > b then a else b
  }

  /** One more than the highest rank of a definition that the simplifier meets inside `node`.
      Lists under `anyOf` and the siblings of a resolved `$ref` are never visited. */
  ghost function Height(node: Json, defs: Members, rank: map<string, nat>): nat
    decreases Size(node)
  {
    match node
    case Obj(ms) =>
      if IsKnownRef(ms, defs) then
        if Target(ms, defs) in rank then rank[Target(ms, defs)] + 1 else 0
      else MembersHeight(ms, defs, rank)
    case Arr(items) => ItemsHeight(items, defs, rank)
    case _ => 0
  }

  ghost function MembersHeight(ms: Members, defs: Members, rank: map<string, nat>): (r: nat)
    ensures forall k :: k in Keys(ms) && !IsAnyOfList(k, Lookup(ms, k)) ==> Height(Lookup(ms, k), defs, rank) <= r
    decreases MembersSize(ms)
  {
    match ms
    case NoMembers => 0
    case Member(key, value, rest) =>
      Max(if IsAnyOfList(key, value) then 0 else Height(value, defs, rank), MembersHeight(rest, defs, rank))
  }

  ghost function ItemsHeight(items: Items, defs: Members, rank: map<string, nat>): nat
    decreases ItemsSize(items)
  {
    match items
    case NoItems => 0
    case Item(head, tail) => Max(Height(head, defs, rank), ItemsHeight(tail, defs, rank))
  }

  /** Following references from a definition always leads to definitions of smaller rank. */
  ghost predicate Ranked(defs: Members, rank: map<string, nat>) {
    forall name :: name in Keys(defs) ==> name in rank && Height(Lookup(defs, name), defs, rank) <= rank[name]
  }

  // ---------- what the code demands of its input ----------

  /** Every value the simplifier visits is a dictionary with distinct keys whose `$ref`, if any, is a
      string, and every definition it inlines is a dictionary. Anything else raises in the source. */
  ghost predicate Sound(node: Json, defs: Members, rank: map<string, nat>)
    requires Ranked(defs, rank)
    decreases Height(node, defs, rank), Size(node)
  {
    match node
    case Obj(ms) =>
      && UniqueKeys(ms)
      && (REF in Keys(ms) ==> Lookup(ms, REF).Str?)
      && (if IsKnownRef(ms, defs) then
            var resolved := Lookup(defs, Target(ms, defs));
            resolved.Obj? && Sound(resolved, defs, rank)
          else
            SoundMembers(ms, defs, rank))
    case Arr(items) => SoundItems(items, defs, rank)
    case _ => true
  }

  ghost predicate SoundMembers(ms: Members, defs: Members, rank: map<string, nat>)
    requires Ranked(defs, rank)
    decreases MembersHeight(ms, defs, rank), MembersSize(ms)
  {
    match ms
    case NoMembers => true
    case Member(key, value, rest) =>
      && (IsAnyOfList(key, value) || Sound(value, defs, rank))
      && SoundMembers(rest, defs, rank)
  }

  ghost predicate SoundItems(items: Items, defs: Members, rank: map<string, nat>)
    requires Ranked(defs, rank)
    decreases ItemsHeight(items, defs, rank), ItemsSize(items)
  {
    match items
    case NoItems => true
    case Item(head, tail) => Sound(head, defs, rank) && SoundItems(tail, defs, rank)
  }

  // ---------- the transformation ----------

  predicate Truthy(j: Json) {
    match j
    case Null => false
    case Bool(b) => b
    case Num(n) => n != 0.0
    case Str(s) => s != ""
    case Arr(items) => items.Item?
    case Obj(members) => members.Member?
  }

  /** The `type` values of the dictionaries in an `anyOf` list, in order. */
  function BranchTypes(branches: Items): Items {
    match branches
    case NoItems => NoItems
    case Item(head, tail) =>
      if head.Obj? && TYPE in Keys(head.members) && Truthy(Lookup(head.members, TYPE))
      then Item(Lookup(head.members, TYPE), BranchTypes(tail))
      else BranchTypes(tail)
  }

  function NonNull(types: Items): Items {
    match types
    case NoItems => NoItems
    case Item(head, tail) => if head == Str("null") then NonNull(tail) else Item(head, NonNull(tail))
  }

  function Choose(types: Items): Json {
    if types.NoItems? then Str("string")
    else if Str("number") in Elems(types) then Str("number")
    else if Str("integer") in Elems(types) then Str("integer")
    else if Str("boolean") in Elems(types) then Str("boolean")
    else types.head
  }

  /** The single type that replaces an `anyOf` list. */
  function PrimaryType(branches: Items): Json {
    Choose(NonNull(BranchTypes(branches)))
  }

  ghost function Simplify(node: Json, defs: Members, rank: map<string, nat>): (r: Json)
    requires Ranked(defs, rank) && Sound(node, defs, rank)
    ensures node.Obj? ==> r.Obj?
    ensures !node.Obj? && !node.Arr? ==> r == node
    ensures node.Arr? ==> r.Arr?
    decreases Height(node, defs, rank), Size(node)
  {
    match node
    case Obj(ms) =>
      if IsKnownRef(ms, defs) then
        Obj(Update(Remove(ms, REF), Simplify(Lookup(defs, Target(ms, defs)), defs, rank).members))
      else
        Obj(Remove(Remove(SimplifyMembers(ms, NoMembers, defs, rank), PATTERN), FORMAT))
    case Arr(items) => Arr(SimplifyItems(items, defs, rank))
    case _ => node
  }

  /** The loop over `node.items()`; `built` is the dictionary built so far. */
  ghost function SimplifyMembers(ms: Members, built: Members, defs: Members, rank: map<string, nat>): Members
    requires Ranked(defs, rank) && SoundMembers(ms, defs, rank)
    decreases MembersHeight(ms, defs, rank), MembersSize(ms)
  {
    match ms
    case NoMembers => built
    case Member(key, value, rest) =>
      if IsAnyOfList(key, value) then
        SimplifyMembers(rest, Put(built, TYPE, PrimaryType(value.items)), defs, rank)
      else
        SimplifyMembers(rest, Put(built, key, Simplify(value, defs, rank)), defs, rank)
  }

  ghost function SimplifyItems(items: Items, defs: Members, rank: map<string, nat>): Items
    requires Ranked(defs, rank) && SoundItems(items, defs, rank)
    decreases ItemsHeight(items, defs, rank), ItemsSize(items)
  {
    match items
    case NoItems => NoItems
    case Item(head, tail) => Item(Simplify(head, defs, rank), SimplifyItems(tail, defs, rank))
  }

  // ---------- the code, loop by loop ----------

  method CollectTypes(branches: Items) returns (types: Items)
    ensures types == BranchTypes(branches)
  {
    types := NoItems;
    var left := branches;
    AppendNothing(BranchTypes(branches));
    while left.Item?
      invariant Append(types, BranchTypes(left)) == BranchTypes(branches)
      decreases left
    {
      var sub := left.head;
      if sub.Obj? && TYPE in Keys(sub.members) && Truthy(Lookup(sub.members, TYPE)) {
        AppendIsAssociative(types, Item(Lookup(sub.members, TYPE), NoItems), BranchTypes(left.tail));
        types := Append(types, Item(Lookup(sub.members, TYPE), NoItems));
      }
      left := left.tail;
    }
    AppendNothing(types);
  }

  method ResolveAndSimplify(node: Json, defs: Members, ghost rank: map<string, nat>) returns (r: Json)
    requires Ranked(defs, rank) && Sound(node, defs, rank)
    ensures r == Simplify(node, defs, rank)
    decreases Height(node, defs, rank), Size(node)
  {
    match node
    case Obj(ms) =>
      if IsKnownRef(ms, defs) {
        var resolved := ResolveAndSimplify(Lookup(defs, Target(ms, defs)), defs, rank);
        return Obj(Update(Remove(ms, REF), resolved.members));
      }
      var newNode := NoMembers;
      var left := ms;
      while left.Member?
        invariant SoundMembers(left, defs, rank)
        invariant MembersHeight(left, defs, rank) <= MembersHeight(ms, defs, rank)
        invariant MembersSize(left) <= MembersSize(ms)
        invariant SimplifyMembers(left, newNode, defs, rank) == SimplifyMembers(ms, NoMembers, defs, rank)
        decreases left
      {
        if IsAnyOfList(left.key, left.value) {
          var types := CollectTypes(left.value.items);
          newNode := Put(newNode, TYPE, Choose(NonNull(types)));
        } else {
          var value := ResolveAndSimplify(left.value, defs, rank);
          newNode := Put(newNode, left.key, value);
        }
        left := left.rest;
      }
      r := Obj(Remove(Remove(newNode, PATTERN), FORMAT));
    case Arr(items) =>
      var simple := ResolveAndSimplifyEach(items, defs, rank);
      r := Arr(simple);
    case _ =>
      r := node;
  }

  /** The comprehension over a list. */
  method ResolveAndSimplifyEach(items: Items, defs: Members, ghost rank: map<string, nat>) returns (done: Items)
    requires Ranked(defs, rank) && SoundItems(items, defs, rank)
    ensures done == SimplifyItems(items, defs, rank)
    decreases ItemsHeight(items, defs, rank), ItemsSize(items)
  {
    done := NoItems;
    var left := items;
    while left.Item?
      invariant SoundItems(left, defs, rank)
      invariant ItemsHeight(left, defs, rank) <= ItemsHeight(items, defs, rank)
      invariant ItemsSize(left) <= ItemsSize(items)
      invariant Append(done, SimplifyItems(left, defs, rank)) == SimplifyItems(items, defs, rank)
      decreases left
    {
      var value := ResolveAndSimplify(left.head, defs, rank);
      AppendIsAssociative(done, Item(value, NoItems), SimplifyItems(left.tail, defs, rank));
      done := Append(done, Item(value, NoItems));
      left := left.tail;
    }
    AppendNothing(done);
  }

  lemma {:induction false} AppendIsAssociative(a: Items, b: Items, c: Items)
    ensures Append(Append(a, b), c) == Append(a, Append(b, c))
  {
    match a
    case NoItems =>
    case Item(_, tail) => AppendIsAssociative(tail, b, c);
  }

  lemma {:induction false} AppendNothing(a: Items)
    ensures Append(a, NoItems) == a
  {
    match a
    case NoItems =>
    case Item(_, tail) => AppendNothing(tail);
  }
}
