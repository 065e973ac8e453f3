/** What the simplifier's output looks like, and that simplifying again changes nothing. */
module NormalForm {
  import opened JsonTrees
  import opened Simplifier

  /** No key of the dictionary asks the simplifier for anything. `loose` still admits the two
      keys that the code drops only after its loop. */
  predicate PlainKey(key: string, value: Json, defs: Members, loose: bool) {
    && !IsAnyOfList(key, value)
    && (loose || (key != PATTERN && key != FORMAT))
    && (key == REF ==> value.Str? && !(REF_PREFIX <= value.s && LastSegment(value.s) in Keys(defs)))
  }

  /** At every depth: distinct keys, no reference to a known definition, no `anyOf` list, no
      `pattern` and no `format`. */
  predicate Normal(j: Json, defs: Members)
    decreases j
  {
    match j
    case Obj(ms) => NormalMembers(ms, defs, false)
    case Arr(items) => NormalItems(items, defs)
    case _ => true
  }

  predicate NormalMembers(ms: Members, defs: Members, loose: bool)
    decreases ms
  {
    match ms
    case NoMembers => true
    case Member(key, value, rest) =>
      && key !in Keys(rest)
      && PlainKey(key, value, defs, loose)
      && Normal(value, defs)
      && NormalMembers(rest, defs, loose)
  }

  predicate NormalItems(items: Items, defs: Members)
    decreases items
  {
    match items
    case NoItems => true
    case Item(head, tail) => Normal(head, defs) && NormalItems(tail, defs)
  }

  /** Nothing beside a resolved `$ref`, and no `type` inside a collapsed `anyOf`, needs simplifying
      itself: the code copies both without visiting them. */
  ghost predicate Orderly(node: Json, defs: Members, rank: map<string, nat>)
    requires Ranked(defs, rank)
    decreases Height(node, defs, rank), Size(node)
  {
    match node
    case Obj(ms) =>
      if IsKnownRef(ms, defs) then
        NormalMembers(Remove(ms, REF), defs, false) && Orderly(Lookup(defs, Target(ms, defs)), defs, rank)
      else
        OrderlyMembers(ms, defs, rank)
    case Arr(items) => OrderlyItems(items, defs, rank)
    case _ => true
  }

  ghost predicate OrderlyMembers(ms: Members, defs: Members, rank: map<string, nat>)
    requires Ranked(defs, rank)
    decreases MembersHeight(ms, defs, rank), MembersSize(ms)
  {
    match ms
    case NoMembers => true
    case Member(key, value, rest) =>
      && (if IsAnyOfList(key, value) then Normal(PrimaryType(value.items), defs) else Orderly(value, defs, rank))
      && OrderlyMembers(rest, defs, rank)
  }

  ghost predicate OrderlyItems(items: Items, defs: Members, rank: map<string, nat>)
    requires Ranked(defs, rank)
    decreases ItemsHeight(items, defs, rank), ItemsSize(items)
  {
    match items
    case NoItems => true
    case Item(head, tail) => Orderly(head, defs, rank) && OrderlyItems(tail, defs, rank)
  }

  // ---------- the output is normal ----------

  lemma {:induction false} PutKeepsNormal(ms: Members, k: string, v: Json, defs: Members, loose: bool)
    requires NormalMembers(ms, defs, loose) && PlainKey(k, v, defs, loose) && Normal(v, defs)
    ensures NormalMembers(Put(ms, k, v), defs, loose)
  {
    match ms
    case NoMembers =>
    case Member(key, _, rest) =>
      if key != k { PutKeepsNormal(rest, k, v, defs, loose); }
  }

  lemma {:induction false} UpdateKeepsNormal(ms: Members, extra: Members, defs: Members)
    requires NormalMembers(ms, defs, false) && NormalMembers(extra, defs, false)
    ensures NormalMembers(Update(ms, extra), defs, false)
    decreases extra
  {
    match extra
    case NoMembers =>
    case Member(key, value, rest) =>
      PutKeepsNormal(ms, key, value, defs, false);
      UpdateKeepsNormal(Put(ms, key, value), rest, defs);
  }

  lemma {:induction false} DroppingChecksIsNormal(ms: Members, defs: Members)
    requires NormalMembers(ms, defs, true)
    ensures NormalMembers(Remove(Remove(ms, PATTERN), FORMAT), defs, false)
  {
    match ms
    case NoMembers =>
    case Member(_, _, rest) => DroppingChecksIsNormal(rest, defs);
  }

  lemma {:induction false} SimplifyIsNormal(node: Json, defs: Members, rank: map<string, nat>)
    requires Ranked(defs, rank) && Sound(node, defs, rank) && Orderly(node, defs, rank)
    ensures Normal(Simplify(node, defs, rank), defs)
    decreases Height(node, defs, rank), Size(node)
  {
    match node
    case Obj(ms) =>
      if IsKnownRef(ms, defs) {
        var resolved := Lookup(defs, Target(ms, defs));
        SimplifyIsNormal(resolved, defs, rank);
        UpdateKeepsNormal(Remove(ms, REF), Simplify(resolved, defs, rank).members, defs);
      } else {
        MembersAreNormal(ms, NoMembers, defs, rank);
        DroppingChecksIsNormal(SimplifyMembers(ms, NoMembers, defs, rank), defs);
      }
    case Arr(items) => ItemsAreNormal(items, defs, rank);
    case _ =>
  }

  lemma {:induction false} MembersAreNormal(ms: Members, built: Members, defs: Members, rank: map<string, nat>)
    requires Ranked(defs, rank) && SoundMembers(ms, defs, rank) && OrderlyMembers(ms, defs, rank)
    requires UniqueKeys(ms) && (REF in Keys(ms) ==> Lookup(ms, REF).Str? && !IsKnownRef(ms, defs))
    requires NormalMembers(built, defs, true)
    ensures NormalMembers(SimplifyMembers(ms, built, defs, rank), defs, true)
    decreases MembersHeight(ms, defs, rank), MembersSize(ms)
  {
    match ms
    case NoMembers =>
    case Member(key, value, rest) =>
      if IsAnyOfList(key, value) {
        PutKeepsNormal(built, TYPE, PrimaryType(value.items), defs, true);
        MembersAreNormal(rest, Put(built, TYPE, PrimaryType(value.items)), defs, rank);
      } else {
        SimplifyIsNormal(value, defs, rank);
        var value' := Simplify(value, defs, rank);
        PutKeepsNormal(built, key, value', defs, true);
        MembersAreNormal(rest, Put(built, key, value'), defs, rank);
      }
  }

  lemma {:induction false} ItemsAreNormal(items: Items, defs: Members, rank: map<string, nat>)
    requires Ranked(defs, rank) && SoundItems(items, defs, rank) && OrderlyItems(items, defs, rank)
    ensures NormalItems(SimplifyItems(items, defs, rank), defs)
    decreases ItemsHeight(items, defs, rank), ItemsSize(items)
  {
    match items
    case NoItems =>
    case Item(head, tail) =>
      SimplifyIsNormal(head, defs, rank);
      ItemsAreNormal(tail, defs, rank);
  }

  // ---------- normal trees are fixed points ----------

  lemma {:induction false} NormalIsUnchanged(node: Json, defs: Members, rank: map<string, nat>)
    requires Ranked(defs, rank) && Normal(node, defs)
    ensures Sound(node, defs, rank) && Simplify(node, defs, rank) == node
    decreases node
  {
    match node
    case Obj(ms) =>
      NormalMembersAreUnchanged(ms, NoMembers, defs, rank);
      NormalMeansNoKey(ms, defs);
    case Arr(items) => NormalItemsAreUnchanged(items, defs, rank);
    case _ =>
  }

  lemma {:induction false} NormalMeansNoKey(ms: Members, defs: Members)
    requires NormalMembers(ms, defs, false)
    ensures UniqueKeys(ms) && PATTERN !in Keys(ms) && FORMAT !in Keys(ms)
    ensures REF in Keys(ms) ==> Lookup(ms, REF).Str? && !IsKnownRef(ms, defs)
  {
    match ms
    case NoMembers =>
    case Member(_, _, rest) => NormalMeansNoKey(rest, defs);
  }

  lemma {:induction false} NormalMembersAreUnchanged(ms: Members, built: Members, defs: Members, rank: map<string, nat>)
    requires Ranked(defs, rank) && NormalMembers(ms, defs, false) && Keys(built) !! Keys(ms)
    ensures SoundMembers(ms, defs, rank) && SimplifyMembers(ms, built, defs, rank) == Join(built, ms)
    decreases ms
  {
    match ms
    case NoMembers => JoinNothing(built);
    case Member(key, value, rest) =>
      NormalIsUnchanged(value, defs, rank);
      PutNewKeyGoesLast(built, key, value);
      NormalMembersAreUnchanged(rest, Put(built, key, value), defs, rank);
      JoinIsAssociative(built, Member(key, value, NoMembers), rest);
  }

  lemma {:induction false} JoinNothing(ms: Members)
    ensures Join(ms, NoMembers) == ms
  {
    match ms
    case NoMembers =>
    case Member(_, _, rest) => JoinNothing(rest);
  }

  lemma {:induction false} NormalItemsAreUnchanged(items: Items, defs: Members, rank: map<string, nat>)
    requires Ranked(defs, rank) && NormalItems(items, defs)
    ensures SoundItems(items, defs, rank) && SimplifyItems(items, defs, rank) == items
    decreases items
  {
    match items
    case NoItems =>
    case Item(head, tail) =>
      NormalIsUnchanged(head, defs, rank);
      NormalItemsAreUnchanged(tail, defs, rank);
  }

  /** Simplifying twice is simplifying once. */
  lemma SimplifyIsIdempotent(node: Json, defs: Members, rank: map<string, nat>)
    requires Ranked(defs, rank) && Sound(node, defs, rank) && Orderly(node, defs, rank)
    ensures var once := Simplify(node, defs, rank);
            Sound(once, defs, rank) && Simplify(once, defs, rank) == once
  {
    SimplifyIsNormal(node, defs, rank);
    NormalIsUnchanged(Simplify(node, defs, rank), defs, rank);
  }

  // ---------- the rank is only a termination witness ----------

  lemma {:induction false} RankDoesNotMatter(node: Json, defs: Members, rank: map<string, nat>, other: map<string, nat>)
    requires Ranked(defs, rank) && Ranked(defs, other)
    ensures Sound(node, defs, rank) == Sound(node, defs, other)
    ensures Sound(node, defs, rank) ==> Simplify(node, defs, rank) == Simplify(node, defs, other)
    decreases Height(node, defs, rank), Size(node)
  {
    match node
    case Obj(ms) =>
      if IsKnownRef(ms, defs) {
        RankDoesNotMatter(Lookup(defs, Target(ms, defs)), defs, rank, other);
      } else {
        RankDoesNotMatterToMembers(ms, NoMembers, defs, rank, other);
      }
    case Arr(items) => RankDoesNotMatterToItems(items, defs, rank, other);
    case _ =>
  }

  lemma {:induction false} RankDoesNotMatterToMembers(
      ms: Members, built: Members, defs: Members, rank: map<string, nat>, other: map<string, nat>)
    requires Ranked(defs, rank) && Ranked(defs, other)
    ensures SoundMembers(ms, defs, rank) == SoundMembers(ms, defs, other)
    ensures SoundMembers(ms, defs, rank) ==>
              SimplifyMembers(ms, built, defs, rank) == SimplifyMembers(ms, built, defs, other)
    decreases MembersHeight(ms, defs, rank), MembersSize(ms)
  {
    match ms
    case NoMembers =>
    case Member(key, value, rest) =>
      if IsAnyOfList(key, value) {
        RankDoesNotMatterToMembers(rest, Put(built, TYPE, PrimaryType(value.items)), defs, rank, other);
      } else {
        RankDoesNotMatter(value, defs, rank, other);
        RankDoesNotMatterToMembers(rest, built, defs, rank, other);
        if Sound(value, defs, rank) {
          RankDoesNotMatterToMembers(rest, Put(built, key, Simplify(value, defs, rank)), defs, rank, other);
        }
      }
  }

  lemma {:induction false} RankDoesNotMatterToItems(
      items: Items, defs: Members, rank: map<string, nat>, other: map<string, nat>)
    requires Ranked(defs, rank) && Ranked(defs, other)
    ensures SoundItems(items, defs, rank) == SoundItems(items, defs, other)
    ensures SoundItems(items, defs, rank) ==> SimplifyItems(items, defs, rank) == SimplifyItems(items, defs, other)
    decreases ItemsHeight(items, defs, rank), ItemsSize(items)
  {
    match items
    case NoItems =>
    case Item(head, tail) =>
      RankDoesNotMatter(head, defs, rank, other);
      RankDoesNotMatterToItems(tail, defs, rank, other);
  }

  // ---------- the entry point ----------

  /** The definitions of a schema: `schema.pop("$defs", {})`. */
  function DefsOf(schema: Json): Members {
    if schema.Obj? && DEFS in Keys(schema.members) && Lookup(schema.members, DEFS).Obj?
    then Lookup(schema.members, DEFS).members
    else NoMembers
  }

  function RootOf(schema: Json): Json {
    if schema.Obj? then Obj(Remove(schema.members, DEFS)) else schema
  }

  ghost predicate Accepts(schema: Json, rank: map<string, nat>) {
    && (schema.Obj? && DEFS in Keys(schema.members) ==> Lookup(schema.members, DEFS).Obj?)
    && Ranked(DefsOf(schema), rank)
    && (schema.Obj? ==> Sound(RootOf(schema), DefsOf(schema), rank))
  }

  ghost function Dereference(schema: Json, rank: map<string, nat>): Json
    requires Accepts(schema, rank)
  {
    if schema.Obj? then Simplify(RootOf(schema), DefsOf(schema), rank) else schema
  }

  method DereferenceAndSimplify(schema: Json, ghost rank: map<string, nat>) returns (r: Json)
    requires Accepts(schema, rank)
    ensures r == Dereference(schema, rank)
  {
    if !schema.Obj? {
      return schema;
    }
    var members := schema.members;
    var defs := NoMembers;
    if DEFS in Keys(members) {
      defs := Lookup(members, DEFS).members;
      members := Remove(members, DEFS);
    }
    r := ResolveAndSimplify(Obj(members), defs, rank);
  }

  /** Following references from the root leads to a dictionary with a `$defs` key of its own. */
  ghost predicate ReachesDefs(node: Json, defs: Members, rank: map<string, nat>)
    requires Ranked(defs, rank)
    decreases Height(node, defs, rank)
  {
    && node.Obj?
    && (DEFS in Keys(node.members)
        || (IsKnownRef(node.members, defs) && ReachesDefs(Lookup(defs, Target(node.members, defs)), defs, rank)))
  }

  lemma {:induction false} KeysOfLoop(ms: Members, built: Members, defs: Members, rank: map<string, nat>)
    requires Ranked(defs, rank) && SoundMembers(ms, defs, rank)
    ensures DEFS in Keys(SimplifyMembers(ms, built, defs, rank)) <==> DEFS in Keys(ms) || DEFS in Keys(built)
    decreases ms
  {
    match ms
    case NoMembers =>
    case Member(key, value, rest) =>
      if IsAnyOfList(key, value) {
        KeysOfLoop(rest, Put(built, TYPE, PrimaryType(value.items)), defs, rank);
      } else {
        KeysOfLoop(rest, Put(built, key, Simplify(value, defs, rank)), defs, rank);
      }
  }

  lemma {:induction false} DefsSurviveExactlyWhenReached(node: Json, defs: Members, rank: map<string, nat>)
    requires Ranked(defs, rank) && Sound(node, defs, rank) && node.Obj?
    ensures DEFS in Keys(Simplify(node, defs, rank).members) <==> ReachesDefs(node, defs, rank)
    decreases Height(node, defs, rank)
  {
    if IsKnownRef(node.members, defs) {
      DefsSurviveExactlyWhenReached(Lookup(defs, Target(node.members, defs)), defs, rank);
    } else {
      KeysOfLoop(node.members, NoMembers, defs, rank);
    }
  }

  lemma {:induction false} NormalWithoutDefinitions(j: Json, defs: Members)
    requires Normal(j, defs)
    ensures Normal(j, NoMembers)
    decreases j
  {
    match j
    case Obj(ms) => NormalMembersWithoutDefinitions(ms, defs, false);
    case Arr(items) => NormalItemsWithoutDefinitions(items, defs);
    case _ =>
  }

  lemma {:induction false} NormalMembersWithoutDefinitions(ms: Members, defs: Members, loose: bool)
    requires NormalMembers(ms, defs, loose)
    ensures NormalMembers(ms, NoMembers, loose)
    decreases ms
  {
    match ms
    case NoMembers =>
    case Member(_, value, rest) =>
      NormalWithoutDefinitions(value, defs);
      NormalMembersWithoutDefinitions(rest, defs, loose);
  }

  lemma {:induction false} NormalItemsWithoutDefinitions(items: Items, defs: Members)
    requires NormalItems(items, defs)
    ensures NormalItems(items, NoMembers)
    decreases items
  {
    match items
    case NoItems =>
    case Item(head, tail) =>
      NormalWithoutDefinitions(head, defs);
      NormalItemsWithoutDefinitions(tail, defs);
  }

  /** Running the whole transformation on its own output changes nothing, unless following references from the root
      reaches a dictionary with a `$defs` key of its own, which the output then has. */
  lemma DereferenceIsIdempotent(schema: Json, rank: map<string, nat>)
    requires Accepts(schema, rank) && schema.Obj? && Orderly(RootOf(schema), DefsOf(schema), rank)
    ensures var once := Dereference(schema, rank);
            && once.Obj?
            && (DEFS in Keys(once.members) <==> ReachesDefs(RootOf(schema), DefsOf(schema), rank))
            && (!ReachesDefs(RootOf(schema), DefsOf(schema), rank) ==>
                  Accepts(once, rank) && Dereference(once, rank) == once)
  {
    var defs := DefsOf(schema);
    var once := Dereference(schema, rank);
    SimplifyIsNormal(RootOf(schema), defs, rank);
    DefsSurviveExactlyWhenReached(RootOf(schema), defs, rank);
    if !ReachesDefs(RootOf(schema), defs, rank) {
      NormalWithoutDefinitions(once, defs);
      NormalIsUnchanged(once, NoMembers, rank);
      assert RootOf(once) == once && DefsOf(once) == NoMembers;
    }
  }

  lemma {:induction false} SimplifyKeepsKeysUnique(node: Json, defs: Members, rank: map<string, nat>)
    requires Ranked(defs, rank) && Sound(node, defs, rank) && node.Obj?
    ensures UniqueKeys(Simplify(node, defs, rank).members)
    decreases Height(node, defs, rank)
  {
    if !IsKnownRef(node.members, defs) {
      LoopKeepsKeysUnique(node.members, NoMembers, defs, rank);
    }
  }

  lemma {:induction false} LoopKeepsKeysUnique(ms: Members, built: Members, defs: Members, rank: map<string, nat>)
    requires Ranked(defs, rank) && SoundMembers(ms, defs, rank) && UniqueKeys(built)
    ensures UniqueKeys(SimplifyMembers(ms, built, defs, rank))
    decreases ms
  {
    match ms
    case NoMembers =>
    case Member(key, value, rest) =>
      if IsAnyOfList(key, value) {
        LoopKeepsKeysUnique(rest, Put(built, TYPE, PrimaryType(value.items)), defs, rank);
      } else {
        LoopKeepsKeysUnique(rest, Put(built, key, Simplify(value, defs, rank)), defs, rank);
      }
  }

  lemma {:induction false} LoopKeepsRef(ms: Members, built: Members, defs: Members, rank: map<string, nat>)
    requires Ranked(defs, rank) && SoundMembers(ms, defs, rank) && UniqueKeys(ms)
    ensures var r := SimplifyMembers(ms, built, defs, rank);
            && (REF in Keys(r) <==> REF in Keys(ms) || REF in Keys(built))
            && (REF in Keys(ms) && Lookup(ms, REF).Str? ==> Lookup(r, REF) == Lookup(ms, REF))
            && (REF !in Keys(ms) && REF in Keys(built) ==> Lookup(r, REF) == Lookup(built, REF))
    decreases ms
  {
    match ms
    case NoMembers =>
    case Member(key, value, rest) =>
      if IsAnyOfList(key, value) {
        LoopKeepsRef(rest, Put(built, TYPE, PrimaryType(value.items)), defs, rank);
      } else {
        LoopKeepsRef(rest, Put(built, key, Simplify(value, defs, rank)), defs, rank);
      }
  }

  /** The root of an output is never a reference to a known definition. */
  lemma {:induction false} OutputIsNoKnownRef(node: Json, defs: Members, rank: map<string, nat>)
    requires Ranked(defs, rank) && Sound(node, defs, rank) && node.Obj?
    ensures !IsKnownRef(Simplify(node, defs, rank).members, defs)
    decreases Height(node, defs, rank)
  {
    if IsKnownRef(node.members, defs) {
      OutputIsNoKnownRef(Lookup(defs, Target(node.members, defs)), defs, rank);
      SimplifyKeepsKeysUnique(Lookup(defs, Target(node.members, defs)), defs, rank);
    } else {
      LoopKeepsRef(node.members, NoMembers, defs, rank);
    }
  }

  /** An output with a `$defs` key is no fixed point: its root would have to be a reference into them, and the root of
      an output never is. */
  lemma {:induction false} DefsAreNoFixedPoint(once: Json, again: map<string, nat>)
    requires once.Obj? && DEFS in Keys(once.members) && Accepts(once, again)
    ensures Dereference(once, again) != once
  {
    var root, defs := RootOf(once), DefsOf(once);
    DefsSurviveExactlyWhenReached(root, defs, again);
    OutputIsNoKnownRef(root, defs, again);
    assert IsKnownRef(root.members, defs) <==> IsKnownRef(once.members, defs);
  }

  /** A second run that the code accepts changes the output exactly when the output has a `$defs` key. */
  lemma {:induction false} SecondRunChangesExactlyWhenDefsReached(schema: Json, rank: map<string, nat>,
                                                                  again: map<string, nat>)
    requires Accepts(schema, rank) && schema.Obj? && Orderly(RootOf(schema), DefsOf(schema), rank)
    requires Accepts(Dereference(schema, rank), again)
    ensures var once := Dereference(schema, rank);
            Dereference(once, again) != once <==> ReachesDefs(RootOf(schema), DefsOf(schema), rank)
  {
    var once := Dereference(schema, rank);
    DereferenceIsIdempotent(schema, rank);
    if ReachesDefs(RootOf(schema), DefsOf(schema), rank) {
      DefsAreNoFixedPoint(once, again);
    } else {
      assert RootOf(once) == once && DefsOf(once) == NoMembers;
      RankDoesNotMatter(once, NoMembers, rank, again);
    }
  }

  lemma PrefixIsDropped(name: string)
    requires '/' !in name
    ensures LastSegment(REF_PREFIX + name) == name
  {
    var path := REF_PREFIX + name;
    assert path[..8] == REF_PREFIX && path[8..] == name;
    DropsTo(path, 8);
  }

  /** All that comes before a slash is dropped. */
  lemma {:induction false} DropsTo(path: string, n: nat)
    requires 0 < n <= |path| && path[n - 1] == '/'
    ensures LastSegment(path) == LastSegment(path[n..])
    decreases n
  {
    assert path[n - 1] in path;
    if n > 1 {
      assert path[1..][n - 2] == '/' && path[1..][n - 1..] == path[n..];
      DropsTo(path[1..], n - 1);
    }
  }

  lemma DefsAreTaken(ref: Json, defs: Members)
    ensures var schema := Obj(Member(REF, ref, Member(DEFS, Obj(defs), NoMembers)));
            DefsOf(schema) == defs && RootOf(schema) == Obj(Member(REF, ref, NoMembers))
  {
    var rest := Member(DEFS, Obj(defs), NoMembers);
    assert REF != DEFS by { assert REF[1] == 'r' && DEFS[1] == 'd'; }
    assert Lookup(Member(REF, ref, rest), DEFS) == Obj(defs);
    assert Remove(Member(DEFS, Obj(defs), NoMembers), DEFS) == NoMembers;
  }

  lemma FirstRunFindsDefs(name: string)
    requires '/' !in name
    ensures var inner := Obj(Member(DEFS, Obj(NoMembers), NoMembers));
            var defs := Member(name, inner, NoMembers);
            var schema := Obj(Member(REF, Str(REF_PREFIX + name), Member(DEFS, Obj(defs), NoMembers)));
            var rank: map<string, nat> := map[name := 0];
            Accepts(schema, rank) && Dereference(schema, rank) == inner
  {
    var inner := Obj(Member(DEFS, Obj(NoMembers), NoMembers));
    var defs := Member(name, inner, NoMembers);
    var root := Member(REF, Str(REF_PREFIX + name), NoMembers);
    PrefixIsDropped(name);
    DefsAreTaken(Str(REF_PREFIX + name), defs);
    assert Lookup(root, REF) == Str(REF_PREFIX + name) && REF_PREFIX <= REF_PREFIX + name;
    assert Lookup(defs, name) == inner;
    InnerIsUnchanged(defs, map[name := 0]);
  }

  lemma SecondRunDropsDefs(rank: map<string, nat>)
    ensures var inner := Obj(Member(DEFS, Obj(NoMembers), NoMembers));
            Accepts(inner, rank) && Dereference(inner, rank) == Obj(NoMembers)
  {
    var inner := Obj(Member(DEFS, Obj(NoMembers), NoMembers));
    assert RootOf(inner) == Obj(NoMembers) && DefsOf(inner) == NoMembers;
    NormalIsUnchanged(Obj(NoMembers), NoMembers, rank);
  }

  /** Such schemas: the root is a reference to a definition with a `$defs` key of its own. */
  lemma SecondRunMayChange(name: string)
    requires '/' !in name
    ensures var inner := Obj(Member(DEFS, Obj(NoMembers), NoMembers));
            var defs := Member(name, inner, NoMembers);
            var schema := Obj(Member(REF, Str(REF_PREFIX + name), Member(DEFS, Obj(defs), NoMembers)));
            var rank: map<string, nat> := map[name := 0];
            && Accepts(schema, rank) && Dereference(schema, rank) == inner
            && Accepts(inner, rank) && Dereference(inner, rank) == Obj(NoMembers)
  {
    FirstRunFindsDefs(name);
    SecondRunDropsDefs(map[name := 0]);
  }

  lemma InnerIsUnchanged(defs: Members, rank: map<string, nat>)
    requires forall n :: n in Keys(defs) ==>
               n in rank && Lookup(defs, n) == Obj(Member(DEFS, Obj(NoMembers), NoMembers))
    ensures var inner := Obj(Member(DEFS, Obj(NoMembers), NoMembers));
            Ranked(defs, rank) && Sound(inner, defs, rank) && Simplify(inner, defs, rank) == inner
  {
    var inner := Obj(Member(DEFS, Obj(NoMembers), NoMembers));
    assert Height(Obj(NoMembers), defs, rank) == 0;
    assert Height(inner, defs, rank) == 0;
    assert Normal(Obj(NoMembers), defs) && PlainKey(DEFS, Obj(NoMembers), defs, false);
    NormalIsUnchanged(inner, defs, rank);
  }
}
