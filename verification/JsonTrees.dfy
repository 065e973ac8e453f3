/** JSON values as Python sees them: a dictionary is an ordered list of members, because the
    order of the keys decides which of two assignments to one key comes last. */
module JsonTrees {

  datatype Json =
    | Null
    | Bool(b: bool)
    | Num(n: real)
    | Str(s: string)
    | Arr(items: Items)
    | Obj(members: Members)

  datatype Items = NoItems | Item(head: Json, tail: Items)

  datatype Members = NoMembers | Member(key: string, value: Json, rest: Members)

  function Size(j: Json): nat {
    match j
    case Arr(items) => 1 + ItemsSize(items)
    case Obj(members) => 1 + MembersSize(members)
    case _ => 0
  }

  function ItemsSize(items: Items): nat {
    match items
    case NoItems => 0
    case Item(head, tail) => 1 + Size(head) + ItemsSize(tail)
  }

  function MembersSize(ms: Members): nat {
    match ms
    case NoMembers => 0
    case Member(_, value, rest) => 1 + Size(value) + MembersSize(rest)
  }

  /** The elements of a list, without their order. */
  function Elems(items: Items): (r: set<Json>)
    ensures forall x :: x in r ==> Size(x) < ItemsSize(items)
  {
    match items
    case NoItems => {}
    case Item(head, tail) => {head} + Elems(tail)
  }

  function Keys(ms: Members): set<string> {
    match ms
    case NoMembers => {}
    case Member(key, _, rest) => {key} + Keys(rest)
  }

  predicate UniqueKeys(ms: Members) {
    match ms
    case NoMembers => true
    case Member(key, _, rest) => key !in Keys(rest) && UniqueKeys(rest)
  }

  /** `d[k]` */
  function Lookup(ms: Members, k: string): (r: Json)
    requires k in Keys(ms)
    ensures Size(r) < MembersSize(ms)
  {
    if ms.key == k then ms.value else Lookup(ms.rest, k)
  }

  /** `d[k] = v`: an existing key keeps its place, a new one goes last. */
  function Put(ms: Members, k: string, v: Json): (r: Members)
    ensures Keys(r) == Keys(ms) + {k}
    ensures UniqueKeys(ms) ==> UniqueKeys(r)
    ensures Lookup(r, k) == v
    ensures forall q :: q in Keys(ms) && q != k ==> Lookup(r, q) == Lookup(ms, q)
  {
    match ms
    case NoMembers => Member(k, v, NoMembers)
    case Member(key, value, rest) =>
      if key == k then Member(k, v, rest) else Member(key, value, Put(rest, k, v))
  }

  /** `d.pop(k, None)` */
  function Remove(ms: Members, k: string): (r: Members)
    ensures Keys(r) == Keys(ms) - {k}
    ensures UniqueKeys(ms) ==> UniqueKeys(r)
    ensures forall q :: q in Keys(r) ==> Lookup(r, q) == Lookup(ms, q)
    ensures k !in Keys(ms) ==> r == ms
  {
    match ms
    case NoMembers => NoMembers
    case Member(key, value, rest) =>
      if key == k then Remove(rest, k) else Member(key, value, Remove(rest, k))
  }

  /** `d.update(e)` */
  function Update(ms: Members, extra: Members): (r: Members)
    ensures Keys(r) == Keys(ms) + Keys(extra)
    ensures UniqueKeys(ms) ==> UniqueKeys(r)
    ensures forall q :: q in Keys(ms) && q !in Keys(extra) ==> Lookup(r, q) == Lookup(ms, q)
    ensures UniqueKeys(extra) ==> forall q :: q in Keys(extra) ==> Lookup(r, q) == Lookup(extra, q)
    decreases extra
  {
    match extra
    case NoMembers => ms
    case Member(key, value, rest) => Update(Put(ms, key, value), rest)
  }

  /** The members of `ms` followed by those of `extra`. */
  function Join(ms: Members, extra: Members): Members {
    match ms
    case NoMembers => extra
    case Member(key, value, rest) => Member(key, value, Join(rest, extra))
  }

  lemma {:induction false} PutNewKeyGoesLast(ms: Members, k: string, v: Json)
    requires k !in Keys(ms)
    ensures Put(ms, k, v) == Join(ms, Member(k, v, NoMembers))
  {
    match ms
    case NoMembers =>
    case Member(_, _, rest) => PutNewKeyGoesLast(rest, k, v);
  }

  lemma {:induction false} JoinIsAssociative(a: Members, b: Members, c: Members)
    ensures Join(Join(a, b), c) == Join(a, Join(b, c))
  {
    match a
    case NoMembers =>
    case Member(_, _, rest) => JoinIsAssociative(rest, b, c);
  }

  function Append(items: Items, extra: Items): Items {
    match items
    case NoItems => extra
    case Item(head, tail) => Item(head, Append(tail, extra))
  }
}
