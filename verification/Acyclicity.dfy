/** The simplifier's recursion is well founded exactly when no chain of references leads from a
    definition back to itself. */
module Acyclicity {
  import opened JsonTrees
  import opened Simplifier

  /** The definitions whose references the simplifier follows inside `node`. */
  function Refs(node: Json, defs: Members): (r: set<string>)
    ensures r <= Keys(defs)
    decreases node
  {
    match node
    case Obj(ms) => if IsKnownRef(ms, defs) then {Target(ms, defs)} else MembersRefs(ms, defs)
    case Arr(items) => ItemsRefs(items, defs)
    case _ => {}
  }

  function MembersRefs(ms: Members, defs: Members): (r: set<string>)
    ensures r <= Keys(defs)
    decreases ms
  {
    match ms
    case NoMembers => {}
    case Member(key, value, rest) =>
      (if IsAnyOfList(key, value) then {} else Refs(value, defs)) + MembersRefs(rest, defs)
  }

  function ItemsRefs(items: Items, defs: Members): (r: set<string>)
    ensures r <= Keys(defs)
    decreases items
  {
    match items
    case NoItems => {}
    case Item(head, tail) => Refs(head, defs) + ItemsRefs(tail, defs)
  }

  /** A chain of definitions, each referring to the next. */
  ghost predicate IsChain(chain: seq<string>, defs: Members) {
    && |chain| > 0
    && (forall i :: 0 <= i < |chain| ==> chain[i] in Keys(defs))
    && (forall i :: 0 < i < |chain| ==> chain[i] in Refs(Lookup(defs, chain[i - 1]), defs))
  }

  ghost predicate Acyclic(defs: Members) {
    forall chain :: IsChain(chain, defs) && |chain| > 1 ==> chain[0] != chain[|chain| - 1]
  }

  // ---------- heights and references ----------

  lemma {:induction false} HeightCoversRefs(node: Json, defs: Members, rank: map<string, nat>)
    ensures forall n :: n in Refs(node, defs) && n in rank ==> rank[n] < Height(node, defs, rank)
    decreases node
  {
    match node
    case Obj(ms) => if !IsKnownRef(ms, defs) { MembersHeightCoversRefs(ms, defs, rank); }
    case Arr(items) => ItemsHeightCoversRefs(items, defs, rank);
    case _ =>
  }

  lemma {:induction false} MembersHeightCoversRefs(ms: Members, defs: Members, rank: map<string, nat>)
    ensures forall n :: n in MembersRefs(ms, defs) && n in rank ==> rank[n] < MembersHeight(ms, defs, rank)
    decreases ms
  {
    match ms
    case NoMembers =>
    case Member(key, value, rest) =>
      HeightCoversRefs(value, defs, rank);
      MembersHeightCoversRefs(rest, defs, rank);
  }

  lemma {:induction false} ItemsHeightCoversRefs(items: Items, defs: Members, rank: map<string, nat>)
    ensures forall n :: n in ItemsRefs(items, defs) && n in rank ==> rank[n] < ItemsHeight(items, defs, rank)
    decreases items
  {
    match items
    case NoItems =>
    case Item(head, tail) =>
      HeightCoversRefs(head, defs, rank);
      ItemsHeightCoversRefs(tail, defs, rank);
  }

  lemma {:induction false} HeightIsLeast(node: Json, defs: Members, rank: map<string, nat>, bound: nat)
    requires forall n :: n in Refs(node, defs) && n in rank ==> rank[n] < bound
    ensures Height(node, defs, rank) <= bound
    decreases node
  {
    match node
    case Obj(ms) => if !IsKnownRef(ms, defs) { MembersHeightIsLeast(ms, defs, rank, bound); }
    case Arr(items) => ItemsHeightIsLeast(items, defs, rank, bound);
    case _ =>
  }

  lemma {:induction false} MembersHeightIsLeast(ms: Members, defs: Members, rank: map<string, nat>, bound: nat)
    requires forall n :: n in MembersRefs(ms, defs) && n in rank ==> rank[n] < bound
    ensures MembersHeight(ms, defs, rank) <= bound
    decreases ms
  {
    match ms
    case NoMembers =>
    case Member(key, value, rest) =>
      if !IsAnyOfList(key, value) { HeightIsLeast(value, defs, rank, bound); }
      MembersHeightIsLeast(rest, defs, rank, bound);
  }

  lemma {:induction false} ItemsHeightIsLeast(items: Items, defs: Members, rank: map<string, nat>, bound: nat)
    requires forall n :: n in ItemsRefs(items, defs) && n in rank ==> rank[n] < bound
    ensures ItemsHeight(items, defs, rank) <= bound
    decreases items
  {
    match items
    case NoItems =>
    case Item(head, tail) =>
      HeightIsLeast(head, defs, rank, bound);
      ItemsHeightIsLeast(tail, defs, rank, bound);
  }

  // ---------- ranked means acyclic ----------

  lemma {:induction false} RankFallsAlongChain(chain: seq<string>, defs: Members, rank: map<string, nat>)
    requires Ranked(defs, rank) && IsChain(chain, defs) && |chain| > 1
    ensures rank[chain[|chain| - 1]] < rank[chain[0]]
  {
    var last := |chain| - 1;
    HeightCoversRefs(Lookup(defs, chain[last - 1]), defs, rank);
    if last > 1 {
      RankFallsAlongChain(chain[..last], defs, rank);
    }
  }

  // ---------- acyclic means ranked ----------

  lemma EndOfChain(defs: Members, chain: seq<string>, i: nat)
    requires Acyclic(defs) && IsChain(chain, defs) && i < |chain| - 1
    ensures chain[i] != chain[|chain| - 1]
  {
    var end := chain[i..];
    assert IsChain(end, defs) && end[0] == chain[i] && end[|end| - 1] == chain[|chain| - 1];
  }

  /** Nothing on a chain is referred to from its end. */
  lemma ChainGoesOn(defs: Members, chain: seq<string>, next: string)
    requires Acyclic(defs) && IsChain(chain, defs) && next in Refs(Lookup(defs, chain[|chain| - 1]), defs)
    ensures IsChain(chain + [next], defs) && next !in chain
  {
    var longer := chain + [next];
    assert IsChain(longer, defs);
    forall i | 0 <= i < |chain| ensures chain[i] != next {
      EndOfChain(defs, longer, i);
    }
  }

  /** Walking along references outside `done` ends in a definition that refers only into `done`. */
  lemma {:induction false} FindReady(defs: Members, done: set<string>, chain: seq<string>) returns (name: string)
    requires Acyclic(defs) && IsChain(chain, defs)
    requires forall i :: 0 <= i < |chain| ==> chain[i] !in done
    ensures name in Keys(defs) && name !in done && Refs(Lookup(defs, name), defs) <= done
    decreases Keys(defs) - (set i | 0 <= i < |chain| :: chain[i])
  {
    name := chain[|chain| - 1];
    var refs := Refs(Lookup(defs, name), defs);
    if refs <= done {
      return;
    } else {
      var next :| next in refs && next !in done;
      var longer := chain + [next];
      ChainGoesOn(defs, chain, next);
      assert (set i | 0 <= i < |longer| :: longer[i]) == (set i | 0 <= i < |chain| :: chain[i]) + {next} by {
        assert longer[|chain|] == next;
        assert forall i :: 0 <= i < |chain| ==> longer[i] == chain[i];
      }
      name := FindReady(defs, done, longer);
    }
  }

  ghost predicate RankedSoFar(defs: Members, rank: map<string, nat>) {
    && rank.Keys <= Keys(defs)
    && forall n :: n in rank ==>
         && Refs(Lookup(defs, n), defs) <= rank.Keys
         && forall m :: m in Refs(Lookup(defs, n), defs) ==> rank[m] < rank[n]
  }

  lemma {:induction false} CompleteRank(defs: Members, sofar: map<string, nat>) returns (rank: map<string, nat>)
    requires Acyclic(defs) && RankedSoFar(defs, sofar)
    ensures RankedSoFar(defs, rank) && rank.Keys == Keys(defs)
    decreases Keys(defs) - sofar.Keys
  {
    rank := sofar;
    if sofar.Keys != Keys(defs) {
      var missing := Keys(defs) - sofar.Keys;
      assert Keys(defs) == sofar.Keys + missing;
      var start :| start in missing;
      var name := FindReady(defs, sofar.Keys, [start]);
      HeightCoversRefs(Lookup(defs, name), defs, sofar);
      var more := sofar[name := Height(Lookup(defs, name), defs, sofar)];
      assert more.Keys == sofar.Keys + {name};
      assert Keys(defs) - more.Keys < Keys(defs) - sofar.Keys by { assert name in Keys(defs) - sofar.Keys; }
      rank := CompleteRank(defs, more);
    }
  }

  /** The simplifier has a termination measure exactly on acyclic definitions. */
  lemma TerminationMeasureExists(defs: Members)
    ensures Acyclic(defs) <==> exists rank :: Ranked(defs, rank)
  {
    if Acyclic(defs) {
      var rank := CompleteRank(defs, map[]);
      forall n | n in Keys(defs) ensures Height(Lookup(defs, n), defs, rank) <= rank[n] {
        HeightIsLeast(Lookup(defs, n), defs, rank, rank[n]);
      }
      assert Ranked(defs, rank);
    }
    if exists rank :: Ranked(defs, rank) {
      var rank :| Ranked(defs, rank);
      forall chain | IsChain(chain, defs) && |chain| > 1 ensures chain[0] != chain[|chain| - 1] {
        RankFallsAlongChain(chain, defs, rank);
      }
    }
  }
}
