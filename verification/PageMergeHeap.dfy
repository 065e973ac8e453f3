/** The merge as the code runs it: the first page's list object is adopted and later extended in place. */
module PageMergeHeap {
  import opened PageMerge

  /** A Python list object. */
  class PyList {
    var items: seq<Item>

    constructor (items: seq<Item>)
      ensures this.items == items
    {
      this.items := items;
    }
  }

  datatype PyValue =
    | PyMissing
    | PyText(s: string)
    | PyRef(list: PyList)
    | PyOther(body: int, empty: bool)

  datatype PyPage = PyPage(output: map<string, PyValue>, index: nat)

  function Deref(v: PyValue): Value
    reads if v.PyRef? then {v.list} else {}
  {
    match v
    case PyMissing => Missing
    case PyText(s) => Text(s)
    case PyRef(list) => List(list.items)
    case PyOther(body, empty) => Other(body, empty)
  }

  /** The list object that page `i` holds under `field`, if it holds one. */
  ghost predicate Holds(pages: seq<PyPage>, i: nat, field: string) {
    i < |pages| && field in pages[i].output && pages[i].output[field].PyRef?
  }

  ghost function Held(pages: seq<PyPage>, i: nat, field: string): PyList
    requires Holds(pages, i, field)
  {
    pages[i].output[field].list
  }

  ghost function Lists(pages: seq<PyPage>): set<PyList> {
    set i, f | 0 <= i < |pages| && f in pages[i].output && pages[i].output[f].PyRef? :: pages[i].output[f].list
  }

  /** Every field of every page has a list object of its own, as decoding JSON yields them. */
  ghost predicate Unshared(pages: seq<PyPage>) {
    forall i: nat, f, j: nat, g ::
      Holds(pages, i, f) && Holds(pages, j, g) && Held(pages, i, f) == Held(pages, j, g) ==>
      i == j && f == g
  }

  /** What the pages hold, as values. */
  ghost function View(pages: seq<PyPage>): seq<Page>
    reads Lists(pages)
  {
    seq(|pages|, i requires 0 <= i < |pages| reads Lists(pages) =>
      Page(map f | f in pages[i].output :: Deref(pages[i].output[f]), pages[i].index))
  }

  method UniqueListItems(current: seq<Item>, candidate: seq<Item>) returns (additions: seq<Item>)
    ensures additions == Additions(KeySet(current), candidate)
  {
    var seen: set<string> := set item | item in current :: item.repr;
    assert seen == KeySet(current);
    additions := [];
    for n := 0 to |candidate|
      invariant additions + Additions(seen, candidate[n..]) == Additions(KeySet(current), candidate)
    {
      var item := candidate[n];
      assert candidate[n..][1..] == candidate[n + 1..];
      if item.repr !in seen {
        seen := seen + {item.repr};
        additions := additions + [item];
      }
    }
  }

  method AppendSourcePage(pages: seq<nat>, page: nat) returns (r: seq<nat>)
    ensures r == AppendPage(pages, page)
  {
    r := pages;
    if page !in pages {
      r := r + [page];
    }
  }

  ghost function Names(fields: seq<string>): set<string> {
    set k | 0 <= k < |fields| :: fields[k]
  }

  // ---------- the state of the loops ----------

  /** Which page and field each list object belongs to. */
  type Owner = map<PyList, (nat, string)>

  /** The contents of the list objects at one moment. */
  type Contents = map<PyList, seq<Item>>

  ghost predicate Owned(pages: seq<PyPage>, owner: Owner) {
    forall p: nat, g :: Holds(pages, p, g) ==> Held(pages, p, g) in owner && owner[Held(pages, p, g)] == (p, g)
  }

  lemma OwnerExists(pages: seq<PyPage>) returns (owner: Owner)
    requires Unshared(pages)
    ensures Owned(pages, owner) && owner.Keys == Lists(pages)
  {
    forall l | l in Lists(pages) ensures exists p: nat, g :: Holds(pages, p, g) && Held(pages, p, g) == l {
      var p, g :| 0 <= p < |pages| && g in pages[p].output && pages[p].output[g].PyRef? && pages[p].output[g].list == l;
      assert Holds(pages, p, g);
    }
    owner := map l | l in Lists(pages) :: var p: nat, g :| Holds(pages, p, g) && Held(pages, p, g) == l; (p, g);
  }

  /** `now` is what the list objects hold. */
  ghost predicate Current(owner: Owner, now: Contents)
    reads owner.Keys
  {
    now.Keys == owner.Keys && forall l :: l in owner ==> now[l] == l.items
  }

  /** The dictionaries of the merge, with the page each adopted list object came from. */
  datatype Dicts = Dicts(merged: map<string, PyValue>, sources: map<string, seq<nat>>, ghost origin: map<string, nat>)

  ghost predicate PageStarted(pages: seq<PyPage>, before: seq<Page>, p: nat)
    requires |before| == |pages|
  {
    p < |pages| ==>
      && before[p].index == pages[p].index
      && before[p].output.Keys == pages[p].output.Keys
      && forall g :: g in pages[p].output && !pages[p].output[g].PyRef? ==>
           before[p].output[g] == Deref(pages[p].output[g])
  }

  /** Apart from list objects, `before` is what the pages hold. */
  ghost predicate Started(pages: seq<PyPage>, before: seq<Page>, owner: Owner) {
    Owned(pages, owner) && |before| == |pages| && forall p: nat :: PageStarted(pages, before, p)
  }

  /** A field that holds a list object knows the page it came from. */
  ghost predicate FieldWellFormed(pages: seq<PyPage>, d: Dicts, f: string) {
    f in d.merged ==>
      && (f in d.origin <==> d.merged[f].PyRef?)
      && (f in d.origin ==> Holds(pages, d.origin[f], f) && Held(pages, d.origin[f], f) == d.merged[f].list)
  }

  ghost predicate WellFormed(pages: seq<PyPage>, d: Dicts) {
    d.merged.Keys == d.sources.Keys && forall f :: FieldWellFormed(pages, d, f)
  }

  ghost predicate IsAdopted(d: Dicts, p: nat, f: string) {
    f in d.merged && f in d.origin && d.origin[f] == p
  }

  /** The entry of one field, read through the list object if there is one. */
  ghost function EntryOf(now: Contents, d: Dicts, f: string): Entry
    requires f in d.merged ==> f in d.sources && (d.merged[f].PyRef? ==> d.merged[f].list in now)
  {
    if f !in d.merged then Absent
    else if d.merged[f].PyRef? then PageMerge.Merged(List(now[d.merged[f].list]), d.sources[f])
    else PageMerge.Merged(Deref(d.merged[f]), d.sources[f])
  }

  ghost predicate IsUntouched(pages: seq<PyPage>, before: seq<Page>, now: Contents, d: Dicts, p: nat, g: string) {
    Holds(pages, p, g) && !IsAdopted(d, p, g) ==>
      && Held(pages, p, g) in now && p < |before| && g in before[p].output
      && List(now[Held(pages, p, g)]) == before[p].output[g]
  }

  /** Every list object that was not adopted still holds what it held. */
  ghost predicate OthersUntouched(pages: seq<PyPage>, before: seq<Page>, now: Contents, d: Dicts) {
    forall p: nat, g :: IsUntouched(pages, before, now, d, p, g)
  }

  /** The merge of one field over pages `..i`, and over page `i` as well if that one is `done`. */
  ghost function FieldUpTo(before: seq<Page>, i: nat, f: string, done: bool): Entry
    requires i <= |before| && (done ==> i < |before|)
  {
    MergeField(Candidates(if done then before[..i + 1] else before[..i], f))
  }

  lemma NextCandidate(before: seq<Page>, i: nat, f: string)
    requires i < |before|
    ensures FieldUpTo(before, i, f, true) ==
            if f in before[i].output
            then Step(FieldUpTo(before, i, f, false), Candidate(before[i].output[f], before[i].index))
            else FieldUpTo(before, i, f, false)
  {
    assert before[..i + 1][..i] == before[..i];
    if f in before[i].output {
      RunOne(Absent, Candidates(before[..i], f), Candidate(before[i].output[f], before[i].index));
    }
  }

  /** The loops have merged pages `..i` for the field, and page `i` if the field is `done`. */
  ghost predicate FieldReached(before: seq<Page>, now: Contents, i: nat, done: set<string>, d: Dicts, f: string)
    requires i <= |before| && (done != {} ==> i < |before|)
  {
    && (f in d.merged ==> f in d.sources && (d.merged[f].PyRef? ==> d.merged[f].list in now))
    && (f in d.merged && f in d.origin ==> d.origin[f] < i || (d.origin[f] == i && f in done))
    && EntryOf(now, d, f) == FieldUpTo(before, i, f, f in done)
  }

  /** Everything `Reached` says, except about `field`. */
  ghost predicate RestReached(pages: seq<PyPage>, before: seq<Page>, now: Contents, i: nat, done: set<string>,
                              fields: set<string>, field: string, d: Dicts)
    requires i <= |before| && (done != {} ==> i < |before|)
  {
    && WellFormed(pages, d) && d.merged.Keys <= fields
    && forall f :: f in fields && f != field ==> FieldReached(before, now, i, done, d, f)
  }

  /** The loops have merged pages `..i` for every field, and page `i` for the fields in `done`. */
  ghost predicate Reached(pages: seq<PyPage>, before: seq<Page>, owner: Owner, now: Contents, i: nat,
                          done: set<string>, fields: set<string>, d: Dicts)
    requires i <= |pages| && (done != {} ==> i < |pages|)
  {
    && Started(pages, before, owner) && now.Keys == owner.Keys
    && OthersUntouched(pages, before, now, d)
    && WellFormed(pages, d) && d.merged.Keys <= fields
    && forall f :: f in fields ==> FieldReached(before, now, i, done, d, f)
  }

  /** Page `p` is the first on which the field is useful. */
  ghost predicate IsFirstContributor(before: seq<Page>, p: nat, f: string) {
    && p < |before| && f in before[p].output && IsUseful(before[p].output[f])
    && forall q :: 0 <= q < p ==> !(f in before[q].output && IsUseful(before[q].output[f]))
  }

  ghost predicate IsFirst(before: seq<Page>, origin: map<string, nat>, f: string) {
    f in origin ==> IsFirstContributor(before, origin[f], f)
  }

  /** Every adopted list object is the first contributor's. */
  ghost predicate AreFirst(before: seq<Page>, origin: map<string, nat>) {
    forall f :: IsFirst(before, origin, f)
  }

  lemma AdoptedIsFirst(before: seq<Page>, origin: map<string, nat>, next: map<string, nat>, i: nat, field: string)
    requires AreFirst(before, origin) && IsFirstContributor(before, i, field)
    requires next == origin[field := i] || next == origin - {field}
    ensures AreFirst(before, next)
  {
    forall f ensures IsFirst(before, next, f) {
      assert IsFirst(before, origin, f);
    }
  }

  lemma AbsentMeansNoneBefore(before: seq<Page>, i: nat, f: string)
    requires i <= |before| && FieldUpTo(before, i, f, false).Absent?
    ensures forall q :: 0 <= q < i ==> !(f in before[q].output && IsUseful(before[q].output[f]))
  {
    var cs := Candidates(before[..i], f);
    FirstUsefulDecidesKind(cs);
    forall q | 0 <= q < i && f in before[q].output ensures !IsUseful(before[q].output[f]) {
      var c := Candidate(before[q].output[f], before[q].index);
      assert before[..i][q] == before[q];
      CandidatesAreOnPages(before[..i], f, c);
      if exists j :: 0 <= j < |cs| && IsUseful(cs[j].value) { var j := FindFirstUseful(cs); }
    }
  }

  // ---------- one field of one page ----------

  /** The dictionaries differ at `field` only. */
  ghost predicate SameElsewhere(d: Dicts, r: Dicts, field: string) {
    && r.merged.Keys == d.merged.Keys + {field}
    && forall f :: f in d.merged && f != field ==>
         && r.merged[f] == d.merged[f]
         && f in d.sources && f in r.sources && r.sources[f] == d.sources[f]
         && (f in r.origin <==> f in d.origin)
         && (f in d.origin ==> r.origin[f] == d.origin[f])
  }

  lemma ElsewhereReached(before: seq<Page>, now: Contents, i: nat, done: set<string>, d: Dicts, r: Dicts,
                         field: string, f: string)
    requires i < |before| && f != field && SameElsewhere(d, r, field) && FieldReached(before, now, i, done, d, f)
    ensures FieldReached(before, now, i, done + {field}, r, f)
  {
  }

  /** The step from `d` to `r` merged `field` of page `i`; elsewhere everything is as before. */
  lemma OneFieldMore(pages: seq<PyPage>, before: seq<Page>, owner: Owner, now: Contents, i: nat,
                     done: set<string>, fields: set<string>, field: string, d: Dicts, r: Dicts)
    requires Started(pages, before, owner) && now.Keys == owner.Keys
    requires i < |pages| && field in fields && field !in done
    requires RestReached(pages, before, now, i, done, fields, field, d)
    requires WellFormed(pages, r) && SameElsewhere(d, r, field) && OthersUntouched(pages, before, now, r)
    requires FieldReached(before, now, i, done + {field}, r, field)
    ensures Reached(pages, before, owner, now, i, done + {field}, fields, r)
  {
    forall f | f in fields ensures FieldReached(before, now, i, done + {field}, r, f) {
      if f != field { ElsewhereReached(before, now, i, done, d, r, field, f); }
    }
  }

  lemma SettledSoFar(before: seq<Page>, i: nat, field: string)
    requires i <= |before|
    ensures FieldUpTo(before, i, field, false).Merged? ==> IsSettled(FieldUpTo(before, i, field, false))
  {
    RunCovers(Candidates(before[..i], field));
  }

  /** The list object a page brings has not been adopted yet, so it still holds what it held. */
  lemma CandidateIsUntouched(pages: seq<PyPage>, before: seq<Page>, owner: Owner, now: Contents, i: nat,
                             done: set<string>, fields: set<string>, field: string, d: Dicts)
    requires i < |pages| && field in pages[i].output && field in fields && field !in done
    requires Reached(pages, before, owner, now, i, done, fields, d)
    ensures field in before[i].output && before[i].index == pages[i].index
    ensures pages[i].output[field].PyRef? ==> Held(pages, i, field) in owner
    ensures before[i].output[field] ==
            if pages[i].output[field].PyRef? then List(now[pages[i].output[field].list])
            else Deref(pages[i].output[field])
  {
    assert PageStarted(pages, before, i);
    if pages[i].output[field].PyRef? {
      assert FieldReached(before, now, i, done, d, field);
      assert Holds(pages, i, field) && !IsAdopted(d, i, field) && IsUntouched(pages, before, now, d, i, field);
    }
  }

  lemma OthersUntouchedAgain(pages: seq<PyPage>, before: seq<Page>, now: Contents, d: Dicts, r: Dicts)
    requires OthersUntouched(pages, before, now, d)
    requires forall p: nat, g :: IsAdopted(d, p, g) ==> IsAdopted(r, p, g)
    ensures OthersUntouched(pages, before, now, r)
  {
    forall p: nat, g ensures IsUntouched(pages, before, now, r, p, g) {
      assert IsUntouched(pages, before, now, d, p, g);
    }
  }

  /** The dictionaries after adopting a value. */
  ghost predicate Adopts(pages: seq<PyPage>, i: nat, field: string, d: Dicts, r: Dicts)
    requires i < |pages| && field in pages[i].output
  {
    && r.merged == d.merged[field := pages[i].output[field]]
    && r.sources == d.sources[field := [pages[i].index]]
    && r.origin == if pages[i].output[field].PyRef? then d.origin[field := i] else d.origin - {field}
  }

  lemma AdoptShape(pages: seq<PyPage>, i: nat, field: string, d: Dicts, r: Dicts)
    requires i < |pages| && WellFormed(pages, d) && field in pages[i].output && field !in d.merged
    requires Adopts(pages, i, field, d, r)
    ensures WellFormed(pages, r) && SameElsewhere(d, r, field)
    ensures forall p: nat, g :: IsAdopted(d, p, g) ==> IsAdopted(r, p, g)
  {
    forall f ensures FieldWellFormed(pages, r, f) {
      assert FieldWellFormed(pages, d, f);
      assert f == field && field in r.origin ==> Holds(pages, i, field);
    }
  }

  lemma AdoptReaches(before: seq<Page>, now: Contents, i: nat, done: set<string>, field: string, d: Dicts, r: Dicts,
                     candidate: PyValue)
    requires i < |before| && field in before[i].output && IsUseful(before[i].output[field]) && field !in done
    requires FieldReached(before, now, i, done, d, field) && field !in d.merged
    requires candidate.PyRef? ==> candidate.list in now
    requires before[i].output[field] == if candidate.PyRef? then List(now[candidate.list]) else Deref(candidate)
    requires r.merged == d.merged[field := candidate] && r.sources == d.sources[field := [before[i].index]]
    requires field in r.origin ==> r.origin[field] == i
    ensures FieldReached(before, now, i, done + {field}, r, field)
  {
    NextCandidate(before, i, field);
  }

  lemma AdoptKeeps(pages: seq<PyPage>, before: seq<Page>, owner: Owner, now: Contents, i: nat,
                   done: set<string>, fields: set<string>, field: string, d: Dicts, r: Dicts)
    requires i < |pages| && field in fields && field !in done
    requires Reached(pages, before, owner, now, i, done, fields, d)
    requires field in pages[i].output && field in before[i].output && IsUseful(before[i].output[field])
    requires field !in d.merged
    requires Adopts(pages, i, field, d, r)
    ensures Reached(pages, before, owner, now, i, done + {field}, fields, r)
  {
    CandidateIsUntouched(pages, before, owner, now, i, done, fields, field, d);
    AdoptShape(pages, i, field, d, r);
    OthersUntouchedAgain(pages, before, now, d, r);
    AdoptReaches(before, now, i, done, field, d, r, pages[i].output[field]);
    OneFieldMore(pages, before, owner, now, i, done, fields, field, d, r);
  }

  lemma ReplaceShape(pages: seq<PyPage>, i: nat, field: string, d: Dicts, r: Dicts)
    requires i < |pages| && WellFormed(pages, d) && field in pages[i].output && field in d.merged
    requires r == d || (&& !d.merged[field].PyRef? && !pages[i].output[field].PyRef?
                        && r == Dicts(d.merged[field := pages[i].output[field]],
                                      d.sources[field := AppendPage(d.sources[field], pages[i].index)], d.origin))
    ensures WellFormed(pages, r) && SameElsewhere(d, r, field)
    ensures forall p: nat, g :: IsAdopted(d, p, g) ==> IsAdopted(r, p, g)
  {
    forall f ensures FieldWellFormed(pages, r, f) {
      assert FieldWellFormed(pages, d, f);
    }
  }

  /** A string that replaces another one, or does not. */
  lemma ReplaceReaches(before: seq<Page>, now: Contents, i: nat, done: set<string>, field: string, d: Dicts, r: Dicts,
                       candidate: PyValue)
    requires i < |before| && field in before[i].output && IsUseful(before[i].output[field]) && field !in done
    requires FieldReached(before, now, i, done, d, field) && field in d.merged
    requires candidate.PyRef? ==> !d.merged[field].PyRef? && before[i].output[field].List?
    requires !candidate.PyRef? ==> before[i].output[field] == Deref(candidate)
    requires r == if IsMoreComplete(before[i].output[field], EntryOf(now, d, field).value)
                  then Dicts(d.merged[field := candidate],
                             d.sources[field := AppendPage(d.sources[field], before[i].index)], d.origin)
                  else d
    ensures r == d || (!candidate.PyRef? && !d.merged[field].PyRef?)
    ensures FieldReached(before, now, i, done + {field}, r, field)
  {
    NextCandidate(before, i, field);
    SettledSoFar(before, i, field);
  }

  lemma ReplaceKeeps(pages: seq<PyPage>, before: seq<Page>, owner: Owner, now: Contents, i: nat,
                     done: set<string>, fields: set<string>, field: string, d: Dicts, r: Dicts)
    requires i < |pages| && field in fields && field !in done
    requires Reached(pages, before, owner, now, i, done, fields, d)
    requires field in pages[i].output && field in before[i].output && IsUseful(before[i].output[field])
    requires field in d.merged && !(d.merged[field].PyRef? && pages[i].output[field].PyRef?)
    requires FieldReached(before, now, i, done, d, field)
    requires r == if IsMoreComplete(before[i].output[field], EntryOf(now, d, field).value)
                  then Dicts(d.merged[field := pages[i].output[field]],
                             d.sources[field := AppendPage(d.sources[field], pages[i].index)], d.origin)
                  else d
    ensures Reached(pages, before, owner, now, i, done + {field}, fields, r)
  {
    CandidateIsUntouched(pages, before, owner, now, i, done, fields, field, d);
    ReplaceReaches(before, now, i, done, field, d, r, pages[i].output[field]);
    ReplaceShape(pages, i, field, d, r);
    OthersUntouchedAgain(pages, before, now, d, r);
    OneFieldMore(pages, before, owner, now, i, done, fields, field, d, r);
  }

  lemma UnchangedKeeps(pages: seq<PyPage>, before: seq<Page>, owner: Owner, now: Contents, i: nat,
                       done: set<string>, fields: set<string>, field: string, d: Dicts)
    requires i < |pages| && field in fields && field !in done
    requires Reached(pages, before, owner, now, i, done, fields, d)
    requires FieldUpTo(before, i, field, true) == FieldUpTo(before, i, field, false)
    ensures Reached(pages, before, owner, now, i, done + {field}, fields, d)
  {
    forall f | f in fields ensures FieldReached(before, now, i, done + {field}, d, f) {
      assert FieldReached(before, now, i, done, d, f);
    }
  }

  lemma ListStep(items: seq<Item>, sources: seq<nat>, candidate: seq<Item>, page: nat)
    requires candidate != []
    ensures Step(PageMerge.Merged(List(items), sources), Candidate(List(candidate), page))
         == (var additions := Additions(KeySet(items), candidate);
             if additions == [] then PageMerge.Merged(List(items), sources)
             else PageMerge.Merged(List(items + additions), AppendPage(sources, page)))
  {
  }

  /** Only the list object adopted for `field` has changed. */
  ghost predicate OnlyExtends(pages: seq<PyPage>, owner: Owner, now: Contents, next: Contents, field: string,
                              d: Dicts)
  {
    && Owned(pages, owner) && WellFormed(pages, d) && now.Keys == owner.Keys && next.Keys == now.Keys
    && field in d.merged && d.merged[field].PyRef? && field in d.origin
    && forall l :: l in now && l != d.merged[field].list ==> next[l] == now[l]
  }

  /** A list object of its own per field and page: any other one is a different object. */
  lemma OthersAreDifferent(pages: seq<PyPage>, owner: Owner, field: string, d: Dicts, p: nat, g: string)
    requires Owned(pages, owner) && FieldWellFormed(pages, d, field)
    requires field in d.merged && d.merged[field].PyRef? && field in d.origin
    requires Holds(pages, p, g) && (p != d.origin[field] || g != field)
    ensures Held(pages, p, g) in owner && Held(pages, p, g) != d.merged[field].list
  {
    assert owner[d.merged[field].list] == (d.origin[field], field);
    assert owner[Held(pages, p, g)] == (p, g);
  }

  lemma ExtendLeavesOthers(pages: seq<PyPage>, before: seq<Page>, owner: Owner, now: Contents, next: Contents,
                           field: string, d: Dicts)
    requires OnlyExtends(pages, owner, now, next, field, d) && OthersUntouched(pages, before, now, d)
    ensures OthersUntouched(pages, before, next, d)
  {
    assert FieldWellFormed(pages, d, field);
    forall p: nat, g ensures IsUntouched(pages, before, next, d, p, g) {
      assert IsUntouched(pages, before, now, d, p, g);
      if Holds(pages, p, g) && !IsAdopted(d, p, g) { OthersAreDifferent(pages, owner, field, d, p, g); }
    }
  }

  lemma ExtendLeavesField(pages: seq<PyPage>, before: seq<Page>, owner: Owner, now: Contents, next: Contents, i: nat,
                          done: set<string>, field: string, d: Dicts, f: string)
    requires OnlyExtends(pages, owner, now, next, field, d)
    requires i <= |before| && (done != {} ==> i < |before|)
    requires f != field && FieldReached(before, now, i, done, d, f)
    ensures FieldReached(before, next, i, done, d, f)
  {
    assert FieldWellFormed(pages, d, field) && FieldWellFormed(pages, d, f);
    if f in d.merged && f in d.origin { OthersAreDifferent(pages, owner, field, d, d.origin[f], f); }
  }

  lemma ExtendShape(pages: seq<PyPage>, field: string, d: Dicts, r: Dicts)
    requires WellFormed(pages, d) && field in d.merged && field in r.sources
    requires r == Dicts(d.merged, d.sources[field := r.sources[field]], d.origin)
    ensures WellFormed(pages, r) && SameElsewhere(d, r, field)
    ensures forall p: nat, g :: IsAdopted(d, p, g) ==> IsAdopted(r, p, g)
  {
    forall f ensures FieldWellFormed(pages, r, f) {
      assert FieldWellFormed(pages, d, f);
    }
  }

  /** Extending the adopted list object changes that object and nothing any other field depends on. */
  lemma ExtendKeeps(pages: seq<PyPage>, before: seq<Page>, owner: Owner, now: Contents, i: nat,
                    done: set<string>, fields: set<string>, field: string, d: Dicts,
                    next: Contents, r: Dicts)
    requires i < |pages| && field in fields && field !in done
    requires Reached(pages, before, owner, now, i, done, fields, d)
    requires OnlyExtends(pages, owner, now, next, field, d)
    requires field in r.sources && r == Dicts(d.merged, d.sources[field := r.sources[field]], d.origin)
    requires FieldReached(before, next, i, done + {field}, r, field)
    ensures Reached(pages, before, owner, next, i, done + {field}, fields, r)
  {
    ExtendLeavesOthers(pages, before, owner, now, next, field, d);
    forall f | f in fields && f != field ensures FieldReached(before, next, i, done, d, f) {
      ExtendLeavesField(pages, before, owner, now, next, i, done, field, d, f);
    }
    ExtendShape(pages, field, d, r);
    OthersUntouchedAgain(pages, before, next, d, r);
    OneFieldMore(pages, before, owner, next, i, done, fields, field, d, r);
  }

  lemma AdoptField(pages: seq<PyPage>, before: seq<Page>, owner: Owner, now: Contents, i: nat,
                   done: set<string>, fields: set<string>, field: string, d: Dicts, r: Dicts)
    requires i < |pages| && field in fields && field !in done
    requires Reached(pages, before, owner, now, i, done, fields, d) && AreFirst(before, d.origin)
    requires field in pages[i].output && field in before[i].output && IsUseful(before[i].output[field])
    requires field !in d.merged && Adopts(pages, i, field, d, r)
    ensures Reached(pages, before, owner, now, i, done + {field}, fields, r) && AreFirst(before, r.origin)
  {
    assert FieldReached(before, now, i, done, d, field);
    AbsentMeansNoneBefore(before, i, field);
    AdoptedIsFirst(before, d.origin, r.origin, i, field);
    AdoptKeeps(pages, before, owner, now, i, done, fields, field, d, r);
  }

  lemma UselessKeeps(pages: seq<PyPage>, before: seq<Page>, owner: Owner, now: Contents, i: nat,
                     done: set<string>, fields: set<string>, field: string, d: Dicts)
    requires i < |pages| && field in fields && field !in done
    requires Reached(pages, before, owner, now, i, done, fields, d)
    requires field in before[i].output ==> !IsUseful(before[i].output[field])
    ensures Reached(pages, before, owner, now, i, done + {field}, fields, d)
  {
    NextCandidate(before, i, field);
    UnchangedKeeps(pages, before, owner, now, i, done, fields, field, d);
  }

  method MergeOneField(pages: seq<PyPage>, ghost before: seq<Page>, ghost owner: Owner, ghost now: Contents, i: nat,
                       ghost done: set<string>, ghost fields: set<string>, field: string, d: Dicts)
    returns (r: Dicts, ghost next: Contents)
    requires i < |pages| && field in fields && field !in done
    requires Current(owner, now) && Reached(pages, before, owner, now, i, done, fields, d) && AreFirst(before, d.origin)
    modifies owner.Keys
    ensures Current(owner, next) && Reached(pages, before, owner, next, i, done + {field}, fields, r)
    ensures AreFirst(before, r.origin)
  {
    r, next := d, now;
    assert PageStarted(pages, before, i);
    if field !in pages[i].output {
      UselessKeeps(pages, before, owner, now, i, done, fields, field, d);
      return;
    }
    var candidate := pages[i].output[field];
    CandidateIsUntouched(pages, before, owner, now, i, done, fields, field, d);
    var value := Deref(candidate);
    if !IsUseful(value) {
      UselessKeeps(pages, before, owner, now, i, done, fields, field, d);
      return;
    }
    if field !in d.merged {
      r := Dicts(d.merged[field := candidate], d.sources[field := [pages[i].index]],
                 if candidate.PyRef? then d.origin[field := i] else d.origin - {field});
      AdoptField(pages, before, owner, now, i, done, fields, field, d, r);
      return;
    }
    var current := d.merged[field];
    if current.PyRef? && candidate.PyRef? {
      r, next := ExtendInPlace(pages, before, owner, now, i, done, fields, field, d);
      return;
    }
    assert FieldReached(before, now, i, done, d, field);
    var currentValue := Deref(current);
    if IsMoreComplete(value, currentValue) {
      var appended := AppendSourcePage(d.sources[field], pages[i].index);
      r := Dicts(d.merged[field := candidate], d.sources[field := appended], d.origin);
    }
    ReplaceKeeps(pages, before, owner, now, i, done, fields, field, d, r);
  }

  /** What extending the list object of a field means for its entry. */
  lemma ExtendReaches(before: seq<Page>, now: Contents, next: Contents, i: nat, done: set<string>, field: string,
                      d: Dicts, r: Dicts, candidate: seq<Item>)
    requires i < |before| && field in before[i].output && before[i].output[field] == List(candidate)
    requires candidate != [] && field !in done
    requires FieldReached(before, now, i, done, d, field) && field in d.merged && d.merged[field].PyRef?
    requires var items := now[d.merged[field].list];
             var additions := Additions(KeySet(items), candidate);
             && additions != []
             && r == Dicts(d.merged, d.sources[field := AppendPage(d.sources[field], before[i].index)], d.origin)
             && next == now[d.merged[field].list := items + additions]
    ensures FieldReached(before, next, i, done + {field}, r, field)
  {
    NextCandidate(before, i, field);
    ListStep(now[d.merged[field].list], d.sources[field], candidate, before[i].index);
  }

  /** A list without a new item leaves the field as it is. */
  lemma NothingNewKeeps(pages: seq<PyPage>, before: seq<Page>, owner: Owner, now: Contents, i: nat,
                        done: set<string>, fields: set<string>, field: string, d: Dicts, candidate: seq<Item>)
    requires i < |pages| && field in fields && field !in done
    requires Reached(pages, before, owner, now, i, done, fields, d)
    requires FieldReached(before, now, i, done, d, field) && field in d.merged && d.merged[field].PyRef?
    requires field in before[i].output && before[i].output[field] == List(candidate) && candidate != []
    requires Additions(KeySet(now[d.merged[field].list]), candidate) == []
    ensures Reached(pages, before, owner, now, i, done + {field}, fields, d)
  {
    NextCandidate(before, i, field);
    ListStep(now[d.merged[field].list], d.sources[field], candidate, before[i].index);
    UnchangedKeeps(pages, before, owner, now, i, done, fields, field, d);
  }

  method ExtendInPlace(pages: seq<PyPage>, ghost before: seq<Page>, ghost owner: Owner, ghost now: Contents, i: nat,
                       ghost done: set<string>, ghost fields: set<string>, field: string, d: Dicts)
    returns (r: Dicts, ghost next: Contents)
    requires i < |pages| && field in fields && field !in done
    requires Current(owner, now) && Reached(pages, before, owner, now, i, done, fields, d)
    requires field in d.merged && d.merged[field].PyRef?
    requires field in pages[i].output && pages[i].output[field].PyRef? && pages[i].output[field].list in owner
    requires field in before[i].output && before[i].index == pages[i].index
    requires before[i].output[field] == List(now[pages[i].output[field].list]) && IsUseful(before[i].output[field])
    modifies owner.Keys
    ensures Current(owner, next) && Reached(pages, before, owner, next, i, done + {field}, fields, r)
    ensures r.origin == d.origin
  {
    r, next := d, now;
    var current, candidate := d.merged[field].list, pages[i].output[field].list;
    assert FieldReached(before, now, i, done, d, field) && FieldWellFormed(pages, d, field);
    var additions := UniqueListItems(current.items, candidate.items);
    if additions == [] {
      NothingNewKeeps(pages, before, owner, now, i, done, fields, field, d, candidate.items);
      return;
    }
    ghost var items := candidate.items;
    var appended := AppendSourcePage(d.sources[field], pages[i].index);
    current.items := current.items + additions;
    r := Dicts(d.merged, d.sources[field := appended], d.origin);
    next := now[current := current.items];
    ExtendReaches(before, now, next, i, done, field, d, r, items);
    ExtendKeeps(pages, before, owner, now, i, done, fields, field, d, next, r);
  }

  method MergeOnePage(pages: seq<PyPage>, ghost before: seq<Page>, ghost owner: Owner, ghost now0: Contents, i: nat,
                      fields: seq<string>, d0: Dicts)
    returns (d: Dicts, ghost now: Contents)
    requires i < |pages| && forall k, l :: 0 <= k < l < |fields| ==> fields[k] != fields[l]
    requires Current(owner, now0) && Reached(pages, before, owner, now0, i, {}, Names(fields), d0)
             && AreFirst(before, d0.origin)
    modifies owner.Keys
    ensures Current(owner, now) && Reached(pages, before, owner, now, i + 1, {}, Names(fields), d)
    ensures AreFirst(before, d.origin)
  {
    ghost var all := Names(fields);
    ghost var done := {};
    d, now := d0, now0;
    for j := 0 to |fields|
      invariant done == (set k | 0 <= k < j :: fields[k])
      invariant Current(owner, now) && Reached(pages, before, owner, now, i, done, all, d) && AreFirst(before, d.origin)
    {
      d, now := MergeOneField(pages, before, owner, now, i, done, all, fields[j], d);
      done := done + {fields[j]};
    }
    assert done == all;
    NextPage(pages, before, owner, now, i, all, d);
  }

  method MergeAllPages(pages: seq<PyPage>, ghost before: seq<Page>, ghost owner: Owner, ghost now0: Contents,
                       fields: seq<string>, d0: Dicts)
    returns (d: Dicts, ghost now: Contents)
    requires forall k, l :: 0 <= k < l < |fields| ==> fields[k] != fields[l]
    requires Current(owner, now0) && Reached(pages, before, owner, now0, 0, {}, Names(fields), d0)
    requires AreFirst(before, d0.origin)
    modifies owner.Keys
    ensures Current(owner, now) && Reached(pages, before, owner, now, |pages|, {}, Names(fields), d)
    ensures AreFirst(before, d.origin)
  {
    ghost var all := Names(fields);
    d, now := d0, now0;
    for i := 0 to |pages|
      invariant Current(owner, now) && Reached(pages, before, owner, now, i, {}, all, d)
      invariant AreFirst(before, d.origin)
    {
      d, now := MergeOnePage(pages, before, owner, now, i, fields, d);
    }
  }

  // ---------- the whole merge ----------

  method MergeResults(pages: seq<PyPage>, fields: seq<string>) returns (d: Dicts)
    requires Unshared(pages)
    requires forall i, j :: 0 <= i < j < |fields| ==> fields[i] != fields[j]
    modifies Lists(pages)
    ensures WellFormed(pages, d)
    ensures (map f | f in d.merged :: PageMerge.Merged(Deref(d.merged[f]), d.sources[f]))
         == MergePages(old(View(pages)), Names(fields))
    ensures AreFirst(old(View(pages)), d.origin)
    ensures forall p: nat, g :: Holds(pages, p, g) && !IsFirstContributor(old(View(pages)), p, g) ==>
              Held(pages, p, g).items == old(Held(pages, p, g).items)
  {
    ghost var before := View(pages);
    ghost var owner := OwnerExists(pages);
    ghost var all := Names(fields);
    ghost var now: Contents := map l: PyList | l in owner :: l.items;
    d := Dicts(map[], map[], map[]);
    ghost var first: Contents := now;
    StartReached(pages, before, owner, now, all, d);
    d, now := MergeAllPages(pages, before, owner, now, fields, d);
    FinishReached(pages, before, owner, now, all, d);
    forall p: nat, g | Holds(pages, p, g) && !IsFirstContributor(before, p, g)
      ensures Held(pages, p, g).items == old(Held(pages, p, g).items)
    {
      assert IsFirst(before, d.origin, g) && !IsAdopted(d, p, g) && IsUntouched(pages, before, now, d, p, g);
      assert List(now[Held(pages, p, g)]) == before[p].output[g] == List(first[Held(pages, p, g)]);
    }
  }

  lemma StartReached(pages: seq<PyPage>, before: seq<Page>, owner: Owner, now: Contents, fields: set<string>, d: Dicts)
    requires Owned(pages, owner) && Current(owner, now) && before == View(pages) && d == Dicts(map[], map[], map[])
    ensures Reached(pages, before, owner, now, 0, {}, fields, d)
    ensures forall p: nat, g :: Holds(pages, p, g) ==> before[p].output[g] == List(now[Held(pages, p, g)])
  {
  }

  lemma NextPage(pages: seq<PyPage>, before: seq<Page>, owner: Owner, now: Contents, i: nat, fields: set<string>,
                 d: Dicts)
    requires i < |pages| && Reached(pages, before, owner, now, i, fields, fields, d)
    ensures Reached(pages, before, owner, now, i + 1, {}, fields, d)
  {
  }

  lemma FieldFinished(pages: seq<PyPage>, before: seq<Page>, owner: Owner, now: Contents, fields: set<string>,
                      d: Dicts, f: string)
    requires Current(owner, now) && Reached(pages, before, owner, now, |pages|, {}, fields, d) && f in fields
    ensures f in d.merged <==> MergeField(Candidates(before, f)).Merged?
    ensures f in d.merged ==>
              PageMerge.Merged(Deref(d.merged[f]), d.sources[f]) == MergeField(Candidates(before, f))
  {
    assert before[..|pages|] == before;
    assert FieldReached(before, now, |pages|, {}, d, f);
  }

  lemma FinishReached(pages: seq<PyPage>, before: seq<Page>, owner: Owner, now: Contents, fields: set<string>, d: Dicts)
    requires Current(owner, now) && Reached(pages, before, owner, now, |pages|, {}, fields, d)
    ensures (map f | f in d.merged :: PageMerge.Merged(Deref(d.merged[f]), d.sources[f])) == MergePages(before, fields)
  {
    forall f | f in fields
      ensures f in d.merged <==> f in MergePages(before, fields)
      ensures f in d.merged ==>
                PageMerge.Merged(Deref(d.merged[f]), d.sources[f]) == MergePages(before, fields)[f]
    {
      FieldFinished(pages, before, owner, now, fields, d, f);
    }
  }
}
