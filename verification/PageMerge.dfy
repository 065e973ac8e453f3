/** Merging the outputs of single pages into one record: per field, the longest string wins, lists
    become a union without repeated keys, and any other kind keeps its first value. */
module PageMerge {

  // ---------- values ----------

  /** A list item with its `repr`, which is the key it is compared by; `body` is whatever else it is. */
  datatype Item = Item(repr: string, body: int)

  /** `Other` is any value that is neither missing, a string nor a list; `empty` marks an empty
      dictionary, tuple or set. */
  datatype Value =
    | Missing
    | Text(s: string)
    | List(items: seq<Item>)
    | Other(body: int, empty: bool)

  datatype Kind = NoKind | TextKind | ListKind | OtherKind

  function KindOf(v: Value): Kind {
    match v
    case Missing => NoKind
    case Text(_) => TextKind
    case List(_) => ListKind
    case Other(_, _) => OtherKind
  }

  /** What `str.strip` removes. */
  predicate IsSpace(c: char) {
    var n := c as int;
    || 9 <= n <= 13 || 28 <= n <= 32 || n == 133 || n == 160 || n == 5760 || 8192 <= n <= 8202
    || n == 8232 || n == 8233 || n == 8239 || n == 8287 || n == 12288
  }

  function Strip(s: string): string {
    if s != [] && IsSpace(s[0]) then Strip(s[1..])
    else if s != [] && IsSpace(s[|s| - 1]) then Strip(s[..|s| - 1])
    else s
  }

  predicate AreSpaces(s: string) {
    forall k :: 0 <= k < |s| ==> IsSpace(s[k])
  }

  ghost predicate IsPadded(s: string, before: string, core: string, after: string) {
    s == before + core + after && AreSpaces(before) && AreSpaces(after)
  }

  lemma PaddedBefore(s: string, before: string, core: string, after: string)
    requires s != [] && IsSpace(s[0]) && IsPadded(s[1..], before, core, after)
    ensures IsPadded(s, [s[0]] + before, core, after)
  {
    assert s == [s[0]] + s[1..];
    assert [s[0]] + (before + core + after) == [s[0]] + before + core + after;
  }

  lemma PaddedAfter(s: string, before: string, core: string, after: string)
    requires s != [] && IsSpace(s[|s| - 1]) && IsPadded(s[..|s| - 1], before, core, after)
    ensures IsPadded(s, before, core, after + [s[|s| - 1]])
  {
    assert s == s[..|s| - 1] + [s[|s| - 1]];
    assert before + core + after + [s[|s| - 1]] == before + core + (after + [s[|s| - 1]]);
  }

  /** Stripping takes white space off both ends, and all of it: what is left begins and ends with other characters. */
  lemma {:induction false} StripMeans(s: string) returns (before: string, after: string)
    ensures IsPadded(s, before, Strip(s), after)
    ensures Strip(s) != "" ==> !IsSpace(Strip(s)[0]) && !IsSpace(Strip(s)[|Strip(s)| - 1])
  {
    if s != [] && IsSpace(s[0]) {
      before, after := StripMeans(s[1..]);
      PaddedBefore(s, before, Strip(s), after);
      before := [s[0]] + before;
    } else if s != [] && IsSpace(s[|s| - 1]) {
      before, after := StripMeans(s[..|s| - 1]);
      PaddedAfter(s, before, Strip(s), after);
      after := after + [s[|s| - 1]];
    } else {
      before, after := "", "";
    }
  }

  /** Nothing is left exactly of white space. */
  lemma StripsToNothing(s: string)
    ensures Strip(s) == "" <==> AreSpaces(s)
  {
    var before, after := StripMeans(s);
    if Strip(s) == "" {
      assert s == before + after;
    } else {
      assert s[|before|] == Strip(s)[0];
    }
  }

  /** The code points that count as white space, one by one. */
  const WHITE_SPACE := {9, 10, 11, 12, 13, 28, 29, 30, 31, 32, 133, 160, 5760, 8192, 8193, 8194, 8195, 8196, 8197, 8198,
                        8199, 8200, 8201, 8202, 8232, 8233, 8239, 8287, 12288}

  lemma SpacesAre(c: char)
    ensures IsSpace(c) <==> c as int in WHITE_SPACE
  {
  }

  /** The useless values: nothing, white space, and what is empty. */
  lemma UselessValuesAre(v: Value)
    ensures !IsUseful(v) <==>
            || v == Missing || (v.Text? && AreSpaces(v.s)) || v == List([]) || (v.Other? && v.empty)
  {
    if v.Text? { StripsToNothing(v.s); }
  }

  predicate IsUseful(v: Value) {
    match v
    case Missing => false
    case Text(s) => Strip(s) != ""
    case List(items) => items != []
    case Other(_, empty) => !empty
  }

  predicate IsMoreComplete(candidate: Value, current: Value) {
    if !IsUseful(current) then true
    else if candidate.Text? && current.Text? then |Strip(candidate.s)| > |Strip(current.s)|
    else false
  }

  function KeySet(items: seq<Item>): set<string> {
    set i | 0 <= i < |items| :: items[i].repr
  }

  lemma KeySetMeans(items: seq<Item>, key: string)
    ensures key in KeySet(items) <==> exists i :: 0 <= i < |items| && items[i].repr == key
  {
  }

  /** The items of `candidate` whose key is neither in `seen` nor earlier in `candidate`. */
  function Additions(seen: set<string>, candidate: seq<Item>): seq<Item>
    decreases candidate
  {
    if candidate == [] then []
    else if candidate[0].repr in seen then Additions(seen, candidate[1..])
    else [candidate[0]] + Additions(seen + {candidate[0].repr}, candidate[1..])
  }

  // ---------- merging one field ----------

  datatype Candidate = Candidate(value: Value, page: nat)

  datatype Entry = Absent | Merged(value: Value, pages: seq<nat>)

  function AppendPage(pages: seq<nat>, page: nat): seq<nat> {
    if page in pages then pages else pages + [page]
  }

  ghost predicate NoRepeats(pages: seq<nat>) {
    forall i, j :: 0 <= i < j < |pages| ==> pages[i] != pages[j]
  }

  /** Appending a page keeps the listed pages in place, lists that page, adds no other, and repeats none. */
  lemma AppendListsOnce(pages: seq<nat>, page: nat)
    ensures var r := AppendPage(pages, page);
            && pages <= r && (forall q :: q in r <==> q in pages || q == page)
            && (NoRepeats(pages) ==> NoRepeats(r)) && AppendPage(r, page) == r
  {
    var r := AppendPage(pages, page);
    assert page !in pages ==> r[|pages|] == page;
  }

  function Step(e: Entry, c: Candidate): Entry {
    if !IsUseful(c.value) then e
    else if e.Absent? then Merged(c.value, [c.page])
    else if e.value.List? && c.value.List? then
      var additions := Additions(KeySet(e.value.items), c.value.items);
      if additions == [] then e
      else Merged(List(e.value.items + additions), AppendPage(e.pages, c.page))
    else if IsMoreComplete(c.value, e.value) then Merged(c.value, AppendPage(e.pages, c.page))
    else e
  }

  function Run(e: Entry, cs: seq<Candidate>): Entry {
    if cs == [] then e else Step(Run(e, cs[..|cs| - 1]), cs[|cs| - 1])
  }

  function MergeField(cs: seq<Candidate>): Entry {
    Run(Absent, cs)
  }

  /** No field lists a page twice, whatever pages its candidates have. */
  lemma {:induction false} PagesDoNotRepeat(cs: seq<Candidate>)
    ensures MergeField(cs).Merged? ==> NoRepeats(MergeField(cs).pages)
  {
    if cs != [] {
      var front, last := cs[..|cs| - 1], cs[|cs| - 1];
      PagesDoNotRepeat(front);
      if MergeField(front).Merged? { AppendListsOnce(MergeField(front).pages, last.page); }
    }
  }

  lemma RunOne(e: Entry, cs: seq<Candidate>, c: Candidate)
    ensures Run(e, cs + [c]) == Step(Run(e, cs), c)
  {
    assert (cs + [c])[..|cs + [c]| - 1] == cs;
  }

  lemma {:induction false} RunConcat(e: Entry, xs: seq<Candidate>, ys: seq<Candidate>)
    ensures Run(e, xs + ys) == Run(Run(e, xs), ys)
  {
    if ys == [] {
      assert xs + ys == xs;
    } else {
      assert (xs + ys)[..|xs + ys| - 1] == xs + ys[..|ys| - 1];
      RunConcat(e, xs, ys[..|ys| - 1]);
    }
  }

  // ---------- additions ----------

  lemma KeySetConcat(a: seq<Item>, b: seq<Item>)
    ensures KeySet(a + b) == KeySet(a) + KeySet(b)
  {
    forall k | k in KeySet(a) + KeySet(b) ensures k in KeySet(a + b) {
      if k in KeySet(a) {
        var i :| 0 <= i < |a| && a[i].repr == k;
        assert (a + b)[i].repr == k;
      } else {
        var i :| 0 <= i < |b| && b[i].repr == k;
        assert (a + b)[|a| + i].repr == k;
      }
    }
  }

  lemma KeySetHead(a: seq<Item>)
    requires a != []
    ensures KeySet(a) == {a[0].repr} + KeySet(a[1..])
  {
    assert a == [a[0]] + a[1..];
    KeySetConcat([a[0]], a[1..]);
  }

  lemma {:induction false} AdditionsKeys(seen: set<string>, a: seq<Item>)
    ensures KeySet(Additions(seen, a)) == KeySet(a) - seen
    ensures Additions(seen, a) == [] <==> KeySet(a) <= seen
    decreases a
  {
    if a != [] {
      KeySetHead(a);
      if a[0].repr in seen {
        AdditionsKeys(seen, a[1..]);
      } else {
        AdditionsKeys(seen + {a[0].repr}, a[1..]);
        KeySetHead(Additions(seen, a));
        assert Additions(seen, a)[1..] == Additions(seen + {a[0].repr}, a[1..]);
      }
    }
  }

  lemma {:induction false} AdditionsConcat(seen: set<string>, a: seq<Item>, b: seq<Item>)
    ensures Additions(seen, a + b) == Additions(seen, a) + Additions(seen + KeySet(a), b)
    decreases a
  {
    if a == [] {
      assert a + b == b && seen + KeySet(a) == seen;
    } else {
      assert (a + b)[1..] == a[1..] + b;
      KeySetHead(a);
      if a[0].repr in seen {
        AdditionsConcat(seen, a[1..], b);
        assert seen + KeySet(a) == seen + KeySet(a[1..]);
      } else {
        AdditionsConcat(seen + {a[0].repr}, a[1..], b);
        assert seen + KeySet(a) == seen + {a[0].repr} + KeySet(a[1..]);
      }
    }
  }

  /** Filtering by a smaller set first changes nothing. */
  lemma {:induction false} AdditionsOfAdditions(seen: set<string>, more: set<string>, a: seq<Item>)
    requires seen <= more
    ensures Additions(more, Additions(seen, a)) == Additions(more, a)
    decreases a
  {
    if a != [] {
      if a[0].repr in seen {
        AdditionsOfAdditions(seen, more, a[1..]);
      } else {
        var rest := Additions(seen + {a[0].repr}, a[1..]);
        assert Additions(seen, a)[1..] == rest;
        if a[0].repr in more {
          AdditionsOfAdditions(seen + {a[0].repr}, more, a[1..]);
        } else {
          AdditionsOfAdditions(seen + {a[0].repr}, more + {a[0].repr}, a[1..]);
        }
      }
    }
  }

  // ---------- kinds are kept, and foreign kinds are ignored ----------

  /** The useful candidates of one kind. */
  function OfKind(cs: seq<Candidate>, kind: Kind): seq<Candidate> {
    if cs == [] then []
    else
      var last := cs[|cs| - 1];
      var front := OfKind(cs[..|cs| - 1], kind);
      if IsUseful(last.value) && KindOf(last.value) == kind then front + [last] else front
  }

  ghost predicate IsSettled(e: Entry) {
    e.Merged? && IsUseful(e.value)
  }

  lemma StepKeepsKind(e: Entry, c: Candidate)
    requires IsSettled(e)
    ensures IsSettled(Step(e, c)) && KindOf(Step(e, c).value) == KindOf(e.value)
    ensures !IsUseful(c.value) || KindOf(c.value) != KindOf(e.value) ==> Step(e, c) == e
  {
  }

  /** Once a field has a value, the value stays useful, keeps its kind, and candidates of other kinds
      leave no trace, neither in the value nor in the pages. */
  lemma {:induction false} RunKeepsKind(e: Entry, cs: seq<Candidate>)
    requires IsSettled(e)
    ensures var r := Run(e, cs);
            IsSettled(r) && KindOf(r.value) == KindOf(e.value) && r == Run(e, OfKind(cs, KindOf(e.value)))
  {
    if cs != [] {
      var front, last := cs[..|cs| - 1], cs[|cs| - 1];
      RunKeepsKind(e, front);
      StepKeepsKind(Run(e, front), last);
      RunOne(e, OfKind(front, KindOf(e.value)), last);
    }
  }

  ghost predicate IsFirstUseful(cs: seq<Candidate>, i: nat) {
    i < |cs| && IsUseful(cs[i].value) && forall j :: 0 <= j < i ==> !IsUseful(cs[j].value)
  }

  lemma {:induction false} UselessRunIsAbsent(cs: seq<Candidate>)
    requires forall j :: 0 <= j < |cs| ==> !IsUseful(cs[j].value)
    ensures MergeField(cs) == Absent
  {
    if cs != [] { UselessRunIsAbsent(cs[..|cs| - 1]); }
  }

  /** A field gets a value exactly when some candidate is useful; the value is then useful and of the
      kind of the first useful candidate, for every mix of kinds. */
  lemma FirstUsefulDecidesKind(cs: seq<Candidate>)
    ensures MergeField(cs).Merged? <==> exists i: nat :: IsFirstUseful(cs, i)
    ensures forall i: nat :: IsFirstUseful(cs, i) ==>
              IsSettled(MergeField(cs)) && KindOf(MergeField(cs).value) == KindOf(cs[i].value)
  {
    forall i: nat | IsFirstUseful(cs, i)
      ensures IsSettled(MergeField(cs)) && KindOf(MergeField(cs).value) == KindOf(cs[i].value)
    {
      UselessRunIsAbsent(cs[..i]);
      assert cs == cs[..i] + [cs[i]] + cs[i + 1..];
      RunConcat(Absent, cs[..i] + [cs[i]], cs[i + 1..]);
      RunOne(Absent, cs[..i], cs[i]);
      RunKeepsKind(Step(Absent, cs[i]), cs[i + 1..]);
    }
    if exists i :: 0 <= i < |cs| && IsUseful(cs[i].value) {
      var i := FindFirstUseful(cs);
    } else {
      UselessRunIsAbsent(cs);
    }
  }

  lemma {:induction false} FindFirstUseful(cs: seq<Candidate>) returns (i: nat)
    requires exists j :: 0 <= j < |cs| && IsUseful(cs[j].value)
    ensures IsFirstUseful(cs, i)
  {
    var front := cs[..|cs| - 1];
    if exists j :: 0 <= j < |front| && IsUseful(front[j].value) {
      i := FindFirstUseful(front);
    } else {
      i := |cs| - 1;
      assert forall j :: 0 <= j < i ==> cs[j] == front[j];
    }
  }

  // ---------- associativity ----------

  /** Merging two already merged values with the rule for fields. */
  ghost function Combine(a: Entry, b: Entry): Entry {
    if b.Absent? then a else Step(a, Candidate(b.value, 0))
  }

  ghost predicate SameValue(a: Entry, b: Entry) {
    if a.Absent? || b.Absent? then a.Absent? && b.Absent? else a.value == b.value
  }

  /** Adding `b` and then `z` is adding the list that `b` and `z` merge to. */
  lemma AdditionsCompose(a: seq<Item>, b: seq<Item>, z: seq<Item>)
    ensures var ab := a + Additions(KeySet(a), b);
            var bz := b + Additions(KeySet(b), z);
            a + Additions(KeySet(a), bz) == ab + Additions(KeySet(ab), z)
  {
    KeysOfMerged(a, b);
    var added, extra := Additions(KeySet(a), b), Additions(KeySet(b), z);
    AdditionsConcat(KeySet(a), b, extra);
    AdditionsOfAdditions(KeySet(b), KeySet(a) + KeySet(b), z);
    var all := Additions(KeySet(a) + KeySet(b), z);
    assert a + (added + all) == (a + added) + all;
  }

  lemma KeysOfMerged(a: seq<Item>, b: seq<Item>)
    ensures KeySet(a + Additions(KeySet(a), b)) == KeySet(a) + KeySet(b)
  {
    AdditionsKeys(KeySet(a), b);
    KeySetConcat(a, Additions(KeySet(a), b));
  }

  /** From a list, a run over lists appends exactly what the separately merged lists add. */
  lemma {:induction false} ListRun(e: Entry, cs: seq<Candidate>)
    requires IsSettled(e) && e.value.List?
    requires forall i :: 0 <= i < |cs| ==> IsUseful(cs[i].value) && cs[i].value.List?
    ensures SameValue(Run(e, cs), Combine(e, MergeField(cs)))
    ensures cs != [] ==> IsSettled(MergeField(cs)) && MergeField(cs).value.List?
  {
    if cs != [] {
      var front, last := cs[..|cs| - 1], cs[|cs| - 1];
      ListRun(e, front);
      if front != [] {
        var m := MergeField(front);
        StepKeepsKind(m, last);
        ListStepIsAppend(e, Candidate(m.value, 0));
        RunKeepsKind(e, front);
        ListStepIsAppend(Run(e, front), last);
        ListStepIsAppend(m, last);
        AdditionsCompose(e.value.items, m.value.items, last.value.items);
        ListStepIsAppend(e, Candidate(Step(m, last).value, 0));
      }
    }
  }

  lemma ListStepIsAppend(e: Entry, c: Candidate)
    requires e.Merged? && e.value.List? && c.value.List? && IsUseful(c.value)
    ensures Step(e, c).Merged?
            && Step(e, c).value == List(e.value.items + Additions(KeySet(e.value.items), c.value.items))
  {
    if Additions(KeySet(e.value.items), c.value.items) == [] {
      assert e.value.items + [] == e.value.items;
    }
  }

  lemma {:induction false} TextRun(e: Entry, cs: seq<Candidate>)
    requires IsSettled(e) && e.value.Text?
    requires forall i :: 0 <= i < |cs| ==> IsUseful(cs[i].value) && cs[i].value.Text?
    ensures SameValue(Run(e, cs), Combine(e, MergeField(cs)))
    ensures cs != [] ==> IsSettled(MergeField(cs)) && MergeField(cs).value.Text?
  {
    if cs != [] { TextRun(e, cs[..|cs| - 1]); }
  }

  lemma {:induction false} OtherRun(e: Entry, cs: seq<Candidate>)
    requires IsSettled(e) && e.value.Other?
    requires forall i :: 0 <= i < |cs| ==> IsUseful(cs[i].value) && cs[i].value.Other?
    ensures SameValue(Run(e, cs), Combine(e, MergeField(cs)))
    ensures cs != [] ==> IsSettled(MergeField(cs)) && MergeField(cs).value.Other?
  {
    if cs != [] { OtherRun(e, cs[..|cs| - 1]); }
  }

  lemma {:induction false} OfKindIsOfKind(cs: seq<Candidate>, kind: Kind)
    ensures forall i :: 0 <= i < |OfKind(cs, kind)| ==>
              IsUseful(OfKind(cs, kind)[i].value) && KindOf(OfKind(cs, kind)[i].value) == kind
  {
    if cs != [] { OfKindIsOfKind(cs[..|cs| - 1], kind); }
  }

  /** Restricting to the kind of the first useful candidate does not change a merge. */
  lemma {:induction false} LeadingKindIsAllThatCounts(cs: seq<Candidate>)
    requires MergeField(cs).Merged?
    ensures MergeField(cs) == MergeField(OfKind(cs, KindOf(MergeField(cs).value)))
  {
    var front, last := cs[..|cs| - 1], cs[|cs| - 1];
    if MergeField(front).Merged? {
      RunCovers(front);
      StepKeepsKind(MergeField(front), last);
      LeadingKindIsAllThatCounts(front);
      RunOne(Absent, OfKind(front, KindOf(MergeField(cs).value)), last);
    } else {
      FirstUsefulDecidesKind(front);
      NothingOfAnyKind(front, KindOf(last.value));
      RunOne(Absent, [], last);
    }
  }

  lemma {:induction false} NothingOfAnyKind(cs: seq<Candidate>, kind: Kind)
    requires forall i: nat :: !IsFirstUseful(cs, i)
    ensures OfKind(cs, kind) == []
  {
    if cs != [] {
      var front := cs[..|cs| - 1];
      if IsUseful(cs[|cs| - 1].value) {
        var i := FindFirstUseful(cs);
        assert false;
      }
      forall i: nat ensures !IsFirstUseful(front, i) {
        if IsFirstUseful(front, i) { assert IsFirstUseful(cs, i); }
      }
      NothingOfAnyKind(front, kind);
    }
  }

  /** Cut the pages anywhere: merging the second part on its own, restricted to the kind the first part
      settled on, and combining the two results gives the one-pass merge. For every mix of kinds. */
  lemma CutAndCombine(xs: seq<Candidate>, ys: seq<Candidate>)
    requires MergeField(xs).Merged?
    ensures SameValue(MergeField(xs + ys),
                      Combine(MergeField(xs), MergeField(OfKind(ys, KindOf(MergeField(xs).value)))))
  {
    var e := MergeField(xs);
    FirstUsefulDecidesKind(xs);
    RunConcat(Absent, xs, ys);
    RunKeepsKind(e, ys);
    var kept := OfKind(ys, KindOf(e.value));
    OfKindIsOfKind(ys, KindOf(e.value));
    match e.value
    case Text(_) => TextRun(e, kept);
    case List(_) => ListRun(e, kept);
    case Other(_, _) => OtherRun(e, kept);
  }

  /** A candidate that by itself would change the value. */
  ghost predicate Improves(v: Value, c: Candidate) {
    Step(Merged(v, []), c).value != v
  }

  /** Merging halves separately agrees with one pass exactly when the two halves settle on the same
      kind, or one of them settles on nothing, or no candidate of the second improves the first. */
  lemma AssociativeExactlyWhen(xs: seq<Candidate>, ys: seq<Candidate>)
    ensures var (a, b) := (MergeField(xs), MergeField(ys));
            SameValue(MergeField(xs + ys), Combine(a, b)) <==>
              || a.Absent? || b.Absent? || KindOf(a.value) == KindOf(b.value)
              || forall i :: 0 <= i < |ys| ==> !Improves(a.value, ys[i])
  {
    var a, b := MergeField(xs), MergeField(ys);
    RunConcat(Absent, xs, ys);
    FirstUsefulDecidesKind(xs);
    FirstUsefulDecidesKind(ys);
    if a.Absent? {
    } else if b.Absent? {
      NothingOfAnyKind(ys, KindOf(a.value));
      CutAndCombine(xs, ys);
    } else if KindOf(a.value) == KindOf(b.value) {
      LeadingKindIsAllThatCounts(ys);
      CutAndCombine(xs, ys);
    } else {
      UnchangedExactlyWhen(a, ys);
    }
  }

  /** How far a value has grown: every change increases it. */
  ghost function Weight(v: Value): nat {
    match v
    case Text(s) => |Strip(s)|
    case List(items) => |items|
    case _ => 0
  }

  lemma {:induction false} RunGrows(e: Entry, cs: seq<Candidate>)
    requires IsSettled(e)
    ensures Run(e, cs).Merged?
    ensures Run(e, cs).value == e.value || Weight(Run(e, cs).value) > Weight(e.value)
  {
    if cs != [] {
      RunGrows(e, cs[..|cs| - 1]);
      RunKeepsKind(e, cs[..|cs| - 1]);
    }
  }

  lemma {:induction false} UnchangedExactlyWhen(e: Entry, cs: seq<Candidate>)
    requires IsSettled(e)
    ensures Run(e, cs).Merged?
    ensures Run(e, cs).value == e.value <==> forall i :: 0 <= i < |cs| ==> !Improves(e.value, cs[i])
  {
    if cs != [] {
      var front, last := cs[..|cs| - 1], cs[|cs| - 1];
      UnchangedExactlyWhen(e, front);
      RunKeepsKind(e, front);
      RunGrows(e, front);
      RunGrows(Run(e, front), [last]);
      RunOne(Run(e, front), [], last);
      assert [] + [last] == [last];
      if Run(e, front).value == e.value {
        assert forall i :: 0 <= i < |cs| ==> cs[i] == if i < |front| then front[i] else last;
      } else {
        var i :| 0 <= i < |front| && Improves(e.value, front[i]);
        assert cs[i] == front[i];
      }
    }
  }

  /** For candidates all of one kind every cut will do. */
  lemma MergeIsAssociative(xs: seq<Candidate>, ys: seq<Candidate>, kind: Kind)
    requires forall c :: c in xs + ys && IsUseful(c.value) ==> KindOf(c.value) == kind
    ensures SameValue(MergeField(xs + ys), Combine(MergeField(xs), MergeField(ys)))
  {
    FirstUsefulDecidesKind(xs);
    FirstUsefulDecidesKind(ys);
    AssociativeExactlyWhen(xs, ys);
  }

  lemma OneCandidate(x: Candidate)
    requires IsUseful(x.value)
    ensures MergeField([x]) == Step(Absent, x)
  {
    RunOne(Absent, [], x);
    assert [] + [x] == [x];
  }

  lemma TwoCandidates(x: Candidate, y: Candidate)
    ensures MergeField([x, y]) == Step(MergeField([x]), y)
  {
    RunOne(Absent, [x], y);
    assert [x] + [y] == [x, y];
  }

  lemma ListThenText(y: Candidate, z: Candidate)
    requires y == Candidate(List([Item("x", 0)]), 1) && z == Candidate(Text("bb"), 2)
    ensures MergeField([y, z]) == Merged(List([Item("x", 0)]), [1])
  {
    OneCandidate(y);
    TwoCandidates(y, z);
  }

  /** Mixed kinds can break it: a short string, then a list followed by a longer string. */
  lemma MixedKindsAreNotAssociative()
    ensures var xs := [Candidate(Text("a"), 0)];
            var ys := [Candidate(List([Item("x", 0)]), 1), Candidate(Text("bb"), 2)];
            !SameValue(MergeField(xs + ys), Combine(MergeField(xs), MergeField(ys)))
  {
    var x := Candidate(Text("a"), 0);
    var y, z := Candidate(List([Item("x", 0)]), 1), Candidate(Text("bb"), 2);
    assert Strip("a") == "a" && Strip("bb") == "bb";
    OneCandidate(x);
    ListThenText(y, z);
    assert Improves(Text("a"), z);
    assert [y, z][1] == z;
    AssociativeExactlyWhen([x], [y, z]);
  }

  // ---------- other kinds: what the merge means ----------

  /** A value that is neither a string nor a list is never replaced, whatever follows. */
  lemma {:induction false} OtherMergeMeans(cs: seq<Candidate>, first: nat)
    requires IsFirstUseful(cs, first) && cs[first].value.Other?
    ensures MergeField(cs) == Merged(cs[first].value, [cs[first].page])
  {
    var front, last := cs[..|cs| - 1], cs[|cs| - 1];
    if first == |front| {
      UselessRunIsAbsent(front);
    } else {
      assert front[first] == cs[first];
      OtherMergeMeans(front, first);
      StepKeepsKind(MergeField(front), last);
    }
  }

  lemma {:induction false} UselessAreOfNoKind(cs: seq<Candidate>, kind: Kind)
    requires forall j :: 0 <= j < |cs| ==> !IsUseful(cs[j].value)
    ensures OfKind(cs, kind) == []
  {
    if cs != [] { UselessAreOfNoKind(cs[..|cs| - 1], kind); }
  }

  /** Candidates of mixed kinds merge like those of the first useful one's kind alone. */
  lemma {:induction false} MergeIgnoresOtherKinds(cs: seq<Candidate>, first: nat)
    requires IsFirstUseful(cs, first)
    ensures IsSettled(MergeField(cs)) && KindOf(MergeField(cs).value) == KindOf(cs[first].value)
    ensures MergeField(cs) == MergeField(OfKind(cs, KindOf(cs[first].value)))
  {
    var front, last, kind := cs[..|cs| - 1], cs[|cs| - 1], KindOf(cs[first].value);
    if first == |front| {
      UselessRunIsAbsent(front);
      UselessAreOfNoKind(front, kind);
      OneCandidate(last);
      assert OfKind(cs, kind) == [] + [last] == [last];
    } else {
      assert front[first] == cs[first];
      MergeIgnoresOtherKinds(front, first);
      StepKeepsKind(MergeField(front), last);
      RunOne(Absent, OfKind(front, kind), last);
    }
  }

  // ---------- absorption ----------

  /** The entry already contains all that the candidate could bring. */
  ghost predicate Covers(e: Entry, c: Candidate) {
    || !IsUseful(c.value)
    || (&& IsSettled(e)
        && (e.value.Text? && c.value.Text? ==> |Strip(c.value.s)| <= |Strip(e.value.s)|)
        && (e.value.List? && c.value.List? ==> KeySet(c.value.items) <= KeySet(e.value.items)))
  }

  lemma StepCovers(e: Entry, c: Candidate, other: Candidate)
    requires e.Merged? ==> IsSettled(e)
    ensures Covers(Step(e, c), c)
    ensures Covers(e, other) ==> Covers(Step(e, c), other)
    ensures Covers(e, c) ==> Step(e, c) == e
    ensures Step(e, c).Merged? ==> IsSettled(Step(e, c))
  {
    if e.Merged? && e.value.List? && c.value.List? && IsUseful(c.value) {
      var a := e.value.items;
      AdditionsKeys(KeySet(a), c.value.items);
      KeySetConcat(a, Additions(KeySet(a), c.value.items));
    }
  }

  lemma {:induction false} RunCovers(cs: seq<Candidate>)
    ensures forall c :: c in cs ==> Covers(MergeField(cs), c)
    ensures MergeField(cs).Merged? ==> IsSettled(MergeField(cs))
  {
    if cs != [] {
      var front, last := cs[..|cs| - 1], cs[|cs| - 1];
      RunCovers(front);
      StepCovers(MergeField(front), last, last);
      forall c | c in cs ensures Covers(MergeField(cs), c) {
        if c != last { assert c in front; StepCovers(MergeField(front), last, c); }
      }
    }
  }

  lemma {:induction false} CoveredRunIsNothing(e: Entry, zs: seq<Candidate>)
    requires (e.Merged? ==> IsSettled(e)) && forall z :: z in zs ==> Covers(e, z)
    ensures Run(e, zs) == e
  {
    if zs != [] {
      CoveredRunIsNothing(e, zs[..|zs| - 1]);
      StepCovers(e, zs[|zs| - 1], zs[|zs| - 1]);
    }
  }

  /** Appending any selection of candidates merged before changes neither value nor pages, whatever the
      kinds. */
  lemma MergeAbsorbs(cs: seq<Candidate>, again: seq<Candidate>)
    requires forall z :: z in again ==> z in cs
    ensures MergeField(cs + again) == MergeField(cs)
  {
    RunCovers(cs);
    CoveredRunIsNothing(MergeField(cs), again);
    RunConcat(Absent, cs, again);
  }

  // ---------- strings: what the merge means ----------

  ghost predicate IsAscending(cs: seq<Candidate>) {
    forall i, j :: 0 <= i < j < |cs| ==> cs[i].page < cs[j].page
  }

  ghost predicate IsUsefulText(c: Candidate) {
    c.value.Text? && IsUseful(c.value)
  }

  /** Longer, once stripped, than every string before it. */
  ghost predicate IsRecord(cs: seq<Candidate>, i: nat) {
    && i < |cs| && IsUsefulText(cs[i])
    && forall j :: 0 <= j < i && IsUsefulText(cs[j]) ==> |Strip(cs[j].value.s)| < |Strip(cs[i].value.s)|
  }

  ghost function RecordPages(cs: seq<Candidate>): seq<nat> {
    if cs == [] then []
    else
      var front := RecordPages(cs[..|cs| - 1]);
      if IsRecord(cs, |cs| - 1) then front + [cs[|cs| - 1].page] else front
  }

  /** The earliest of the longest strings. */
  ghost predicate IsEarliestLongest(cs: seq<Candidate>, m: nat) {
    && IsRecord(cs, m)
    && forall i :: 0 <= i < |cs| && IsUsefulText(cs[i]) ==> |Strip(cs[i].value.s)| <= |Strip(cs[m].value.s)|
  }

  lemma {:induction false} PagesComeFromCandidates(cs: seq<Candidate>)
    ensures MergeField(cs).Merged? ==>
              forall p :: p in MergeField(cs).pages ==> exists i :: 0 <= i < |cs| && cs[i].page == p
  {
    if cs != [] {
      var front, last := cs[..|cs| - 1], cs[|cs| - 1];
      PagesComeFromCandidates(front);
      if MergeField(cs).Merged? {
        forall p | p in MergeField(cs).pages ensures exists i :: 0 <= i < |cs| && cs[i].page == p {
          if p == last.page {
            assert cs[|cs| - 1].page == p;
          } else {
            assert p in MergeField(front).pages;
            var i :| 0 <= i < |front| && front[i].page == p;
            assert cs[i].page == p;
          }
        }
      }
    }
  }

  lemma NewPageIsAppended(cs: seq<Candidate>)
    requires cs != [] && IsAscending(cs) && MergeField(cs[..|cs| - 1]).Merged?
    ensures var pages := MergeField(cs[..|cs| - 1]).pages;
            AppendPage(pages, cs[|cs| - 1].page) == pages + [cs[|cs| - 1].page]
  {
    PagesComeFromCandidates(cs[..|cs| - 1]);
  }

  /** `m` supplied the value of a merged string field. */
  ghost predicate IsTextSource(cs: seq<Candidate>, m: nat) {
    var e := MergeField(cs);
    && IsEarliestLongest(cs, m)
    && e.Merged? && e.value == cs[m].value
    && e.pages == RecordPages(cs) && |e.pages| > 0 && e.pages[|e.pages| - 1] == cs[m].page
  }

  lemma TextSourceOfFront(cs: seq<Candidate>, m: nat) returns (m': nat)
    requires cs != [] && IsAscending(cs) && IsTextSource(cs[..|cs| - 1], m)
    requires IsUseful(cs[|cs| - 1].value) ==> cs[|cs| - 1].value.Text?
    ensures IsTextSource(cs, m')
  {
    var front, last := cs[..|cs| - 1], cs[|cs| - 1];
    NewPageIsAppended(cs);
    assert forall j :: 0 <= j < |front| ==> cs[j] == front[j];
    assert IsRecord(cs, m) && IsUsefulText(front[m]);
    if IsUsefulText(last) && |Strip(last.value.s)| > |Strip(front[m].value.s)| {
      m' := |front|;
      assert IsRecord(cs, m');
    } else {
      m' := m;
      assert !IsRecord(cs, |front|);
    }
  }

  /** A string field ends up with the earliest of its longest candidates; its pages are those of the strict
      left-to-right maxima, and the last of them supplied the value. */
  lemma {:induction false} TextMergeMeans(cs: seq<Candidate>)
    requires IsAscending(cs) && forall i :: 0 <= i < |cs| && IsUseful(cs[i].value) ==> cs[i].value.Text?
    ensures if forall i :: 0 <= i < |cs| ==> !IsUsefulText(cs[i]) then MergeField(cs).Absent?
            else exists m: nat :: IsTextSource(cs, m)
  {
    if forall i :: 0 <= i < |cs| ==> !IsUseful(cs[i].value) {
      UselessRunIsAbsent(cs);
    } else {
      var m := FindTextSource(cs);
      assert IsUsefulText(cs[m]);
    }
  }

  lemma FirstTextSource(cs: seq<Candidate>)
    requires cs != [] && IsFirstUseful(cs, |cs| - 1) && cs[|cs| - 1].value.Text?
    ensures IsTextSource(cs, |cs| - 1)
  {
    var front := cs[..|cs| - 1];
    UselessRunIsAbsent(front);
    UselessRecordsAreNone(front);
    assert forall j :: 0 <= j < |front| ==> cs[j] == front[j];
    assert IsRecord(cs, |front|);
  }

  lemma {:induction false} FindTextSource(cs: seq<Candidate>) returns (m: nat)
    requires IsAscending(cs) && forall i :: 0 <= i < |cs| && IsUseful(cs[i].value) ==> cs[i].value.Text?
    requires exists i :: 0 <= i < |cs| && IsUseful(cs[i].value)
    ensures IsTextSource(cs, m)
  {
    var front := cs[..|cs| - 1];
    if exists i :: 0 <= i < |front| && IsUseful(front[i].value) {
      m := FindTextSource(front);
      m := TextSourceOfFront(cs, m);
    } else {
      m := |front|;
      assert forall j :: 0 <= j < |front| ==> cs[j] == front[j];
      FirstTextSource(cs);
    }
  }

  lemma {:induction false} UselessRecordsAreNone(cs: seq<Candidate>)
    requires forall i :: 0 <= i < |cs| ==> !IsUseful(cs[i].value)
    ensures RecordPages(cs) == []
  {
    if cs != [] { UselessRecordsAreNone(cs[..|cs| - 1]); }
  }

  /** The page of a record. */
  ghost predicate IsRecordPage(cs: seq<Candidate>, p: nat) {
    exists i: nat :: IsRecord(cs, i) && cs[i].page == p
  }

  lemma EarlierRecords(cs: seq<Candidate>, i: nat)
    requires i < |cs| - 1
    ensures IsRecord(cs, i) <==> IsRecord(cs[..|cs| - 1], i)
  {
    var front := cs[..|cs| - 1];
    assert forall j :: 0 <= j <= i ==> front[j] == cs[j];
  }

  lemma RecordPageOfMore(cs: seq<Candidate>, p: nat)
    requires cs != []
    ensures IsRecordPage(cs, p) <==>
            IsRecordPage(cs[..|cs| - 1], p) || (IsRecord(cs, |cs| - 1) && cs[|cs| - 1].page == p)
  {
    var front := cs[..|cs| - 1];
    if IsRecordPage(cs, p) {
      var i: nat :| IsRecord(cs, i) && cs[i].page == p;
      if i < |front| {
        EarlierRecords(cs, i);
        assert IsRecord(front, i) && front[i].page == p;
      }
    }
    if IsRecordPage(front, p) {
      var i: nat :| IsRecord(front, i) && front[i].page == p;
      EarlierRecords(cs, i);
      assert IsRecord(cs, i) && cs[i].page == p;
    }
  }

  lemma {:induction false} RecordPagesMean(cs: seq<Candidate>, p: nat)
    ensures p in RecordPages(cs) <==> IsRecordPage(cs, p)
  {
    if cs != [] {
      RecordPagesMean(cs[..|cs| - 1], p);
      RecordPageOfMore(cs, p);
    }
  }

  lemma {:induction false} RecordPagesAscend(cs: seq<Candidate>)
    requires IsAscending(cs)
    ensures forall i, j :: 0 <= i < j < |RecordPages(cs)| ==> RecordPages(cs)[i] < RecordPages(cs)[j]
    ensures forall p :: p in RecordPages(cs) <==> IsRecordPage(cs, p)
  {
    forall p ensures p in RecordPages(cs) <==> IsRecordPage(cs, p) { RecordPagesMean(cs, p); }
    if cs != [] {
      var front, last := cs[..|cs| - 1], cs[|cs| - 1];
      RecordPagesAscend(front);
      forall i | 0 <= i < |RecordPages(front)| ensures RecordPages(front)[i] < last.page {
        var p := RecordPages(front)[i];
        assert p in RecordPages(front) && IsRecordPage(front, p);
        var k: nat :| IsRecord(front, k) && front[k].page == p;
        assert cs[k] == front[k];
      }
    }
  }

  // ---------- lists: what the merge means ----------

  /** All list items of all pages, in page order. */
  ghost function Flatten(cs: seq<Candidate>): seq<Item> {
    if cs == [] then []
    else Flatten(cs[..|cs| - 1]) + if cs[|cs| - 1].value.List? then cs[|cs| - 1].value.items else []
  }

  /** The first `verbatim` items as they are, then every item whose key occurs nowhere before it. */
  ghost function FirstSeen(all: seq<Item>, verbatim: nat): seq<Item> {
    if |all| <= verbatim then all
    else
      var front := all[..|all| - 1];
      if all[|all| - 1].repr in KeySet(front) then FirstSeen(front, verbatim)
      else FirstSeen(front, verbatim) + [all[|all| - 1]]
  }

  /** The pages that bring a key no earlier page has. */
  ghost function ContributorPages(cs: seq<Candidate>): seq<nat> {
    if cs == [] then []
    else
      var front, last := cs[..|cs| - 1], cs[|cs| - 1];
      if last.value.List? && !(KeySet(last.value.items) <= KeySet(Flatten(front)))
      then ContributorPages(front) + [last.page]
      else ContributorPages(front)
  }

  lemma {:induction false} FirstSeenOfMore(all: seq<Item>, more: seq<Item>, verbatim: nat)
    requires verbatim <= |all|
    ensures FirstSeen(all + more, verbatim) == FirstSeen(all, verbatim) + Additions(KeySet(all), more)
    decreases more
  {
    if more == [] {
      assert all + more == all;
    } else {
      var one := all + [more[0]];
      assert one + more[1..] == all + more;
      assert one[..|one| - 1] == all;
      KeySetConcat(all, [more[0]]);
      FirstSeenOfMore(one, more[1..], verbatim);
      if more[0].repr in KeySet(all) {
        assert KeySet(one) == KeySet(all);
      } else {
        assert KeySet(one) == KeySet(all) + {more[0].repr};
      }
    }
  }

  lemma {:induction false} UselessListsFlattenToNothing(cs: seq<Candidate>)
    requires forall i :: 0 <= i < |cs| ==> !IsUseful(cs[i].value)
    ensures Flatten(cs) == [] && ContributorPages(cs) == []
  {
    if cs != [] { UselessListsFlattenToNothing(cs[..|cs| - 1]); }
  }

  /** The first `verbatim` items as they are, then each later one with a new key; all keys; the contributors' pages. */
  ghost predicate IsListMerge(e: Entry, cs: seq<Candidate>, verbatim: nat) {
    && verbatim <= |Flatten(cs)|
    && e.Merged? && e.pages == ContributorPages(cs) && e.value == List(FirstSeen(Flatten(cs), verbatim))
    && KeySet(e.value.items) == KeySet(Flatten(cs))
  }

  lemma FirstListMerges(cs: seq<Candidate>)
    requires cs != [] && IsFirstUseful(cs, |cs| - 1) && cs[|cs| - 1].value.List?
    ensures IsListMerge(MergeField(cs), cs, |cs[|cs| - 1].value.items|)
  {
    var front, last := cs[..|cs| - 1], cs[|cs| - 1];
    UselessListsFlattenToNothing(front);
    UselessRunIsAbsent(front);
    assert Flatten(cs) == last.value.items by { assert [] + last.value.items == last.value.items; }
    assert last.value.items[0].repr in KeySet(last.value.items);
  }

  lemma UselessPageAddsNothing(cs: seq<Candidate>, verbatim: nat)
    requires cs != [] && !IsUseful(cs[|cs| - 1].value)
    requires IsListMerge(MergeField(cs[..|cs| - 1]), cs[..|cs| - 1], verbatim)
    ensures IsListMerge(MergeField(cs), cs, verbatim)
  {
    var front, last := cs[..|cs| - 1], cs[|cs| - 1];
    assert Flatten(cs) == Flatten(front) by { assert Flatten(front) + [] == Flatten(front); }
    assert last.value.List? ==> KeySet(last.value.items) == {};
  }

  lemma MoreItemsMerge(all: seq<Item>, merged: seq<Item>, more: seq<Item>, verbatim: nat)
    requires verbatim <= |all| && merged == FirstSeen(all, verbatim) && KeySet(merged) == KeySet(all)
    ensures var additions := Additions(KeySet(all), more);
            && FirstSeen(all + more, verbatim) == merged + additions
            && KeySet(merged + additions) == KeySet(all + more)
            && (additions == [] <==> KeySet(more) <= KeySet(all))
            && (additions == [] ==> merged + additions == merged)
  {
    var additions := Additions(KeySet(all), more);
    FirstSeenOfMore(all, more, verbatim);
    AdditionsKeys(KeySet(all), more);
    KeySetConcat(all, more);
    KeySetConcat(merged, additions);
  }

  lemma UsefulPageAddsItems(cs: seq<Candidate>, verbatim: nat)
    requires cs != [] && IsAscending(cs) && IsUseful(cs[|cs| - 1].value) && cs[|cs| - 1].value.List?
    requires IsListMerge(MergeField(cs[..|cs| - 1]), cs[..|cs| - 1], verbatim)
    ensures IsListMerge(MergeField(cs), cs, verbatim)
  {
    var front, last := cs[..|cs| - 1], cs[|cs| - 1];
    NewPageIsAppended(cs);
    MoreItemsMerge(Flatten(front), MergeField(front).value.items, last.value.items, verbatim);
  }

  /** A list field ends up with the first useful list verbatim and then every later item whose key was not
      seen before, in page order; its keys are all pages' keys; its pages are the contributors. */
  lemma {:induction false} ListMergeMeans(cs: seq<Candidate>, first: nat)
    requires IsAscending(cs) && IsFirstUseful(cs, first)
    requires forall i :: 0 <= i < |cs| && IsUseful(cs[i].value) ==> cs[i].value.List?
    ensures IsListMerge(MergeField(cs), cs, |cs[first].value.items|)
  {
    var front, last := cs[..|cs| - 1], cs[|cs| - 1];
    if first == |front| {
      FirstListMerges(cs);
    } else {
      assert IsFirstUseful(front, first) && cs[first] == front[first];
      ListMergeMeans(front, first);
      if IsUseful(last.value) {
        UsefulPageAddsItems(cs, |cs[first].value.items|);
      } else {
        UselessPageAddsNothing(cs, |cs[first].value.items|);
      }
    }
  }

  // ---------- whole pages ----------

  type Output = map<string, Value>

  datatype Page = Page(output: Output, index: nat)

  function Candidates(pages: seq<Page>, field: string): seq<Candidate> {
    if pages == [] then []
    else
      var last := pages[|pages| - 1];
      var front := Candidates(pages[..|pages| - 1], field);
      if field in last.output then front + [Candidate(last.output[field], last.index)] else front
  }

  /** The merged record: every schema field that some page filled, with its source pages. */
  function MergePages(pages: seq<Page>, fields: set<string>): map<string, Entry> {
    map f | f in fields && MergeField(Candidates(pages, f)).Merged? :: MergeField(Candidates(pages, f))
  }

  lemma {:induction false} CandidatesConcat(xs: seq<Page>, ys: seq<Page>, field: string)
    ensures Candidates(xs + ys, field) == Candidates(xs, field) + Candidates(ys, field)
  {
    if ys == [] {
      assert xs + ys == xs;
    } else {
      assert (xs + ys)[..|xs + ys| - 1] == xs + ys[..|ys| - 1];
      CandidatesConcat(xs, ys[..|ys| - 1], field);
    }
  }

  lemma {:induction false} CandidatesAreOnPages(pages: seq<Page>, field: string, c: Candidate)
    ensures c in Candidates(pages, field) <==>
              exists i :: 0 <= i < |pages| && field in pages[i].output
                       && c == Candidate(pages[i].output[field], pages[i].index)
  {
    if pages != [] {
      var front := pages[..|pages| - 1];
      CandidatesAreOnPages(front, field, c);
      assert forall i :: 0 <= i < |front| ==> pages[i] == front[i];
    }
  }

  /** A field is in the merged record exactly if it is in the schema and some page has a useful value for it. */
  lemma MergedFieldsAre(pages: seq<Page>, fields: set<string>, f: string)
    ensures f in MergePages(pages, fields) <==>
            f in fields && exists k :: 0 <= k < |pages| && f in pages[k].output && IsUseful(pages[k].output[f])
  {
    var cs := Candidates(pages, f);
    FirstUsefulDecidesKind(cs);
    if MergeField(cs).Merged? {
      var i: nat :| IsFirstUseful(cs, i);
      assert cs[i] in cs;
      CandidatesAreOnPages(pages, f, cs[i]);
    } else if k :| 0 <= k < |pages| && f in pages[k].output && IsUseful(pages[k].output[f]) {
      var c := Candidate(pages[k].output[f], pages[k].index);
      CandidatesAreOnPages(pages, f, c);
      var j :| 0 <= j < |cs| && cs[j] == c;
      var m := FirstUseful(cs, j);
    }
  }

  lemma {:induction false} FirstUseful(cs: seq<Candidate>, j: nat) returns (m: nat)
    requires j < |cs| && IsUseful(cs[j].value)
    ensures IsFirstUseful(cs, m)
  {
    m := j;
    if k :| 0 <= k < j && IsUseful(cs[k].value) { m := FirstUseful(cs, k); }
  }

  /** Pages merged before can be appended again, in any selection, without effect on any field. */
  lemma MergePagesAbsorbs(pages: seq<Page>, again: seq<Page>, fields: set<string>)
    requires forall p :: p in again ==> p in pages
    ensures MergePages(pages + again, fields) == MergePages(pages, fields)
  {
    forall f | f in fields
      ensures MergeField(Candidates(pages + again, f)) == MergeField(Candidates(pages, f))
    {
      CandidatesConcat(pages, again, f);
      forall z | z in Candidates(again, f) ensures z in Candidates(pages, f) {
        CandidatesAreOnPages(again, f, z);
        var i :| 0 <= i < |again| && f in again[i].output && z == Candidate(again[i].output[f], again[i].index);
        assert again[i] in pages;
        CandidatesAreOnPages(pages, f, z);
      }
      MergeAbsorbs(Candidates(pages, f), Candidates(again, f));
    }
  }
}
