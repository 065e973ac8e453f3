/** The difference between extracted and corrected data, and why it is enough to restore either from the other. */
module CorrectionDiff {
  import opened Options
  import V = Validation
  import T = ValidationTexts

  /** Python's `==` on values: reflexive, symmetric, transitive, but coarser than identity (1, 1.0 and True). */
  ghost predicate IsEquality<T(!new)>(same: (T, T) -> bool) {
    && (forall x :: same(x, x))
    && (forall x, y :: same(x, y) ==> same(y, x))
    && (forall x, y, z :: same(x, y) && same(y, z) ==> same(x, z))
  }

  datatype Change<T> = Change(from: T, to: T)

  datatype Diff<K(==), T> = Diff(added: map<K, T>, removed: map<K, T>, changed: map<K, Change<T>>)

  function DiffOf<K, T>(same: (T, T) -> bool, original: map<K, T>, corrected: map<K, T>): Diff<K, T> {
    Diff(map k | k in corrected && k !in original :: corrected[k],
         map k | k in original && k !in corrected :: original[k],
         map k | k in original && k in corrected && !same(original[k], corrected[k]) ::
           Change(original[k], corrected[k]))
  }

  /** `diff_extraction_data`: one round per key of either side. */
  method DiffExtractionData<K, T>(same: (T, T) -> bool, original: map<K, T>, corrected: map<K, T>)
    returns (d: Diff<K, T>)
    ensures d == DiffOf(same, original, corrected)
  {
    var added: map<K, T>, removed: map<K, T>, changed: map<K, Change<T>> := map[], map[], map[];
    var left := original.Keys + corrected.Keys;
    ghost var done: set<K> := {};
    while left != {}
      invariant done + left == original.Keys + corrected.Keys && done !! left
      invariant forall k :: k in added <==> k in done && k !in original
      invariant forall k :: k in removed <==> k in done && k !in corrected
      invariant forall k ::
                  k in changed <==> k in done && k in original && k in corrected && !same(original[k], corrected[k])
      invariant forall k :: k in added ==> k in corrected && added[k] == corrected[k]
      invariant forall k :: k in removed ==> k in original && removed[k] == original[k]
      invariant forall k ::
                  k in changed ==> k in original && k in corrected && changed[k] == Change(original[k], corrected[k])
      decreases left
    {
      var k :| k in left;
      left, done := left - {k}, done + {k};
      if k !in original {
        added := added[k := corrected[k]];
        continue;
      }
      if k !in corrected {
        removed := removed[k := original[k]];
        continue;
      }
      if !same(original[k], corrected[k]) {
        changed := changed[k := Change(original[k], corrected[k])];
      }
    }
    d := Diff(added, removed, changed);
  }

  /** Applying a diff: removed keys go, added and changed ones get their new values. */
  function Patch<K, T>(data: map<K, T>, d: Diff<K, T>): map<K, T> {
    map k | k in (data.Keys - d.removed.Keys) + d.added.Keys + d.changed.Keys ::
      if k in d.changed then d.changed[k].to else if k in d.added then d.added[k] else data[k]
  }

  function Reversed<K, T>(d: Diff<K, T>): Diff<K, T> {
    Diff(d.removed, d.added, map k | k in d.changed :: Change(d.changed[k].to, d.changed[k].from))
  }

  /** The same keys, with values that compare equal. */
  ghost predicate Agree<K(!new), T>(same: (T, T) -> bool, a: map<K, T>, b: map<K, T>) {
    a.Keys == b.Keys && forall k :: k in a ==> same(a[k], b[k])
  }

  /** Patching the original with the diff gives the corrected data. */
  lemma PatchCorrects<K(!new), T(!new)>(same: (T, T) -> bool, original: map<K, T>, corrected: map<K, T>)
    requires IsEquality(same)
    ensures Agree(same, Patch(original, DiffOf(same, original, corrected)), corrected)
  {
  }

  /** Swapping the parts of a diff gives the diff of the swapped data. */
  lemma SwapReverses<K(!new), T(!new)>(same: (T, T) -> bool, original: map<K, T>, corrected: map<K, T>)
    requires IsEquality(same)
    ensures Reversed(DiffOf(same, original, corrected)) == DiffOf(same, corrected, original)
  {
    var a, b := Reversed(DiffOf(same, original, corrected)), DiffOf(same, corrected, original);
    assert a.added == b.added && a.removed == b.removed && a.changed == b.changed;
  }

  /** The reversed diff takes the corrected data back to the original. */
  lemma ReversePatchRestores<K(!new), T(!new)>(same: (T, T) -> bool, original: map<K, T>, corrected: map<K, T>)
    requires IsEquality(same)
    ensures Agree(same, Patch(corrected, Reversed(DiffOf(same, original, corrected))), original)
  {
    SwapReverses(same, original, corrected);
    PatchCorrects(same, corrected, original);
  }

  /** Where comparing equal means being equal, both patches are exact; where it does not, a value may survive that
      only compares equal to the corrected one. */
  lemma PatchIsExactIff<K(!new), T(!new)>(same: (T, T) -> bool, original: map<K, T>, corrected: map<K, T>)
    requires IsEquality(same)
    ensures Patch(original, DiffOf(same, original, corrected)) == corrected
            <==> forall k :: k in original && k in corrected && same(original[k], corrected[k]) ==>
                   original[k] == corrected[k]
  {
    var patched := Patch(original, DiffOf(same, original, corrected));
    PatchCorrects(same, original, corrected);
    forall k | k in original && k in corrected && same(original[k], corrected[k]) ensures patched[k] == original[k] {}
  }

  /** A key is reported at most once, and exactly when the two sides differ at it. */
  lemma DiffIsPartition<K(!new), T(!new)>(same: (T, T) -> bool, original: map<K, T>, corrected: map<K, T>, k: K)
    requires IsEquality(same)
    ensures var d := DiffOf(same, original, corrected);
            && d.added.Keys !! d.removed.Keys !! d.changed.Keys
            && (k in d.added.Keys + d.removed.Keys + d.changed.Keys <==>
                  (k in original) != (k in corrected)
                  || (k in original && k in corrected && !same(original[k], corrected[k])))
  {
  }

  lemma EmptyIffAgree<K(!new), T(!new)>(same: (T, T) -> bool, original: map<K, T>, corrected: map<K, T>)
    requires IsEquality(same)
    ensures DiffOf(same, original, corrected) == Diff(map[], map[], map[]) <==> Agree(same, original, corrected)
  {
    var d := DiffOf(same, original, corrected);
    if d == Diff(map[], map[], map[]) {
      forall k ensures k in original <==> k in corrected {
        assert k !in d.added && k !in d.removed;
      }
      forall k | k in original ensures same(original[k], corrected[k]) {
        assert k !in d.changed;
      }
    }
    if Agree(same, original, corrected) {
      assert d.added == map[] && d.removed == map[] && d.changed == map[];
    }
  }

  /** Nothing is lost by keeping the diff only: diffing against the patched original gives the same diff. */
  lemma DiffOfPatched<K(!new), T(!new)>(same: (T, T) -> bool, original: map<K, T>, corrected: map<K, T>)
    requires IsEquality(same)
    ensures var d := DiffOf(same, original, corrected); DiffOf(same, original, Patch(original, d)) == d
  {
    var d := DiffOf(same, original, corrected);
    var e := DiffOf(same, original, Patch(original, d));
    PatchCorrects(same, original, corrected);
    assert e.added == d.added && e.removed == d.removed;
    assert e.changed == d.changed;
  }

  // ---------- corrections ----------

  datatype Correction = Correction(original: Option<V.Values>, corrected: V.Values, diff: Diff<V.Name, V.Value>,
                                   warnings: seq<string>)

  datatype Creation = Created(correction: Correction) | Refused(warnings: seq<string>) | UnknownType

  /** What becomes of validated data: a correction that keeps the original, the data, all warnings and the diff, or a
      refusal if validation failed. */
  ghost predicate IsCreated(c: Creation, same: (V.Value, V.Value) -> bool, original: Option<V.Values>, v: T.Validated) {
    match c
    case UnknownType => false
    case Refused(warnings) => v.status.Failed? && warnings == v.warnings
    case Created(correction) =>
      && !v.status.Failed? && v.data == Some(correction.corrected) && correction.warnings == v.warnings
      && correction.original == original
      && correction.diff == DiffOf(same, if original.Some? then original.value else map[], correction.corrected)
  }

  /** `create`: the corrected data is validated like extracted data; without a single valid field it is refused. */
  method Create(h: V.Host, w: T.Wording, docType: string, same: (V.Value, V.Value) -> bool,
                original: Option<V.Values>, raw: V.Raw)
    returns (c: Creation)
    requires V.IsHost(h)
    ensures c.UnknownType? <==> docType !in {"invoice", "contract", "payslip", "receipt"}
    ensures !c.UnknownType? ==>
              exists v :: T.IsValidated(v, h, T.Words(w), docType, raw) && IsCreated(c, same, original, v)
  {
    var validation := T.ValidateExtraction(h, w, docType, raw);
    if validation.None? { return UnknownType; }
    T.OnlyFailedHasNoData(h, T.Words(w), docType, raw, validation.value);
    if validation.value.data.None? {
      c := Refused(validation.value.warnings);
    } else {
      var corrected := validation.value.data.value;
      var diff := DiffExtractionData(same, if original.Some? then original.value else map[], corrected);
      c := Created(Correction(original, corrected, diff, validation.value.warnings));
    }
    assert IsCreated(c, same, original, validation.value);
  }
}
