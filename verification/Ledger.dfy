/** The rows one run records: an extraction and the language model usage billed to it. Every extraction is
    billed by exactly one extraction row of the usage ledger and at most one classifier row. */
module Ledger {
  import opened LlmTokens

  datatype ExtractionStatus = Partial | Completed | Failed

  datatype Purpose = Classifier | ForExtraction

  datatype Extraction = Extraction(id: nat, doc: nat, status: ExtractionStatus, model: string, tokens: Tokens)

  datatype Usage = Usage(extraction: nat, doc: nat, purpose: Purpose, model: string, tokens: Tokens)

  /** A call made before the extraction, to be billed together with it. */
  datatype UsageEvent = UsageEvent(purpose: Purpose, model: string, tokens: Tokens)

  function EventRow(x: Extraction, e: UsageEvent): Usage {
    Usage(x.id, x.doc, e.purpose, e.model, e.tokens)
  }

  function ExtractionRow(x: Extraction): Usage {
    Usage(x.id, x.doc, ForExtraction, x.model, x.tokens)
  }

  function EventRows(x: Extraction, events: seq<UsageEvent>): seq<Usage> {
    if events == [] then [] else EventRows(x, events[..|events| - 1]) + [EventRow(x, events[|events| - 1])]
  }

  /** What `_add_usage_events` writes for an extraction. */
  function UsageRows(x: Extraction, events: seq<UsageEvent>): seq<Usage> {
    EventRows(x, events) + [ExtractionRow(x)]
  }

  /** The ledger rows of one extraction. */
  function UsagesOf(uses: seq<Usage>, id: nat): seq<Usage> {
    if uses == [] then []
    else
      var last := uses[|uses| - 1];
      UsagesOf(uses[..|uses| - 1], id) + if last.extraction == id then [last] else []
  }

  /** Exactly one extraction row, with the document, the model and the tokens of the extraction, and at most one
      classifier row, of the same document. */
  ghost predicate IsBilled(x: Extraction, uses: seq<Usage>) {
    || uses == [ExtractionRow(x)]
    || (|uses| == 2 && uses[0].purpose == Classifier && uses[0].doc == x.doc && uses[1] == ExtractionRow(x))
  }

  ghost function Extracted(xs: seq<Extraction>): Tokens {
    if xs == [] then Tokens(0, 0) else Extracted(xs[..|xs| - 1]).Plus(xs[|xs| - 1].tokens)
  }

  /** The tokens of the extraction rows of the ledger. */
  ghost function Billed(uses: seq<Usage>): Tokens {
    if uses == [] then Tokens(0, 0)
    else
      var last := uses[|uses| - 1];
      Billed(uses[..|uses| - 1]).Plus(if last.purpose == ForExtraction then last.tokens else Tokens(0, 0))
  }

  ghost predicate HasExtraction(xs: seq<Extraction>, id: nat) {
    exists i :: 0 <= i < |xs| && xs[i].id == id
  }

  ghost predicate DistinctIds(xs: seq<Extraction>) {
    forall i, j :: 0 <= i < j < |xs| ==> xs[i].id != xs[j].id
  }

  ghost predicate AllBilled(xs: seq<Extraction>, uses: seq<Usage>) {
    forall i :: 0 <= i < |xs| ==> IsBilled(xs[i], UsagesOf(uses, xs[i].id))
  }

  ghost predicate NoOrphans(xs: seq<Extraction>, uses: seq<Usage>) {
    forall i :: 0 <= i < |uses| ==> HasExtraction(xs, uses[i].extraction)
  }

  /** The ledger accounts for the extractions: each is billed, nothing else is, and the sums agree. */
  ghost predicate Accounts(xs: seq<Extraction>, uses: seq<Usage>) {
    DistinctIds(xs) && AllBilled(xs, uses) && NoOrphans(xs, uses) && Extracted(xs) == Billed(uses)
  }

  // ---------- one run adds its rows ----------

  lemma {:induction false} UsagesOfAppend(a: seq<Usage>, b: seq<Usage>, id: nat)
    ensures UsagesOf(a + b, id) == UsagesOf(a, id) + UsagesOf(b, id)
  {
    if b == [] {
      assert a + b == a;
    } else {
      assert (a + b)[..|a + b| - 1] == a + b[..|b| - 1];
      UsagesOfAppend(a, b[..|b| - 1], id);
    }
  }

  lemma {:induction false} BilledAppend(a: seq<Usage>, b: seq<Usage>)
    ensures Billed(a + b) == Billed(a).Plus(Billed(b))
  {
    if b == [] {
      assert a + b == a;
    } else {
      assert (a + b)[..|a + b| - 1] == a + b[..|b| - 1];
      BilledAppend(a, b[..|b| - 1]);
    }
  }

  lemma {:induction false} OwnUsages(uses: seq<Usage>, id: nat)
    requires forall u :: u in uses ==> u.extraction == id
    ensures UsagesOf(uses, id) == uses
  {
    if uses != [] {
      assert uses[|uses| - 1] in uses;
      OwnUsages(uses[..|uses| - 1], id);
    }
  }

  lemma {:induction false} ForeignUsages(uses: seq<Usage>, id: nat)
    requires forall u :: u in uses ==> u.extraction != id
    ensures UsagesOf(uses, id) == []
  {
    if uses != [] {
      assert uses[|uses| - 1] in uses;
      ForeignUsages(uses[..|uses| - 1], id);
    }
  }

  predicate AreClassifierEvents(events: seq<UsageEvent>) {
    |events| <= 1 && forall i :: 0 <= i < |events| ==> events[i].purpose == Classifier
  }

  lemma BilledOne(u: Usage)
    ensures Billed([u]) == if u.purpose == ForExtraction then u.tokens else Tokens(0, 0)
  {
    assert [u][..0] == [];
  }

  lemma FewRows(x: Extraction, events: seq<UsageEvent>)
    requires AreClassifierEvents(events)
    ensures UsageRows(x, events) ==
            if events == [] then [ExtractionRow(x)] else [EventRow(x, events[0])] + [ExtractionRow(x)]
  {
    if events != [] {
      assert events[..0] == [];
      assert EventRows(x, events) == EventRows(x, []) + [EventRow(x, events[0])];
    }
  }

  lemma RowsAmount(x: Extraction, events: seq<UsageEvent>)
    requires AreClassifierEvents(events)
    ensures Billed(UsageRows(x, events)) == x.tokens
  {
    FewRows(x, events);
    BilledOne(ExtractionRow(x));
    if events != [] {
      BilledOne(EventRow(x, events[0]));
      BilledAppend([EventRow(x, events[0])], [ExtractionRow(x)]);
    }
  }

  lemma RowsBill(x: Extraction, events: seq<UsageEvent>)
    requires AreClassifierEvents(events)
    ensures IsBilled(x, UsageRows(x, events))
    ensures forall u :: u in UsageRows(x, events) ==> u.extraction == x.id
  {
    FewRows(x, events);
  }

  lemma HasMore(xs: seq<Extraction>, x: Extraction, id: nat)
    ensures HasExtraction(xs + [x], id) <==> HasExtraction(xs, id) || x.id == id
  {
    var all := xs + [x];
    assert all[|xs|] == x;
    if HasExtraction(xs, id) {
      var k :| 0 <= k < |xs| && xs[k].id == id;
      assert all[k] == xs[k];
    }
  }

  lemma NewRowsOnly(uses: seq<Usage>, x: Extraction, rows: seq<Usage>, id: nat)
    requires forall u :: u in uses ==> u.extraction != x.id
    requires forall u :: u in rows ==> u.extraction == x.id
    ensures UsagesOf(uses + rows, id) == if id == x.id then rows else UsagesOf(uses, id)
  {
    UsagesOfAppend(uses, rows, id);
    if id == x.id {
      ForeignUsages(uses, id);
      OwnUsages(rows, id);
    } else {
      ForeignUsages(rows, id);
    }
  }

  lemma NewRowsHaveOwner(xs: seq<Extraction>, uses: seq<Usage>, x: Extraction, rows: seq<Usage>)
    requires NoOrphans(xs, uses) && forall u :: u in rows ==> u.extraction == x.id
    ensures NoOrphans(xs + [x], uses + rows)
  {
    forall i | 0 <= i < |uses + rows| ensures HasExtraction(xs + [x], (uses + rows)[i].extraction) {
      HasMore(xs, x, (uses + rows)[i].extraction);
      if i < |uses| {
        assert HasExtraction(xs, uses[i].extraction);
      } else {
        assert rows[i - |uses|] in rows;
      }
    }
  }

  lemma NewRowsBill(xs: seq<Extraction>, uses: seq<Usage>, x: Extraction, rows: seq<Usage>)
    requires AllBilled(xs, uses) && NoOrphans(xs, uses) && !HasExtraction(xs, x.id)
    requires IsBilled(x, rows) && forall u :: u in rows ==> u.extraction == x.id
    ensures AllBilled(xs + [x], uses + rows)
  {
    forall u | u in uses ensures u.extraction != x.id {
      var i :| 0 <= i < |uses| && uses[i] == u;
      assert HasExtraction(xs, uses[i].extraction);
    }
    forall i | 0 <= i < |xs + [x]| ensures IsBilled((xs + [x])[i], UsagesOf(uses + rows, (xs + [x])[i].id)) {
      NewRowsOnly(uses, x, rows, (xs + [x])[i].id);
      if i < |xs| { assert xs[i].id != x.id; }
    }
  }

  /** Recording an extraction with a fresh id together with its usage keeps the ledger in order. */
  lemma RecordingAccounts(xs: seq<Extraction>, uses: seq<Usage>, x: Extraction, events: seq<UsageEvent>)
    requires Accounts(xs, uses) && !HasExtraction(xs, x.id) && AreClassifierEvents(events)
    ensures Accounts(xs + [x], uses + UsageRows(x, events))
  {
    var rows := UsageRows(x, events);
    RowsBill(x, events);
    NewRowsHaveOwner(xs, uses, x, rows);
    NewRowsBill(xs, uses, x, rows);
    assert (xs + [x])[..|xs|] == xs;
    assert Extracted(xs + [x]) == Billed(uses + rows) by {
      RowsAmount(x, events);
      BilledAppend(uses, rows);
    }
    assert DistinctIds(xs + [x]) by {
      forall i | 0 <= i < |xs| ensures xs[i].id != x.id {}
    }
  }

  // ---------- the migration ----------

  /** The rows that the migration inserts. */
  function Backfilled(xs: seq<Extraction>): seq<Usage> {
    if xs == [] then [] else Backfilled(xs[..|xs| - 1]) + [ExtractionRow(xs[|xs| - 1])]
  }

  method BackfillExtractionUsage(xs: seq<Extraction>) returns (uses: seq<Usage>)
    ensures uses == Backfilled(xs)
  {
    uses := [];
    for n := 0 to |xs|
      invariant uses == Backfilled(xs[..n])
    {
      assert xs[..n + 1][..n] == xs[..n];
      uses := uses + [Usage(xs[n].id, xs[n].doc, ForExtraction, xs[n].model, xs[n].tokens)];
    }
    assert xs[..|xs|] == xs;
  }

  lemma BackfillOne(xs: seq<Extraction>, uses: seq<Usage>, x: Extraction)
    requires Accounts(xs, uses) && !HasExtraction(xs, x.id)
    ensures Accounts(xs + [x], uses + [ExtractionRow(x)])
  {
    RecordingAccounts(xs, uses, x, []);
    assert UsageRows(x, []) == [ExtractionRow(x)];
  }

  lemma FrontIsDistinct(xs: seq<Extraction>)
    requires xs != [] && DistinctIds(xs)
    ensures DistinctIds(xs[..|xs| - 1]) && !HasExtraction(xs[..|xs| - 1], xs[|xs| - 1].id)
  {
  }

  /** The migration establishes what every later run keeps. */
  lemma {:induction false} BackfillAccounts(xs: seq<Extraction>)
    requires DistinctIds(xs)
    ensures Accounts(xs, Backfilled(xs))
  {
    if xs != [] {
      var front, last := xs[..|xs| - 1], xs[|xs| - 1];
      FrontIsDistinct(xs);
      BackfillAccounts(front);
      BackfillOne(front, Backfilled(front), last);
      assert front + [last] == xs;
    }
  }
}
