/** The cost report read against the runs that wrote the ledger: without date limits, its extraction line is the
    tokens and the price of exactly the extractions that were recorded. */
module LedgerReport {
  import opened CostReport
  import opened Dictionaries
  import opened Ledger
  import opened Lifecycle
  import opened LifecycleSafety
  import opened LlmTokens
  import opened Options

  /** A report without date limits. */
  const ALWAYS := Window(None, None)

  predicate IsExtractionRow(u: Usage) {
    u.purpose == ForExtraction
  }

  predicate Every(x: Extraction) { true }

  // ---------- amounts of one ledger row ----------

  function InputTokens(u: Usage): real { u.tokens.input as real }

  function OutputTokens(u: Usage): real { u.tokens.output as real }

  function PriceTag(prices: Prices): Usage -> real {
    (u: Usage) => Priced(PriceOf(prices, u.model), u.tokens.input, u.tokens.output).usd
  }

  /** What an extraction is billed: the amount of a ledger row with its own model and tokens. */
  function Charge(v: Usage -> real): Extraction -> real {
    (x: Extraction) => v(ExtractionRow(x))
  }

  // ---------- extraction rows amount to the extractions ----------

  ghost function BillsOneOf(xs: seq<Extraction>): Usage -> bool {
    (u: Usage) => IsExtractionRow(u) && HasExtraction(xs, u.extraction)
  }

  ghost function Bills(id: nat): Usage -> bool {
    (u: Usage) => IsExtractionRow(u) && u.extraction == id
  }

  /** The rows of one extraction, picked out or selected in place. */
  lemma {:induction false} OneBill(uses: seq<Usage>, id: nat, v: Usage -> real)
    ensures Total(uses, Bills(id), v) == Total(UsagesOf(uses, id), IsExtractionRow, v)
  {
    if uses != [] {
      var front, last := uses[..|uses| - 1], uses[|uses| - 1];
      OneBill(front, id, v);
      if last.extraction == id {
        assert (UsagesOf(front, id) + [last])[..|UsagesOf(front, id)|] == UsagesOf(front, id);
      } else {
        assert UsagesOf(front, id) + [] == UsagesOf(front, id);
      }
    }
  }

  lemma BilledOnce(x: Extraction, rows: seq<Usage>, v: Usage -> real)
    requires IsBilled(x, rows)
    ensures Total(rows, IsExtractionRow, v) == Charge(v)(x)
  {
    var row := ExtractionRow(x);
    assert Total([row], IsExtractionRow, v) == v(row) by { assert [row][..0] == []; }
    if |rows| == 2 {
      assert rows[..1] == [rows[0]] && [rows[0]][..0] == [];
      assert Total([rows[0]], IsExtractionRow, v) == 0.0;
    }
  }

  lemma {:induction false} BillsAmount(xs: seq<Extraction>, uses: seq<Usage>, v: Usage -> real)
    requires DistinctIds(xs) && AllBilled(xs, uses)
    ensures Total(uses, BillsOneOf(xs), v) == Total(xs, Every, Charge(v))
  {
    if xs == [] {
      NothingTotals(uses, BillsOneOf(xs), v);
    } else {
      var front, last := xs[..|xs| - 1], xs[|xs| - 1];
      BillsAmount(front, uses, v);
      OneBill(uses, last.id, v);
      BilledOnce(last, UsagesOf(uses, last.id), v);
      forall u | u in uses
        ensures !(BillsOneOf(front)(u) && Bills(last.id)(u))
        ensures BillsOneOf(xs)(u) <==> BillsOneOf(front)(u) || Bills(last.id)(u)
      {
        OneMore(xs, u.extraction);
      }
      TotalSplits(uses, BillsOneOf(front), Bills(last.id), BillsOneOf(xs), v);
    }
  }

  lemma OneMore(xs: seq<Extraction>, id: nat)
    requires xs != [] && DistinctIds(xs)
    ensures var (front, last) := (xs[..|xs| - 1], xs[|xs| - 1]);
            && (HasExtraction(xs, id) <==> HasExtraction(front, id) || last.id == id)
            && !(HasExtraction(front, id) && last.id == id)
  {
    var front := xs[..|xs| - 1];
    if HasExtraction(xs, id) {
      var i :| 0 <= i < |xs| && xs[i].id == id;
      assert i < |front| ==> front[i].id == id;
    }
    if HasExtraction(front, id) {
      var i :| 0 <= i < |front| && front[i].id == id;
      assert xs[i].id == id;
    }
  }

  /** A ledger in order: its extraction rows amount to what its extractions are charged. */
  lemma ExtractionRowsAmount(xs: seq<Extraction>, uses: seq<Usage>, v: Usage -> real)
    requires Accounts(xs, uses)
    ensures Total(uses, IsExtractionRow, v) == Total(xs, Every, Charge(v))
  {
    BillsAmount(xs, uses, v);
    TotalDependsOnSelection(uses, IsExtractionRow, BillsOneOf(xs), v);
  }

  // ---------- the join loses no row ----------

  function Extractions(stored: seq<StoredExtraction>): (xs: seq<Extraction>)
    ensures |xs| == |stored| && forall i :: 0 <= i < |xs| ==> xs[i] == stored[i].row
  {
    seq(|stored|, i requires 0 <= i < |stored| => stored[i].row)
  }

  function Uses(stored: seq<StoredUsage>): (uses: seq<Usage>)
    ensures |uses| == |stored| && forall i :: 0 <= i < |uses| ==> uses[i] == stored[i].row
  {
    seq(|stored|, i requires 0 <= i < |stored| => stored[i].row)
  }

  lemma {:induction false} Found(stored: seq<StoredExtraction>, id: nat)
    requires HasExtraction(Extractions(stored), id)
    ensures FindExtraction(stored, id).Some?
  {
    if stored[0].row.id != id {
      var i :| 0 <= i < |stored| && Extractions(stored)[i].id == id;
      assert Extractions(stored[1..])[i - 1].id == id;
      Found(stored[1..], id);
    }
  }

  ghost predicate AreLinked(usages: seq<StoredUsage>, stored: seq<StoredExtraction>) {
    forall u :: u in usages ==> u.isLinked && HasExtraction(Extractions(stored), u.row.extraction)
  }

  lemma {:induction false} JoinKeepsRows(usages: seq<StoredUsage>, stored: seq<StoredExtraction>,
                                         sel: Joined -> bool, pick: Usage -> bool, w: Joined -> real, v: Usage -> real)
    requires AreLinked(usages, stored)
    requires forall j: Joined :: sel(j) == pick(j.usage.row) && w(j) == v(j.usage.row)
    ensures Total(Join(usages, stored, ALWAYS), sel, w) == Total(Uses(usages), pick, v)
    ensures |Join(usages, stored, ALWAYS)| == |usages|
  {
    if usages != [] {
      var front, last := usages[..|usages| - 1], usages[|usages| - 1];
      assert last in usages;
      Found(stored, last.row.extraction);
      JoinKeepsRows(front, stored, sel, pick, w, v);
      var rows, row := Join(front, stored, ALWAYS), Joined(last, FindExtraction(stored, last.row.extraction).value);
      assert Join(usages, stored, ALWAYS) == rows + [row];
      assert (rows + [row])[..|rows|] == rows;
      assert Uses(usages)[..|usages| - 1] == Uses(front);
    }
  }

  // ---------- the report ----------

  /** The tables hold what the runs have committed. */
  ghost predicate AreTables(stored: seq<StoredExtraction>, usages: seq<StoredUsage>, db: Database) {
    && Extractions(stored) == db.extractions && Uses(usages) == db.uses
    && forall u :: u in usages ==> u.isLinked
  }

  lemma {:induction false} ExtractedAmounts(xs: seq<Extraction>)
    ensures Total(xs, Every, Charge(InputTokens)) == Extracted(xs).input as real
    ensures Total(xs, Every, Charge(OutputTokens)) == Extracted(xs).output as real
  {
    if xs != [] {
      var front, last := xs[..|xs| - 1], xs[|xs| - 1];
      ExtractedAmounts(front);
      assert Extracted(xs) == Extracted(front).Plus(last.tokens);
      var row := ExtractionRow(last);
      assert row.tokens == last.tokens;
      assert Charge(InputTokens)(last) == InputTokens(row) && Charge(OutputTokens)(last) == OutputTokens(row);
    }
  }

  lemma {:induction false} AllAreRecent(stored: seq<StoredExtraction>)
    ensures Total(stored, Recent(ALWAYS), One) == |stored| as real
  {
    if stored != [] { AllAreRecent(stored[..|stored| - 1]); }
  }

  lemma RowsAreLinked(stored: seq<StoredExtraction>, usages: seq<StoredUsage>, xs: seq<Extraction>, uses: seq<Usage>)
    requires Extractions(stored) == xs && Uses(usages) == uses && NoOrphans(xs, uses)
    requires forall u :: u in usages ==> u.isLinked
    ensures AreLinked(usages, stored)
  {
    forall u | u in usages ensures HasExtraction(xs, u.row.extraction) {
      var i :| 0 <= i < |usages| && usages[i] == u;
      assert uses[i] == u.row;
    }
  }

  lemma ExtractionKeyMeans(j: Joined)
    ensures WithKey(ByPurpose, "extraction")(j) <==> IsExtractionRow(j.usage.row)
  {
    assert |"classifier"| != |"extraction"| || "classifier"[0] != "extraction"[0];
  }

  /** What the report shows for the extraction rows is what the extractions are charged. */
  lemma LineIsCharge(stored: seq<StoredExtraction>, usages: seq<StoredUsage>, xs: seq<Extraction>, uses: seq<Usage>,
                     w: Joined -> real, v: Usage -> real)
    requires Extractions(stored) == xs && Uses(usages) == uses && Accounts(xs, uses)
    requires forall u :: u in usages ==> u.isLinked
    requires forall j: Joined :: w(j) == v(j.usage.row)
    ensures Total(Join(usages, stored, ALWAYS), WithKey(ByPurpose, "extraction"), w) == Total(xs, Every, Charge(v))
  {
    RowsAreLinked(stored, usages, xs, uses);
    forall j ensures WithKey(ByPurpose, "extraction")(j) <==> IsExtractionRow(j.usage.row) { ExtractionKeyMeans(j); }
    JoinKeepsRows(usages, stored, WithKey(ByPurpose, "extraction"), IsExtractionRow, w, v);
    ExtractionRowsAmount(xs, uses, v);
  }

  lemma {:induction false} InLedger(uses: seq<Usage>, id: nat, u: Usage)
    requires u in UsagesOf(uses, id)
    ensures exists i :: 0 <= i < |uses| && uses[i] == u
  {
    if uses[|uses| - 1] != u { InLedger(uses[..|uses| - 1], id, u); }
  }

  lemma {:induction false} InJoin(usages: seq<StoredUsage>, stored: seq<StoredExtraction>, i: nat)
    requires i < |usages| && usages[i].isLinked && FindExtraction(stored, usages[i].row.extraction).Some?
    ensures Joined(usages[i], FindExtraction(stored, usages[i].row.extraction).value) in Join(usages, stored, ALWAYS)
  {
    if i < |usages| - 1 { InJoin(usages[..|usages| - 1], stored, i); }
  }

  lemma HasExtractionRow(xs: seq<Extraction>, uses: seq<Usage>) returns (i: nat)
    requires Accounts(xs, uses) && xs != []
    ensures i < |uses| && uses[i] == ExtractionRow(xs[0])
  {
    assert IsBilled(xs[0], UsagesOf(uses, xs[0].id));
    InLedger(uses, xs[0].id, ExtractionRow(xs[0]));
    i :| 0 <= i < |uses| && uses[i] == ExtractionRow(xs[0]);
  }

  lemma HasExtractionLine(stored: seq<StoredExtraction>, usages: seq<StoredUsage>, db: Database)
    requires AreTables(stored, usages, db) && Accounts(db.extractions, db.uses) && db.extractions != []
    ensures exists j :: j in Join(usages, stored, ALWAYS) && KeyOf(j, ByPurpose) == "extraction"
  {
    var i := HasExtractionRow(db.extractions, db.uses);
    assert usages[i].row == Uses(usages)[i];
    var id := usages[i].row.extraction;
    assert Extractions(stored)[0].id == id;
    Found(stored, id);
    InJoin(usages, stored, i);
    assert KeyOf(Joined(usages[i], FindExtraction(stored, id).value), ByPurpose) == "extraction";
  }

  /** The tokens of every extraction at the prices of its own model, added up. */
  ghost function PriceOfAll(xs: seq<Extraction>, prices: Prices): real {
    if xs == [] then 0.0
    else
      var x := xs[|xs| - 1];
      PriceOfAll(xs[..|xs| - 1], prices)
      + if x.model in prices
        then x.tokens.input as real * prices[x.model].input + x.tokens.output as real * prices[x.model].output
        else 0.0
  }

  ghost function InputOfAll(xs: seq<Extraction>): nat {
    if xs == [] then 0 else InputOfAll(xs[..|xs| - 1]) + xs[|xs| - 1].tokens.input
  }

  ghost function OutputOfAll(xs: seq<Extraction>): nat {
    if xs == [] then 0 else OutputOfAll(xs[..|xs| - 1]) + xs[|xs| - 1].tokens.output
  }

  lemma {:induction false} ChargesAre(xs: seq<Extraction>, prices: Prices)
    ensures Total(xs, Every, Charge(PriceTag(prices))) == PriceOfAll(xs, prices)
    ensures Extracted(xs) == Tokens(InputOfAll(xs), OutputOfAll(xs))
  {
    if xs != [] {
      ChargesAre(xs[..|xs| - 1], prices);
      assert Charge(PriceTag(prices))(xs[|xs| - 1]) == PriceTag(prices)(ExtractionRow(xs[|xs| - 1]));
    }
  }

  /** What the report says of a ledger in order. */
  ghost predicate TellsExtractions(r: Report, xs: seq<Extraction>, prices: Prices) {
    && r.extractions == |xs|
    && (xs != [] ==> "extraction" in r.byPurpose.at)
    && ("extraction" in r.byPurpose.at ==> IsChargeOf(r.byPurpose.at["extraction"], xs, prices))
  }

  ghost predicate IsChargeOf(line: Cost, xs: seq<Extraction>, prices: Prices) {
    line.input == InputOfAll(xs) && line.output == OutputOfAll(xs) && line.usd == PriceOfAll(xs, prices)
  }

  lemma LineTells(line: Cost, stored: seq<StoredExtraction>, usages: seq<StoredUsage>, db: Database, prices: Prices)
    requires AreTables(stored, usages, db) && Accounts(db.extractions, db.uses)
    requires var (rows, key) := (Join(usages, stored, ALWAYS), WithKey(ByPurpose, "extraction"));
             && InputOf(line) == Total(rows, key, RowInput) && OutputOf(line) == Total(rows, key, RowOutput)
             && UsdOf(line) == Total(rows, key, RowUsd(prices))
    ensures IsChargeOf(line, db.extractions, prices)
  {
    LineIsCharge(stored, usages, db.extractions, db.uses, RowInput, InputTokens);
    LineIsCharge(stored, usages, db.extractions, db.uses, RowOutput, OutputTokens);
    LineIsCharge(stored, usages, db.extractions, db.uses, RowUsd(prices), PriceTag(prices));
    ExtractedAmounts(db.extractions);
    ChargesAre(db.extractions, prices);
  }

  lemma LedgerTells(stored: seq<StoredExtraction>, usages: seq<StoredUsage>, db: Database, prices: Prices, r: Report)
    requires AreTables(stored, usages, db) && Accounts(db.extractions, db.uses)
    requires ReportConserves(r, stored, usages, ALWAYS, prices)
    ensures TellsExtractions(r, db.extractions, prices)
  {
    AllAreRecent(stored);
    var rows := Join(usages, stored, ALWAYS);
    assert Conserves(r.byPurpose, rows, ByPurpose, prices);
    if db.extractions != [] { HasExtractionLine(stored, usages, db); }
    if "extraction" in r.byPurpose.at { LineTells(r.byPurpose.at["extraction"], stored, usages, db, prices); }
  }

  /** After any interleaving of runs: a report without date limits counts every recorded extraction, and its
      extraction line holds the tokens of exactly these extractions, each priced for its own model. */
  lemma ReportTellsExtractions(s: State, trace: seq<Step>, stored: seq<StoredExtraction>, usages: seq<StoredUsage>,
                               prices: Prices, r: Report)
    requires IsInitial(s) && AreTables(stored, usages, Execute(s, trace).db)
    requires ReportConserves(r, stored, usages, ALWAYS, prices)
    ensures TellsExtractions(r, Execute(s, trace).db.extractions, prices)
  {
    InvariantHolds(s, trace);
    LedgerTells(stored, usages, Execute(s, trace).db, prices, r);
  }
}
