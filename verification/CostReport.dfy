/** The cost report: the database groups ledger rows by a key and the model; the service prices each
    group and folds the groups by key. Four breakdowns come out of the same ledger. */
module CostReport {
  import opened Options
  import opened Dictionaries
  import Ledger

  // ---------- tables ----------

  /** The rows of the ledger, with the columns that only the report reads. */
  datatype StoredExtraction = StoredExtraction(row: Ledger.Extraction, docType: string, strategy: string,
                                               createdAt: int)

  /** A row need not be linked to an extraction. */
  datatype StoredUsage = StoredUsage(row: Ledger.Usage, isLinked: bool, createdAt: int)

  function PurposeName(p: Ledger.Purpose): string {
    if p.Classifier? then "classifier" else "extraction"
  }

  datatype Window = Window(from: Option<int>, to: Option<int>)

  predicate InWindow(w: Window, at: int) {
    (w.from.Some? ==> at >= w.from.value) && (w.to.Some? ==> at <= w.to.value)
  }

  /** A ledger row together with the extraction it is joined to. */
  datatype Joined = Joined(usage: StoredUsage, extraction: StoredExtraction)

  function FindExtraction(extractions: seq<StoredExtraction>, id: nat): Option<StoredExtraction> {
    if extractions == [] then None
    else if extractions[0].row.id == id then Some(extractions[0])
    else FindExtraction(extractions[1..], id)
  }

  /** The inner join on the extraction id, restricted to ledger rows of the window. */
  function Join(usages: seq<StoredUsage>, extractions: seq<StoredExtraction>, w: Window): seq<Joined> {
    if usages == [] then []
    else
      var rest := Join(usages[..|usages| - 1], extractions, w);
      var u := usages[|usages| - 1];
      if !u.isLinked || !InWindow(w, u.createdAt) then rest
      else match FindExtraction(extractions, u.row.extraction)
        case None => rest
        case Some(x) => rest + [Joined(u, x)]
  }

  datatype Grouping = ByDocType | ByStrategy | ByModel | ByPurpose

  function KeyOf(j: Joined, g: Grouping): string {
    match g
    case ByDocType => j.extraction.docType
    case ByStrategy => j.extraction.strategy
    case ByModel => j.usage.row.model
    case ByPurpose => PurposeName(j.usage.row.purpose)
  }

  // ---------- prices ----------

  datatype Price = Price(input: real, output: real)

  type Prices = map<string, Price>

  /** An unpriced model costs nothing. */
  function PriceOf(prices: Prices, model: string): Price {
    if model in prices then prices[model] else Price(0.0, 0.0)
  }

  datatype Cost = Cost(input: int, output: int, usd: real)

  function Plus(a: Cost, b: Cost): Cost {
    Cost(a.input + b.input, a.output + b.output, a.usd + b.usd)
  }

  /** What `input` and `output` tokens cost. */
  function Usd(p: Price, input: real, output: real): real {
    input * p.input + output * p.output
  }

  function Priced(p: Price, input: int, output: int): Cost {
    Cost(input, output, Usd(p, input as real, output as real))
  }

  // ---------- sums over ledger rows ----------

  /** An amount summed over the rows that `sel` selects. */
  ghost function Total<T>(rows: seq<T>, sel: T -> bool, w: T -> real): real {
    if rows == [] then 0.0
    else
      var last := rows[|rows| - 1];
      Total(rows[..|rows| - 1], sel, w) + if sel(last) then w(last) else 0.0
  }

  predicate EveryRow(j: Joined) { true }

  ghost function WithKey(g: Grouping, key: string): Joined -> bool {
    (j: Joined) => KeyOf(j, g) == key
  }

  // The three amounts of one ledger row; each row is priced on its own.

  function RowInput(j: Joined): real { j.usage.row.tokens.input as real }

  function RowOutput(j: Joined): real { j.usage.row.tokens.output as real }

  function RowUsd(prices: Prices): Joined -> real {
    (j: Joined) => Priced(PriceOf(prices, j.usage.row.model), j.usage.row.tokens.input, j.usage.row.tokens.output).usd
  }

  lemma {:induction false} TotalSplits<T>(rows: seq<T>, a: T -> bool, b: T -> bool, both: T -> bool, w: T -> real)
    requires forall j :: j in rows ==> !(a(j) && b(j)) && (both(j) <==> a(j) || b(j))
    ensures Total(rows, both, w) == Total(rows, a, w) + Total(rows, b, w)
  {
    if rows != [] {
      assert rows[|rows| - 1] in rows;
      TotalSplits(rows[..|rows| - 1], a, b, both, w);
    }
  }

  lemma {:induction false} TotalDependsOnSelection<T>(rows: seq<T>, a: T -> bool, b: T -> bool, w: T -> real)
    requires forall j :: j in rows ==> a(j) == b(j)
    ensures Total(rows, a, w) == Total(rows, b, w)
  {
    if rows != [] {
      assert rows[|rows| - 1] in rows;
      TotalDependsOnSelection(rows[..|rows| - 1], a, b, w);
    }
  }

  lemma {:induction false} NothingTotals<T>(rows: seq<T>, sel: T -> bool, w: T -> real)
    requires forall j :: j in rows ==> !sel(j)
    ensures Total(rows, sel, w) == 0.0
  {
    if rows != [] {
      assert rows[|rows| - 1] in rows;
      NothingTotals(rows[..|rows| - 1], sel, w);
    }
  }

  // ---------- what the database returns ----------

  /** One group; a sum over no rows is null. */
  datatype UsageRow = UsageRow(key: string, model: string, input: Option<int>, output: Option<int>)

  ghost function Group(g: Grouping, r: UsageRow): Joined -> bool {
    (j: Joined) => KeyOf(j, g) == r.key && j.usage.row.model == r.model
  }

  /** Every joined row is in one group, and the groups differ in key or model. */
  ghost predicate IsPartition(groups: seq<UsageRow>, rows: seq<Joined>, g: Grouping) {
    && (forall i, j :: 0 <= i < j < |groups| ==> groups[i].key != groups[j].key || groups[i].model != groups[j].model)
    && (forall j :: j in rows ==> exists k :: 0 <= k < |groups| && Group(g, groups[k])(j))
  }

  /** What `GROUP BY key, model` with two sums returns, in any order. (That no group is empty is not needed.) */
  ghost predicate IsGrouped(groups: seq<UsageRow>, rows: seq<Joined>, g: Grouping) {
    && IsPartition(groups, rows, g)
    && (forall k :: 0 <= k < |groups| ==>
          && IsSum(groups[k].input, Total(rows, Group(g, groups[k]), RowInput))
          && IsSum(groups[k].output, Total(rows, Group(g, groups[k]), RowOutput)))
  }

  /** An aggregate as the database returns it; nothing to add up may give null. */
  ghost predicate IsSum(sum: Option<int>, total: real) {
    match sum
    case Some(value) => value as real == total
    case None => total == 0.0
  }

  function Value(sum: Option<int>): int {
    if sum.Some? then sum.value else 0
  }

  function GroupCost(prices: Prices, r: UsageRow): Cost {
    Priced(PriceOf(prices, r.model), Value(r.input), Value(r.output))
  }

  function GroupInput(r: UsageRow): real { Value(r.input) as real }

  function GroupOutput(r: UsageRow): real { Value(r.output) as real }

  function GroupUsd(prices: Prices): UsageRow -> real {
    (r: UsageRow) => GroupCost(prices, r).usd
  }

  ghost predicate AnyKey(key: string) { true }

  ghost function OnlyKey(key: string): string -> bool {
    (k: string) => k == key
  }

  /** An amount summed over the groups whose key `sel` selects. */
  ghost function GroupTotal(groups: seq<UsageRow>, sel: string -> bool, v: UsageRow -> real): real {
    if groups == [] then 0.0
    else
      var last := groups[|groups| - 1];
      GroupTotal(groups[..|groups| - 1], sel, v) + if sel(last.key) then v(last) else 0.0
  }

  // ---------- grouping loses nothing ----------

  lemma UsdAdds(p: Price, a: real, b: real, i: real, o: real)
    ensures Usd(p, a + i, b + o) == Usd(p, a, b) + Usd(p, i, o)
  {
    assert (a + i) * p.input == a * p.input + i * p.input;
    assert (b + o) * p.output == b * p.output + o * p.output;
  }

  /** Rows of one price cost together what their summed tokens cost. */
  lemma {:induction false} PricedTogether(rows: seq<Joined>, sel: Joined -> bool, p: Price, prices: Prices)
    requires forall j :: j in rows && sel(j) ==> PriceOf(prices, j.usage.row.model) == p
    ensures Total(rows, sel, RowUsd(prices)) == Usd(p, Total(rows, sel, RowInput), Total(rows, sel, RowOutput))
  {
    if rows != [] {
      var front, last := rows[..|rows| - 1], rows[|rows| - 1];
      assert last in rows && forall j :: j in front ==> j in rows;
      PricedTogether(front, sel, p, prices);
      PricedTogetherStep(rows, sel, p, prices);
    }
  }

  lemma PricedTogetherStep(rows: seq<Joined>, sel: Joined -> bool, p: Price, prices: Prices)
    requires rows != [] && (sel(rows[|rows| - 1]) ==> PriceOf(prices, rows[|rows| - 1].usage.row.model) == p)
    requires var front := rows[..|rows| - 1];
             Total(front, sel, RowUsd(prices)) == Usd(p, Total(front, sel, RowInput), Total(front, sel, RowOutput))
    ensures Total(rows, sel, RowUsd(prices)) == Usd(p, Total(rows, sel, RowInput), Total(rows, sel, RowOutput))
  {
    var front, last := rows[..|rows| - 1], rows[|rows| - 1];
    if sel(last) {
      UsdAdds(p, Total(front, sel, RowInput), Total(front, sel, RowOutput), RowInput(last), RowOutput(last));
    }
  }

  /** A group's amount is the total of its rows' amounts. */
  ghost predicate Agree(groups: seq<UsageRow>, rows: seq<Joined>, g: Grouping, v: UsageRow -> real, w: Joined -> real) {
    forall r :: r in groups ==> AgreesFor(r, rows, g, v, w)
  }

  ghost predicate AgreesFor(r: UsageRow, rows: seq<Joined>, g: Grouping, v: UsageRow -> real, w: Joined -> real) {
    v(r) == Total(rows, Group(g, r), w)
  }

  lemma TokensAgree(groups: seq<UsageRow>, rows: seq<Joined>, g: Grouping)
    requires IsGrouped(groups, rows, g)
    ensures Agree(groups, rows, g, GroupInput, RowInput) && Agree(groups, rows, g, GroupOutput, RowOutput)
  {
    forall r | r in groups
      ensures AgreesFor(r, rows, g, GroupInput, RowInput)
      ensures AgreesFor(r, rows, g, GroupOutput, RowOutput)
    {
      var k :| 0 <= k < |groups| && groups[k] == r;
    }
  }

  lemma GroupUsdIs(prices: Prices, r: UsageRow)
    ensures GroupUsd(prices)(r) == Usd(PriceOf(prices, r.model), GroupInput(r), GroupOutput(r))
  {
  }

  lemma OneUsdAgrees(r: UsageRow, rows: seq<Joined>, g: Grouping, prices: Prices)
    requires AgreesFor(r, rows, g, GroupInput, RowInput) && AgreesFor(r, rows, g, GroupOutput, RowOutput)
    ensures AgreesFor(r, rows, g, GroupUsd(prices), RowUsd(prices))
  {
    var p, sel := PriceOf(prices, r.model), Group(g, r);
    var input, output := GroupInput(r), GroupOutput(r);
    assert GroupUsd(prices)(r) == Usd(p, input, output) by { GroupUsdIs(prices, r); }
    assert Total(rows, sel, RowUsd(prices)) == Usd(p, input, output) by { PricedTogether(rows, sel, p, prices); }
  }

  lemma UsdAgrees(groups: seq<UsageRow>, rows: seq<Joined>, g: Grouping, prices: Prices)
    requires Agree(groups, rows, g, GroupInput, RowInput) && Agree(groups, rows, g, GroupOutput, RowOutput)
    ensures Agree(groups, rows, g, GroupUsd(prices), RowUsd(prices))
  {
    forall r | r in groups ensures AgreesFor(r, rows, g, GroupUsd(prices), RowUsd(prices)) {
      OneUsdAgrees(r, rows, g, prices);
    }
  }

  /** The rows of the first `n` groups whose key `sel` selects. */
  ghost function Covered(groups: seq<UsageRow>, n: nat, g: Grouping, sel: string -> bool): Joined -> bool
    requires n <= |groups|
  {
    (j: Joined) => sel(KeyOf(j, g)) && exists k :: 0 <= k < n && Group(g, groups[k])(j)
  }

  lemma {:induction false} GroupsCover(groups: seq<UsageRow>, n: nat, rows: seq<Joined>, g: Grouping,
                                       sel: string -> bool, v: UsageRow -> real, w: Joined -> real)
    requires IsPartition(groups, rows, g) && Agree(groups, rows, g, v, w) && n <= |groups|
    ensures GroupTotal(groups[..n], sel, v) == Total(rows, Covered(groups, n, g, sel), w)
  {
    if n == 0 {
      NothingTotals(rows, Covered(groups, 0, g, sel), w);
    } else {
      var last := groups[n - 1];
      GroupsCover(groups, n - 1, rows, g, sel, v, w);
      assert last in groups && AgreesFor(last, rows, g, v, w);
      assert groups[..n][..n - 1] == groups[..n - 1];
      var before, after := Covered(groups, n - 1, g, sel), Covered(groups, n, g, sel);
      if sel(last.key) {
        TotalSplits(rows, before, Group(g, last), after, w);
      } else {
        TotalDependsOnSelection(rows, before, after, w);
      }
    }
  }

  /** All groups together amount to what the ledger amounts to row by row, whatever their order. */
  lemma GroupingConserves(groups: seq<UsageRow>, rows: seq<Joined>, g: Grouping, v: UsageRow -> real, w: Joined -> real)
    requires IsPartition(groups, rows, g) && Agree(groups, rows, g, v, w)
    ensures GroupTotal(groups, AnyKey, v) == Total(rows, EveryRow, w)
  {
    GroupsCover(groups, |groups|, rows, g, AnyKey, v, w);
    assert groups[..|groups|] == groups;
    TotalDependsOnSelection(rows, Covered(groups, |groups|, g, AnyKey), EveryRow, w);
  }

  /** The groups of one key amount to what the ledger rows of that key amount to. */
  lemma GroupingConservesKey(groups: seq<UsageRow>, rows: seq<Joined>, g: Grouping, key: string,
                             v: UsageRow -> real, w: Joined -> real)
    requires IsPartition(groups, rows, g) && Agree(groups, rows, g, v, w)
    ensures GroupTotal(groups, OnlyKey(key), v) == Total(rows, WithKey(g, key), w)
  {
    GroupsCover(groups, |groups|, rows, g, OnlyKey(key), v, w);
    assert groups[..|groups|] == groups;
    TotalDependsOnSelection(rows, Covered(groups, |groups|, g, OnlyKey(key)), WithKey(g, key), w);
  }

  // ---------- the fold by key ----------

  function InputOf(c: Cost): real { c.input as real }

  function OutputOf(c: Cost): real { c.output as real }

  function UsdOf(c: Cost): real { c.usd }

  ghost predicate HasKey(groups: seq<UsageRow>, key: string) {
    exists r :: r in groups && r.key == key
  }

  /** The dictionary after some groups: per key and in total it holds what the groups amount to. */
  ghost predicate IsFold(costs: Dict<Cost>, groups: seq<UsageRow>, prices: Prices) {
    && IsDict(costs)
    && (forall k :: k in costs.at <==> HasKey(groups, k))
    && IsFoldOf(costs, groups, InputOf, GroupInput)
    && IsFoldOf(costs, groups, OutputOf, GroupOutput)
    && IsFoldOf(costs, groups, UsdOf, GroupUsd(prices))
  }

  ghost predicate IsFoldOf(costs: Dict<Cost>, groups: seq<UsageRow>, amount: Cost -> real, v: UsageRow -> real)
    requires IsDict(costs)
  {
    && (forall k :: k in costs.at ==> amount(costs.at[k]) == GroupTotal(groups, OnlyKey(k), v))
    && (forall k :: k !in costs.at ==> GroupTotal(groups, OnlyKey(k), v) == 0.0)
    && Sum(costs, amount) == GroupTotal(groups, AnyKey, v)
  }

  lemma GroupTotalOne(groups: seq<UsageRow>, r: UsageRow, sel: string -> bool, v: UsageRow -> real)
    ensures GroupTotal(groups + [r], sel, v) == GroupTotal(groups, sel, v) + if sel(r.key) then v(r) else 0.0
  {
    assert (groups + [r])[..|groups|] == groups;
  }

  lemma FoldOne(costs: Dict<Cost>, groups: seq<UsageRow>, r: UsageRow, next: Cost, amount: Cost -> real,
                v: UsageRow -> real)
    requires IsDict(costs) && IsFoldOf(costs, groups, amount, v)
    requires amount(next) == v(r) + if r.key in costs.at then amount(costs.at[r.key]) else 0.0
    ensures IsDict(Put(costs, r.key, next)) && IsFoldOf(Put(costs, r.key, next), groups + [r], amount, v)
  {
    PutSum(costs, r.key, next, amount);
    GroupTotalOne(groups, r, AnyKey, v);
    forall k
      ensures GroupTotal(groups + [r], OnlyKey(k), v) ==
              GroupTotal(groups, OnlyKey(k), v) + if r.key == k then v(r) else 0.0
    {
      GroupTotalOne(groups, r, OnlyKey(k), v);
    }
  }

  lemma HasKeyOne(groups: seq<UsageRow>, r: UsageRow, k: string)
    ensures HasKey(groups + [r], k) <==> HasKey(groups, k) || r.key == k
  {
    assert r in groups + [r];
    if HasKey(groups, k) {
      var x :| x in groups && x.key == k;
      assert x in groups + [r];
    }
  }

  lemma EmptyFold(prices: Prices)
    ensures IsFold(Dict([], map[]), [], prices)
  {
  }

  lemma FoldStep(costs: Dict<Cost>, groups: seq<UsageRow>, r: UsageRow, prices: Prices, next: Cost)
    requires IsFold(costs, groups, prices)
    requires next == if r.key in costs.at then Plus(costs.at[r.key], GroupCost(prices, r)) else GroupCost(prices, r)
    ensures IsFold(Put(costs, r.key, next), groups + [r], prices)
  {
    FoldOne(costs, groups, r, next, InputOf, GroupInput);
    FoldOne(costs, groups, r, next, OutputOf, GroupOutput);
    FoldOne(costs, groups, r, next, UsdOf, GroupUsd(prices));
    forall k ensures k in Put(costs, r.key, next).at <==> HasKey(groups + [r], k) {
      HasKeyOne(groups, r, k);
    }
  }

  /** The dictionary that the loop over the groups fills key by key. */
  function UsageCosts(groups: seq<UsageRow>, prices: Prices): Dict<Cost> {
    if groups == [] then Dict([], map[])
    else
      var costs := UsageCosts(groups[..|groups| - 1], prices);
      var row := groups[|groups| - 1];
      var cost := GroupCost(prices, row);
      Put(costs, row.key, if row.key in costs.at then Plus(costs.at[row.key], cost) else cost)
  }

  method BuildUsageCosts(groups: seq<UsageRow>, prices: Prices) returns (costs: Dict<Cost>)
    ensures costs == UsageCosts(groups, prices)
  {
    costs := Dict([], map[]);
    for n := 0 to |groups|
      invariant costs == UsageCosts(groups[..n], prices)
    {
      assert groups[..n + 1][..n] == groups[..n];
      var row := groups[n];
      var cost := GroupCost(prices, row);
      if row.key in costs.at {
        cost := Plus(costs.at[row.key], cost);
      }
      costs := Put(costs, row.key, cost);
    }
    assert groups[..|groups|] == groups;
  }

  ghost predicate Folds(groups: seq<UsageRow>, prices: Prices) {
    IsFold(UsageCosts(groups, prices), groups, prices)
  }

  lemma UsageCostsOneMore(groups: seq<UsageRow>, prices: Prices)
    requires groups != [] && Folds(groups[..|groups| - 1], prices)
    ensures Folds(groups, prices)
  {
    var front, row := groups[..|groups| - 1], groups[|groups| - 1];
    var costs, cost := UsageCosts(front, prices), GroupCost(prices, row);
    var next := if row.key in costs.at then Plus(costs.at[row.key], cost) else cost;
    assert UsageCosts(groups, prices) == Put(costs, row.key, next);
    assert front + [row] == groups;
    FoldStep(costs, front, row, prices, next);
  }

  lemma {:induction false} UsageCostsFold(groups: seq<UsageRow>, prices: Prices)
    ensures Folds(groups, prices)
  {
    if groups == [] {
      EmptyFold(prices);
    } else {
      UsageCostsFold(groups[..|groups| - 1], prices);
      UsageCostsOneMore(groups, prices);
    }
  }

  /** A usage breakdown conserves the ledger: every row's key is there, the values sum to the direct sum over all
      rows, and each value is the direct sum over the rows of its key. */
  ghost predicate Conserves(costs: Dict<Cost>, rows: seq<Joined>, g: Grouping, prices: Prices) {
    && IsDict(costs)
    && (forall j :: j in rows ==> KeyOf(j, g) in costs.at)
    && ConservesAmount(costs, rows, g, InputOf, RowInput)
    && ConservesAmount(costs, rows, g, OutputOf, RowOutput)
    && ConservesAmount(costs, rows, g, UsdOf, RowUsd(prices))
  }

  ghost predicate ConservesAmount(costs: Dict<Cost>, rows: seq<Joined>, g: Grouping, amount: Cost -> real,
                                  w: Joined -> real)
    requires IsDict(costs)
  {
    && Sum(costs, amount) == Total(rows, EveryRow, w)
    && (forall k :: k in costs.at ==> amount(costs.at[k]) == Total(rows, WithKey(g, k), w))
  }

  lemma FoldConservesAmount(costs: Dict<Cost>, groups: seq<UsageRow>, rows: seq<Joined>, g: Grouping,
                            amount: Cost -> real, v: UsageRow -> real, w: Joined -> real)
    requires IsDict(costs) && IsFoldOf(costs, groups, amount, v)
    requires IsPartition(groups, rows, g) && Agree(groups, rows, g, v, w)
    ensures ConservesAmount(costs, rows, g, amount, w)
  {
    GroupingConserves(groups, rows, g, v, w);
    forall k | k in costs.at ensures amount(costs.at[k]) == Total(rows, WithKey(g, k), w) {
      GroupingConservesKey(groups, rows, g, k, v, w);
    }
  }

  /** Whatever order the groups come in, the dictionary built from them conserves the ledger. */
  lemma UsageCostsConserve(groups: seq<UsageRow>, rows: seq<Joined>, g: Grouping, prices: Prices)
    requires IsGrouped(groups, rows, g)
    ensures Conserves(UsageCosts(groups, prices), rows, g, prices)
  {
    var costs := UsageCosts(groups, prices);
    UsageCostsFold(groups, prices);
    TokensAgree(groups, rows, g);
    UsdAgrees(groups, rows, g, prices);
    FoldConservesAmount(costs, groups, rows, g, InputOf, GroupInput, RowInput);
    FoldConservesAmount(costs, groups, rows, g, OutputOf, GroupOutput, RowOutput);
    FoldConservesAmount(costs, groups, rows, g, UsdOf, GroupUsd(prices), RowUsd(prices));
    forall j | j in rows ensures KeyOf(j, g) in costs.at {
      var k :| 0 <= k < |groups| && Group(g, groups[k])(j);
      assert groups[k] in groups;
    }
  }

  // ---------- breakdowns with counts ----------

  /** One row of the extraction statistics: how many extractions have the key. */
  datatype StatRow = StatRow(key: string, count: Option<nat>, avgMs: Option<real>)

  datatype Line = Line(count: nat, avgMs: real, cost: Cost, avgUsd: real)

  predicate HasStats(g: Grouping) {
    g.ByDocType? || g.ByStrategy?
  }

  function StatKey(x: StoredExtraction, g: Grouping): string
    requires HasStats(g)
  {
    if g.ByDocType? then x.docType else x.strategy
  }

  function One(x: StoredExtraction): real { 1.0 }

  ghost function Recent(w: Window): StoredExtraction -> bool {
    (x: StoredExtraction) => InWindow(w, x.createdAt)
  }

  ghost function RecentWithKey(w: Window, g: Grouping, key: string): StoredExtraction -> bool
    requires HasStats(g)
  {
    (x: StoredExtraction) => InWindow(w, x.createdAt) && StatKey(x, g) == key
  }

  /** What `COUNT` with `GROUP BY key` returns for the extractions of the window, in any order. */
  ghost predicate IsCounted(stats: seq<StatRow>, xs: seq<StoredExtraction>, w: Window, g: Grouping)
    requires HasStats(g)
  {
    && (forall i, j :: 0 <= i < j < |stats| ==> stats[i].key != stats[j].key)
    && (forall x :: x in xs && InWindow(w, x.createdAt) ==>
          exists k :: 0 <= k < |stats| && stats[k].key == StatKey(x, g))
    && (forall k :: 0 <= k < |stats| ==>
          match stats[k].count
          case Some(count) => count as real == Total(xs, RecentWithKey(w, g, stats[k].key), One)
          case None => Total(xs, RecentWithKey(w, g, stats[k].key), One) == 0.0)
  }

  function EmptyLine(r: StatRow): Line {
    Line(if r.count.Some? then r.count.value else 0, if r.avgMs.Some? then r.avgMs.value else 0.0, Cost(0, 0, 0.0), 0.0)
  }

  function EmptyLines(stats: seq<StatRow>): Dict<Line> {
    if stats == [] then Dict([], map[])
    else
      var row := stats[|stats| - 1];
      Put(EmptyLines(stats[..|stats| - 1]), row.key, EmptyLine(row))
  }

  /** The line of a key that has usage. */
  function UsedLine(lines: Dict<Line>, key: string, usage: Cost): Line {
    var count := if key in lines.at then lines.at[key].count else 0;
    Line(count, if key in lines.at then lines.at[key].avgMs else 0.0, usage,
         if count > 0 then usage.usd / count as real else 0.0)
  }

  /** The lines after the first `n` usage totals are entered. */
  function UsedLines(lines: Dict<Line>, costs: Dict<Cost>, n: nat): (r: Dict<Line>)
    requires n <= |costs.order| && forall k :: k in costs.order ==> k in costs.at
    ensures IsDict(lines) ==> IsDict(r)
  {
    if n == 0 then lines
    else
      var before := UsedLines(lines, costs, n - 1);
      var key := costs.order[n - 1];
      Put(before, key, UsedLine(before, key, costs.at[key]))
  }

  method FillLines(stats: seq<StatRow>) returns (lines: Dict<Line>)
    ensures lines == EmptyLines(stats)
  {
    lines := Dict([], map[]);
    for n := 0 to |stats|
      invariant lines == EmptyLines(stats[..n])
    {
      assert stats[..n + 1][..n] == stats[..n];
      lines := Put(lines, stats[n].key, EmptyLine(stats[n]));
    }
    assert stats[..|stats|] == stats;
  }

  method EnterUsage(empty: Dict<Line>, costs: Dict<Cost>) returns (lines: Dict<Line>)
    requires forall k :: k in costs.order ==> k in costs.at
    ensures lines == UsedLines(empty, costs, |costs.order|)
  {
    lines := empty;
    for n := 0 to |costs.order|
      invariant lines == UsedLines(empty, costs, n)
    {
      var key := costs.order[n];
      lines := Put(lines, key, UsedLine(lines, key, costs.at[key]));
    }
  }

  method BuildCostBreakdown(stats: seq<StatRow>, groups: seq<UsageRow>, prices: Prices)
    returns (lines: Dict<Line>, total: Cost, extractions: nat)
    ensures IsDict(EmptyLines(stats)) && IsDict(UsageCosts(groups, prices))
    ensures lines == UsedLines(EmptyLines(stats), UsageCosts(groups, prices), |UsageCosts(groups, prices).order|)
    ensures total.input as real == Sum(UsageCosts(groups, prices), InputOf)
    ensures total.output as real == Sum(UsageCosts(groups, prices), OutputOf)
    ensures total.usd == Sum(UsageCosts(groups, prices), UsdOf)
    ensures extractions as real == Sum(EmptyLines(stats), CountOf)
  {
    lines := FillLines(stats);
    assert IsDict(lines) by { EmptyLinesAreDict(stats); }
    extractions := SumCounts(lines);
    var costs := BuildUsageCosts(groups, prices);
    assert IsDict(costs) by { UsageCostsFold(groups, prices); }
    lines := EnterUsage(lines, costs);
    total := SumCosts(costs);
  }

  function CountOf(l: Line): real { l.count as real }

  method SumCounts(lines: Dict<Line>) returns (total: nat)
    requires IsDict(lines)
    ensures total as real == Sum(lines, CountOf)
  {
    total := 0;
    for n := 0 to |lines.order|
      invariant total as real == SumBy(lines, n, CountOf)
    {
      assert lines.order[n] in lines.order;
      total := total + lines.at[lines.order[n]].count;
    }
  }

  method SumCosts(costs: Dict<Cost>) returns (total: Cost)
    requires IsDict(costs)
    ensures total.input as real == Sum(costs, InputOf)
    ensures total.output as real == Sum(costs, OutputOf)
    ensures total.usd == Sum(costs, UsdOf)
  {
    total := Cost(0, 0, 0.0);
    for n := 0 to |costs.order|
      invariant total.input as real == SumBy(costs, n, InputOf)
      invariant total.output as real == SumBy(costs, n, OutputOf)
      invariant total.usd == SumBy(costs, n, UsdOf)
    {
      assert costs.order[n] in costs.order;
      total := Plus(total, costs.at[costs.order[n]]);
    }
  }

  ghost predicate HasStat(stats: seq<StatRow>, key: string) {
    exists i :: 0 <= i < |stats| && stats[i].key == key
  }

  lemma {:induction false} EmptyLinesAreDict(stats: seq<StatRow>)
    ensures IsDict(EmptyLines(stats))
    ensures forall k :: k in EmptyLines(stats).at ==>
              EmptyLines(stats).at[k].cost == Cost(0, 0, 0.0) && EmptyLines(stats).at[k].avgUsd == 0.0
    ensures forall k :: k in EmptyLines(stats).at <==> HasStat(stats, k)
  {
    if stats != [] {
      var front, last := stats[..|stats| - 1], stats[|stats| - 1];
      EmptyLinesAreDict(front);
      forall k ensures HasStat(stats, k) <==> HasStat(front, k) || last.key == k {
        if HasStat(front, k) {
          var i :| 0 <= i < |front| && front[i].key == k;
          assert stats[i].key == k;
        }
        if HasStat(stats, k) && last.key != k {
          var i :| 0 <= i < |stats| && stats[i].key == k;
          assert front[i].key == k;
        }
      }
    }
  }

  /** The extractions of the window whose key is among the first `n` rows. */
  ghost function CountedBy(stats: seq<StatRow>, n: nat, w: Window, g: Grouping): StoredExtraction -> bool
    requires HasStats(g) && n <= |stats|
  {
    (x: StoredExtraction) => InWindow(w, x.createdAt) && exists k :: 0 <= k < n && stats[k].key == StatKey(x, g)
  }

  lemma {:induction false} CountsCover(stats: seq<StatRow>, n: nat, xs: seq<StoredExtraction>, w: Window, g: Grouping)
    requires HasStats(g) && IsCounted(stats, xs, w, g) && n <= |stats|
    ensures IsDict(EmptyLines(stats[..n]))
    ensures Sum(EmptyLines(stats[..n]), CountOf) == Total(xs, CountedBy(stats, n, w, g), One)
  {
    EmptyLinesAreDict(stats[..n]);
    if n == 0 {
      NothingTotals(xs, CountedBy(stats, 0, w, g), One);
    } else {
      var row := stats[n - 1];
      CountsCover(stats, n - 1, xs, w, g);
      assert stats[..n][..n - 1] == stats[..n - 1];
      EmptyLinesAreDict(stats[..n - 1]);
      assert row.key !in EmptyLines(stats[..n - 1]).at;
      PutSum(EmptyLines(stats[..n - 1]), row.key, EmptyLine(row), CountOf);
      TotalSplits(xs, CountedBy(stats, n - 1, w, g), RecentWithKey(w, g, row.key), CountedBy(stats, n, w, g), One);
    }
  }

  /** The counts sum to the number of extractions in the window. */
  lemma CountsConserve(stats: seq<StatRow>, xs: seq<StoredExtraction>, w: Window, g: Grouping)
    requires HasStats(g) && IsCounted(stats, xs, w, g)
    ensures IsDict(EmptyLines(stats))
    ensures Sum(EmptyLines(stats), CountOf) == Total(xs, Recent(w), One)
  {
    CountsCover(stats, |stats|, xs, w, g);
    assert stats[..|stats|] == stats;
    TotalDependsOnSelection(xs, CountedBy(stats, |stats|, w, g), Recent(w), One);
  }

  // ---------- entering the usage ----------

  function LineInput(l: Line): real { l.cost.input as real }

  function LineOutput(l: Line): real { l.cost.output as real }

  function LineUsd(l: Line): real { l.cost.usd }

  ghost predicate AmountsToNothing(lines: Dict<Line>, amount: Line -> real) {
    forall k :: k in lines.at ==> amount(lines.at[k]) == 0.0
  }

  lemma {:induction false} ZeroSum(lines: Dict<Line>, n: nat, amount: Line -> real)
    requires IsDict(lines) && n <= |lines.order| && AmountsToNothing(lines, amount)
    ensures SumBy(lines, n, amount) == 0.0
  {
    if n > 0 {
      assert lines.order[n - 1] in lines.order;
      ZeroSum(lines, n - 1, amount);
    }
  }

  /** A key without usage keeps its line. */
  lemma {:induction false} Untouched(empty: Dict<Line>, costs: Dict<Cost>, n: nat, k: string)
    requires IsDict(costs) && n <= |costs.order| && forall i :: 0 <= i < n ==> costs.order[i] != k
    ensures k in UsedLines(empty, costs, n).at <==> k in empty.at
    ensures k in empty.at ==> UsedLines(empty, costs, n).at[k] == empty.at[k]
  {
    if n > 0 {
      assert costs.order[n - 1] in costs.order;
      Untouched(empty, costs, n - 1, k);
    }
  }

  lemma SameLine(a: Dict<Line>, b: Dict<Line>, key: string, usage: Cost)
    requires (key in a.at <==> key in b.at) && (key in a.at ==> a.at[key] == b.at[key])
    ensures UsedLine(a, key, usage) == UsedLine(b, key, usage)
  {
  }

  /** A key with usage has its own count and exactly that usage. */
  lemma {:induction false} Touched(empty: Dict<Line>, costs: Dict<Cost>, n: nat, p: nat)
    requires IsDict(costs) && p < n <= |costs.order|
    ensures var key := costs.order[p];
            && key in costs.at && key in UsedLines(empty, costs, n).at
            && UsedLines(empty, costs, n).at[key] == UsedLine(empty, key, costs.at[key])
  {
    var key, last := costs.order[p], costs.order[n - 1];
    assert last in costs.order && key in costs.order;
    var before := UsedLines(empty, costs, n - 1);
    if p < n - 1 {
      Touched(empty, costs, n - 1, p);
      assert key != last;
    } else {
      Untouched(empty, costs, p, key);
      assert UsedLine(before, key, costs.at[key]) == UsedLine(empty, key, costs.at[key]) by {
        SameLine(before, empty, key, costs.at[key]);
      }
    }
    assert UsedLines(empty, costs, n) == Put(before, last, UsedLine(before, last, costs.at[last]));
  }

  lemma LineOf(empty: Dict<Line>, costs: Dict<Cost>, k: string)
    requires IsDict(costs)
    ensures var lines := UsedLines(empty, costs, |costs.order|);
            && (k in lines.at <==> k in empty.at || k in costs.at)
            && (k in costs.at ==> lines.at[k] == UsedLine(empty, k, costs.at[k]))
            && (k !in costs.at && k in empty.at ==> lines.at[k] == empty.at[k])
  {
    if k in costs.at {
      assert k in costs.order;
      var p :| 0 <= p < |costs.order| && costs.order[p] == k;
      Touched(empty, costs, |costs.order|, p);
    } else {
      forall i | 0 <= i < |costs.order| ensures costs.order[i] != k { assert costs.order[i] in costs.order; }
      Untouched(empty, costs, |costs.order|, k);
    }
  }

  ghost predicate HasAmount(lines: Dict<Line>, amount: Line -> real, total: real) {
    IsDict(lines) && Sum(lines, amount) == total
  }

  lemma OneMoreKeepsCounts(empty: Dict<Line>, costs: Dict<Cost>, n: nat, total: real)
    requires IsDict(costs) && n < |costs.order| && HasAmount(UsedLines(empty, costs, n), CountOf, total)
    ensures HasAmount(UsedLines(empty, costs, n + 1), CountOf, total)
  {
    var key := costs.order[n];
    assert key in costs.order;
    UsageKeepsCounts(UsedLines(empty, costs, n), key, costs.at[key]);
  }

  /** Entering usage leaves the counts alone. */
  lemma {:induction false} CountsStay(empty: Dict<Line>, costs: Dict<Cost>, n: nat, total: real)
    requires IsDict(costs) && n <= |costs.order| && HasAmount(empty, CountOf, total)
    ensures HasAmount(UsedLines(empty, costs, n), CountOf, total)
  {
    if n > 0 {
      CountsStay(empty, costs, n - 1, total);
      OneMoreKeepsCounts(empty, costs, n - 1, total);
    }
  }

  lemma UsageKeepsCounts(before: Dict<Line>, key: string, usage: Cost)
    requires IsDict(before)
    ensures IsDict(Put(before, key, UsedLine(before, key, usage)))
    ensures Sum(Put(before, key, UsedLine(before, key, usage)), CountOf) == Sum(before, CountOf)
  {
    var line := UsedLine(before, key, usage);
    assert line.count == if key in before.at then before.at[key].count else 0;
    CountStays(before, key, line);
  }

  lemma CountStays(before: Dict<Line>, key: string, line: Line)
    requires IsDict(before) && line.count == if key in before.at then before.at[key].count else 0
    ensures IsDict(Put(before, key, line))
    ensures Sum(Put(before, key, line), CountOf) == Sum(before, CountOf)
  {
    PutSum(before, key, line, CountOf);
  }

  /** The amount of a line is that of its usage. */
  ghost predicate Mirrors(amount: Line -> real, usage: Cost -> real) {
    forall l: Line :: amount(l) == usage(l.cost)
  }

  lemma OneMoreEntered(empty: Dict<Line>, costs: Dict<Cost>, n: nat, amount: Line -> real, usage: Cost -> real)
    requires IsDict(costs) && n < |costs.order|
    requires AmountsToNothing(empty, amount) && Mirrors(amount, usage)
    requires HasAmount(UsedLines(empty, costs, n), amount, SumBy(costs, n, usage))
    ensures HasAmount(UsedLines(empty, costs, n + 1), amount, SumBy(costs, n + 1, usage))
  {
    var before, key := UsedLines(empty, costs, n), costs.order[n];
    assert key in costs.order;
    assert key in before.at ==> amount(before.at[key]) == 0.0 by { Untouched(empty, costs, n, key); }
    UsageIsEntered(before, key, costs.at[key], amount, usage);
  }

  lemma NothingEntered(empty: Dict<Line>, costs: Dict<Cost>, amount: Line -> real, usage: Cost -> real)
    requires IsDict(empty) && IsDict(costs) && AmountsToNothing(empty, amount)
    ensures HasAmount(UsedLines(empty, costs, 0), amount, SumBy(costs, 0, usage))
  {
    ZeroSum(empty, |empty.order|, amount);
  }

  /** Every amount entered is in the lines once. */
  lemma {:induction false} AmountsEntered(empty: Dict<Line>, costs: Dict<Cost>, n: nat,
                                          amount: Line -> real, usage: Cost -> real)
    requires IsDict(empty) && IsDict(costs) && n <= |costs.order|
    requires AmountsToNothing(empty, amount) && Mirrors(amount, usage)
    ensures HasAmount(UsedLines(empty, costs, n), amount, SumBy(costs, n, usage))
  {
    if n == 0 {
      NothingEntered(empty, costs, amount, usage);
    } else {
      AmountsEntered(empty, costs, n - 1, amount, usage);
      OneMoreEntered(empty, costs, n - 1, amount, usage);
    }
  }

  lemma UsageIsEntered(before: Dict<Line>, key: string, cost: Cost, amount: Line -> real, usage: Cost -> real)
    requires IsDict(before) && (key in before.at ==> amount(before.at[key]) == 0.0) && Mirrors(amount, usage)
    ensures IsDict(Put(before, key, UsedLine(before, key, cost)))
    ensures Sum(Put(before, key, UsedLine(before, key, cost)), amount) == Sum(before, amount) + usage(cost)
  {
    var line := UsedLine(before, key, cost);
    assert line.cost == cost && amount(line) == usage(line.cost);
    AmountEntered(before, key, line, amount);
  }

  lemma AmountEntered(before: Dict<Line>, key: string, line: Line, amount: Line -> real)
    requires IsDict(before) && (key in before.at ==> amount(before.at[key]) == 0.0)
    ensures IsDict(Put(before, key, line))
    ensures Sum(Put(before, key, line), amount) == Sum(before, amount) + amount(line)
  {
    PutSum(before, key, line, amount);
  }

  // ---------- the whole report ----------

  datatype Report = Report(byDocType: Dict<Line>, byStrategy: Dict<Line>, byModel: Dict<Cost>, byPurpose: Dict<Cost>,
                           total: Cost, extractions: nat)

  /** The answers of the database, all taken from one snapshot. */
  datatype Answers = Answers(docTypeStats: seq<StatRow>, strategyStats: seq<StatRow>,
                             docTypeUsage: seq<UsageRow>, strategyUsage: seq<UsageRow>,
                             modelUsage: seq<UsageRow>, purposeUsage: seq<UsageRow>)

  ghost predicate IsAnswered(a: Answers, xs: seq<StoredExtraction>, usages: seq<StoredUsage>, w: Window) {
    var rows := Join(usages, xs, w);
    && IsCounted(a.docTypeStats, xs, w, ByDocType)
    && IsCounted(a.strategyStats, xs, w, ByStrategy)
    && IsGrouped(a.docTypeUsage, rows, ByDocType)
    && IsGrouped(a.strategyUsage, rows, ByStrategy)
    && IsGrouped(a.modelUsage, rows, ByModel)
    && IsGrouped(a.purposeUsage, rows, ByPurpose)
  }

  /** `_build_cost_breakdown` as a function. */
  function Breakdown(stats: seq<StatRow>, groups: seq<UsageRow>, prices: Prices): Dict<Line>
    requires IsDict(UsageCosts(groups, prices))
  {
    var costs := UsageCosts(groups, prices);
    UsedLines(EmptyLines(stats), costs, |costs.order|)
  }

  /** A breakdown conserves the ledger and the number of extractions; each line's count and amounts are the direct
      sums over the extractions and the ledger rows of its key; and count times average cost is the cost. */
  ghost predicate BreakdownConserves(lines: Dict<Line>, rows: seq<Joined>, xs: seq<StoredExtraction>, w: Window,
                                     g: Grouping, prices: Prices)
    requires HasStats(g)
  {
    && IsDict(lines)
    && Sum(lines, CountOf) == Total(xs, Recent(w), One)
    && Sum(lines, LineInput) == Total(rows, EveryRow, RowInput)
    && Sum(lines, LineOutput) == Total(rows, EveryRow, RowOutput)
    && Sum(lines, LineUsd) == Total(rows, EveryRow, RowUsd(prices))
    && forall k :: k in lines.at ==> LineConserves(lines.at[k], rows, xs, w, g, k, prices)
  }

  /** Count times average cost is the cost; without extractions the average is zero. */
  ghost predicate AverageFits(l: Line) {
    if l.count > 0 then l.count as real * l.avgUsd == l.cost.usd else l.avgUsd == 0.0
  }

  ghost predicate LineConserves(l: Line, rows: seq<Joined>, xs: seq<StoredExtraction>, w: Window, g: Grouping,
                                key: string, prices: Prices)
    requires HasStats(g)
  {
    && LineInput(l) == Total(rows, WithKey(g, key), RowInput)
    && LineOutput(l) == Total(rows, WithKey(g, key), RowOutput)
    && LineUsd(l) == Total(rows, WithKey(g, key), RowUsd(prices))
    && CountOf(l) == Total(xs, RecentWithKey(w, g, key), One)
    && AverageFits(l)
  }

  /** A key without a statistics row has no extraction in the window. */
  lemma LineCounts(stats: seq<StatRow>, xs: seq<StoredExtraction>, w: Window, g: Grouping, k: string)
    requires HasStats(g) && IsCounted(stats, xs, w, g)
    ensures IsDict(EmptyLines(stats))
    ensures (if k in EmptyLines(stats).at then EmptyLines(stats).at[k].count else 0) as real
            == Total(xs, RecentWithKey(w, g, k), One)
  {
    EmptyLinesAreDict(stats);
    if HasStat(stats, k) {
      var i :| 0 <= i < |stats| && stats[i].key == k;
      StatLine(stats, |stats|, i);
      assert stats[..|stats|] == stats;
    } else {
      NothingTotals(xs, RecentWithKey(w, g, k), One);
    }
  }

  lemma {:induction false} StatLine(stats: seq<StatRow>, n: nat, i: nat)
    requires i < n <= |stats|
    requires forall i, j :: 0 <= i < j < |stats| ==> stats[i].key != stats[j].key
    ensures stats[i].key in EmptyLines(stats[..n]).at
    ensures EmptyLines(stats[..n]).at[stats[i].key] == EmptyLine(stats[i])
  {
    assert stats[..n][..n - 1] == stats[..n - 1];
    if i < n - 1 { StatLine(stats, n - 1, i); }
  }

  /** Usage of a key that no group has amounts to nothing. */
  lemma KeyAmounts(groups: seq<UsageRow>, rows: seq<Joined>, g: Grouping, prices: Prices, k: string)
    requires IsGrouped(groups, rows, g)
    ensures var costs := UsageCosts(groups, prices);
            var c := if k in costs.at then costs.at[k] else Cost(0, 0, 0.0);
            && InputOf(c) == Total(rows, WithKey(g, k), RowInput)
            && OutputOf(c) == Total(rows, WithKey(g, k), RowOutput)
            && UsdOf(c) == Total(rows, WithKey(g, k), RowUsd(prices))
  {
    UsageCostsFold(groups, prices);
    TokensAgree(groups, rows, g);
    UsdAgrees(groups, rows, g, prices);
    GroupingConservesKey(groups, rows, g, k, GroupInput, RowInput);
    GroupingConservesKey(groups, rows, g, k, GroupOutput, RowOutput);
    GroupingConservesKey(groups, rows, g, k, GroupUsd(prices), RowUsd(prices));
  }

  lemma AverageTimesCount(count: nat, usd: real)
    requires count > 0
    ensures count as real * (usd / count as real) == usd
  {
  }

  lemma LineIsConserving(stats: seq<StatRow>, groups: seq<UsageRow>, rows: seq<Joined>, xs: seq<StoredExtraction>,
                         w: Window, g: Grouping, prices: Prices, k: string)
    requires HasStats(g) && IsCounted(stats, xs, w, g) && IsGrouped(groups, rows, g)
    requires IsDict(UsageCosts(groups, prices)) && k in Breakdown(stats, groups, prices).at
    ensures LineConserves(Breakdown(stats, groups, prices).at[k], rows, xs, w, g, k, prices)
  {
    var costs, empty := UsageCosts(groups, prices), EmptyLines(stats);
    var line := Breakdown(stats, groups, prices).at[k];
    var count := if k in empty.at then empty.at[k].count else 0;
    var cost := if k in costs.at then costs.at[k] else Cost(0, 0, 0.0);
    assert line.count == count && line.cost == cost && AverageFits(line) by {
      EmptyLinesAreDict(stats);
      LineFits(empty, costs, k);
    }
    assert count as real == Total(xs, RecentWithKey(w, g, k), One) by { LineCounts(stats, xs, w, g, k); }
    KeyAmounts(groups, rows, g, prices, k);
    AssembleLine(line, cost, rows, xs, w, g, k, prices);
  }

  lemma AssembleLine(l: Line, c: Cost, rows: seq<Joined>, xs: seq<StoredExtraction>, w: Window, g: Grouping,
                     k: string, prices: Prices)
    requires HasStats(g) && l.cost == c
    requires InputOf(c) == Total(rows, WithKey(g, k), RowInput)
    requires OutputOf(c) == Total(rows, WithKey(g, k), RowOutput)
    requires UsdOf(c) == Total(rows, WithKey(g, k), RowUsd(prices))
    requires l.count as real == Total(xs, RecentWithKey(w, g, k), One)
    requires AverageFits(l)
    ensures LineConserves(l, rows, xs, w, g, k, prices)
  {
  }

  /** Each line has the count of its key, the usage of its key or none, and a fitting average. */
  lemma LineFits(empty: Dict<Line>, costs: Dict<Cost>, k: string)
    requires IsDict(costs) && k in UsedLines(empty, costs, |costs.order|).at
    requires forall k :: k in empty.at ==> empty.at[k].cost == Cost(0, 0, 0.0) && empty.at[k].avgUsd == 0.0
    ensures var line := UsedLines(empty, costs, |costs.order|).at[k];
            && line.count == (if k in empty.at then empty.at[k].count else 0)
            && line.cost == (if k in costs.at then costs.at[k] else Cost(0, 0, 0.0))
            && AverageFits(line)
  {
    LineOf(empty, costs, k);
    var line := UsedLines(empty, costs, |costs.order|).at[k];
    if line.count > 0 { AverageTimesCount(line.count, line.cost.usd); }
  }

  lemma BreakdownIsConserving(stats: seq<StatRow>, groups: seq<UsageRow>, rows: seq<Joined>, xs: seq<StoredExtraction>,
                              w: Window, g: Grouping, prices: Prices)
    requires HasStats(g) && IsCounted(stats, xs, w, g) && IsGrouped(groups, rows, g)
    ensures IsDict(UsageCosts(groups, prices))
    ensures BreakdownConserves(Breakdown(stats, groups, prices), rows, xs, w, g, prices)
  {
    var costs, empty := UsageCosts(groups, prices), EmptyLines(stats);
    UsageCostsConserve(groups, rows, g, prices);
    EmptyLinesAreDict(stats);
    CountsConserve(stats, xs, w, g);
    CountsStay(empty, costs, |costs.order|, Sum(empty, CountOf));
    AmountsEntered(empty, costs, |costs.order|, LineInput, InputOf);
    AmountsEntered(empty, costs, |costs.order|, LineOutput, OutputOf);
    AmountsEntered(empty, costs, |costs.order|, LineUsd, UsdOf);
    var lines := Breakdown(stats, groups, prices);
    forall k | k in lines.at ensures LineConserves(lines.at[k], rows, xs, w, g, k, prices) {
      LineIsConserving(stats, groups, rows, xs, w, g, prices, k);
    }
  }

  /** The report that the loops build from the answers. */
  ghost predicate IsGenerated(r: Report, a: Answers, prices: Prices) {
    && IsDict(UsageCosts(a.docTypeUsage, prices)) && IsDict(UsageCosts(a.strategyUsage, prices))
    && r.byDocType == Breakdown(a.docTypeStats, a.docTypeUsage, prices)
    && r.byStrategy == Breakdown(a.strategyStats, a.strategyUsage, prices)
    && r.byModel == UsageCosts(a.modelUsage, prices)
    && r.byPurpose == UsageCosts(a.purposeUsage, prices)
    && r.total.input as real == Sum(UsageCosts(a.docTypeUsage, prices), InputOf)
    && r.total.output as real == Sum(UsageCosts(a.docTypeUsage, prices), OutputOf)
    && r.total.usd == Sum(UsageCosts(a.docTypeUsage, prices), UsdOf)
    && IsDict(EmptyLines(a.docTypeStats)) && r.extractions as real == Sum(EmptyLines(a.docTypeStats), CountOf)
  }

  method Generate(a: Answers, prices: Prices) returns (r: Report)
    ensures IsGenerated(r, a, prices)
  {
    var byDocType, total, extractions := BuildCostBreakdown(a.docTypeStats, a.docTypeUsage, prices);
    var byStrategy, _, _ := BuildCostBreakdown(a.strategyStats, a.strategyUsage, prices);
    var byModel := BuildUsageCosts(a.modelUsage, prices);
    var byPurpose := BuildUsageCosts(a.purposeUsage, prices);
    r := Report(byDocType, byStrategy, byModel, byPurpose, total, extractions);
  }

  /** All four breakdowns and the totals tell the same story about the ledger rows of the window, whatever order
      the database returns its groups in; both counted breakdowns account for every extraction of the window. */
  ghost predicate ReportConserves(r: Report, xs: seq<StoredExtraction>, usages: seq<StoredUsage>, w: Window,
                                  prices: Prices) {
    var rows := Join(usages, xs, w);
    && BreakdownConserves(r.byDocType, rows, xs, w, ByDocType, prices)
    && BreakdownConserves(r.byStrategy, rows, xs, w, ByStrategy, prices)
    && Conserves(r.byModel, rows, ByModel, prices)
    && Conserves(r.byPurpose, rows, ByPurpose, prices)
    && r.total.input as real == Total(rows, EveryRow, RowInput)
    && r.total.output as real == Total(rows, EveryRow, RowOutput)
    && r.total.usd == Total(rows, EveryRow, RowUsd(prices))
    && r.extractions as real == Total(xs, Recent(w), One)
  }

  lemma GeneratedConserves(a: Answers, prices: Prices, xs: seq<StoredExtraction>, usages: seq<StoredUsage>, w: Window,
                           r: Report)
    requires IsAnswered(a, xs, usages, w) && IsGenerated(r, a, prices)
    ensures ReportConserves(r, xs, usages, w, prices)
  {
    var rows := Join(usages, xs, w);
    BreakdownIsConserving(a.docTypeStats, a.docTypeUsage, rows, xs, w, ByDocType, prices);
    BreakdownIsConserving(a.strategyStats, a.strategyUsage, rows, xs, w, ByStrategy, prices);
    UsageCostsConserve(a.docTypeUsage, rows, ByDocType, prices);
    UsageCostsConserve(a.modelUsage, rows, ByModel, prices);
    UsageCostsConserve(a.purposeUsage, rows, ByPurpose, prices);
    CountsConserve(a.docTypeStats, xs, w, ByDocType);
  }
}
