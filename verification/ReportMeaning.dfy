/** What a cost report shows, said row by row: which ledger rows count for a line, and what each of them costs. */
module ReportMeaning {
  import opened CostReport
  import opened Dictionaries
  import opened Options

  // ---------- one ledger row ----------

  datatype Amount = InputTokens | OutputTokens | Dollars

  /** What a row adds to an amount: its tokens, or each of its tokens at the price of its own model, if that has one. */
  ghost function Worth(u: StoredUsage, a: Amount, prices: Prices): real {
    match a
    case InputTokens => u.row.tokens.input as real
    case OutputTokens => u.row.tokens.output as real
    case Dollars =>
      if u.row.model in prices
      then u.row.tokens.input as real * prices[u.row.model].input
           + u.row.tokens.output as real * prices[u.row.model].output
      else 0.0
  }

  ghost predicate IsWithin(w: Window, at: int) {
    && (match w.from case Some(first) => first <= at case None => true)
    && (match w.to case Some(last) => at <= last case None => true)
  }

  /** The row belongs to a line of the breakdown, given the extraction that it bills. */
  ghost predicate IsFor(u: StoredUsage, x: StoredExtraction, g: Grouping, key: string) {
    match g
    case ByDocType => x.docType == key
    case ByStrategy => x.strategy == key
    case ByModel => u.row.model == key
    case ByPurpose =>
      match u.row.purpose
      case Classifier => key == "classifier"
      case ForExtraction => key == "extraction"
  }

  /** The row bills this extraction, and it counts: for the line of a key, or for the total. */
  ghost predicate CountsFor(u: StoredUsage, x: StoredExtraction, w: Window, g: Grouping, key: Option<string>) {
    && u.isLinked && IsWithin(w, u.createdAt) && x.row.id == u.row.extraction
    && (key.Some? ==> IsFor(u, x, g, key.value))
  }

  ghost predicate Counts(u: StoredUsage, xs: seq<StoredExtraction>, w: Window, g: Grouping, key: Option<string>) {
    exists k :: 0 <= k < |xs| && CountsFor(u, xs[k], w, g, key)
  }

  /** The ledger rows that count, added up. */
  ghost function Spent(usages: seq<StoredUsage>, xs: seq<StoredExtraction>, w: Window, g: Grouping,
                       key: Option<string>, a: Amount, prices: Prices): real
  {
    if usages == [] then 0.0
    else
      var u := usages[|usages| - 1];
      Spent(usages[..|usages| - 1], xs, w, g, key, a, prices)
      + if Counts(u, xs, w, g, key) then Worth(u, a, prices) else 0.0
  }

  /** The extractions of the window that have the key, or all of them. */
  ghost function Number(xs: seq<StoredExtraction>, w: Window, g: Grouping, key: Option<string>): nat {
    if xs == [] then 0
    else
      var x := xs[|xs| - 1];
      var hasKey := key.None? || key.value == if g.ByDocType? then x.docType else x.strategy;
      Number(xs[..|xs| - 1], w, g, key) + if IsWithin(w, x.createdAt) && hasKey then 1 else 0
  }

  /** The id of an extraction is its primary key. */
  ghost predicate HaveDistinctIds(xs: seq<StoredExtraction>) {
    forall i, j :: 0 <= i < j < |xs| ==> xs[i].row.id != xs[j].row.id
  }

  // ---------- what the report shows ----------

  ghost predicate IsSpent(cost: Cost, usages: seq<StoredUsage>, xs: seq<StoredExtraction>, w: Window, g: Grouping,
                          key: Option<string>, prices: Prices)
  {
    && cost.input as real == Spent(usages, xs, w, g, key, InputTokens, prices)
    && cost.output as real == Spent(usages, xs, w, g, key, OutputTokens, prices)
    && cost.usd == Spent(usages, xs, w, g, key, Dollars, prices)
  }

  /** A key that some row counts for has a line. */
  ghost predicate HasLine(keys: set<string>, usages: seq<StoredUsage>, xs: seq<StoredExtraction>, w: Window,
                          g: Grouping, key: string)
  {
    (exists i :: 0 <= i < |usages| && Counts(usages[i], xs, w, g, Some(key))) ==> key in keys
  }

  /** The amounts of every key, where a key without a line has none. */
  ghost predicate TellsCosts(costs: Dict<Cost>, usages: seq<StoredUsage>, xs: seq<StoredExtraction>, w: Window,
                             g: Grouping, key: string, prices: Prices)
  {
    && (key in costs.at ==> IsSpent(costs.at[key], usages, xs, w, g, Some(key), prices))
    && HasLine(costs.at.Keys, usages, xs, w, g, key)
  }

  /** The same with the number of extractions, and what one of them costs on average. */
  ghost predicate TellsLines(lines: Dict<Line>, usages: seq<StoredUsage>, xs: seq<StoredExtraction>, w: Window,
                             g: Grouping, key: string, prices: Prices)
  {
    && (key in lines.at ==>
          var line := lines.at[key];
          && IsSpent(line.cost, usages, xs, w, g, Some(key), prices)
          && line.count == Number(xs, w, g, Some(key))
          && line.avgUsd == if line.count == 0 then 0.0 else line.cost.usd / line.count as real)
    && HasLine(lines.at.Keys, usages, xs, w, g, key)
  }

  /** The average duration of a line is that of its statistics, or zero. */
  ghost predicate TellsDurations(lines: Dict<Line>, stats: seq<StatRow>) {
    && (forall i :: 0 <= i < |stats| ==>
          && stats[i].key in lines.at
          && lines.at[stats[i].key].avgMs == match stats[i].avgMs case Some(ms) => ms case None => 0.0)
    && forall k :: k in lines.at && (forall i :: 0 <= i < |stats| ==> stats[i].key != k) ==> lines.at[k].avgMs == 0.0
  }

  /** The whole report. */
  ghost predicate Tells(r: Report, usages: seq<StoredUsage>, xs: seq<StoredExtraction>, w: Window, prices: Prices) {
    && IsSpent(r.total, usages, xs, w, ByDocType, None, prices)
    && r.extractions == Number(xs, w, ByDocType, None)
    && (forall key :: TellsLines(r.byDocType, usages, xs, w, ByDocType, key, prices))
    && (forall key :: TellsLines(r.byStrategy, usages, xs, w, ByStrategy, key, prices))
    && (forall key :: TellsCosts(r.byModel, usages, xs, w, ByModel, key, prices))
    && (forall key :: TellsCosts(r.byPurpose, usages, xs, w, ByPurpose, key, prices))
  }

  // ---------- the join keeps exactly the rows that count ----------

  lemma {:induction false} FindsFirst(xs: seq<StoredExtraction>, id: nat)
    ensures match FindExtraction(xs, id)
            case Some(x) => x.row.id == id && x in xs
            case None => forall x :: x in xs ==> x.row.id != id
  {
    if xs != [] { FindsFirst(xs[1..], id); }
  }

  /** The selection of joined rows that a line or the total stands for. */
  ghost function Selection(g: Grouping, key: Option<string>): Joined -> bool {
    if key.Some? then WithKey(g, key.value) else EveryRow
  }

  ghost function RowAmount(a: Amount, prices: Prices): Joined -> real {
    match a
    case InputTokens => RowInput
    case OutputTokens => RowOutput
    case Dollars => RowUsd(prices)
  }

  lemma RowIsWorth(u: StoredUsage, x: StoredExtraction, a: Amount, prices: Prices)
    ensures RowAmount(a, prices)(Joined(u, x)) == Worth(u, a, prices)
  {
  }

  lemma SelectedMeans(u: StoredUsage, x: StoredExtraction, g: Grouping, key: Option<string>)
    ensures Selection(g, key)(Joined(u, x)) <==> key.None? || IsFor(u, x, g, key.value)
  {
  }

  lemma RowCounts(u: StoredUsage, xs: seq<StoredExtraction>, w: Window, g: Grouping, key: Option<string>)
    requires HaveDistinctIds(xs)
    ensures Counts(u, xs, w, g, key) <==>
            && u.isLinked && InWindow(w, u.createdAt) && FindExtraction(xs, u.row.extraction).Some?
            && Selection(g, key)(Joined(u, FindExtraction(xs, u.row.extraction).value))
  {
    FindsFirst(xs, u.row.extraction);
    match FindExtraction(xs, u.row.extraction)
    case None =>
      forall k | 0 <= k < |xs| ensures !CountsFor(u, xs[k], w, g, key) { assert xs[k] in xs; }
    case Some(x) =>
      SelectedMeans(u, x, g, key);
      var i :| 0 <= i < |xs| && xs[i] == x;
      forall k | 0 <= k < |xs| && CountsFor(u, xs[k], w, g, key) ensures k == i {}
  }

  /** What one more ledger row adds to the join. */
  lemma JoinOneMore(usages: seq<StoredUsage>, xs: seq<StoredExtraction>, w: Window, sel: Joined -> bool,
                    v: Joined -> real)
    requires usages != []
    ensures var (u, found) := (usages[|usages| - 1], FindExtraction(xs, usages[|usages| - 1].row.extraction));
            var counts := u.isLinked && InWindow(w, u.createdAt) && found.Some? && sel(Joined(u, found.value));
            Total(Join(usages, xs, w), sel, v)
            == Total(Join(usages[..|usages| - 1], xs, w), sel, v) + if counts then v(Joined(u, found.value)) else 0.0
  {
    var u, rows := usages[|usages| - 1], Join(usages[..|usages| - 1], xs, w);
    var found := FindExtraction(xs, u.row.extraction);
    if u.isLinked && InWindow(w, u.createdAt) && found.Some? {
      assert (rows + [Joined(u, found.value)])[..|rows|] == rows;
    }
  }

  lemma {:induction false} JoinSpends(usages: seq<StoredUsage>, xs: seq<StoredExtraction>, w: Window, g: Grouping,
                                      key: Option<string>, a: Amount, prices: Prices)
    requires HaveDistinctIds(xs)
    ensures Total(Join(usages, xs, w), Selection(g, key), RowAmount(a, prices))
         == Spent(usages, xs, w, g, key, a, prices)
  {
    if usages != [] {
      JoinSpends(usages[..|usages| - 1], xs, w, g, key, a, prices);
      SpendsOneMore(usages, xs, w, g, key, a, prices);
    }
  }

  lemma SpendsOneMore(usages: seq<StoredUsage>, xs: seq<StoredExtraction>, w: Window, g: Grouping,
                      key: Option<string>, a: Amount, prices: Prices)
    requires HaveDistinctIds(xs) && usages != []
    ensures var front := usages[..|usages| - 1];
            Total(Join(usages, xs, w), Selection(g, key), RowAmount(a, prices))
            - Total(Join(front, xs, w), Selection(g, key), RowAmount(a, prices))
            == Spent(usages, xs, w, g, key, a, prices) - Spent(front, xs, w, g, key, a, prices)
  {
    var u := usages[|usages| - 1];
    var counts, worth := Counts(u, xs, w, g, key), Worth(u, a, prices);
    JoinOneMore(usages, xs, w, Selection(g, key), RowAmount(a, prices));
    RowCounts(u, xs, w, g, key);
    if counts { RowIsWorth(u, FindExtraction(xs, u.row.extraction).value, a, prices); }
  }

  lemma {:induction false} JoinHasRow(usages: seq<StoredUsage>, xs: seq<StoredExtraction>, w: Window, i: nat)
    requires i < |usages| && usages[i].isLinked && InWindow(w, usages[i].createdAt)
    requires FindExtraction(xs, usages[i].row.extraction).Some?
    ensures Joined(usages[i], FindExtraction(xs, usages[i].row.extraction).value) in Join(usages, xs, w)
  {
    if i < |usages| - 1 { JoinHasRow(usages[..|usages| - 1], xs, w, i); }
  }

  lemma {:induction false} TotalIsNumber(xs: seq<StoredExtraction>, w: Window)
    ensures Total(xs, Recent(w), One) == Number(xs, w, ByDocType, None) as real
  {
    if xs != [] { TotalIsNumber(xs[..|xs| - 1], w); }
  }

  lemma {:induction false} KeyTotalIsNumber(xs: seq<StoredExtraction>, w: Window, g: Grouping, key: string)
    requires HasStats(g)
    ensures Total(xs, RecentWithKey(w, g, key), One) == Number(xs, w, g, Some(key)) as real
  {
    if xs != [] { KeyTotalIsNumber(xs[..|xs| - 1], w, g, key); }
  }

  // ---------- the lines ----------

  lemma CountedRowsHaveLines(keys: set<string>, usages: seq<StoredUsage>, xs: seq<StoredExtraction>, w: Window,
                             g: Grouping, key: string)
    requires HaveDistinctIds(xs) && forall j :: j in Join(usages, xs, w) ==> KeyOf(j, g) in keys
    ensures HasLine(keys, usages, xs, w, g, key)
  {
    if i :| 0 <= i < |usages| && Counts(usages[i], xs, w, g, Some(key)) {
      RowCounts(usages[i], xs, w, g, Some(key));
      JoinHasRow(usages, xs, w, i);
      assert KeyOf(Joined(usages[i], FindExtraction(xs, usages[i].row.extraction).value), g) == key;
    }
  }

  lemma SpentIs(cost: Cost, usages: seq<StoredUsage>, xs: seq<StoredExtraction>, w: Window, g: Grouping,
                key: Option<string>, prices: Prices)
    requires HaveDistinctIds(xs)
    requires var (rows, sel) := (Join(usages, xs, w), Selection(g, key));
             && cost.input as real == Total(rows, sel, RowInput) && cost.output as real == Total(rows, sel, RowOutput)
             && cost.usd == Total(rows, sel, RowUsd(prices))
    ensures IsSpent(cost, usages, xs, w, g, key, prices)
  {
    JoinSpends(usages, xs, w, g, key, InputTokens, prices);
    JoinSpends(usages, xs, w, g, key, OutputTokens, prices);
    JoinSpends(usages, xs, w, g, key, Dollars, prices);
  }

  lemma CostsTell(costs: Dict<Cost>, usages: seq<StoredUsage>, xs: seq<StoredExtraction>, w: Window, g: Grouping,
                  key: string, prices: Prices)
    requires HaveDistinctIds(xs) && Conserves(costs, Join(usages, xs, w), g, prices)
    ensures TellsCosts(costs, usages, xs, w, g, key, prices)
  {
    CountedRowsHaveLines(costs.at.Keys, usages, xs, w, g, key);
    if key in costs.at {
      var c, rows := costs.at[key], Join(usages, xs, w);
      assert InputOf(c) == Total(rows, WithKey(g, key), RowInput);
      assert OutputOf(c) == Total(rows, WithKey(g, key), RowOutput);
      assert UsdOf(c) == Total(rows, WithKey(g, key), RowUsd(prices));
      SpentIs(c, usages, xs, w, g, Some(key), prices);
    }
  }

  lemma LinesTell(lines: Dict<Line>, usages: seq<StoredUsage>, xs: seq<StoredExtraction>, w: Window, g: Grouping,
                  key: string, prices: Prices)
    requires HasStats(g) && HaveDistinctIds(xs) && BreakdownConserves(lines, Join(usages, xs, w), xs, w, g, prices)
    requires forall j :: j in Join(usages, xs, w) ==> KeyOf(j, g) in lines.at
    ensures TellsLines(lines, usages, xs, w, g, key, prices)
  {
    CountedRowsHaveLines(lines.at.Keys, usages, xs, w, g, key);
    if key in lines.at {
      assert LineConserves(lines.at[key], Join(usages, xs, w), xs, w, g, key, prices);
      SpentIs(lines.at[key].cost, usages, xs, w, g, Some(key), prices);
      KeyTotalIsNumber(xs, w, g, key);
      AverageIs(lines.at[key]);
    }
  }

  lemma AverageIs(l: Line)
    requires AverageFits(l)
    ensures l.avgUsd == if l.count == 0 then 0.0 else l.cost.usd / l.count as real
  {
  }

  // ---------- what only the answers say ----------

  lemma RowsHaveLines(stats: seq<StatRow>, groups: seq<UsageRow>, rows: seq<Joined>, g: Grouping, prices: Prices)
    requires IsGrouped(groups, rows, g) && IsDict(UsageCosts(groups, prices))
    ensures forall j :: j in rows ==> KeyOf(j, g) in Breakdown(stats, groups, prices).at
  {
    UsageCostsConserve(groups, rows, g, prices);
    forall j | j in rows ensures KeyOf(j, g) in Breakdown(stats, groups, prices).at {
      LineOf(EmptyLines(stats), UsageCosts(groups, prices), KeyOf(j, g));
    }
  }

  lemma DurationIsKept(stats: seq<StatRow>, groups: seq<UsageRow>, prices: Prices, k: string)
    requires IsDict(UsageCosts(groups, prices)) && k in Breakdown(stats, groups, prices).at
    ensures var empty := EmptyLines(stats);
            Breakdown(stats, groups, prices).at[k].avgMs == if k in empty.at then empty.at[k].avgMs else 0.0
  {
    LineOf(EmptyLines(stats), UsageCosts(groups, prices), k);
  }

  lemma DurationsTell(stats: seq<StatRow>, groups: seq<UsageRow>, prices: Prices)
    requires IsDict(UsageCosts(groups, prices))
    requires forall i, j :: 0 <= i < j < |stats| ==> stats[i].key != stats[j].key
    ensures TellsDurations(Breakdown(stats, groups, prices), stats)
  {
    var lines, empty := Breakdown(stats, groups, prices), EmptyLines(stats);
    EmptyLinesAreDict(stats);
    forall i | 0 <= i < |stats|
      ensures stats[i].key in lines.at
      ensures lines.at[stats[i].key].avgMs == match stats[i].avgMs case Some(ms) => ms case None => 0.0
    {
      assert stats[..|stats|] == stats;
      StatLine(stats, |stats|, i);
      LineOf(empty, UsageCosts(groups, prices), stats[i].key);
      DurationIsKept(stats, groups, prices, stats[i].key);
    }
    forall k | k in lines.at && (forall i :: 0 <= i < |stats| ==> stats[i].key != k) ensures lines.at[k].avgMs == 0.0 {
      DurationIsKept(stats, groups, prices, k);
    }
  }

  // ---------- the report ----------

  /** Every line, and the totals. */
  lemma ReportTells(r: Report, a: Answers, xs: seq<StoredExtraction>, usages: seq<StoredUsage>, w: Window,
                    prices: Prices)
    requires IsAnswered(a, xs, usages, w) && HaveDistinctIds(xs)
    requires IsGenerated(r, a, prices) && ReportConserves(r, xs, usages, w, prices)
    ensures Tells(r, usages, xs, w, prices)
  {
    var rows := Join(usages, xs, w);
    SpentIs(r.total, usages, xs, w, ByDocType, None, prices);
    TotalIsNumber(xs, w);
    RowsHaveLines(a.docTypeStats, a.docTypeUsage, rows, ByDocType, prices);
    RowsHaveLines(a.strategyStats, a.strategyUsage, rows, ByStrategy, prices);
    forall key ensures TellsLines(r.byDocType, usages, xs, w, ByDocType, key, prices) {
      LinesTell(r.byDocType, usages, xs, w, ByDocType, key, prices);
    }
    forall key ensures TellsLines(r.byStrategy, usages, xs, w, ByStrategy, key, prices) {
      LinesTell(r.byStrategy, usages, xs, w, ByStrategy, key, prices);
    }
    forall key ensures TellsCosts(r.byModel, usages, xs, w, ByModel, key, prices) {
      CostsTell(r.byModel, usages, xs, w, ByModel, key, prices);
    }
    forall key ensures TellsCosts(r.byPurpose, usages, xs, w, ByPurpose, key, prices) {
      CostsTell(r.byPurpose, usages, xs, w, ByPurpose, key, prices);
    }
  }

  /** `CostReportService.generate`, on whatever the database answers. */
  method GenerateReport(a: Answers, prices: Prices, ghost xs: seq<StoredExtraction>, ghost usages: seq<StoredUsage>,
                        ghost w: Window)
    returns (r: Report)
    requires IsAnswered(a, xs, usages, w) && HaveDistinctIds(xs)
    ensures Tells(r, usages, xs, w, prices) && ReportConserves(r, xs, usages, w, prices)
    ensures TellsDurations(r.byDocType, a.docTypeStats) && TellsDurations(r.byStrategy, a.strategyStats)
  {
    r := Generate(a, prices);
    GeneratedConserves(a, prices, xs, usages, w, r);
    ReportTells(r, a, xs, usages, w, prices);
    DurationsTell(a.docTypeStats, a.docTypeUsage, prices);
    DurationsTell(a.strategyStats, a.strategyUsage, prices);
  }
}
