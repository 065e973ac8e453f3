/** Two nested loops call the language model: retries inside one extraction, and extractions over the
    pages of a document. No token that a call reported may get lost, on success or on failure. */
module TokenAccounting {
  import opened LlmTokens
  import opened Options
  import opened PageMerge

  /** One call of the model: it raises, it returns nothing, or it returns an answer with its token counts;
      an answer without arguments is prose instead of a tool call. */
  datatype Outcome =
    | ClientError
    | Nothing
    | Answer(arguments: Option<Output>, input: nat, output: nat)

  /** What the provider does on its n-th call. */
  type Script = nat -> Outcome

  function Reported(o: Outcome): Tokens {
    match o
    case Answer(_, input, output) => Tokens(input, output)
    case _ => Tokens(0, 0)
  }

  /** The tokens of the calls `from..to`. */
  ghost function Spent(script: Script, from: nat, to: nat): Tokens
    requires from <= to
  {
    if from == to then Tokens(0, 0) else Spent(script, from, to - 1).Plus(Reported(script(to - 1)))
  }

  lemma {:induction false} SpentSplits(script: Script, from: nat, mid: nat, to: nat)
    requires from <= mid <= to
    ensures Spent(script, from, to) == Spent(script, from, mid).Plus(Spent(script, mid, to))
  {
    if mid < to { SpentSplits(script, from, mid, to - 1); }
  }

  // ---------- one extraction ----------

  datatype Extraction =
    | Extracted(arguments: Output, tokens: Tokens)
    | Raised(attempts: nat, tokens: Tokens)

  predicate IsToolCall(o: Outcome) {
    o.Answer? && o.arguments.Some?
  }

  /** The call neither raised nor called the tool, so it is tried again. */
  predicate IsRetried(o: Outcome) {
    !o.ClientError? && !IsToolCall(o)
  }

  function Budget(maxRetries: int): nat {
    if maxRetries < 0 then 0 else maxRetries + 1
  }

  /** How many calls an extraction makes that starts with call number `start`. */
  ghost function CallCount(script: Script, start: nat, budget: nat): (n: nat)
    ensures n <= budget
    decreases budget
  {
    if budget == 0 then 0
    else if IsRetried(script(start)) then 1 + CallCount(script, start + 1, budget - 1)
    else 1
  }

  ghost function ExtractionOutcome(script: Script, start: nat, budget: nat): Extraction {
    var n := CallCount(script, start, budget);
    var tokens := Spent(script, start, start + n);
    if n > 0 && IsToolCall(script(start + n - 1))
    then Extracted(script(start + n - 1).arguments.value, tokens)
    else Raised(n, tokens)
  }

  /** The calls are retried ones up to the last, and the last one is a tool call, an error, or the one that
      exhausts the budget. */
  lemma {:induction false} CallsMean(script: Script, start: nat, budget: nat)
    ensures var n := CallCount(script, start, budget);
            && (forall k :: start <= k < start + n - 1 ==> IsRetried(script(k)))
            && (n < budget ==> n > 0 && !IsRetried(script(start + n - 1)))
            && (budget > 0 ==> n > 0)
    decreases budget
  {
    if budget > 0 && IsRetried(script(start)) {
      CallsMean(script, start + 1, budget - 1);
    }
  }

  /** After `made` retried calls of the budget. */
  ghost predicate HasMade(script: Script, start: nat, budget: nat, made: nat, tokens: Tokens) {
    && made <= budget && tokens == Spent(script, start, start + made)
    && CallCount(script, start, budget) == made + CallCount(script, start + made, budget - made)
    && (made > 0 ==> IsRetried(script(start + made - 1)))
  }

  lemma OneCall(script: Script, start: nat, budget: nat, made: nat, tokens: Tokens)
    requires made < budget && HasMade(script, start, budget, made, tokens)
    ensures var o := script(start + made);
            var spent := tokens.Plus(Reported(o));
            && (IsRetried(o) ==> HasMade(script, start, budget, made + 1, spent))
            && (!IsRetried(o) ==> CallCount(script, start, budget) == made + 1)
            && (o.ClientError? ==> ExtractionOutcome(script, start, budget) == Raised(made + 1, spent))
            && (IsToolCall(o) ==> ExtractionOutcome(script, start, budget) == Extracted(o.arguments.value, spent))
  {
    if !IsRetried(script(start + made)) {
      var n := CallCount(script, start, budget);
      assert n == made + 1 && script(start + n - 1) == script(start + made);
      assert Spent(script, start, start + n) == tokens.Plus(Reported(script(start + made)));
    }
  }

  lemma NoMoreCalls(script: Script, start: nat, budget: nat, tokens: Tokens)
    requires HasMade(script, start, budget, budget, tokens)
    ensures CallCount(script, start, budget) == budget
            && ExtractionOutcome(script, start, budget) == Raised(budget, tokens)
  {
  }

  /** The provider answered without raising and without calling the tool. */
  predicate IsProse(o: Outcome) {
    o.Nothing? || (o.Answer? && o.arguments.None?)
  }

  /** An extraction makes `n` calls: it goes on as long as it gets prose, at most `maxRetries` times more after the
      first call; with a negative limit it makes none. */
  ghost predicate MakesCalls(script: Script, start: nat, maxRetries: int, n: nat) {
    if maxRetries < 0 then n == 0
    else
      && 1 <= n <= maxRetries + 1 && (forall k :: start <= k < start + n - 1 ==> IsProse(script(k)))
      && (n <= maxRetries ==> !IsProse(script(start + n - 1)))
  }

  lemma CallsAreMade(script: Script, start: nat, maxRetries: int)
    ensures MakesCalls(script, start, maxRetries, CallCount(script, start, Budget(maxRetries)))
  {
    CallsMean(script, start, Budget(maxRetries));
  }

  /** A run of prose uses up all calls. */
  lemma ProseUsesAllCalls(script: Script, start: nat, maxRetries: int)
    requires maxRetries >= 0 && forall k :: start <= k < start + maxRetries + 1 ==> IsProse(script(k))
    ensures CallCount(script, start, Budget(maxRetries)) == maxRetries + 1
    ensures ExtractionOutcome(script, start, Budget(maxRetries)).Raised?
  {
    CallsMean(script, start, Budget(maxRetries));
  }

  // The tokens of the calls, written out.

  ghost function InputSum(script: Script, from: nat, to: nat): nat
    requires from <= to
  {
    if from == to then 0
    else InputSum(script, from, to - 1) + if script(to - 1).Answer? then script(to - 1).input else 0
  }

  ghost function OutputSum(script: Script, from: nat, to: nat): nat
    requires from <= to
  {
    if from == to then 0
    else OutputSum(script, from, to - 1) + if script(to - 1).Answer? then script(to - 1).output else 0
  }

  lemma {:induction false} SpentMeans(script: Script, from: nat, to: nat)
    requires from <= to
    ensures Spent(script, from, to) == Tokens(InputSum(script, from, to), OutputSum(script, from, to))
  {
    if from < to { SpentMeans(script, from, to - 1); }
  }

  /** What an extraction gives: the arguments of its last call, if that called the tool, or an error with the number of
      calls. */
  lemma OutcomeMeans(script: Script, start: nat, budget: nat)
    ensures var (n, r) := (CallCount(script, start, budget), ExtractionOutcome(script, start, budget));
            if n == 0 then r == Raised(0, Tokens(0, 0))
            else
              var last := script(start + n - 1);
              && (r.Extracted? <==> last.Answer? && last.arguments.Some?)
              && (r.Extracted? ==> r.arguments == last.arguments.value) && (r.Raised? ==> r.attempts == n)
  {
  }

  lemma OutcomeTokens(script: Script, start: nat, budget: nat, to: nat)
    requires to == start + CallCount(script, start, budget)
    ensures ExtractionOutcome(script, start, budget).tokens == Spent(script, start, to)
  {
  }

  /** In both cases it carries the tokens of all calls. */
  lemma OutcomeSpends(script: Script, start: nat, budget: nat, to: nat)
    requires to == start + CallCount(script, start, budget)
    ensures ExtractionOutcome(script, start, budget).tokens
         == Tokens(InputSum(script, start, to), OutputSum(script, start, to))
  {
    OutcomeTokens(script, start, budget, to);
    SpentMeans(script, start, to);
  }

  method Extract(script: Script, start: nat, maxRetries: int) returns (r: Extraction, next: nat)
    ensures next == start + CallCount(script, start, Budget(maxRetries))
    ensures r == ExtractionOutcome(script, start, Budget(maxRetries))
    ensures start <= next <= start + if maxRetries < 0 then 0 else maxRetries + 1
  {
    ghost var budget := Budget(maxRetries);
    var tokens := Tokens(0, 0);
    var attempts := 0;
    next := start;
    while attempts <= maxRetries
      invariant 0 <= attempts <= budget && next == start + attempts
      invariant HasMade(script, start, budget, attempts, tokens)
      decreases maxRetries + 1 - attempts
    {
      OneCall(script, start, budget, attempts, tokens);
      ghost var spent := tokens.Plus(Reported(script(next)));
      attempts := attempts + 1;
      var result := script(next);
      next := next + 1;
      if result.ClientError? {
        assert tokens == spent;
        return Raised(attempts, tokens), next;
      }
      if result.Nothing? || result.arguments.None? {
        if !result.Nothing? {
          tokens := tokens.Plus(Tokens(result.input, result.output));
        }
        assert tokens == spent;
        if attempts <= maxRetries {
          continue;
        }
        break;
      }
      tokens := tokens.Plus(Tokens(result.input, result.output));
      assert tokens == spent;
      return Extracted(result.arguments.value, tokens), next;
    }
    NoMoreCalls(script, start, budget, tokens);
    r := Raised(attempts, tokens);
  }

  /** Only the last call can be a tool call. */
  lemma ToolCallIsLast(script: Script, start: nat, budget: nat)
    ensures var n := CallCount(script, start, budget);
            (exists k :: start <= k < start + n && IsToolCall(script(k))) <==>
            n > 0 && IsToolCall(script(start + n - 1))
  {
    CallsMean(script, start, budget);
    var n := CallCount(script, start, budget);
    forall k | start <= k < start + n - 1 ensures !IsToolCall(script(k)) {
      assert IsRetried(script(k));
    }
  }

  /** An extraction succeeds exactly when one of its calls is a tool call; it raises early only for a client error. */
  lemma ExtractionSucceeds(script: Script, start: nat, budget: nat)
    ensures var n := CallCount(script, start, budget);
            ExtractionOutcome(script, start, budget).Extracted? <==>
            exists k :: start <= k < start + n && IsToolCall(script(k))
    ensures var (n, r) := (CallCount(script, start, budget), ExtractionOutcome(script, start, budget));
            r.Raised? ==> r.attempts == n && (n < budget ==> script(start + n - 1).ClientError?)
  {
    ToolCallIsLast(script, start, budget);
    var n := CallCount(script, start, budget);
    if n < budget {
      CallsMean(script, start, budget);
      assert !IsRetried(script(start + n - 1));
    }
  }

  // ---------- all pages ----------

  predicate IsBlank(text: string) {
    Strip(text) == ""
  }

  predicate HasUsefulExtraction(output: Output) {
    exists f :: f in output && IsUseful(output[f])
  }

  /** The loop's variables; `next` is the number of calls made so far. */
  datatype Progress = Progress(next: nat, tokens: Tokens, warnings: seq<nat>, useful: seq<Page>)

  /** One round of the loop over pages. */
  ghost function Advance(p: Progress, text: string, page: nat, script: Script, budget: nat): Progress {
    if IsBlank(text) then p
    else
      var next := p.next + CallCount(script, p.next, budget);
      match ExtractionOutcome(script, p.next, budget)
      case Raised(_, tokens) => Progress(next, p.tokens.Plus(tokens), p.warnings + [page], p.useful)
      case Extracted(output, tokens) =>
        Progress(next, p.tokens.Plus(tokens), p.warnings,
                 if HasUsefulExtraction(output) then p.useful + [Page(output, page)] else p.useful)
  }

  ghost function After(texts: seq<string>, script: Script, budget: nat, i: nat): Progress
    requires i <= |texts|
  {
    if i == 0 then Progress(0, Tokens(0, 0), [], [])
    else Advance(After(texts, script, budget, i - 1), texts[i - 1], i - 1, script, budget)
  }

  datatype PageResult =
    | Record(fields: map<string, Entry>, sourcePages: seq<nat>, tokens: Tokens, warnings: seq<nat>)
    | AllPagesFailed(attempts: nat, tokens: Tokens)

  ghost predicate IsAscendingSeq(s: seq<nat>) {
    forall i, j :: 0 <= i < j < |s| ==> s[i] < s[j]
  }

  /** `sorted` on a set of page numbers below `limit`. */
  method SortedPages(pages: set<nat>, limit: nat) returns (r: seq<nat>)
    requires forall p :: p in pages ==> p < limit
    ensures IsAscendingSeq(r) && forall p :: p in r <==> p in pages
  {
    r := [];
    for p := 0 to limit
      invariant IsAscendingSeq(r) && forall k :: 0 <= k < |r| ==> r[k] < p
      invariant forall q :: q in r <==> q in pages && q < p
    {
      if p in pages { r := r + [p]; }
    }
  }

  /** The source pages of all fields together. */
  function AllPages(fields: map<string, Entry>): set<nat> {
    set f, p | f in fields && fields[f].Merged? && p in fields[f].pages :: p
  }

  // ---------- page by page ----------

  /** The call with which page `i` starts, unless it is blank. */
  ghost function TurnOf(texts: seq<string>, script: Script, budget: nat, i: nat): nat
    requires i <= |texts|
  {
    if i == 0 then 0
    else
      var turn := TurnOf(texts, script, budget, i - 1);
      turn + if HasInk(texts[i - 1]) then CallCount(script, turn, budget) else 0
  }

  /** Some character is no white space. */
  ghost predicate HasInk(text: string) {
    exists k :: 0 <= k < |text| && !IsSpace(text[k])
  }

  /** The page is read, and its extraction raises. */
  ghost predicate FailsOn(texts: seq<string>, script: Script, budget: nat, i: nat) {
    i < |texts| && HasInk(texts[i]) && ExtractionOutcome(script, TurnOf(texts, script, budget, i), budget).Raised?
  }

  /** The page is read, and its extraction gives these arguments, some value of which is useful. */
  ghost predicate Gives(texts: seq<string>, script: Script, budget: nat, i: nat, output: Output) {
    && i < |texts| && HasInk(texts[i])
    && var x := ExtractionOutcome(script, TurnOf(texts, script, budget, i), budget);
    && x.Extracted? && x.arguments == output && exists f :: f in output && IsUseful(output[f])
  }

  ghost predicate IsListed(useful: seq<Page>, i: nat, output: Output) {
    exists k :: 0 <= k < |useful| && useful[k] == Page(output, i)
  }

  /** In page order, exactly the pages that give something useful, each with what it gives. */
  ghost predicate AreUsefulPages(texts: seq<string>, script: Script, budget: nat, useful: seq<Page>) {
    && (forall k, l :: 0 <= k < l < |useful| ==> useful[k].index < useful[l].index)
    && forall i: nat, output :: IsListed(useful, i, output) <==> Gives(texts, script, budget, i, output)
  }

  /** How many of the first `n` pages fail. */
  ghost function Failures(texts: seq<string>, script: Script, budget: nat, n: nat): nat
    requires n <= |texts|
  {
    if n == 0 then 0
    else Failures(texts, script, budget, n - 1) + if FailsOn(texts, script, budget, n - 1) then 1 else 0
  }

  lemma BlankMeans(text: string)
    ensures IsBlank(text) <==> !HasInk(text)
  {
    StripsToNothing(text);
  }

  lemma {:induction false} TurnIsNext(texts: seq<string>, script: Script, budget: nat, i: nat)
    requires i <= |texts|
    ensures After(texts, script, budget, i).next == TurnOf(texts, script, budget, i)
  {
    if i > 0 {
      TurnIsNext(texts, script, budget, i - 1);
      BlankMeans(texts[i - 1]);
    }
  }

  /** What the loop has after `n` pages about page `i`. */
  ghost predicate TellsPage(texts: seq<string>, script: Script, budget: nat, p: Progress, i: nat) {
    && (i in p.warnings <==> FailsOn(texts, script, budget, i))
    && forall output :: IsListed(p.useful, i, output) <==> Gives(texts, script, budget, i, output)
  }

  lemma AppendListed(useful: seq<Page>, page: Page, i: nat, output: Output)
    ensures IsListed(useful + [page], i, output) <==> IsListed(useful, i, output) || page == Page(output, i)
  {
    var more := useful + [page];
    assert more[|useful|] == page;
    if k :| 0 <= k < |useful| && useful[k] == Page(output, i) { assert more[k] == useful[k]; }
  }

  lemma AdvanceTellsPage(texts: seq<string>, script: Script, budget: nat, n: nat)
    requires n < |texts|
    ensures TellsPage(texts, script, budget, After(texts, script, budget, n + 1), n)
  {
    var p, q := After(texts, script, budget, n), After(texts, script, budget, n + 1);
    TurnIsNext(texts, script, budget, n);
    BlankMeans(texts[n]);
    PagesAreOrdered(texts, script, budget, n);
    assert q == Advance(p, texts[n], n, script, budget);
    forall output ensures IsListed(q.useful, n, output) <==> Gives(texts, script, budget, n, output) {
      assert !IsListed(p.useful, n, output);
      if q.useful != p.useful { AppendListed(p.useful, q.useful[|p.useful|], n, output); }
    }
  }

  lemma AdvanceKeepsTelling(texts: seq<string>, script: Script, budget: nat, n: nat, i: nat)
    requires i < n < |texts| && TellsPage(texts, script, budget, After(texts, script, budget, n), i)
    ensures TellsPage(texts, script, budget, After(texts, script, budget, n + 1), i)
  {
    var p, q := After(texts, script, budget, n), After(texts, script, budget, n + 1);
    assert q == Advance(p, texts[n], n, script, budget);
    forall output ensures IsListed(q.useful, i, output) <==> IsListed(p.useful, i, output) {
      if q.useful != p.useful { AppendListed(p.useful, q.useful[|p.useful|], i, output); }
    }
  }

  /** Whatever the other pages do: a page is listed as useful, with exactly the arguments of its tool call, if and only
      if it is not blank, its extraction succeeds and some value is useful; it is warned of if and only if it is not
      blank and its extraction raises. */
  lemma {:induction false} PageMeans(texts: seq<string>, script: Script, budget: nat, n: nat, i: nat)
    requires i < n <= |texts|
    ensures TellsPage(texts, script, budget, After(texts, script, budget, n), i)
  {
    if i == n - 1 {
      AdvanceTellsPage(texts, script, budget, i);
    } else {
      PageMeans(texts, script, budget, n - 1, i);
      AdvanceKeepsTelling(texts, script, budget, n - 1, i);
    }
  }

  lemma UsefulPagesAre(texts: seq<string>, script: Script, budget: nat)
    ensures AreUsefulPages(texts, script, budget, After(texts, script, budget, |texts|).useful)
  {
    var useful := After(texts, script, budget, |texts|).useful;
    PagesAreOrdered(texts, script, budget, |texts|);
    forall i: nat, output ensures IsListed(useful, i, output) <==> Gives(texts, script, budget, i, output) {
      if i < |texts| { PageMeans(texts, script, budget, |texts|, i); }
    }
  }

  lemma WarningsAre(texts: seq<string>, script: Script, budget: nat, i: nat)
    ensures i in After(texts, script, budget, |texts|).warnings <==> FailsOn(texts, script, budget, i)
  {
    PagesAreOrdered(texts, script, budget, |texts|);
    if i < |texts| { PageMeans(texts, script, budget, |texts|, i); }
  }

  lemma {:induction false} FailuresAreCounted(texts: seq<string>, script: Script, budget: nat, n: nat)
    requires n <= |texts|
    ensures |After(texts, script, budget, n).warnings| == Failures(texts, script, budget, n)
  {
    if n > 0 {
      FailuresAreCounted(texts, script, budget, n - 1);
      TurnIsNext(texts, script, budget, n - 1);
      BlankMeans(texts[n - 1]);
    }
  }

  /** All pages that were read failed, or gave nothing useful, and at least one failed. */
  ghost predicate AllFail(texts: seq<string>, script: Script, budget: nat) {
    && (exists i: nat :: FailsOn(texts, script, budget, i))
    && forall i: nat, output :: !Gives(texts, script, budget, i, output)
  }

  lemma RaisesWhenAllFail(texts: seq<string>, script: Script, budget: nat)
    ensures var p := After(texts, script, budget, |texts|);
            p.warnings != [] && p.useful == [] <==> AllFail(texts, script, budget)
  {
    var p := After(texts, script, budget, |texts|);
    UsefulPagesAre(texts, script, budget);
    if p.warnings != [] {
      WarningsAre(texts, script, budget, p.warnings[0]);
    }
    if i: nat :| FailsOn(texts, script, budget, i) { WarningsAre(texts, script, budget, i); }
    if p.useful != [] {
      assert IsListed(p.useful, p.useful[0].index, p.useful[0].output);
    }
  }

  method ExtractPageByPage(texts: seq<string>, schema: set<string>, script: Script, maxRetries: int)
    returns (r: PageResult, calls: nat)
    ensures var p := After(texts, script, Budget(maxRetries), |texts|);
            && calls == p.next && r.tokens == p.tokens
            && (if p.warnings != [] && p.useful == [] then r == AllPagesFailed(|p.warnings|, p.tokens)
                else && r.Record? && r.fields == MergePages(p.useful, schema) && r.warnings == p.warnings
                     && IsAscendingSeq(r.sourcePages)
                     && forall q :: q in r.sourcePages <==> q in AllPages(r.fields))
    ensures r.AllPagesFailed? <==> AllFail(texts, script, Budget(maxRetries))
    ensures r.AllPagesFailed? ==> r.attempts == Failures(texts, script, Budget(maxRetries), |texts|)
    ensures r.Record? ==>
              && (forall i: nat :: i in r.warnings <==> FailsOn(texts, script, Budget(maxRetries), i))
              && exists useful :: AreUsefulPages(texts, script, Budget(maxRetries), useful)
                                  && r.fields == MergePages(useful, schema)
  {
    var useful: seq<Page>, warnings: seq<nat>, tokens := [], [], Tokens(0, 0);
    calls := 0;
    var failures := 0;
    for i := 0 to |texts|
      invariant Progress(calls, tokens, warnings, useful) == After(texts, script, Budget(maxRetries), i)
      invariant failures == |warnings|
    {
      ghost var p := Progress(calls, tokens, warnings, useful);
      assert After(texts, script, Budget(maxRetries), i + 1) == Advance(p, texts[i], i, script, Budget(maxRetries));
      if !IsBlank(texts[i]) {
        var x;
        x, calls := Extract(script, calls, maxRetries);
        tokens := tokens.Plus(x.tokens);
        if x.Raised? {
          failures := failures + 1;
          warnings := warnings + [i];
        } else if HasUsefulExtraction(x.arguments) {
          useful := useful + [Page(x.arguments, i)];
        }
      }
    }
    UsefulPagesAre(texts, script, Budget(maxRetries));
    RaisesWhenAllFail(texts, script, Budget(maxRetries));
    FailuresAreCounted(texts, script, Budget(maxRetries), |texts|);
    forall i: nat ensures i in warnings <==> FailsOn(texts, script, Budget(maxRetries), i) {
      WarningsAre(texts, script, Budget(maxRetries), i);
    }
    if failures > 0 && useful == [] {
      return AllPagesFailed(failures, tokens), calls;
    }
    var fields := MergePages(useful, schema);
    SourcePagesExist(texts, script, Budget(maxRetries), schema);
    var sourcePages := SortedPages(AllPages(fields), |texts|);
    r := Record(fields, sourcePages, tokens, warnings);
  }

  // ---------- conservation over all pages ----------

  function NonBlank(texts: seq<string>, i: nat): nat
    requires i <= |texts|
  {
    if i == 0 then 0 else NonBlank(texts, i - 1) + if IsBlank(texts[i - 1]) then 0 else 1
  }

  /** A budget for every page that is not blank. */
  function Allowed(texts: seq<string>, budget: nat, i: nat): nat
    requires i <= |texts|
  {
    if i == 0 then 0 else Allowed(texts, budget, i - 1) + if IsBlank(texts[i - 1]) then 0 else budget
  }

  lemma {:induction false} AllowedIsProduct(texts: seq<string>, budget: nat, i: nat)
    requires i <= |texts|
    ensures Allowed(texts, budget, i) == budget * NonBlank(texts, i)
  {
    if i > 0 {
      AllowedIsProduct(texts, budget, i - 1);
      MultiplyByOneMore(budget, NonBlank(texts, i - 1));
    }
  }

  /** The tokens are those of the calls made, of which there are not too many. */
  ghost predicate HasSpent(p: Progress, script: Script, allowed: nat) {
    p.tokens == Spent(script, 0, p.next) && p.next <= allowed
  }

  lemma {:induction false} TotalsAreSpent(texts: seq<string>, script: Script, budget: nat, i: nat)
    requires i <= |texts|
    ensures HasSpent(After(texts, script, budget, i), script, Allowed(texts, budget, i))
  {
    if i > 0 {
      var before, allowed := After(texts, script, budget, i - 1), Allowed(texts, budget, i - 1);
      assert HasSpent(before, script, allowed) by { TotalsAreSpent(texts, script, budget, i - 1); }
      AfterIsAdvance(texts, script, budget, i);
      AdvanceConserves(before, texts[i - 1], i - 1, script, budget, allowed);
    }
  }

  /** Whatever happens on the pages (blank ones, retries, failures, useless outputs), the totals are the sum
      over every call made, and the calls stay within the budget of the non-blank pages. */
  lemma {:induction false} PagesConserveTokens(texts: seq<string>, script: Script, budget: nat, i: nat)
    requires i <= |texts|
    ensures var p := After(texts, script, budget, i);
            p.tokens == Spent(script, 0, p.next) && p.next <= budget * NonBlank(texts, i)
  {
    TotalsAreSpent(texts, script, budget, i);
    AllowedIsProduct(texts, budget, i);
  }

  lemma AdvanceConserves(p: Progress, text: string, page: nat, script: Script, budget: nat, allowed: nat)
    requires HasSpent(p, script, allowed)
    ensures HasSpent(Advance(p, text, page, script, budget), script, allowed + if IsBlank(text) then 0 else budget)
  {
    if !IsBlank(text) {
      var n := CallCount(script, p.next, budget);
      assert ExtractionOutcome(script, p.next, budget).tokens == Spent(script, p.next, p.next + n);
      SpentSplits(script, 0, p.next, p.next + n);
    }
  }

  lemma MultiplyByOneMore(a: nat, n: nat)
    ensures a * (n + 1) == a * n + a
  {
  }

  ghost predicate WarningsAreOrdered(p: Progress, i: nat) {
    IsAscendingSeq(p.warnings) && forall k :: 0 <= k < |p.warnings| ==> p.warnings[k] < i
  }

  ghost predicate UsefulAreOrdered(p: Progress, i: nat) {
    && (forall k, l :: 0 <= k < l < |p.useful| ==> p.useful[k].index < p.useful[l].index)
    && (forall k :: 0 <= k < |p.useful| ==> p.useful[k].index < i && HasUsefulExtraction(p.useful[k].output))
  }

  /** Every warning and every useful page belongs to a page already visited, each page to at most one of them,
      and both lists are in page order. */
  ghost predicate IsOrdered(p: Progress, i: nat) {
    && WarningsAreOrdered(p, i) && UsefulAreOrdered(p, i)
    && forall k, l :: 0 <= k < |p.useful| && 0 <= l < |p.warnings| ==> p.useful[k].index != p.warnings[l]
  }

  lemma AfterIsAdvance(texts: seq<string>, script: Script, budget: nat, i: nat)
    requires 0 < i <= |texts|
    ensures After(texts, script, budget, i)
         == Advance(After(texts, script, budget, i - 1), texts[i - 1], i - 1, script, budget)
  {
  }

  lemma {:induction false} PagesAreOrdered(texts: seq<string>, script: Script, budget: nat, i: nat)
    requires i <= |texts|
    ensures IsOrdered(After(texts, script, budget, i), i)
  {
    if i > 0 {
      var before, after := After(texts, script, budget, i - 1), After(texts, script, budget, i);
      assert IsOrdered(before, i - 1) by { PagesAreOrdered(texts, script, budget, i - 1); }
      assert after == Advance(before, texts[i - 1], i - 1, script, budget) by {
        AfterIsAdvance(texts, script, budget, i);
      }
      AdvanceKeepsOrder(before, after, texts[i - 1], i - 1, script, budget);
    }
  }

  lemma WarningsStayOrdered(p: Progress, q: Progress, text: string, page: nat, script: Script, budget: nat)
    requires WarningsAreOrdered(p, page) && q == Advance(p, text, page, script, budget)
    ensures WarningsAreOrdered(q, page + 1)
  {
  }

  lemma UsefulStayOrdered(p: Progress, q: Progress, text: string, page: nat, script: Script, budget: nat)
    requires UsefulAreOrdered(p, page) && q == Advance(p, text, page, script, budget)
    ensures UsefulAreOrdered(q, page + 1)
  {
  }

  lemma AdvanceKeepsOrder(p: Progress, q: Progress, text: string, page: nat, script: Script, budget: nat)
    requires IsOrdered(p, page) && q == Advance(p, text, page, script, budget)
    ensures IsOrdered(q, page + 1)
  {
    WarningsStayOrdered(p, q, text, page, script, budget);
    UsefulStayOrdered(p, q, text, page, script, budget);
  }

  lemma SourcePagesExist(texts: seq<string>, script: Script, budget: nat, schema: set<string>)
    ensures var useful := After(texts, script, budget, |texts|).useful;
            forall q :: q in AllPages(MergePages(useful, schema)) ==>
              q < |texts| && exists k :: 0 <= k < |useful| && useful[k].index == q
  {
    var useful := After(texts, script, budget, |texts|).useful;
    PagesAreOrdered(texts, script, budget, |texts|);
    var fields := MergePages(useful, schema);
    forall q | q in AllPages(fields)
      ensures q < |texts| && exists k :: 0 <= k < |useful| && useful[k].index == q
    {
      var f :| f in fields && fields[f].Merged? && q in fields[f].pages;
      var cs := Candidates(useful, f);
      PagesComeFromCandidates(cs);
      var i :| 0 <= i < |cs| && cs[i].page == q;
      CandidatesAreOnPages(useful, f, cs[i]);
    }
  }
}
