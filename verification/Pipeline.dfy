/** From the calls of the language model to the ledger: strategies, pipeline and recording put together. */
module Pipeline {
  import opened LlmTokens
  import opened Options
  import Calls = TokenAccounting
  import M = PageMerge
  import L = Ledger
  import Life = Lifecycle
  import Safe = LifecycleSafety
  import D = DocumentService

  datatype Strategy = Full | Smart | PageByPage

  /** `resolve_strategy` */
  function ResolveStrategy(strategy: Option<Strategy>, pageCount: nat): Strategy {
    if strategy.Some? then strategy.value else if pageCount > 10 then Smart else Full
  }

  predicate IsFirstOrLast(texts: seq<string>, i: nat) {
    i < |texts| && (i == 0 || i == |texts| - 1)
  }

  const MONETARY_KEYWORDS := ["total", "amount", "subtotal", "net", "gross", "due", "$", "ngn", "usd"]

  /** `word in text` */
  predicate Contains(text: string, word: string) {
    exists k | 0 <= k <= |text| :: word <= text[k..]
  }

  /** Lower-cased, the text contains a keyword; `lower` is `str.lower`. */
  predicate MentionsMoney(lower: string -> string, text: string) {
    exists word | word in MONETARY_KEYWORDS :: Contains(lower(text), word)
  }

  lemma ContainsMeans(text: string, word: string)
    ensures Contains(text, word) <==> exists before, after :: text == before + word + after
  {
    if Contains(text, word) {
      var k :| 0 <= k <= |text| && word <= text[k..];
      assert text == text[..k] + word + text[k + |word|..];
    }
    if before, after :| text == before + word + after {
      assert text[|before|..] == word + after;
    }
  }

  /** A keyword stands somewhere in the lower-cased text. */
  ghost predicate HasKeyword(lower: string -> string, text: string) {
    exists before: string, word: string, after: string ::
      && lower(text) == before + word + after
      && (word == "total" || word == "amount" || word == "subtotal" || word == "net" || word == "gross" || word == "due"
          || word == "$" || word == "ngn" || word == "usd")
  }

  lemma MoneyMeans(lower: string -> string, text: string)
    ensures MentionsMoney(lower, text) <==> HasKeyword(lower, text)
  {
    if word :| word in MONETARY_KEYWORDS && Contains(lower(text), word) {
      ContainsMeans(lower(text), word);
      var before, after :| lower(text) == before + word + after;
      assert lower(text) == before + word + after && HasKeyword(lower, text);
    }
    if HasKeyword(lower, text) {
      var before, word, after :|
        && lower(text) == before + word + after
        && (word == "total" || word == "amount" || word == "subtotal" || word == "net" || word == "gross"
            || word == "due" || word == "$" || word == "ngn" || word == "usd");
      assert word in MONETARY_KEYWORDS;
      ContainsMeans(lower(text), word);
    }
  }

  predicate IsSelected(texts: seq<string>, lower: string -> string, i: nat) {
    i < |texts| && (IsFirstOrLast(texts, i) || MentionsMoney(lower, texts[i]))
  }

  /** `select_pages`: the first and the last page and those that mention money, in page order. */
  method SelectPages(texts: seq<string>, lower: string -> string) returns (selected: seq<nat>)
    ensures Calls.IsAscendingSeq(selected)
    ensures forall i: nat :: i in selected <==> IsSelected(texts, lower, i)
  {
    if texts == [] { return []; }
    var pages: set<nat> := {0, |texts| - 1};
    for i := 0 to |texts|
      invariant forall k: nat :: k in pages <==> IsSelected(texts, lower, k) && (k < i || IsFirstOrLast(texts, k))
    {
      if MentionsMoney(lower, texts[i]) { pages := pages + {i}; }
    }
    selected := Calls.SortedPages(pages, |texts|);
  }

  /** What a strategy gives: the data, the pages it comes from and the pages that failed, or an extraction error. */
  datatype StrategyResult =
    | Extracted(data: M.Output, sourcePages: seq<nat>, tokens: Tokens, warnings: seq<nat>)
    | RaisesError(attempts: nat, tokens: Tokens)

  function ValuesOf(fields: map<string, M.Entry>): M.Output {
    map f | f in fields && fields[f].Merged? :: fields[f].value
  }

  /** Every page is a source, or the first, the last and those that contain a keyword, in page order. */
  ghost predicate AreSources(texts: seq<string>, smart: bool, lower: string -> string, pages: seq<nat>) {
    && (forall i, j :: 0 <= i < j < |pages| ==> pages[i] < pages[j])
    && forall i: nat :: i in pages <==>
                          i < |texts| && (smart ==> i == 0 || i == |texts| - 1 || HasKeyword(lower, texts[i]))
  }

  lemma SelectedAreSources(texts: seq<string>, lower: string -> string, pages: seq<nat>)
    requires Calls.IsAscendingSeq(pages) && forall i: nat :: i in pages <==> IsSelected(texts, lower, i)
    ensures AreSources(texts, true, lower, pages)
  {
    forall i: nat | i < |texts| ensures MentionsMoney(lower, texts[i]) <==> HasKeyword(lower, texts[i]) {
      MoneyMeans(lower, texts[i]);
    }
  }

  /** Data, sources and warnings of merged pages: for each field its value, and all pages that a field comes from. */
  ghost predicate IsMergeOf(r: StrategyResult, useful: seq<M.Page>, schema: set<string>) {
    var fields := M.MergePages(useful, schema);
    && r.Extracted?
    && (forall f :: f in r.data <==> f in fields)
    && (forall f :: f in fields ==> fields[f].Merged? && r.data[f] == fields[f].value)
    && (forall i, j :: 0 <= i < j < |r.sourcePages| ==> r.sourcePages[i] < r.sourcePages[j])
    && forall q :: q in r.sourcePages <==> exists f :: f in fields && q in fields[f].pages
  }

  /** What the third strategy gives. */
  ghost predicate IsPageByPage(r: StrategyResult, texts: seq<string>, schema: set<string>, script: Calls.Script,
                               budget: nat) {
    if Calls.AllFail(texts, script, budget) then
      r.RaisesError? && r.attempts == Calls.Failures(texts, script, budget, |texts|)
    else
      && r.Extracted?
      && (forall i: nat :: i in r.warnings <==> Calls.FailsOn(texts, script, budget, i))
      && exists useful :: Calls.AreUsefulPages(texts, script, budget, useful) && IsMergeOf(r, useful, schema)
  }

  /** `extract_from_pages`: two of the strategies make one extraction, the third makes one per page that is not
      blank. Whatever the strategy, result or error carry the tokens of all calls. */
  method ExtractFromPages(texts: seq<string>, strategy: Strategy, lower: string -> string, schema: set<string>,
                          script: Calls.Script, maxRetries: int)
    returns (r: StrategyResult, calls: nat)
    ensures r.tokens == Calls.Spent(script, 0, calls)
    ensures calls <= Calls.Budget(maxRetries) * if strategy.PageByPage? then Calls.NonBlank(texts, |texts|) else 1
    ensures !strategy.PageByPage? ==>
              && calls == Calls.CallCount(script, 0, Calls.Budget(maxRetries))
              && (r.Extracted? <==> calls > 0 && script(calls - 1).Answer? && script(calls - 1).arguments.Some?)
              && (r.RaisesError? ==> r.attempts == calls)
    ensures !strategy.PageByPage? && r.Extracted? ==>
              && script(calls - 1).arguments == Some(r.data) && r.warnings == []
              && AreSources(texts, strategy.Smart?, lower, r.sourcePages)
    ensures strategy.PageByPage? ==> IsPageByPage(r, texts, schema, script, Calls.Budget(maxRetries))
  {
    ghost var budget := Calls.Budget(maxRetries);
    if strategy.PageByPage? {
      var pages;
      pages, calls := Calls.ExtractPageByPage(texts, schema, script, maxRetries);
      Calls.PagesConserveTokens(texts, script, budget, |texts|);
      if pages.Record? {
        r := Extracted(ValuesOf(pages.fields), pages.sourcePages, pages.tokens, pages.warnings);
        ghost var useful :| Calls.AreUsefulPages(texts, script, budget, useful)
                            && pages.fields == M.MergePages(useful, schema);
        assert IsMergeOf(r, useful, schema);
      } else {
        r := RaisesError(pages.attempts, pages.tokens);
      }
    } else {
      var sources;
      if strategy.Smart? {
        sources := SelectPages(texts, lower);
        SelectedAreSources(texts, lower, sources);
      } else {
        sources := AllPages(|texts|);
      }
      var x;
      x, calls := Calls.Extract(script, 0, maxRetries);
      Calls.OutcomeMeans(script, 0, budget);
      r := if x.Extracted? then Extracted(x.arguments, sources, x.tokens, []) else RaisesError(x.attempts, x.tokens);
    }
  }

  /** `list(range(n))` */
  method AllPages(n: nat) returns (pages: seq<nat>)
    ensures Calls.IsAscendingSeq(pages) && forall i: nat :: i in pages <==> i < n
  {
    pages := [];
    for i := 0 to n
      invariant Calls.IsAscendingSeq(pages) && forall k :: 0 <= k < |pages| ==> pages[k] < i
      invariant forall k: nat :: k in pages <==> k < i
    {
      pages := pages + [i];
    }
  }

  datatype Classification = Classification(docType: string, usage: L.UsageEvent)

  /** What a request says about processing, and what the environment answers: the classifier, unless it raises, the
      script of the language model, the validation of what it extracts. */
  datatype Job = Job(docType: Option<string>, classification: Option<Classification>, supported: set<string>,
                     strategy: Option<Strategy>, pageCount: nat, lower: string -> string, schema: set<string>,
                     script: Calls.Script, maxRetries: int, validation: L.ExtractionStatus)

  predicate IsJob(job: Job) {
    job.classification.Some? ==> job.classification.value.usage.purpose == L.Classifier
  }

  datatype Resolved = Resolved(docType: string, usage: Option<L.UsageEvent>, strategy: Strategy)

  /** The job gets to its extraction: the type is given, or the classifier finds it, and it is supported. */
  predicate HasType(job: Job) {
    if job.docType.Some? then job.docType.value in job.supported
    else job.classification.Some? && job.classification.value.docType in job.supported
  }

  /** `_resolve_extraction_input`: only without a type is the classifier asked; `None` stands for an exception. */
  method ResolveExtractionInput(job: Job) returns (r: Option<Resolved>)
    ensures r.Some? <==> HasType(job)
    ensures r.Some? && job.docType.Some? ==> r.value.docType == job.docType.value && r.value.usage.None?
    ensures r.Some? && job.docType.None? ==>
              r.value.usage.Some? && job.classification == Some(Classification(r.value.docType, r.value.usage.value))
    ensures r.Some? ==>
              r.value.strategy ==
                match job.strategy
                case Some(given) => given
                case None => if job.pageCount >= 11 then Smart else Full
  {
    var usage: Option<L.UsageEvent> := None;
    var docType := job.docType;
    if docType.None? {
      if job.classification.None? { return None; }
      docType, usage := Some(job.classification.value.docType), Some(job.classification.value.usage);
    }
    if docType.value !in job.supported { return None; }
    r := Some(Resolved(docType.value, usage, ResolveStrategy(job.strategy, job.pageCount)));
  }

  /** The extraction raises: every page that gives anything fails, or the only extraction's last call calls no tool. */
  ghost predicate Raises(texts: seq<string>, strategy: Strategy, script: Calls.Script, budget: nat) {
    if strategy.PageByPage? then Calls.AllFail(texts, script, budget)
    else
      var n := Calls.CallCount(script, 0, budget);
      n == 0 || !script(n - 1).Answer? || script(n - 1).arguments.None?
  }

  /** `process_pages`: an outcome exists exactly for a supported type, without one no call is made; it carries the
      tokens of all calls and, if the classifier was asked, its usage. (The calls touch neither session nor store and
      come before the run here; a run that does not get to them drops their outcome.) */
  method ProcessPages(job: Job, texts: seq<string>) returns (p: Option<Life.Processed>, calls: nat)
    requires IsJob(job)
    ensures p.Some? <==> HasType(job)
    ensures p.None? ==> calls == 0
    ensures p.Some? ==> Life.IsClassifierUsage(p.value) && p.value.tokens == Calls.Spent(job.script, 0, calls)
    ensures p.Some? ==>
              var strategy := ResolveStrategy(job.strategy, job.pageCount);
              p.value.raised <==> Raises(texts, strategy, job.script, Calls.Budget(job.maxRetries))
    ensures p.Some? ==> p.value.validation == if p.value.raised then L.Failed else job.validation
    ensures p.Some? ==> Life.EventsOf(p.value) == if job.docType.Some? then [] else [job.classification.value.usage]
  {
    var resolved := ResolveExtractionInput(job);
    if resolved.None? { return None, 0; }
    var extracted;
    extracted, calls := ExtractFromPages(texts, resolved.value.strategy, job.lower, job.schema, job.script,
                                         job.maxRetries);
    assert extracted.RaisesError?
      <==> Raises(texts, resolved.value.strategy, job.script, Calls.Budget(job.maxRetries));
    match extracted
    case RaisesError(_, tokens) => p := Some(Life.Processed(true, L.Failed, tokens, resolved.value.usage));
    case Extracted(_, _, tokens, _) => p := Some(Life.Processed(false, job.validation, tokens, resolved.value.usage));
  }

  /** The ledger's extraction tokens have grown by exactly the tokens of the calls if the run has recorded anything, and
      not at all otherwise; and they are the tokens of all extractions. */
  twostate predicate IsBilled(session: D.Session, script: Calls.Script, calls: nat)
    reads session, session.store
  {
    && L.Billed(session.store.db.uses) ==
       (if Safe.HasRecorded(session.wrote) then L.Billed(old(session.store.db.uses)).Plus(Calls.Spent(script, 0, calls))
        else L.Billed(old(session.store.db.uses)))
    && L.Accounts(session.store.db.extractions, session.store.db.uses)
  }

  /** A run on a stored document, from the calls of the model to the ledger. */
  method ExtractExistingDocument(session: D.Session, job: Job, texts: seq<string>, loads: bool, responds: bool)
    returns (e: D.Ending, calls: nat)
    requires session.kind.Existing? && session.IsAt(Life.Loading) && !session.broken && IsJob(job)
    modifies session`asked, session`broken, session`seen, session`pending, session`wrote, session`now, session.store`db
    ensures IsBilled(session, job.script, calls)
  {
    var p;
    p, calls := ProcessPages(job, texts);
    e := D.ProcessExistingInline(session, loads, p, responds);
  }

  /** An upload or batch item that is processed at once. A response means that its calls are billed. */
  method ExtractInlineUpload(session: D.Session, job: Job, texts: seq<string>, parses: bool, saves: bool,
                             responds: bool, rollsBack: bool, deletes: bool)
    returns (e: D.Ending, calls: nat)
    requires session.kind.Inline? && session.IsAt(Life.Saving) && !session.broken && IsJob(job)
    modifies session, session.store
    ensures IsBilled(session, job.script, calls)
    ensures e.Returns? ==> Safe.HasRecorded(session.wrote)
  {
    var p;
    p, calls := ProcessPages(job, texts);
    e := D.ProcessUploadedInline(session, parses, saves, p, responds, rollsBack, deletes);
    if e.Returns? { assert session.wrote[|session.wrote| - 1].extraction.Some?; }
  }

  /** An upload for the queue, processed here if it cannot be handed over. */
  method ExtractQueuedUpload(session: D.Session, job: Job, texts: seq<string>, parses: bool, saves: bool,
                             enqueues: bool, responds: bool, rollsBack: bool, deletes: bool)
    returns (e: D.Ending, calls: nat)
    requires session.kind.Queued? && session.IsAt(Life.Saving) && !session.broken && IsJob(job)
    modifies session, session.store
    ensures IsBilled(session, job.script, calls)
    ensures e.Returns? ==> (Safe.HasRecorded(session.wrote) <==> !enqueues)
  {
    var p;
    p, calls := ProcessPages(job, texts);
    e := D.ExtractUploadedDocument(session, parses, saves, enqueues, p, responds, rollsBack, deletes);
    if e.Returns? && !enqueues { assert session.wrote[|session.wrote| - 1].extraction.Some?; }
  }
}
