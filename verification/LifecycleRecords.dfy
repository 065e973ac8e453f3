/** What a run records: exactly what came out of its processing, with the status that goes with it. */
module LifecycleRecords {
  import opened LlmTokens
  import opened Ledger
  import opened Lifecycle
  import opened LifecycleSafety
  import opened LifecycleRuns
  import opened Options

  /** The rows for an outcome, written out: the extraction, the classifier's usage if it was called, and the usage of
      the extraction itself. */
  function Rows(id: nat, doc: nat, model: string, p: Processed): seq<Usage> {
    (if p.classified.Some? then [Usage(id, doc, Classifier, p.classified.value.model, p.classified.value.tokens)]
     else [])
    + [Usage(id, doc, ForExtraction, model, p.tokens)]
  }

  /** All that is written for an outcome. `overruled` says that the catch-all had the last word. */
  function Written(id: nat, doc: nat, model: string, p: Processed, overruled: bool): Changes {
    Changes(
      Some(if p.raised || p.validation.Failed? || overruled then DocFailed else DocCompleted),
      Some(Extraction(id, doc, if p.raised then Failed else p.validation, model, p.tokens)),
      Rows(id, doc, model, p))
  }

  lemma RecordIsWritten(id: nat, doc: nat, model: string, p: Processed)
    requires IsClassifierUsage(p)
    ensures var record := RecordOf(id, doc, model, p);
            Written(id, doc, model, p, false) ==
            Changes(Some(record.status), Some(record.extraction), record.uses)
  {
    if p.classified.Some? {
      assert EventsOf(p)[..0] == [];
      assert EventRows(RecordOf(id, doc, model, p).extraction, []) == [];
    }
  }

  /** The classifier's row is there exactly if it was called, with its own model and tokens; the extraction's row
      always is. */
  lemma RowsMean(id: nat, doc: nat, model: string, p: Processed)
    requires IsClassifierUsage(p)
    ensures var record := RecordOf(id, doc, model, p);
            && |record.uses| == (if p.classified.Some? then 2 else 1)
            && (p.classified.Some? ==>
                  record.uses[0] == Usage(id, doc, Classifier, p.classified.value.model, p.classified.value.tokens))
            && record.uses[|record.uses| - 1] == Usage(id, doc, ForExtraction, model, p.tokens)
  {
    RecordIsWritten(id, doc, model, p);
  }

  // ---------- the outcome of a run ----------

  predicate IsResult(s: State, step: Step, id: nat) {
    && step.run == id && id in s.runs && s.runs[id].place.Processing?
    && step.event.Result? && IsClassifierUsage(step.event.processed)
  }

  /** What processing gave, once it is over. */
  ghost function ResultOf(s: State, trace: seq<Step>, id: nat): Option<Processed> {
    if trace == [] then None
    else
      var front, last := trace[..|trace| - 1], trace[|trace| - 1];
      if IsResult(Execute(s, front), last, id) then Some(last.event.processed) else ResultOf(s, front, id)
  }

  /** Building the response fails although the database does not. */
  predicate IsResponseFailure(s: State, step: Step) {
    && step.run in s.runs && s.runs[step.run].place.Responding?
    && !step.event.Ok? && !step.event.Cancel? && !step.event.Begin?
  }

  ghost function ResponseFailureOf(id: nat): (State, Step) -> bool {
    (u: State, step: Step) => step.run == id && IsResponseFailure(u, step)
  }

  ghost predicate WroteOutcome(id: nat, r: Run, p: Option<Processed>, overruled: bool) {
    forall k :: 0 <= k < |r.wrote| && r.wrote[k].extraction.Some? ==>
      p.Some? && r.wrote[k] == Written(id, r.doc, r.model, p.value, overruled)
  }

  predicate IsAtRecord(r: Run) {
    r.place.Recording? || r.place.Refreshing? || r.place.Responding? || r.place.RecordCommit?
  }

  /** The record that the run works on is that of its outcome; what it has pending at the catch-all is that outcome,
      overruled. */
  ghost predicate IsExplained(id: nat, r: Run, p: Option<Processed>, failed: bool) {
    && WroteOutcome(id, r, p, failed)
    && (failed ==> r.place.CatchFlush? || r.place.CatchCommit? || r.place.Done?)
    && (failed && !r.kind.Existing? ==> !HasRecorded(r.wrote))
    && (IsAtRecord(r) ==>
          p.Some? && IsClassifierUsage(p.value) && r.place.record == RecordOf(id, r.doc, r.model, p.value))
    && (r.place.CatchFlush? && !r.broken && r.pending.extraction.Some? ==>
          p.Some? && failed && r.pending.(status := Some(DocFailed)) == Written(id, r.doc, r.model, p.value, true))
    && (r.place.CatchCommit? && r.pending.extraction.Some? ==>
          p.Some? && failed && r.pending == Written(id, r.doc, r.model, p.value, true))
  }

  lemma WroteOneMore(id: nat, r: Run, p: Option<Processed>, overruled: bool)
    requires WroteOutcome(id, r, p, overruled)
    requires r.pending.extraction.Some? ==>
               p.Some? && r.pending == Written(id, r.doc, r.model, p.value, overruled)
    ensures WroteOutcome(id, r.(wrote := r.wrote + [r.pending]), p, overruled)
  {
  }

  lemma NothingWritten(id: nat, r: Run, p: Option<Processed>, overruled: bool)
    requires !HasRecorded(r.wrote)
    ensures WroteOutcome(id, r, p, overruled)
  {
  }

  // ---------- step by step ----------

  /** With nothing pending, what is committed is all there is to explain. */
  lemma SettledIsExplained(id: nat, r: Run, p: Option<Processed>, failed: bool)
    requires WroteOutcome(id, r, p, failed) && r.pending.extraction.None?
    requires r.place.CatchFlush? || r.place.CatchCommit? || r.place.Done?
    requires failed && !r.kind.Existing? ==> !HasRecorded(r.wrote)
    ensures IsExplained(id, r, p, failed)
  {
  }

  lemma CreateExplains(s: State, id: nat, e: Event, p: Option<Processed>, failed: bool)
    requires id in s.runs && IsOnTrack(id, s.runs[id]) && IsExplained(id, s.runs[id], p, failed)
    requires var q := s.runs[id].place; q.Saving? || q.CreateFlush? || q.CreateCommit? || q.CreateRefresh? || q.Cleanup?
    ensures id in Create(s, id, s.runs[id], e).runs
    ensures IsExplained(id, Create(s, id, s.runs[id], e).runs[id], p, failed)
  {
    WroteMore(s.runs[id].wrote, s.runs[id].pending);
    NothingWritten(id, Create(s, id, s.runs[id], e).runs[id], p, failed);
  }

  lemma PrepareExplains(s: State, id: nat, e: Event, p: Option<Processed>, failed: bool)
    requires id in s.runs && IsOnTrack(id, s.runs[id]) && IsExplained(id, s.runs[id], p, failed)
    requires s.runs[id].place.Enqueue? || s.runs[id].place.Loading? || s.runs[id].place.LoadFile?
    ensures id in Prepare(s, id, s.runs[id], e).runs
    ensures IsExplained(id, Prepare(s, id, s.runs[id], e).runs[id], p, failed)
  {
    NothingWritten(id, Prepare(s, id, s.runs[id], e).runs[id], p, failed);
  }

  lemma MarkExplains(s: State, id: nat, e: Event, p: Option<Processed>, failed: bool)
    requires id in s.runs && IsOnTrack(id, s.runs[id]) && IsExplained(id, s.runs[id], p, failed)
    requires s.runs[id].place.MarkFlush? || s.runs[id].place.MarkCommit?
    ensures id in Prepare(s, id, s.runs[id], e).runs
    ensures IsExplained(id, Prepare(s, id, s.runs[id], e).runs[id], p, failed)
  {
    WroteMore(s.runs[id].wrote, s.runs[id].pending);
    NothingWritten(id, Prepare(s, id, s.runs[id], e).runs[id], p, failed);
  }

  lemma ProcessingExplains(s: State, id: nat, e: Event, p: Option<Processed>, failed: bool)
    requires id in s.runs && IsOnTrack(id, s.runs[id]) && IsExplained(id, s.runs[id], p, failed)
    requires s.runs[id].place.Processing?
    ensures id in Prepare(s, id, s.runs[id], e).runs
    ensures IsExplained(id, Prepare(s, id, s.runs[id], e).runs[id],
                        if IsResult(s, Step(id, e), id) then Some(e.processed) else p, failed)
  {
    NothingWritten(id, s.runs[id], if IsResult(s, Step(id, e), id) then Some(e.processed) else p, failed);
  }

  /** Going on with the same record explains as much as before. */
  lemma SameRecordExplains(id: nat, r: Run, t: Run, p: Option<Processed>, failed: bool)
    requires IsExplained(id, r, p, failed) && IsAtRecord(r) && IsAtRecord(t)
    requires t.place.record == r.place.record && t.doc == r.doc && t.model == r.model && t.wrote == r.wrote
    ensures IsExplained(id, t, p, failed)
  {
  }

  /** Before anything is recorded, a broken session leaves nothing to explain. */
  lemma BrokenIsExplained(id: nat, r: Run, p: Option<Processed>)
    requires !HasRecorded(r.wrote) && r.broken && (r.place.CatchFlush? || r.place.Done?)
    ensures IsExplained(id, r, p, false)
  {
    NothingWritten(id, r, p, false);
  }

  lemma RecordingExplains(s: State, id: nat, e: Event, p: Option<Processed>, failed: bool)
    requires id in s.runs && IsOnTrack(id, s.runs[id]) && IsExplained(id, s.runs[id], p, failed)
    requires s.runs[id].place.Recording?
    ensures id in Keep(s, id, s.runs[id], e).runs
    ensures IsExplained(id, Keep(s, id, s.runs[id], e).runs[id], p, failed)
  {
    var t := Keep(s, id, s.runs[id], e).runs[id];
    if e.Ok? { SameRecordExplains(id, s.runs[id], t, p, failed); } else { BrokenIsExplained(id, t, p); }
  }

  lemma RefreshingExplains(s: State, id: nat, e: Event, p: Option<Processed>, failed: bool)
    requires id in s.runs && IsOnTrack(id, s.runs[id]) && IsExplained(id, s.runs[id], p, failed)
    requires s.runs[id].place.Refreshing?
    ensures id in Keep(s, id, s.runs[id], e).runs
    ensures IsExplained(id, Keep(s, id, s.runs[id], e).runs[id], p, failed)
  {
    var t := Keep(s, id, s.runs[id], e).runs[id];
    if e.Ok? { SameRecordExplains(id, s.runs[id], t, p, failed); } else { BrokenIsExplained(id, t, p); }
  }

  lemma RespondingExplains(s: State, id: nat, e: Event, p: Option<Processed>, failed: bool)
    requires id in s.runs && IsOnTrack(id, s.runs[id]) && IsExplained(id, s.runs[id], p, failed)
    requires s.runs[id].place.Responding?
    requires !e.Cancel? && !e.Begin?
    ensures id in Keep(s, id, s.runs[id], e).runs
    ensures IsExplained(id, Keep(s, id, s.runs[id], e).runs[id], p, failed || IsResponseFailure(s, Step(id, e)))
  {
    NothingWritten(id, s.runs[id], p, failed || IsResponseFailure(s, Step(id, e)));
    RecordIsWritten(id, s.runs[id].doc, s.runs[id].model, p.value);
  }

  /** A commit of what is explained, whether it takes effect or not. */
  lemma CommitExplains(id: nat, r: Run, t: Run, p: Option<Processed>, failed: bool)
    requires WroteOutcome(id, r, p, failed) && p.Some? && r.pending == Written(id, r.doc, r.model, p.value, failed)
    requires !failed && t.doc == r.doc && t.model == r.model && t.pending.extraction.None?
    requires t.wrote == r.wrote || t.wrote == r.wrote + [r.pending]
    requires t.place.CatchFlush? || t.place.CatchCommit? || t.place.Done?
    ensures IsExplained(id, t, p, failed)
  {
    WroteOneMore(id, r, p, failed);
    SettledIsExplained(id, t, p, failed);
  }

  lemma RecordCommitExplains(s: State, id: nat, e: Event, p: Option<Processed>, failed: bool)
    requires id in s.runs && IsOnTrack(id, s.runs[id]) && IsExplained(id, s.runs[id], p, failed)
    requires s.runs[id].place.RecordCommit?
    ensures id in Keep(s, id, s.runs[id], e).runs
    ensures IsExplained(id, Keep(s, id, s.runs[id], e).runs[id], p, failed)
  {
    var r, t := s.runs[id], Keep(s, id, s.runs[id], e).runs[id];
    assert r.pending == Written(id, r.doc, r.model, p.value, failed) by {
      RecordIsWritten(id, r.doc, r.model, p.value);
    }
    CommitExplains(id, r, t, p, failed);
  }

  lemma CatchFlushExplains(s: State, id: nat, e: Event, p: Option<Processed>, failed: bool)
    requires id in s.runs && IsOnTrack(id, s.runs[id]) && IsExplained(id, s.runs[id], p, failed)
    requires s.runs[id].place.CatchFlush?
    requires IsTold(s.runs[id])
    ensures id in Catch(s, id, s.runs[id], e).runs
    ensures IsExplained(id, Catch(s, id, s.runs[id], e).runs[id], p, failed)
  {
  }

  lemma CatchCommitExplains(s: State, id: nat, e: Event, p: Option<Processed>, failed: bool)
    requires id in s.runs && s.runs[id].kind.Existing? && IsExplained(id, s.runs[id], p, failed)
    requires s.runs[id].place.CatchCommit?
    ensures id in Catch(s, id, s.runs[id], e).runs
    ensures IsExplained(id, Catch(s, id, s.runs[id], e).runs[id], p, failed)
  {
    var t := Catch(s, id, s.runs[id], e).runs[id];
    assert WroteOutcome(id, t, p, failed) by { WroteOneMore(id, s.runs[id], p, failed); }
    SettledIsExplained(id, t, p, failed);
  }

  ghost predicate IsExplainedIn(s: State, trace: seq<Step>, id: nat) {
    id in Execute(s, trace).runs ==>
      IsExplained(id, Execute(s, trace).runs[id], ResultOf(s, trace, id), Ever(s, trace, ResponseFailureOf(id)))
  }

  lemma KeepExplains(s: State, id: nat, e: Event, p: Option<Processed>, failed: bool)
    requires id in s.runs && IsOnTrack(id, s.runs[id]) && IsExplained(id, s.runs[id], p, failed)
    requires IsAtRecord(s.runs[id]) && !e.Cancel? && !e.Begin?
    ensures id in Keep(s, id, s.runs[id], e).runs
    ensures IsExplained(id, Keep(s, id, s.runs[id], e).runs[id], p, failed || IsResponseFailure(s, Step(id, e)))
  {
    match s.runs[id].place
    case Recording(_, _) => RecordingExplains(s, id, e, p, failed);
    case Refreshing(_) => RefreshingExplains(s, id, e, p, failed);
    case Responding(_) => RespondingExplains(s, id, e, p, failed);
    case _ => RecordCommitExplains(s, id, e, p, failed);
  }

  lemma CatchExplains(s: State, id: nat, e: Event, p: Option<Processed>, failed: bool)
    requires id in s.runs && IsOnTrack(id, s.runs[id]) && IsExplained(id, s.runs[id], p, failed)
    requires (s.runs[id].place.CatchFlush? || s.runs[id].place.CatchCommit?) && IsTold(s.runs[id])
    ensures id in Catch(s, id, s.runs[id], e).runs
    ensures IsExplained(id, Catch(s, id, s.runs[id], e).runs[id], p, failed)
  {
    if s.runs[id].place.CatchFlush? {
      CatchFlushExplains(s, id, e, p, failed);
    } else {
      CatchCommitExplains(s, id, e, p, failed);
    }
  }

  lemma PrepareStepExplains(s: State, id: nat, e: Event, p: Option<Processed>, failed: bool)
    requires id in s.runs && IsOnTrack(id, s.runs[id]) && IsExplained(id, s.runs[id], p, failed)
    requires var q := s.runs[id].place; q.Enqueue? || q.Loading? || q.LoadFile? || q.MarkFlush? || q.MarkCommit?
    ensures id in Prepare(s, id, s.runs[id], e).runs
    ensures IsExplained(id, Prepare(s, id, s.runs[id], e).runs[id], p, failed)
  {
    if s.runs[id].place.MarkFlush? || s.runs[id].place.MarkCommit? {
      MarkExplains(s, id, e, p, failed);
    } else {
      PrepareExplains(s, id, e, p, failed);
    }
  }

  lemma CancelExplains(id: nat, r: Run, p: Option<Processed>, failed: bool)
    requires IsExplained(id, r, p, failed)
    ensures IsExplained(id, End(r, Cancelled), p, failed)
  {
  }

  lemma StepExplains(s: State, id: nat, e: Event, p: Option<Processed>, failed: bool)
    requires id in s.runs && IsOnTrack(id, s.runs[id]) && IsExplained(id, s.runs[id], p, failed) && !e.Begin?
    requires s.runs[id].kind.Existing? ==> IsTold(s.runs[id])
    ensures id in Next(s, id, e).runs
    ensures IsExplained(id, Next(s, id, e).runs[id], if IsResult(s, Step(id, e), id) then Some(e.processed) else p,
                        failed || IsResponseFailure(s, Step(id, e)))
  {
    var q := s.runs[id].place;
    if q.Done? {
    } else if e.Cancel? {
      CancelExplains(id, s.runs[id], p, failed);
    } else if q.Saving? || q.CreateFlush? || q.CreateCommit? || q.CreateRefresh? || q.Cleanup? {
      CreateExplains(s, id, e, p, failed);
    } else if IsAtRecord(s.runs[id]) {
      KeepExplains(s, id, e, p, failed);
    } else if q.CatchFlush? || q.CatchCommit? {
      CatchExplains(s, id, e, p, failed);
    } else if q.Processing? {
      ProcessingExplains(s, id, e, p, failed);
    } else {
      PrepareStepExplains(s, id, e, p, failed);
    }
  }

  lemma FreshIsExplained(id: nat, r: Run, p: Option<Processed>)
    requires IsFresh(r)
    ensures IsExplained(id, r, p, false)
  {
  }

  lemma NoFailureBeforeItBegins(s: State, trace: seq<Step>, id: nat)
    requires IsInitial(s) && id !in Execute(s, trace).runs
    ensures !Ever(s, trace, ResponseFailureOf(id))
  {
    if k :| 0 <= k < |trace| && ResponseFailureOf(id)(Execute(s, trace[..k]), trace[k]) {
      RunsStay(s, trace, k, id);
    }
  }

  lemma {:induction false} RunsStay(s: State, trace: seq<Step>, k: nat, id: nat)
    requires IsInitial(s) && k <= |trace| && id in Execute(s, trace[..k]).runs
    ensures id in Execute(s, trace).runs
  {
    if k < |trace| {
      var front, last := trace[..|trace| - 1], trace[|trace| - 1];
      assert front[..k] == trace[..k];
      RunsStay(s, front, k, id);
      StaysOnTrack(s, front);
      if last.run == id && !last.event.Begin? {
        StepIsStep(Execute(s, front), id, last.event);
      } else {
        OthersKeepRun(Execute(s, front), last, id);
      }
    } else {
      assert trace[..k] == trace;
    }
  }

  /** One more step keeps the run explained. */
  lemma OneMoreExplained(s: State, front: seq<Step>, last: Step, id: nat)
    requires IsInitial(s) && IsExplainedIn(s, front, id)
    ensures IsExplainedIn(s, front + [last], id)
  {
    var u, trace := Execute(s, front), front + [last];
    assert trace[..|front|] == front;
    StaysOnTrack(s, front);
    EverOneMore(s, front, last, ResponseFailureOf(id));
    if id !in u.runs {
      NoFailureBeforeItBegins(s, front, id);
      if id in Execute(s, trace).runs {
        Begins(u, last, id);
        FreshIsExplained(id, Execute(s, trace).runs[id], ResultOf(s, trace, id));
      }
    } else if last.run != id || last.event.Begin? {
      OthersKeepRun(u, last, id);
    } else {
      if u.runs[id].kind.Existing? { StoryHolds(s, front, id); }
      StepExplains(u, id, last.event, ResultOf(s, front, id), Ever(s, front, ResponseFailureOf(id)));
      assert last == Step(id, last.event);
    }
  }

  lemma {:induction false} ExplainedIn(s: State, trace: seq<Step>, id: nat)
    requires IsInitial(s)
    ensures IsExplainedIn(s, trace, id)
  {
    if trace != [] {
      var front, last := trace[..|trace| - 1], trace[|trace| - 1];
      ExplainedIn(s, front, id);
      OneMoreExplained(s, front, last, id);
      assert front + [last] == trace;
    }
  }

  // ---------- what is recorded ----------

  /** Whatever interleaves and whatever fails: a commit that holds an extraction is exactly the outcome of the run's own
      processing. Only if building the response failed is its status the catch-all's. */
  lemma {:induction false} RecordsTheOutcome(s: State, trace: seq<Step>, id: nat, k: nat)
    requires IsInitial(s) && id in Execute(s, trace).runs
    requires k < |Execute(s, trace).runs[id].wrote| && Execute(s, trace).runs[id].wrote[k].extraction.Some?
    ensures ResultOf(s, trace, id).Some?
    ensures var r := Execute(s, trace).runs[id];
            r.wrote[k] == Written(id, r.doc, r.model, ResultOf(s, trace, id).value,
                                  Ever(s, trace, ResponseFailureOf(id)))
  {
    ExplainedIn(s, trace, id);
  }

  /** A commit with an extraction shows its document as failed exactly if the extraction failed or building the
      response did, and as completed exactly if neither did. */
  lemma {:induction false} StatusTellsExtraction(s: State, trace: seq<Step>, id: nat, k: nat)
    requires IsInitial(s) && id in Execute(s, trace).runs
    requires k < |Execute(s, trace).runs[id].wrote| && Execute(s, trace).runs[id].wrote[k].extraction.Some?
    ensures var c := Execute(s, trace).runs[id].wrote[k];
            var overruled := Ever(s, trace, ResponseFailureOf(id));
            && (c.status == Some(DocFailed) <==> c.extraction.value.status.Failed? || overruled)
            && (c.status == Some(DocCompleted) <==>
                  c.extraction.value.status in {Completed, Partial} && !overruled)
  {
    RecordsTheOutcome(s, trace, id, k);
    match Execute(s, trace).runs[id].wrote[k].extraction.value.status
    case Partial =>
    case Completed =>
    case Failed =>
  }

  /** No catch-all overrules an upload: what it records, it shows. */
  lemma {:induction false} UploadShowsExtraction(s: State, trace: seq<Step>, id: nat, k: nat)
    requires IsInitial(s) && IsUpload(Execute(s, trace), id)
    requires k < |Execute(s, trace).runs[id].wrote| && Execute(s, trace).runs[id].wrote[k].extraction.Some?
    ensures var c := Execute(s, trace).runs[id].wrote[k];
            && (c.status == Some(DocFailed) <==> c.extraction.value.status.Failed?)
            && (c.status == Some(DocCompleted) <==> c.extraction.value.status in {Completed, Partial})
  {
    ExplainedIn(s, trace, id);
    StatusTellsExtraction(s, trace, id, k);
  }

  // ---------- what a run reads ----------

  /** A run on a stored document reads the file of its document. */
  ghost function ReadOf(id: nat): (State, Step) -> bool {
    (u: State, step: Step) =>
      && step.run == id && id in u.runs && u.runs[id].place.LoadFile? && step.event.Ok?
      && u.runs[id].doc in u.files
  }

  predicate IsPastLoading(r: Run) {
    r.kind.Existing? && (r.place.Processing? || IsAtRecord(r))
  }

  ghost predicate ReadsOnEntry(s: State, id: nat, e: Event, t: State)
    requires id in s.runs
  {
    && id in t.runs && t.runs[id].kind == s.runs[id].kind
    && (IsPastLoading(t.runs[id]) && !IsPastLoading(s.runs[id]) ==> ReadOf(id)(s, Step(id, e)))
  }

  lemma CreatePastLoading(s: State, id: nat, e: Event)
    requires id in s.runs && IsReachable(s.runs[id].kind, s.runs[id].place)
    requires var q := s.runs[id].place; q.Saving? || q.CreateFlush? || q.CreateCommit? || q.CreateRefresh? || q.Cleanup?
    ensures ReadsOnEntry(s, id, e, Create(s, id, s.runs[id], e))
  {
  }

  lemma PreparePastLoading(s: State, id: nat, e: Event)
    requires id in s.runs && IsReachable(s.runs[id].kind, s.runs[id].place)
    requires var q := s.runs[id].place;
             q.Enqueue? || q.Loading? || q.MarkFlush? || q.MarkCommit? || q.LoadFile? || q.Processing?
    ensures ReadsOnEntry(s, id, e, Prepare(s, id, s.runs[id], e))
  {
  }

  lemma KeepPastLoading(s: State, id: nat, e: Event)
    requires id in s.runs && IsAtRecord(s.runs[id])
    ensures ReadsOnEntry(s, id, e, Keep(s, id, s.runs[id], e))
  {
  }

  lemma CatchPastLoading(s: State, id: nat, e: Event)
    requires id in s.runs && (s.runs[id].place.CatchFlush? || s.runs[id].place.CatchCommit?)
    ensures ReadsOnEntry(s, id, e, Catch(s, id, s.runs[id], e))
  {
  }

  lemma StepPastLoading(s: State, id: nat, e: Event)
    requires id in s.runs && IsReachable(s.runs[id].kind, s.runs[id].place) && !e.Begin?
    ensures ReadsOnEntry(s, id, e, Next(s, id, e))
  {
    var q := s.runs[id].place;
    if q.Done? || e.Cancel? {
    } else if q.Saving? || q.CreateFlush? || q.CreateCommit? || q.CreateRefresh? || q.Cleanup? {
      CreatePastLoading(s, id, e);
    } else if IsAtRecord(s.runs[id]) {
      KeepPastLoading(s, id, e);
    } else if q.CatchFlush? || q.CatchCommit? {
      CatchPastLoading(s, id, e);
    } else {
      PreparePastLoading(s, id, e);
    }
  }

  /** The run has a result, or is about to get one, only after it has read the file. */
  ghost predicate HasReadFirst(u: State, id: nat, hasResult: bool, hasRead: bool) {
    && (id in u.runs && u.runs[id].kind.Existing? ==> (IsPastLoading(u.runs[id]) || hasResult ==> hasRead))
    && (id !in u.runs ==> !hasResult)
  }

  lemma StepReadsFirst(u: State, step: Step, id: nat, hasResult: bool, hasRead: bool)
    requires RunsOnTrack(u) && HasReadFirst(u, id, hasResult, hasRead)
    ensures HasReadFirst(Next(u, step.run, step.event), id, hasResult || IsResult(u, step, id),
                         hasRead || ReadOf(id)(u, step))
  {
    if id !in u.runs {
      if id in Next(u, step.run, step.event).runs { Begins(u, step, id); }
    } else if step.run != id || step.event.Begin? {
      OthersKeepRun(u, step, id);
    } else {
      StepPastLoading(u, id, step.event);
      assert step == Step(id, step.event);
    }
  }

  lemma ResultOneMore(s: State, front: seq<Step>, last: Step, id: nat)
    ensures Execute(s, front + [last]) == Next(Execute(s, front), last.run, last.event)
    ensures ResultOf(s, front + [last], id).Some?
            <==> ResultOf(s, front, id).Some? || IsResult(Execute(s, front), last, id)
  {
    var trace := front + [last];
    assert trace[..|trace| - 1] == front && trace[|trace| - 1] == last;
  }

  ghost predicate ReadsFirstIn(s: State, trace: seq<Step>, id: nat) {
    HasReadFirst(Execute(s, trace), id, ResultOf(s, trace, id).Some?, Ever(s, trace, ReadOf(id)))
  }

  lemma OneMoreReadsFirst(s: State, front: seq<Step>, last: Step, id: nat)
    requires IsInitial(s) && ReadsFirstIn(s, front, id)
    ensures ReadsFirstIn(s, front + [last], id)
  {
    var hasResult, hasRead := ResultOf(s, front, id).Some?, Ever(s, front, ReadOf(id));
    StaysOnTrack(s, front);
    StepReadsFirst(Execute(s, front), last, id, hasResult, hasRead);
    ResultOneMore(s, front, last, id);
    EverOneMore(s, front, last, ReadOf(id));
  }

  lemma {:induction false} ReadsFirst(s: State, trace: seq<Step>, id: nat)
    requires IsInitial(s)
    ensures ReadsFirstIn(s, trace, id)
  {
    if trace != [] {
      var front, last := trace[..|trace| - 1], trace[|trace| - 1];
      ReadsFirst(s, front, id);
      OneMoreReadsFirst(s, front, last, id);
      assert front + [last] == trace;
    }
  }

  /** A run on a stored document commits an extraction only if it has read the file: one that was lost, or never was
      there, gives none, whatever interleaves. */
  lemma {:induction false} ExtractionNeedsFile(s: State, trace: seq<Step>, id: nat, k: nat)
    requires IsInitial(s) && id in Execute(s, trace).runs && Execute(s, trace).runs[id].kind.Existing?
    requires k < |Execute(s, trace).runs[id].wrote| && Execute(s, trace).runs[id].wrote[k].extraction.Some?
    ensures Ever(s, trace, ReadOf(id))
  {
    RecordsTheOutcome(s, trace, id, k);
    ReadsFirst(s, trace, id);
  }
}
