/** What every step of every run keeps, whatever the interleaving and whatever fails. */
module LifecycleSafety {
  import opened LlmTokens
  import opened Ledger
  import opened Lifecycle
  import opened Options

  // ---------- one run ----------

  ghost predicate AreUsagesOf(x: Extraction, uses: seq<Usage>) {
    exists events :: AreClassifierEvents(events) && uses == UsageRows(x, events)
  }

  ghost predicate IsRecord(id: nat, doc: nat, record: Record) {
    && record.extraction.id == id && record.extraction.doc == doc
    && AreUsagesOf(record.extraction, record.uses)
    && record.status == StatusFor(record.extraction.status) && (record.raised ==> record.status.DocFailed?)
  }

  /** The changes record nothing, or an extraction with all its ledger rows. */
  ghost predicate IsWhole(id: nat, doc: nat, c: Changes) {
    if c.extraction.None? then c.uses == [] && c.status != Some(DocCompleted)
    else
      var x := c.extraction.value;
      x.id == id && x.doc == doc && AreUsagesOf(x, c.uses) && (c.status == Some(DocCompleted) ==> !x.status.Failed?)
  }

  /** What is pending after `n` flushes of a record. */
  function Prefix(record: Record, n: nat): Changes
    requires n <= 2 + |record.uses|
  {
    Changes(if n >= 1 then Some(record.status) else None, if n >= 2 then Some(record.extraction) else None,
            if n >= 2 then record.uses[..n - 2] else [])
  }

  ghost predicate HasRecorded(wrote: seq<Changes>) {
    exists k :: 0 <= k < |wrote| && wrote[k].extraction.Some?
  }

  function PlaceStatus(r: Run): DocumentStatus {
    if r.place.CreateCommit? || r.place.CreateRefresh? then InitialStatus(r.kind) else DocProcessing
  }

  /** Which kinds of runs get to a place. */
  predicate IsReachable(k: Kind, p: Place) {
    match p
    case Saving | CreateFlush | CreateCommit | CreateRefresh | Cleanup => !k.Existing?
    case Enqueue => k.Queued?
    case Loading | LoadFile | CatchFlush | CatchCommit => k.Existing?
    case MarkFlush | MarkCommit => !k.Queued?
    case _ => true
  }

  /** What holds of a run at the place it has reached. */
  ghost predicate IsOnTrack(id: nat, r: Run) {
    IsReachable(r.kind, r.place) &&
    match r.place
    case Saving | CreateFlush | Loading | MarkFlush => r.pending == NO_CHANGES && !HasRecorded(r.wrote)
    case Enqueue | CreateRefresh | LoadFile | Processing =>
      r.pending == NO_CHANGES && !HasRecorded(r.wrote) && r.seen == PlaceStatus(r)
    case CreateCommit | MarkCommit =>
      && r.pending.extraction.None? && r.pending.uses == [] && !HasRecorded(r.wrote)
      && r.seen == PlaceStatus(r) && r.pending.status in {None, Some(PlaceStatus(r))}
      && (r.place.CreateCommit? ==> r.pending.status.Some?)
    case Cleanup => !HasRecorded(r.wrote)
    case Recording(record, n) =>
      && IsRecord(id, r.doc, record) && !HasRecorded(r.wrote) && n < 2 + |record.uses|
      && r.pending == Prefix(record, n) && (n == 0 ==> r.seen == DocProcessing)
    case Refreshing(record) => IsFullyFlushed(id, r, record)
    case Responding(record) => IsFullyFlushed(id, r, record)
    case RecordCommit(record) => IsFullyFlushed(id, r, record)
    case CatchFlush => r.broken || IsCommittable(id, r)
    case CatchCommit => IsCommittable(id, r)
    case Done => r.pending == NO_CHANGES
  }

  ghost predicate IsCommittable(id: nat, r: Run) {
    IsWhole(id, r.doc, r.pending) && (r.pending.extraction.Some? ==> !HasRecorded(r.wrote))
  }

  ghost predicate IsFullyFlushed(id: nat, r: Run, record: Record) {
    && IsRecord(id, r.doc, record) && !HasRecorded(r.wrote)
    && r.pending == Changes(Some(record.status), Some(record.extraction), record.uses)
  }

  ghost predicate IsNamed(id: nat, r: Run) {
    !r.kind.Existing? ==> r.doc == id
  }

  ghost predicate RunsOnTrack(s: State) {
    forall id :: id in s.runs ==> id >= s.base && IsNamed(id, s.runs[id]) && IsOnTrack(id, s.runs[id])
  }

  // ---------- what a step can do ----------

  /** The step touches at most the file of the run's document and commits either nothing or all that is pending. */
  ghost predicate IsStep(s: State, id: nat, t: State)
    requires id in s.runs
  {
    && t.base == s.base && t.runs.Keys == s.runs.Keys
    && (forall k :: k in s.runs && k != id ==> t.runs[k] == s.runs[k])
    && t.runs[id].doc == s.runs[id].doc && t.runs[id].kind == s.runs[id].kind
    && (IsSilent(s, id, t) || IsCommit(s, id, t))
  }

  ghost predicate IsSilent(s: State, id: nat, t: State)
    requires id in s.runs && id in t.runs
  {
    t.db == s.db && t.runs[id].wrote == s.runs[id].wrote
  }

  ghost predicate IsCommit(s: State, id: nat, t: State)
    requires id in s.runs && id in t.runs
  {
    var r := s.runs[id];
    && t.db == Apply(s.db, r.doc, r.pending)
    && t.runs[id].wrote == r.wrote + [r.pending] && t.files == s.files
    && IsCommittable(id, r)
  }

  lemma WroteMore(wrote: seq<Changes>, c: Changes)
    ensures HasRecorded(wrote + [c]) <==> HasRecorded(wrote) || c.extraction.Some?
  {
    var all := wrote + [c];
    assert all[|wrote|] == c;
    if HasRecorded(wrote) {
      var k :| 0 <= k < |wrote| && wrote[k].extraction.Some?;
      assert all[k] == wrote[k];
    }
  }

  lemma RecordIsRecord(id: nat, doc: nat, model: string, p: Processed)
    requires IsClassifierUsage(p)
    ensures IsRecord(id, doc, RecordOf(id, doc, model, p))
  {
    assert AreClassifierEvents(EventsOf(p));
  }

  lemma FullyFlushedIsCommittable(id: nat, r: Run, record: Record)
    requires IsFullyFlushed(id, r, record)
    ensures IsCommittable(id, r)
  {
  }

  lemma CreateSteps(s: State, id: nat, e: Event)
    requires id in s.runs && IsOnTrack(id, s.runs[id])
    requires var p := s.runs[id].place; p.Saving? || p.CreateFlush? || p.CreateCommit? || p.CreateRefresh? || p.Cleanup?
    ensures IsStep(s, id, Create(s, id, s.runs[id], e))
  {
  }

  lemma CreateKeeps(s: State, id: nat, e: Event)
    requires id in s.runs && IsOnTrack(id, s.runs[id])
    requires var p := s.runs[id].place; p.Saving? || p.CreateFlush? || p.CreateCommit? || p.CreateRefresh? || p.Cleanup?
    ensures IsOnTrack(id, Create(s, id, s.runs[id], e).runs[id])
  {
    WroteMore(s.runs[id].wrote, s.runs[id].pending);
  }

  lemma PrepareSteps(s: State, id: nat, e: Event)
    requires id in s.runs && IsOnTrack(id, s.runs[id])
    requires var p := s.runs[id].place; p.Enqueue? || p.Loading? || p.LoadFile? || p.Processing?
    ensures IsStep(s, id, Prepare(s, id, s.runs[id], e))
  {
  }

  lemma QueueKeeps(s: State, id: nat, e: Event)
    requires id in s.runs && IsOnTrack(id, s.runs[id])
    requires s.runs[id].place.Enqueue?
    ensures IsOnTrack(id, Prepare(s, id, s.runs[id], e).runs[id])
  {
  }

  lemma LoadingKeeps(s: State, id: nat, e: Event)
    requires id in s.runs && IsOnTrack(id, s.runs[id])
    requires s.runs[id].place.Loading?
    ensures IsOnTrack(id, Prepare(s, id, s.runs[id], e).runs[id])
  {
  }

  lemma LoadFileKeeps(s: State, id: nat, e: Event)
    requires id in s.runs && IsOnTrack(id, s.runs[id])
    requires s.runs[id].place.LoadFile?
    ensures IsOnTrack(id, Prepare(s, id, s.runs[id], e).runs[id])
  {
  }

  lemma ProcessingKeeps(s: State, id: nat, e: Event)
    requires id in s.runs && IsOnTrack(id, s.runs[id])
    requires s.runs[id].place.Processing?
    ensures IsOnTrack(id, Prepare(s, id, s.runs[id], e).runs[id])
  {
    if e.Result? && IsClassifierUsage(e.processed) {
      RecordIsRecord(id, s.runs[id].doc, s.runs[id].model, e.processed);
    }
  }

  lemma PrepareKeeps(s: State, id: nat, e: Event)
    requires id in s.runs && IsOnTrack(id, s.runs[id])
    requires var p := s.runs[id].place; p.Enqueue? || p.Loading? || p.LoadFile? || p.Processing?
    ensures IsOnTrack(id, Prepare(s, id, s.runs[id], e).runs[id])
  {
    match s.runs[id].place
    case Enqueue => QueueKeeps(s, id, e);
    case Loading => LoadingKeeps(s, id, e);
    case LoadFile => LoadFileKeeps(s, id, e);
    case _ => ProcessingKeeps(s, id, e);
  }

  lemma MarkSteps(s: State, id: nat, e: Event)
    requires id in s.runs && IsOnTrack(id, s.runs[id])
    requires var p := s.runs[id].place; p.MarkFlush? || p.MarkCommit?
    ensures IsStep(s, id, Prepare(s, id, s.runs[id], e))
  {
  }

  lemma MarkFlushKeeps(s: State, id: nat, e: Event)
    requires id in s.runs && IsOnTrack(id, s.runs[id])
    requires s.runs[id].place.MarkFlush?
    ensures IsOnTrack(id, Prepare(s, id, s.runs[id], e).runs[id])
  {
  }

  lemma MarkCommitKeeps(s: State, id: nat, e: Event)
    requires id in s.runs && IsOnTrack(id, s.runs[id])
    requires s.runs[id].place.MarkCommit?
    ensures IsOnTrack(id, Prepare(s, id, s.runs[id], e).runs[id])
  {
    WroteMore(s.runs[id].wrote, s.runs[id].pending);
  }

  lemma MarkKeeps(s: State, id: nat, e: Event)
    requires id in s.runs && IsOnTrack(id, s.runs[id])
    requires var p := s.runs[id].place; p.MarkFlush? || p.MarkCommit?
    ensures IsOnTrack(id, Prepare(s, id, s.runs[id], e).runs[id])
  {
    if s.runs[id].place.MarkFlush? { MarkFlushKeeps(s, id, e); } else { MarkCommitKeeps(s, id, e); }
  }

  lemma FlushKeeps(id: nat, r: Run, record: Record, n: nat)
    requires r.place == Recording(record, n) && IsOnTrack(id, r)
    ensures IsOnTrack(id, Flush(r, record, n).(place := AfterFlush(record, n)))
  {
    if n >= 2 {
      assert record.uses[..n - 2] + [record.uses[n - 2]] == record.uses[..n + 1 - 2];
    }
    assert record.uses[..|record.uses|] == record.uses && record.uses[..0] == [];
  }

  lemma RecordingSteps(s: State, id: nat, e: Event)
    requires id in s.runs && IsOnTrack(id, s.runs[id])
    requires s.runs[id].place.Recording?
    ensures IsStep(s, id, Keep(s, id, s.runs[id], e))
  {
  }

  lemma RecordingKeeps(s: State, id: nat, e: Event)
    requires id in s.runs && IsOnTrack(id, s.runs[id])
    requires s.runs[id].place.Recording?
    ensures IsOnTrack(id, Keep(s, id, s.runs[id], e).runs[id])
  {
    FlushKeeps(id, s.runs[id], s.runs[id].place.record, s.runs[id].place.written);
  }

  lemma RefreshingSteps(s: State, id: nat, e: Event)
    requires id in s.runs && IsOnTrack(id, s.runs[id])
    requires var p := s.runs[id].place; p.Refreshing? || p.Responding?
    ensures IsStep(s, id, Keep(s, id, s.runs[id], e))
  {
  }

  /** A run that raises with a broken session, or with a whole record pending, is on track for the catch-all. */
  lemma RaiseKeeps(id: nat, r: Run)
    requires r.broken || IsCommittable(id, r)
    ensures IsOnTrack(id, Raise(r))
  {
  }

  lemma RefreshingKeeps(s: State, id: nat, e: Event)
    requires id in s.runs && IsOnTrack(id, s.runs[id])
    requires s.runs[id].place.Refreshing?
    ensures IsOnTrack(id, Keep(s, id, s.runs[id], e).runs[id])
  {
    var r := s.runs[id];
    RaiseKeeps(id, r.(broken := true));
  }

  lemma RespondingKeeps(s: State, id: nat, e: Event)
    requires id in s.runs && IsOnTrack(id, s.runs[id])
    requires s.runs[id].place.Responding?
    ensures IsOnTrack(id, Keep(s, id, s.runs[id], e).runs[id])
  {
    var r := s.runs[id];
    FullyFlushedIsCommittable(id, r, r.place.record);
    RaiseKeeps(id, r);
  }

  /** A step that keeps what the run has committed. */
  lemma PutSteps(s: State, id: nat, r: Run)
    requires id in s.runs
    requires r.doc == s.runs[id].doc && r.kind == s.runs[id].kind && r.wrote == s.runs[id].wrote
    ensures IsStep(s, id, Put(s, id, r))
  {
  }

  /** A step that commits what is pending. */
  lemma CommitSteps(s: State, id: nat, r: Run)
    requires id in s.runs && IsCommittable(id, s.runs[id])
    requires r.doc == s.runs[id].doc && r.kind == s.runs[id].kind && r.wrote == s.runs[id].wrote
    requires r.pending == s.runs[id].pending
    ensures IsStep(s, id, Commit(s, id, r))
  {
  }

  lemma RecordSteps(s: State, id: nat, e: Event)
    requires id in s.runs && IsOnTrack(id, s.runs[id])
    requires s.runs[id].place.RecordCommit?
    ensures IsStep(s, id, Keep(s, id, s.runs[id], e))
  {
    var r := s.runs[id];
    FullyFlushedIsCommittable(id, r, r.place.record);
    var q := (if e.Ok? && !r.place.record.raised then End(r, Finished(true)) else Raise(r)).(pending := r.pending);
    if e.Ok? {
      CommitSteps(s, id, q);
    } else if e.Fail? && e.applied {
      CommitSteps(s, id, q.(broken := true));
    } else {
      PutSteps(s, id, q.(pending := NO_CHANGES, broken := true));
    }
  }

  lemma NothingPendingIsOnTrack(id: nat, r: Run)
    requires r.pending == NO_CHANGES && (r.place.Done? || (r.place.CatchFlush? && r.kind.Existing?))
    ensures IsOnTrack(id, r)
  {
  }

  lemma RecordKeeps(s: State, id: nat, e: Event)
    requires id in s.runs && IsOnTrack(id, s.runs[id])
    requires s.runs[id].place.RecordCommit?
    ensures IsOnTrack(id, Keep(s, id, s.runs[id], e).runs[id])
  {
    NothingPendingIsOnTrack(id, Keep(s, id, s.runs[id], e).runs[id]);
  }

  lemma CatchSteps(s: State, id: nat, e: Event)
    requires id in s.runs && IsOnTrack(id, s.runs[id])
    requires s.runs[id].place in {CatchFlush, CatchCommit}
    ensures IsStep(s, id, Catch(s, id, s.runs[id], e))
  {
  }

  lemma CatchFlushKeeps(s: State, id: nat, e: Event)
    requires id in s.runs && IsOnTrack(id, s.runs[id])
    requires s.runs[id].place.CatchFlush?
    ensures IsOnTrack(id, Catch(s, id, s.runs[id], e).runs[id])
  {
  }

  lemma CatchCommitKeeps(s: State, id: nat, e: Event)
    requires id in s.runs && IsOnTrack(id, s.runs[id])
    requires s.runs[id].place.CatchCommit?
    ensures IsOnTrack(id, Catch(s, id, s.runs[id], e).runs[id])
  {
    WroteMore(s.runs[id].wrote, s.runs[id].pending);
  }

  lemma CatchKeeps(s: State, id: nat, e: Event)
    requires id in s.runs && IsOnTrack(id, s.runs[id])
    requires s.runs[id].place in {CatchFlush, CatchCommit}
    ensures IsOnTrack(id, Catch(s, id, s.runs[id], e).runs[id])
  {
    if s.runs[id].place.CatchFlush? { CatchFlushKeeps(s, id, e); } else { CatchCommitKeeps(s, id, e); }
  }

  lemma {:induction false} StepIsStep(s: State, id: nat, e: Event)
    requires id in s.runs && IsOnTrack(id, s.runs[id]) && !e.Begin?
    ensures IsStep(s, id, Next(s, id, e))
  {
    var p := s.runs[id].place;
    if p.Done? || e.Cancel? {
    } else if p.Saving? || p.CreateFlush? || p.CreateCommit? || p.CreateRefresh? || p.Cleanup? {
      CreateSteps(s, id, e);
    } else if p.Enqueue? || p.Loading? || p.LoadFile? || p.Processing? {
      PrepareSteps(s, id, e);
    } else if p.MarkFlush? || p.MarkCommit? {
      MarkSteps(s, id, e);
    } else if p.Recording? {
      RecordingSteps(s, id, e);
    } else if p.Refreshing? || p.Responding? {
      RefreshingSteps(s, id, e);
    } else if p.RecordCommit? {
      RecordSteps(s, id, e);
    } else {
      CatchSteps(s, id, e);
    }
  }

  lemma StepStaysOnTrack(s: State, id: nat, e: Event)
    requires id in s.runs && IsOnTrack(id, s.runs[id]) && !e.Begin?
    ensures id in Next(s, id, e).runs && IsOnTrack(id, Next(s, id, e).runs[id])
  {
    StepIsStep(s, id, e);
    var p := s.runs[id].place;
    if p.Done? || e.Cancel? {
    } else if p.Saving? || p.CreateFlush? || p.CreateCommit? || p.CreateRefresh? || p.Cleanup? {
      CreateKeeps(s, id, e);
    } else if p.Enqueue? || p.Loading? || p.LoadFile? || p.Processing? {
      PrepareKeeps(s, id, e);
    } else if p.MarkFlush? || p.MarkCommit? {
      MarkKeeps(s, id, e);
    } else if p.Recording? {
      RecordingKeeps(s, id, e);
    } else if p.Refreshing? {
      RefreshingKeeps(s, id, e);
    } else if p.Responding? {
      RespondingKeeps(s, id, e);
    } else if p.RecordCommit? {
      RecordKeeps(s, id, e);
    } else {
      CatchKeeps(s, id, e);
    }
  }

  // ---------- the ledger ----------

  /** The ledger accounts for all extractions, and an extraction named after a run is one this run recorded. */
  ghost predicate LedgerIsKept(s: State) {
    && Accounts(s.db.extractions, s.db.uses)
    && forall i :: 0 <= i < |s.db.extractions| ==> IsRecorded(s, s.db.extractions[i].id)
  }

  ghost predicate IsRecorded(s: State, x: nat) {
    if x in s.runs then HasRecorded(s.runs[x].wrote) else x < s.base
  }

  /** Committing the changes of a run whose extraction id is fresh keeps the ledger in order. */
  lemma WholeChangesAccount(db: Database, id: nat, doc: nat, c: Changes)
    requires Accounts(db.extractions, db.uses) && IsWhole(id, doc, c)
    requires c.extraction.Some? ==> !HasExtraction(db.extractions, id)
    ensures var t := Apply(db, doc, c); Accounts(t.extractions, t.uses)
  {
    if c.extraction.None? {
      assert db.uses + c.uses == db.uses;
    } else {
      var events :| AreClassifierEvents(events) && c.uses == UsageRows(c.extraction.value, events);
      RecordingAccounts(db.extractions, db.uses, c.extraction.value, events);
    }
  }

  lemma StaysRecorded(s: State, id: nat, t: State, x: nat)
    requires id in s.runs && IsStep(s, id, t) && IsRecorded(s, x)
    ensures IsRecorded(t, x)
  {
    WroteMore(s.runs[id].wrote, s.runs[id].pending);
  }

  lemma LedgerStep(s: State, id: nat, t: State)
    requires id in s.runs && IsStep(s, id, t) && LedgerIsKept(s)
    ensures LedgerIsKept(t)
  {
    var r, c := s.runs[id], s.runs[id].pending;
    forall i | 0 <= i < |s.db.extractions| ensures IsRecorded(t, s.db.extractions[i].id) {
      StaysRecorded(s, id, t, s.db.extractions[i].id);
    }
    if IsSilent(s, id, t) {
    } else {
      if c.extraction.Some? {
        forall i | 0 <= i < |s.db.extractions| ensures s.db.extractions[i].id != id {
          assert IsRecorded(s, s.db.extractions[i].id);
        }
      }
      WholeChangesAccount(s.db, id, r.doc, c);
      if c.extraction.Some? { WroteMore(r.wrote, c); }
    }
  }

  // ---------- completed documents ----------

  ghost predicate HasResult(xs: seq<Extraction>, doc: nat) {
    exists i :: 0 <= i < |xs| && xs[i].doc == doc && !xs[i].status.Failed?
  }

  ghost predicate CompletedHaveResults(db: Database) {
    forall d :: d in db.docs && db.docs[d].DocCompleted? ==> HasResult(db.extractions, d)
  }

  lemma ResultsStep(s: State, id: nat, t: State)
    requires id in s.runs && IsStep(s, id, t) && CompletedHaveResults(s.db)
    ensures CompletedHaveResults(t.db)
  {
    forall d | d in t.db.docs && t.db.docs[d].DocCompleted? ensures HasResult(t.db.extractions, d) {
      if HasResult(s.db.extractions, d) {
        var i :| 0 <= i < |s.db.extractions| && s.db.extractions[i].doc == d && !s.db.extractions[i].status.Failed?;
        assert t.db.extractions[i] == s.db.extractions[i];
      } else {
        assert t.db.extractions[|s.db.extractions|] == s.runs[id].pending.extraction.value;
      }
    }
  }

  // ---------- files ----------

  /** Whether an upload has its document row and its file, place by place. */
  predicate IsStored(r: Run, inDocs: bool, inFiles: bool) {
    (r.late ==> r.place.Cleanup? || r.place.Done?) && (r.exit.Running? <==> !r.place.Done?) &&
    match r.place
    case Saving => !inDocs && !inFiles
    case CreateFlush | CreateCommit => !inDocs && inFiles
    case Cleanup => inFiles && (inDocs <==> r.late)
    case Done => (
      match r.exit
      case Running => true
      case Finished(_) | NotFound => inDocs <==> inFiles
      case CleanedUp(deleted) => (inDocs <==> r.late) && (inFiles <==> !deleted)
      case Cancelled => inDocs ==> inFiles)
    case _ => inDocs && inFiles
  }

  predicate IsUpload(s: State, d: nat) {
    d in s.runs && !s.runs[d].kind.Existing?
  }

  /** A run on a stored document that found it. */
  predicate HasFound(r: Run) {
    r.kind.Existing? && !r.place.Loading? && !r.place.Done?
  }

  ghost predicate FilesAreKept(s: State) {
    && (forall d :: d in s.db.docs || d in s.files ==> d < s.base || d in s.runs)
    && (forall d :: IsUpload(s, d) ==> IsStored(s.runs[d], d in s.db.docs, d in s.files))
    && (forall d :: !IsUpload(s, d) ==> (d in s.db.docs <==> d in s.files))
    && (forall id :: id in s.runs && HasFound(s.runs[id]) ==> s.runs[id].doc in s.db.docs)
  }

  /** The step concerns the run's own document and file only, and a run on a stored document leaves files alone. */
  ghost predicate TouchesOwn(s: State, id: nat, t: State)
    requires id in s.runs
  {
    var r := s.runs[id];
    && (forall d :: d != r.doc ==> (d in t.db.docs <==> d in s.db.docs))
    && (forall d :: d != r.doc ==> (d in t.files <==> d in s.files))
    && (r.kind.Existing? ==> t.files == s.files)
    && (r.doc in s.db.docs ==> r.doc in t.db.docs)
    && (r.kind.Existing? && !HasFound(r) ==> t.db == s.db)
  }

  lemma CreateTouchesOwn(s: State, id: nat, e: Event)
    requires id in s.runs && !s.runs[id].kind.Existing?
    ensures TouchesOwn(s, id, Create(s, id, s.runs[id], e))
  {
  }

  lemma PrepareTouchesOwn(s: State, id: nat, e: Event)
    requires id in s.runs && IsReachable(s.runs[id].kind, s.runs[id].place)
    ensures TouchesOwn(s, id, Prepare(s, id, s.runs[id], e))
  {
  }

  lemma KeepTouchesOwn(s: State, id: nat, e: Event)
    requires id in s.runs
    ensures TouchesOwn(s, id, Keep(s, id, s.runs[id], e))
  {
  }

  lemma CatchTouchesOwn(s: State, id: nat, e: Event)
    requires id in s.runs
    ensures TouchesOwn(s, id, Catch(s, id, s.runs[id], e))
  {
  }

  lemma StepTouchesOwn(s: State, id: nat, e: Event)
    requires id in s.runs && !e.Begin? && IsReachable(s.runs[id].kind, s.runs[id].place)
    ensures TouchesOwn(s, id, Next(s, id, e))
  {
    var p := s.runs[id].place;
    if p.Done? || e.Cancel? {
    } else if p.Saving? || p.CreateFlush? || p.CreateCommit? || p.CreateRefresh? || p.Cleanup? {
      CreateTouchesOwn(s, id, e);
    } else if p.Recording? || p.Refreshing? || p.Responding? || p.RecordCommit? {
      KeepTouchesOwn(s, id, e);
    } else if p.CatchFlush? || p.CatchCommit? {
      CatchTouchesOwn(s, id, e);
    } else {
      PrepareTouchesOwn(s, id, e);
    }
  }

  lemma CreateStaysStored(s: State, id: nat, e: Event)
    requires id in s.runs && IsOnTrack(id, s.runs[id]) && s.runs[id].doc == id
    requires IsStored(s.runs[id], id in s.db.docs, id in s.files)
    requires var p := s.runs[id].place;
             p.Saving? || p.CreateFlush? || p.CreateCommit? || p.CreateRefresh? || p.Cleanup?
    ensures var t := Create(s, id, s.runs[id], e);
            id in t.runs && IsStored(t.runs[id], id in t.db.docs, id in t.files)
  {
  }

  lemma KeepStaysStored(s: State, id: nat, e: Event)
    requires id in s.runs && IsOnTrack(id, s.runs[id]) && s.runs[id].doc == id && !s.runs[id].kind.Existing?
    requires IsStored(s.runs[id], id in s.db.docs, id in s.files)
    requires var p := s.runs[id].place; p.Recording? || p.Refreshing? || p.Responding? || p.RecordCommit?
    ensures var t := Keep(s, id, s.runs[id], e);
            id in t.runs && IsStored(t.runs[id], id in t.db.docs, id in t.files)
  {
  }

  lemma PrepareStaysStored(s: State, id: nat, e: Event)
    requires id in s.runs && IsOnTrack(id, s.runs[id]) && s.runs[id].doc == id && !s.runs[id].kind.Existing?
    requires IsStored(s.runs[id], id in s.db.docs, id in s.files)
    requires var p := s.runs[id].place; p.Enqueue? || p.MarkFlush? || p.MarkCommit? || p.Processing?
    ensures var t := Prepare(s, id, s.runs[id], e);
            id in t.runs && IsStored(t.runs[id], id in t.db.docs, id in t.files)
  {
  }

  lemma UploadStaysStored(s: State, id: nat, e: Event)
    requires id in s.runs && !e.Begin? && IsOnTrack(id, s.runs[id]) && !s.runs[id].kind.Existing?
             && s.runs[id].doc == id
    requires IsStored(s.runs[id], id in s.db.docs, id in s.files)
    ensures var t := Next(s, id, e); id in t.runs && IsStored(t.runs[id], id in t.db.docs, id in t.files)
  {
    var p := s.runs[id].place;
    if p.Done? || e.Cancel? {
    } else if p.Saving? || p.CreateFlush? || p.CreateCommit? || p.CreateRefresh? || p.Cleanup? {
      CreateStaysStored(s, id, e);
    } else if p.Recording? || p.Refreshing? || p.Responding? || p.RecordCommit? {
      KeepStaysStored(s, id, e);
    } else {
      PrepareStaysStored(s, id, e);
    }
  }

  lemma FindsWhatIsStored(s: State, id: nat, e: Event)
    requires id in s.runs && !e.Begin? && s.runs[id].place.Loading?
    ensures var t := Next(s, id, e); id in t.runs && (HasFound(t.runs[id]) ==> s.runs[id].doc in s.db.docs)
  {
  }

  lemma FoundStaysFound(s: State, id: nat, e: Event)
    requires id in s.runs && !e.Begin? && IsOnTrack(id, s.runs[id])
    requires HasFound(s.runs[id]) ==> s.runs[id].doc in s.db.docs
    ensures var t := Next(s, id, e); id in t.runs && (HasFound(t.runs[id]) ==> t.runs[id].doc in t.db.docs)
  {
    StepIsStep(s, id, e);
    StepTouchesOwn(s, id, e);
    if s.runs[id].place.Loading? { FindsWhatIsStored(s, id, e); }
  }

  lemma FilesStep(s: State, id: nat, e: Event)
    requires id in s.runs && !e.Begin? && RunsOnTrack(s) && FilesAreKept(s)
    ensures FilesAreKept(Next(s, id, e))
  {
    var r, t := s.runs[id], Next(s, id, e);
    StepIsStep(s, id, e);
    StepTouchesOwn(s, id, e);
    FoundStaysFound(s, id, e);
    if !r.kind.Existing? { UploadStaysStored(s, id, e); }
    forall d | d in t.db.docs || d in t.files ensures d < t.base || d in t.runs {
      if d == r.doc && !r.kind.Existing? { assert d == id; }
    }
    forall d | IsUpload(t, d) ensures IsStored(t.runs[d], d in t.db.docs, d in t.files) {
      if d != id { assert IsUpload(s, d) && d in s.runs; }
    }
    forall d | !IsUpload(t, d) ensures d in t.db.docs <==> d in t.files {
      assert !IsUpload(s, d);
    }
    forall k | k in t.runs && HasFound(t.runs[k]) ensures t.runs[k].doc in t.db.docs {
      if k != id { assert k in s.runs && HasFound(s.runs[k]); }
    }
  }

  // ---------- all runs ----------

  ghost predicate Invariant(s: State) {
    RunsOnTrack(s) && LedgerIsKept(s) && CompletedHaveResults(s.db) && FilesAreKept(s)
  }

  /** A service that starts: the ledger is in order (the migration sees to it), completed documents have their
      results, files are those of the documents. An empty database is a special case. */
  ghost predicate IsInitial(s: State) {
    && s.runs == map[] && Accounts(s.db.extractions, s.db.uses) && CompletedHaveResults(s.db)
    && (forall i :: 0 <= i < |s.db.extractions| ==> s.db.extractions[i].id < s.base)
    && s.db.docs.Keys == s.files && (forall d :: d in s.files ==> d < s.base)
  }

  lemma StartKeeps(s: State, id: nat, e: Event)
    requires Invariant(s) && e.Begin?
    ensures Invariant(Start(s, id, e))
  {
    var t := Start(s, id, e);
    if t != s {
      forall k | k in t.runs ensures k >= t.base && IsNamed(k, t.runs[k]) && IsOnTrack(k, t.runs[k]) {
        if k != id { assert k in s.runs; }
      }
      forall i | 0 <= i < |t.db.extractions| ensures IsRecorded(t, t.db.extractions[i].id) {
        assert IsRecorded(s, s.db.extractions[i].id);
      }
      StartKeepsFiles(s, id, e);
    }
  }

  lemma StartKeepsFiles(s: State, id: nat, e: Event)
    requires RunsOnTrack(s) && FilesAreKept(s) && e.Begin? && id !in s.runs && id >= s.base
    ensures FilesAreKept(Start(s, id, e))
  {
    var t := Start(s, id, e);
    assert id !in s.db.docs && id !in s.files;
    forall d ensures IsUpload(t, d) <==> IsUpload(s, d) || (d == id && !e.kind.Existing?) {}
    forall d | IsUpload(t, d) ensures IsStored(t.runs[d], d in t.db.docs, d in t.files) {
      if d != id { assert IsUpload(s, d); }
    }
    forall d | !IsUpload(t, d) ensures d in t.db.docs <==> d in t.files {
      assert !IsUpload(s, d);
    }
  }

  lemma NextKeeps(s: State, id: nat, e: Event)
    requires Invariant(s)
    ensures Invariant(Next(s, id, e))
  {
    if e.Begin? {
      StartKeeps(s, id, e);
    } else if id in s.runs {
      var t := Next(s, id, e);
      assert IsOnTrack(id, s.runs[id]);
      StepIsStep(s, id, e);
      LedgerStep(s, id, t);
      ResultsStep(s, id, t);
      FilesStep(s, id, e);
      StepStaysOnTrack(s, id, e);
      forall k | k in t.runs ensures k >= t.base && IsNamed(k, t.runs[k]) && IsOnTrack(k, t.runs[k]) {
        if k != id { assert k in s.runs && t.runs[k] == s.runs[k]; }
      }
    }
  }

  lemma {:induction false} InvariantHolds(s: State, trace: seq<Step>)
    requires IsInitial(s)
    ensures Invariant(Execute(s, trace))
  {
    if trace != [] {
      var last := trace[|trace| - 1];
      InvariantHolds(s, trace[..|trace| - 1]);
      NextKeeps(Execute(s, trace[..|trace| - 1]), last.run, last.event);
    }
  }

  // ---------- what it means ----------

  lemma {:induction false} StaysOnTrack(s: State, trace: seq<Step>)
    requires IsInitial(s)
    ensures RunsOnTrack(Execute(s, trace))
  {
    InvariantHolds(s, trace);
  }

  /** Whatever interleaves and whatever fails: each recorded extraction is billed by exactly one extraction row
      of the ledger, with its document, model and tokens, and by at most one classifier row; nothing else is
      billed; and the tokens of all extractions are the tokens of all extraction rows. */
  lemma {:induction false} LedgerTheorem(s: State, trace: seq<Step>)
    requires IsInitial(s)
    ensures var db := Execute(s, trace).db;
            && (forall i :: 0 <= i < |db.extractions| ==>
                  IsBilled(db.extractions[i], UsagesOf(db.uses, db.extractions[i].id)))
            && (forall i :: 0 <= i < |db.uses| ==> HasExtraction(db.extractions, db.uses[i].extraction))
            && Extracted(db.extractions) == Billed(db.uses)
  {
    InvariantHolds(s, trace);
  }

  /** A document that is shown as completed has an extraction that is completed or partial. */
  lemma {:induction false} CompletedTheorem(s: State, trace: seq<Step>, d: nat)
    requires IsInitial(s)
    ensures var db := Execute(s, trace).db;
            d in db.docs && db.docs[d].DocCompleted? ==>
              exists i :: 0 <= i < |db.extractions| && db.extractions[i].doc == d
                          && db.extractions[i].status in {Completed, Partial}
  {
    InvariantHolds(s, trace);
    var db := Execute(s, trace).db;
    if d in db.docs && db.docs[d].DocCompleted? {
      assert HasResult(db.extractions, d);
      var i :| 0 <= i < |db.extractions| && db.extractions[i].doc == d && !db.extractions[i].status.Failed?;
      assert db.extractions[i].status in {Completed, Partial};
    }
  }

  /** The upload `d` was cleaned up although its document had been committed. */
  predicate LostItsFile(s: State, d: nat) {
    IsUpload(s, d) && s.runs[d].late && s.runs[d].exit == CleanedUp(true)
  }

  /** Why a file may be there without a document: its upload is under way, or its cleanup failed, or it was
      cancelled. */
  predicate IsExcused(s: State, f: nat) {
    IsUpload(s, f) &&
    (s.runs[f].place.CreateFlush? || s.runs[f].place.CreateCommit? || s.runs[f].place.Cleanup?
     || s.runs[f].exit == CleanedUp(false) || s.runs[f].exit.Cancelled?)
  }

  /** A committed document lacks its file exactly when creating it raised after the commit had taken effect and the
      cleanup then deleted the file; a file without a document is one of an upload under way, of a cleanup that
      failed or of a cancelled upload. */
  lemma {:induction false} FilesTheorem(s: State, trace: seq<Step>, d: nat)
    requires IsInitial(s)
    ensures var t := Execute(s, trace);
            && (d in t.db.docs ==> (d !in t.files <==> LostItsFile(t, d)))
            && (d in t.files && d !in t.db.docs ==> IsExcused(t, d))
  {
    InvariantHolds(s, trace);
    var t := Execute(s, trace);
    if IsUpload(t, d) { StoredMeans(t.runs[d], d in t.db.docs, d in t.files); }
  }

  lemma StoredMeans(r: Run, inDocs: bool, inFiles: bool)
    requires IsStored(r, inDocs, inFiles)
    ensures inDocs ==> (!inFiles <==> r.late && r.exit == CleanedUp(true))
    ensures inFiles && !inDocs ==> r.place.CreateFlush? || r.place.CreateCommit? || r.place.Cleanup?
                                   || r.exit == CleanedUp(false) || r.exit.Cancelled?
  {
  }
}
