/** Concrete schedules in which less holds than one might expect. */
module LifecycleSchedules {
  import opened LlmTokens
  import opened Ledger
  import opened Lifecycle
  import opened LifecycleSafety
  import opened Options

  ghost predicate IsUploading(u: State, place: Place, stored: bool) {
    && 0 in u.runs && u.runs[0].kind.Inline? && u.runs[0].doc == 0 && u.runs[0].place == place
    && 0 in u.files && (stored <==> 0 in u.db.docs) && (u.runs[0].late <==> place.Cleanup?)
    && (place.CreateCommit? ==> u.runs[0].pending.status.Some?)
  }

  lemma Creates(u: State)
    requires IsUploading(u, CreateFlush, false)
    ensures IsUploading(Next(u, 0, Ok), CreateCommit, false)
  {
  }

  lemma CommitsCreation(u: State)
    requires IsUploading(u, CreateCommit, false)
    ensures IsUploading(Next(u, 0, Ok), CreateRefresh, true)
  {
  }

  lemma FailsToRefresh(u: State)
    requires IsUploading(u, CreateRefresh, true)
    ensures IsUploading(Next(u, 0, Fail(false)), Cleanup, true)
  {
  }

  lemma CleansUp(u: State)
    requires IsUploading(u, Cleanup, true)
    ensures var t := Next(u, 0, Ok); 0 in t.db.docs && 0 !in t.files && LostItsFile(t, 0)
  {
  }

  /** An upload saves its file and is about to commit its document. */
  lemma Uploads() returns (trace: seq<Step>)
    ensures IsUploading(Execute(EMPTY, trace), CreateCommit, false)
  {
    trace := Go(EMPTY, [], 0, Begin(Inline, 0, ""));
    trace := Go(EMPTY, trace, 0, Ok);
    assert IsUploading(Execute(EMPTY, trace), CreateFlush, false);
    Creates(Execute(EMPTY, trace));
    trace := Go(EMPTY, trace, 0, Ok);
  }

  /** The document of an upload is committed, refreshing it fails, and the cleanup deletes its file. */
  lemma CommittedWithoutFile() returns (trace: seq<Step>)
    ensures IsInitial(EMPTY)
    ensures var t := Execute(EMPTY, trace); 0 in t.db.docs && 0 !in t.files && LostItsFile(t, 0)
  {
    trace := Uploads();
    CommitsCreation(Execute(EMPTY, trace));
    trace := Go(EMPTY, trace, 0, Ok);
    FailsToRefresh(Execute(EMPTY, trace));
    trace := Go(EMPTY, trace, 0, Fail(false));
    CleansUp(Execute(EMPTY, trace));
    trace := Go(EMPTY, trace, 0, Ok);
  }

  /** A stored document 0 without any extraction; runs 1 and 2 read it. */
  const STORED := State(Database(map[0 := DocUploaded], [], []), {0}, map[], 1)

  /** Run `id` on document 0 is at `place` after `n` commits; the document has status `st`, the run saw `seen`. */
  ghost predicate IsAt(u: State, st: DocumentStatus, id: nat, place: Place, seen: DocumentStatus,
                       status: Option<DocumentStatus>, n: nat)
  {
    && 0 in u.db.docs && u.db.docs[0] == st && 0 in u.files && id in u.runs
    && var r := u.runs[id];
    && r.kind.Existing? && r.doc == 0 && r.place == place && r.seen == seen && r.pending.status == status
    && !r.broken && |r.wrote| == n
  }

  lemma Starts(u: State, id: nat, st: DocumentStatus)
    requires id !in u.runs && id >= u.base && 0 in u.db.docs && u.db.docs[0] == st && 0 in u.files
    ensures var t := Next(u, id, Begin(Existing, 0, ""));
            IsAt(t, st, id, Loading, DocUploaded, None, 0) && OthersStay(u, id, t)
  {
  }

  /** Where one successful operation takes such a run. */
  lemma Loads(u: State, id: nat, st: DocumentStatus)
    requires IsAt(u, st, id, Loading, DocUploaded, None, 0)
    ensures IsAt(Next(u, id, Ok), st, id, MarkFlush, st, None, 0)
  {
  }

  lemma FlushesMark(u: State, id: nat, st: DocumentStatus)
    requires IsAt(u, st, id, MarkFlush, st, None, 0) && !st.DocProcessing?
    ensures IsAt(Next(u, id, Ok), st, id, MarkCommit, DocProcessing, Some(DocProcessing), 0)
  {
  }

  lemma CommitsMark(u: State, id: nat, st: DocumentStatus)
    requires IsAt(u, st, id, MarkCommit, DocProcessing, Some(DocProcessing), 0)
    ensures IsAt(Next(u, id, Ok), DocProcessing, id, LoadFile, DocProcessing, None, 1)
  {
  }

  lemma FlushesStatus(u: State, id: nat, record: Record)
    requires IsAt(u, DocProcessing, id, Recording(record, 0), DocProcessing, None, 1) && IsFailure(record)
    ensures IsAt(Next(u, id, Ok), DocProcessing, id, Recording(record, 1), DocFailed, Some(DocFailed), 1)
  {
  }

  lemma FlushesRow(u: State, id: nat, record: Record, n: nat)
    requires IsAt(u, DocProcessing, id, Recording(record, n), DocFailed, Some(DocFailed), 1) && IsFailure(record)
             && 1 <= n <= 2
    ensures IsAt(Next(u, id, Ok), DocProcessing, id,
                 if n == 1 then Recording(record, 2) else RecordCommit(record), DocFailed,
                 Some(DocFailed), 1)
  {
  }

  lemma CommitsRecord(u: State, id: nat, record: Record)
    requires IsAt(u, DocProcessing, id, RecordCommit(record), DocFailed, Some(DocFailed), 1) && IsFailure(record)
    ensures IsAt(Next(u, id, Ok), DocFailed, id, CatchFlush, DocFailed, None, 2)
  {
  }

  /** Apart from run `id`, the runs are where they were. */
  ghost predicate OthersStay(u: State, id: nat, t: State) {
    && t.base == u.base && t.runs.Keys == u.runs.Keys + {id}
    && forall k :: k in u.runs && k != id ==> k in t.runs && t.runs[k] == u.runs[k]
  }

  /** The step of a run leaves the other runs where they are. */
  lemma GoOn(s: State, trace: seq<Step>, id: nat, e: Event) returns (longer: seq<Step>)
    requires IsInitial(s) && id in Execute(s, trace).runs && !e.Begin?
    ensures Execute(s, longer) == Next(Execute(s, trace), id, e)
    ensures OthersStay(Execute(s, trace), id, Execute(s, longer))
  {
    longer := Go(s, trace, id, e);
    StaysOnTrack(s, trace);
    StepIsStep(Execute(s, trace), id, e);
  }

  lemma OthersStayOn(u: State, id: nat, t: State, v: State)
    requires OthersStay(u, id, t) && OthersStay(t, id, v)
    ensures OthersStay(u, id, v)
  {
  }

  lemma BeginsAndLoads(s: State, trace: seq<Step>, id: nat, st: DocumentStatus) returns (longer: seq<Step>)
    requires IsInitial(s) && CanMark(Execute(s, trace), id, st)
    ensures IsAt(Execute(s, longer), st, id, MarkFlush, st, None, 0)
    ensures OthersStay(Execute(s, trace), id, Execute(s, longer))
  {
    var u := Execute(s, trace);
    Starts(u, id, st);
    longer := Go(s, trace, id, Begin(Existing, 0, ""));
    var t := Execute(s, longer);
    Loads(t, id, st);
    longer := GoOn(s, longer, id, Ok);
    OthersStayOn(u, id, t, Execute(s, longer));
  }

  lemma FlushesAndCommits(s: State, trace: seq<Step>, id: nat, st: DocumentStatus) returns (longer: seq<Step>)
    requires IsInitial(s) && IsAt(Execute(s, trace), st, id, MarkFlush, st, None, 0) && !st.DocProcessing?
    ensures IsAt(Execute(s, longer), DocProcessing, id, LoadFile, DocProcessing, None, 1)
    ensures OthersStay(Execute(s, trace), id, Execute(s, longer))
  {
    var u := Execute(s, trace);
    FlushesMark(u, id, st);
    longer := GoOn(s, trace, id, Ok);
    var t := Execute(s, longer);
    CommitsMark(t, id, st);
    longer := GoOn(s, longer, id, Ok);
    OthersStayOn(u, id, t, Execute(s, longer));
  }

  ghost predicate CanMark(u: State, id: nat, st: DocumentStatus) {
    id !in u.runs && id >= u.base && 0 in u.db.docs && u.db.docs[0] == st && !st.DocProcessing? && 0 in u.files
  }

  /** A run loads document 0 and marks it. */
  lemma Marks(s: State, trace: seq<Step>, id: nat, st: DocumentStatus) returns (longer: seq<Step>)
    requires IsInitial(s) && CanMark(Execute(s, trace), id, st)
    ensures IsAt(Execute(s, longer), DocProcessing, id, LoadFile, DocProcessing, None, 1)
    ensures OthersStay(Execute(s, trace), id, Execute(s, longer))
  {
    longer := BeginsAndLoads(s, trace, id, st);
    var t := Execute(s, longer);
    longer := FlushesAndCommits(s, longer, id, st);
    OthersStayOn(Execute(s, trace), id, t, Execute(s, longer));
  }

  const RAISED := Processed(true, Failed, Tokens(0, 0), None)

  /** The record of an extraction error. */
  ghost predicate IsFailure(record: Record) {
    |record.uses| == 1 && record.raised && record.status.DocFailed?
  }

  lemma LoadsFile(u: State, id: nat)
    requires IsAt(u, DocProcessing, id, LoadFile, DocProcessing, None, 1)
    ensures IsAt(Next(u, id, Ok), DocProcessing, id, Processing, DocProcessing, None, 1)
  {
  }

  lemma Raises(u: State, id: nat)
    requires IsAt(u, DocProcessing, id, Processing, DocProcessing, None, 1)
    ensures IsFailure(RecordOf(id, 0, u.runs[id].model, RAISED))
    ensures IsAt(Next(u, id, Result(RAISED)), DocProcessing, id,
                 Recording(RecordOf(id, 0, u.runs[id].model, RAISED), 0), DocProcessing, None, 1)
  {
  }

  /** Run 1 is the only one. */
  ghost predicate IsAlone(u: State) {
    u.base == 1 && u.runs.Keys == {1}
  }

  lemma GoOnAlone(trace: seq<Step>, e: Event) returns (longer: seq<Step>)
    requires IsAlone(Execute(STORED, trace)) && !e.Begin?
    ensures Execute(STORED, longer) == Next(Execute(STORED, trace), 1, e) && IsAlone(Execute(STORED, longer))
  {
    longer := GoOn(STORED, trace, 1, e);
  }

  lemma StartsAlone() returns (trace: seq<Step>)
    ensures IsAt(Execute(STORED, trace), DocProcessing, 1, LoadFile, DocProcessing, None, 1)
    ensures IsAlone(Execute(STORED, trace))
  {
    trace := Marks(STORED, [], 1, DocUploaded);
  }

  /** Run 1 loads the file and gets an extraction error. */
  lemma RaisesError() returns (trace: seq<Step>, record: Record)
    ensures IsFailure(record)
    ensures IsAt(Execute(STORED, trace), DocProcessing, 1, Recording(record, 0), DocProcessing, None, 1)
    ensures IsAlone(Execute(STORED, trace))
  {
    trace := StartsAlone();
    LoadsFile(Execute(STORED, trace), 1);
    trace := GoOnAlone(trace, Ok);
    var u := Execute(STORED, trace);
    Raises(u, 1);
    record := RecordOf(1, 0, u.runs[1].model, RAISED);
    trace := GoOnAlone(trace, Result(RAISED));
  }

  lemma FailsForGood(u: State, id: nat, record: Record)
    requires IsAt(u, DocProcessing, id, Recording(record, 0), DocProcessing, None, 1)
    ensures var t := Next(Next(u, id, Fail(false)), id, Ok);
            && id in t.runs && t.runs[id].place.Done? && t.runs[id].exit.Finished? && t.runs[id].broken
            && t.db == u.db
  {
    var t := Next(u, id, Fail(false));
    assert t.db == u.db && id in t.runs && t.runs[id].broken && t.runs[id].place.CatchFlush?;
  }

  /** The database fails while the outcome is recorded: the session cannot be used to record the failure either,
      and the document stays marked as being processed. */
  lemma StaysProcessing() returns (trace: seq<Step>)
    ensures IsInitial(STORED)
    ensures var t := Execute(STORED, trace);
            && 1 in t.runs && t.runs[1].place.Done? && t.runs[1].exit.Finished? && t.runs[1].broken
            && 0 in t.db.docs && t.db.docs[0].DocProcessing?
  {
    var record;
    trace, record := RaisesError();
    FailsForGood(Execute(STORED, trace), 1, record);
    trace := Go(STORED, trace, 1, Fail(false));
    trace := Go(STORED, trace, 1, Ok);
  }

  /** Run 1 flushes the failure. */
  lemma FlushesFailure() returns (trace: seq<Step>, record: Record)
    ensures IsFailure(record) && IsAlone(Execute(STORED, trace))
    ensures IsAt(Execute(STORED, trace), DocProcessing, 1, Recording(record, 2), DocFailed, Some(DocFailed), 1)
  {
    trace, record := RaisesError();
    FlushesStatus(Execute(STORED, trace), 1, record);
    trace := GoOnAlone(trace, Ok);
    FlushesRow(Execute(STORED, trace), 1, record, 1);
    trace := GoOnAlone(trace, Ok);
  }

  /** Run 1 commits the failure. */
  lemma CommitsFailure() returns (trace: seq<Step>)
    ensures IsAt(Execute(STORED, trace), DocFailed, 1, CatchFlush, DocFailed, None, 2)
    ensures IsAlone(Execute(STORED, trace))
  {
    var record;
    trace, record := FlushesFailure();
    FlushesRow(Execute(STORED, trace), 1, record, 2);
    trace := GoOnAlone(trace, Ok);
    CommitsRecord(Execute(STORED, trace), 1, record);
    trace := GoOnAlone(trace, Ok);
  }

  lemma CatchesWithoutEffect(u: State, id: nat)
    requires IsAt(u, DocProcessing, id, CatchFlush, DocFailed, None, 2)
    ensures var t := Next(Next(u, id, Ok), id, Ok);
            && id in t.runs && t.runs[id].place.Done? && t.runs[id].exit.Finished? && !t.runs[id].broken
            && |t.runs[id].wrote| == 3 && t.db.docs == u.db.docs
  {
  }

  /** Run 1 commits a failure; before its catch-all runs, run 2 marks the document. The catch-all sees its own old
      copy, writes nothing and commits: run 1 is over without any failure of the database, its last commit has
      succeeded, and the document is shown as being processed. */
  lemma CatchAllIsNoOp() returns (trace: seq<Step>)
    ensures IsInitial(STORED)
    ensures var t := Execute(STORED, trace);
            && 1 in t.runs && t.runs[1].place.Done? && t.runs[1].exit.Finished? && !t.runs[1].broken
            && |t.runs[1].wrote| == 3 && 0 in t.db.docs && t.db.docs[0].DocProcessing?
  {
    trace := CommitsFailure();
    trace := Marks(STORED, trace, 2, DocFailed);
    CatchesWithoutEffect(Execute(STORED, trace), 1);
    trace := Go(STORED, trace, 1, Ok);
    trace := Go(STORED, trace, 1, Ok);
  }

  // ---------- a response that cannot be built ----------

  const EXTRACTED := Processed(false, Completed, Tokens(0, 0), None)

  /** Run 1 has one commit behind it, and `pending` before it. */
  ghost predicate IsRecordingAt(u: State, place: Place, seen: DocumentStatus, pending: Changes) {
    && 0 in u.db.docs && 1 in u.runs
    && var r := u.runs[1];
    && r.kind.Existing? && r.doc == 0 && r.place == place && r.seen == seen && r.pending == pending
    && !r.broken && |r.wrote| == 1
  }

  /** A completed extraction with a single row of usage. */
  ghost predicate IsSuccess(record: Record) {
    && !record.raised && record.status.DocCompleted? && record.extraction.status.Completed?
    && record.uses == [ExtractionRow(record.extraction)]
  }

  lemma RecordIsSuccess(model: string)
    ensures IsSuccess(RecordOf(1, 0, model, EXTRACTED))
  {
    assert EventRows(RecordOf(1, 0, model, EXTRACTED).extraction, []) == [];
  }

  lemma Extracts(u: State)
    requires IsRecordingAt(u, Processing, DocProcessing, NO_CHANGES)
    ensures IsRecordingAt(Next(u, 1, Result(EXTRACTED)), Recording(RecordOf(1, 0, u.runs[1].model, EXTRACTED), 0),
                          DocProcessing, NO_CHANGES)
  {
  }

  lemma LoadsAndExtracts() returns (trace: seq<Step>, record: Record)
    ensures IsSuccess(record) && IsAlone(Execute(STORED, trace))
    ensures IsRecordingAt(Execute(STORED, trace), Recording(record, 0), DocProcessing, NO_CHANGES)
  {
    trace := StartsAlone();
    LoadsFile(Execute(STORED, trace), 1);
    trace := GoOnAlone(trace, Ok);
    var u := Execute(STORED, trace);
    assert u.runs[1].pending == NO_CHANGES by { NothingPending(trace); }
    record := RecordOf(1, 0, u.runs[1].model, EXTRACTED);
    RecordIsSuccess(u.runs[1].model);
    Extracts(u);
    trace := GoOnAlone(trace, Result(EXTRACTED));
  }

  lemma NothingPending(trace: seq<Step>)
    requires 1 in Execute(STORED, trace).runs && Execute(STORED, trace).runs[1].place.Processing?
    ensures Execute(STORED, trace).runs[1].pending == NO_CHANGES
  {
    StaysOnTrack(STORED, trace);
    assert IsOnTrack(1, Execute(STORED, trace).runs[1]);
  }

  lemma FlushesAt(u: State, record: Record, n: nat, seen: DocumentStatus, pending: Changes)
    requires IsSuccess(record) && n <= 2 && seen == (if n == 0 then DocProcessing else DocCompleted)
    requires IsRecordingAt(u, Recording(record, n), seen, pending)
    ensures IsRecordingAt(Next(u, 1, Ok), AfterFlush(record, n), DocCompleted,
              if n == 0 then pending.(status := Some(DocCompleted))
              else if n == 1 then pending.(extraction := Some(record.extraction))
              else pending.(uses := pending.uses + record.uses))
  {
  }

  lemma RefreshesAt(u: State, record: Record, pending: Changes)
    requires IsRecordingAt(u, Refreshing(record), DocCompleted, pending)
    ensures IsRecordingAt(Next(u, 1, Ok), Responding(record), DocCompleted, pending)
  {
  }

  lemma FailsToRespondAt(u: State, record: Record, pending: Changes)
    requires IsRecordingAt(u, Responding(record), DocCompleted, pending)
    ensures IsRecordingAt(Next(u, 1, Fail(false)), CatchFlush, DocCompleted, pending)
  {
  }

  lemma OverrulesAt(u: State, pending: Changes)
    requires IsRecordingAt(u, CatchFlush, DocCompleted, pending)
    ensures IsRecordingAt(Next(u, 1, Ok), CatchCommit, DocFailed, pending.(status := Some(DocFailed)))
  {
  }

  /** Everything is flushed, and the new row is to be refreshed. */
  lemma FlushesSuccess() returns (trace: seq<Step>, record: Record)
    ensures IsSuccess(record) && IsAlone(Execute(STORED, trace))
    ensures IsRecordingAt(Execute(STORED, trace), Refreshing(record), DocCompleted,
                          Changes(Some(DocCompleted), Some(record.extraction), record.uses))
  {
    trace, record := LoadsAndExtracts();
    FlushesAt(Execute(STORED, trace), record, 0, DocProcessing, NO_CHANGES);
    trace := GoOnAlone(trace, Ok);
    FlushesAt(Execute(STORED, trace), record, 1, DocCompleted, Changes(Some(DocCompleted), None, []));
    trace := GoOnAlone(trace, Ok);
    var pending := Changes(Some(DocCompleted), Some(record.extraction), []);
    FlushesAt(Execute(STORED, trace), record, 2, DocCompleted, pending);
    assert [] + record.uses == record.uses;
    trace := GoOnAlone(trace, Ok);
  }

  /** The response cannot be built, and the catch-all flushes its own status. */
  lemma FailsToRespond() returns (trace: seq<Step>, record: Record)
    ensures IsSuccess(record) && IsAlone(Execute(STORED, trace))
    ensures IsRecordingAt(Execute(STORED, trace), CatchCommit, DocFailed,
                          Changes(Some(DocFailed), Some(record.extraction), record.uses))
  {
    trace, record := FlushesSuccess();
    var c := Changes(Some(DocCompleted), Some(record.extraction), record.uses);
    RefreshesAt(Execute(STORED, trace), record, c);
    trace := GoOnAlone(trace, Ok);
    FailsToRespondAt(Execute(STORED, trace), record, c);
    trace := GoOnAlone(trace, Fail(false));
    OverrulesAt(Execute(STORED, trace), c);
    trace := GoOnAlone(trace, Ok);
  }

  lemma CommitsOverruled(u: State, c: Changes)
    requires IsRecordingAt(u, CatchCommit, DocFailed, c) && c.status == Some(DocFailed)
    ensures var t := Next(u, 1, Ok);
            && 1 in t.runs && t.runs[1].place.Done? && !t.runs[1].broken && |t.runs[1].wrote| == 2
            && t.runs[1].wrote[1] == c && 0 in t.db.docs && t.db.docs[0].DocFailed?
  {
  }

  /** Building the response fails after everything is flushed: the catch-all sets FAILED and commits what is pending, so
      that a completed extraction, billed and all, belongs to a document that is shown as failed. */
  lemma FailedWithCompletedExtraction() returns (trace: seq<Step>)
    ensures IsInitial(STORED)
    ensures var t := Execute(STORED, trace);
            && 1 in t.runs && t.runs[1].place.Done? && !t.runs[1].broken && |t.runs[1].wrote| == 2
            && t.runs[1].wrote[1].status == Some(DocFailed)
            && t.runs[1].wrote[1].extraction.Some? && t.runs[1].wrote[1].extraction.value.status.Completed?
            && 0 in t.db.docs && t.db.docs[0].DocFailed?
  {
    var record;
    trace, record := FailsToRespond();
    CommitsOverruled(Execute(STORED, trace), Changes(Some(DocFailed), Some(record.extraction), record.uses));
    trace := Go(STORED, trace, 1, Ok);
  }
}
