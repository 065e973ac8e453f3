/** The code of the service, statement by statement: a session over the database, the file store, intake, audit and
    the upload and processing methods. Every method is proved to be an execution of the interleaving model: a ghost
    state of that model moves along, one step per awaited operation, and always agrees with session and store. */
module DocumentService {
  import opened LlmTokens
  import opened Ledger
  import opened Lifecycle
  import opened LifecycleRecords
  import opened LifecycleSafety
  import opened LifecycleRuns
  import opened Options

  /** How the database answers an operation; a lost answer is an error although the operation took effect. */
  datatype Answer = Good | Bad | Lost

  /** Database and files. */
  class Store {
    var db: Database
    var files: set<nat>

    constructor (db: Database, files: set<nat>)
      ensures this.db == db && this.files == files
    {
      this.db, this.files := db, files;
    }
  }

  /** What is visible of a run from outside the model. */
  datatype View = View(kind: Kind, doc: nat, model: string, seen: DocumentStatus, pending: Changes, broken: bool,
                       wrote: seq<Changes>, late: bool, db: Database, files: set<nat>)

  ghost predicate Reaches(s: State, t: State) {
    exists trace :: Execute(s, trace) == t
  }

  lemma ReachesNext(s: State, t: State, id: nat, e: Event)
    requires Reaches(s, t)
    ensures Reaches(s, Next(t, id, e))
  {
    var trace :| Execute(s, trace) == t;
    var longer := Go(s, trace, id, e);
  }

  /** Run `id` of the model is at `place` and agrees with `v`. */
  ghost predicate IsMirrored(now: State, id: nat, place: Place, v: View) {
    && id in now.runs && now.db == v.db && now.files == v.files
    && now.runs[id] == Run(v.kind, v.doc, v.model, place, v.seen, v.pending, v.broken, v.wrote, v.late, Running)
  }

  /** Run `id` of the model is over and agrees with `v`. */
  ghost predicate IsOver(now: State, id: nat, exit: Exit, v: View) {
    && id in now.runs && now.db == v.db && now.files == v.files
    && var r := now.runs[id];
    && r.place.Done? && r.exit == exit && r.kind == v.kind && r.doc == v.doc
    && r.broken == v.broken && r.wrote == v.wrote && r.late == v.late
  }

  // ---------- where one operation takes a run ----------

  function Committed(v: View): View {
    v.(db := Apply(v.db, v.doc, v.pending), wrote := v.wrote + [v.pending], pending := NO_CHANGES)
  }

  /** A commit that raised; `applied` says whether it took effect. */
  function AfterFailedCommit(v: View, applied: bool): View {
    (if applied then Committed(v) else v.(pending := NO_CHANGES)).(broken := true)
  }

  function WithStatus(v: View, st: DocumentStatus): View {
    if v.seen == st then v else v.(seen := st, pending := v.pending.(status := Some(st)))
  }

  lemma Saves(now: State, id: nat, v: View)
    requires IsMirrored(now, id, Saving, v)
    ensures IsMirrored(Next(now, id, Ok), id, CreateFlush, v.(files := v.files + {v.doc}))
    ensures IsOver(Next(now, id, Fail(false)), id, Finished(false), v)
  {
  }

  lemma FlushesCreation(now: State, id: nat, v: View)
    requires IsMirrored(now, id, CreateFlush, v)
    ensures IsMirrored(Next(now, id, Ok), id, CreateCommit,
              v.(seen := InitialStatus(v.kind), pending := NO_CHANGES.(status := Some(InitialStatus(v.kind)))))
    ensures IsMirrored(Next(now, id, Fail(false)), id, Cleanup, v.(broken := true))
  {
  }

  lemma CommitsCreation(now: State, id: nat, v: View, applied: bool)
    requires IsMirrored(now, id, CreateCommit, v)
    ensures IsMirrored(Next(now, id, Ok), id, CreateRefresh, Committed(v))
    ensures IsMirrored(Next(now, id, Fail(applied)), id, Cleanup, AfterFailedCommit(v, applied).(late := applied))
  {
  }

  lemma RefreshesCreation(now: State, id: nat, v: View)
    requires IsMirrored(now, id, CreateRefresh, v)
    ensures IsMirrored(Next(now, id, Ok), id, if v.kind.Inline? then MarkFlush else Enqueue, v)
    ensures IsMirrored(Next(now, id, Fail(false)), id, Cleanup, v.(late := true, broken := true))
  {
  }

  lemma CleansUpFiles(now: State, id: nat, v: View)
    requires IsMirrored(now, id, Cleanup, v)
    ensures IsOver(Next(now, id, Ok), id, CleanedUp(true), v.(files := v.files - {v.doc}))
    ensures IsOver(Next(now, id, Fail(false)), id, CleanedUp(false), v)
  {
  }

  lemma Enqueues(now: State, id: nat, v: View)
    requires IsMirrored(now, id, Enqueue, v)
    ensures IsOver(Next(now, id, Ok), id, Finished(true), v)
    ensures IsMirrored(Next(now, id, Fail(false)), id, Processing, v)
  {
  }

  lemma LoadsRow(now: State, id: nat, v: View)
    requires IsMirrored(now, id, Loading, v)
    ensures v.doc in v.db.docs ==> IsMirrored(Next(now, id, Ok), id, MarkFlush, v.(seen := v.db.docs[v.doc]))
    ensures v.doc !in v.db.docs ==> IsOver(Next(now, id, Ok), id, NotFound, v)
    ensures IsOver(Next(now, id, Fail(false)), id, Finished(false), v.(broken := true))
  {
  }

  lemma FlushesMarking(now: State, id: nat, v: View)
    requires IsMirrored(now, id, MarkFlush, v)
    ensures IsMirrored(Next(now, id, Ok), id, MarkCommit, WithStatus(v, DocProcessing))
    ensures IsOver(Next(now, id, Fail(false)), id, Finished(false), v.(broken := true))
  {
  }

  lemma CommitsMarking(now: State, id: nat, v: View, applied: bool)
    requires IsMirrored(now, id, MarkCommit, v)
    ensures IsMirrored(Next(now, id, Ok), id, if v.kind.Existing? then LoadFile else Processing, Committed(v))
    ensures IsOver(Next(now, id, Fail(applied)), id, Finished(false), AfterFailedCommit(v, applied))
  {
  }

  lemma ReadsFile(now: State, id: nat, v: View)
    requires IsMirrored(now, id, LoadFile, v) && v.kind.Existing?
    ensures v.doc in v.files ==> IsMirrored(Next(now, id, Ok), id, Processing, v)
    ensures IsMirrored(Next(now, id, Fail(false)), id, CatchFlush, v)
  {
  }

  /** An exception reaches the handler of a run on a stored document, and ends any other run. */
  ghost predicate IsRaised(now: State, id: nat, v: View) {
    if v.kind.Existing? then IsMirrored(now, id, CatchFlush, v) else IsOver(now, id, Finished(false), v)
  }

  lemma Processes(now: State, id: nat, v: View, p: Processed)
    requires IsMirrored(now, id, Processing, v) && IsClassifierUsage(p)
    ensures IsMirrored(Next(now, id, Result(p)), id, Recording(RecordOf(id, v.doc, v.model, p), 0), v)
  {
  }

  lemma FailsToProcess(now: State, id: nat, v: View)
    requires IsMirrored(now, id, Processing, v)
    ensures IsRaised(Next(now, id, Fail(false)), id, v)
  {
  }

  lemma FlushesStatusOf(now: State, id: nat, v: View, record: Record)
    requires IsMirrored(now, id, Recording(record, 0), v)
    ensures IsMirrored(Next(now, id, Ok), id, Recording(record, 1), WithStatus(v, record.status))
    ensures IsRaised(Next(now, id, Fail(false)), id, v.(broken := true))
  {
  }

  lemma FlushesExtraction(now: State, id: nat, v: View, record: Record)
    requires IsMirrored(now, id, Recording(record, 1), v) && record.uses != []
    ensures IsMirrored(Next(now, id, Ok), id, Recording(record, 2),
                       v.(pending := v.pending.(extraction := Some(record.extraction))))
    ensures IsRaised(Next(now, id, Fail(false)), id, v.(broken := true))
  {
  }

  lemma FlushesUsage(now: State, id: nat, v: View, record: Record, n: nat)
    requires IsMirrored(now, id, Recording(record, n + 2), v) && n < |record.uses|
    ensures IsMirrored(Next(now, id, Ok), id, AfterFlush(record, n + 2),
                       v.(pending := v.pending.(uses := v.pending.uses + [record.uses[n]])))
    ensures IsRaised(Next(now, id, Fail(false)), id, v.(broken := true))
  {
  }

  lemma RefreshesExtraction(now: State, id: nat, v: View, record: Record)
    requires IsMirrored(now, id, Refreshing(record), v)
    ensures IsMirrored(Next(now, id, Ok), id, Responding(record), v)
    ensures IsRaised(Next(now, id, Fail(false)), id, v.(broken := true))
  {
  }

  lemma Responds(now: State, id: nat, v: View, record: Record)
    requires IsMirrored(now, id, Responding(record), v)
    ensures IsMirrored(Next(now, id, Ok), id, RecordCommit(record), v)
    ensures IsRaised(Next(now, id, Fail(false)), id, v)
  {
  }

  lemma CommitsRecorded(now: State, id: nat, v: View, record: Record)
    requires IsMirrored(now, id, RecordCommit(record), v)
    ensures record.raised ==> IsRaised(Next(now, id, Ok), id, Committed(v))
    ensures !record.raised ==> IsOver(Next(now, id, Ok), id, Finished(true), Committed(v))
  {
  }

  lemma FailsToCommitRecord(now: State, id: nat, v: View, record: Record, applied: bool)
    requires IsMirrored(now, id, RecordCommit(record), v)
    ensures IsRaised(Next(now, id, Fail(applied)), id, AfterFailedCommit(v, applied))
  {
  }

  lemma FlushesFailed(now: State, id: nat, v: View)
    requires IsMirrored(now, id, CatchFlush, v)
    ensures !v.broken ==> IsMirrored(Next(now, id, Ok), id, CatchCommit, WithStatus(v, DocFailed))
  {
  }

  lemma FailsToFlushFailed(now: State, id: nat, v: View)
    requires IsMirrored(now, id, CatchFlush, v)
    ensures IsOver(Next(now, id, Fail(false)), id, Finished(false), v.(broken := true))
  {
  }

  lemma CommitsFailed(now: State, id: nat, v: View, applied: bool)
    requires IsMirrored(now, id, CatchCommit, v)
    ensures IsOver(Next(now, id, Ok), id, Finished(false), Committed(v))
    ensures IsOver(Next(now, id, Fail(applied)), id, Finished(false), AfterFailedCommit(v, applied))
  {
  }

  /** A database session that works on one document, together with its run in the model. */
  class Session {
    const store: Store
    const kind: Kind
    const doc: nat
    const model: string
    const answers: nat -> Answer
    var asked: nat
    var seen: DocumentStatus
    var pending: Changes
    var broken: bool
    ghost var wrote: seq<Changes>
    ghost var late: bool
    const id: nat
    ghost const origin: State
    ghost var now: State

    ghost function AsView(): View
      reads this, store
    {
      View(kind, doc, model, seen, pending, broken, wrote, late, store.db, store.files)
    }

    ghost predicate Valid()
      reads this
    {
      IsInitial(origin) && Reaches(origin, now)
    }

    ghost predicate IsAt(place: Place)
      reads this, store
    {
      Valid() && IsMirrored(now, id, place, AsView())
    }

    ghost predicate HasEnded(exit: Exit)
      reads this, store
    {
      Valid() && IsOver(now, id, exit, AsView())
    }

    /** Where an exception of the processing ends. */
    ghost predicate HasRaised()
      reads this, store
    {
      if kind.Existing? then IsAt(CatchFlush) else HasEnded(Finished(false))
    }

    /** A run begins while the model, with whatever other runs, agrees with the store. */
    constructor (store: Store, kind: Kind, document: nat, model: string, answers: nat -> Answer, id: nat,
                 ghost origin: State, ghost before: State)
      requires IsInitial(origin) && Reaches(origin, before) && id >= before.base && id !in before.runs
      requires before.db == store.db && before.files == store.files && (!kind.Existing? ==> document == id)
      ensures this.store == store && this.kind == kind && this.doc == document && this.answers == answers
      ensures this.model == model && this.id == id
      ensures IsAt(if kind.Existing? then Loading else Saving)
    {
      this.store, this.kind, this.doc, this.model, this.answers := store, kind, document, model, answers;
      asked, seen, pending, broken, wrote, late := 0, DocUploaded, NO_CHANGES, false, [], false;
      this.origin, this.id := origin, id;
      now := Next(before, id, Begin(kind, document, model));
      new;
      ReachesNext(origin, before, id, Begin(kind, document, model));
    }

    /** The step of the model that belongs to the operation just made. */
    ghost method Step(e: Event)
      requires Valid()
      modifies this`now
      ensures Valid() && now == Next(old(now), id, e)
    {
      ReachesNext(origin, now, id, e);
      now := Next(now, id, e);
    }

    /** One operation that only the session sees. After an error every further operation fails. */
    method Operate() returns (ok: bool)
      modifies this`asked, this`broken
      ensures broken == !ok && asked == old(asked) + 1
      ensures ok == (!old(broken) && answers(old(asked)).Good?)
    {
      ok := !broken && answers(asked).Good?;
      broken, asked := !ok, asked + 1;
    }

    /** `set_status`: assigns and flushes. */
    method SetDocumentStatus(status: DocumentStatus) returns (ok: bool)
      modifies this`asked, this`broken, this`seen, this`pending
      ensures broken == !ok && (old(broken) ==> !ok)
      ensures seen == if ok then status else old(seen)
      ensures pending == if ok && old(seen) != status then old(pending).(status := Some(status)) else old(pending)
    {
      ok := Operate();
      if ok && seen != status {
        seen, pending := status, pending.(status := Some(status));
      }
    }

    method AddExtraction(x: Extraction) returns (ok: bool)
      modifies this`asked, this`broken, this`pending
      ensures broken == !ok && (old(broken) ==> !ok)
      ensures pending == if ok then old(pending).(extraction := Some(x)) else old(pending)
    {
      ok := Operate();
      if ok { pending := pending.(extraction := Some(x)); }
    }

    method AddUsage(u: Usage) returns (ok: bool)
      modifies this`asked, this`broken, this`pending
      ensures broken == !ok && (old(broken) ==> !ok)
      ensures pending == if ok then old(pending).(uses := old(pending).uses + [u]) else old(pending)
    {
      ok := Operate();
      if ok { pending := pending.(uses := pending.uses + [u]); }
    }

    /** The changes take effect together or not at all; either way none is pending afterwards. */
    method Commit() returns (ok: bool, ghost applied: bool)
      requires !broken
      modifies this`asked, this`broken, this`pending, this`wrote, store`db
      ensures broken == !ok && (ok ==> applied)
      ensures store.db == if applied then Apply(old(store.db), doc, old(pending)) else old(store.db)
      ensures wrote == if applied then old(wrote) + [old(pending)] else old(wrote)
      ensures pending == NO_CHANGES
    {
      applied := !answers(asked).Bad?;
      if !answers(asked).Bad? {
        store.db := Apply(store.db, doc, pending);
        wrote := wrote + [pending];
      }
      pending := NO_CHANGES;
      ok := Operate();
    }
  }

  // ---------- intake ----------

  /** `prepare_document`: parses the upload and saves its file. */
  method PrepareDocument(session: Session, parses: bool, saves: bool) returns (ok: bool)
    requires session.IsAt(Saving)
    modifies session`now, session.store`files
    ensures ok == (parses && saves) && !HasRecorded(session.wrote)
    ensures if ok then session.IsAt(CreateFlush) else session.HasEnded(Finished(false))
    ensures session.store.files == if ok then old(session.store.files) + {session.doc} else old(session.store.files)
  {
    NoneRecordedYet(session.origin, session.now, session.id);
    Saves(session.now, session.id, session.AsView());
    ok := parses && saves;
    if ok {
      session.store.files := session.store.files + {session.doc};
      session.Step(Ok);
    } else {
      session.Step(Fail(false));
    }
  }

  /** Rollback and `delete_upload`; an error of the deletion is swallowed, one of the rollback prevents it. */
  method AbandonUpload(session: Session, rollsBack: bool, deletes: bool)
    requires session.IsAt(Cleanup)
    modifies session`now, session.store`files
    ensures session.HasEnded(CleanedUp(rollsBack && deletes))
    ensures session.store.files == if rollsBack && deletes then old(session.store.files) - {session.doc}
                                   else old(session.store.files)
  {
    CleansUpFiles(session.now, session.id, session.AsView());
    if rollsBack && deletes {
      session.store.files := session.store.files - {session.doc};
      session.Step(Ok);
    } else {
      session.Step(Fail(false));
    }
  }

  /** `create` of the repository: adds and flushes the row. */
  method FlushDocument(session: Session) returns (ok: bool)
    requires session.IsAt(CreateFlush) && !session.broken
    modifies session`asked, session`broken, session`seen, session`pending, session`now
    ensures session.broken == !ok && session.IsAt(if ok then CreateCommit else Cleanup)
  {
    FlushesCreation(session.now, session.id, session.AsView());
    ok := session.Operate();
    if ok {
      session.seen := InitialStatus(session.kind);
      session.pending := NO_CHANGES.(status := Some(InitialStatus(session.kind)));
    }
    session.Step(if ok then Ok else Fail(false));
  }

  /** Until processing, a run records no extraction. */
  lemma NoneRecordedYet(origin: State, now: State, id: nat)
    requires IsInitial(origin) && Reaches(origin, now) && id in now.runs
    requires var p := now.runs[id].place;
             p.Saving? || p.CreateFlush? || p.Loading? || p.MarkFlush? || p.LoadFile? || p.Processing?
    ensures !HasRecorded(now.runs[id].wrote)
  {
    Follows(origin, now, id);
  }

  /** Creating or marking a document records no extraction. */
  lemma NothingToRecord(origin: State, now: State, id: nat)
    requires IsInitial(origin) && Reaches(origin, now) && id in now.runs
    requires now.runs[id].place.CreateCommit? || now.runs[id].place.MarkCommit?
    ensures var r := now.runs[id];
            r.pending.extraction.None? && !HasRecorded(r.wrote) && !HasRecorded(r.wrote + [r.pending])
  {
    Follows(origin, now, id);
    WroteMore(now.runs[id].wrote, now.runs[id].pending);
  }

  method CommitDocument(session: Session) returns (ok: bool)
    requires session.IsAt(CreateCommit) && !session.broken
    modifies session`asked, session`broken, session`pending, session`wrote, session`late, session`now, session.store`db
    ensures session.broken == !ok && session.IsAt(if ok then CreateRefresh else Cleanup)
    ensures session.store.db.extractions == old(session.store.db.extractions) && !HasRecorded(session.wrote)
  {
    NothingToRecord(session.origin, session.now, session.id);
    ghost var v := session.AsView();
    ghost var applied;
    ok, applied := session.Commit();
    CommitsCreation(session.now, session.id, v, applied);
    session.late := if ok then session.late else applied;
    session.Step(if ok then Ok else Fail(applied));
  }

  method RefreshDocument(session: Session) returns (ok: bool)
    requires session.IsAt(CreateRefresh) && !session.broken
    modifies session`asked, session`broken, session`late, session`now
    ensures session.broken == !ok
    ensures session.IsAt(if !ok then Cleanup else if session.kind.Inline? then MarkFlush else Enqueue)
  {
    RefreshesCreation(session.now, session.id, session.AsView());
    ok := session.Operate();
    session.late := session.late || !ok;
    session.Step(if ok then Ok else Fail(false));
  }

  /** `_create_document`: flushes, commits, refreshes. */
  method CreateDocument(session: Session) returns (ok: bool)
    requires session.IsAt(CreateFlush) && !session.broken
    modifies session`asked, session`broken, session`seen, session`pending, session`wrote, session`late, session`now,
             session.store`db
    ensures session.broken == !ok
    ensures session.IsAt(if !ok then Cleanup else if session.kind.Inline? then MarkFlush else Enqueue)
    ensures session.store.db.extractions == old(session.store.db.extractions) && !HasRecorded(session.wrote)
  {
    NoneRecordedYet(session.origin, session.now, session.id);
    ok := FlushDocument(session);
    if !ok { return; }
    ok := CommitDocument(session);
    if ok { ok := RefreshDocument(session); }
  }

  // ---------- audit ----------

  /** Row number `n` of the record. */
  method AddUsageRow(session: Session, ghost record: Record, ghost n: nat, u: Usage) returns (ok: bool)
    requires session.IsAt(Recording(record, n + 2)) && !session.broken && n < |record.uses| && record.uses[n] == u
    modifies session`asked, session`broken, session`pending, session`now
    ensures session.broken == !ok
    ensures if ok then session.IsAt(AfterFlush(record, n + 2)) else session.HasRaised()
    ensures ok ==> session.pending == old(session.pending).(uses := old(session.pending).uses + [u])
  {
    FlushesUsage(session.now, session.id, session.AsView(), record, n);
    ok := session.AddUsage(u);
    session.Step(if ok then Ok else Fail(false));
  }

  /** The loop over the events. */
  method AddEventRows(session: Session, ghost record: Record, x: Extraction, events: seq<UsageEvent>)
    returns (ok: bool)
    requires session.IsAt(Recording(record, 2)) && !session.broken
    requires record.uses == UsageRows(x, events)
    modifies session`asked, session`broken, session`pending, session`now
    ensures session.broken == !ok
    ensures if ok then session.IsAt(Recording(record, |events| + 2)) else session.HasRaised()
    ensures ok ==> session.pending == old(session.pending).(uses := old(session.pending).uses + EventRows(x, events))
  {
    ghost var before := session.pending.uses;
    EventRowsAre(x, events);
    ok := true;
    for n := 0 to |events|
      invariant ok && session.IsAt(Recording(record, n + 2)) && !session.broken
      invariant session.pending == old(session.pending).(uses := before + record.uses[..n])
    {
      assert record.uses[..n + 1] == record.uses[..n] + [record.uses[n]];
      ok := AddUsageRow(session, record, n, Usage(x.id, x.doc, events[n].purpose, events[n].model, events[n].tokens));
      if !ok { return; }
    }
    assert record.uses[..|events|] == EventRows(x, events);
  }

  /** `_add_usage_events`: one row per classifier call, then the row of the extraction. */
  method AddUsageEvents(session: Session, ghost record: Record, x: Extraction, events: seq<UsageEvent>)
    returns (ok: bool)
    requires session.IsAt(Recording(record, 2)) && !session.broken
    requires record.uses == UsageRows(x, events)
    modifies session`asked, session`broken, session`pending, session`now
    ensures session.broken == !ok
    ensures if ok then session.IsAt(AfterFlush(record, |events| + 2)) else session.HasRaised()
    ensures ok ==> session.pending == old(session.pending).(uses := old(session.pending).uses + UsageRows(x, events))
  {
    EventRowsAre(x, events);
    ok := AddEventRows(session, record, x, events);
    if !ok { return; }
    ok := AddUsageRow(session, record, |events|, Usage(x.id, x.doc, ForExtraction, x.model, x.tokens));
    if ok { assert record.uses == EventRows(x, events) + [record.uses[|events|]]; }
  }

  lemma {:induction false} EventRowsAre(x: Extraction, events: seq<UsageEvent>)
    ensures |EventRows(x, events)| == |events|
    ensures forall n :: 0 <= n < |events| ==> EventRows(x, events)[n] == EventRow(x, events[n])
  {
    if events != [] { EventRowsAre(x, events[..|events| - 1]); }
  }

  /** What the invariants of the model say about a run that the code follows. */
  lemma Follows(origin: State, now: State, id: nat)
    requires IsInitial(origin) && Reaches(origin, now) && id in now.runs
    ensures Invariant(now) && IsOnTrack(id, now.runs[id]) && RecordsOnce(now.runs[id].wrote)
    ensures now.runs[id].kind.Existing? ==> IsTold(now.runs[id])
  {
    var trace :| Execute(origin, trace) == now;
    InvariantHolds(origin, trace);
    AtMostOneExtraction(origin, trace, id);
    if now.runs[id].kind.Existing? { StoryHolds(origin, trace, id); }
  }

  // ---------- recording ----------

  /** All that a record changes. */
  function ChangesOf(record: Record): Changes {
    Changes(Some(record.status), Some(record.extraction), record.uses)
  }

  method FlushStatus(session: Session, ghost record: Record, status: DocumentStatus) returns (ok: bool)
    requires session.IsAt(Recording(record, 0)) && !session.broken && status == record.status
    modifies session`asked, session`broken, session`seen, session`pending, session`now
    ensures session.broken == !ok && (if ok then session.IsAt(Recording(record, 1)) else session.HasRaised())
  {
    FlushesStatusOf(session.now, session.id, session.AsView(), record);
    ok := session.SetDocumentStatus(status);
    session.Step(if ok then Ok else Fail(false));
  }

  method FlushExtraction(session: Session, ghost record: Record, x: Extraction) returns (ok: bool)
    requires session.IsAt(Recording(record, 1)) && !session.broken && x == record.extraction && record.uses != []
    modifies session`asked, session`broken, session`pending, session`now
    ensures session.broken == !ok && (if ok then session.IsAt(Recording(record, 2)) else session.HasRaised())
  {
    FlushesExtraction(session.now, session.id, session.AsView(), record);
    ok := session.AddExtraction(x);
    session.Step(if ok then Ok else Fail(false));
  }

  /** Status, extraction and ledger rows: what comes before the commit on both paths. */
  method FlushRecord(session: Session, record: Record, events: seq<UsageEvent>) returns (ok: bool)
    requires session.IsAt(Recording(record, 0)) && !session.broken
             && record.uses == UsageRows(record.extraction, events)
    modifies session`asked, session`broken, session`seen, session`pending, session`now
    ensures session.broken == !ok
    ensures if ok then session.IsAt(if record.raised then RecordCommit(record) else Refreshing(record))
            else session.HasRaised()
  {
    EventRowsAre(record.extraction, events);
    ok := FlushStatus(session, record, record.status);
    if !ok { return; }
    ok := FlushExtraction(session, record, record.extraction);
    if !ok { return; }
    ok := AddUsageEvents(session, record, record.extraction, events);
  }

  lemma PendingRecord(origin: State, now: State, id: nat, record: Record)
    requires IsInitial(origin) && Reaches(origin, now) && id in now.runs
    requires var p := now.runs[id].place; p == RecordCommit(record) || p == Responding(record)
    ensures now.runs[id].pending == ChangesOf(record)
  {
    Follows(origin, now, id);
  }

  /** The commit of a record. */
  method CommitRecord(session: Session, ghost record: Record) returns (ok: bool)
    requires session.IsAt(RecordCommit(record)) && !session.broken
    modifies session`asked, session`broken, session`pending, session`wrote, session`now, session.store`db
    ensures session.broken == !ok
    ensures if ok && !record.raised then session.HasEnded(Finished(true)) else session.HasRaised()
    ensures session.wrote == old(session.wrote) + [ChangesOf(record)] || (!ok && session.wrote == old(session.wrote))
    ensures session.store.db == if session.wrote == old(session.wrote) then old(session.store.db)
                                else Apply(old(session.store.db), session.doc, ChangesOf(record))
  {
    PendingRecord(session.origin, session.now, session.id, record);
    ghost var v := session.AsView();
    ghost var applied;
    ok, applied := session.Commit();
    assert session.AsView() == if ok then Committed(v) else AfterFailedCommit(v, applied);
    if ok {
      CommitsRecorded(session.now, session.id, v, record);
      session.Step(Ok);
    } else {
      FailsToCommitRecord(session.now, session.id, v, record, applied);
      session.Step(Fail(applied));
    }
  }

  datatype Ending = Returns | RaisesNotFound | RaisesDatabaseError | RaisesOtherError

  /** The record of an outcome, with the run's own id for the extraction. */
  function OutcomeOf(session: Session, p: Processed): Record {
    RecordOf(session.id, session.doc, session.model, p)
  }

  /** All that is to be written for an outcome: its extraction, its rows and the status that goes with them. */
  function AllOf(session: Session, p: Processed): Changes {
    Written(session.id, session.doc, session.model, p, false)
  }

  lemma RecordIsAll(session: Session, p: Processed)
    requires IsClassifierUsage(p)
    ensures ChangesOf(OutcomeOf(session, p)) == AllOf(session, p)
  {
    RecordIsWritten(session.id, session.doc, session.model, p);
  }

  /** What recording `p` left in the store and in the run's list of commits. */
  twostate predicate Recorded(session: Session, p: Processed, ok: bool)
    reads session, session.store
  {
    var c := AllOf(session, p);
    && (session.wrote == old(session.wrote) + [c] || (!ok && session.wrote == old(session.wrote)))
    && session.store.db == if session.wrote == old(session.wrote) then old(session.store.db)
                           else Apply(old(session.store.db), session.doc, c)
  }

  /** The document is shown as completed exactly if its extraction is completed or partial. */
  ghost predicate ShowsOutcome(session: Session, p: Processed)
    reads session, session.store
  {
    && session.doc in session.store.db.docs
    && (session.store.db.docs[session.doc].DocCompleted? <==> p.validation in {Completed, Partial})
    && (session.store.db.docs[session.doc].DocFailed? <==> p.validation.Failed?)
  }

  /** `_record_processing_failure`: a failed extraction with the tokens of the error; the caller raises the error. */
  method RecordProcessingFailure(session: Session, error: Processed) returns (ok: bool)
    requires error.raised && session.IsAt(Recording(OutcomeOf(session, error), 0)) && !session.broken
    requires IsClassifierUsage(error)
    modifies session`asked, session`broken, session`seen, session`pending, session`wrote, session`now, session.store`db
    ensures session.broken == !ok && session.HasRaised() && Recorded(session, error, ok)
  {
    var record := OutcomeOf(session, error);
    RecordIsAll(session, error);
    ok := FlushRecord(session, record, EventsOf(error));
    if ok { ok := CommitRecord(session, record); }
  }

  /** `refresh` of the new extraction. */
  method Refresh(session: Session, ghost record: Record) returns (ok: bool)
    requires session.IsAt(Refreshing(record)) && !session.broken
    modifies session`asked, session`broken, session`now
    ensures session.broken == !ok && (if ok then session.IsAt(Responding(record)) else session.HasRaised())
  {
    RefreshesExtraction(session.now, session.id, session.AsView(), record);
    ok := session.Operate();
    session.Step(if ok then Ok else Fail(false));
  }

  /** `to_response` may raise; that is no error of the database. */
  method Respond(session: Session, ghost record: Record, responds: bool) returns (ok: bool)
    requires session.IsAt(Responding(record)) && !session.broken
    modifies session`now
    ensures ok == responds && (if ok then session.IsAt(RecordCommit(record)) else session.HasRaised())
    ensures session.pending == ChangesOf(record)
  {
    PendingRecord(session.origin, session.now, session.id, record);
    Responds(session.now, session.id, session.AsView(), record);
    ok := responds;
    session.Step(if ok then Ok else Fail(false));
  }

  /** `_record_processing_success`; `responds` says whether the response can be built from the result. */
  method RecordProcessingSuccess(session: Session, p: Processed, responds: bool) returns (e: Ending)
    requires !p.raised && session.IsAt(Recording(OutcomeOf(session, p), 0)) && !session.broken
    requires IsClassifierUsage(p)
    modifies session`asked, session`broken, session`seen, session`pending, session`wrote, session`now, session.store`db
    ensures session.broken == e.RaisesDatabaseError? && !e.RaisesNotFound?
    ensures if e.Returns? then session.HasEnded(Finished(true)) else session.HasRaised()
    ensures Recorded(session, p, e.Returns?) && (e.Returns? ==> ShowsOutcome(session, p))
    ensures e.RaisesOtherError? ==> !responds && session.wrote == old(session.wrote)
                                    && session.pending == AllOf(session, p)
  {
    var record := OutcomeOf(session, p);
    RecordIsAll(session, p);
    var ok := FlushRecord(session, record, EventsOf(p));
    if !ok { return RaisesDatabaseError; }
    ok := Refresh(session, record);
    if !ok { return RaisesDatabaseError; }
    ok := Respond(session, record, responds);
    if !ok { return RaisesOtherError; }
    ok := CommitRecord(session, record);
    e := if ok then Returns else RaisesDatabaseError;
  }

  /** Nothing but the extraction of `p` is pending. */
  ghost predicate MayRecord(session: Session, p: Option<Processed>)
    reads session
  {
    session.pending.extraction.Some? ==>
      p.Some? && session.pending.extraction == AllOf(session, p.value).extraction
  }

  /** `_process_document_pages`: nothing is recorded when classifying raises (`None`); the error of an extraction is
      recorded and raised again. */
  method ProcessDocumentPages(session: Session, p: Option<Processed>, responds: bool) returns (e: Ending)
    requires session.IsAt(Processing) && !session.broken && (p.Some? ==> IsClassifierUsage(p.value))
    modifies session`asked, session`broken, session`seen, session`pending, session`wrote, session`now, session.store`db
    ensures session.broken == e.RaisesDatabaseError? && !e.RaisesNotFound?
    ensures if e.Returns? then session.HasEnded(Finished(true)) else session.HasRaised()
    ensures if p.None? then session.wrote == old(session.wrote) && session.store.db == old(session.store.db)
            else Recorded(session, p.value, e.Returns?)
    ensures e.Returns? ==> p.Some? && !p.value.raised && ShowsOutcome(session, p.value)
    ensures !session.broken && session.wrote == old(session.wrote) ==> MayRecord(session, p)
    ensures !session.broken && p.Some? && (p.value.raised || responds) ==> session.wrote != old(session.wrote)
  {
    Follows(session.origin, session.now, session.id);
    if p.None? {
      FailsToProcess(session.now, session.id, session.AsView());
      session.Step(Fail(false));
      return RaisesOtherError;
    }
    Processes(session.now, session.id, session.AsView(), p.value);
    session.Step(Result(p.value));
    if p.value.raised {
      var ok := RecordProcessingFailure(session, p.value);
      return if ok then RaisesOtherError else RaisesDatabaseError;
    }
    e := RecordProcessingSuccess(session, p.value, responds);
  }

  // ---------- runs ----------

  method FlushMark(session: Session) returns (ok: bool)
    requires session.IsAt(MarkFlush) && !session.broken
    modifies session`asked, session`broken, session`seen, session`pending, session`now
    ensures session.broken == !ok && (if ok then session.IsAt(MarkCommit) else session.HasEnded(Finished(false)))
  {
    FlushesMarking(session.now, session.id, session.AsView());
    ok := session.SetDocumentStatus(DocProcessing);
    session.Step(if ok then Ok else Fail(false));
  }

  method CommitMark(session: Session) returns (ok: bool)
    requires session.IsAt(MarkCommit) && !session.broken
    modifies session`asked, session`broken, session`pending, session`wrote, session`now, session.store`db
    ensures session.broken == !ok
    ensures if ok then session.IsAt(if session.kind.Existing? then LoadFile else Processing)
            else session.HasEnded(Finished(false))
    ensures |session.wrote| == |old(session.wrote)| + 1 || (!ok && session.wrote == old(session.wrote))
    ensures !HasRecorded(session.wrote) && session.store.db.extractions == old(session.store.db.extractions)
  {
    NothingToRecord(session.origin, session.now, session.id);
    ghost var v := session.AsView();
    ghost var applied;
    ok, applied := session.Commit();
    CommitsMarking(session.now, session.id, v, applied);
    session.Step(if ok then Ok else Fail(applied));
  }

  /** `_set_document_status` with PROCESSING. */
  method MarkProcessing(session: Session) returns (ok: bool)
    requires session.IsAt(MarkFlush) && !session.broken
    modifies session`asked, session`broken, session`seen, session`pending, session`wrote, session`now, session.store`db
    ensures session.broken == !ok
    ensures if ok then session.IsAt(if session.kind.Existing? then LoadFile else Processing)
            else session.HasEnded(Finished(false))
    ensures |session.wrote| == |old(session.wrote)| + 1 || (!ok && session.wrote == old(session.wrote))
    ensures !HasRecorded(session.wrote) && session.store.db.extractions == old(session.store.db.extractions)
  {
    NoneRecordedYet(session.origin, session.now, session.id);
    ok := FlushMark(session);
    if ok { ok := CommitMark(session); }
  }

  /** What the commit of the catch-all does, as the second or as the third commit of the run. */
  twostate predicate CaughtLast(session: Session)
    reads session, session.store
  {
    if session.wrote == old(session.wrote) then session.store.db == old(session.store.db)
    else
      && |session.wrote| == |old(session.wrote)| + 1
      && (|session.wrote| == 2 ==>
            session.doc in session.store.db.docs && session.store.db.docs[session.doc].DocFailed?)
      && (|session.wrote| == 3 ==> session.store.db.docs == old(session.store.db.docs))
      && (HasRecorded(session.wrote) <==> HasRecorded(old(session.wrote)) || old(session.pending).extraction.Some?)
      && session.store.db.extractions == old(session.store.db.extractions)
           + if old(session.pending).extraction.Some? then [old(session.pending).extraction.value] else []
  }

  lemma PendingAtCatch(origin: State, now: State, id: nat)
    requires IsInitial(origin) && Reaches(origin, now) && id in now.runs
    requires now.runs[id].place.CatchCommit? && now.runs[id].kind.Existing?
    ensures var r := now.runs[id];
            if |r.wrote| == 1 then r.pending.status == Some(DocFailed) else |r.wrote| == 2 && r.pending == NO_CHANGES
  {
    Follows(origin, now, id);
  }

  method CommitFailed(session: Session)
    requires session.IsAt(CatchCommit) && session.kind.Existing? && !session.broken
    modifies session`asked, session`broken, session`pending, session`wrote, session`now, session.store`db
    ensures session.HasEnded(Finished(false)) && CaughtLast(session)
  {
    PendingAtCatch(session.origin, session.now, session.id);
    WroteMore(session.wrote, session.pending);
    ghost var v := session.AsView();
    ghost var applied;
    var ok;
    ok, applied := session.Commit();
    CommitsFailed(session.now, session.id, v, applied);
    session.Step(if ok then Ok else Fail(applied));
  }

  method FlushFailed(session: Session) returns (ok: bool)
    requires session.IsAt(CatchFlush) && session.kind.Existing?
    modifies session`asked, session`broken, session`seen, session`pending, session`now
    ensures session.broken == !ok && (old(session.broken) ==> !ok)
    ensures if ok then session.IsAt(CatchCommit) else session.HasEnded(Finished(false))
    ensures session.pending.extraction == old(session.pending).extraction
  {
    ghost var v := session.AsView();
    ok := session.SetDocumentStatus(DocFailed);
    if ok {
      FlushesFailed(session.now, session.id, v);
      session.Step(Ok);
    } else {
      FailsToFlushFailed(session.now, session.id, v);
      session.Step(Fail(false));
    }
  }

  /** The catch-all: `set_status` and commit, both of which raise at once in a broken session. */
  method CatchAll(session: Session)
    requires session.IsAt(CatchFlush) && session.kind.Existing?
    modifies session`asked, session`broken, session`seen, session`pending, session`wrote, session`now, session.store`db
    ensures session.HasEnded(Finished(false)) && CaughtLast(session)
    ensures old(session.broken) ==> session.broken && session.wrote == old(session.wrote)
  {
    var ok := FlushFailed(session);
    if ok { CommitFailed(session); }
  }

  /** A second commit has set a terminal status, and it still shows. */
  ghost predicate ShowsTerminal(session: Session)
    reads session, session.store
  {
    |session.wrote| >= 2 ==> session.doc in session.store.db.docs && IsTerminal(session.store.db.docs[session.doc])
  }

  /** The table of extractions has grown by the one of `p` if the run recorded anything, and not at all otherwise. */
  ghost predicate HasAdded(session: Session, p: Option<Processed>, before: seq<Extraction>)
    reads session, session.store
  {
    if HasRecorded(session.wrote) then
      p.Some? && session.store.db.extractions == before + [AllOf(session, p.value).extraction.value]
    else
      session.store.db.extractions == before
  }

  /** The `try` block of a run on a stored document. */
  method LoadAndProcess(session: Session, loads: bool, p: Option<Processed>, responds: bool) returns (e: Ending)
    requires session.kind.Existing? && session.IsAt(LoadFile) && !session.broken
    requires |session.wrote| == 1 && !HasRecorded(session.wrote) && (p.Some? ==> IsClassifierUsage(p.value))
    modifies session`asked, session`broken, session`seen, session`pending, session`wrote, session`now, session.store`db
    ensures !e.RaisesNotFound? && (if e.Returns? then session.HasEnded(Finished(true)) else session.IsAt(CatchFlush))
    ensures e.Returns? ==> !session.broken && p.Some? && !p.value.raised
                           && session.wrote == old(session.wrote) + [AllOf(session, p.value)]
                           && ShowsOutcome(session, p.value)
    ensures ShowsTerminal(session) && HasAdded(session, p, old(session.store.db.extractions))
    ensures !session.broken && |session.wrote| == 1 ==> MayRecord(session, p)
  {
    Follows(session.origin, session.now, session.id);
    ReadsFile(session.now, session.id, session.AsView());
    if loads && session.doc in session.store.files {
      session.Step(Ok);
      e := ProcessDocumentPages(session, p, responds);
      assert e.Returns? ==> ShowsOutcome(session, p.value);
      if p.Some? { WroteMore(old(session.wrote), AllOf(session, p.value)); }
    } else {
      session.Step(Fail(false));
      e := RaisesOtherError;
    }
  }

  /** The handler after the `try` block. */
  method HandleException(session: Session, ghost p: Option<Processed>, ghost before: seq<Extraction>)
    requires session.kind.Existing? && session.IsAt(CatchFlush)
    requires ShowsTerminal(session) && HasAdded(session, p, before)
    requires !session.broken && |session.wrote| == 1 ==> MayRecord(session, p)
    modifies session`asked, session`broken, session`seen, session`pending, session`wrote, session`now, session.store`db
    ensures session.HasEnded(Finished(false)) && (old(session.broken) ==> session.broken)
    ensures ShowsTerminal(session) && HasAdded(session, p, before)
  {
    Follows(session.origin, session.now, session.id);
    CatchAll(session);
  }

  /** The `try` block of a run on a stored document and its handler. */
  method ProcessOrCatch(session: Session, loads: bool, p: Option<Processed>, responds: bool) returns (e: Ending)
    requires session.kind.Existing? && session.IsAt(LoadFile) && !session.broken
    requires |session.wrote| == 1 && !HasRecorded(session.wrote) && (p.Some? ==> IsClassifierUsage(p.value))
    modifies session`asked, session`broken, session`seen, session`pending, session`wrote, session`now, session.store`db
    ensures session.HasEnded(Finished(e.Returns?)) && !e.RaisesNotFound?
    ensures e.Returns? ==> !session.broken && p.Some? && !p.value.raised
                           && session.wrote == old(session.wrote) + [AllOf(session, p.value)]
                           && ShowsOutcome(session, p.value)
    ensures ShowsTerminal(session) && HasAdded(session, p, old(session.store.db.extractions))
  {
    ghost var before := session.store.db.extractions;
    e := LoadAndProcess(session, loads, p, responds);
    if !e.Returns? {
      HandleException(session, p, before);
      if session.broken { e := RaisesDatabaseError; }
    }
  }

  /** `_process_existing_inline`; `loads` says whether the file can be read and parsed if it is there. */
  method ProcessExistingInline(session: Session, loads: bool, p: Option<Processed>, responds: bool) returns (e: Ending)
    requires session.kind.Existing? && session.IsAt(Loading) && !session.broken
             && (p.Some? ==> IsClassifierUsage(p.value))
    modifies session`asked, session`broken, session`seen, session`pending, session`wrote, session`now, session.store`db
    ensures session.HasEnded(if e.RaisesNotFound? then NotFound else Finished(e.Returns?))
    ensures e.Returns? ==> !session.broken && p.Some? && !p.value.raised && |session.wrote| == 2
                           && session.wrote[1] == AllOf(session, p.value) && ShowsOutcome(session, p.value)
    ensures IsStory(session.wrote) && RecordsOnce(session.wrote)
    ensures e.RaisesNotFound? ==> session.wrote == [] && session.doc !in old(session.store.db.docs)
    ensures !session.broken && !e.RaisesNotFound? ==> |session.wrote| >= 2
    ensures ShowsTerminal(session)
    ensures Accounts(session.store.db.extractions, session.store.db.uses) && CompletedHaveResults(session.store.db)
    ensures HasRecorded(session.wrote) ==> p.Some?
    ensures Billed(session.store.db.uses) ==
            if HasRecorded(session.wrote) then Billed(old(session.store.db.uses)).Plus(p.value.tokens)
            else Billed(old(session.store.db.uses))
  {
    IsInOrder(session.origin, session.now);
    ghost var before, uses := session.store.db.extractions, session.store.db.uses;
    e := RunExisting(session, loads, p, responds);
    IsInOrder(session.origin, session.now);
    TellsItsStory(session.origin, session.now, session.id);
    GrowthIsBilled(before, uses, session.store.db.extractions, session.store.db.uses);
  }

  lemma IsInOrder(origin: State, now: State)
    requires IsInitial(origin) && Reaches(origin, now)
    ensures Accounts(now.db.extractions, now.db.uses) && CompletedHaveResults(now.db)
  {
    var trace :| Execute(origin, trace) == now;
    InvariantHolds(origin, trace);
  }

  lemma TellsItsStory(origin: State, now: State, id: nat)
    requires IsInitial(origin) && Reaches(origin, now) && id in now.runs && now.runs[id].kind.Existing?
    ensures IsTold(now.runs[id]) && RecordsOnce(now.runs[id].wrote)
  {
    Follows(origin, now, id);
  }

  /** In ledgers that are in order, the bill grows with the extractions. */
  lemma GrowthIsBilled(before: seq<Extraction>, uses: seq<Usage>, after: seq<Extraction>, more: seq<Usage>)
    requires Accounts(before, uses) && Accounts(after, more)
    requires after == before || (after != [] && before == after[..|after| - 1])
    ensures Billed(more) == if after == before then Billed(uses) else Billed(uses).Plus(after[|after| - 1].tokens)
  {
  }

  /** `get_by_id` */
  method GetById(session: Session) returns (ok: bool, found: bool)
    requires session.IsAt(Loading) && !session.broken
    modifies session`asked, session`broken, session`seen, session`now
    ensures session.broken == !ok && found == (session.doc in session.store.db.docs)
    ensures if !ok then session.HasEnded(Finished(false))
            else if found then session.IsAt(MarkFlush) else session.HasEnded(NotFound)
  {
    LoadsRow(session.now, session.id, session.AsView());
    ok := session.Operate();
    found := session.doc in session.store.db.docs;
    session.Step(if ok then Ok else Fail(false));
    if ok && found { session.seen := session.store.db.docs[session.doc]; }
  }

  method MarkAndProcess(session: Session, loads: bool, p: Option<Processed>, responds: bool) returns (e: Ending)
    requires session.kind.Existing? && session.IsAt(MarkFlush) && !session.broken && session.wrote == []
    requires p.Some? ==> IsClassifierUsage(p.value)
    modifies session`asked, session`broken, session`seen, session`pending, session`wrote, session`now, session.store`db
    ensures session.HasEnded(Finished(e.Returns?)) && !e.RaisesNotFound?
    ensures e.Returns? ==> !session.broken && p.Some? && !p.value.raised && |session.wrote| == 2
                           && session.wrote[1] == AllOf(session, p.value) && ShowsOutcome(session, p.value)
    ensures ShowsTerminal(session) && HasAdded(session, p, old(session.store.db.extractions))
  {
    var ok := MarkProcessing(session);
    if !ok { return RaisesDatabaseError; }
    e := ProcessOrCatch(session, loads, p, responds);
  }

  lemma NothingWrittenYet(origin: State, now: State, id: nat)
    requires IsInitial(origin) && Reaches(origin, now) && id in now.runs
    requires now.runs[id].place.Loading? && now.runs[id].kind.Existing?
    ensures now.runs[id].wrote == []
  {
    Follows(origin, now, id);
  }

  method RunExisting(session: Session, loads: bool, p: Option<Processed>, responds: bool) returns (e: Ending)
    requires session.kind.Existing? && session.IsAt(Loading) && !session.broken
             && (p.Some? ==> IsClassifierUsage(p.value))
    modifies session`asked, session`broken, session`seen, session`pending, session`wrote, session`now, session.store`db
    ensures session.HasEnded(if e.RaisesNotFound? then NotFound else Finished(e.Returns?))
    ensures e.Returns? ==> !session.broken && p.Some? && !p.value.raised && |session.wrote| == 2
                           && session.wrote[1] == AllOf(session, p.value) && ShowsOutcome(session, p.value)
    ensures e.RaisesNotFound? ==> session.doc !in old(session.store.db.docs)
    ensures ShowsTerminal(session)
    ensures HasAdded(session, p, old(session.store.db.extractions))
  {
    NothingWrittenYet(session.origin, session.now, session.id);
    var ok, found := GetById(session);
    if !ok { return RaisesDatabaseError; }
    if !found { return RaisesNotFound; }
    e := MarkAndProcess(session, loads, p, responds);
  }

  /** What the end of a run says about its outcome: a response means that the outcome is committed and shows. */
  ghost predicate HasConcluded(session: Session, p: Option<Processed>, e: Ending)
    reads session, session.store
  {
    && (session.broken <==> e.RaisesDatabaseError?) && !e.RaisesNotFound?
    && (e.Returns? ==>
          && p.Some? && !p.value.raised && session.wrote != []
          && session.wrote[|session.wrote| - 1] == AllOf(session, p.value)
          && ShowsOutcome(session, p.value))
  }

  /** `_process_document_pages` without a handler around it, as uploads run it. */
  method ProcessUpload(session: Session, p: Option<Processed>, responds: bool) returns (e: Ending)
    requires !session.kind.Existing? && session.IsAt(Processing) && !session.broken
    requires p.Some? ==> IsClassifierUsage(p.value)
    modifies session`asked, session`broken, session`seen, session`pending, session`wrote, session`now, session.store`db
    ensures session.HasEnded(Finished(e.Returns?)) && HasConcluded(session, p, e)
    ensures HasAdded(session, p, old(session.store.db.extractions))
    ensures !session.broken && p.Some? && (p.value.raised || responds) ==> HasRecorded(session.wrote)
  {
    Follows(session.origin, session.now, session.id);
    e := ProcessDocumentPages(session, p, responds);
    if p.Some? { WroteMore(old(session.wrote), AllOf(session, p.value)); }
  }

  /** `_process_uploaded_inline`, with the handler that undoes an upload whose document was not created. */
  method ProcessUploadedInline(session: Session, parses: bool, saves: bool, p: Option<Processed>, responds: bool,
                               rollsBack: bool, deletes: bool)
    returns (e: Ending)
    requires session.kind.Inline? && session.IsAt(Saving) && !session.broken && (p.Some? ==> IsClassifierUsage(p.value))
    modifies session, session.store
    ensures session.HasEnded(Finished(e.Returns?)) || session.HasEnded(CleanedUp(rollsBack && deletes))
    ensures RecordsOnce(session.wrote) && HasConcluded(session, p, e)
    ensures session.doc in session.store.db.docs ==>
              (session.doc !in session.store.files <==> session.late && session.HasEnded(CleanedUp(true)))
    ensures Accounts(session.store.db.extractions, session.store.db.uses) && CompletedHaveResults(session.store.db)
    ensures HasRecorded(session.wrote) ==> p.Some?
    ensures !session.broken && parses && saves && p.Some? && (p.value.raised || responds) ==> HasRecorded(session.wrote)
    ensures Billed(session.store.db.uses) ==
            if HasRecorded(session.wrote) then Billed(old(session.store.db.uses)).Plus(p.value.tokens)
            else Billed(old(session.store.db.uses))
  {
    Follows(session.origin, session.now, session.id);
    ghost var before, uses := session.store.db.extractions, session.store.db.uses;
    e := RunUpload(session, parses, saves, p, responds, rollsBack, deletes);
    Follows(session.origin, session.now, session.id);
    UploadEnds(session);
    GrowthIsBilled(before, uses, session.store.db.extractions, session.store.db.uses);
  }

  lemma UploadEnds(session: Session)
    requires !session.kind.Existing? && session.id in session.now.runs && Invariant(session.now)
    requires exists b :: session.HasEnded(Finished(b)) || session.HasEnded(CleanedUp(b))
    ensures session.doc in session.store.db.docs ==>
              (session.doc !in session.store.files <==> session.late && session.HasEnded(CleanedUp(true)))
  {
    var r := session.now.runs[session.id];
    assert IsNamed(session.id, r) && IsUpload(session.now, session.id);
    StoredMeans(r, session.doc in session.store.db.docs, session.doc in session.store.files);
  }

  method RunUpload(session: Session, parses: bool, saves: bool, p: Option<Processed>, responds: bool,
                   rollsBack: bool, deletes: bool)
    returns (e: Ending)
    requires session.kind.Inline? && session.IsAt(Saving) && !session.broken && (p.Some? ==> IsClassifierUsage(p.value))
    modifies session, session.store
    ensures session.HasEnded(Finished(e.Returns?)) || session.HasEnded(CleanedUp(rollsBack && deletes))
    ensures HasConcluded(session, p, e) && HasAdded(session, p, old(session.store.db.extractions))
    ensures !session.broken && parses && saves && p.Some? && (p.value.raised || responds) ==> HasRecorded(session.wrote)
  {
    var ok := PrepareDocument(session, parses, saves);
    if !ok { return RaisesOtherError; }
    ok := CreateDocument(session);
    if !ok {
      AbandonUpload(session, rollsBack, deletes);
      return RaisesDatabaseError;
    }
    ok := MarkProcessing(session);
    if !ok { return RaisesDatabaseError; }
    e := ProcessUpload(session, p, responds);
  }

  /** The asynchronous part of `_extract_uploaded_document`: hand the document to the queue, or process it here if that
      fails, without a handler of its own. */
  method ExtractUploadedDocument(session: Session, parses: bool, saves: bool, enqueues: bool, p: Option<Processed>,
                                 responds: bool, rollsBack: bool, deletes: bool)
    returns (e: Ending)
    requires session.kind.Queued? && session.IsAt(Saving) && !session.broken && (p.Some? ==> IsClassifierUsage(p.value))
    modifies session, session.store
    ensures session.HasEnded(Finished(e.Returns?)) || session.HasEnded(CleanedUp(rollsBack && deletes))
    ensures RecordsOnce(session.wrote)
    ensures if enqueues then (e.Returns? ==> session.doc in session.store.db.docs) && !HasRecorded(session.wrote)
            else HasConcluded(session, p, e)
    ensures session.doc in session.store.db.docs ==>
              (session.doc !in session.store.files <==> session.late && session.HasEnded(CleanedUp(true)))
    ensures Accounts(session.store.db.extractions, session.store.db.uses) && CompletedHaveResults(session.store.db)
    ensures HasRecorded(session.wrote) ==> p.Some?
    ensures !session.broken && parses && saves && !enqueues && p.Some? && (p.value.raised || responds) ==>
              HasRecorded(session.wrote)
    ensures Billed(session.store.db.uses) ==
            if HasRecorded(session.wrote) then Billed(old(session.store.db.uses)).Plus(p.value.tokens)
            else Billed(old(session.store.db.uses))
  {
    Follows(session.origin, session.now, session.id);
    ghost var before, uses := session.store.db.extractions, session.store.db.uses;
    e := RunQueuedUpload(session, parses, saves, enqueues, p, responds, rollsBack, deletes);
    Follows(session.origin, session.now, session.id);
    UploadEnds(session);
    GrowthIsBilled(before, uses, session.store.db.extractions, session.store.db.uses);
  }

  method RunQueuedUpload(session: Session, parses: bool, saves: bool, enqueues: bool, p: Option<Processed>,
                         responds: bool, rollsBack: bool, deletes: bool)
    returns (e: Ending)
    requires session.kind.Queued? && session.IsAt(Saving) && !session.broken && (p.Some? ==> IsClassifierUsage(p.value))
    modifies session, session.store
    ensures session.HasEnded(Finished(e.Returns?)) || session.HasEnded(CleanedUp(rollsBack && deletes))
    ensures HasAdded(session, p, old(session.store.db.extractions))
    ensures if enqueues then (e.Returns? ==> session.doc in session.store.db.docs) && !HasRecorded(session.wrote)
            else HasConcluded(session, p, e)
    ensures !session.broken && parses && saves && !enqueues && p.Some? && (p.value.raised || responds) ==>
              HasRecorded(session.wrote)
  {
    var ok := PrepareDocument(session, parses, saves);
    if !ok { return RaisesOtherError; }
    ok := CreateDocument(session);
    if !ok {
      AbandonUpload(session, rollsBack, deletes);
      return RaisesDatabaseError;
    }
    ok := EnqueueExtraction(session, enqueues);
    if ok { return Returns; }
    e := ProcessUpload(session, p, responds);
  }

  /** `enqueue_extraction`, after which the document waits for a worker. */
  method EnqueueExtraction(session: Session, enqueues: bool) returns (ok: bool)
    requires session.IsAt(Enqueue)
    modifies session`now
    ensures ok == enqueues && session.doc in session.store.db.docs
    ensures if ok then session.HasEnded(Finished(true)) else session.IsAt(Processing)
  {
    Follows(session.origin, session.now, session.id);
    assert IsUpload(session.now, session.id) && IsNamed(session.id, session.now.runs[session.id]);
    Enqueues(session.now, session.id, session.AsView());
    ok := enqueues;
    session.Step(if ok then Ok else Fail(false));
  }
}
