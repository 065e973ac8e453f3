/** Uploads, batch items and worker jobs as runs that interleave on one database and one file store. A run
    advances one awaited operation at a time; every operation may fail, and a run may be cancelled anywhere. */
module Lifecycle {
  import opened LlmTokens
  import opened Ledger
  import opened Options

  datatype DocumentStatus = DocUploaded | DocProcessing | DocCompleted | DocFailed

  /** An inline upload (or batch item), an upload that is handed to the queue, or a run on a stored document
      (a worker job, or a request that names a document). */
  datatype Kind = Inline | Queued | Existing

  /** Changes that a session has flushed but not committed. */
  datatype Changes = Changes(status: Option<DocumentStatus>, extraction: Option<Extraction>, uses: seq<Usage>)

  const NO_CHANGES := Changes(None, None, [])

  /** What processing the pages gives: a validated extraction or an extraction error. Both carry the tokens of all
      calls and the classifier's usage, if it was called. */
  datatype Processed = Processed(raised: bool, validation: ExtractionStatus, tokens: Tokens,
                                 classified: Option<UsageEvent>)

  /** The rows that a run records for its outcome. */
  datatype Record = Record(raised: bool, status: DocumentStatus, extraction: Extraction, uses: seq<Usage>)

  datatype Place =
    | Saving | CreateFlush | CreateCommit | CreateRefresh | Cleanup | Enqueue
    | Loading | MarkFlush | MarkCommit | LoadFile | Processing
    | Recording(record: Record, written: nat) | Refreshing(record: Record) | Responding(record: Record)
    | RecordCommit(record: Record)
    | CatchFlush | CatchCommit | Done

  datatype Exit = Running | NotFound | Finished(returned: bool) | CleanedUp(deleted: bool) | Cancelled

  /** `seen` is the status in the session's copy of the document; `broken` says that a database operation of the
      session failed; `wrote` lists the commits of the run that took effect; `late` says that creating the document
      raised although its commit had taken effect. */
  datatype Run = Run(kind: Kind, doc: nat, model: string, place: Place, seen: DocumentStatus, pending: Changes,
                     broken: bool, wrote: seq<Changes>, late: bool, exit: Exit)

  datatype Database = Database(docs: map<nat, DocumentStatus>, extractions: seq<Extraction>, uses: seq<Usage>)

  /** A run is known by a fresh id, not below `base`; the rows from before have ids below it. The document of an upload
      and the extraction of a run get the id of the run as their own fresh id. */
  datatype State = State(db: Database, files: set<nat>, runs: map<nat, Run>, base: nat)

  const EMPTY := State(Database(map[], [], []), {}, map[], 0)

  datatype Event =
    | Begin(kind: Kind, doc: nat, model: string)
    | Ok
    | Fail(applied: bool)  // the operation raises, possibly after it took effect
    | Result(processed: Processed)
    | Cancel

  // ---------- local helpers ----------

  function InitialStatus(k: Kind): DocumentStatus {
    if k.Queued? then DocProcessing else DocUploaded
  }

  /** `set_status`: the mapper writes only what differs from the session's copy. */
  function SetStatus(r: Run, st: DocumentStatus): Run {
    if r.seen == st then r else r.(seen := st, pending := r.pending.(status := Some(st)))
  }

  function Apply(db: Database, doc: nat, c: Changes): Database {
    Database(if c.status.Some? then db.docs[doc := c.status.value] else db.docs,
             if c.extraction.Some? then db.extractions + [c.extraction.value] else db.extractions,
             db.uses + c.uses)
  }

  function Committed(r: Run): Run {
    r.(wrote := r.wrote + [r.pending], pending := NO_CHANGES)
  }

  function End(r: Run, exit: Exit): Run {
    r.(place := Done, pending := NO_CHANGES, exit := exit)
  }

  /** `_document_status_for` */
  function StatusFor(validation: ExtractionStatus): DocumentStatus {
    if validation.Failed? then DocFailed else DocCompleted
  }

  function EventsOf(p: Processed): seq<UsageEvent> {
    if p.classified.Some? then [p.classified.value] else []
  }

  /** The rows for an outcome: an extraction, failed if processing raised, and its usage. */
  function RecordOf(id: nat, doc: nat, model: string, p: Processed): Record {
    var x := Extraction(id, doc, if p.raised then Failed else p.validation, model, p.tokens);
    Record(p.raised, if p.raised then DocFailed else StatusFor(p.validation), x, UsageRows(x, EventsOf(p)))
  }

  /** Where an exception of the processing ends: runs on stored documents catch it to record a failure, the
      others give up their session. */
  function Raise(r: Run): Run {
    if r.kind.Existing? then r.(place := CatchFlush) else End(r, Finished(false))
  }

  // ---------- one step of one run ----------

  function Put(s: State, id: nat, r: Run): State {
    s.(runs := s.runs[id := r])
  }

  function Commit(s: State, id: nat, r: Run): State {
    s.(db := Apply(s.db, r.doc, r.pending), runs := s.runs[id := Committed(r)])
  }

  /** A commit that raises; `applied` says whether the database had already carried it out. */
  function FailedCommit(s: State, id: nat, r: Run, applied: bool): State {
    if applied then Commit(s, id, r.(broken := true))
    else Put(s, id, r.(pending := NO_CHANGES, broken := true))
  }

  /** `_create_document`, and what follows when it raises: rollback and deletion of the file. */
  function Create(s: State, id: nat, r: Run, e: Event): State {
    match r.place
    case Saving =>
      if e.Ok? then Put(s, id, r.(place := CreateFlush)).(files := s.files + {r.doc})
      else Put(s, id, End(r, Finished(false)))
    case CreateFlush =>
      if e.Ok? then
        Put(s, id, r.(place := CreateCommit, seen := InitialStatus(r.kind),
                      pending := NO_CHANGES.(status := Some(InitialStatus(r.kind)))))
      else Put(s, id, r.(place := Cleanup, broken := true))
    case CreateCommit =>
      if e.Ok? then Commit(s, id, r.(place := CreateRefresh))
      else
        var applied := e.Fail? && e.applied;
        FailedCommit(s, id, r.(place := Cleanup, late := applied), applied)
    case CreateRefresh =>
      if e.Ok? then Put(s, id, r.(place := if r.kind.Inline? then MarkFlush else Enqueue))
      else Put(s, id, r.(place := Cleanup, late := true, broken := true))
    case Cleanup =>
      var t := Put(s, id, End(r, CleanedUp(e.Ok?)));
      if e.Ok? then t.(files := s.files - {r.doc}) else t
    case _ => s
  }

  /** From the stored document to its pages: loading, marking it as processing, the queue. */
  function Prepare(s: State, id: nat, r: Run, e: Event): State {
    match r.place
    case Enqueue =>
      Put(s, id, if e.Ok? then End(r, Finished(true)) else r.(place := Processing))
    case Loading =>
      Put(s, id, if !e.Ok? then End(r.(broken := true), Finished(false))
                 else if r.doc !in s.db.docs then End(r, NotFound)
                 else r.(place := MarkFlush, seen := s.db.docs[r.doc]))
    case MarkFlush =>
      Put(s, id, if e.Ok? then SetStatus(r, DocProcessing).(place := MarkCommit)
                 else End(r.(broken := true), Finished(false)))
    case MarkCommit =>
      if e.Ok? then Commit(s, id, r.(place := if r.kind.Existing? then LoadFile else Processing))
      else FailedCommit(s, id, End(r, Finished(false)).(pending := r.pending), e.Fail? && e.applied)
    case LoadFile =>
      Put(s, id, if e.Ok? && r.doc in s.files then r.(place := Processing) else Raise(r))
    case Processing =>
      Put(s, id, if e.Result? && IsClassifierUsage(e.processed)
                 then r.(place := Recording(RecordOf(id, r.doc, r.model, e.processed), 0))
                 else Raise(r))
    case _ => s
  }

  predicate IsClassifierUsage(p: Processed) {
    p.classified.Some? ==> p.classified.value.purpose == Classifier
  }

  /** Flushes number `n` of a record: the status, the extraction, then one ledger row after the other. */
  function Flush(r: Run, record: Record, n: nat): Run {
    if n == 0 then SetStatus(r, record.status)
    else if n == 1 then r.(pending := r.pending.(extraction := Some(record.extraction)))
    else if n - 2 < |record.uses| then r.(pending := r.pending.(uses := r.pending.uses + [record.uses[n - 2]]))
    else r
  }

  function AfterFlush(record: Record, n: nat): Place {
    if n + 1 < 2 + |record.uses| then Recording(record, n + 1)
    else if record.raised then RecordCommit(record)
    else Refreshing(record)
  }

  /** `_record_processing_success` and `_record_processing_failure` */
  function Keep(s: State, id: nat, r: Run, e: Event): State {
    match r.place
    case Recording(record, n) =>
      Put(s, id, if e.Ok? then Flush(r, record, n).(place := AfterFlush(record, n)) else Raise(r.(broken := true)))
    case Refreshing(record) =>
      Put(s, id, if e.Ok? then r.(place := Responding(record)) else Raise(r.(broken := true)))
    case Responding(record) =>
      Put(s, id, if e.Ok? then r.(place := RecordCommit(record)) else Raise(r))
    case RecordCommit(record) =>
      if e.Ok? then
        Commit(s, id, (if record.raised then Raise(r) else End(r, Finished(true))).(pending := r.pending))
      else FailedCommit(s, id, Raise(r).(pending := r.pending), e.Fail? && e.applied)
    case _ => s
  }

  /** The catch-all of a run on a stored document. A broken session raises at once. */
  function Catch(s: State, id: nat, r: Run, e: Event): State {
    match r.place
    case CatchFlush =>
      Put(s, id, if r.broken || !e.Ok? then End(r.(broken := true), Finished(false))
                 else SetStatus(r, DocFailed).(place := CatchCommit))
    case CatchCommit =>
      if e.Ok? then Commit(s, id, End(r, Finished(false)).(pending := r.pending))
      else FailedCommit(s, id, End(r, Finished(false)).(pending := r.pending), e.Fail? && e.applied)
    case _ => s
  }

  /** Run `id` begins, if the id is fresh. */
  function Start(s: State, id: nat, e: Event): State
    requires e.Begin?
  {
    if id in s.runs || id < s.base then s
    else
      Put(s, id, Run(e.kind, if e.kind.Existing? then e.doc else id, e.model,
                     if e.kind.Existing? then Loading else Saving, DocUploaded, NO_CHANGES, false, [], false, Running))
  }

  /** One step: run `id` meets event `e`. Where an operation is awaited, any event but its success makes it raise. */
  function Next(s: State, id: nat, e: Event): State {
    if e.Begin? then Start(s, id, e)
    else if id !in s.runs || s.runs[id].place.Done? then s
    else
      var r := s.runs[id];
      if e.Cancel? then Put(s, id, End(r, Cancelled))
      else match r.place
        case Saving | CreateFlush | CreateCommit | CreateRefresh | Cleanup => Create(s, id, r, e)
        case Enqueue | Loading | MarkFlush | MarkCommit | LoadFile | Processing => Prepare(s, id, r, e)
        case Recording(_, _) | Refreshing(_) | Responding(_) | RecordCommit(_) => Keep(s, id, r, e)
        case CatchFlush | CatchCommit => Catch(s, id, r, e)
        case Done => s
  }

  datatype Step = Step(run: nat, event: Event)

  function Execute(s: State, trace: seq<Step>): State {
    if trace == [] then s
    else Next(Execute(s, trace[..|trace| - 1]), trace[|trace| - 1].run, trace[|trace| - 1].event)
  }

  /** A schedule goes on with one more step. */
  lemma Go(s: State, trace: seq<Step>, id: nat, e: Event) returns (longer: seq<Step>)
    ensures Execute(s, longer) == Next(Execute(s, trace), id, e)
  {
    longer := trace + [Step(id, e)];
    assert longer[..|trace|] == trace;
  }
}
