/** What a single run leaves behind, and which events decide it. */
module LifecycleRuns {
  import opened LlmTokens
  import opened Ledger
  import opened Lifecycle
  import opened LifecycleSafety
  import opened Options

  // ---------- one extraction per run ----------

  ghost predicate RecordsOnce(wrote: seq<Changes>) {
    forall i, j :: 0 <= i < j < |wrote| ==> wrote[i].extraction.None? || wrote[j].extraction.None?
  }

  lemma OnceMore(wrote: seq<Changes>, c: Changes)
    requires RecordsOnce(wrote) && (c.extraction.Some? ==> !HasRecorded(wrote))
    ensures RecordsOnce(wrote + [c])
  {
  }

  lemma StepRecordsOnce(s: State, id: nat, e: Event)
    requires id in s.runs && IsOnTrack(id, s.runs[id]) && !e.Begin? && RecordsOnce(s.runs[id].wrote)
    ensures id in Next(s, id, e).runs && RecordsOnce(Next(s, id, e).runs[id].wrote)
  {
    StepIsStep(s, id, e);
    var r := s.runs[id];
    if r.pending.extraction.Some? && HasRecorded(r.wrote) {
    } else {
      OnceMore(r.wrote, r.pending);
    }
  }

  /** Failure handling may run twice, yet no run commits two extractions. */
  lemma {:induction false} AtMostOneExtraction(s: State, trace: seq<Step>, id: nat)
    requires IsInitial(s) && id in Execute(s, trace).runs
    ensures RecordsOnce(Execute(s, trace).runs[id].wrote)
  {
    if trace != [] {
      var front, last := trace[..|trace| - 1], trace[|trace| - 1];
      var u := Execute(s, front);
      StaysOnTrack(s, front);
      if last.run in u.runs && !last.event.Begin? { StepIsStep(u, last.run, last.event); }
      if id in u.runs {
        AtMostOneExtraction(s, front, id);
        if last.run == id && !last.event.Begin? { StepRecordsOnce(u, id, last.event); }
      }
    }
  }

  // ---------- what happens in a trace ----------

  /** Some step of the trace is of this sort. */
  ghost predicate Ever(s: State, trace: seq<Step>, sort: (State, Step) -> bool) {
    exists k :: 0 <= k < |trace| && sort(Execute(s, trace[..k]), trace[k])
  }

  /** The sort concerns steps of run `id` only. */
  ghost predicate IsAbout(sort: (State, Step) -> bool, id: nat) {
    forall u, step :: sort(u, step) ==> step.run == id && id in u.runs
  }

  lemma EverOneMore(s: State, front: seq<Step>, last: Step, sort: (State, Step) -> bool)
    ensures Ever(s, front + [last], sort) <==> Ever(s, front, sort) || sort(Execute(s, front), last)
  {
    var trace, n := front + [last], |front|;
    assert trace[..n] == front && trace[n] == last;
    if Ever(s, trace, sort) {
      var k :| 0 <= k < |trace| && sort(Execute(s, trace[..k]), trace[k]);
      if k < n { assert trace[..k] == front[..k] && trace[k] == front[k]; }
    }
    if Ever(s, front, sort) {
      var k :| 0 <= k < n && sort(Execute(s, front[..k]), front[k]);
      assert trace[..k] == front[..k] && trace[k] == front[k];
    }
  }

  /** A run changes by its own steps only. */
  lemma OthersKeepRun(s: State, step: Step, id: nat)
    requires RunsOnTrack(s) && id in s.runs && (step.run != id || step.event.Begin?)
    ensures id in Next(s, step.run, step.event).runs
    ensures Next(s, step.run, step.event).runs[id] == s.runs[id]
  {
    if step.run in s.runs && !step.event.Begin? { StepIsStep(s, step.run, step.event); }
  }

  /** A run is there once it has begun. */
  lemma Begins(s: State, step: Step, id: nat)
    requires RunsOnTrack(s) && id !in s.runs && id in Next(s, step.run, step.event).runs
    ensures step.run == id && step.event.Begin? && IsFresh(Next(s, step.run, step.event).runs[id])
  {
    if step.run in s.runs && !step.event.Begin? { StepIsStep(s, step.run, step.event); }
  }

  predicate IsFresh(r: Run) {
    && r.place == (if r.kind.Existing? then Loading else Saving)
    && !r.broken && r.wrote == [] && !r.late && r.exit.Running?
  }

  /** A step of the run raises the flag exactly if it is of the sort; a run begins without the flag. */
  ghost predicate IsRaisedBy(flag: Run -> bool, sort: (State, Step) -> bool, u: State, step: Step, id: nat) {
    && (id in u.runs && step.run == id && !step.event.Begin? ==>
          && id in Next(u, id, step.event).runs
          && (flag(Next(u, id, step.event).runs[id]) <==> flag(u.runs[id]) || sort(u, step)))
    && (id in u.runs && step.run == id && step.event.Begin? ==> !sort(u, step))
  }

  /** So does every step of the trace. */
  ghost predicate AlwaysRaisedBy(flag: Run -> bool, sort: (State, Step) -> bool, s: State, trace: seq<Step>, id: nat) {
    forall k :: 0 <= k < |trace| ==> IsRaisedBy(flag, sort, Execute(s, trace[..k]), trace[k], id)
  }

  ghost predicate BeginsUnset(flag: Run -> bool) {
    forall r :: IsFresh(r) ==> !flag(r)
  }

  /** The flag of run `id` is set exactly if `ever`. */
  ghost predicate Tells(u: State, id: nat, flag: Run -> bool, ever: bool) {
    if id in u.runs then flag(u.runs[id]) <==> ever else !ever
  }

  lemma FlagOneMore(u: State, step: Step, id: nat, flag: Run -> bool, sort: (State, Step) -> bool, ever: bool)
    requires RunsOnTrack(u) && IsAbout(sort, id) && BeginsUnset(flag) && IsRaisedBy(flag, sort, u, step, id)
    requires Tells(u, id, flag, ever)
    ensures Tells(Next(u, step.run, step.event), id, flag, ever || sort(u, step))
  {
    if id !in u.runs {
      if id in Next(u, step.run, step.event).runs { Begins(u, step, id); }
    } else if step.run != id || step.event.Begin? {
      OthersKeepRun(u, step, id);
    }
  }

  lemma AlwaysBefore(flag: Run -> bool, sort: (State, Step) -> bool, s: State, front: seq<Step>, last: Step, id: nat)
    requires AlwaysRaisedBy(flag, sort, s, front + [last], id)
    ensures AlwaysRaisedBy(flag, sort, s, front, id) && IsRaisedBy(flag, sort, Execute(s, front), last, id)
  {
    var trace := front + [last];
    forall k | 0 <= k < |front| ensures IsRaisedBy(flag, sort, Execute(s, front[..k]), front[k], id) {
      assert front[..k] == trace[..k] && front[k] == trace[k];
    }
    assert trace[..|front|] == front && trace[|front|] == last;
  }

  lemma TellsOneMore(s: State, front: seq<Step>, last: Step, id: nat, flag: Run -> bool, sort: (State, Step) -> bool)
    requires RunsOnTrack(Execute(s, front)) && IsAbout(sort, id) && BeginsUnset(flag)
    requires IsRaisedBy(flag, sort, Execute(s, front), last, id)
    requires Tells(Execute(s, front), id, flag, Ever(s, front, sort))
    ensures Tells(Execute(s, front + [last]), id, flag, Ever(s, front + [last], sort))
  {
    FlagOneMore(Execute(s, front), last, id, flag, sort, Ever(s, front, sort));
    EverOneMore(s, front, last, sort);
    assert (front + [last])[..|front|] == front;
  }

  /** A flag that steps of one sort raise tells whether such a step has happened. */
  lemma {:induction false} FlagTells(s: State, trace: seq<Step>, id: nat, flag: Run -> bool,
                                     sort: (State, Step) -> bool)
    requires IsInitial(s) && IsAbout(sort, id) && BeginsUnset(flag) && AlwaysRaisedBy(flag, sort, s, trace, id)
    ensures Tells(Execute(s, trace), id, flag, Ever(s, trace, sort))
  {
    if trace == [] {
      assert id !in s.runs;
    } else {
      var front, last := trace[..|trace| - 1], trace[|trace| - 1];
      assert front + [last] == trace;
      assert Tells(Execute(s, front), id, flag, Ever(s, front, sort))
             && IsRaisedBy(flag, sort, Execute(s, front), last, id) by {
        AlwaysBefore(flag, sort, s, front, last, id);
        FlagTells(s, front, id, flag, sort);
      }
      assert RunsOnTrack(Execute(s, front)) by { StaysOnTrack(s, front); }
      TellsOneMore(s, front, last, id, flag, sort);
    }
  }

  // ---------- runs on stored documents ----------

  predicate IsTerminal(st: DocumentStatus) {
    st.DocCompleted? || st.DocFailed?
  }

  predicate WritesTerminal(c: Changes) {
    c.status.Some? && IsTerminal(c.status.value)
  }

  /** The commits of a run on a stored document: the first marks it as being processed, the second sets a
      terminal status, a third one changes nothing. */
  ghost predicate IsStory(wrote: seq<Changes>) {
    && |wrote| <= 3
    && (|wrote| >= 1 ==> wrote[0].status in {None, Some(DocProcessing)} && wrote[0].extraction.None?)
    && (|wrote| >= 2 ==> WritesTerminal(wrote[1]))
    && (|wrote| >= 3 ==> wrote[2] == NO_CHANGES)
  }

  ghost predicate IsTold(r: Run) {
    IsStory(r.wrote) && (r.exit.Running? <==> !r.place.Done?) &&
    match r.place
    case Loading | MarkFlush | MarkCommit => |r.wrote| == 0 && !r.broken
    case LoadFile | Processing => |r.wrote| == 1 && !r.broken
    case Recording(record, n) => |r.wrote| == 1 && !r.broken && (n >= 1 ==> r.seen == record.status)
    case Refreshing(record) => |r.wrote| == 1 && !r.broken && r.seen == record.status
    case Responding(record) => |r.wrote| == 1 && !r.broken && r.seen == record.status
    case RecordCommit(record) => |r.wrote| == 1 && !r.broken && r.seen == record.status
    case CatchFlush => 1 <= |r.wrote| <= 2 && (r.broken || IsToldAtCatch(r))
    case CatchCommit =>
      !r.broken && (if |r.wrote| == 1 then r.pending.status == Some(DocFailed)
                    else |r.wrote| == 2 && r.pending == NO_CHANGES)
    case Done =>
      && (r.exit.Finished? || r.exit.NotFound? || r.exit.Cancelled?)
      && (r.exit.Finished? && !r.broken ==> |r.wrote| >= 2) && (r.exit.NotFound? ==> r.wrote == [])
    case _ => false
  }

  predicate IsToldAtCatch(r: Run) {
    if |r.wrote| == 2 then r.pending == NO_CHANGES && r.seen.DocFailed?
    else (r.pending.status.None? && r.seen.DocProcessing?) || (IsTerminal(r.seen) && r.pending.status == Some(r.seen))
  }

  lemma StoryGoesOn(wrote: seq<Changes>, c: Changes)
    requires IsStory(wrote)
    requires |wrote| == 0 ==> c.status in {None, Some(DocProcessing)} && c.extraction.None?
    requires |wrote| == 1 ==> WritesTerminal(c)
    requires |wrote| == 2 ==> c == NO_CHANGES
    requires |wrote| <= 2
    ensures IsStory(wrote + [c])
  {
  }

  lemma LoadingTells(s: State, id: nat, e: Event)
    requires id in s.runs && IsOnTrack(id, s.runs[id]) && s.runs[id].kind.Existing? && IsTold(s.runs[id])
    requires s.runs[id].place.Loading?
    ensures IsTold(Prepare(s, id, s.runs[id], e).runs[id])
  {
  }

  lemma MarkFlushTells(s: State, id: nat, e: Event)
    requires id in s.runs && IsOnTrack(id, s.runs[id]) && s.runs[id].kind.Existing? && IsTold(s.runs[id])
    requires s.runs[id].place.MarkFlush?
    ensures IsTold(Prepare(s, id, s.runs[id], e).runs[id])
  {
  }

  lemma MarkCommitTells(s: State, id: nat, e: Event)
    requires id in s.runs && IsOnTrack(id, s.runs[id]) && s.runs[id].kind.Existing? && IsTold(s.runs[id])
    requires s.runs[id].place.MarkCommit?
    ensures IsTold(Prepare(s, id, s.runs[id], e).runs[id])
  {
    StoryGoesOn(s.runs[id].wrote, s.runs[id].pending);
  }

  lemma FileTells(s: State, id: nat, e: Event)
    requires id in s.runs && IsOnTrack(id, s.runs[id]) && s.runs[id].kind.Existing? && IsTold(s.runs[id])
    requires s.runs[id].place.LoadFile? || s.runs[id].place.Processing?
    ensures IsTold(Prepare(s, id, s.runs[id], e).runs[id])
  {
  }

  lemma RecordingTells(s: State, id: nat, e: Event)
    requires id in s.runs && IsOnTrack(id, s.runs[id]) && s.runs[id].kind.Existing? && IsTold(s.runs[id])
    requires s.runs[id].place.Recording?
    ensures IsTold(Keep(s, id, s.runs[id], e).runs[id])
  {
  }

  lemma RefreshingTells(s: State, id: nat, e: Event)
    requires id in s.runs && IsOnTrack(id, s.runs[id]) && s.runs[id].kind.Existing? && IsTold(s.runs[id])
    requires s.runs[id].place.Refreshing? || s.runs[id].place.Responding?
    ensures IsTold(Keep(s, id, s.runs[id], e).runs[id])
  {
  }

  lemma RecordCommitTells(s: State, id: nat, e: Event)
    requires id in s.runs && IsOnTrack(id, s.runs[id]) && s.runs[id].kind.Existing? && IsTold(s.runs[id])
    requires s.runs[id].place.RecordCommit?
    ensures IsTold(Keep(s, id, s.runs[id], e).runs[id])
  {
    StoryGoesOn(s.runs[id].wrote, s.runs[id].pending);
  }

  lemma CatchFlushTells(s: State, id: nat, e: Event)
    requires id in s.runs && IsOnTrack(id, s.runs[id]) && s.runs[id].kind.Existing? && IsTold(s.runs[id])
    requires s.runs[id].place.CatchFlush?
    ensures IsTold(Catch(s, id, s.runs[id], e).runs[id])
  {
  }

  lemma CatchCommitTells(s: State, id: nat, e: Event)
    requires id in s.runs && IsOnTrack(id, s.runs[id]) && s.runs[id].kind.Existing? && IsTold(s.runs[id])
    requires s.runs[id].place.CatchCommit?
    ensures IsTold(Catch(s, id, s.runs[id], e).runs[id])
  {
    StoryGoesOn(s.runs[id].wrote, s.runs[id].pending);
  }

  lemma PrepareTells(s: State, id: nat, e: Event)
    requires id in s.runs && IsOnTrack(id, s.runs[id]) && s.runs[id].kind.Existing? && IsTold(s.runs[id])
    requires var p := s.runs[id].place; p.Loading? || p.LoadFile? || p.Processing? || p.MarkFlush? || p.MarkCommit?
    ensures IsTold(Prepare(s, id, s.runs[id], e).runs[id])
  {
    match s.runs[id].place
    case Loading => LoadingTells(s, id, e);
    case MarkFlush => MarkFlushTells(s, id, e);
    case MarkCommit => MarkCommitTells(s, id, e);
    case _ => FileTells(s, id, e);
  }

  lemma KeepTells(s: State, id: nat, e: Event)
    requires id in s.runs && IsOnTrack(id, s.runs[id]) && s.runs[id].kind.Existing? && IsTold(s.runs[id])
    requires var p := s.runs[id].place; p.Recording? || p.Refreshing? || p.Responding? || p.RecordCommit?
    ensures IsTold(Keep(s, id, s.runs[id], e).runs[id])
  {
    match s.runs[id].place
    case Recording(_, _) => RecordingTells(s, id, e);
    case RecordCommit(_) => RecordCommitTells(s, id, e);
    case _ => RefreshingTells(s, id, e);
  }

  lemma StepTells(s: State, id: nat, e: Event)
    requires id in s.runs && IsOnTrack(id, s.runs[id]) && s.runs[id].kind.Existing? && IsTold(s.runs[id])
    requires !e.Begin?
    ensures id in Next(s, id, e).runs && IsTold(Next(s, id, e).runs[id])
  {
    var p := s.runs[id].place;
    if p.Done? || e.Cancel? {
    } else if p.Recording? || p.Refreshing? || p.Responding? || p.RecordCommit? {
      KeepTells(s, id, e);
    } else if p.CatchFlush? {
      CatchFlushTells(s, id, e);
    } else if p.CatchCommit? {
      CatchCommitTells(s, id, e);
    } else {
      PrepareTells(s, id, e);
    }
  }

  lemma StoryStep(s: State, step: Step, id: nat)
    requires RunsOnTrack(s) && id in Next(s, step.run, step.event).runs
    requires id in s.runs && s.runs[id].kind.Existing? ==> IsTold(s.runs[id])
    ensures var r := Next(s, step.run, step.event).runs[id]; r.kind.Existing? ==> IsTold(r)
  {
    if id !in s.runs {
      Begins(s, step, id);
    } else if step.run != id || step.event.Begin? {
      OthersKeepRun(s, step, id);
    } else {
      StepIsStep(s, id, step.event);
      if s.runs[id].kind.Existing? { StepTells(s, id, step.event); }
    }
  }

  lemma {:induction false} StoryHolds(s: State, trace: seq<Step>, id: nat)
    requires IsInitial(s) && id in Execute(s, trace).runs && Execute(s, trace).runs[id].kind.Existing?
    ensures IsTold(Execute(s, trace).runs[id])
  {
    if trace != [] {
      var front, last := trace[..|trace| - 1], trace[|trace| - 1];
      var u := Execute(s, front);
      StaysOnTrack(s, front);
      if id in u.runs && u.runs[id].kind.Existing? { StoryHolds(s, front, id); }
      StoryStep(u, last, id);
    }
  }

  /** A run on a stored document that ends without a failure of the database has set a terminal status, or the
      document does not exist. */
  lemma {:induction false} EndsTerminal(s: State, trace: seq<Step>, id: nat)
    requires IsInitial(s) && id in Execute(s, trace).runs
    requires var r := Execute(s, trace).runs[id]; r.kind.Existing? && r.place.Done? && !r.exit.Cancelled? && !r.broken
    ensures var r := Execute(s, trace).runs[id];
            if r.exit.NotFound? then r.wrote == [] else |r.wrote| >= 2 && WritesTerminal(r.wrote[1])
  {
    StoryHolds(s, trace, id);
    StaysOnTrack(s, trace);
  }

  /** The places at which a run on a stored document awaits the database and an error keeps it from ever setting a
      terminal status. At its later commits an error does so only if the commit did not take effect. */
  predicate IsFatal(p: Place, e: Event) {
    match p
    case Loading | MarkFlush | MarkCommit | Recording(_, _) | Refreshing(_) | CatchFlush => true
    case RecordCommit(_) | CatchCommit => e != Fail(true)
    case _ => false
  }

  /** The database fails a run on a stored document before the run has set a terminal status. */
  predicate IsEarlyFailure(s: State, step: Step) {
    && step.run in s.runs && s.runs[step.run].kind.Existing? && |s.runs[step.run].wrote| <= 1
    && !step.event.Ok? && !step.event.Cancel? && !step.event.Begin?
    && IsFatal(s.runs[step.run].place, step.event)
  }

  ghost function EarlyFailureOf(id: nat): (State, Step) -> bool {
    (u: State, step: Step) => step.run == id && IsEarlyFailure(u, step)
  }

  predicate IsLost(r: Run) {
    r.kind.Existing? && r.broken && |r.wrote| <= 1
  }

  lemma PrepareLoses(s: State, id: nat, e: Event)
    requires id in s.runs && s.runs[id].kind.Existing? && IsTold(s.runs[id]) && !e.Begin? && !e.Cancel?
    requires var p := s.runs[id].place; p.Loading? || p.LoadFile? || p.Processing? || p.MarkFlush? || p.MarkCommit?
    ensures IsLost(Prepare(s, id, s.runs[id], e).runs[id]) <==>
            IsLost(s.runs[id]) || IsEarlyFailure(s, Step(id, e))
  {
  }

  lemma KeepLoses(s: State, id: nat, e: Event)
    requires id in s.runs && s.runs[id].kind.Existing? && IsTold(s.runs[id]) && !e.Begin? && !e.Cancel?
    requires var p := s.runs[id].place; p.Recording? || p.Refreshing? || p.Responding? || p.RecordCommit?
    ensures IsLost(Keep(s, id, s.runs[id], e).runs[id]) <==>
            IsLost(s.runs[id]) || IsEarlyFailure(s, Step(id, e))
  {
  }

  lemma CatchLoses(s: State, id: nat, e: Event)
    requires id in s.runs && s.runs[id].kind.Existing? && IsTold(s.runs[id]) && !e.Begin? && !e.Cancel?
    requires s.runs[id].place.CatchFlush? || s.runs[id].place.CatchCommit?
    ensures IsLost(Catch(s, id, s.runs[id], e).runs[id]) <==>
            IsLost(s.runs[id]) || IsEarlyFailure(s, Step(id, e))
  {
  }

  /** A run on a stored document is lost by an early failure and by nothing else. */
  lemma StepLoses(s: State, id: nat, e: Event)
    requires id in s.runs && s.runs[id].kind.Existing? && IsTold(s.runs[id]) && !e.Begin?
    ensures id in Next(s, id, e).runs
    ensures IsLost(Next(s, id, e).runs[id]) <==> IsLost(s.runs[id]) || IsEarlyFailure(s, Step(id, e))
  {
    var p := s.runs[id].place;
    if p.Done? || e.Cancel? {
    } else if p.Recording? || p.Refreshing? || p.Responding? || p.RecordCommit? {
      KeepLoses(s, id, e);
    } else if p.CatchFlush? || p.CatchCommit? {
      CatchLoses(s, id, e);
    } else {
      PrepareLoses(s, id, e);
    }
  }

  lemma {:induction false} LostExactlyWhenEarly(s: State, trace: seq<Step>, id: nat)
    requires IsInitial(s) && id in Execute(s, trace).runs
    ensures IsLost(Execute(s, trace).runs[id]) <==> Ever(s, trace, EarlyFailureOf(id))
  {
    forall k | 0 <= k < |trace|
      ensures IsRaisedBy(IsLost, EarlyFailureOf(id), Execute(s, trace[..k]), trace[k], id)
    {
      var u, step := Execute(s, trace[..k]), trace[k];
      StaysOnTrack(s, trace[..k]);
      if id in u.runs && step.run == id && !step.event.Begin? {
        StepIsStep(u, id, step.event);
        if u.runs[id].kind.Existing? {
          StoryHolds(s, trace[..k], id);
          StepLoses(u, id, step.event);
        }
      }
    }
    FlagTells(s, trace, id, IsLost, EarlyFailureOf(id));
  }

  /** A run on a stored document that has run to its end has set a terminal status if and only if the database did not
      fail it before. */
  lemma {:induction false} EndsTerminalExactlyWhen(s: State, trace: seq<Step>, id: nat)
    requires IsInitial(s) && id in Execute(s, trace).runs
    requires var r := Execute(s, trace).runs[id]; r.kind.Existing? && r.exit.Finished?
    ensures var r := Execute(s, trace).runs[id];
            |r.wrote| >= 2 && WritesTerminal(r.wrote[1]) <==> !Ever(s, trace, EarlyFailureOf(id))
  {
    StoryHolds(s, trace, id);
    LostExactlyWhenEarly(s, trace, id);
    StaysOnTrack(s, trace);
  }

  /** After a commit of such a run other than its first, the document has a terminal status, unless the commit is
      its third and another run has changed the status since the second: a third commit writes nothing. */
  lemma {:induction false} TerminalAtCommit(s: State, trace: seq<Step>, id: nat, e: Event)
    requires IsInitial(s) && id in Execute(s, trace).runs && !e.Begin?
    requires Execute(s, trace).runs[id].kind.Existing?
    requires var u := Execute(s, trace);
             id in Next(u, id, e).runs && |Next(u, id, e).runs[id].wrote| == |u.runs[id].wrote| + 1 >= 2
    ensures var u := Execute(s, trace);
            var t, doc := Next(u, id, e), u.runs[id].doc;
            && doc in u.db.docs && doc in t.db.docs
            && (IsTerminal(t.db.docs[doc]) <==> |t.runs[id].wrote| == 2 || IsTerminal(u.db.docs[doc]))
            && (|t.runs[id].wrote| == 3 ==> t.db.docs == u.db.docs)
  {
    var u := Execute(s, trace);
    InvariantHolds(s, trace);
    StoryHolds(s, trace, id);
    StepTells(u, id, e);
    StepIsStep(u, id, e);
    FindsBeforeItCommits(u, id, e);
  }

  lemma FindsBeforeItCommits(s: State, id: nat, e: Event)
    requires id in s.runs && !e.Begin? && s.runs[id].kind.Existing? && IsOnTrack(id, s.runs[id])
    requires id in Next(s, id, e).runs && |Next(s, id, e).runs[id].wrote| == |s.runs[id].wrote| + 1
    ensures HasFound(s.runs[id])
  {
  }

  // ---------- uploads ----------

  predicate ShowsWhatItRecords(c: Changes) {
    WritesTerminal(c) <==> c.extraction.Some?
  }

  ghost predicate AllShow(wrote: seq<Changes>) {
    forall k :: 0 <= k < |wrote| ==> ShowsWhatItRecords(wrote[k])
  }

  lemma CreateWrites(s: State, id: nat, e: Event)
    requires IsUpload(s, id) && !s.runs[id].place.CreateCommit?
    ensures id in Create(s, id, s.runs[id], e).runs && Create(s, id, s.runs[id], e).runs[id].wrote == s.runs[id].wrote
  {
  }

  lemma PrepareWrites(s: State, id: nat, e: Event)
    requires IsUpload(s, id) && !s.runs[id].place.MarkCommit?
    ensures id in Prepare(s, id, s.runs[id], e).runs
    ensures Prepare(s, id, s.runs[id], e).runs[id].wrote == s.runs[id].wrote
  {
  }

  lemma KeepWrites(s: State, id: nat, e: Event)
    requires IsUpload(s, id) && !s.runs[id].place.RecordCommit?
    ensures id in Keep(s, id, s.runs[id], e).runs && Keep(s, id, s.runs[id], e).runs[id].wrote == s.runs[id].wrote
  {
  }

  /** What an upload commits, it commits at one of three places. */
  lemma UploadCommits(s: State, id: nat, e: Event)
    requires IsUpload(s, id) && IsReachable(s.runs[id].kind, s.runs[id].place) && !e.Begin?
    requires var p := s.runs[id].place; !p.CreateCommit? && !p.MarkCommit? && !p.RecordCommit?
    ensures id in Next(s, id, e).runs && Next(s, id, e).runs[id].wrote == s.runs[id].wrote
  {
    CreateWrites(s, id, e);
    PrepareWrites(s, id, e);
    KeepWrites(s, id, e);
  }

  lemma UploadShows(id: nat, r: Run)
    requires !r.kind.Existing? && IsOnTrack(id, r)
    requires r.place.CreateCommit? || r.place.MarkCommit? || r.place.RecordCommit?
    ensures ShowsWhatItRecords(r.pending)
  {
  }

  lemma UploadStepShows(s: State, id: nat, e: Event)
    requires IsUpload(s, id) && IsOnTrack(id, s.runs[id]) && !e.Begin? && AllShow(s.runs[id].wrote)
    ensures id in Next(s, id, e).runs && AllShow(Next(s, id, e).runs[id].wrote)
  {
    StepIsStep(s, id, e);
    var p := s.runs[id].place;
    if p.CreateCommit? || p.MarkCommit? || p.RecordCommit? {
      UploadShows(id, s.runs[id]);
    } else {
      UploadCommits(s, id, e);
    }
  }

  lemma {:induction false} UploadsShowWhatTheyRecord(s: State, trace: seq<Step>, id: nat)
    requires IsInitial(s) && IsUpload(Execute(s, trace), id)
    ensures id in Execute(s, trace).runs && AllShow(Execute(s, trace).runs[id].wrote)
  {
    if trace != [] {
      var front, last := trace[..|trace| - 1], trace[|trace| - 1];
      var u := Execute(s, front);
      StaysOnTrack(s, front);
      if last.run in u.runs && !last.event.Begin? { StepIsStep(u, last.run, last.event); }
      if id in u.runs {
        UploadsShowWhatTheyRecord(s, front, id);
        if last.run == id && !last.event.Begin? { UploadStepShows(u, id, last.event); }
      }
    }
  }

  lemma {:induction false} UploadShowsExactlyWhenRecorded(s: State, trace: seq<Step>, id: nat)
    requires IsInitial(s) && IsUpload(Execute(s, trace), id)
    ensures ShowsTerminal(Execute(s, trace).runs[id].wrote) <==> HasRecorded(Execute(s, trace).runs[id].wrote)
  {
    UploadsShowWhatTheyRecord(s, trace, id);
    var wrote := Execute(s, trace).runs[id].wrote;
    if k :| 0 <= k < |wrote| && WritesTerminal(wrote[k]) { assert ShowsWhatItRecords(wrote[k]); }
    if k :| 0 <= k < |wrote| && wrote[k].extraction.Some? { assert ShowsWhatItRecords(wrote[k]); }
  }

  ghost predicate ShowsTerminal(wrote: seq<Changes>) {
    exists k :: 0 <= k < |wrote| && WritesTerminal(wrote[k])
  }

  /** Events that keep an upload from ever recording an extraction: whatever raises or cancels it before its last commit
      has taken effect, and handing it to the queue. */
  predicate Stops(p: Place, e: Event) {
    match p
    case Done | Cleanup => false
    case Enqueue => e.Ok? || e.Cancel?
    case Processing => !(e.Result? && IsClassifierUsage(e.processed))
    case RecordCommit(_) => !e.Ok? && e != Fail(true)
    case _ => !e.Ok?
  }

  predicate IsStop(s: State, step: Step) {
    && IsUpload(s, step.run) && !step.event.Begin? && Stops(s.runs[step.run].place, step.event)
  }

  ghost function StopOf(id: nat): (State, Step) -> bool {
    (u: State, step: Step) => step.run == id && IsStop(u, step)
  }

  ghost predicate IsStopped(r: Run) {
    !r.kind.Existing? && (r.place.Cleanup? || (r.place.Done? && !HasRecorded(r.wrote)))
  }

  lemma CreateStops(s: State, id: nat, e: Event)
    requires IsUpload(s, id) && IsOnTrack(id, s.runs[id]) && !e.Begin? && !e.Cancel?
    requires var p := s.runs[id].place; p.Saving? || p.CreateFlush? || p.CreateCommit? || p.CreateRefresh?
    ensures id in Create(s, id, s.runs[id], e).runs
    ensures IsStopped(Create(s, id, s.runs[id], e).runs[id]) <==> Stops(s.runs[id].place, e)
  {
  }

  lemma PrepareStops(s: State, id: nat, e: Event)
    requires IsUpload(s, id) && IsOnTrack(id, s.runs[id]) && !e.Begin? && !e.Cancel?
    requires var p := s.runs[id].place; p.Enqueue? || p.MarkFlush? || p.MarkCommit? || p.Processing?
    ensures id in Prepare(s, id, s.runs[id], e).runs
    ensures IsStopped(Prepare(s, id, s.runs[id], e).runs[id]) <==> Stops(s.runs[id].place, e)
  {
    WroteMore(s.runs[id].wrote, s.runs[id].pending);
  }

  lemma KeepStops(s: State, id: nat, e: Event)
    requires IsUpload(s, id) && IsOnTrack(id, s.runs[id]) && !e.Begin? && !e.Cancel?
    requires var p := s.runs[id].place; p.Recording? || p.Refreshing? || p.Responding?
    ensures id in Keep(s, id, s.runs[id], e).runs
    ensures IsStopped(Keep(s, id, s.runs[id], e).runs[id]) <==> Stops(s.runs[id].place, e)
  {
  }

  lemma RecordCommitStops(s: State, id: nat, e: Event)
    requires IsUpload(s, id) && IsOnTrack(id, s.runs[id]) && !e.Begin? && !e.Cancel?
    requires s.runs[id].place.RecordCommit?
    ensures id in Keep(s, id, s.runs[id], e).runs
    ensures IsStopped(Keep(s, id, s.runs[id], e).runs[id]) <==> Stops(s.runs[id].place, e)
  {
    WroteMore(s.runs[id].wrote, s.runs[id].pending);
  }

  lemma StepStops(s: State, id: nat, e: Event)
    requires IsUpload(s, id) && IsOnTrack(id, s.runs[id]) && !e.Begin?
    ensures id in Next(s, id, e).runs
    ensures IsStopped(Next(s, id, e).runs[id]) <==> IsStopped(s.runs[id]) || IsStop(s, Step(id, e))
  {
    var p := s.runs[id].place;
    if p.Done? || p.Cleanup? || e.Cancel? {
    } else if p.Saving? || p.CreateFlush? || p.CreateCommit? || p.CreateRefresh? {
      CreateStops(s, id, e);
    } else if p.Enqueue? || p.MarkFlush? || p.MarkCommit? || p.Processing? {
      PrepareStops(s, id, e);
    } else if p.RecordCommit? {
      RecordCommitStops(s, id, e);
    } else {
      KeepStops(s, id, e);
    }
  }

  lemma {:induction false} StoppedExactlyWhen(s: State, trace: seq<Step>, id: nat)
    requires IsInitial(s) && id in Execute(s, trace).runs
    ensures IsStopped(Execute(s, trace).runs[id]) <==> Ever(s, trace, StopOf(id))
  {
    forall k | 0 <= k < |trace| ensures IsRaisedBy(IsStopped, StopOf(id), Execute(s, trace[..k]), trace[k], id) {
      var u, step := Execute(s, trace[..k]), trace[k];
      StaysOnTrack(s, trace[..k]);
      if id in u.runs && step.run == id && !step.event.Begin? {
        StepIsStep(u, id, step.event);
        if IsUpload(u, id) { StepStops(u, id, step.event); }
      }
    }
    FlagTells(s, trace, id, IsStopped, StopOf(id));
  }

  /** An upload has no catch-all: when it is done, it has set a terminal status if and only if nothing stopped it. */
  lemma {:induction false} UploadEndsTerminalExactlyWhen(s: State, trace: seq<Step>, id: nat)
    requires IsInitial(s) && IsUpload(Execute(s, trace), id) && Execute(s, trace).runs[id].place.Done?
    ensures ShowsTerminal(Execute(s, trace).runs[id].wrote) <==> !Ever(s, trace, StopOf(id))
  {
    UploadShowsExactlyWhenRecorded(s, trace, id);
    StoppedExactlyWhen(s, trace, id);
  }

  // ---------- files, if creating a document is atomic ----------

  /** Creating a document raises although its commit took effect: the acknowledgement is lost, or the refresh
      after the commit fails. */
  predicate IsLateFailure(s: State, step: Step) {
    step.run in s.runs &&
    match s.runs[step.run].place
    case CreateCommit => step.event == Fail(true)
    case CreateRefresh => !step.event.Ok? && !step.event.Cancel? && !step.event.Begin?
    case _ => false
  }

  ghost predicate CreatesAtomically(s: State, trace: seq<Step>) {
    forall k :: 0 <= k < |trace| ==> !IsLateFailure(Execute(s, trace[..k]), trace[k])
  }

  ghost function LateFailureOf(id: nat): (State, Step) -> bool {
    (u: State, step: Step) => step.run == id && IsUpload(u, id) && IsLateFailure(u, step)
  }

  /** The cleanup of an upload deletes its file. */
  predicate IsDeletion(s: State, step: Step) {
    IsUpload(s, step.run) && s.runs[step.run].place.Cleanup? && step.event.Ok?
  }

  ghost function DeletionOf(id: nat): (State, Step) -> bool {
    (u: State, step: Step) => step.run == id && IsDeletion(u, step)
  }

  predicate IsLate(r: Run) {
    !r.kind.Existing? && r.late
  }

  predicate IsDeleted(r: Run) {
    !r.kind.Existing? && r.exit == CleanedUp(true)
  }

  lemma StepIsLate(s: State, id: nat, e: Event)
    requires IsUpload(s, id) && !e.Begin? && (s.runs[id].late ==> s.runs[id].place.Cleanup? || s.runs[id].place.Done?)
    ensures id in Next(s, id, e).runs
    ensures Next(s, id, e).runs[id].late <==> s.runs[id].late || IsLateFailure(s, Step(id, e))
  {
  }

  lemma CreateDeletes(s: State, id: nat, e: Event)
    requires IsUpload(s, id) && s.runs[id].exit.Running?
    ensures id in Create(s, id, s.runs[id], e).runs
    ensures Create(s, id, s.runs[id], e).runs[id].exit == CleanedUp(true) <==> s.runs[id].place.Cleanup? && e.Ok?
  {
  }

  lemma PrepareDeletesNothing(s: State, id: nat, e: Event)
    requires IsUpload(s, id) && s.runs[id].exit.Running?
    ensures id in Prepare(s, id, s.runs[id], e).runs && !Prepare(s, id, s.runs[id], e).runs[id].exit.CleanedUp?
  {
  }

  lemma KeepDeletesNothing(s: State, id: nat, e: Event)
    requires IsUpload(s, id) && s.runs[id].exit.Running?
    ensures id in Keep(s, id, s.runs[id], e).runs && !Keep(s, id, s.runs[id], e).runs[id].exit.CleanedUp?
  {
  }

  lemma CatchDeletesNothing(s: State, id: nat, e: Event)
    requires IsUpload(s, id) && s.runs[id].exit.Running?
    ensures id in Catch(s, id, s.runs[id], e).runs && !Catch(s, id, s.runs[id], e).runs[id].exit.CleanedUp?
  {
  }

  lemma StepDeletes(s: State, id: nat, e: Event)
    requires IsUpload(s, id) && !e.Begin? && (s.runs[id].exit.Running? <==> !s.runs[id].place.Done?)
    ensures id in Next(s, id, e).runs
    ensures Next(s, id, e).runs[id].exit == CleanedUp(true) <==>
            s.runs[id].exit == CleanedUp(true) || IsDeletion(s, Step(id, e))
  {
    if !s.runs[id].place.Done? {
      CreateDeletes(s, id, e);
      PrepareDeletesNothing(s, id, e);
      KeepDeletesNothing(s, id, e);
      CatchDeletesNothing(s, id, e);
    }
  }

  lemma StoredBounds(s: State, id: nat)
    requires FilesAreKept(s) && IsUpload(s, id)
    ensures var r := s.runs[id];
            (r.late ==> r.place.Cleanup? || r.place.Done?) && (r.exit.Running? <==> !r.place.Done?)
  {
  }

  lemma {:induction false} LateExactlyWhen(s: State, trace: seq<Step>, id: nat)
    requires IsInitial(s)
    ensures if id in Execute(s, trace).runs then
              && (IsLate(Execute(s, trace).runs[id]) <==> Ever(s, trace, LateFailureOf(id)))
              && (IsDeleted(Execute(s, trace).runs[id]) <==> Ever(s, trace, DeletionOf(id)))
            else !Ever(s, trace, DeletionOf(id))
  {
    forall k | 0 <= k < |trace|
      ensures IsRaisedBy(IsLate, LateFailureOf(id), Execute(s, trace[..k]), trace[k], id)
      ensures IsRaisedBy(IsDeleted, DeletionOf(id), Execute(s, trace[..k]), trace[k], id)
    {
      var u, step := Execute(s, trace[..k]), trace[k];
      InvariantHolds(s, trace[..k]);
      if id in u.runs && step.run == id && !step.event.Begin? {
        StepIsStep(u, id, step.event);
        if IsUpload(u, id) {
          StoredBounds(u, id);
          StepIsLate(u, id, step.event);
          StepDeletes(u, id, step.event);
        }
      }
    }
    FlagTells(s, trace, id, IsLate, LateFailureOf(id));
    FlagTells(s, trace, id, IsDeleted, DeletionOf(id));
  }

  /** A committed document lacks its file if and only if creating it failed late and its cleanup then succeeded. */
  lemma {:induction false} FileIsLostExactlyWhen(s: State, trace: seq<Step>, d: nat)
    requires IsInitial(s) && d in Execute(s, trace).db.docs
    ensures d !in Execute(s, trace).files <==>
            Ever(s, trace, LateFailureOf(d)) && Ever(s, trace, DeletionOf(d))
  {
    FilesTheorem(s, trace, d);
    LateExactlyWhen(s, trace, d);
  }

  /** If failing to create a document always means that its commit did not take effect, then every committed
      document has its file, whatever else fails. */
  lemma {:induction false} CommittedHaveFiles(s: State, trace: seq<Step>, d: nat)
    requires IsInitial(s) && CreatesAtomically(s, trace) && d in Execute(s, trace).db.docs
    ensures d in Execute(s, trace).files
  {
    FileIsLostExactlyWhen(s, trace, d);
  }
}
