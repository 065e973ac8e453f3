/** Batch extraction: one task per file, a semaphore that bounds how many run at a time, results gathered by
    position. Any task that can move may move next. */
module BatchScheduler {
  import opened Ledger
  import opened Options

  const BATCH_CONCURRENCY_LIMIT: nat := 5

  /** The status of an item: that of its extraction, or "processing" for a document in the queue. */
  datatype Status = Extracting | Ended(validation: ExtractionStatus)

  datatype ItemResult = ItemResult(filename: string, status: Status, error: string)

  /** How the task of one file ends: with the response of an extraction, with that of the queue, or by raising. */
  datatype Outcome = Processed(validation: ExtractionStatus) | Enqueued | Raises(message: string)

  /** An item that raises is reported as failed. */
  function Gathered(filename: string, o: Outcome): ItemResult {
    match o
    case Processed(validation) => ItemResult(filename, Ended(validation), "")
    case Enqueued => ItemResult(filename, Extracting, "")
    case Raises(message) => ItemResult(filename, Ended(Failed), message)
  }

  // ---------- schedules ----------

  datatype Task = Waiting | Running | Finished(outcome: Outcome)

  /** A task enters the semaphore, or leaves it with its outcome. */
  datatype Move = Enter(task: nat) | Leave(task: nat)

  function InFlight(tasks: seq<Task>): nat {
    if tasks == [] then 0
    else InFlight(tasks[..|tasks| - 1]) + if tasks[|tasks| - 1].Running? then 1 else 0
  }

  function MovesLeft(t: Task): nat {
    match t
    case Waiting => 2
    case Running => 1
    case Finished(_) => 0
  }

  function Remaining(tasks: seq<Task>): nat {
    if tasks == [] then 0 else Remaining(tasks[..|tasks| - 1]) + MovesLeft(tasks[|tasks| - 1])
  }

  predicate IsEnabled(tasks: seq<Task>, limit: nat, m: Move) {
    match m
    case Enter(i) => i < |tasks| && tasks[i].Waiting? && InFlight(tasks) < limit
    case Leave(i) => i < |tasks| && tasks[i].Running?
  }

  function After(tasks: seq<Task>, limit: nat, m: Move, outcomes: seq<Outcome>): (r: seq<Task>)
    requires |tasks| == |outcomes| && IsEnabled(tasks, limit, m)
    ensures |r| == |tasks|
  {
    match m
    case Enter(i) => tasks[i := Running]
    case Leave(i) => tasks[i := Finished(outcomes[i])]
  }

  function AllWaiting(n: nat): (r: seq<Task>)
    ensures |r| == n && forall i :: 0 <= i < n ==> r[i].Waiting?
  {
    if n == 0 then [] else AllWaiting(n - 1) + [Waiting]
  }

  /** The tasks after some moves; `None` if one of them was not enabled. */
  ghost function Run(moves: seq<Move>, limit: nat, outcomes: seq<Outcome>): (r: Option<seq<Task>>)
    ensures r.Some? ==> |r.value| == |outcomes|
  {
    if moves == [] then Some(AllWaiting(|outcomes|))
    else
      var (before, m) := (Run(moves[..|moves| - 1], limit, outcomes), moves[|moves| - 1]);
      if before.Some? && IsEnabled(before.value, limit, m)
      then Some(After(before.value, limit, m, outcomes)) else None
  }

  lemma {:induction false} Replacing(tasks: seq<Task>, i: nat, t: Task)
    requires i < |tasks|
    ensures Remaining(tasks[i := t]) == Remaining(tasks) - MovesLeft(tasks[i]) + MovesLeft(t)
    ensures InFlight(tasks[i := t]) ==
            InFlight(tasks) - (if tasks[i].Running? then 1 else 0) + (if t.Running? then 1 else 0)
  {
    var n := |tasks| - 1;
    if i < n {
      Replacing(tasks[..n], i, t);
      assert tasks[i := t][..n] == tasks[..n][i := t];
    } else {
      assert tasks[i := t][..n] == tasks[..n];
    }
  }

  lemma {:induction false} WaitingLeaves(n: nat)
    ensures Remaining(AllWaiting(n)) == 2 * n && InFlight(AllWaiting(n)) == 0
  {
    if n > 0 {
      WaitingLeaves(n - 1);
      var tasks := AllWaiting(n);
      assert tasks[..|tasks| - 1] == AllWaiting(n - 1) && tasks[|tasks| - 1] == Waiting;
    }
  }

  ghost predicate FinishedWithTheirOutcomes(tasks: seq<Task>, outcomes: seq<Outcome>)
    requires |tasks| == |outcomes|
  {
    forall i :: 0 <= i < |tasks| && tasks[i].Finished? ==> tasks[i].outcome == outcomes[i]
  }

  /** On every schedule: no more than the limit in flight, every move counts down from two per file, and finished
      tasks have their own outcome. */
  lemma {:induction false} EverySchedule(moves: seq<Move>, limit: nat, outcomes: seq<Outcome>)
    requires Run(moves, limit, outcomes).Some?
    ensures var tasks := Run(moves, limit, outcomes).value;
            && InFlight(tasks) <= limit && |moves| + Remaining(tasks) == 2 * |outcomes|
            && FinishedWithTheirOutcomes(tasks, outcomes)
  {
    if moves == [] {
      WaitingLeaves(|outcomes|);
    } else {
      var m := moves[|moves| - 1];
      var before := Run(moves[..|moves| - 1], limit, outcomes).value;
      EverySchedule(moves[..|moves| - 1], limit, outcomes);
      Replacing(before, m.task, After(before, limit, m, outcomes)[m.task]);
    }
  }

  lemma {:induction false} NoneRunning(tasks: seq<Task>)
    requires forall i :: 0 <= i < |tasks| ==> !tasks[i].Running?
    ensures InFlight(tasks) == 0
  {
    if tasks != [] { NoneRunning(tasks[..|tasks| - 1]); }
  }

  lemma {:induction false} NothingLeft(tasks: seq<Task>)
    requires forall i :: 0 <= i < |tasks| ==> tasks[i].Finished?
    ensures Remaining(tasks) == 0
  {
    if tasks != [] { NothingLeft(tasks[..|tasks| - 1]); }
  }

  /** No deadlock: as long as a task is not finished, some task can move. */
  lemma NeverStuck(tasks: seq<Task>, limit: nat, i: nat)
    requires limit > 0 && i < |tasks| && !tasks[i].Finished?
    ensures exists m :: IsEnabled(tasks, limit, m)
  {
    if j :| 0 <= j < |tasks| && tasks[j].Running? {
      assert IsEnabled(tasks, limit, Leave(j));
    } else {
      NoneRunning(tasks);
      assert IsEnabled(tasks, limit, Enter(i));
    }
  }

  /** What the caller gets, position by position. */
  ghost function Results(filenames: seq<string>, tasks: seq<Task>): seq<ItemResult>
    requires |filenames| == |tasks| && forall i :: 0 <= i < |tasks| ==> tasks[i].Finished?
  {
    seq(|filenames|, i requires 0 <= i < |filenames| => Gathered(filenames[i], tasks[i].outcome))
  }

  /** What processing the files one after the other reports. */
  function Sequential(filenames: seq<string>, outcomes: seq<Outcome>): (r: seq<ItemResult>)
    requires |filenames| == |outcomes|
    ensures |r| == |filenames| && forall i :: 0 <= i < |r| ==> r[i] == Gathered(filenames[i], outcomes[i])
  {
    if filenames == [] then []
    else
      var n := |filenames| - 1;
      Sequential(filenames[..n], outcomes[..n]) + [Gathered(filenames[n], outcomes[n])]
  }

  /** A schedule that cannot go on has made exactly two moves per file, and what it reports does not depend on
      its order: it is what processing the files one after the other reports. */
  lemma MaximalSchedules(moves: seq<Move>, limit: nat, filenames: seq<string>, outcomes: seq<Outcome>)
    requires limit > 0 && |filenames| == |outcomes| && Run(moves, limit, outcomes).Some?
    requires forall m :: !IsEnabled(Run(moves, limit, outcomes).value, limit, m)
    ensures var tasks := Run(moves, limit, outcomes).value;
            && |moves| == 2 * |filenames| && (forall i :: 0 <= i < |tasks| ==> tasks[i].Finished?)
            && Results(filenames, tasks) == Sequential(filenames, outcomes)
  {
    var tasks := Run(moves, limit, outcomes).value;
    forall i | 0 <= i < |tasks| ensures tasks[i].Finished? {
      if !tasks[i].Finished? { NeverStuck(tasks, limit, i); }
    }
    NothingLeft(tasks);
    EverySchedule(moves, limit, outcomes);
  }

  // ---------- the batch ----------

  /** What an item says: the status of its extraction, that its document is in the queue, or that it failed and why. */
  ghost predicate IsReported(item: ItemResult, filename: string, o: Outcome) {
    && item.filename == filename
    && match o
       case Processed(validation) => item.status == Ended(validation) && item.error == ""
       case Enqueued => item.status == Extracting && item.error == ""
       case Raises(message) => item.status == Ended(Failed) && item.error == message
  }

  ghost predicate AllFinished(tasks: seq<Task>) {
    forall i :: 0 <= i < |tasks| ==> tasks[i].Finished?
  }

  lemma RunOne(moves: seq<Move>, limit: nat, outcomes: seq<Outcome>, m: Move)
    requires Run(moves, limit, outcomes).Some? && IsEnabled(Run(moves, limit, outcomes).value, limit, m)
    ensures Run(moves + [m], limit, outcomes) == Some(After(Run(moves, limit, outcomes).value, limit, m, outcomes))
  {
    assert (moves + [m])[..|moves|] == moves;
  }

  lemma {:induction false} RanBefore(moves: seq<Move>, limit: nat, outcomes: seq<Outcome>, k: nat)
    requires Run(moves, limit, outcomes).Some? && k <= |moves|
    ensures Run(moves[..k], limit, outcomes).Some?
  {
    if k < |moves| {
      RanBefore(moves[..|moves| - 1], limit, outcomes, k);
      assert moves[..|moves| - 1][..k] == moves[..k];
    } else {
      assert moves[..k] == moves;
    }
  }

  /** How many tasks run. */
  lemma {:induction false} InFlightIs(tasks: seq<Task>)
    ensures InFlight(tasks) == |set i | 0 <= i < |tasks| && tasks[i].Running?|
  {
    if tasks != [] {
      var n := |tasks| - 1;
      InFlightIs(tasks[..n]);
      var before := set i | 0 <= i < n && tasks[..n][i].Running?;
      assert (set i | 0 <= i < |tasks| && tasks[i].Running?) == before + if tasks[n].Running? then {n} else {};
    }
  }

  /** Never do more than five tasks run, and in the end all are finished. */
  ghost predicate IsBatch(moves: seq<Move>, outcomes: seq<Outcome>) {
    && (forall k :: 0 <= k <= |moves| ==> RunsAtMost(moves[..k], outcomes, 5))
    && Run(moves, 5, outcomes).Some? && AllFinished(Run(moves, 5, outcomes).value)
  }

  ghost predicate RunsAtMost(moves: seq<Move>, outcomes: seq<Outcome>, limit: nat) {
    && Run(moves, limit, outcomes).Some?
    && var tasks := Run(moves, limit, outcomes).value;
       |set i | 0 <= i < |tasks| && tasks[i].Running?| <= limit
  }

  lemma ScheduleIsBatch(moves: seq<Move>, outcomes: seq<Outcome>)
    requires Run(moves, 5, outcomes).Some? && AllFinished(Run(moves, 5, outcomes).value)
    ensures IsBatch(moves, outcomes)
  {
    forall k | 0 <= k <= |moves| ensures RunsAtMost(moves[..k], outcomes, 5) {
      RanBefore(moves, 5, outcomes, k);
      EverySchedule(moves[..k], 5, outcomes);
      InFlightIs(Run(moves[..k], 5, outcomes).value);
    }
  }

  /** Lets tasks move in any order until none can, then gathers. */
  method ExtractBatchItems(filenames: seq<string>, outcomes: seq<Outcome>)
    returns (results: seq<ItemResult>, ghost moves: seq<Move>)
    requires |filenames| == |outcomes|
    ensures results == Sequential(filenames, outcomes)
    ensures forall i :: 0 <= i < |filenames| ==> IsReported(results[i], filenames[i], outcomes[i])
    ensures IsBatch(moves, outcomes) && |moves| == 2 * |filenames|
  {
    var tasks := AllWaiting(|filenames|);
    moves := [];
    while exists i :: 0 <= i < |tasks| && !tasks[i].Finished?
      invariant |tasks| == |outcomes| && Run(moves, BATCH_CONCURRENCY_LIMIT, outcomes) == Some(tasks)
      decreases Remaining(tasks)
    {
      var i :| 0 <= i < |tasks| && !tasks[i].Finished?;
      var m := Leave(i);
      if tasks[i].Waiting? {
        if InFlight(tasks) < BATCH_CONCURRENCY_LIMIT {
          m := Enter(i);
        } else {
          // The task waits; some other one leaves.
          if forall j :: 0 <= j < |tasks| ==> !tasks[j].Running? { NoneRunning(tasks); }
          var j :| 0 <= j < |tasks| && tasks[j].Running?;
          m := Leave(j);
        }
      }
      RunOne(moves, BATCH_CONCURRENCY_LIMIT, outcomes, m);
      Replacing(tasks, m.task, After(tasks, BATCH_CONCURRENCY_LIMIT, m, outcomes)[m.task]);
      tasks := After(tasks, BATCH_CONCURRENCY_LIMIT, m, outcomes);
      moves := moves + [m];
    }
    EverySchedule(moves, BATCH_CONCURRENCY_LIMIT, outcomes);
    NothingLeft(tasks);
    ScheduleIsBatch(moves, outcomes);
    results := Gather(filenames, tasks, outcomes);
  }

  method Gather(filenames: seq<string>, tasks: seq<Task>, ghost outcomes: seq<Outcome>)
    returns (results: seq<ItemResult>)
    requires |filenames| == |tasks| == |outcomes| && AllFinished(tasks) && FinishedWithTheirOutcomes(tasks, outcomes)
    ensures results == Sequential(filenames, outcomes)
  {
    results := [];
    for n := 0 to |tasks|
      invariant results == Sequential(filenames[..n], outcomes[..n])
    {
      assert filenames[..n + 1][..n] == filenames[..n] && outcomes[..n + 1][..n] == outcomes[..n];
      results := results + [Gathered(filenames[n], tasks[n].outcome)];
    }
    assert filenames[..|tasks|] == filenames && outcomes[..|tasks|] == outcomes;
  }

  predicate Succeeds(r: ItemResult) {
    r.status in {Ended(Completed), Ended(Partial), Extracting}
  }

  predicate Fails(r: ItemResult) {
    r.status == Ended(Failed)
  }

  lemma EveryStatusCounts(status: Status)
    ensures status in {Ended(Completed), Ended(Partial), Extracting} <==> status != Ended(Failed)
  {
    match status
    case Extracting =>
    case Ended(validation) =>
      match validation
      case Partial =>
      case Completed =>
      case Failed =>
  }

  /** How many results satisfy `p`. */
  function Count(results: seq<ItemResult>, p: ItemResult -> bool): (n: nat)
    ensures n <= |results|
  {
    if results == [] then 0 else Count(results[..|results| - 1], p) + if p(results[|results| - 1]) then 1 else 0
  }

  datatype Response = Response(total: nat, succeeded: nat, failed: nat, results: seq<ItemResult>)

  /** The items that raised, or whose extraction failed. */
  ghost function FailedItems(outcomes: seq<Outcome>): nat {
    if outcomes == [] then 0
    else
      var o := outcomes[|outcomes| - 1];
      FailedItems(outcomes[..|outcomes| - 1]) + if o.Raises? || o == Processed(Failed) then 1 else 0
  }

  lemma {:induction false} FailuresAre(filenames: seq<string>, outcomes: seq<Outcome>)
    requires |filenames| == |outcomes|
    ensures Count(Sequential(filenames, outcomes), Fails) == FailedItems(outcomes)
  {
    if filenames != [] {
      var n := |filenames| - 1;
      FailuresAre(filenames[..n], outcomes[..n]);
      var results := Sequential(filenames, outcomes);
      assert results[..n] == Sequential(filenames[..n], outcomes[..n]);
      assert results[n] == Gathered(filenames[n], outcomes[n]);
    }
  }

  method BatchExtract(filenames: seq<string>, outcomes: seq<Outcome>) returns (r: Response)
    requires |filenames| == |outcomes|
    ensures r.results == Sequential(filenames, outcomes) && r.total == |filenames|
    ensures r.succeeded == Count(r.results, Succeeds) && r.failed == Count(r.results, Fails)
    ensures r.failed == FailedItems(outcomes) && r.succeeded + r.failed == r.total
    ensures forall i :: 0 <= i < |filenames| ==> IsReported(r.results[i], filenames[i], outcomes[i])
  {
    var results, _ := ExtractBatchItems(filenames, outcomes);
    var succeeded, failed := 0, 0;
    for n := 0 to |results|
      invariant succeeded == Count(results[..n], Succeeds) && failed == Count(results[..n], Fails)
    {
      assert results[..n + 1][..n] == results[..n];
      if Succeeds(results[n]) { succeeded := succeeded + 1; }
      if Fails(results[n]) { failed := failed + 1; }
    }
    assert results[..|results|] == results;
    CountsCover(results);
    FailuresAre(filenames, outcomes);
    r := Response(|filenames|, succeeded, failed, results);
  }

  /** Every item is counted as succeeded or as failed, and none as both. */
  lemma {:induction false} CountsCover(results: seq<ItemResult>)
    ensures Count(results, Succeeds) + Count(results, Fails) == |results|
  {
    if results != [] {
      CountsCover(results[..|results| - 1]);
      EveryStatusCounts(results[|results| - 1].status);
    }
  }
}
