/** Items of a batch as runs on the shared database and file store: how their steps interleave, with each other and with
    any other runs, makes no difference to what is reported. */
module BatchRuns {
  import opened BatchScheduler
  import opened Options
  import opened Life = Lifecycle
  import opened LifecycleSafety
  import opened Ledger

  /** The steps of one run. */
  function Own(trace: seq<Step>, id: nat): seq<Step> {
    if trace == [] then []
    else
      var last := trace[|trace| - 1];
      Own(trace[..|trace| - 1], id) + if last.run == id then [last] else []
  }

  /** The runs one after the other, each to its end before the next begins. */
  function OneByOne(trace: seq<Step>, ids: seq<nat>): seq<Step> {
    if ids == [] then [] else OneByOne(trace, ids[..|ids| - 1]) + Own(trace, ids[|ids| - 1])
  }

  lemma {:induction false} OwnConcat(a: seq<Step>, b: seq<Step>, id: nat)
    ensures Own(a + b, id) == Own(a, id) + Own(b, id)
  {
    if b == [] {
      assert a + b == a;
    } else {
      assert (a + b)[..|a + b| - 1] == a + b[..|b| - 1];
      OwnConcat(a, b[..|b| - 1], id);
    }
  }

  lemma {:induction false} OwnOfOwn(trace: seq<Step>, id: nat, other: nat)
    ensures Own(Own(trace, id), other) == if id == other then Own(trace, id) else []
  {
    if trace != [] {
      var front, last := trace[..|trace| - 1], trace[|trace| - 1];
      OwnOfOwn(front, id, other);
      if last.run == id {
        OwnConcat(Own(front, id), [last], other);
        assert [last][..0] == [];
      } else {
        assert Own(front, id) + [] == Own(front, id);
      }
    }
  }

  predicate AreDistinct(ids: seq<nat>) {
    forall i, j :: 0 <= i < j < |ids| ==> ids[i] != ids[j]
  }

  lemma LastIsDistinct(ids: seq<nat>)
    requires ids != [] && AreDistinct(ids)
    ensures AreDistinct(ids[..|ids| - 1]) && ids[|ids| - 1] !in ids[..|ids| - 1]
  {
  }

  lemma OwnOfOneMore(trace: seq<Step>, front: seq<nat>, last: nat, id: nat)
    requires last !in front && Own(OneByOne(trace, front), id) == if id in front then Own(trace, id) else []
    ensures Own(OneByOne(trace, front + [last]), id) == if id in front + [last] then Own(trace, id) else []
  {
    assert (front + [last])[..|front|] == front;
    assert OneByOne(trace, front + [last]) == OneByOne(trace, front) + Own(trace, last);
    OwnConcat(OneByOne(trace, front), Own(trace, last), id);
    OwnOfOwn(trace, last, id);
  }

  lemma {:induction false} OwnOfOneByOne(trace: seq<Step>, ids: seq<nat>, id: nat)
    requires AreDistinct(ids)
    ensures Own(OneByOne(trace, ids), id) == if id in ids then Own(trace, id) else []
  {
    if ids != [] {
      var front, last := ids[..|ids| - 1], ids[|ids| - 1];
      LastIsDistinct(ids);
      OwnOfOneByOne(trace, front, id);
      OwnOfOneMore(trace, front, last, id);
      assert front + [last] == ids;
    }
  }

  // ---------- an upload depends on its own steps ----------

  lemma StepDependsOnRun(s: State, t: State, id: nat, e: Event)
    requires id in s.runs && id in t.runs && s.runs[id] == t.runs[id] && !e.Begin?
    requires !s.runs[id].kind.Existing? && IsReachable(s.runs[id].kind, s.runs[id].place)
    ensures id in Next(s, id, e).runs && id in Next(t, id, e).runs && Next(s, id, e).runs[id] == Next(t, id, e).runs[id]
  {
  }

  ghost predicate IsSameRun(s: State, t: State, id: nat) {
    && (id in s.runs <==> id in t.runs)
    && (id in s.runs ==> s.runs[id].kind == t.runs[id].kind)
    && (id in s.runs && !s.runs[id].kind.Existing? ==> s.runs[id] == t.runs[id])
  }

  lemma OwnStepKeepsSame(s: State, t: State, id: nat, e: Event)
    requires RunsOnTrack(s) && RunsOnTrack(t) && IsSameRun(s, t, id) && id >= s.base && id >= t.base
    ensures IsSameRun(Next(s, id, e), Next(t, id, e), id)
  {
    if id in s.runs && !e.Begin? {
      StepIsStep(s, id, e);
      StepIsStep(t, id, e);
      if !s.runs[id].kind.Existing? { StepDependsOnRun(s, t, id, e); }
    }
  }

  lemma OtherStepKeepsSame(s: State, t: State, id: nat, step: Step)
    requires RunsOnTrack(s) && IsSameRun(s, t, id) && step.run != id
    ensures IsSameRun(Next(s, step.run, step.event), t, id)
  {
    if step.run in s.runs && !step.event.Begin? { StepIsStep(s, step.run, step.event); }
  }

  lemma {:induction false} BaseStays(s: State, trace: seq<Step>)
    requires IsInitial(s)
    ensures Execute(s, trace).base == s.base
  {
    if trace != [] {
      var last := trace[|trace| - 1];
      var u := Execute(s, trace[..|trace| - 1]);
      BaseStays(s, trace[..|trace| - 1]);
      InvariantHolds(s, trace[..|trace| - 1]);
      if last.run in u.runs && !last.event.Begin? { StepIsStep(u, last.run, last.event); }
    }
  }

  /** Whatever other runs do in between, and whatever the database and the file store hold, an upload goes through
      exactly what it goes through when it is alone. */
  lemma {:induction false} UploadsRunAlone(s: State, trace: seq<Step>, id: nat)
    requires IsInitial(s) && id >= s.base
    ensures IsSameRun(Execute(s, trace), Execute(EMPTY, Own(trace, id)), id)
  {
    if trace != [] {
      var front, last := trace[..|trace| - 1], trace[|trace| - 1];
      UploadsRunAlone(s, front, id);
      InvariantHolds(s, front);
      BaseStays(s, front);
      if last.run == id {
        InvariantHolds(EMPTY, Own(front, id));
        BaseStays(EMPTY, Own(front, id));
        var own := Own(trace, id);
        assert own[..|own| - 1] == Own(front, id) && own[|own| - 1] == last;
        OwnStepKeepsSame(Execute(s, front), Execute(EMPTY, Own(front, id)), id, last.event);
      } else {
        assert Own(trace, id) == Own(front, id);
        OtherStepKeepsSame(Execute(s, front), Execute(EMPTY, Own(front, id)), id, last);
      }
    }
  }

  // ---------- what a batch reports ----------

  /** The extraction that a run has committed, if any. */
  function RecordedOf(wrote: seq<Changes>): Option<Ledger.Extraction> {
    if wrote == [] then None
    else if wrote[|wrote| - 1].extraction.Some? then wrote[|wrote| - 1].extraction
    else RecordedOf(wrote[..|wrote| - 1])
  }

  /** What the batch makes of a run: the status of the response, or the text of the exception. */
  function OutcomeOf(r: Run, text: Run -> string): Outcome {
    if r.exit != Life.Finished(true) then Raises(text(r))
    else match RecordedOf(r.wrote)
      case Some(x) => BatchScheduler.Processed(x.status)
      case None => Enqueued
  }

  function OutcomesIn(s: State, ids: seq<nat>, text: Run -> string): (r: seq<Outcome>)
    requires forall i :: 0 <= i < |ids| ==> ids[i] in s.runs
    ensures |r| == |ids| && forall i :: 0 <= i < |ids| ==> r[i] == OutcomeOf(s.runs[ids[i]], text)
  {
    if ids == [] then []
    else
      OutcomesIn(s, ids[..|ids| - 1], text) + [OutcomeOf(s.runs[ids[|ids| - 1]], text)]
  }

  /** The items of a batch are uploads of their own. */
  ghost predicate AreItems(s: State, ids: seq<nat>) {
    AreDistinct(ids) && forall i :: 0 <= i < |ids| ==> IsUpload(s, ids[i])
  }

  lemma ItemRunsAsIfSequential(s: State, trace: seq<Step>, ids: seq<nat>, i: nat)
    requires IsInitial(s) && AreItems(Execute(s, trace), ids) && i < |ids|
    ensures var (u, v) := (Execute(s, trace), Execute(EMPTY, OneByOne(trace, ids)));
            ids[i] in u.runs && ids[i] in v.runs && u.runs[ids[i]] == v.runs[ids[i]]
  {
    InvariantHolds(s, trace);
    BaseStays(s, trace);
    assert IsUpload(Execute(s, trace), ids[i]);
    UploadsRunAlone(s, trace, ids[i]);
    UploadsRunAlone(EMPTY, OneByOne(trace, ids), ids[i]);
    OwnOfOneByOne(trace, ids, ids[i]);
  }

  /** Whatever interleaves: the outcomes are those of the items when they run one after the other on an empty
      database. */
  lemma {:induction false} OutcomesAreSequential(s: State, trace: seq<Step>, ids: seq<nat>, text: Run -> string)
    requires IsInitial(s) && AreItems(Execute(s, trace), ids)
    requires forall i :: 0 <= i < |ids| ==> ids[i] in Execute(s, trace).runs
    ensures forall i :: 0 <= i < |ids| ==> ids[i] in Execute(EMPTY, OneByOne(trace, ids)).runs
    ensures OutcomesIn(Execute(s, trace), ids, text) == OutcomesIn(Execute(EMPTY, OneByOne(trace, ids)), ids, text)
  {
    var u, v := Execute(s, trace), Execute(EMPTY, OneByOne(trace, ids));
    forall i | 0 <= i < |ids| ensures ids[i] in v.runs && u.runs[ids[i]] == v.runs[ids[i]] {
      ItemRunsAsIfSequential(s, trace, ids, i);
    }
  }

  // ---------- the semaphore and the runs together ----------

  /** A task passes the semaphore, or some run, of an item or not, makes a step. */
  datatype Action = Slot(move: Move) | Act(step: Step)

  datatype Play = Play(tasks: seq<Task>, world: State)

  predicate IsOver(s: State, id: nat) {
    id in s.runs && s.runs[id].place.Done?
  }

  /** The run of an item begins, as an upload, and moves only while its task holds the semaphore; the task leaves when
      its run is over. Other runs move freely. */
  predicate IsAllowed(c: Play, ids: seq<nat>, limit: nat, a: Action)
    requires |c.tasks| == |ids|
  {
    match a
    case Slot(m) => IsEnabled(c.tasks, limit, m) && (m.Leave? ==> IsOver(c.world, ids[m.task]))
    case Act(step) =>
      forall i :: 0 <= i < |ids| && ids[i] == step.run ==>
        c.tasks[i].Running? && (step.event.Begin? ==> !step.event.kind.Existing?)
  }

  /** A task that leaves has the outcome of its run. */
  function Then(c: Play, ids: seq<nat>, limit: nat, text: Run -> string, a: Action): (r: Play)
    requires |c.tasks| == |ids| && IsAllowed(c, ids, limit, a)
    ensures |r.tasks| == |ids|
  {
    match a
    case Slot(Enter(i)) => c.(tasks := c.tasks[i := BatchScheduler.Running])
    case Slot(Leave(i)) => c.(tasks := c.tasks[i := BatchScheduler.Finished(OutcomeOf(c.world.runs[ids[i]], text))])
    case Act(step) => c.(world := Next(c.world, step.run, step.event))
  }

  /** The batch after some actions; `None` if one of them was not allowed. */
  function PlayOf(s: State, ids: seq<nat>, limit: nat, text: Run -> string, actions: seq<Action>): (r: Option<Play>)
    ensures r.Some? ==> |r.value.tasks| == |ids|
  {
    if actions == [] then Some(Play(AllWaiting(|ids|), s))
    else
      var (before, a) := (PlayOf(s, ids, limit, text, actions[..|actions| - 1]), actions[|actions| - 1]);
      if before.Some? && IsAllowed(before.value, ids, limit, a)
      then Some(Then(before.value, ids, limit, text, a)) else None
  }

  function StepsOf(actions: seq<Action>): seq<Step> {
    if actions == [] then []
    else
      var last := actions[|actions| - 1];
      StepsOf(actions[..|actions| - 1]) + if last.Act? then [last.step] else []
  }

  function MovesOf(actions: seq<Action>): seq<Move> {
    if actions == [] then []
    else
      var last := actions[|actions| - 1];
      MovesOf(actions[..|actions| - 1]) + if last.Slot? then [last.move] else []
  }

  /** The runs of a play interleave as one trace. */
  lemma {:induction false} PlayIsTrace(s: State, ids: seq<nat>, limit: nat, text: Run -> string, actions: seq<Action>)
    requires PlayOf(s, ids, limit, text, actions).Some?
    ensures PlayOf(s, ids, limit, text, actions).value.world == Execute(s, StepsOf(actions))
  {
    if actions != [] {
      var front, last := actions[..|actions| - 1], actions[|actions| - 1];
      PlayIsTrace(s, ids, limit, text, front);
      if last.Act? {
        var steps := StepsOf(actions);
        assert steps[..|steps| - 1] == StepsOf(front) && steps[|steps| - 1] == last.step;
      } else {
        assert StepsOf(actions) == StepsOf(front);
      }
    }
  }

  /** How far an item is, in the semaphore and in its run. */
  predicate IsInStep(t: Task, s: State, id: nat, text: Run -> string) {
    && id >= s.base && (id in s.runs ==> IsUpload(s, id)) && (t.Waiting? ==> id !in s.runs)
    && (t.Finished? ==> IsOver(s, id) && t.outcome == OutcomeOf(s.runs[id], text))
  }

  predicate AreInStep(c: Play, ids: seq<nat>, text: Run -> string)
    requires |c.tasks| == |ids|
  {
    forall i :: 0 <= i < |ids| ==> IsInStep(c.tasks[i], c.world, ids[i], text)
  }

  lemma StepKeepsInStep(c: Play, ids: seq<nat>, limit: nat, text: Run -> string, step: Step, i: nat)
    requires |c.tasks| == |ids| && RunsOnTrack(c.world) && i < |ids| && IsInStep(c.tasks[i], c.world, ids[i], text)
    requires IsAllowed(c, ids, limit, Act(step))
    ensures IsInStep(c.tasks[i], Next(c.world, step.run, step.event), ids[i], text)
  {
    var s, t := c.world, Next(c.world, step.run, step.event);
    if step.run in s.runs && !step.event.Begin? { StepIsStep(s, step.run, step.event); }
  }

  lemma {:induction false} PlayStaysInStep(s: State, ids: seq<nat>, limit: nat, text: Run -> string,
                                           actions: seq<Action>)
    requires IsInitial(s) && (forall i :: 0 <= i < |ids| ==> ids[i] >= s.base)
    requires PlayOf(s, ids, limit, text, actions).Some?
    ensures AreInStep(PlayOf(s, ids, limit, text, actions).value, ids, text)
  {
    if actions != [] {
      var front, last := actions[..|actions| - 1], actions[|actions| - 1];
      PlayStaysInStep(s, ids, limit, text, front);
      if last.Act? {
        var c := PlayOf(s, ids, limit, text, front).value;
        PlayIsTrace(s, ids, limit, text, front);
        StaysOnTrack(s, StepsOf(front));
        forall i | 0 <= i < |ids|
          ensures IsInStep(c.tasks[i], Next(c.world, last.step.run, last.step.event), ids[i], text)
        {
          StepKeepsInStep(c, ids, limit, text, last.step, i);
        }
      }
    }
  }

  /** The outcomes that the tasks have got so far. */
  ghost predicate Agree(tasks: seq<Task>, outcomes: seq<Outcome>) {
    |tasks| == |outcomes| && FinishedWithTheirOutcomes(tasks, outcomes)
  }

  /** The semaphore sees an ordinary schedule. */
  lemma {:induction false} PlayIsSchedule(s: State, ids: seq<nat>, limit: nat, text: Run -> string,
                                          actions: seq<Action>, outcomes: seq<Outcome>)
    requires PlayOf(s, ids, limit, text, actions).Some?
    requires Agree(PlayOf(s, ids, limit, text, actions).value.tasks, outcomes)
    ensures BatchScheduler.Run(MovesOf(actions), limit, outcomes) ==
            Some(PlayOf(s, ids, limit, text, actions).value.tasks)
  {
    if actions != [] {
      var front, last := actions[..|actions| - 1], actions[|actions| - 1];
      var c := PlayOf(s, ids, limit, text, front).value;
      if last.Slot? {
        var moves := MovesOf(actions);
        assert moves[..|moves| - 1] == MovesOf(front) && moves[|moves| - 1] == last.move;
        var t := Then(c, ids, limit, text, last).tasks;
        forall i | 0 <= i < |ids| && c.tasks[i].Finished? ensures c.tasks[i].outcome == outcomes[i] {
          assert t[i] == c.tasks[i];
        }
        if last.move.Leave? { assert t[last.move.task].outcome == outcomes[last.move.task]; }
      } else {
        assert MovesOf(actions) == MovesOf(front);
      }
      PlayIsSchedule(s, ids, limit, text, front, outcomes);
    }
  }

  function OutcomesSoFar(tasks: seq<Task>): (r: seq<Outcome>)
    ensures |r| == |tasks| && forall i :: 0 <= i < |r| && tasks[i].Finished? ==> r[i] == tasks[i].outcome
  {
    seq(|tasks|, i requires 0 <= i < |tasks| => if tasks[i].Finished? then tasks[i].outcome else Enqueued)
  }

  // ---------- the limit bounds the runs ----------

  /** The item's run has begun and is not over. */
  predicate IsLive(s: State, id: nat) {
    id in s.runs && !s.runs[id].place.Done?
  }

  function LiveItems(s: State, ids: seq<nat>): set<nat> {
    set i | 0 <= i < |ids| && IsLive(s, ids[i])
  }

  lemma {:induction false} LiveItemsAreInFlight(s: State, ids: seq<nat>, tasks: seq<Task>)
    requires |tasks| == |ids| && forall i :: 0 <= i < |ids| && IsLive(s, ids[i]) ==> tasks[i].Running?
    ensures |LiveItems(s, ids)| <= InFlight(tasks)
  {
    if ids != [] {
      var n := |ids| - 1;
      LiveItemsAreInFlight(s, ids[..n], tasks[..n]);
      var before := LiveItems(s, ids[..n]);
      assert LiveItems(s, ids) == before + if IsLive(s, ids[n]) then {n} else {};
    }
  }

  lemma {:induction false} PlayedBefore(s: State, ids: seq<nat>, limit: nat, text: Run -> string,
                                        actions: seq<Action>, k: nat)
    requires PlayOf(s, ids, limit, text, actions).Some? && k <= |actions|
    ensures PlayOf(s, ids, limit, text, actions[..k]).Some?
  {
    if k < |actions| {
      var front := actions[..|actions| - 1];
      PlayedBefore(s, ids, limit, text, front, k);
      assert front[..k] == actions[..k];
    } else {
      assert actions[..k] == actions;
    }
  }

  /** At no time are more runs of the batch under way than the limit admits. */
  lemma {:induction false} AtMostLimitRuns(s: State, ids: seq<nat>, limit: nat, text: Run -> string,
                                           actions: seq<Action>, k: nat)
    requires IsInitial(s) && (forall i :: 0 <= i < |ids| ==> ids[i] >= s.base)
    requires PlayOf(s, ids, limit, text, actions).Some? && k <= |actions|
    ensures |LiveItems(Execute(s, StepsOf(actions[..k])), ids)| <= limit
  {
    var before := actions[..k];
    PlayedBefore(s, ids, limit, text, actions, k);
    var c := PlayOf(s, ids, limit, text, before).value;
    PlayIsTrace(s, ids, limit, text, before);
    PlayStaysInStep(s, ids, limit, text, before);
    forall i | 0 <= i < |ids| && IsLive(c.world, ids[i]) ensures c.tasks[i].Running? {
      assert IsInStep(c.tasks[i], c.world, ids[i], text);
    }
    LiveItemsAreInFlight(c.world, ids, c.tasks);
    PlayIsSchedule(s, ids, limit, text, before, OutcomesSoFar(c.tasks));
    EverySchedule(MovesOf(before), limit, OutcomesSoFar(c.tasks));
  }

  /** No deadlock: as long as a task is not finished, the semaphore lets one pass or the run of one may move. */
  lemma PlayIsNeverStuck(c: Play, ids: seq<nat>, limit: nat, i: nat)
    requires |c.tasks| == |ids| && AreDistinct(ids) && limit > 0 && i < |ids| && !c.tasks[i].Finished?
    ensures || (exists m :: IsAllowed(c, ids, limit, Slot(m)))
            || (exists j :: 0 <= j < |ids| && !IsOver(c.world, ids[j]) && MayMove(c, ids, limit, ids[j]))
  {
    if j :| 0 <= j < |c.tasks| && c.tasks[j].Running? {
      if IsOver(c.world, ids[j]) {
        assert IsAllowed(c, ids, limit, Slot(Leave(j)));
      } else {
        assert MayMove(c, ids, limit, ids[j]);
      }
    } else {
      NoneRunning(c.tasks);
      assert IsAllowed(c, ids, limit, Slot(Enter(i)));
    }
  }

  /** Every step of the run, its beginning included, is allowed. */
  ghost predicate MayMove(c: Play, ids: seq<nat>, limit: nat, id: nat)
    requires |c.tasks| == |ids|
  {
    forall e: Event :: (e.Begin? ==> !e.kind.Existing?) ==> IsAllowed(c, ids, limit, Act(Step(id, e)))
  }

  /** When all tasks are finished, all runs are over, and the tasks have their outcomes. */
  lemma FinishedWithRuns(s: State, ids: seq<nat>, limit: nat, text: Run -> string, actions: seq<Action>)
    requires IsInitial(s) && AreDistinct(ids) && (forall i :: 0 <= i < |ids| ==> ids[i] >= s.base)
    requires PlayOf(s, ids, limit, text, actions).Some?
    requires AllFinished(PlayOf(s, ids, limit, text, actions).value.tasks)
    ensures var u := Execute(s, StepsOf(actions));
            && AreItems(u, ids) && (forall i :: 0 <= i < |ids| ==> ids[i] in u.runs)
            && OutcomesSoFar(PlayOf(s, ids, limit, text, actions).value.tasks) == OutcomesIn(u, ids, text)
  {
    var c := PlayOf(s, ids, limit, text, actions).value;
    PlayIsTrace(s, ids, limit, text, actions);
    PlayStaysInStep(s, ids, limit, text, actions);
    forall i | 0 <= i < |ids|
      ensures IsUpload(c.world, ids[i]) && c.tasks[i].outcome == OutcomeOf(c.world.runs[ids[i]], text)
    {
      assert IsInStep(c.tasks[i], c.world, ids[i], text);
    }
  }

  lemma ResultsOfOutcomes(filenames: seq<string>, tasks: seq<Task>)
    requires |filenames| == |tasks| && AllFinished(tasks)
    ensures Results(filenames, tasks) == Sequential(filenames, OutcomesSoFar(tasks))
  {
  }

  /** Every item has entered and left once. */
  lemma TwoMovesEach(s: State, ids: seq<nat>, limit: nat, text: Run -> string, actions: seq<Action>)
    requires PlayOf(s, ids, limit, text, actions).Some?
    requires AllFinished(PlayOf(s, ids, limit, text, actions).value.tasks)
    ensures |MovesOf(actions)| == 2 * |ids|
  {
    var tasks := PlayOf(s, ids, limit, text, actions).value.tasks;
    PlayIsSchedule(s, ids, limit, text, actions, OutcomesSoFar(tasks));
    EverySchedule(MovesOf(actions), limit, OutcomesSoFar(tasks));
    NothingLeft(tasks);
  }

  /** A batch reports, position by position, what its items report when they run one after the other on an empty
      database, however the semaphore lets them in and out and however their steps and those of other runs
      interleave in between. */
  lemma {:induction false} BatchIsSequential(s: State, ids: seq<nat>, limit: nat, text: Run -> string,
                                             actions: seq<Action>, filenames: seq<string>)
    requires IsInitial(s) && AreDistinct(ids) && (forall i :: 0 <= i < |ids| ==> ids[i] >= s.base)
    requires |filenames| == |ids| && PlayOf(s, ids, limit, text, actions).Some?
    requires AllFinished(PlayOf(s, ids, limit, text, actions).value.tasks)
    ensures var v := Execute(EMPTY, OneByOne(StepsOf(actions), ids));
            && (forall i :: 0 <= i < |ids| ==> ids[i] in v.runs)
            && Results(filenames, PlayOf(s, ids, limit, text, actions).value.tasks) ==
               Sequential(filenames, OutcomesIn(v, ids, text))
    ensures |MovesOf(actions)| == 2 * |ids|
  {
    FinishedWithRuns(s, ids, limit, text, actions);
    ResultsOfOutcomes(filenames, PlayOf(s, ids, limit, text, actions).value.tasks);
    OutcomesAreSequential(s, StepsOf(actions), ids, text);
    TwoMovesEach(s, ids, limit, text, actions);
  }
}
