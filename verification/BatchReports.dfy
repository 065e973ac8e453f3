/** What a batch says of each of its files: the outcome of the upload's own processing, for every way it may end. */
module BatchReports {
  import opened BatchRuns
  import opened LifecycleSafety
  import opened Options
  import S = BatchScheduler
  import Life = Lifecycle
  import Ledger
  import Records = LifecycleRecords

  lemma {:induction false} RecordedIs(wrote: seq<Life.Changes>)
    ensures match RecordedOf(wrote)
            case Some(x) => exists k :: 0 <= k < |wrote| && wrote[k].extraction == Some(x)
            case None => !HasRecorded(wrote)
  {
    if wrote != [] && wrote[|wrote| - 1].extraction.None? {
      var front := wrote[..|wrote| - 1];
      RecordedIs(front);
      match RecordedOf(front)
      case Some(x) =>
        var k :| 0 <= k < |front| && front[k].extraction == Some(x);
        assert wrote[k].extraction == Some(x);
      case None =>
    }
  }

  /** A run that returned without an error gives the status of what it recorded, from its own processing, or says that
      the document is in the queue; any other run gives the text of its error. */
  ghost predicate Says(o: S.Outcome, r: Life.Run, p: Option<Life.Processed>, text: Life.Run -> string) {
    match r.exit
    case Finished(true) =>
      if exists k :: 0 <= k < |r.wrote| && r.wrote[k].extraction.Some? then
        p.Some? && o == S.Processed(if p.value.raised then Ledger.Failed else p.value.validation)
      else
        o == S.Enqueued
    case _ => o == S.Raises(text(r))
  }

  lemma {:induction false} OutcomeSays(s: Life.State, trace: seq<Life.Step>, id: nat, text: Life.Run -> string)
    requires IsInitial(s) && id in Life.Execute(s, trace).runs
    ensures var r := Life.Execute(s, trace).runs[id];
            Says(OutcomeOf(r, text), r, Records.ResultOf(s, trace, id), text)
  {
    var r := Life.Execute(s, trace).runs[id];
    RecordedIs(r.wrote);
    if x :| RecordedOf(r.wrote) == Some(x) {
      var k :| 0 <= k < |r.wrote| && r.wrote[k].extraction == Some(x);
      Records.RecordsTheOutcome(s, trace, id, k);
    }
  }

  /** What the batch reports of a file: its name, and by how the file's run ended, status and error. */
  ghost predicate ItemSays(item: S.ItemResult, filename: string, r: Life.Run, p: Option<Life.Processed>,
                           text: Life.Run -> string)
  {
    && item.filename == filename
    && match r.exit
       case Finished(true) =>
         && item.error == ""
         && (if exists k :: 0 <= k < |r.wrote| && r.wrote[k].extraction.Some? then
               p.Some? && item.status == S.Ended(if p.value.raised then Ledger.Failed else p.value.validation)
             else item.status == S.Extracting)
       case _ => item.status == S.Ended(Ledger.Failed) && item.error == text(r)
  }

  lemma GatheredSays(filename: string, o: S.Outcome, r: Life.Run, p: Option<Life.Processed>, text: Life.Run -> string)
    requires Says(o, r, p, text)
    ensures ItemSays(S.Gathered(filename, o), filename, r, p, text)
  {
  }

  /** However the semaphore lets items in and out and however their steps interleave, with each other and with other
      runs: position by position, the batch says how that file's run ended. */
  lemma {:induction false} BatchSays(s: Life.State, ids: seq<nat>, limit: nat, text: Life.Run -> string,
                                     actions: seq<Action>, filenames: seq<string>, i: nat)
    requires IsInitial(s) && AreDistinct(ids) && (forall i :: 0 <= i < |ids| ==> ids[i] >= s.base)
    requires |filenames| == |ids| && PlayOf(s, ids, limit, text, actions).Some? && i < |ids|
    requires S.AllFinished(PlayOf(s, ids, limit, text, actions).value.tasks)
    ensures var (trace, results) :=
              (StepsOf(actions), S.Results(filenames, PlayOf(s, ids, limit, text, actions).value.tasks));
            && ids[i] in Life.Execute(s, trace).runs
            && ItemSays(results[i], filenames[i], Life.Execute(s, trace).runs[ids[i]],
                        Records.ResultOf(s, trace, ids[i]), text)
  {
    var trace, tasks := StepsOf(actions), PlayOf(s, ids, limit, text, actions).value.tasks;
    FinishedWithRuns(s, ids, limit, text, actions);
    var r, p := Life.Execute(s, trace).runs[ids[i]], Records.ResultOf(s, trace, ids[i]);
    OutcomeSays(s, trace, ids[i], text);
    assert OutcomesSoFar(tasks)[i] == tasks[i].outcome;
    GatheredSays(filenames[i], tasks[i].outcome, r, p, text);
  }
}
