/** Every run of `provision`, wherever it is interrupted and whatever the timers do
    meanwhile, seen by the progress entry. */
module ProvisioningRuns {
  import opened Options
  import opened Provisioning

  /** What happens to an entry: the run updates a step, the timeout fires, or the entry
      is cleaned up. */
  datatype Act = Update(id: StepId, status: StepStatus) | Timeout | Cleanup

  function Do(entry: Option<Progress>, act: Act): Option<Progress> {
    if entry.None? then None
    else match act
      case Update(id, status) => Some(UpdateStep(entry.value, id, status))
      case Timeout => Some(Expire(entry.value))
      case Cleanup => None
  }

  function After(entry: Option<Progress>, acts: seq<Act>): Option<Progress> {
    if acts == [] then entry else Do(After(entry, acts[..|acts| - 1]), acts[|acts| - 1])
  }

  /** The run's own acts among all. */
  function Updates(acts: seq<Act>): seq<Act> {
    if acts == [] then []
    else
      var last := acts[|acts| - 1];
      Updates(acts[..|acts| - 1]) + if last.Update? then [last] else []
  }

  /** A run starts and completes each step of its path in turn. */
  function Script(path: seq<StepId>): seq<Act> {
    seq(2 * |path|, i requires 0 <= i < 2 * |path| => Update(path[i / 2], if i % 2 == 0 then InProgress else Completed))
  }

  // ---- Step discipline -----------------------------------------------------------------------

  /** A run that has come as far as `n` of its acts. */
  ghost predicate Along(p: Progress, path: seq<StepId>, n: nat)
    requires n <= 2 * |path|
  {
    if n % 2 == 0 then Between(p) else Inside(p, path[n / 2])
  }

  lemma ExpireKeeps(p: Progress, id: StepId)
    ensures Between(p) ==> Between(Expire(p))
    ensures Inside(p, id) ==> Inside(Expire(p), id)
  {
  }

  lemma {:induction false} RunAlong(ids: seq<StepId>, path: seq<StepId>, acts: seq<Act>)
    requires ids != [] && Updates(acts) <= Script(path)
    ensures var entry := After(Some(Begin(ids)), acts);
            entry.Some? ==> Along(entry.value, path, |Updates(acts)|)
  {
    if acts == [] {
      assert Begin(ids).steps[0].id == ids[0];
    } else {
      var init, last := acts[..|acts| - 1], acts[|acts| - 1];
      var n := |Updates(init)|;
      assert Updates(init) <= Updates(acts);
      RunAlong(ids, path, init);
      var before := After(Some(Begin(ids)), init);
      if before.Some? {
        if last.Update? {
          assert Updates(acts)[n] == last;
          assert Script(path)[n] == last;
          if n % 2 == 0 {
            StepStarts(before.value, path[n / 2]);
          } else {
            StepCompletes(before.value, path[n / 2]);
          }
        } else if n < 2 * |path| {
          ExpireKeeps(before.value, path[n / 2]);
        } else {
          ExpireKeeps(before.value, "");
        }
      }
    }
  }

  /** At every moment of every run, while its entry is there, at most one step is in
      progress and the current step is one of the list. */
  lemma {:induction false} AlwaysDisciplined(ids: seq<StepId>, path: seq<StepId>, acts: seq<Act>)
    requires ids != [] && Updates(acts) <= Script(path)
    ensures var entry := After(Some(Begin(ids)), acts);
            entry.Some? ==> Disciplined(entry.value)
  {
    RunAlong(ids, path, acts);
  }

  /** A run that gets through ends with every step completed or skipped. */
  lemma {:induction false} SuccessSettlesAll(ids: seq<StepId>, path: seq<StepId>, acts: seq<Act>)
    requires ids != [] && Updates(acts) == Script(path)
    ensures var entry := After(Some(Begin(ids)), acts);
            entry.Some? ==>
              var p := Complete(entry.value);
              && p.status == Finished
              && (forall i | 0 <= i < |p.steps| :: p.steps[i].status == Completed || p.steps[i].status == Skipped)
  {
    RunAlong(ids, path, acts);
  }

  // ---- Where each step stands ------------------------------------------------------------------

  /** Where a step of the list stands after `n` acts of the script. */
  function Standing(id: StepId, path: seq<StepId>, n: nat): StepStatus
    requires n <= 2 * |path|
  {
    if n % 2 == 1 && id == path[n / 2] then InProgress
    else if id in path[..n / 2] then Completed
    else Pending
  }

  lemma StandingNext(id: StepId, path: seq<StepId>, n: nat)
    requires n < 2 * |path|
    ensures Standing(id, path, n + 1)
            == if id == path[n / 2] then Script(path)[n].status else Standing(id, path, n)
  {
    if n % 2 == 1 {
      assert path[..(n + 1) / 2] == path[..n / 2] + [path[n / 2]];
    }
  }

  /** The steps are those of the list, each with the status that `status` gives it. */
  ghost predicate Shows(p: Progress, ids: seq<StepId>, status: StepId -> StepStatus) {
    |p.steps| == |ids| && forall i | 0 <= i < |ids| :: p.steps[i] == Step(ids[i], status(ids[i]))
  }

  lemma ShowsNext(p: Progress, ids: seq<StepId>, status: StepId -> StepStatus, id: StepId, changed: StepStatus)
    requires Distinct(ids) && Shows(p, ids, status)
    ensures Shows(UpdateStep(p, id, changed), ids, x => if x == id then changed else status(x))
  {
    Finds(p.steps, id);
  }

  /** Each step of the list is pending until the run comes to it, then in progress until
      the run goes on from it, then completed. */
  lemma {:induction false} StandingSoFar(ids: seq<StepId>, path: seq<StepId>, acts: seq<Act>)
    requires ids != [] && Distinct(ids) && Updates(acts) <= Script(path)
    ensures var entry, n := After(Some(Begin(ids)), acts), |Updates(acts)|;
            entry.Some? ==> Shows(entry.value, ids, x => Standing(x, path, n))
  {
    if acts != [] {
      var init, last := acts[..|acts| - 1], acts[|acts| - 1];
      var n := |Updates(init)|;
      assert Updates(init) <= Updates(acts);
      StandingSoFar(ids, path, init);
      var before := After(Some(Begin(ids)), init);
      if before.Some? && last.Update? {
        assert Updates(acts)[n] == last && Script(path)[n] == last;
        ShowsNext(before.value, ids, x => Standing(x, path, n), last.id, last.status);
        forall i | 0 <= i < |ids|
          ensures Standing(ids[i], path, n + 1) == if ids[i] == last.id then last.status else Standing(ids[i], path, n)
        {
          StandingNext(ids[i], path, n);
        }
      }
    }
  }

  /** After a run that gets through, the completed steps are exactly those of its path;
      the rest of the list is skipped. */
  lemma {:induction false} SuccessCompletesPath(ids: seq<StepId>, path: seq<StepId>, acts: seq<Act>)
    requires ids != [] && Distinct(ids) && Updates(acts) == Script(path)
    ensures var entry := After(Some(Begin(ids)), acts);
            entry.Some? ==> Shows(Complete(entry.value), ids, x => if x in path then Completed else Skipped)
  {
    StandingSoFar(ids, path, acts);
    assert path[..2 * |path| / 2] == path;
  }

  // ---- Runs that are cut off ---------------------------------------------------------------------

  /** The acts of a run that fails: part of the script, and perhaps then the mark that
      the step in progress failed. */
  ghost predicate CutOff(updates: seq<Act>, path: seq<StepId>, n: nat) {
    && n <= |updates| && n <= 2 * |path| && updates[..n] == Script(path)[..n]
    && (|updates| == n || (n % 2 == 1 && updates[n..] == [Update(path[n / 2], Failed)]))
  }

  /** Where a step stands in the record of a run cut off after `n` acts. */
  function Verdict(id: StepId, path: seq<StepId>, n: nat): StepStatus
    requires n <= 2 * |path|
  {
    if Standing(id, path, n) == InProgress then Failed else Standing(id, path, n)
  }

  lemma {:induction false} StandingCut(ids: seq<StepId>, path: seq<StepId>, acts: seq<Act>, n: nat)
    requires ids != [] && Distinct(ids) && CutOff(Updates(acts), path, n)
    ensures var entry := After(Some(Begin(ids)), acts);
            entry.Some? ==>
              Shows(entry.value, ids, x => if |Updates(acts)| == n then Standing(x, path, n) else Verdict(x, path, n))
  {
    if |Updates(acts)| == n {
      StandingSoFar(ids, path, acts);
    } else {
      var init, last := acts[..|acts| - 1], acts[|acts| - 1];
      if last.Update? {
        assert Updates(acts)[..n] == Updates(init) && Updates(acts)[n..] == [last];
        StandingSoFar(ids, path, init);
        var before := After(Some(Begin(ids)), init);
        if before.Some? {
          ShowsNext(before.value, ids, x => Standing(x, path, n), last.id, Failed);
        }
      } else {
        StandingCut(ids, path, init, n);
      }
    }
  }

  /** After a run cut off anywhere, the step it was at counts as failed, those before as
      completed, and those it had not come to as pending. */
  lemma {:induction false} FailureKeepsRecord(ids: seq<StepId>, path: seq<StepId>, acts: seq<Act>, n: nat)
    requires ids != [] && Distinct(ids) && CutOff(Updates(acts), path, n)
    ensures var entry := After(Some(Begin(ids)), acts);
            entry.Some? ==> Shows(Fail(entry.value), ids, x => Verdict(x, path, n))
  {
    StandingCut(ids, path, acts, n);
  }
}
