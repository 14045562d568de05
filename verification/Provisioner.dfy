/** `provision` of apps/api/src/reconciler/lifecycle-manager.service.ts as it drives the
    tracker: every run follows the script of its path. */
module Provisioner {
  import opened Basics
  import opened Options
  import opened Provisioning
  import opened ProvisioningRuns
  import ReconcileSteps

  /** The steps the deployment type maps provision's own operations to. */
  datatype Operations = Operations(install: StepId, postInstall: Option<StepId>, configure: Option<StepId>,
                                   start: StepId)

  /** The steps `provision` goes through, in order. */
  function Path(ops: Operations): seq<StepId> {
    Opening(ops) + Closing(ops)
  }

  function Opening(ops: Operations): seq<StepId> {
    ["validate_config", "security_audit", ops.install]
    + if ops.postInstall.Some? then [ops.postInstall.value] else []
  }

  function Closing(ops: Operations): seq<StepId> {
    [if ops.configure.Some? then ops.configure.value else "write_config",
     ops.start, "wait_for_gateway", "health_check"]
  }

  // ---- The same calls in the reconcile machine ------------------------------------------------

  /** The step that is in progress while `provision` waits for a call. */
  function CallStep(call: ReconcileSteps.Call, ops: Operations): Option<StepId> {
    match call
    case ProvisionGenerating => Some("validate_config")
    case Installing => Some(ops.install)
    case Configuring => Some(if ops.configure.Some? then ops.configure.value else "write_config")
    case Starting => Some(ops.start)
    case Connecting => Some("wait_for_gateway")
    case Checking => Some("health_check")
    case _ => None
  }

  /** The calls of a run, from the one that follows the choice of the deployment type to
      the last before the row is saved. */
  const CALLS := [ReconcileSteps.ProvisionGenerating, ReconcileSteps.Installing, ReconcileSteps.Configuring,
                  ReconcileSteps.Starting, ReconcileSteps.Connecting, ReconcileSteps.Checking]

  /** The reconcile machine takes these calls one after the other if all goes well, and
      they are all that have a step. */
  lemma CallsInOrder(ops: Operations, call: ReconcileSteps.Call)
    ensures ReconcileSteps.Following(ReconcileSteps.Resolving) == CALLS[0]
    ensures forall i | 0 <= i < 5 :: ReconcileSteps.Following(CALLS[i]) == CALLS[i + 1]
    ensures ReconcileSteps.Following(CALLS[5]) == ReconcileSteps.Saving
    ensures CallStep(call, ops).Some? <==> call in CALLS
  {
  }

  function StepsOf(calls: seq<ReconcileSteps.Call>, ops: Operations): seq<StepId>
    requires forall call | call in calls :: CallStep(call, ops).Some?
  {
    seq(|calls|, i requires 0 <= i < |calls| => CallStep(calls[i], ops).value)
  }

  lemma StepsOfCalls(ops: Operations)
    ensures StepsOf(CALLS, ops) == ["validate_config", ops.install] + Closing(ops)
  {
    var steps := StepsOf(CALLS, ops);
    assert |steps| == 6 && steps[0] == "validate_config" && steps[1] == ops.install;
    assert steps[2..] == Closing(ops);
  }

  /** Both models of `provision` wait in the same steps in the same order: the path without
      the two steps that have no call of their own. */
  lemma {:induction false} CallsWalkPath(ops: Operations)
    ensures var steps := StepsOf(CALLS, ops);
            && |steps| == 6
            && Path(ops) == ["validate_config", "security_audit", ops.install]
                            + (if ops.postInstall.Some? then [ops.postInstall.value] else [])
                            + [if ops.configure.Some? then ops.configure.value else "write_config",
                               ops.start, "wait_for_gateway", "health_check"]
            && Path(ops) == steps[..1] + ["security_audit"] + steps[1..2]
                            + (if ops.postInstall.Some? then [ops.postInstall.value] else []) + steps[2..]
  {
    StepsOfCalls(ops);
    var steps := ["validate_config", ops.install] + Closing(ops);
    assert steps[..1] == ["validate_config"] && steps[1..2] == [ops.install] && steps[2..] == Closing(ops);
    assert steps[..1] + ["security_audit"] + steps[1..2] == ["validate_config", "security_audit", ops.install];
  }

  // ---- The entry of a run -----------------------------------------------------------------------

  function Entry(progress: map<Id, Progress>, id: Id): Option<Progress> {
    if id in progress then Some(progress[id]) else None
  }

  /** What these acts make of a new entry. */
  ghost predicate Follows(entry: Option<Progress>, ids: seq<StepId>, acts: seq<Act>) {
    ids != [] && entry == After(Some(Begin(ids)), acts)
  }

  lemma FollowsNext(entry: Option<Progress>, ids: seq<StepId>, acts: seq<Act>, act: Act)
    requires Follows(entry, ids, acts)
    ensures Follows(Do(entry, act), ids, acts + [act])
    ensures Updates(acts + [act]) == Updates(acts) + if act.Update? then [act] else []
  {
    assert (acts + [act])[..|acts|] == acts;
  }

  /** A run that has been through `k` steps of its path; asserting `Unfold(k)` brings up
      what that means. */
  ghost predicate Came(acts: seq<Act>, path: seq<StepId>, k: nat) {
    forall x: nat {:trigger Unfold(x)} :: Unfold(x) && x == k ==> k <= |path| && Updates(acts) == Script(path)[..2 * k]
  }

  /** A run that fails in that step. */
  ghost predicate Fell(acts: seq<Act>, path: seq<StepId>, k: nat) {
    forall x: nat {:trigger Unfold(x)} :: Unfold(x) && x == k ==> CutOff(Updates(acts), path, 2 * k + 1)
  }

  lemma CameNowhere(acts: seq<Act>, path: seq<StepId>)
    requires Updates(acts) == []
    ensures Came(acts, path, 0)
  {
    assert Script(path)[..0] == [];
  }

  lemma CameThrough(acts: seq<Act>, path: seq<StepId>)
    requires Came(acts, path, |path|)
    ensures Updates(acts) == Script(path)
  {
    assert Unfold<nat>(|path|);
    assert Script(path)[..2 * |path|] == Script(path);
  }

  lemma ScriptAt(path: seq<StepId>, k: nat)
    requires k < |path|
    ensures Script(path)[..2 * k] + [Update(path[k], InProgress)] == Script(path)[..2 * k + 1]
    ensures Script(path)[..2 * k + 1] + [Update(path[k], Completed)] == Script(path)[..2 * (k + 1)]
  {
  }

  lemma StillDisciplined(entry: Option<Progress>, ids: seq<StepId>, path: seq<StepId>, acts: seq<Act>)
    requires Follows(entry, ids, acts) && Updates(acts) <= Script(path)
    ensures entry.Some? ==> Disciplined(entry.value)
  {
    AlwaysDisciplined(ids, path, acts);
  }

  class LifecycleManagerService {
    const events: ProvisioningEventsService
    // What has happened to the entry since the run began
    ghost var acts: seq<Act>

    constructor (events: ProvisioningEventsService)
      ensures this.events == events
    {
      this.events := events;
      acts := [];
    }

    method Mark(id: Id, stepId: StepId, status: StepStatus, ghost ids: seq<StepId>)
      requires Follows(Entry(events.progress, id), ids, acts)
      modifies events`progress, this`acts
      ensures Follows(Entry(events.progress, id), ids, acts)
      ensures Updates(acts) == old(Updates(acts)) + [Update(stepId, status)]
    {
      FollowsNext(Entry(events.progress, id), ids, acts, Update(stepId, status));
      events.Update(id, stepId, status);
      acts := acts + [Update(stepId, status)];
    }

    /** An await: the call may throw, and meanwhile the timeout may fire, the clean-up of
        an earlier run may come, and the target may log lines.  At most one step is in
        progress the while. */
    method Await(id: Id, currentStepId: StepId, ghost ids: seq<StepId>, ghost path: seq<StepId>)
      returns (threw: bool)
      requires events.LogsOk() && Follows(Entry(events.progress, id), ids, acts) && Updates(acts) <= Script(path)
      modifies events, this`acts
      ensures events.LogsOk() && Follows(Entry(events.progress, id), ids, acts)
      ensures Updates(acts) == old(Updates(acts))
      ensures id in old(events.progress) ==> Disciplined(old(events.progress)[id])
      ensures id in events.progress ==> Disciplined(events.progress[id])
    {
      StillDisciplined(Entry(events.progress, id), ids, path, acts);
      Chatter(id, currentStepId);
      var expires: bool, forgets: bool := *, *;
      if expires { Expires(id, ids); }
      if forgets { Forgets(id, ids); }
      StillDisciplined(Entry(events.progress, id), ids, path, acts);
      threw := *;
    }

    method Chatter(id: Id, currentStepId: StepId)
      requires events.LogsOk()
      modifies events
      ensures events.LogsOk() && events.progress == old(events.progress)
    {
      var times: int := *;
      while times > 0
        invariant events.LogsOk() && events.progress == old(events.progress)
      {
        var text: string := *;
        events.EmitLog(id, Line(currentStepId, text));
        times := times - 1;
      }
    }

    method Expires(id: Id, ghost ids: seq<StepId>)
      requires events.LogsOk() && Follows(Entry(events.progress, id), ids, acts)
      modifies events`progress, this`acts
      ensures events.LogsOk() && Follows(Entry(events.progress, id), ids, acts)
      ensures Updates(acts) == old(Updates(acts))
    {
      FollowsNext(Entry(events.progress, id), ids, acts, Timeout);
      events.TimeoutProvisioning(id);
      acts := acts + [Timeout];
    }

    method Forgets(id: Id, ghost ids: seq<StepId>)
      requires events.LogsOk() && Follows(Entry(events.progress, id), ids, acts)
      modifies events, this`acts
      ensures events.LogsOk() && Follows(Entry(events.progress, id), ids, acts)
      ensures Updates(acts) == old(Updates(acts))
    {
      FollowsNext(Entry(events.progress, id), ids, acts, Cleanup);
      events.Forget(id);
      acts := acts + [Cleanup];
    }

    /** One step: in progress, the call, completed.  A call that reports failure marks
        the step before it throws. */
    method During(id: Id, stepId: StepId, reports: bool, ghost ids: seq<StepId>, ghost path: seq<StepId>, ghost k: nat)
      returns (ok: bool)
      requires events.LogsOk() && Follows(Entry(events.progress, id), ids, acts)
      requires Came(acts, path, k) && k < |path| && path[k] == stepId
      modifies events, this`acts
      ensures events.LogsOk() && Follows(Entry(events.progress, id), ids, acts)
      ensures if ok then Came(acts, path, k + 1) else Fell(acts, path, k)
    {
      assert Unfold(k);
      ScriptAt(path, k);
      Mark(id, stepId, InProgress, ids);
      var threw := Await(id, stepId, ids, path);
      if threw { return false; }
      if reports {
        var success: bool := *;
        if !success {
          Mark(id, stepId, Failed, ids);
          return false;
        }
      }
      Mark(id, stepId, Completed, ids);
      return true;
    }

    /** A step without a call of its own. */
    method Tick(id: Id, stepId: StepId, ghost ids: seq<StepId>, ghost path: seq<StepId>, ghost k: nat)
      requires Follows(Entry(events.progress, id), ids, acts)
      requires Came(acts, path, k) && k < |path| && path[k] == stepId
      modifies events`progress, this`acts
      ensures Follows(Entry(events.progress, id), ids, acts) && Came(acts, path, k + 1)
    {
      assert Unfold(k);
      ScriptAt(path, k);
      Mark(id, stepId, InProgress, ids);
      Mark(id, stepId, Completed, ids);
    }

    /** The try block of `provision` up to an installed target. */
    method Install(id: Id, ops: Operations, ghost ids: seq<StepId>, ghost path: seq<StepId>)
      returns (ok: bool, ghost k: nat)
      requires events.LogsOk() && Follows(Entry(events.progress, id), ids, acts) && Came(acts, path, 0)
      requires Opening(ops) <= path
      modifies events, this`acts
      ensures events.LogsOk() && Follows(Entry(events.progress, id), ids, acts)
      ensures if ok then k == |Opening(ops)| && Came(acts, path, k) else Fell(acts, path, k)
    {
      k := 0;
      ok := During(id, "validate_config", false, ids, path, 0);
      if !ok { return; }
      Tick(id, "security_audit", ids, path, 1);
      assert Unfold<nat>(2);
      var _ := Await(id, "security_audit", ids, path); // destroy: what it throws is ignored
      k := 2;
      ok := During(id, ops.install, true, ids, path, 2);
      if !ok { return; }
      k := 3;
      if ops.postInstall.Some? {
        Tick(id, ops.postInstall.value, ids, path, 3);
        k := 4;
      }
    }

    /** From configuration to a gateway that answers. */
    method Launch(id: Id, ops: Operations, ghost ids: seq<StepId>, ghost path: seq<StepId>, ghost start: nat)
      returns (ok: bool, ghost k: nat)
      requires events.LogsOk() && Follows(Entry(events.progress, id), ids, acts) && Came(acts, path, start)
      requires start + 4 == |path| && path[start..] == Closing(ops)
      modifies events, this`acts
      ensures events.LogsOk() && Follows(Entry(events.progress, id), ids, acts)
      ensures if ok then k == |path| && Came(acts, path, k) else Fell(acts, path, k)
    {
      assert forall i | 0 <= i < 4 :: path[start + i] == Closing(ops)[i];
      var configure := if ops.configure.Some? then ops.configure.value else "write_config";
      k := start;
      ok := During(id, configure, true, ids, path, k);
      if !ok { return; }
      k := start + 1;
      ok := During(id, ops.start, false, ids, path, k);
      if !ok { return; }
      k := start + 2;
      ok := During(id, "wait_for_gateway", false, ids, path, k);
      if !ok { return; }
      k := start + 3;
      ok := During(id, "health_check", false, ids, path, k);
      if ok { k := start + 4; }
    }

    /** All of it, up to the saved row, connection and profile. */
    method BringUp(id: Id, ops: Operations, ghost ids: seq<StepId>) returns (ok: bool, ghost n: nat)
      requires events.LogsOk() && Follows(Entry(events.progress, id), ids, acts) && Updates(acts) == []
      modifies events, this`acts
      ensures events.LogsOk() && Follows(Entry(events.progress, id), ids, acts)
      ensures n <= 2 * |Path(ops)|
      ensures if ok then Updates(acts) == Script(Path(ops)) else CutOff(Updates(acts), Path(ops), n)
    {
      ghost var path, k := Path(ops), 0;
      CameNowhere(acts, path);
      ok, k := Install(id, ops, ids, path);
      n := 2 * k + 1;
      if !ok { assert Unfold(k); return; }
      ok, k := Launch(id, ops, ids, path, k);
      n := 2 * k + 1;
      if !ok { assert Unfold(k); return; }
      CameThrough(acts, path);
      n := 2 * |path|;
      var threw := Await(id, "health_check", ids, path);
      ok := !threw;
    }

    /** A success completes exactly the steps of the list that are on the path of the
        deployment type and leaves the rest skipped.  A failure leaves the step it came
        at as failed, those before it as completed, and the others as pending.  An
        entry that was cleaned up meanwhile is not there any more; without steps in the
        list, nothing begins. */
    method Provision(id: Id, ids: seq<StepId>, ops: Operations)
      returns (threw: bool, success: bool, ghost n: nat)
      requires events.LogsOk()
      modifies events, this`acts
      ensures events.LogsOk()
      ensures threw <==> ids == []
      ensures threw ==> events.progress == old(events.progress)
      ensures !threw && id in events.progress ==>
                n <= 2 * |Path(ops)| && Ended(events.progress[id], ids, Path(ops), success, n)
    {
      n := 0;
      var started := events.StartProvisioning(id, ids);
      if !started { return true, false, 0; }
      threw, acts := false, [];
      success, n := BringUp(id, ops, ids);
      if success {
        SuccessEnds(Entry(events.progress, id), ids, Path(ops), acts, n);
        events.CompleteProvisioning(id);
      } else {
        FailureEnds(Entry(events.progress, id), ids, Path(ops), acts, n);
        events.FailProvisioning(id);
      }
    }
  }

  /** How an entry ends: with `n` acts of the script done if the run failed. */
  ghost predicate Ended(p: Progress, ids: seq<StepId>, path: seq<StepId>, success: bool, n: nat)
    requires n <= 2 * |path|
  {
    && p.status == (if success then Finished else Broken)
    && (forall i | 0 <= i < |p.steps| :: p.steps[i].status != InProgress)
    && (Distinct(ids) ==>
          Shows(p, ids, x => if success then if x in path then Completed else Skipped else Verdict(x, path, n)))
  }

  lemma SuccessEnds(entry: Option<Progress>, ids: seq<StepId>, path: seq<StepId>, acts: seq<Act>, n: nat)
    requires Follows(entry, ids, acts) && Updates(acts) == Script(path) && n <= 2 * |path|
    ensures entry.Some? ==> Ended(Complete(entry.value), ids, path, true, n)
  {
    SuccessSettlesAll(ids, path, acts);
    if Distinct(ids) { SuccessCompletesPath(ids, path, acts); }
  }

  lemma FailureEnds(entry: Option<Progress>, ids: seq<StepId>, path: seq<StepId>, acts: seq<Act>, n: nat)
    requires Follows(entry, ids, acts) && CutOff(Updates(acts), path, n)
    ensures entry.Some? ==> Ended(Fail(entry.value), ids, path, false, n)
  {
    if Distinct(ids) { FailureKeepsRecord(ids, path, acts, n); }
  }
}
