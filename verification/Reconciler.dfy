/** The reconcile code itself, with its try, catch and finally, proved to take exactly
    the steps of module ReconcileSteps. */
module Reconciler {
  import opened Basics
  import opened Options
  import opened ReconcileSteps
  import ReconcileOutcomes

  /** Calls that leave the row alone and of whose answer the run notes nothing. */
  predicate Quiet(call: Call) {
    !IsWrite(call) && !call.Loading? && !call.Preparing? && !call.Auditing? && !call.Probing? && !call.ReadingRemote?
    && !call.Applying? && !call.ProvisionGenerating? && !call.Installing? && !call.Done?
  }

  /** What is left of a run for a specification: the plan and world it began with, the
      answers it has had, and where it is. */
  datatype Trace = Trace(plan: Plan, origin: World, answers: seq<Outcome>, run: Run)

  predicate Continues(was: Trace, t: Trace) {
    t.plan == was.plan && t.origin == was.origin
  }

  predicate KeepsGoal(was: Trace, t: Trace) {
    Continues(was, t) && t.run.desired == was.run.desired
  }

  predicate Kept(was: Trace, t: Trace) {
    KeepsGoal(was, t) && t.run.loaded == was.run.loaded && t.run.made == was.run.made
  }

  ghost predicate Reached(t: Trace, world: World) {
    forall x {:trigger Unfold(x)} :: Unfold(x) && x == t ==>
      Execute(t.plan, FIRST, t.origin, t.answers) == (t.run, world)
  }

  ghost predicate At(t: Trace, world: World, call: Call) {
    t.run.call == call && Reached(t, world)
  }

  ghost function Extended(t: Trace, world: World, o: Outcome): Trace {
    t.(run := Step(t.plan, t.run, world, o).0, answers := t.answers + [o])
  }

  lemma ReachNext(t: Trace, world: World, o: Outcome)
    requires Reached(t, world)
    ensures Reached(Extended(t, world, o), Step(t.plan, t.run, world, o).1)
  {
    assert Unfold(t);
    assert (t.answers + [o])[..|t.answers|] == t.answers;
  }

  /** One instance: its row with the gateway behind it, and the run that a call of
      `Reconcile` is. */
  class Instance {
    const plan: Plan
    var world: World
    ghost var trace: Trace

    constructor (plan: Plan, world: World)
      ensures this.plan == plan && this.world == world
    {
      this.plan := plan;
      this.world := world;
    }

    // ---- Calls out of the services: each may throw, or answer anything ----------------------

    method Ask(call: Call, next: Call, handler: Call) returns (ok: bool)
      requires At(trace, world, call) && Quiet(call) && next == Following(call) && handler == AfterBad(call)
      modifies this`trace
      ensures At(trace, world, if ok then next else handler)
      ensures Kept(old(trace), trace)
    {
      var o: Outcome := *;
      ok := Good(call, world, o);
      ReachNext(trace, world, o);
      trace := Extended(trace, world, o);
    }

    /** A row write: the row stays as it is if the write throws. */
    method Write(call: Call, row: Row, next: Call, handler: Call) returns (ok: bool)
      requires At(trace, world, call) && IsWrite(call)
      requires row == NewRow(call, trace.run.made, trace.run.desired, Held(world))
      requires next == Following(call) && handler == AfterBad(call)
      modifies this`trace, this`world
      ensures At(trace, world, if ok then next else handler)
      ensures Kept(old(trace), trace)
      ensures world == if ok then old(world).(row := Some(row)) else old(world)
    {
      var o: Outcome := *;
      ok := Good(call, world, o);
      ReachNext(trace, world, o);
      trace := Extended(trace, world, o);
      if ok {
        world := world.(row := Some(row));
      }
    }

    method FindOneWithRelations() returns (found: bool, loaded: Row)
      requires At(trace, world, Loading)
      modifies this`trace
      ensures At(trace, world, if found then Marking else Failing)
      ensures Continues(old(trace), trace) && trace.run.loaded == loaded
    {
      var o: Outcome := *;
      found, loaded := Good(Loading, world, o), Held(world);
      ReachNext(trace, world, o);
      trace := Extended(trace, world, o);
    }

    /** The preprocessor chain, then the desired hash. */
    method Preprocess() returns (ok: bool, desired: Hash)
      requires At(trace, world, Preparing) && trace.plan == plan
      modifies this`trace
      ensures At(trace, world, if ok then Auditing else Failing)
      ensures Continues(old(trace), trace) && trace.run.loaded == old(trace.run).loaded
      ensures ok ==> trace.run.desired == desired
    {
      var o: Outcome := *;
      ok, desired := o.Answered?, if o.Answered? then Generated(plan, o.hash) else "";
      ReachNext(trace, world, o);
      trace := Extended(trace, world, o);
    }

    /** The audit; the hash is what `update` generates straight after it. */
    method Audit() returns (ok: bool, made: Hash)
      requires At(trace, world, Auditing) && trace.plan == plan
      modifies this`trace
      ensures At(trace, world, if !ok then Failing else if IsNew(trace.run.loaded) then Resolving
                 else if trace.run.loaded.configHash == Some(made) then Probing else ReadingRemote)
      ensures KeepsGoal(old(trace), trace) && trace.run.loaded == old(trace.run).loaded
      ensures ok ==> trace.run.made == made
    {
      var o: Outcome := *;
      ok, made := Good(Auditing, world, o), if o.Answered? then Generated(plan, o.hash) else "";
      ReachNext(trace, world, o);
      trace := Extended(trace, world, o);
    }

    method ProbeGateway() returns (ok: bool)
      requires At(trace, world, Probing)
      modifies this`trace
      ensures At(trace, world, if ok then WritingSkills else Resolving)
      ensures Kept(old(trace), trace)
    {
      var o: Outcome := *;
      ok := o.Answered?;
      ReachNext(trace, world, o);
      trace := Extended(trace, world, o);
    }

    method ConfigGet() returns (ok: bool, hash: Hash)
      requires At(trace, world, ReadingRemote)
      modifies this`trace
      ensures At(trace, world, if !ok then UpdateFailing else if hash == trace.run.made then Syncing else Applying)
      ensures Kept(old(trace), trace)
    {
      var o: Outcome := *;
      ok, hash := o.Answered?, if o.Answered? then o.hash else "";
      ReachNext(trace, world, o);
      trace := Extended(trace, world, o);
    }

    method ConfigApply() returns (ok: bool)
      requires At(trace, world, Applying)
      modifies this`trace, this`world
      ensures At(trace, world, if ok then Persisting else UpdateFailing)
      ensures Kept(old(trace), trace)
      ensures world == old(world).(applies := old(world).applies + 1)
    {
      var o: Outcome := *;
      ok := Good(Applying, world, o);
      ReachNext(trace, world, o);
      trace := Extended(trace, world, o);
      world := world.(applies := world.applies + 1);
    }

    /** The target is resolved and the config generated once more. */
    method ResolveTarget() returns (ok: bool, made: Hash)
      requires At(trace, world, ProvisionGenerating) && trace.plan == plan
      modifies this`trace
      ensures At(trace, world, if ok then Installing else ProvisionFailing)
      ensures KeepsGoal(old(trace), trace) && trace.run.loaded == old(trace.run).loaded
      ensures ok ==> trace.run.made == made
    {
      var o: Outcome := *;
      ok, made := o.Answered?, if o.Answered? then Generated(plan, o.hash) else "";
      ReachNext(trace, world, o);
      trace := Extended(trace, world, o);
    }

    method Install() returns (ok: bool)
      requires At(trace, world, Installing)
      modifies this`trace, this`world
      ensures At(trace, world, if ok then Configuring else ProvisionFailing)
      ensures Kept(old(trace), trace)
      ensures world == old(world).(installs := old(world).installs + 1)
    {
      var o: Outcome := *;
      ok := Good(Installing, world, o);
      ReachNext(trace, world, o);
      trace := Extended(trace, world, o);
      world := world.(installs := world.installs + 1);
    }
  }

  class LifecycleManagerService {

    /** The try block of `update`, once the hashes are known to differ. */
    method ApplyIfStale(instance: Instance, made: Hash) returns (ok: bool)
      requires At(instance.trace, instance.world, ReadingRemote) && instance.trace.run.made == made
      requires instance.trace.plan == instance.plan
      modifies instance`trace, instance`world
      ensures At(instance.trace, instance.world, if ok then WritingSkills else UpdateFailing)
      ensures KeepsGoal(old(instance.trace), instance.trace)
    {
      var remote;
      ok, remote := instance.ConfigGet();
      if !ok { return; }
      if remote == made {
        ok := instance.Write(Syncing, Held(instance.world).(configHash := Some(made)), WritingSkills, UpdateFailing);
        return;
      }
      ok := instance.ConfigApply();
      if !ok { return; }
      ok := RecordApplied(instance, made);
    }

    method RecordApplied(instance: Instance, made: Hash) returns (ok: bool)
      requires At(instance.trace, instance.world, Persisting) && instance.trace.run.made == made
      modifies instance`trace, instance`world
      ensures At(instance.trace, instance.world, if ok then WritingSkills else UpdateFailing)
      ensures KeepsGoal(old(instance.trace), instance.trace)
    {
      var _ := instance.Ask(Persisting, Recording, Recording); // a target that cannot store the config is only logged
      ok := instance.Write(Recording, Held(instance.world).(configHash := Some(made), reconciled := true),
                           Linking, UpdateFailing);
      if ok {
        ok := instance.Ask(Linking, WritingSkills, UpdateFailing);
      }
    }

    method Update(instance: Instance, loaded: Row, made: Hash) returns (success: bool, threw: bool)
      requires At(instance.trace, instance.world, if loaded.configHash == Some(made) then Probing else ReadingRemote)
      requires instance.trace.plan == instance.plan
      requires instance.trace.run.made == made
      modifies instance`trace, instance`world
      ensures At(instance.trace, instance.world,
                 if threw then Failing else if success then WritingSkills else Resolving)
      ensures threw ==> !success
      ensures KeepsGoal(old(instance.trace), instance.trace)
    {
      threw := false;
      if loaded.configHash == Some(made) {
        success := instance.ProbeGateway();
        return;
      }
      success := ApplyIfStale(instance, made);
      if !success {
        var row := Held(instance.world);
        var recorded := instance.Write(UpdateFailing, row.(errorCount := row.errorCount + 1), Resolving, Failing);
        threw := !recorded;
      }
    }

    /** The try block of `provision` up to a gateway that answers. */
    method BringUp(instance: Instance) returns (ok: bool, made: Hash)
      requires At(instance.trace, instance.world, ProvisionGenerating)
      requires instance.trace.plan == instance.plan
      modifies instance`trace, instance`world
      ensures At(instance.trace, instance.world, if ok then Saving else ProvisionFailing)
      ensures KeepsGoal(old(instance.trace), instance.trace) && (ok ==> instance.trace.run.made == made)
    {
      ok, made := instance.ResolveTarget();
      if !ok { return; }
      ok := instance.Install();
      if !ok { return; }
      ok := instance.Ask(Configuring, Starting, ProvisionFailing);
      if !ok { return; }
      ok := instance.Ask(Starting, Connecting, ProvisionFailing);
      if !ok { return; }
      ok := instance.Ask(Connecting, Checking, ProvisionFailing);
      if !ok { return; }
      ok := instance.Ask(Checking, Saving, ProvisionFailing);
    }

    /** True if provisioned; otherwise `reconcile` throws in turn. */
    method Provision(instance: Instance) returns (success: bool)
      requires At(instance.trace, instance.world, Resolving)
      requires instance.trace.plan == instance.plan
      modifies instance`trace, instance`world
      ensures At(instance.trace, instance.world, if success then WritingSkills else Failing)
      ensures KeepsGoal(old(instance.trace), instance.trace)
    {
      success := instance.Ask(Resolving, ProvisionGenerating, Failing);
      if !success { return; }
      var made;
      success, made := BringUp(instance);
      if success {
        success := instance.Write(Saving, Row(Running, Some(made), true, 0), Upserting, ProvisionFailing);
        if success {
          success := instance.Ask(Upserting, WritingSkills, ProvisionFailing);
        }
      }
      if !success {
        NoteFailure(instance);
      }
    }

    /** The catch block of `provision`. */
    method NoteFailure(instance: Instance)
      requires At(instance.trace, instance.world, ProvisionFailing)
      modifies instance`trace, instance`world
      ensures At(instance.trace, instance.world, Failing)
      ensures KeepsGoal(old(instance.trace), instance.trace)
    {
      var row := Held(instance.world);
      var _ := instance.Write(ProvisionFailing, row.(status := Errored, errorCount := row.errorCount + 1),
                              Failing, Failing);
    }
  }

  class ReconcilerService {
    const lifecycle: LifecycleManagerService
    var reconcileInProgress: set<Instance>

    constructor (lifecycle: LifecycleManagerService)
      ensures reconcileInProgress == {}
    {
      this.lifecycle := lifecycle;
      reconcileInProgress := {};
    }

    /** Up to an audited manifest: load, mark, prepare, audit. */
    method Prepare(instance: Instance) returns (ok: bool, loaded: Row, desired: Hash, made: Hash)
      requires At(instance.trace, instance.world, Loading)
      requires instance.trace.plan == instance.plan
      modifies instance`trace, instance`world
      ensures At(instance.trace, instance.world, if !ok then Failing else if IsNew(loaded) then Resolving
                          else if loaded.configHash == Some(made) then Probing else ReadingRemote)
      ensures Continues(old(instance.trace), instance.trace)
      ensures ok ==> instance.trace.run.made == made && instance.trace.run.desired == desired
    {
      desired, made := "", "";
      ok, loaded := instance.FindOneWithRelations();
      if !ok { return; }
      ok := instance.Write(Marking, Held(instance.world).(status := Reconciling), LoggingStart, Failing);
      if !ok { return; }
      ok := instance.Ask(LoggingStart, Preparing, Failing);
      if !ok { return; }
      ok, desired := instance.Preprocess();
      if !ok { return; }
      ok, made := instance.Audit();
    }

    /** Up to a config that is out. */
    method Deploy(instance: Instance) returns (ok: bool, desired: Hash)
      requires At(instance.trace, instance.world, Loading)
      requires instance.trace.plan == instance.plan
      modifies instance`trace, instance`world
      ensures At(instance.trace, instance.world, if ok then WritingSkills else Failing)
      ensures Continues(old(instance.trace), instance.trace)
      ensures ok ==> instance.trace.run.desired == desired
    {
      var loaded, made;
      ok, loaded, desired, made := Prepare(instance);
      if !ok { return; }
      if IsNew(loaded) {
        ok := lifecycle.Provision(instance);
      } else {
        var threw;
        ok, threw := lifecycle.Update(instance, loaded, made);
        if !ok && !threw {
          ok := lifecycle.Provision(instance);
        }
      }
    }

    /** From a config that is out to success. */
    method Conclude(instance: Instance, desired: Hash) returns (ok: bool)
      requires At(instance.trace, instance.world, WritingSkills) && instance.trace.run.desired == desired
      requires instance.trace.plan == instance.plan
      modifies instance`trace, instance`world
      ensures At(instance.trace, instance.world, if ok then Done(true) else Failing)
      ensures Continues(old(instance.trace), instance.trace)
    {
      var _ := instance.Ask(WritingSkills, Refetching, Refetching); // a failure is only noted
      ok := instance.Ask(Refetching, Inspecting, Failing);
      if !ok { return; }
      ok := instance.Ask(Inspecting, Finishing, Failing);
      if ok {
        ok := Finish(instance, desired);
      }
    }

    method Finish(instance: Instance, desired: Hash) returns (ok: bool)
      requires At(instance.trace, instance.world, Finishing) && instance.trace.run.desired == desired
      modifies instance`trace, instance`world
      ensures At(instance.trace, instance.world, if ok then Done(true) else Failing)
      ensures Continues(old(instance.trace), instance.trace)
    {
      ok := instance.Write(Finishing, Row(Running, Some(desired), true, 0), LoggingEnd, Failing);
      if ok {
        ok := instance.Ask(LoggingEnd, Done(true), Failing);
      }
    }

    /** The catch block. */
    method Fail(instance: Instance)
      requires At(instance.trace, instance.world, Failing)
      modifies instance`trace, instance`world
      ensures At(instance.trace, instance.world, Done(false))
      ensures Continues(old(instance.trace), instance.trace)
    {
      var row := Held(instance.world);
      var told := instance.Write(Failing, row.(status := Errored, errorCount := row.errorCount + 1, reconciled := true),
                                 LoggingFail, Done(false));
      if told {
        var _ := instance.Ask(LoggingFail, Done(false), Done(false));
      }
    }

    /** The body of `reconcile` inside its guard. */
    method Attempt(instance: Instance) returns (success: bool)
      requires At(instance.trace, instance.world, Loading)
      requires instance.trace.plan == instance.plan
      modifies instance`trace, instance`world
      ensures At(instance.trace, instance.world, Done(success))
      ensures Continues(old(instance.trace), instance.trace)
    {
      var desired;
      success, desired := Deploy(instance);
      if success {
        success := Conclude(instance, desired);
      }
      if !success {
        Fail(instance);
      }
    }

    /** Skipped if the instance is being reconciled already.  Otherwise a run of the
        step machine from start to end; the guard is then as it was. */
    method Reconcile(instance: Instance) returns (success: bool)
      modifies this`reconcileInProgress, instance
      ensures reconcileInProgress == old(reconcileInProgress)
      ensures instance in old(reconcileInProgress) ==> success && unchanged(instance)
      ensures instance !in old(reconcileInProgress) ==>
                && Execute(instance.plan, FIRST, old(instance.world), instance.trace.answers)
                   == (instance.trace.run, instance.world)
                && instance.trace.run.call == Done(success)
                && (success <==> ReconcileOutcomes.Succeeds(instance.plan, old(instance.world), instance.trace.answers))
    {
      if instance in reconcileInProgress {
        return true;
      }
      reconcileInProgress := reconcileInProgress + {instance};
      instance.trace := Trace(instance.plan, instance.world, [], FIRST);
      success := Attempt(instance);
      assert Unfold(instance.trace);
      ReconcileOutcomes.SucceedsExactly(instance.plan, instance.trace.origin, instance.trace.answers);
      // finally
      reconcileInProgress := reconcileInProgress - {instance};
    }
  }
}
