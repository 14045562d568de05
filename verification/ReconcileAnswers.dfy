/** A reconcile reports success only if the calls that can say no have said yes. */
module ReconcileAnswers {
  import opened ReconcileSteps

  /** The call a run waits for after `k` of its answers. */
  function At(plan: Plan, world: World, os: seq<Outcome>, k: nat): Call
    requires k <= |os|
  {
    Execute(plan, FIRST, world, os[..k]).0.call
  }

  lemma AtNext(plan: Plan, world: World, os: seq<Outcome>, k: nat) returns (run: Run, there: World)
    requires k < |os|
    ensures run.call == At(plan, world, os, k) && At(plan, world, os, k + 1) == Step(plan, run, there, os[k]).0.call
  {
    assert os[..k + 1][..k] == os[..k];
    var (r, w) := Execute(plan, FIRST, world, os[..k]);
    run, there := r, w;
  }

  /** A run that waits for one of these has failed. */
  predicate Doomed(call: Call) {
    call.ProvisionFailing? || call.Failing? || call.LoggingFail? || call == Done(false)
  }

  lemma DoomedStep(plan: Plan, run: Run, world: World, o: Outcome)
    requires Doomed(run.call)
    ensures Doomed(Step(plan, run, world, o).0.call)
  {
  }

  lemma {:induction false} DoomedStays(plan: Plan, world: World, os: seq<Outcome>, k: nat)
    requires k <= |os| && Doomed(At(plan, world, os, k))
    ensures Doomed(At(plan, world, os, |os|))
    decreases |os| - k
  {
    if k < |os| {
      var run, there := AtNext(plan, world, os, k);
      DoomedStep(plan, run, there, os[k]);
      DoomedStays(plan, world, os, k + 1);
    }
  }

  predicate SaidYes(o: Outcome) {
    o.Answered? && o.yes
  }

  lemma RefusedStep(plan: Plan, run: Run, world: World, o: Outcome)
    requires (run.call.Auditing? || run.call.Installing? || run.call.Configuring?) && !SaidYes(o)
    ensures Doomed(Step(plan, run, world, o).0.call)
  {
  }

  /** An update has failed and a provision is on its way. */
  predicate FallsBack(call: Call) {
    call.UpdateFailing? || (InProvision(call) && !call.ProvisionFailing?)
  }

  lemma FallsBackStep(plan: Plan, run: Run, world: World, o: Outcome)
    requires FallsBack(run.call) && !(run.call.Upserting? && o.Answered?)
    ensures var call := Step(plan, run, world, o).0.call; FallsBack(call) || Doomed(call)
  {
  }

  lemma RefusedApply(plan: Plan, run: Run, world: World, o: Outcome)
    requires run.call.Applying? && !SaidYes(o)
    ensures FallsBack(Step(plan, run, world, o).0.call)
  {
  }

  /** The m-th answer ends a provision well. */
  predicate Provisioned(plan: Plan, world: World, os: seq<Outcome>, m: nat) {
    m < |os| && At(plan, world, os, m).Upserting? && os[m].Answered?
  }

  lemma {:induction false} FallsBackToProvision(plan: Plan, world: World, os: seq<Outcome>, k: nat)
    requires k <= |os| && FallsBack(At(plan, world, os, k)) && At(plan, world, os, |os|) == Done(true)
    ensures exists m :: k <= m && Provisioned(plan, world, os, m)
    decreases |os| - k
  {
    if k < |os| && !Provisioned(plan, world, os, k) {
      var run, there := AtNext(plan, world, os, k);
      FallsBackStep(plan, run, there, os[k]);
      if Doomed(At(plan, world, os, k + 1)) {
        DoomedStays(plan, world, os, k + 1);
      } else {
        FallsBackToProvision(plan, world, os, k + 1);
      }
    }
  }

  /** Whenever a run that succeeds has waited for an audit, an install or a configuration, the
      answer was yes; and if it was not for a config.apply, a later provision went through. */
  lemma {:induction false} SuccessMeansYes(plan: Plan, world: World, os: seq<Outcome>, k: nat)
    requires k < |os| && Execute(plan, FIRST, world, os).0.call == Done(true)
    ensures var call := Execute(plan, FIRST, world, os[..k]).0.call;
            && (call.Auditing? || call.Installing? || call.Configuring? ==> os[k].Answered? && os[k].yes)
            && (call.Applying? && !(os[k].Answered? && os[k].yes) ==>
                  exists m :: k < m && Provisioned(plan, world, os, m))
  {
    assert os[..|os|] == os;
    var run, there := AtNext(plan, world, os, k);
    if (run.call.Auditing? || run.call.Installing? || run.call.Configuring?) && !SaidYes(os[k]) {
      RefusedStep(plan, run, there, os[k]);
      DoomedStays(plan, world, os, k + 1);
    }
    if run.call.Applying? && !SaidYes(os[k]) {
      RefusedApply(plan, run, there, os[k]);
      FallsBackToProvision(plan, world, os, k + 1);
    }
  }
}
