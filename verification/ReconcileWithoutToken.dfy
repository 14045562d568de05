/** Why convergence needs a deterministic config: without one, `update` and `reconcile`
    each draw a random token, and what is recorded is not what was applied. */
module ReconcileWithoutToken {
  import opened Options
  import opened ReconcileSteps
  import opened ReconcileSafety

  /** No config.apply can follow. */
  predicate Past(call: Call) {
    Left(call) <= 24 && !call.Applying?
  }

  lemma PastStays(plan: Plan, run: Run, world: World, o: Outcome)
    requires Past(run.call)
    ensures var (r, w) := Step(plan, run, world, o);
            Past(r.call) && w.applies == world.applies
  {
    if run.call.Done? {
      DoneStays(plan, run, world, o);
    } else {
      StepsRunOut(plan, run, world, o);
    }
  }

  /** The first calls of a run, up to the one whose answer leads to `update`. */
  function OpeningCall(k: nat): Call
    requires k <= 4
  {
    if k == 0 then Loading else if k == 1 then Marking else if k == 2 then LoggingStart
    else if k == 3 then Preparing else Auditing
  }

  /** The instance exists, and the first k calls of a run go well for it. */
  predicate Opened(world: World, outcomes: seq<Outcome>, k: nat)
    requires k <= 5 && k <= |outcomes|
  {
    && (k > 0 ==> world.row.Some?)
    && (forall i | 0 <= i < k :: outcomes[i].Answered?)
    && (k == 5 ==> outcomes[4].yes)
  }

  /** A run up to its audit. */
  ghost predicate Opens(world: World, outcomes: seq<Outcome>, r: Run, w: World)
    requires |outcomes| <= 4
  {
    && w.applies == world.applies && w.row.Some? == world.row.Some?
    && if Opened(world, outcomes, |outcomes|) then
         r.call == OpeningCall(|outcomes|)
         && (if outcomes == [] then w == world else r.loaded == world.row.value)
       else Past(r.call)
  }

  lemma OpeningNext(plan: Plan, k: nat, r: Run, w: World, o: Outcome)
    requires k <= 3 && r.call == OpeningCall(k) && (k > 0 ==> w.row.Some?)
    ensures var (r', w') := Step(plan, r, w, o);
            && w'.applies == w.applies && w'.row.Some? == w.row.Some?
            && r'.loaded == (if k == 0 then Held(w) else r.loaded)
            && (if o.Answered? && w.row.Some? then r'.call == OpeningCall(k + 1) else Past(r'.call))
  {
  }

  lemma OpensNext(plan: Plan, world: World, outcomes: seq<Outcome>, r: Run, w: World, o: Outcome)
    requires |outcomes| <= 3 && Opens(world, outcomes, r, w)
    ensures Opens(world, outcomes + [o], Step(plan, r, w, o).0, Step(plan, r, w, o).1)
  {
    var all := outcomes + [o];
    assert forall i | 0 <= i < |outcomes| :: all[i] == outcomes[i];
    if Opened(world, outcomes, |outcomes|) {
      OpeningNext(plan, |outcomes|, r, w, o);
      assert all[|outcomes|] == o;
      assert Opened(world, all, |all|) <==> o.Answered? && world.row.Some?;
    } else {
      assert !Opened(world, all, |all|);
      PastStays(plan, r, w, o);
    }
  }

  lemma {:induction false} OpensAlways(plan: Plan, world: World, outcomes: seq<Outcome>)
    requires |outcomes| <= 4
    ensures var (r, w) := Execute(plan, FIRST, world, outcomes); Opens(world, outcomes, r, w)
  {
    if outcomes != [] {
      var init, last := outcomes[..|outcomes| - 1], outcomes[|outcomes| - 1];
      OpensAlways(plan, world, init);
      var (r, w) := Execute(plan, FIRST, world, init);
      assert init + [last] == outcomes;
      OpensNext(plan, world, init, r, w, last);
    }
  }

  /** The audit passes for an instance that exists, and the hash generated for the
      update is not on record. */
  predicate Asks(plan: Plan, world: World, outcomes: seq<Outcome>)
    requires |outcomes| >= 5
  {
    && Opened(world, outcomes, 5) && !IsNew(world.row.value)
    && world.row.value.configHash != Some(Generated(plan, outcomes[4].hash))
  }

  /** Moreover, the gateway answers with the hash of another config. */
  predicate Stale(plan: Plan, world: World, outcomes: seq<Outcome>)
    requires |outcomes| >= 6
  {
    Asks(plan, world, outcomes) && outcomes[5].Answered? && outcomes[5].hash != Generated(plan, outcomes[4].hash)
  }

  lemma AuditNext(plan: Plan, r: Run, w: World, o: Outcome)
    requires r.call.Auditing?
    ensures var (r', w') := Step(plan, r, w, o);
            && w'.applies == w.applies
            && (if Good(Auditing, w, o) && !IsNew(r.loaded) && r.loaded.configHash != Some(Generated(plan, o.hash)) then
                  r'.call.ReadingRemote? && r'.made == Generated(plan, o.hash)
                else r'.call.Probing? || Past(r'.call))
  {
  }

  lemma UpdateNext(plan: Plan, r: Run, w: World, o: Outcome)
    requires r.call.ReadingRemote? || r.call.Probing?
    ensures var (r', w') := Step(plan, r, w, o);
            && w'.applies == w.applies
            && (if r.call.ReadingRemote? && o.Answered? && o.hash != r.made then r'.call.Applying? else Past(r'.call))
  {
  }

  lemma ApplyNext(plan: Plan, r: Run, w: World, o: Outcome)
    requires r.call.Applying?
    ensures var (r', w') := Step(plan, r, w, o);
            Past(r'.call) && w'.applies == w.applies + 1
  {
  }

  lemma {:induction false} Audits(plan: Plan, world: World, outcomes: seq<Outcome>)
    requires |outcomes| == 5
    ensures var (r, w) := Execute(plan, FIRST, world, outcomes);
            && w.applies == world.applies
            && (if Asks(plan, world, outcomes) then
                  r.call.ReadingRemote? && r.made == Generated(plan, outcomes[4].hash)
                else r.call.Probing? || Past(r.call))
  {
    var init := outcomes[..4];
    OpensAlways(plan, world, init);
    var (r, w) := Execute(plan, FIRST, world, init);
    if !Opened(world, init, 4) {
      assert !Opened(world, outcomes, 5);
      PastStays(plan, r, w, outcomes[4]);
    } else {
      AuditNext(plan, r, w, outcomes[4]);
      assert Opened(world, outcomes, 5) <==> Good(Auditing, w, outcomes[4]);
    }
  }

  lemma Reads(plan: Plan, world: World, outcomes: seq<Outcome>)
    requires |outcomes| == 6
    ensures var (r, w) := Execute(plan, FIRST, world, outcomes);
            && w.applies == world.applies
            && (if Stale(plan, world, outcomes) then r.call.Applying? else Past(r.call))
  {
    var init := outcomes[..5];
    Audits(plan, world, init);
    var (r, w) := Execute(plan, FIRST, world, init);
    assert Asks(plan, world, init) <==> Asks(plan, world, outcomes);
    if Past(r.call) {
      PastStays(plan, r, w, outcomes[5]);
    } else {
      UpdateNext(plan, r, w, outcomes[5]);
    }
  }

  /** Exactly when a reconcile calls config.apply, whatever its calls answer and
      whichever throw: the instance exists, its opening calls go well, the hash generated
      for the update is not on record, and the gateway reports another one. */
  lemma {:induction false} AppliesExactly(plan: Plan, world: World, outcomes: seq<Outcome>)
    requires |outcomes| >= 7
    ensures var (r, w) := Execute(plan, FIRST, world, outcomes);
            Past(r.call) && w.applies == world.applies + if Stale(plan, world, outcomes) then 1 else 0
  {
    var init, last := outcomes[..|outcomes| - 1], outcomes[|outcomes| - 1];
    var (r, w) := Execute(plan, FIRST, world, init);
    assert Stale(plan, world, init) <==> Stale(plan, world, outcomes);
    if |outcomes| == 7 {
      Reads(plan, world, init);
      if r.call.Applying? { ApplyNext(plan, r, w, last); } else { PastStays(plan, r, w, last); }
    } else {
      AppliesExactly(plan, world, init);
      PastStays(plan, r, w, last);
    }
  }

  // ---- What a run leaves on record ----------------------------------------------------------

  /** The hash a run wants is the one generated for its fourth call, and once it logs
      success that is the one on record. */
  predicate Wants(plan: Plan, outcomes: seq<Outcome>, r: Run, w: World) {
    && (InOpening(r.call) ==> |outcomes| <= 4 && r.call == OpeningCall(|outcomes|))
    && (Prepared(r.call) || r.call == Done(true) ==>
          |outcomes| >= 4 && outcomes[3].Answered? && r.desired == Generated(plan, outcomes[3].hash))
    && (r.call.LoggingEnd? || r.call == Done(true) ==> w.row == Some(Row(Running, Some(r.desired), true, 0)))
  }

  lemma OuterWants(plan: Plan, outcomes: seq<Outcome>, r: Run, w: World, o: Outcome)
    requires Wants(plan, outcomes, r, w) && !InUpdate(r.call) && !InProvision(r.call)
    ensures Wants(plan, outcomes + [o], Step(plan, r, w, o).0, Step(plan, r, w, o).1)
  {
  }

  lemma InnerWants(plan: Plan, outcomes: seq<Outcome>, r: Run, w: World, o: Outcome)
    requires Wants(plan, outcomes, r, w) && (InUpdate(r.call) || InProvision(r.call))
    ensures Wants(plan, outcomes + [o], Step(plan, r, w, o).0, Step(plan, r, w, o).1)
  {
  }

  lemma {:induction false} RecordsWanted(plan: Plan, world: World, outcomes: seq<Outcome>)
    ensures var (r, w) := Execute(plan, FIRST, world, outcomes); Wants(plan, outcomes, r, w)
  {
    if outcomes != [] {
      var init, last := outcomes[..|outcomes| - 1], outcomes[|outcomes| - 1];
      RecordsWanted(plan, world, init);
      var (r, w) := Execute(plan, FIRST, world, init);
      assert init + [last] == outcomes;
      if InUpdate(r.call) || InProvision(r.call) {
        InnerWants(plan, init, r, w, last);
      } else {
        OuterWants(plan, init, r, w, last);
      }
    }
  }

  /** A reconcile after a successful one: what is on record is the hash drawn first in
      the run before, not the hash of the config it applied, so the config is applied
      again exactly if the opening calls go well, the hash drawn for the update differs
      from that one, and the gateway reports another one.  With a deterministic plan
      the first two never differ; with a random token they do. */
  lemma {:induction false} NextRunApplies(plan: Plan, world: World, first: seq<Outcome>, second: seq<Outcome>)
    requires |second| >= 7 && Execute(plan, FIRST, world, first).0.call == Done(true)
    ensures |first| >= 4 && first[3].Answered?
    ensures var w := Execute(plan, FIRST, world, first).1;
            var wanted := Generated(plan, first[3].hash);
            && w.row == Some(Row(Running, Some(wanted), true, 0))
            && Execute(plan, FIRST, w, second).1.applies
               == w.applies + if (forall i | 0 <= i < 6 :: second[i].Answered?) && second[4].yes
                                 && Generated(plan, second[4].hash) != wanted
                                 && second[5].hash != Generated(plan, second[4].hash) then 1 else 0
  {
    RecordsWanted(plan, world, first);
    var w := Execute(plan, FIRST, world, first).1;
    AppliesExactly(plan, w, second);
    assert Opened(w, second, 5) <==> (forall i | 0 <= i < 5 :: second[i].Answered?) && second[4].yes;
  }
}
