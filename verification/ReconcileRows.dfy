/** What a reconcile leaves behind: the row and the installs of every run, told from the
    answers alone. */
module ReconcileRows {
  import opened Basics
  import opened Options
  import opened ReconcileSteps
  import opened ReconcileOutcomes

  function AheadFrom(plan: Plan, run: Run, world: World, os: seq<Outcome>, k: nat): (Run, World) {
    Ahead(plan, run, world, Drop(os, k))
  }

  lemma AheadNext(plan: Plan, run: Run, world: World, os: seq<Outcome>, k: nat)
    requires k < |os|
    ensures var (r, w) := Step(plan, run, world, os[k]);
            AheadFrom(plan, run, world, os, k) == AheadFrom(plan, r, w, os, k + 1)
  {
    assert os[k..][0] == os[k] && os[k..][1..] == os[k + 1..];
  }

  // ---- A provision and what follows it ----------------------------------------------------------

  /** The calls of `REST` from the j-th on are answered as they need up to the f-th, which
      is not. */
  predicate FailsAt(os: seq<Outcome>, j: nat, k: nat, f: nat) {
    && j <= f < |REST| && k + f - j < |os|
    && (forall i | j <= i < f :: Met(REST[i].1, Nth(os, k + i - j)))
    && !Met(REST[f].1, Nth(os, k + f - j))
  }

  /** Calls after the deployment type is known and before the instance is provisioned: when
      one of them fails, provision itself writes an error before reconcile does. */
  predicate InsideProvision(f: nat) {
    1 <= f <= 8
  }

  /** The failure is written down: every write of it answers. */
  predicate Written(os: seq<Outcome>, k: nat, f: nat) {
    && k + 3 < |os| && os[k + 1].Answered? && (InsideProvision(f) ==> os[k + 2].Answered?)
  }

  /** The row after calls `j` to `f - 1`: a provision saves it as running, without errors,
      and so does the end of a reconcile, with the hash that the reconcile wanted. */
  function RowBefore(row: Row, made: Hash, desired: Hash, j: nat, f: nat): Row {
    if j <= 12 < f then Row(Running, Some(desired), true, 0)
    else if j <= 7 < f then Row(Running, Some(made), true, 0)
    else row
  }

  function FailedRow(row: Row, f: nat): Row {
    Row(Errored, row.configHash, true, row.errorCount + if InsideProvision(f) then 2 else 1)
  }

  function MadeThere(plan: Plan, run: Run, os: seq<Outcome>, j: nat, k: nat): Hash {
    if j <= 1 then Generated(plan, Said(Nth(os, k + 1 - j))) else run.made
  }

  lemma RestWrites(plan: Plan, run: Run, world: World, o: Outcome, j: nat)
    requires j < |REST| && run.call == REST[j].0 && world.row.Some? && Met(REST[j].1, o)
    ensures var (r, w) := Step(plan, run, world, o);
            && r.call == AfterRest(j) && r.desired == run.desired
            && r.made == (if j == 1 then Generated(plan, Said(o)) else run.made)
            && w.row == Some(RowBefore(world.row.value, run.made, run.desired, j, j + 1))
            && w.installs == world.installs + (if j == 2 then 1 else 0) && w.applies == world.applies
  {
    if j < CONCLUSION { ProvisionWrites(plan, run, world, o, j); }
  }

  lemma ProvisionWrites(plan: Plan, run: Run, world: World, o: Outcome, j: nat)
    requires j < CONCLUSION && run.call == REST[j].0 && world.row.Some? && Met(REST[j].1, o)
    ensures var (r, w) := Step(plan, run, world, o);
            && r.call == AfterRest(j) && r.desired == run.desired
            && r.made == (if j == 1 then Generated(plan, Said(o)) else run.made)
            && w.row == Some(if j == 7 then Row(Running, Some(run.made), true, 0) else world.row.value)
            && w.installs == world.installs + (if j == 2 then 1 else 0) && w.applies == world.applies
  {
    if j < 4 { InstallWrites(plan, run, world, o, j); } else { LaunchWrites(plan, run, world, o, j); }
  }

  lemma InstallWrites(plan: Plan, run: Run, world: World, o: Outcome, j: nat)
    requires j < 4 && run.call == REST[j].0 && world.row.Some? && Met(REST[j].1, o)
    ensures var (r, w) := Step(plan, run, world, o);
            && r.call == AfterRest(j) && r.desired == run.desired
            && r.made == (if j == 1 then Generated(plan, Said(o)) else run.made)
            && w == world.(installs := world.installs + if j == 2 then 1 else 0)
  {
  }

  lemma LaunchWrites(plan: Plan, run: Run, world: World, o: Outcome, j: nat)
    requires 4 <= j < CONCLUSION && run.call == REST[j].0 && world.row.Some? && Met(REST[j].1, o)
    ensures var (r, w) := Step(plan, run, world, o);
            && r == run.(call := AfterRest(j))
            && w == if j == 7 then world.(row := Some(Row(Running, Some(run.made), true, 0))) else world
  {
  }

  lemma RestRefuses(plan: Plan, run: Run, world: World, o: Outcome, j: nat)
    requires j < |REST| && run.call == REST[j].0 && world.row.Some? && !Met(REST[j].1, o)
    ensures var (r, w) := Step(plan, run, world, o);
            && r.call == (if InsideProvision(j) then ProvisionFailing else Failing)
            && w == world.(installs := world.installs + if j == 2 then 1 else 0)
  {
    if j < CONCLUSION { ProvisionRefuses(plan, run, world, o, j); }
  }

  lemma ProvisionRefuses(plan: Plan, run: Run, world: World, o: Outcome, j: nat)
    requires j < CONCLUSION && run.call == REST[j].0 && world.row.Some? && !Met(REST[j].1, o)
    ensures var (r, w) := Step(plan, run, world, o);
            && r.call == (if j == 0 then Failing else ProvisionFailing)
            && w == world.(installs := world.installs + if j == 2 then 1 else 0)
  {
    if j < 4 { InstallRefuses(plan, run, world, o, j); } else { LaunchRefuses(plan, run, world, o, j); }
  }

  lemma InstallRefuses(plan: Plan, run: Run, world: World, o: Outcome, j: nat)
    requires j < 4 && run.call == REST[j].0 && world.row.Some? && !Met(REST[j].1, o)
    ensures var (r, w) := Step(plan, run, world, o);
            && r.call == (if j == 0 then Failing else ProvisionFailing)
            && w == world.(installs := world.installs + if j == 2 then 1 else 0)
  {
  }

  lemma LaunchRefuses(plan: Plan, run: Run, world: World, o: Outcome, j: nat)
    requires 4 <= j < CONCLUSION && run.call == REST[j].0 && world.row.Some? && !Met(REST[j].1, o)
    ensures var (r, w) := Step(plan, run, world, o); r.call == ProvisionFailing && w == world
  {
  }

  lemma FailingWrites(plan: Plan, run: Run, world: World, o: Outcome)
    requires world.row.Some? && o.Answered? && (run.call.ProvisionFailing? || run.call.Failing?)
    ensures var (r, w) := Step(plan, run, world, o);
            var row := world.row.value;
            if run.call.ProvisionFailing?
            then r.call == Failing
                 && w == world.(row := Some(row.(status := Errored, errorCount := row.errorCount + 1)))
            else r.call == LoggingFail
                 && w == world.(row := Some(Row(Errored, row.configHash, true, row.errorCount + 1)))
  {
  }

  lemma LastLog(plan: Plan, run: Run, world: World, os: seq<Outcome>, k: nat)
    requires run.call.LoggingFail? && k < |os|
    ensures AheadFrom(plan, run, world, os, k).0.call == Done(false)
    ensures AheadFrom(plan, run, world, os, k).1 == world
  {
    AheadNext(plan, run, world, os, k);
    var (r, w) := Step(plan, run, world, os[k]);
    DoneKeeps(plan, r, w, Drop(os, k + 1));
  }

  lemma FailsDown(plan: Plan, run: Run, world: World, os: seq<Outcome>, k: nat, f: nat)
    requires world.row.Some? && Written(os, k, f)
    requires run.call == if InsideProvision(f) then ProvisionFailing else Failing
    ensures var (r, w) := AheadFrom(plan, run, world, os, k + 1);
            r.call == Done(false) && w == world.(row := Some(FailedRow(world.row.value, f)))
  {
    AheadNext(plan, run, world, os, k + 1);
    FailingWrites(plan, run, world, os[k + 1]);
    var (r, w) := Step(plan, run, world, os[k + 1]);
    if InsideProvision(f) {
      AheadNext(plan, r, w, os, k + 2);
      FailingWrites(plan, r, w, os[k + 2]);
      var (r2, w2) := Step(plan, r, w, os[k + 2]);
      LastLog(plan, r2, w2, os, k + 3);
    } else {
      LastLog(plan, r, w, os, k + 2);
    }
  }

  /** What a run leaves that provisions, or goes on from the skills, and fails at the f-th
      call. */
  function EndWorld(plan: Plan, run: Run, world: World, os: seq<Outcome>, j: nat, k: nat, f: nat): World
    requires world.row.Some?
  {
    World(Some(FailedRow(RowBefore(world.row.value, MadeThere(plan, run, os, j, k), run.desired, j, f), f)),
          world.applies, world.installs + if j <= 2 <= f then 1 else 0)
  }

  /** What a call of `REST` that is answered as it needs makes of run and world. */
  predicate Went(plan: Plan, run: Run, world: World, o: Outcome, j: nat, run': Run, world': World)
    requires j < |REST| && world.row.Some?
  {
    && run'.call == AfterRest(j) && run'.desired == run.desired
    && run'.made == (if j == 1 then Generated(plan, Said(o)) else run.made)
    && world'.row == Some(RowBefore(world.row.value, run.made, run.desired, j, j + 1))
    && world'.installs == world.installs + (if j == 2 then 1 else 0) && world'.applies == world.applies
  }

  lemma GoesOn(plan: Plan, run: Run, world: World, os: seq<Outcome>, j: nat, k: nat) returns (run': Run, world': World)
    requires j < |REST| && run.call == REST[j].0 && world.row.Some? && k < |os| && Met(REST[j].1, os[k])
    ensures Went(plan, run, world, os[k], j, run', world')
    ensures AheadFrom(plan, run, world, os, k) == AheadFrom(plan, run', world', os, k + 1)
  {
    AheadNext(plan, run, world, os, k);
    RestWrites(plan, run, world, os[k], j);
    run', world' := Step(plan, run, world, os[k]).0, Step(plan, run, world, os[k]).1;
  }

  lemma EndLater(plan: Plan, run: Run, world: World, os: seq<Outcome>, j: nat, k: nat, f: nat, run': Run, world': World)
    requires j < f < |REST| && k < |os| && world.row.Some? && Went(plan, run, world, os[k], j, run', world')
    ensures EndWorld(plan, run', world', os, j + 1, k + 1, f) == EndWorld(plan, run, world, os, j, k, f)
  {
    MadeLater(plan, run, run', os, j, k);
    RowLater(world.row.value, run.made, MadeThere(plan, run, os, j, k), run.desired, j, f);
  }

  lemma MadeLater(plan: Plan, run: Run, run': Run, os: seq<Outcome>, j: nat, k: nat)
    requires k < |os| && run'.made == if j == 1 then Generated(plan, Said(os[k])) else run.made
    ensures MadeThere(plan, run', os, j + 1, k + 1) == MadeThere(plan, run, os, j, k)
  {
  }

  lemma RowLater(row: Row, made: Hash, later: Hash, desired: Hash, j: nat, f: nat)
    requires j < f && (j > 1 ==> made == later)
    ensures RowBefore(RowBefore(row, made, desired, j, j + 1), later, desired, j + 1, f)
            == RowBefore(row, later, desired, j, f)
  {
  }

  lemma FailsLater(os: seq<Outcome>, j: nat, k: nat, f: nat)
    requires j < f && FailsAt(os, j, k, f)
    ensures FailsAt(os, j + 1, k + 1, f) && Met(REST[j].1, os[k])
  {
    assert Met(REST[j].1, Nth(os, k + j - j));
    forall i | j + 1 <= i < f ensures Met(REST[i].1, Nth(os, k + 1 + i - (j + 1))) {
      assert Met(REST[i].1, Nth(os, k + i - j));
    }
  }

  /** From the k-th answer on the run fails and leaves this world. */
  ghost predicate FailsTo(plan: Plan, run: Run, world: World, os: seq<Outcome>, k: nat, end: World) {
    forall x: World {:trigger Unfold(x)} :: Unfold(x) && x == end ==>
      AheadFrom(plan, run, world, os, k).0.call == Done(false) && AheadFrom(plan, run, world, os, k).1 == end
  }

  lemma FailsToBefore(plan: Plan, run: Run, world: World, os: seq<Outcome>, k: nat, run': Run, world': World,
                      end: World)
    requires AheadFrom(plan, run, world, os, k) == AheadFrom(plan, run', world', os, k + 1)
    requires FailsTo(plan, run', world', os, k + 1, end)
    ensures FailsTo(plan, run, world, os, k, end)
  {
    assert Unfold(end);
  }

  lemma FailsHere(plan: Plan, run: Run, world: World, os: seq<Outcome>, j: nat, k: nat)
    requires j < |REST| && run.call == REST[j].0 && world.row.Some?
    requires k < |os| && !Met(REST[j].1, os[k]) && Written(os, k, j)
    ensures FailsTo(plan, run, world, os, k, EndWorld(plan, run, world, os, j, k, j))
  {
    AheadNext(plan, run, world, os, k);
    RestRefuses(plan, run, world, os[k], j);
    var (r, w) := Step(plan, run, world, os[k]);
    FailsDown(plan, r, w, os, k, j);
  }

  /** A run that waits in the j-th call of `REST` and fails in the f-th, folded. */
  ghost predicate Falls(run: Run, world: World, os: seq<Outcome>, j: nat, k: nat, f: nat) {
    forall x: nat {:trigger Unfold(x)} :: Unfold(x) && x == f ==>
      && j < |REST| && run.call == REST[j].0 && world.row.Some?
      && FailsAt(os, j, k, f) && Written(os, k + f - j, f)
  }

  lemma FallsNext(plan: Plan, run: Run, world: World, os: seq<Outcome>, j: nat, k: nat, f: nat)
    returns (run': Run, world': World)
    requires j < f && world.row.Some? && Falls(run, world, os, j, k, f)
    ensures world'.row.Some? && Falls(run', world', os, j + 1, k + 1, f)
    ensures AheadFrom(plan, run, world, os, k) == AheadFrom(plan, run', world', os, k + 1)
    ensures EndWorld(plan, run', world', os, j + 1, k + 1, f) == EndWorld(plan, run, world, os, j, k, f)
  {
    assert Unfold(f);
    FailsLater(os, j, k, f);
    run', world' := GoesOn(plan, run, world, os, j, k);
    EndLater(plan, run, world, os, j, k, f, run', world');
  }

  lemma FallsHere(plan: Plan, run: Run, world: World, os: seq<Outcome>, k: nat, f: nat)
    requires world.row.Some? && Falls(run, world, os, f, k, f)
    ensures FailsTo(plan, run, world, os, k, EndWorld(plan, run, world, os, f, k, f))
  {
    assert Unfold(f);
    assert Nth(os, k + f - f) == os[k];
    FailsHere(plan, run, world, os, f, k);
  }

  lemma {:induction false} RestFails(plan: Plan, run: Run, world: World, os: seq<Outcome>, j: nat, k: nat, f: nat)
    requires j <= f && world.row.Some? && Falls(run, world, os, j, k, f)
    ensures FailsTo(plan, run, world, os, k, EndWorld(plan, run, world, os, j, k, f))
    decreases f - j
  {
    if j == f {
      FallsHere(plan, run, world, os, k, f);
    } else {
      var run', world' := FallsNext(plan, run, world, os, j, k, f);
      RestFails(plan, run', world', os, j + 1, k + 1, f);
      FailsToBefore(plan, run, world, os, k, run', world', EndWorld(plan, run, world, os, j, k, f));
    }
  }

  /** One that gets through. */
  predicate Finished(run: Run, world: World, j: nat, r: Run, w: World) {
    && r.call == Done(true) && w.row == Some(Row(Running, Some(run.desired), true, 0))
    && w.installs == world.installs + (if j <= 2 then 1 else 0) && w.applies == world.applies
  }

  lemma LastTwo(plan: Plan, run: Run, world: World, os: seq<Outcome>, k: nat)
    requires run.call == REST[12].0 && world.row.Some? && RestMet(os, 12, k)
    ensures var (r, w) := AheadFrom(plan, run, world, os, k); Finished(run, world, 12, r, w)
  {
    assert Met(REST[12].1, Nth(os, k + 12 - 12)) && Met(REST[13].1, Nth(os, k + 13 - 12));
    var run', world' := GoesOn(plan, run, world, os, 12, k);
    var r, w := GoesOn(plan, run', world', os, 13, k + 1);
    DoneKeeps(plan, r, w, Drop(os, k + 2));
  }

  lemma MetLater(os: seq<Outcome>, j: nat, k: nat)
    requires j + 1 < |REST| && RestMet(os, j, k)
    ensures k < |os| && Met(REST[j].1, os[k]) && RestMet(os, j + 1, k + 1)
  {
    assert Met(REST[13].1, Nth(os, k + 13 - j));
    assert Met(REST[j].1, Nth(os, k + j - j));
    forall i | j + 1 <= i < |REST| ensures Met(REST[i].1, Nth(os, k + 1 + i - (j + 1))) {
      assert Met(REST[i].1, Nth(os, k + i - j));
    }
  }

  lemma {:induction false} RestFinishes(plan: Plan, run: Run, world: World, os: seq<Outcome>, j: nat, k: nat)
    requires j <= 12 && run.call == REST[j].0 && world.row.Some? && RestMet(os, j, k)
    ensures var (r, w) := AheadFrom(plan, run, world, os, k); Finished(run, world, j, r, w)
    decreases 12 - j
  {
    if j == 12 {
      LastTwo(plan, run, world, os, k);
    } else {
      MetLater(os, j, k);
      var run', world' := GoesOn(plan, run, world, os, j, k);
      RestFinishes(plan, run', world', os, j + 1, k + 1);
    }
  }

  // ---- The update ------------------------------------------------------------------------------

  function Missed(row: Row): Row {
    row.(errorCount := row.errorCount + 1)
  }

  /** The row after the recording and the connection's row, from the k-th answer on. */
  function RecordedRow(row: Row, made: Hash, os: seq<Outcome>, k: nat): Row {
    var recorded := row.(configHash := Some(made), reconciled := true);
    if Nth(os, k).Threw? then Missed(row) else if Nth(os, k + 1).Threw? then Missed(recorded) else recorded
  }

  /** The row after an update: one that fails counts as an error, a new hash is on record
      once it is applied or found on the gateway. */
  function UpdateRow(row: Row, made: Hash, os: seq<Outcome>): Row {
    if row.configHash == Some(made) then row
    else if Nth(os, 5).Threw? then Missed(row)
    else if Said(Nth(os, 5)) == made then
      if Nth(os, 6).Answered? then row.(configHash := Some(made)) else Missed(row)
    else if Nth(os, 6).Answered? && Nth(os, 6).yes then RecordedRow(row, made, os, 8)
    else Missed(row)
  }

  /** How often an update calls config.apply. */
  function UpdateApplies(row: Row, made: Hash, os: seq<Outcome>): nat {
    if row.configHash == Some(made) || Nth(os, 5).Threw? || Said(Nth(os, 5)) == made then 0 else 1
  }

  predicate New(row: Row) {
    row.status == Creating || (!row.reconciled && row.configHash.None?)
  }

  function WayRow(plan: Plan, row: Row, os: seq<Outcome>): Row {
    var marked := row.(status := Reconciling);
    if New(row) then marked else UpdateRow(marked, Generated(plan, Said(Nth(os, 4))), os)
  }

  function WayApplies(plan: Plan, row: Row, os: seq<Outcome>): nat {
    if New(row) then 0 else UpdateApplies(row, Generated(plan, Said(Nth(os, 4))), os)
  }

  /** From the k-th answer on the run is one that provisions, or goes on from the skills, on
      this row. */
  ghost predicate Leads(plan: Plan, run: Run, world: World, os: seq<Outcome>, k: nat, way: Way, row: Row,
                        applies: nat)
  {
    forall x: Way {:trigger Unfold(x)} :: Unfold(x) && x == way && !way.Refused? && way.at <= |os| ==>
      exists r :: LeadsTo(plan, run, world, os, k, way, r, World(Some(row), applies, world.installs))
  }

  predicate LeadsTo(plan: Plan, run: Run, world: World, os: seq<Outcome>, k: nat, way: Way, r: Run, w: World)
    requires !way.Refused?
  {
    && AheadFrom(plan, run, world, os, k) == AheadFrom(plan, r, w, os, way.at)
    && r.call == (if way.Provisions? then Resolving else WritingSkills)
    && r.desired == run.desired && r.made == run.made
  }

  lemma LeadsNext(plan: Plan, run: Run, world: World, os: seq<Outcome>, k: nat, way: Way, row: Row, applies: nat)
    requires k < |os|
    requires var (r, w) := Step(plan, run, world, os[k]);
             && r.desired == run.desired && r.made == run.made && w.installs == world.installs
             && Leads(plan, r, w, os, k + 1, way, row, applies)
    ensures Leads(plan, run, world, os, k, way, row, applies)
  {
    AheadNext(plan, run, world, os, k);
    var (r, w) := Step(plan, run, world, os[k]);
    if !way.Refused? && way.at <= |os| {
      assert Unfold(way);
      var end := World(Some(row), applies, world.installs);
      var r2 :| LeadsTo(plan, r, w, os, k + 1, way, r2, end);
      assert LeadsTo(plan, run, world, os, k, way, r2, end);
    }
  }

  lemma LeadsHere(plan: Plan, run: Run, world: World, os: seq<Outcome>, k: nat, way: Way)
    requires world.row.Some? && !way.Refused? && way.at == k
    requires run.call == if way.Provisions? then Resolving else WritingSkills
    ensures Leads(plan, run, world, os, k, way, world.row.value, world.applies)
  {
    assert world == World(Some(world.row.value), world.applies, world.installs);
    assert LeadsTo(plan, run, world, os, k, way, run, World(Some(world.row.value), world.applies, world.installs));
  }

  lemma UpdateWrites(plan: Plan, run: Run, world: World, o: Outcome)
    requires world.row.Some?
    requires run.call.Syncing? || run.call.Applying? || run.call.Persisting? || run.call.Recording? || run.call.Linking?
             || run.call.UpdateFailing?
    ensures var (r, w) := Step(plan, run, world, o);
            var row := world.row.value;
            && r.desired == run.desired && r.made == run.made && w.installs == world.installs
            && w.applies == world.applies + (if run.call.Applying? then 1 else 0)
            && w.row == Some(
                 if o.Threw? then row
                 else match run.call
                      case Syncing => row.(configHash := Some(run.made))
                      case Recording => row.(configHash := Some(run.made), reconciled := true)
                      case UpdateFailing => Missed(row)
                      case _ => row)
            && (run.call.UpdateFailing? && o.Answered? ==> r.call == Resolving)
  {
  }

  lemma FallbackLeads(plan: Plan, run: Run, world: World, os: seq<Outcome>, k: nat)
    requires run.call.UpdateFailing? && world.row.Some?
    ensures Leads(plan, run, world, os, k, Fallback(os, k), Missed(world.row.value), world.applies)
  {
    if Nth(os, k).Answered? {
      UpdateWrites(plan, run, world, os[k]);
      var (r, w) := Step(plan, run, world, os[k]);
      LeadsHere(plan, r, w, os, k + 1, Fallback(os, k));
      LeadsNext(plan, run, world, os, k, Fallback(os, k), Missed(world.row.value), world.applies);
    }
  }

  lemma LinkedLeads(plan: Plan, run: Run, world: World, os: seq<Outcome>, k: nat)
    requires run.call.Linking? && world.row.Some?
    ensures Leads(plan, run, world, os, k, Linked(os, k),
                  if Nth(os, k).Threw? then Missed(world.row.value) else world.row.value, world.applies)
  {
    if k < |os| {
      UpdateWrites(plan, run, world, os[k]);
      UpdateCall(plan, run, world, os[k]);
      var (r, w) := Step(plan, run, world, os[k]);
      if os[k].Threw? {
        FallbackLeads(plan, r, w, os, k + 1);
      } else {
        LeadsHere(plan, r, w, os, k + 1, Linked(os, k));
      }
      LeadsNext(plan, run, world, os, k, Linked(os, k),
                if os[k].Threw? then Missed(world.row.value) else world.row.value, world.applies);
    }
  }

  lemma RecordedLeads(plan: Plan, run: Run, world: World, os: seq<Outcome>, k: nat)
    requires run.call.Recording? && world.row.Some?
    ensures Leads(plan, run, world, os, k, Recorded(os, k), RecordedRow(world.row.value, run.made, os, k),
                  world.applies)
  {
    if k < |os| {
      UpdateWrites(plan, run, world, os[k]);
      UpdateCall(plan, run, world, os[k]);
      var (r, w) := Step(plan, run, world, os[k]);
      if os[k].Threw? {
        FallbackLeads(plan, r, w, os, k + 1);
      } else {
        LinkedLeads(plan, r, w, os, k + 1);
      }
      LeadsNext(plan, run, world, os, k, Recorded(os, k), RecordedRow(world.row.value, run.made, os, k), world.applies);
    }
  }

  lemma AppliedLeads(plan: Plan, run: Run, world: World, os: seq<Outcome>, k: nat)
    requires run.call.Applying? && world.row.Some?
    ensures Leads(plan, run, world, os, k, Applied(os, k),
                  if Nth(os, k).Answered? && Nth(os, k).yes then RecordedRow(world.row.value, run.made, os, k + 2)
                  else Missed(world.row.value), world.applies + 1)
  {
    if k < |os| {
      UpdateWrites(plan, run, world, os[k]);
      UpdateCall(plan, run, world, os[k]);
      var (r, w) := Step(plan, run, world, os[k]);
      if !(os[k].Answered? && os[k].yes) {
        FallbackLeads(plan, r, w, os, k + 1);
        LeadsNext(plan, run, world, os, k, Applied(os, k), Missed(world.row.value), world.applies + 1);
      } else if k + 1 < |os| {
        StoredLeads(plan, r, w, os, k + 1);
        LeadsNext(plan, run, world, os, k, Applied(os, k), RecordedRow(world.row.value, run.made, os, k + 2),
                  world.applies + 1);
      }
    }
  }

  lemma StoredLeads(plan: Plan, run: Run, world: World, os: seq<Outcome>, k: nat)
    requires run.call.Persisting? && world.row.Some? && k < |os|
    ensures Leads(plan, run, world, os, k, Recorded(os, k + 1), RecordedRow(world.row.value, run.made, os, k + 1),
                  world.applies)
  {
    UpdateWrites(plan, run, world, os[k]);
    UpdateCall(plan, run, world, os[k]);
    var (r, w) := Step(plan, run, world, os[k]);
    RecordedLeads(plan, r, w, os, k + 1);
    LeadsNext(plan, run, world, os, k, Recorded(os, k + 1), RecordedRow(world.row.value, run.made, os, k + 1),
              world.applies);
  }

  lemma SyncedLeads(plan: Plan, run: Run, world: World, os: seq<Outcome>, k: nat)
    requires run.call.Syncing? && world.row.Some?
    ensures Leads(plan, run, world, os, k, if Nth(os, k).Answered? then Concludes(k + 1) else Fallback(os, k + 1),
                  if Nth(os, k).Answered? then world.row.value.(configHash := Some(run.made))
                  else Missed(world.row.value), world.applies)
  {
    var way := if Nth(os, k).Answered? then Concludes(k + 1) else Fallback(os, k + 1);
    if k < |os| {
      UpdateWrites(plan, run, world, os[k]);
      UpdateCall(plan, run, world, os[k]);
      var (r, w) := Step(plan, run, world, os[k]);
      if os[k].Threw? {
        FallbackLeads(plan, r, w, os, k + 1);
        LeadsNext(plan, run, world, os, k, way, Missed(world.row.value), world.applies);
      } else {
        LeadsHere(plan, r, w, os, k + 1, way);
        LeadsNext(plan, run, world, os, k, way, world.row.value.(configHash := Some(run.made)), world.applies);
      }
    }
  }

  lemma ProbeWrites(plan: Plan, run: Run, world: World, o: Outcome)
    requires run.call.Probing? || run.call.ReadingRemote?
    ensures var (r, w) := Step(plan, run, world, o); w == world && r.desired == run.desired && r.made == run.made
  {
  }

  lemma ProbeLeads(plan: Plan, run: Run, world: World, os: seq<Outcome>)
    requires run.call.Probing? && world.row.Some? && 5 < |os|
    ensures Leads(plan, run, world, os, 5, if os[5].Answered? then Concludes(6) else Provisions(6), world.row.value,
                  world.applies)
  {
    var way := if os[5].Answered? then Concludes(6) else Provisions(6);
    ProbeCall(plan, run, world, os[5]);
    ProbeWrites(plan, run, world, os[5]);
    var (r, w) := Step(plan, run, world, os[5]);
    LeadsHere(plan, r, w, os, 6, way);
    LeadsNext(plan, run, world, os, 5, way, world.row.value, world.applies);
  }

  lemma RemoteLeads(plan: Plan, run: Run, world: World, os: seq<Outcome>)
    requires run.call.ReadingRemote? && world.row.Some? && 5 < |os| && world.row.value.configHash != Some(run.made)
    ensures var row := world.row.value;
            Leads(plan, run, world, os, 5, UpdateWay(row, run.made, os), UpdateRow(row, run.made, os),
                  world.applies + UpdateApplies(row, run.made, os))
  {
    var row := world.row.value;
    ProbeCall(plan, run, world, os[5]);
    ProbeWrites(plan, run, world, os[5]);
    var (r, w) := Step(plan, run, world, os[5]);
    if os[5].Threw? {
      FallbackLeads(plan, r, w, os, 6);
    } else if os[5].hash == run.made {
      SyncedLeads(plan, r, w, os, 6);
    } else {
      AppliedLeads(plan, r, w, os, 6);
    }
    LeadsNext(plan, run, world, os, 5, UpdateWay(row, run.made, os), UpdateRow(row, run.made, os),
              world.applies + UpdateApplies(row, run.made, os));
  }

  lemma UpdateLeads(plan: Plan, run: Run, world: World, os: seq<Outcome>)
    requires world.row.Some?
    requires run.call == if world.row.value.configHash == Some(run.made) then Probing else ReadingRemote
    ensures var row := world.row.value;
            Leads(plan, run, world, os, 5, UpdateWay(row, run.made, os), UpdateRow(row, run.made, os),
                  world.applies + UpdateApplies(row, run.made, os))
  {
    if 5 < |os| {
      if run.call.Probing? {
        ProbeLeads(plan, run, world, os);
      } else {
        RemoteLeads(plan, run, world, os);
      }
    }
  }

  lemma MarkedAlike(row: Row, made: Hash, os: seq<Outcome>)
    ensures UpdateWay(row.(status := Reconciling), made, os) == UpdateWay(row, made, os)
    ensures UpdateApplies(row.(status := Reconciling), made, os) == UpdateApplies(row, made, os)
  {
  }

  lemma WayTaken(plan: Plan, row: Row, os: seq<Outcome>)
    requires OpeningMet(os) && !New(row)
    ensures var marked, made := row.(status := Reconciling), Generated(plan, Said(Nth(os, 4)));
            && WayOf(plan, row, os) == UpdateWay(marked, made, os)
            && WayRow(plan, row, os) == UpdateRow(marked, made, os)
            && WayApplies(plan, row, os) == UpdateApplies(marked, made, os)
  {
    MarkedAlike(row, Generated(plan, Said(Nth(os, 4))), os);
  }

  /** A run that has gone through its opening calls, and the world then. */
  ghost predicate HasOpened(plan: Plan, world: World, os: seq<Outcome>, run: Run, here: World) {
    forall x: Run {:trigger Unfold(x)} :: Unfold(x) && x == run ==>
      && world.row.Some? && OpeningMet(os)
      && run == Opened(plan, world.row.value, os) && here == MarkedIf(world, true)
  }

  lemma OpenedWaits(plan: Plan, world: World, os: seq<Outcome>, run: Run, here: World)
    requires HasOpened(plan, world, os, run, here) && world.row.Some? && !New(world.row.value)
    ensures here.row == Some(world.row.value.(status := Reconciling))
    ensures here.applies == world.applies && here.installs == world.installs
    ensures run.made == Generated(plan, Said(Nth(os, 4)))
    ensures run.call == if here.row.value.configHash == Some(run.made) then Probing else ReadingRemote
  {
    assert Unfold(run);
  }

  lemma NewLeads(plan: Plan, world: World, os: seq<Outcome>, run: Run, here: World)
    requires HasOpened(plan, world, os, run, here) && world.row.Some? && New(world.row.value)
    ensures Leads(plan, run, here, os, 5, Provisions(5), world.row.value.(status := Reconciling), world.applies)
  {
    assert Unfold(run);
    LeadsHere(plan, run, here, os, 5, Provisions(5));
  }

  /** The way a run takes after its opening calls, and what is in the row by then. */
  lemma OpenedLeads(plan: Plan, world: World, os: seq<Outcome>, run: Run, here: World)
    requires HasOpened(plan, world, os, run, here) && world.row.Some? && OpeningMet(os)
    ensures Leads(plan, run, here, os, 5, WayOf(plan, world.row.value, os), WayRow(plan, world.row.value, os),
                  world.applies + WayApplies(plan, world.row.value, os))
  {
    if New(world.row.value) {
      NewLeads(plan, world, os, run, here);
    } else {
      KnownLeads(plan, world, os, run, here);
    }
  }

  lemma KnownLeads(plan: Plan, world: World, os: seq<Outcome>, run: Run, here: World)
    requires HasOpened(plan, world, os, run, here) && world.row.Some? && OpeningMet(os) && !New(world.row.value)
    ensures Leads(plan, run, here, os, 5, WayOf(plan, world.row.value, os), WayRow(plan, world.row.value, os),
                  world.applies + WayApplies(plan, world.row.value, os))
  {
    WayTaken(plan, world.row.value, os);
    OpenedWaits(plan, world, os, run, here);
    UpdateLeads(plan, run, here, os);
  }

  // ---- Whole runs -------------------------------------------------------------------------------

  lemma {:induction false} OpeningLeads(plan: Plan, world: World, os: seq<Outcome>, j: nat)
    requires j <= 4 && world.row.Some? && OpeningMet(os)
    ensures |os| >= 5
    ensures AheadFrom(plan, Midway(plan, world.row.value, os, j), MarkedIf(world, j >= 2), os, j)
            == AheadFrom(plan, Opened(plan, world.row.value, os), MarkedIf(world, true), os, 5)
    decreases 4 - j
  {
    var run, here := Midway(plan, world.row.value, os, j), MarkedIf(world, j >= 2);
    assert Met(OPENING[4].1, Nth(os, 4)) && Met(OPENING[j].1, Nth(os, j));
    AheadNext(plan, run, here, os, j);
    if j < 4 {
      OpeningCall(plan, run, here, os[j], j);
      assert Step(plan, run, here, os[j]) == (Midway(plan, world.row.value, os, j + 1), MarkedIf(world, j + 1 >= 2));
      OpeningLeads(plan, world, os, j + 1);
    } else {
      AuditCall(plan, run, here, os[4]);
      assert Step(plan, run, here, os[4]) == (Opened(plan, world.row.value, os), MarkedIf(world, true));
    }
  }

  lemma RunOpens(plan: Plan, world: World, os: seq<Outcome>)
    requires world.row.Some? && OpeningMet(os)
    ensures Execute(plan, FIRST, world, os)
            == AheadFrom(plan, Opened(plan, world.row.value, os), MarkedIf(world, true), os, 5)
  {
    AheadExecutes(plan, FIRST, world, os);
    OpeningLeads(plan, world, os, 0);
    assert os[0..] == os;
  }

  lemma LeadsSomewhere(plan: Plan, run: Run, world: World, os: seq<Outcome>, k: nat, way: Way, w: World)
    returns (r: Run)
    requires w.row.Some? && w.installs == world.installs && !way.Refused? && way.at <= |os|
    requires Leads(plan, run, world, os, k, way, w.row.value, w.applies)
    ensures LeadsTo(plan, run, world, os, k, way, r, w)
  {
    assert Unfold(way);
    assert w == World(Some(w.row.value), w.applies, world.installs);
    r :| LeadsTo(plan, run, world, os, k, way, r, World(Some(w.row.value), w.applies, world.installs));
  }

  function WayStart(way: Way): nat
    requires !way.Refused?
  {
    if way.Provisions? then 0 else CONCLUSION
  }

  /** The way a run takes, and the world when it has taken it. */
  predicate Takes(plan: Plan, world: World, os: seq<Outcome>, way: Way, there: World) {
    && world.row.Some? && way == WayOf(plan, world.row.value, os) && !way.Refused?
    && there == World(Some(WayRow(plan, world.row.value, os)), world.applies + WayApplies(plan, world.row.value, os),
                      world.installs)
  }

  lemma RunLeads(plan: Plan, world: World, os: seq<Outcome>, way: Way, there: World) returns (r: Run)
    requires Takes(plan, world, os, way, there) && way.at <= |os|
    ensures Execute(plan, FIRST, world, os) == AheadFrom(plan, r, there, os, way.at)
    ensures r.call == REST[WayStart(way)].0 && r.desired == Generated(plan, Said(Nth(os, 3))) && there.row.Some?
  {
    RunOpens(plan, world, os);
    var run, here := Opened(plan, world.row.value, os), MarkedIf(world, true);
    OpenedLeads(plan, world, os, run, here);
    r := LeadsSomewhere(plan, run, here, os, 5, way, there);
  }

  /** What a successful run leaves: the row is running, without errors, with the hash
      generated first; it has installed once if its way was to provision. */
  lemma {:induction false} SuccessLeaves(plan: Plan, world: World, os: seq<Outcome>, way: Way, there: World)
    requires Takes(plan, world, os, way, there) && RestMet(os, WayStart(way), way.at)
    ensures Execute(plan, FIRST, world, os).0.call == Done(true)
    ensures Execute(plan, FIRST, world, os).1
            == World(Some(Row(Running, Some(Generated(plan, Said(Nth(os, 3)))), true, 0)), there.applies,
                     there.installs + if way.Provisions? then 1 else 0)
  {
    if way.at >= |os| { RestLate(os, WayStart(way), way.at); }
    var r := RunLeads(plan, world, os, way, there);
    FinishedMeans(plan, r, there, os, way);
  }

  lemma FinishedMeans(plan: Plan, run: Run, world: World, os: seq<Outcome>, way: Way)
    requires world.row.Some? && !way.Refused? && run.call == REST[WayStart(way)].0
    requires RestMet(os, WayStart(way), way.at)
    ensures var (r, w) := AheadFrom(plan, run, world, os, way.at);
            && r.call == Done(true)
            && w == World(Some(Row(Running, Some(run.desired), true, 0)), world.applies,
                          world.installs + if way.Provisions? then 1 else 0)
  {
    RestFinishes(plan, run, world, os, WayStart(way), way.at);
    var (r, w) := AheadFrom(plan, run, world, os, way.at);
    assert w == World(w.row, w.applies, w.installs);
  }

  /** What such a failure leaves of a world. */
  function FailureWorld(plan: Plan, world: World, desired: Hash, os: seq<Outcome>, way: Way, f: nat): World
    requires world.row.Some? && !way.Refused?
  {
    var made := Generated(plan, Said(Nth(os, way.at + 1)));
    World(Some(FailedRow(RowBefore(world.row.value, made, desired, WayStart(way), f), f)),
          world.applies, world.installs + if way.Provisions? && f >= 2 then 1 else 0)
  }

  lemma FailedMeans(plan: Plan, run: Run, world: World, os: seq<Outcome>, way: Way, f: nat)
    requires world.row.Some? && !way.Refused? && run.call == REST[WayStart(way)].0
    requires FailsAt(os, WayStart(way), way.at, f) && Written(os, way.at + f - WayStart(way), f)
    ensures var (r, w) := AheadFrom(plan, run, world, os, way.at);
            r.call == Done(false) && w == FailureWorld(plan, world, run.desired, os, way, f)
  {
    RestFails(plan, run, world, os, WayStart(way), way.at, f);
    assert Unfold(EndWorld(plan, run, world, os, WayStart(way), way.at, f));
  }

  /** What a run leaves that takes its way and fails at a later call, once the failure is
      written down: an error more, or two if it was inside provision, on the row as it was
      by then, which a provision that got through to its save has made anew. */
  lemma {:induction false} FailureLeaves(plan: Plan, world: World, os: seq<Outcome>, way: Way, there: World, f: nat)
    requires Takes(plan, world, os, way, there)
    requires FailsAt(os, WayStart(way), way.at, f) && Written(os, way.at + f - WayStart(way), f)
    ensures Execute(plan, FIRST, world, os).0.call == Done(false)
    ensures Execute(plan, FIRST, world, os).1
            == FailureWorld(plan, there, Generated(plan, Said(Nth(os, 3))), os, way, f)
  {
    var r := RunLeads(plan, world, os, way, there);
    FailedMeans(plan, r, there, os, way, f);
  }

  /** And one that fails in its opening calls. */
  lemma {:induction false} OpeningFails(plan: Plan, world: World, os: seq<Outcome>, f: nat)
    requires world.row.Some? && f <= 4 && f + 2 < |os| && os[f + 1].Answered?
    requires (forall i | 0 <= i < f :: Met(OPENING[i].1, Nth(os, i))) && !Met(OPENING[f].1, os[f])
    ensures var (r, w) := Execute(plan, FIRST, world, os);
            var row := world.row.value;
            && r.call == Done(false)
            && w == world.(row := Some(Row(Errored, row.configHash, true, row.errorCount + 1)))
  {
    AheadExecutes(plan, FIRST, world, os);
    OpeningFailsFrom(plan, world, os, 0, f);
    assert os[0..] == os;
  }

  lemma {:induction false} OpeningFailsFrom(plan: Plan, world: World, os: seq<Outcome>, j: nat, f: nat)
    requires world.row.Some? && j <= f <= 4 && f + 2 < |os| && os[f + 1].Answered?
    requires (forall i | 0 <= i < f :: Met(OPENING[i].1, Nth(os, i))) && !Met(OPENING[f].1, os[f])
    ensures var (r, w) := AheadFrom(plan, Midway(plan, world.row.value, os, j), MarkedIf(world, j >= 2), os, j);
            var row := world.row.value;
            && r.call == Done(false)
            && w == world.(row := Some(Row(Errored, row.configHash, true, row.errorCount + 1)))
    decreases 4 - j
  {
    var run, here := Midway(plan, world.row.value, os, j), MarkedIf(world, j >= 2);
    AheadNext(plan, run, here, os, j);
    if j < f {
      assert Met(OPENING[j].1, Nth(os, j));
      OpeningCall(plan, run, here, os[j], j);
      assert Step(plan, run, here, os[j]) == (Midway(plan, world.row.value, os, j + 1), MarkedIf(world, j + 1 >= 2));
      OpeningFailsFrom(plan, world, os, j + 1, f);
    } else {
      OpeningRefuses(plan, run, here, os[j], j);
      var (r, w) := Step(plan, run, here, os[j]);
      AheadNext(plan, r, w, os, j + 1);
      FailingWrites(plan, r, w, os[j + 1]);
      var (r2, w2) := Step(plan, r, w, os[j + 1]);
      LastLog(plan, r2, w2, os, j + 2);
    }
  }

  lemma OpeningRefuses(plan: Plan, run: Run, world: World, o: Outcome, j: nat)
    requires j <= 4 && run.call == OPENING[j].0 && world.row.Some? && !Met(OPENING[j].1, o)
    ensures var (r, w) := Step(plan, run, world, o); r.call == Failing && w == world
  {
  }
}
