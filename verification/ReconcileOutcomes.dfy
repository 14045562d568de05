/** Which answers make a reconcile succeed, and what row it leaves: told from the answers
    alone, call by call, for the machine of module ReconcileSteps. */
module ReconcileOutcomes {
  import opened Options
  import opened ReconcileSteps

  // ---- What the calls have to answer -------------------------------------------------------

  /** What has to come back for a run to go on: anything, even an error; an answer; or an
      answer that says yes. */
  datatype Need = Anything | Answer | Yes

  predicate Met(need: Need, o: Outcome) {
    match need
    case Anything => true
    case Answer => o.Answered?
    case Yes => o.Answered? && o.yes
  }

  /** The answer to the i-th call; one that never comes counts as an error. */
  function Nth(os: seq<Outcome>, i: nat): Outcome {
    if i < |os| then os[i] else Threw
  }

  function Said(o: Outcome): Hash {
    if o.Answered? then o.hash else ""
  }

  const OPENING := [(Loading, Answer), (Marking, Answer), (LoggingStart, Answer), (Preparing, Answer), (Auditing, Yes)]

  /** Provision and the rest of a reconcile. */
  const REST := [(Resolving, Answer), (ProvisionGenerating, Answer), (Installing, Yes), (Configuring, Yes),
                 (Starting, Answer), (Connecting, Answer), (Checking, Answer), (Saving, Answer), (Upserting, Answer),
                 (WritingSkills, Anything), (Refetching, Answer), (Inspecting, Answer), (Finishing, Answer),
                 (LoggingEnd, Answer)]

  const CONCLUSION := 9

  /** The calls of `REST` from the j-th on are answered as they need, from the k-th answer
      on. */
  predicate RestMet(os: seq<Outcome>, j: nat, k: nat) {
    forall i | j <= i < |REST| :: Met(REST[i].1, Nth(os, k + i - j))
  }

  predicate OpeningMet(os: seq<Outcome>) {
    forall i | 0 <= i < |OPENING| :: Met(OPENING[i].1, Nth(os, i))
  }

  // ---- The way a run takes -------------------------------------------------------------------

  /** After its opening calls a run has no way on, or provisions, or goes on to the skills;
      `at` numbers the answer it waits for then. */
  datatype Way = Refused | Provisions(at: nat) | Concludes(at: nat)

  /** A failed update is written down, then the instance is provisioned. */
  function Fallback(os: seq<Outcome>, k: nat): Way {
    if Nth(os, k).Answered? then Provisions(k + 1) else Refused
  }

  /** The connection's row is written; before that, the row with its new hash. */
  function Linked(os: seq<Outcome>, k: nat): Way {
    if Nth(os, k).Threw? then Fallback(os, k + 1) else Concludes(k + 1)
  }

  function Recorded(os: seq<Outcome>, k: nat): Way {
    if Nth(os, k).Threw? then Fallback(os, k + 1) else Linked(os, k + 1)
  }

  /** config.apply; storing the config afterwards may fail. */
  function Applied(os: seq<Outcome>, k: nat): Way {
    if Nth(os, k).Answered? && Nth(os, k).yes then Recorded(os, k + 2) else Fallback(os, k + 1)
  }

  /** The update of an instance that exists.  `made` is the hash generated for it. */
  function UpdateWay(row: Row, made: Hash, os: seq<Outcome>): Way {
    if row.configHash == Some(made) then // a probe alone
      if Nth(os, 5).Answered? then Concludes(6) else Provisions(6)
    else if Nth(os, 5).Threw? then Fallback(os, 6) // config.get
    else if Said(Nth(os, 5)) == made then // the gateway has it already: record it
      if Nth(os, 6).Answered? then Concludes(7) else Fallback(os, 7)
    else Applied(os, 6)
  }

  /** An instance is new while it is being created, or if no reconcile has left its mark. */
  function WayOf(plan: Plan, row: Row, os: seq<Outcome>): Way {
    if !OpeningMet(os) then Refused
    else if row.status == Creating || (!row.reconciled && row.configHash.None?) then Provisions(5)
    else UpdateWay(row, Generated(plan, Said(Nth(os, 4))), os)
  }

  predicate WayMet(way: Way, os: seq<Outcome>) {
    match way
    case Refused => false
    case Provisions(at) => RestMet(os, 0, at)
    case Concludes(at) => RestMet(os, CONCLUSION, at)
  }

  predicate Succeeds(plan: Plan, world: World, os: seq<Outcome>) {
    world.row.Some? && WayMet(WayOf(plan, world.row.value, os), os)
  }

  // ---- Running from the first answer on ---------------------------------------------------------

  function Ahead(plan: Plan, run: Run, world: World, os: seq<Outcome>): (Run, World)
    decreases |os|
  {
    if os == [] then (run, world)
    else var (r, w) := Step(plan, run, world, os[0]); Ahead(plan, r, w, os[1..])
  }

  lemma {:induction false} ExecuteLast(plan: Plan, run: Run, world: World, os: seq<Outcome>)
    requires os != []
    ensures var (r, w) := Execute(plan, run, world, os[..|os| - 1]);
            Execute(plan, run, world, os) == Step(plan, r, w, os[|os| - 1])
  {
  }

  lemma {:induction false} ExecuteFirst(plan: Plan, run: Run, world: World, os: seq<Outcome>)
    requires os != []
    ensures var (r, w) := Step(plan, run, world, os[0]);
            Execute(plan, run, world, os) == Execute(plan, r, w, os[1..])
    decreases |os|
  {
    var init := os[..|os| - 1];
    if init == [] {
      assert Execute(plan, run, world, init) == (run, world);
    } else {
      ExecuteFirst(plan, run, world, init);
      var (r, w) := Step(plan, run, world, os[0]);
      assert init[1..] == os[1..][..|os[1..]| - 1];
      ExecuteLast(plan, run, world, os);
      ExecuteLast(plan, r, w, os[1..]);
    }
  }

  lemma {:induction false} AheadExecutes(plan: Plan, run: Run, world: World, os: seq<Outcome>)
    ensures Ahead(plan, run, world, os) == Execute(plan, run, world, os)
    decreases |os|
  {
    if os != [] {
      ExecuteFirst(plan, run, world, os);
      var (r, w) := Step(plan, run, world, os[0]);
      AheadExecutes(plan, r, w, os[1..]);
    }
  }

  predicate Ends(plan: Plan, run: Run, world: World, os: seq<Outcome>) {
    Ahead(plan, run, world, os).0.call == Done(true)
  }

  /** The run is on its way to fail. */
  predicate Doomed(call: Call) {
    call.ProvisionFailing? || call.Failing? || call.LoggingFail? || call == Done(false)
  }

  lemma DoomedStep(plan: Plan, run: Run, world: World, o: Outcome)
    requires Doomed(run.call)
    ensures Doomed(Step(plan, run, world, o).0.call)
  {
  }

  lemma {:induction false} DoomedFails(plan: Plan, run: Run, world: World, os: seq<Outcome>)
    requires Doomed(run.call)
    ensures !Ends(plan, run, world, os)
    decreases |os|
  {
    if os != [] {
      DoomedStep(plan, run, world, os[0]);
      var (r, w) := Step(plan, run, world, os[0]);
      DoomedFails(plan, r, w, os[1..]);
    }
  }

  lemma {:induction false} DoneKeeps(plan: Plan, run: Run, world: World, os: seq<Outcome>)
    requires run.call.Done?
    ensures Ahead(plan, run, world, os) == (run, world)
    decreases |os|
  {
    if os != [] {
      DoneKeeps(plan, run, world, os[1..]);
    }
  }

  lemma RowStays(plan: Plan, run: Run, world: World, o: Outcome)
    ensures Step(plan, run, world, o).1.row.Some? <==> world.row.Some?
  {
  }

  function AfterRest(j: nat): Call
    requires j < |REST|
  {
    if j + 1 < |REST| then REST[j + 1].0 else Done(true)
  }

  lemma ProvisionStep(plan: Plan, run: Run, world: World, o: Outcome, j: nat)
    requires j < CONCLUSION && run.call == REST[j].0 && world.row.Some?
    ensures var call := Step(plan, run, world, o).0.call;
            if Met(REST[j].1, o) then call == AfterRest(j) else Doomed(call)
  {
  }

  lemma ConclusionStep(plan: Plan, run: Run, world: World, o: Outcome, j: nat)
    requires CONCLUSION <= j < |REST| && run.call == REST[j].0 && world.row.Some?
    ensures var call := Step(plan, run, world, o).0.call;
            if Met(REST[j].1, o) then call == AfterRest(j) else Doomed(call)
  {
  }

  lemma RestStep(plan: Plan, run: Run, world: World, o: Outcome, j: nat)
    requires j < |REST| && run.call == REST[j].0 && world.row.Some?
    ensures var call := Step(plan, run, world, o).0.call;
            if Met(REST[j].1, o) then call == AfterRest(j) else Doomed(call)
  {
    if j < CONCLUSION { ProvisionStep(plan, run, world, o, j); } else { ConclusionStep(plan, run, world, o, j); }
  }

  lemma RestMetNext(os: seq<Outcome>, j: nat)
    requires j < |REST| && os != []
    ensures RestMet(os, j, 0) <==> Met(REST[j].1, os[0]) && RestMet(os[1..], j + 1, 0)
  {
    forall i | j + 1 <= i < |REST|
      ensures Met(REST[i].1, Nth(os, 0 + i - j)) <==> Met(REST[i].1, Nth(os[1..], 0 + i - (j + 1)))
    {
    }
    assert Nth(os, 0 + j - j) == os[0];
  }

  lemma {:induction false} RestEnds(plan: Plan, run: Run, world: World, os: seq<Outcome>, j: nat)
    requires j < |REST| && run.call == REST[j].0 && world.row.Some?
    ensures Ends(plan, run, world, os) <==> RestMet(os, j, 0)
    decreases |os|
  {
    if os == [] {
      assert !Met(REST[13].1, Nth(os, 13 - j));
    } else {
      RestMetNext(os, j);
      RestStep(plan, run, world, os[0], j);
      RowStays(plan, run, world, os[0]);
      var (r, w) := Step(plan, run, world, os[0]);
      if !Met(REST[j].1, os[0]) {
        DoomedFails(plan, r, w, os[1..]);
      } else if j + 1 < |REST| {
        RestEnds(plan, r, w, os[1..], j + 1);
      } else {
        DoneKeeps(plan, r, w, os[1..]);
      }
    }
  }

  // ---- From some answer on ------------------------------------------------------------------

  function Drop(os: seq<Outcome>, k: nat): seq<Outcome> {
    if k <= |os| then os[k..] else []
  }

  predicate EndsFrom(plan: Plan, run: Run, world: World, os: seq<Outcome>, k: nat) {
    Ends(plan, run, world, Drop(os, k))
  }

  lemma EndsNext(plan: Plan, run: Run, world: World, os: seq<Outcome>, k: nat)
    ensures k < |os| ==>
              var (r, w) := Step(plan, run, world, Nth(os, k));
              EndsFrom(plan, run, world, os, k) <==> EndsFrom(plan, r, w, os, k + 1)
    ensures k >= |os| ==> (EndsFrom(plan, run, world, os, k) <==> run.call == Done(true))
  {
    if k < |os| {
      assert os[k..][0] == os[k] && os[k..][1..] == os[k + 1..];
    }
  }

  lemma RestLate(os: seq<Outcome>, j: nat, k: nat)
    requires j < |REST| && k >= |os|
    ensures !RestMet(os, j, k)
  {
    assert !Met(REST[13].1, Nth(os, k + 13 - j));
  }

  lemma RestEndsFrom(plan: Plan, run: Run, world: World, os: seq<Outcome>, j: nat, k: nat)
    requires j < |REST| && run.call == REST[j].0 && world.row.Some?
    ensures EndsFrom(plan, run, world, os, k) <==> RestMet(os, j, k)
  {
    RestEnds(plan, run, world, Drop(os, k), j);
    forall i | j <= i < |REST|
      ensures Met(REST[i].1, Nth(Drop(os, k), 0 + i - j)) <==> Met(REST[i].1, Nth(os, k + i - j))
    {
    }
  }

  // ---- The update ------------------------------------------------------------------------------

  lemma FallbackEnds(plan: Plan, run: Run, world: World, os: seq<Outcome>, k: nat)
    requires run.call.UpdateFailing? && world.row.Some?
    ensures EndsFrom(plan, run, world, os, k) <==> WayMet(Fallback(os, k), os)
  {
    EndsNext(plan, run, world, os, k);
    if k < |os| {
      var (r, w) := Step(plan, run, world, os[k]);
      RowStays(plan, run, world, os[k]);
      if os[k].Answered? {
        RestEndsFrom(plan, r, w, os, 0, k + 1);
      } else {
        DoomedFails(plan, r, w, Drop(os, k + 1));
      }
    }
  }

  /** Such a call of the update leads on, or to the fallback. */
  lemma UpdateCall(plan: Plan, run: Run, world: World, o: Outcome)
    requires world.row.Some?
    requires run.call.Syncing? || run.call.Applying? || run.call.Persisting? || run.call.Recording? || run.call.Linking?
    ensures var (r, w) := Step(plan, run, world, o);
            && w.row.Some? && r.made == run.made
            && r.call == match run.call
                         case Syncing => if o.Answered? then WritingSkills else UpdateFailing
                         case Applying => if o.Answered? && o.yes then Persisting else UpdateFailing
                         case Persisting => Recording
                         case Recording => if o.Answered? then Linking else UpdateFailing
                         case _ => if o.Answered? then WritingSkills else UpdateFailing
  {
  }

  lemma FallbackLate(os: seq<Outcome>, k: nat)
    requires k >= |os|
    ensures !WayMet(Fallback(os, k), os)
  {
  }

  lemma LinkedEnds(plan: Plan, run: Run, world: World, os: seq<Outcome>, k: nat)
    requires run.call.Linking? && world.row.Some?
    ensures EndsFrom(plan, run, world, os, k) <==> WayMet(Linked(os, k), os)
  {
    EndsNext(plan, run, world, os, k);
    UpdateCall(plan, run, world, Nth(os, k));
    var (r, w) := Step(plan, run, world, Nth(os, k));
    if Nth(os, k).Threw? {
      FallbackEnds(plan, r, w, os, k + 1);
      if k >= |os| { FallbackLate(os, k + 1); }
    } else {
      RestEndsFrom(plan, r, w, os, CONCLUSION, k + 1);
    }
  }

  lemma RecordedEnds(plan: Plan, run: Run, world: World, os: seq<Outcome>, k: nat)
    requires run.call.Recording? && world.row.Some?
    ensures EndsFrom(plan, run, world, os, k) <==> WayMet(Recorded(os, k), os)
  {
    EndsNext(plan, run, world, os, k);
    UpdateCall(plan, run, world, Nth(os, k));
    var (r, w) := Step(plan, run, world, Nth(os, k));
    if Nth(os, k).Threw? {
      FallbackEnds(plan, r, w, os, k + 1);
      if k >= |os| { FallbackLate(os, k + 1); }
    } else {
      LinkedEnds(plan, r, w, os, k + 1);
    }
  }

  lemma StoredEnds(plan: Plan, run: Run, world: World, os: seq<Outcome>, k: nat)
    requires run.call.Persisting? && world.row.Some?
    ensures EndsFrom(plan, run, world, os, k) <==> WayMet(Recorded(os, k + 1), os)
  {
    EndsNext(plan, run, world, os, k);
    UpdateCall(plan, run, world, Nth(os, k));
    var (r, w) := Step(plan, run, world, Nth(os, k));
    if k < |os| {
      RecordedEnds(plan, r, w, os, k + 1);
    } else {
      FallbackLate(os, k + 2);
    }
  }

  lemma AppliedEnds(plan: Plan, run: Run, world: World, os: seq<Outcome>, k: nat)
    requires run.call.Applying? && world.row.Some?
    ensures EndsFrom(plan, run, world, os, k) <==> WayMet(Applied(os, k), os)
  {
    EndsNext(plan, run, world, os, k);
    UpdateCall(plan, run, world, Nth(os, k));
    var (r, w) := Step(plan, run, world, Nth(os, k));
    if Nth(os, k).Answered? && Nth(os, k).yes {
      StoredEnds(plan, r, w, os, k + 1);
    } else {
      FallbackEnds(plan, r, w, os, k + 1);
      if k >= |os| { FallbackLate(os, k + 1); }
    }
  }

  lemma SyncedEnds(plan: Plan, run: Run, world: World, os: seq<Outcome>, k: nat)
    requires run.call.Syncing? && world.row.Some?
    ensures EndsFrom(plan, run, world, os, k)
            <==> WayMet(if Nth(os, k).Answered? then Concludes(k + 1) else Fallback(os, k + 1), os)
  {
    EndsNext(plan, run, world, os, k);
    if k >= |os| {
      FallbackLate(os, k + 1);
    } else {
      UpdateCall(plan, run, world, os[k]);
      var (r, w) := Step(plan, run, world, os[k]);
      if os[k].Answered? {
        RestEndsFrom(plan, r, w, os, CONCLUSION, k + 1);
      } else {
        FallbackEnds(plan, r, w, os, k + 1);
      }
    }
  }

  lemma ProbeCall(plan: Plan, run: Run, world: World, o: Outcome)
    requires world.row.Some? && (run.call.Probing? || run.call.ReadingRemote?)
    ensures var (r, w) := Step(plan, run, world, o);
            && w.row.Some? && r.made == run.made
            && r.call == if run.call.Probing? then if o.Answered? then WritingSkills else Resolving
                         else if o.Threw? then UpdateFailing
                         else if o.hash == run.made then Syncing else Applying
  {
  }

  lemma UpdateEnds(plan: Plan, run: Run, world: World, os: seq<Outcome>, row: Row)
    requires world.row.Some? && run.call == if row.configHash == Some(run.made) then Probing else ReadingRemote
    ensures EndsFrom(plan, run, world, os, 5) <==> WayMet(UpdateWay(row, run.made, os), os)
  {
    EndsNext(plan, run, world, os, 5);
    ProbeCall(plan, run, world, Nth(os, 5));
    var (r, w) := Step(plan, run, world, Nth(os, 5));
    if row.configHash == Some(run.made) {
      RestEndsFrom(plan, r, w, os, if Nth(os, 5).Answered? then CONCLUSION else 0, 6);
      if 5 >= |os| { RestLate(os, 0, 6); }
    } else if Nth(os, 5).Threw? {
      FallbackEnds(plan, r, w, os, 6);
      if 5 >= |os| { FallbackLate(os, 6); }
    } else if Said(Nth(os, 5)) == run.made {
      SyncedEnds(plan, r, w, os, 6);
    } else {
      AppliedEnds(plan, r, w, os, 6);
    }
  }

  // ---- The opening -----------------------------------------------------------------------------

  /** What a run has noted when its opening calls have gone well. */
  function Opened(plan: Plan, row: Row, os: seq<Outcome>): Run {
    var made := Generated(plan, Said(Nth(os, 4)));
    Run(if row.status == Creating || (!row.reconciled && row.configHash.None?) then Resolving
        else if row.configHash == Some(made) then Probing else ReadingRemote,
        row, Generated(plan, Said(Nth(os, 3))), made, false)
  }

  lemma OpeningCall(plan: Plan, run: Run, world: World, o: Outcome, j: nat)
    requires j < 4 && run.call == OPENING[j].0 && world.row.Some?
    ensures var (r, w) := Step(plan, run, world, o);
            if o.Threw? then Doomed(r.call)
            else
              && r == run.(call := OPENING[j + 1].0, loaded := if j == 0 then world.row.value else run.loaded,
                           desired := if j == 3 then Generated(plan, o.hash) else run.desired)
              && w == if j == 1 then world.(row := Some(world.row.value.(status := Reconciling))) else world
  {
  }

  lemma AuditCall(plan: Plan, run: Run, world: World, o: Outcome)
    requires run.call.Auditing? && world.row.Some?
    ensures var (r, w) := Step(plan, run, world, o);
            if !(o.Answered? && o.yes) then Doomed(r.call)
            else
              var made := Generated(plan, o.hash);
              && w == world
              && r == run.(made := made,
                           call := if run.loaded.status == Creating
                                      || (!run.loaded.reconciled && run.loaded.configHash.None?) then Resolving
                                   else if run.loaded.configHash == Some(made) then Probing else ReadingRemote)
  {
  }

  function Midway(plan: Plan, row: Row, os: seq<Outcome>, j: nat): Run
    requires j <= 4
  {
    var desired := if j == 4 then Generated(plan, Said(Nth(os, 3))) else "";
    Run(OPENING[j].0, if j == 0 then BLANK else row, desired, "", false)
  }

  function MarkedIf(world: World, marked: bool): World {
    if marked && world.row.Some? then world.(row := Some(world.row.value.(status := Reconciling))) else world
  }

  predicate OpeningMetFrom(os: seq<Outcome>, j: nat) {
    forall i | j <= i < |OPENING| :: Met(OPENING[i].1, Nth(os, i))
  }

  lemma {:induction false} OpeningEnds(plan: Plan, world: World, os: seq<Outcome>, j: nat)
    requires j <= 4 && world.row.Some?
    ensures EndsFrom(plan, Midway(plan, world.row.value, os, j), MarkedIf(world, j >= 2), os, j)
            <==> OpeningMetFrom(os, j)
                 && EndsFrom(plan, Opened(plan, world.row.value, os), MarkedIf(world, true), os, 5)
    decreases 4 - j
  {
    var row, run, here := world.row.value, Midway(plan, world.row.value, os, j), MarkedIf(world, j >= 2);
    var o := Nth(os, j);
    EndsNext(plan, run, here, os, j);
    var (r, w) := Step(plan, run, here, o);
    if !Met(OPENING[j].1, o) {
      assert !OpeningMetFrom(os, j);
      if j < 4 { OpeningCall(plan, run, here, o, j); } else { AuditCall(plan, run, here, o); }
      if j < |os| { DoomedFails(plan, r, w, Drop(os, j + 1)); }
    } else if j < 4 {
      OpeningCall(plan, run, here, o, j);
      assert r == Midway(plan, row, os, j + 1) && w == MarkedIf(world, j + 1 >= 2);
      OpeningEnds(plan, world, os, j + 1);
    } else {
      AuditCall(plan, run, here, o);
      assert r == Opened(plan, row, os);
    }
  }

  lemma {:induction false} NoRowFails(plan: Plan, world: World, os: seq<Outcome>)
    requires world.row.None?
    ensures !Ends(plan, FIRST, world, os)
  {
    if os != [] {
      var (r, w) := Step(plan, FIRST, world, os[0]);
      DoomedFails(plan, r, w, os[1..]);
    }
  }

  /** Which runs succeed, whatever their calls answer and however many of them throw: each
      call on the way has to answer as the tables say, and the way is decided by the row
      and the hashes. */
  lemma {:induction false} SucceedsExactly(plan: Plan, world: World, os: seq<Outcome>)
    ensures Execute(plan, FIRST, world, os).0.call == Done(true) <==> Succeeds(plan, world, os)
  {
    AheadExecutes(plan, FIRST, world, os);
    if world.row.None? {
      NoRowFails(plan, world, os);
    } else {
      assert os[0..] == os;
      OpeningEnds(plan, world, os, 0);
      assert OpeningMetFrom(os, 0) <==> OpeningMet(os);
      if OpeningMet(os) { OpenedEnds(plan, world, os); }
    }
  }

  lemma OpenedEnds(plan: Plan, world: World, os: seq<Outcome>)
    requires world.row.Some? && OpeningMet(os)
    ensures EndsFrom(plan, Opened(plan, world.row.value, os), MarkedIf(world, true), os, 5)
            <==> WayMet(WayOf(plan, world.row.value, os), os)
  {
    var row, run := world.row.value, Opened(plan, world.row.value, os);
    if run.call.Resolving? {
      RestEndsFrom(plan, run, MarkedIf(world, true), os, 0, 5);
    } else {
      UpdateEnds(plan, run, MarkedIf(world, true), os, row);
    }
  }

  /** In particular, for a new instance: all nineteen calls answer, but for that of the
      skills, which may fail; the audit lets it pass, and install and configure report
      success. */
  lemma {:induction false} NewSucceedsExactly(plan: Plan, world: World, os: seq<Outcome>)
    requires world.row.Some? && (world.row.value.status == Creating
                                 || (!world.row.value.reconciled && world.row.value.configHash.None?))
    ensures Execute(plan, FIRST, world, os).0.call == Done(true)
            <==> && |os| >= 19
                 && (forall i | 0 <= i < 19 && i != 14 :: os[i].Answered?)
                 && os[4].yes && os[7].yes && os[8].yes
  {
    SucceedsExactly(plan, world, os);
    NeedsOfNew(os);
  }

  lemma NeedsOfNew(os: seq<Outcome>)
    ensures OpeningMet(os) && RestMet(os, 0, 5)
            <==> && |os| >= 19
                 && (forall i | 0 <= i < 19 && i != 14 :: os[i].Answered?)
                 && os[4].yes && os[7].yes && os[8].yes
  {
    if OpeningMet(os) && RestMet(os, 0, 5) {
      assert Met(REST[13].1, Nth(os, 5 + 13 - 0)) && Met(REST[2].1, Nth(os, 5 + 2 - 0));
      assert Met(REST[3].1, Nth(os, 5 + 3 - 0)) && Met(OPENING[4].1, Nth(os, 4));
      forall i | 0 <= i < 19 && i != 14 ensures os[i].Answered? {
        if i < 5 {
          assert Met(OPENING[i].1, Nth(os, i));
        } else {
          assert Met(REST[i - 5].1, Nth(os, 5 + (i - 5) - 0));
        }
      }
    }
  }
}
