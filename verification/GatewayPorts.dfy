/** Gateway ports: `allocateGatewayPort` and its use by `deploy` in
    apps/api/src/onboarding/onboarding.service.ts, and the spacing check of
    `OpenClawProfileRegistrySchema` in packages/core/src/openclaw-profile.ts. */
module GatewayPorts {
  import opened Basics
  import opened Options

  const BASE_PORT := 18789
  const PORT_SPACING := 20
  const MAX_PORT := 65500
  const PAGE_LIMIT := 10000
  const MIN_PORT_SPACING := 20

  // ---- Allocation ------------------------------------------------------------------------

  type Id = string

  /** Bots on a cloud VM of their own all use the base port. */
  datatype Instance = Instance(id: Id, cloud: bool, port: int)

  /** The ports on the one page that is read. */
  function UsedPorts(instances: seq<Instance>): set<int> {
    set i | 0 <= i < |instances| && i < PAGE_LIMIT :: instances[i].port
  }

  predicate Candidate(port: int) {
    BASE_PORT <= port <= MAX_PORT && (port - BASE_PORT) % PORT_SPACING == 0
  }

  ghost predicate LeastFree(used: set<int>, port: int) {
    Candidate(port) && port !in used && forall p | Candidate(p) && p < port :: p in used
  }

  /** The port stands on the page of the first 10000 instances. */
  predicate InUse(instances: seq<Instance>, port: int) {
    exists i :: 0 <= i < |instances| && i < 10000 && instances[i].port == port
  }

  /** Of the ports from 18789 on in steps of 20, the least that is not in use. */
  ghost predicate LeastUnused(instances: seq<Instance>, port: int) {
    && 18789 <= port <= 65500 && (port - 18789) % 20 == 0 && !InUse(instances, port)
    && forall p | 18789 <= p < port && (p - 18789) % 20 == 0 :: InUse(instances, p)
  }

  /** The ports from 18789 to 65500 in steps of 20, from the least one upwards. */
  method AllocateGatewayPort(instances: seq<Instance>) returns (port: Option<int>)
    ensures port.None? <==> forall p | 18789 <= p <= 65500 && (p - 18789) % 20 == 0 :: InUse(instances, p)
    ensures port.Some? ==> LeastUnused(instances, port.value)
    ensures port.Some? ==> LeastFree(UsedPorts(instances), port.value)
    ensures port.None? <==> forall p | Candidate(p) :: p in UsedPorts(instances)
  {
    assert forall p :: InUse(instances, p) <==> p in UsedPorts(instances);
    var usedPorts := UsedPorts(instances);
    var next := BASE_PORT;
    while next in usedPorts
      invariant Candidate(next)
      invariant forall p | Candidate(p) && p < next :: p in usedPorts
      decreases MAX_PORT - next
    {
      NoneBetween(next);
      next := next + PORT_SPACING;
      if next > MAX_PORT {
        return None;
      }
    }
    return Some(next);
  }

  lemma NoneBetween(port: int)
    requires Candidate(port)
    ensures forall p | Candidate(p) && p < port + PORT_SPACING :: p <= port
    ensures port + PORT_SPACING <= MAX_PORT ==> Candidate(port + PORT_SPACING)
  {
  }

  function Candidates(n: nat): set<int> {
    set k | 0 <= k < n :: BASE_PORT + PORT_SPACING * k
  }

  lemma {:induction false} CandidatesCount(n: nat)
    ensures |Candidates(n)| == n
  {
    if n == 0 {
      assert Candidates(0) == {};
    } else {
      CandidatesCount(n - 1);
      assert Candidates(n) == Candidates(n - 1) + {BASE_PORT + PORT_SPACING * (n - 1)};
      assert BASE_PORT + PORT_SPACING * (n - 1) !in Candidates(n - 1);
    }
  }

  /** There are 2336 candidates, so an allocation fails only with at least as many ports
      in use. */
  lemma {:induction false} SlotCount(used: set<int>)
    ensures |Candidates(2336)| == 2336
    ensures forall p :: p in Candidates(2336) <==> 18789 <= p <= 65500 && (p - 18789) % 20 == 0
    ensures (forall p | Candidate(p) :: p in used) ==> |used| >= 2336
  {
    CandidatesCount(2336);
    forall p ensures Candidate(p) <==> p in Candidates(2336) {
      if Candidate(p) {
        var k := (p - BASE_PORT) / PORT_SPACING;
        assert p == BASE_PORT + PORT_SPACING * k && 0 <= k < 2336;
      }
    }
    if forall p | Candidate(p) :: p in used {
      Fewer(Candidates(2336), used);
    }
  }

  // ---- Deploys and deletes -----------------------------------------------------------------

  datatype Event = Deploy(id: Id, cloud: bool) | Delete(id: Id)

  /** The candidates before this one are in use, so the next free one. */
  function FirstFree(used: set<int>, port: int): Option<int>
    requires Candidate(port)
    ensures var free := FirstFree(used, port);
            && (forall p | Candidate(p) && p >= port && (free.Some? ==> p < free.value) :: p in used)
            && (free.Some? ==> Candidate(free.value) && free.value !in used)
    decreases MAX_PORT - port
  {
    NoneBetween(port);
    if port !in used then Some(port)
    else if port + PORT_SPACING > MAX_PORT then None
    else FirstFree(used, port + PORT_SPACING)
  }

  lemma FirstFreeIsLeast(used: set<int>, port: int)
    requires LeastFree(used, port)
    ensures FirstFree(used, BASE_PORT) == Some(port)
  {
  }

  function Without(instances: seq<Instance>, id: Id): seq<Instance> {
    if instances == [] then []
    else
      var init, last := instances[..|instances| - 1], instances[|instances| - 1];
      Without(init, id) + if last.id == id then [] else [last]
  }

  function Next(instances: seq<Instance>, e: Event): seq<Instance> {
    match e
    case Deploy(id, cloud) =>
      var port := FirstFree(UsedPorts(instances), BASE_PORT);
      if port.None? then instances
      else instances + [Instance(id, cloud, if cloud then BASE_PORT else port.value)]
    case Delete(id) => Without(instances, id)
  }

  function After(events: seq<Event>): seq<Instance> {
    if events == [] then [] else Next(After(events[..|events| - 1]), events[|events| - 1])
  }

  /** All instances fit on the page whenever a bot is deployed. */
  ghost predicate PageHolds(events: seq<Event>) {
    forall n | 0 <= n < |events| && events[n].Deploy? :: |After(events[..n])| <= 10000
  }

  predicate Apart(a: int, b: int) {
    a - b >= 20 || b - a >= 20
  }

  /** Bots that share a host have candidate ports, pairwise apart. */
  ghost predicate Spread(instances: seq<Instance>) {
    && (forall i | 0 <= i < |instances| :: Candidate(instances[i].port))
    && (forall i, j | 0 <= i < j < |instances| && !instances[i].cloud && !instances[j].cloud
          :: Apart(instances[i].port, instances[j].port))
  }

  lemma CandidatesApart(p: int, q: int)
    requires Candidate(p) && Candidate(q) && p != q
    ensures Apart(p, q)
  {
  }

  lemma {:induction false} WithoutSpread(instances: seq<Instance>, id: Id)
    requires Spread(instances)
    ensures Spread(Without(instances, id)) && forall x | x in Without(instances, id) :: x in instances
  {
    if instances != [] {
      var init, last := instances[..|instances| - 1], instances[|instances| - 1];
      WithoutSpread(init, id);
      assert last == instances[|instances| - 1];
      forall x | x in Without(init, id)
        ensures x in instances && (!x.cloud && !last.cloud ==> Apart(x.port, last.port))
      {
        var i :| 0 <= i < |init| && init[i] == x;
        assert instances[i] == x;
      }
    }
  }

  /** A delete takes the bot from the list, wherever it stands, and no other. */
  lemma {:induction false} DeletedGone(instances: seq<Instance>, id: Id, x: Instance)
    ensures x in Next(instances, Delete(id)) <==> x in instances && x.id != id
  {
    if instances != [] {
      var init, last := instances[..|instances| - 1], instances[|instances| - 1];
      DeletedGone(init, id, x);
      assert instances == init + [last];
    }
  }

  lemma DeploySpread(instances: seq<Instance>, id: Id, cloud: bool)
    requires Spread(instances) && |instances| <= 10000
    ensures Spread(Next(instances, Deploy(id, cloud)))
  {
    var used := UsedPorts(instances);
    var port := FirstFree(used, BASE_PORT);
    if port.Some? && !cloud {
      forall i | 0 <= i < |instances| ensures Apart(instances[i].port, port.value) {
        assert instances[i].port in used;
        CandidatesApart(instances[i].port, port.value);
      }
    }
  }

  /** Over any deploys and deletes, as long as the instances fit on one page, the ports of
      live bots on shared hosts are at least 20 apart. */
  lemma {:induction false} LivePortsApart(events: seq<Event>)
    requires PageHolds(events)
    ensures Spread(After(events))
  {
    if events != [] {
      var init, e := events[..|events| - 1], events[|events| - 1];
      assert forall n | 0 <= n < |init| :: events[..n] == init[..n] && events[n] == init[n];
      LivePortsApart(init);
      match e
      case Deploy(id, cloud) =>
        assert |After(events[..|init|])| <= 10000;
        DeploySpread(After(init), id, cloud);
      case Delete(id) => WithoutSpread(After(init), id);
    }
  }

  class OnboardingService {
    var instances: seq<Instance>

    constructor ()
      ensures instances == []
    {
      instances := [];
    }

    /** False if there is no port left, on whatever kind of host. */
    method Deploy(id: Id, cloud: bool) returns (deployed: bool)
      modifies this
      ensures instances == Next(old(instances), Event.Deploy(id, cloud))
      ensures deployed <==> exists p :: 18789 <= p <= 65500 && (p - 18789) % 20 == 0 && !InUse(old(instances), p)
      ensures !deployed ==> instances == old(instances)
      ensures deployed ==> |instances| == |old(instances)| + 1 && instances[..|old(instances)|] == old(instances)
                           && var added := instances[|old(instances)|];
                              && added.id == id && added.cloud == cloud
                              && if cloud then added.port == 18789 else LeastUnused(old(instances), added.port)
    {
      var slot := AllocateGatewayPort(instances);
      deployed := slot.Some?;
      if deployed {
        FirstFreeIsLeast(UsedPorts(instances), slot.value);
        instances := instances + [Instance(id, cloud, if cloud then BASE_PORT else slot.value)];
      }
    }
  }

  // ---- The registry's check -------------------------------------------------------------------

  datatype Profile = Profile(name: string, port: int, enabled: bool)

  function EnabledPorts(profiles: seq<Profile>): seq<int> {
    if profiles == [] then []
    else
      var last := profiles[|profiles| - 1];
      EnabledPorts(profiles[..|profiles| - 1]) + if last.enabled then [last.port] else []
  }

  predicate Ascending(ports: seq<int>) {
    forall i | 0 < i < |ports| :: ports[i - 1] <= ports[i]
  }

  ghost predicate PairwiseApart(ports: seq<int>) {
    forall i, j | 0 <= i < j < |ports| :: Apart(ports[i], ports[j])
  }

  function Insert(port: int, sorted: seq<int>): seq<int> {
    if sorted == [] || port <= sorted[0] then [port] + sorted else [sorted[0]] + Insert(port, sorted[1..])
  }

  function Sorted(ports: seq<int>): seq<int> {
    if ports == [] then [] else Insert(ports[0], Sorted(ports[1..]))
  }

  lemma {:induction false} InsertMembers(port: int, sorted: seq<int>)
    ensures forall x :: x in Insert(port, sorted) <==> x in sorted || x == port
  {
    if sorted != [] && port > sorted[0] {
      InsertMembers(port, sorted[1..]);
      assert sorted == [sorted[0]] + sorted[1..];
    }
  }

  lemma AscendsCons(port: int, sorted: seq<int>)
    requires Ascending(sorted) && (sorted != [] ==> port <= sorted[0])
    ensures Ascending([port] + sorted)
  {
    assert forall i | 0 < i <= |sorted| :: ([port] + sorted)[i] == sorted[i - 1];
  }

  lemma {:induction false} InsertAscends(port: int, sorted: seq<int>)
    requires Ascending(sorted)
    ensures Ascending(Insert(port, sorted))
    ensures Insert(port, sorted)[0] == port || (sorted != [] && Insert(port, sorted)[0] == sorted[0])
  {
    if sorted == [] || port <= sorted[0] {
      AscendsCons(port, sorted);
    } else {
      var tail := sorted[1..];
      assert forall i | 0 < i < |tail| :: tail[i - 1] == sorted[i] && tail[i] == sorted[i + 1];
      InsertAscends(port, tail);
      assert tail != [] ==> tail[0] == sorted[1] && sorted[0] <= sorted[1];
      AscendsCons(sorted[0], Insert(port, tail));
    }
  }

  lemma {:induction false} InsertApart(port: int, sorted: seq<int>)
    ensures PairwiseApart(Insert(port, sorted)) <==> PairwiseApart([port] + sorted)
  {
    if sorted != [] && port > sorted[0] {
      var first, tail := sorted[0], sorted[1..];
      InsertApart(port, tail);
      assert sorted == [first] + tail;
      ApartCons(first, Insert(port, tail));
      ApartCons(port, sorted);
      ApartCons(first, tail);
      ApartCons(port, tail);
      AllApartInsert(first, port, tail);
      AllApartCons(port, first, tail);
    }
  }

  ghost predicate AllApart(x: int, ports: seq<int>) {
    forall y | y in ports :: Apart(x, y)
  }

  lemma AllApartInsert(x: int, port: int, sorted: seq<int>)
    ensures AllApart(x, Insert(port, sorted)) <==> AllApart(x, sorted) && Apart(x, port)
  {
    InsertMembers(port, sorted);
  }

  lemma AllApartCons(x: int, first: int, tail: seq<int>)
    ensures AllApart(x, [first] + tail) <==> Apart(first, x) && AllApart(x, tail)
  {
    var all := [first] + tail;
    assert all[0] == first && first in all;
    if AllApart(x, all) {
      forall y | y in tail ensures Apart(x, y) {
        assert y in all;
      }
    }
  }

  lemma ApartCons(x: int, ports: seq<int>)
    ensures PairwiseApart([x] + ports) <==> PairwiseApart(ports) && AllApart(x, ports)
  {
    var all := [x] + ports;
    if PairwiseApart(all) {
      forall i, j | 0 <= i < j < |ports| ensures Apart(ports[i], ports[j]) {
        assert all[i + 1] == ports[i] && all[j + 1] == ports[j];
      }
      forall y | y in ports ensures Apart(x, y) {
        var i :| 0 <= i < |ports| && ports[i] == y;
        assert all[0] == x && all[i + 1] == y;
      }
    }
  }

  lemma {:induction false} SortedAscends(ports: seq<int>)
    ensures Ascending(Sorted(ports)) && (forall x :: x in Sorted(ports) <==> x in ports)
    ensures PairwiseApart(Sorted(ports)) <==> PairwiseApart(ports)
  {
    if ports != [] {
      var rest := ports[1..];
      SortedAscends(rest);
      InsertAscends(ports[0], Sorted(rest));
      InsertMembers(ports[0], Sorted(rest));
      InsertApart(ports[0], Sorted(rest));
      assert ports == [ports[0]] + rest;
      ApartCons(ports[0], rest);
      ApartCons(ports[0], Sorted(rest));
    }
  }

  lemma {:induction false} EnabledMembers(profiles: seq<Profile>, port: int)
    ensures port in EnabledPorts(profiles)
            <==> exists i :: 0 <= i < |profiles| && profiles[i].enabled && profiles[i].port == port
  {
    if profiles != [] {
      var init, last := profiles[..|profiles| - 1], profiles[|profiles| - 1];
      EnabledMembers(init, port);
      assert forall i | 0 <= i < |init| :: init[i] == profiles[i];
    }
  }

  /** Enabled profiles, pairwise apart. */
  ghost predicate ProfilesApart(profiles: seq<Profile>) {
    forall i, j | 0 <= i < j < |profiles| && profiles[i].enabled && profiles[j].enabled ::
      Apart(profiles[i].port, profiles[j].port)
  }

  lemma {:induction false} EnabledApart(profiles: seq<Profile>)
    ensures PairwiseApart(EnabledPorts(profiles)) <==> ProfilesApart(profiles)
  {
    if profiles != [] {
      var init, last := profiles[..|profiles| - 1], profiles[|profiles| - 1];
      EnabledApart(init);
      assert forall i | 0 <= i < |init| :: init[i] == profiles[i];
      if last.enabled {
        ApartSnoc(EnabledPorts(init), last.port);
        EnabledFrom(init, last.port);
      } else {
        assert EnabledPorts(profiles) == EnabledPorts(init);
      }
      if PairwiseApart(EnabledPorts(profiles)) {
        forall i, j | 0 <= i < j < |profiles| && profiles[i].enabled && profiles[j].enabled
          ensures Apart(profiles[i].port, profiles[j].port)
        {
          assert init[i] == profiles[i];
          if j < |init| { assert init[j] == profiles[j]; }
        }
      }
    }
  }

  lemma EnabledFrom(profiles: seq<Profile>, port: int)
    ensures AllApart(port, EnabledPorts(profiles))
            <==> forall i | 0 <= i < |profiles| && profiles[i].enabled :: Apart(profiles[i].port, port)
  {
    if AllApart(port, EnabledPorts(profiles)) {
      forall i | 0 <= i < |profiles| && profiles[i].enabled ensures Apart(profiles[i].port, port) {
        EnabledMembers(profiles, profiles[i].port);
      }
    } else {
      var x :| x in EnabledPorts(profiles) && !Apart(port, x);
      EnabledMembers(profiles, x);
    }
  }

  lemma ApartSnoc(ports: seq<int>, x: int)
    ensures PairwiseApart(ports + [x]) <==> PairwiseApart(ports) && AllApart(x, ports)
  {
    var all := ports + [x];
    if PairwiseApart(all) {
      forall i, j | 0 <= i < j < |ports| ensures Apart(ports[i], ports[j]) {
        assert Apart(all[i], all[j]);
      }
      forall y | y in ports ensures Apart(x, y) {
        var i :| 0 <= i < |ports| && ports[i] == y;
        assert Apart(all[i], all[|ports|]);
      }
    }
    if PairwiseApart(ports) && AllApart(x, ports) {
      forall i, j | 0 <= i < j < |all| ensures Apart(all[i], all[j]) {
        if j < |ports| { assert Apart(ports[i], ports[j]); } else { assert ports[i] in ports; }
      }
    }
  }

  predicate NeighboursApart(ports: seq<int>) {
    forall i | 0 < i < |ports| :: ports[i] - ports[i - 1] >= MIN_PORT_SPACING
  }

  lemma {:induction false} NeighboursSuffice(ports: seq<int>)
    requires Ascending(ports)
    ensures NeighboursApart(ports) <==> PairwiseApart(ports)
  {
    if NeighboursApart(ports) {
      forall i, j | 0 <= i < j < |ports| ensures ports[j] - ports[i] >= MIN_PORT_SPACING {
        Climbs(ports, i, j);
      }
    }
  }

  lemma Climbs(ports: seq<int>, i: nat, j: nat)
    requires NeighboursApart(ports) && i < j < |ports|
    ensures ports[j] - ports[i] >= MIN_PORT_SPACING
  {
    if i + 1 < j { Climbs(ports, i, j - 1); }
  }

  /** The registry accepts a list exactly when the ports of its enabled profiles are
      pairwise at least 20 apart, in whatever order they come. */
  method PortsSpaced(profiles: seq<Profile>) returns (accepted: bool)
    ensures accepted <==>
              forall i, j | 0 <= i < j < |profiles| && profiles[i].enabled && profiles[j].enabled ::
                profiles[i].port - profiles[j].port >= 20 || profiles[j].port - profiles[i].port >= 20
  {
    EnabledApart(profiles);
    var ports := Sorted(EnabledPorts(profiles));
    SortedAscends(EnabledPorts(profiles));
    NeighboursSuffice(ports);
    var i := 1;
    while i < |ports|
      invariant 1 <= i
      invariant forall k | 0 < k < i && k < |ports| :: ports[k] - ports[k - 1] >= MIN_PORT_SPACING
    {
      if ports[i] - ports[i - 1] < MIN_PORT_SPACING {
        return false;
      }
      i := i + 1;
    }
    return true;
  }
}
