/** What holds of the gateway client under every order of frames, timeouts, closes,
    interceptor completions and resumptions.

    The tables are shown to carry, for every id, one small automaton of its own; the
    properties of calls are then read off the automaton. */
module GatewayClientLaws {
  import opened Options
  import opened GatewayClient

  // ---- A call by itself -----------------------------------------------------------------

  /** Where a call is.  An orphan's send threw: its caller has the error, but its entry
      stays.  `ack` numbers the frame that acknowledged a call in its second phase. */
  datatype Stage =
    | Unused
    | Outbound
    | Waiting(phase: Phase, orphan: bool, ack: nat)
    | Flying(phase: Phase, orphan: bool, ack: nat, frame: nat)
    | Acked(ack: nat)
    | Ended(phase: Phase, orphan: bool, ack: nat, how: Settlement)

  function End(st: Stage, how: Settlement): Stage
    requires st.Waiting? || st.Flying?
  {
    Ended(st.phase, st.orphan, st.ack, how)
  }

  /** The next stage; of the client it needs the connection and the frames so far. */
  function StageNext(chain: Chain, connected: bool, frames: seq<Frame>, st: Stage, e: Event, id: Id): Stage {
    match e
    case Connect => st
    case Request(x) =>
      if x != id || !st.Unused? then st
      else if connected then Outbound else Ended(Sole, false, 0, Unconnected)
    case Sent(x, passage, sendThrows) =>
      if x != id || !st.Outbound? then st
      else if passage.Passed? then Waiting(Sole, sendThrows || !connected, 0)
      else Ended(Sole, false, 0, if passage.Shorted? then Skipped else ChainThrew)
    case Agent(x, sendThrows) =>
      if x != id || !st.Unused? then st
      else if connected then Waiting(Ack, sendThrows, 0) else Ended(Ack, false, 0, Unconnected)
    case Timeout(slot) => if st.Waiting? && slot == Slot(id, st.phase) then End(st, TimedOut) else st
    case Arrive(frame) =>
      if st.Waiting? && frame.id == id then Flying(st.phase, st.orphan, st.ack, |frames|) else st
    case Processed(slot) =>
      if st.Flying? && slot == Slot(id, st.phase) && st.frame < |frames| then
        var fine := chain(frames[st.frame].reply).Fine?;
        if fine && st.phase.Ack? && !st.orphan then Acked(st.frame)
        else End(st, if fine then Resolved(st.frame) else Refused(st.frame))
      else st
    case Resume(x) => if st.Acked? && x == id then Waiting(Completion, false, st.ack) else st
    case Close => if st.Waiting? then End(st, Closed) else st
  }

  function Follow(chain: Chain, events: seq<Event>, id: Id): Stage {
    if events == [] then Unused
    else
      var s := After(chain, START, events[..|events| - 1]);
      StageNext(chain, s.connected, s.frames, Follow(chain, events[..|events| - 1], id), events[|events| - 1], id)
  }

  /** Frames a stage speaks of: they carry the id, and came in order. */
  predicate StageOk(chain: Chain, frames: seq<Frame>, st: Stage, id: Id) {
    match st
    case Unused => true
    case Outbound => true
    case Waiting(phase, orphan, ack) => phase.Completion? ==> !orphan && Won(chain, frames, ack, id)
    case Flying(phase, orphan, ack, frame) =>
      && frame < |frames| && frames[frame].id == id
      && (phase.Completion? ==> !orphan && ack < frame && Won(chain, frames, ack, id))
    case Acked(ack) => Won(chain, frames, ack, id)
    case Ended(phase, orphan, ack, how) =>
      && how != SendThrew
      && (phase.Completion? ==> !orphan && Won(chain, frames, ack, id))
      && (how.Resolved? ==> Won(chain, frames, how.frame, id) && (phase.Ack? ==> orphan))
      && (how.Refused? ==> how.frame < |frames| && frames[how.frame].id == id
                           && chain(frames[how.frame].reply).Error?)
      && (phase.Completion? && (how.Resolved? || how.Refused?) ==> ack < how.frame)
  }

  /** Frame `k` carries this id, and what the interceptors make of it is no error. */
  predicate Won(chain: Chain, frames: seq<Frame>, k: nat, id: Id) {
    k < |frames| && frames[k].id == id && chain(frames[k].reply).Fine?
  }

  // ---- How the tables show a call ----------------------------------------------------------

  /** What the tables say of a promise, and of a call apart from its promises. */
  datatype SlotView = SlotView(armed: bool, flying: Option<nat>, settled: Option<Settlement>,
                               attempts: nat, orphan: bool)
  datatype IdView = IdView(used: bool, outbound: bool, acked: bool, entry: Option<Slot>)

  function See(s: State, slot: Slot): SlotView {
    SlotView(slot in s.armed,
             if slot in s.inbound then Some(s.inbound[slot]) else None,
             if slot in s.settled then Some(s.settled[slot]) else None,
             s.attempts[slot], slot in s.orphans)
  }

  function Glance(s: State, id: Id): IdView {
    IdView(id in s.used, id in s.outbound, id in s.acked, if id in s.pending then Some(s.pending[id]) else None)
  }

  const CLEAN := SlotView(false, None, None, 0, false)

  function Show(st: Stage): SlotView {
    match st
    case Waiting(_, orphan, _) =>
      SlotView(true, None, if orphan then Some(SendThrew) else None, if orphan then 1 else 0, orphan)
    case Flying(_, orphan, _, frame) =>
      SlotView(false, Some(frame), if orphan then Some(SendThrew) else None, if orphan then 1 else 0, orphan)
    case Ended(_, orphan, _, how) =>
      SlotView(false, None, Some(if orphan then SendThrew else how), if orphan then 2 else 1, orphan)
    case _ => CLEAN
  }

  predicate In(st: Stage, phase: Phase) {
    (st.Waiting? || st.Flying? || st.Ended?) && st.phase == phase
  }

  function ShowSlot(st: Stage, phase: Phase): SlotView {
    if In(st, phase) then Show(st)
    else if phase.Ack? && (st.Acked? || In(st, Completion)) then SlotView(false, None, Some(Resolved(st.ack)), 1, false)
    else CLEAN
  }

  function ShowId(st: Stage, id: Id): IdView {
    IdView(!st.Unused?, st.Outbound?, st.Acked?, if st.Waiting? then Some(Slot(id, st.phase)) else None)
  }

  ghost predicate Shows(s: State, id: Id, st: Stage) {
    Glance(s, id) == ShowId(st, id) && forall phase :: See(s, Slot(id, phase)) == ShowSlot(st, phase)
  }

  // ---- The tables simulate the automata -------------------------------------------------------

  function IdOf(e: Event): Option<Id> {
    match e
    case Connect => None
    case Close => None
    case Request(x) => Some(x)
    case Sent(x, _, _) => Some(x)
    case Agent(x, _) => Some(x)
    case Timeout(slot) => Some(slot.id)
    case Arrive(frame) => Some(frame.id)
    case Processed(slot) => Some(slot.id)
    case Resume(x) => Some(x)
  }

  // A handler leaves the parts of other ids alone

  predicate Alike(s: State, t: State, slot: Slot) {
    See(t, slot) == See(s, slot) && Glance(t, slot.id) == Glance(s, slot.id)
  }

  /** Entries stand under their own id. */
  predicate Home(s: State, id: Id) {
    id in s.pending ==> s.pending[id].id == id
  }

  lemma StartRequestOther(s: State, x: Id, slot: Slot)
    requires x != slot.id
    ensures Alike(s, StartRequest(s, x), slot)
  {
  }

  lemma ExecuteOther(s: State, x: Slot, sendThrows: bool, slot: Slot)
    requires x.id != slot.id
    ensures Alike(s, Execute(s, x, sendThrows), slot)
  {
  }

  lemma SendRequestOther(s: State, x: Id, passage: Passage, sendThrows: bool, slot: Slot)
    requires x != slot.id
    ensures Alike(s, SendRequest(s, x, passage, sendThrows), slot)
  {
    ExecuteOther(s.(outbound := s.outbound - {x}), Slot(x, Sole), sendThrows, slot);
  }

  lemma StartAgentOther(s: State, x: Id, sendThrows: bool, slot: Slot)
    requires x != slot.id
    ensures Alike(s, StartAgent(s, x, sendThrows), slot)
  {
  }

  lemma ExpireOther(s: State, x: Slot, slot: Slot)
    requires x.id != slot.id && Home(s, x.id)
    ensures Alike(s, Expire(s, x), slot)
  {
  }

  lemma ReceiveOther(s: State, x: Frame, slot: Slot)
    requires x.id != slot.id && Home(s, x.id)
    ensures Alike(s, Receive(s, x), slot)
  {
  }

  lemma ContinueOther(s: State, x: Id, slot: Slot)
    requires x != slot.id
    ensures Alike(s, Continue(s, x), slot)
  {
  }

  lemma DeliverOther(chain: Chain, s: State, x: Slot, slot: Slot)
    requires x.id != slot.id
    ensures Alike(s, Deliver(chain, s, x), slot)
  {
  }

  lemma OtherUnmoved(chain: Chain, s: State, e: Event, slot: Slot)
    requires IdOf(e).Some? && IdOf(e) != Some(slot.id) && Home(s, IdOf(e).value)
    ensures Alike(s, Next(chain, s, e), slot)
  {
    match e
    case Request(x) => StartRequestOther(s, x, slot);
    case Sent(x, passage, sendThrows) => SendRequestOther(s, x, passage, sendThrows, slot);
    case Agent(x, sendThrows) => StartAgentOther(s, x, sendThrows, slot);
    case Timeout(x) => ExpireOther(s, x, slot);
    case Arrive(x) => ReceiveOther(s, x, slot);
    case Processed(x) => DeliverOther(chain, s, x, slot);
    case Resume(x) => ContinueOther(s, x, slot);
  }

  lemma OtherStageUnmoved(chain: Chain, connected: bool, frames: seq<Frame>, st: Stage, e: Event, id: Id)
    requires !e.Close? && IdOf(e) != Some(id)
    ensures StageNext(chain, connected, frames, st, e, id) == st
  {
  }

  /** One promise of a call, and the call apart from its promises, show this stage. */
  ghost predicate Follows(t: State, id: Id, st: Stage, phase: Phase) {
    Glance(t, id) == ShowId(st, id) && See(t, Slot(id, phase)) == ShowSlot(st, phase)
  }

  lemma StartRequestOwn(chain: Chain, s: State, id: Id, st: Stage, phase: Phase)
    requires Shows(s, id, st)
    ensures Follows(StartRequest(s, id), id, StageNext(chain, s.connected, s.frames, st, Request(id), id), phase)
  {
    assert See(s, Slot(id, phase)) == ShowSlot(st, phase);
  }

  lemma SendRequestOwn(chain: Chain, s: State, passage: Passage, sendThrows: bool, id: Id, st: Stage, phase: Phase)
    requires Shows(s, id, st)
    ensures Follows(SendRequest(s, id, passage, sendThrows), id,
                    StageNext(chain, s.connected, s.frames, st, Sent(id, passage, sendThrows), id), phase)
  {
    assert See(s, Slot(id, phase)) == ShowSlot(st, phase);
    if st.Outbound? && passage.Passed? {
      ExecuteOwn(s.(outbound := s.outbound - {id}), Slot(id, Sole), sendThrows, phase);
    }
  }

  lemma ExecuteOwn(s: State, slot: Slot, sendThrows: bool, phase: Phase)
    requires See(s, slot) == CLEAN && slot.id !in s.pending && slot.id in s.used && slot.id !in s.outbound
    requires slot.id !in s.acked
    requires !slot.phase.Completion? && (phase != slot.phase ==> See(s, Slot(slot.id, phase)) == CLEAN)
    ensures Follows(Execute(s, slot, sendThrows), slot.id, Waiting(slot.phase, sendThrows || !s.connected, 0), phase)
  {
  }

  lemma {:induction false} StartAgentOwn(chain: Chain, s: State, sendThrows: bool, id: Id, st: Stage, phase: Phase)
    requires Shows(s, id, st)
    ensures Follows(StartAgent(s, id, sendThrows), id,
                    StageNext(chain, s.connected, s.frames, st, Agent(id, sendThrows), id), phase)
  {
    assert See(s, Slot(id, phase)) == ShowSlot(st, phase);
  }

  lemma ExpireSame(chain: Chain, s: State, id: Id, st: Stage, phase: Phase)
    requires Shows(s, id, st)
    ensures Follows(Expire(s, Slot(id, phase)), id,
                    StageNext(chain, s.connected, s.frames, st, Timeout(Slot(id, phase)), id), phase)
  {
    assert See(s, Slot(id, phase)) == ShowSlot(st, phase);
  }

  lemma ExpireBeside(chain: Chain, s: State, x: Slot, id: Id, st: Stage, phase: Phase)
    requires Shows(s, id, st) && x.id == id && x.phase != phase
    ensures Follows(Expire(s, x), id, StageNext(chain, s.connected, s.frames, st, Timeout(x), id), phase)
  {
    assert See(s, x) == ShowSlot(st, x.phase);
    assert See(s, Slot(id, phase)) == ShowSlot(st, phase);
  }

  lemma ReceiveOwn(chain: Chain, s: State, x: Frame, id: Id, st: Stage, phase: Phase)
    requires Shows(s, id, st) && x.id == id
    ensures Follows(Receive(s, x), id, StageNext(chain, s.connected, s.frames, st, Arrive(x), id), phase)
  {
    assert See(s, Slot(id, phase)) == ShowSlot(st, phase);
  }

  lemma DeliverSame(chain: Chain, s: State, id: Id, st: Stage, phase: Phase)
    requires Shows(s, id, st)
    ensures Follows(Deliver(chain, s, Slot(id, phase)), id,
                    StageNext(chain, s.connected, s.frames, st, Processed(Slot(id, phase)), id), phase)
  {
    assert See(s, Slot(id, phase)) == ShowSlot(st, phase);
  }

  lemma DeliverElsewhere(chain: Chain, s: State, x: Slot, slot: Slot)
    requires x != slot
    ensures See(Deliver(chain, s, x), slot) == See(s, slot)
  {
  }

  lemma DeliverBeside(chain: Chain, s: State, x: Slot, id: Id, st: Stage, phase: Phase)
    requires Shows(s, id, st) && x.id == id && x.phase != phase
    ensures Follows(Deliver(chain, s, x), id, StageNext(chain, s.connected, s.frames, st, Processed(x), id), phase)
  {
    assert See(s, Slot(id, phase)) == ShowSlot(st, phase);
    DeliverSame(chain, s, id, st, x.phase);
    DeliverElsewhere(chain, s, x, Slot(id, phase));
  }

  lemma ContinueOwn(chain: Chain, s: State, id: Id, st: Stage, phase: Phase)
    requires Shows(s, id, st)
    ensures Follows(Continue(s, id), id, StageNext(chain, s.connected, s.frames, st, Resume(id), id), phase)
  {
    assert See(s, Slot(id, phase)) == ShowSlot(st, phase);
  }

  lemma CloseSlot(s: State, id: Id, st: Stage, phase: Phase)
    requires Shows(s, id, st) && forall x | x in s.pending :: s.pending[x].id == x
    ensures See(RejectAll(s), Slot(id, phase)) == ShowSlot(if st.Waiting? then End(st, Closed) else st, phase)
  {
    assert See(s, Slot(id, phase)) == ShowSlot(st, phase);
    assert Slot(id, phase) in Entries(s.pending) <==> id in s.pending && s.pending[id] == Slot(id, phase);
  }

  lemma OwnStep(chain: Chain, s: State, e: Event, id: Id, st: Stage, phase: Phase)
    requires IdOf(e) == Some(id) && Shows(s, id, st)
    ensures Follows(Next(chain, s, e), id, StageNext(chain, s.connected, s.frames, st, e, id), phase)
  {
    match e
    case Request(x) => StartRequestOwn(chain, s, id, st, phase);
    case Sent(x, passage, sendThrows) => SendRequestOwn(chain, s, passage, sendThrows, id, st, phase);
    case Agent(x, sendThrows) => StartAgentOwn(chain, s, sendThrows, id, st, phase);
    case Timeout(x) =>
      if x.phase == phase { ExpireSame(chain, s, id, st, phase); } else { ExpireBeside(chain, s, x, id, st, phase); }
    case Arrive(x) => ReceiveOwn(chain, s, x, id, st, phase);
    case Processed(x) =>
      if x.phase == phase { DeliverSame(chain, s, id, st, phase); } else { DeliverBeside(chain, s, x, id, st, phase); }
    case Resume(x) => ContinueOwn(chain, s, id, st, phase);
  }

  ghost predicate AllShow(chain: Chain, s: State, events: seq<Event>) {
    forall id :: Shows(s, id, Follow(chain, events, id))
  }

  lemma StepShows(chain: Chain, s: State, e: Event, id: Id, st: Stage)
    requires Shows(s, id, st) && forall x :: Home(s, x)
    ensures Shows(Next(chain, s, e), id, StageNext(chain, s.connected, s.frames, st, e, id))
  {
    StepFollows(chain, s, e, id, st, Sole);
    StepFollows(chain, s, e, id, st, Ack);
    StepFollows(chain, s, e, id, st, Completion);
    Assemble(Next(chain, s, e), id, StageNext(chain, s.connected, s.frames, st, e, id));
  }

  lemma Assemble(t: State, id: Id, st: Stage)
    requires Follows(t, id, st, Sole) && Follows(t, id, st, Ack) && Follows(t, id, st, Completion)
    ensures Shows(t, id, st)
  {
    forall phase: Phase ensures See(t, Slot(id, phase)) == ShowSlot(st, phase) {
      match phase case Sole => case Ack => case Completion =>
    }
  }

  lemma CloseStep(chain: Chain, s: State, id: Id, st: Stage, phase: Phase)
    requires Shows(s, id, st) && forall x :: Home(s, x)
    ensures Follows(Next(chain, s, Close), id, StageNext(chain, s.connected, s.frames, st, Close, id), phase)
  {
    assert forall x | x in s.pending :: Home(s, x);
    CloseSlot(s, id, st, phase);
  }

  lemma StepFollows(chain: Chain, s: State, e: Event, id: Id, st: Stage, phase: Phase)
    requires Shows(s, id, st) && forall x :: Home(s, x)
    ensures Follows(Next(chain, s, e), id, StageNext(chain, s.connected, s.frames, st, e, id), phase)
  {
    assert See(s, Slot(id, phase)) == ShowSlot(st, phase);
    if IdOf(e) == Some(id) {
      OwnStep(chain, s, e, id, st, phase);
    } else if e.Close? {
      CloseStep(chain, s, id, st, phase);
    } else {
      OtherStageUnmoved(chain, s.connected, s.frames, st, e, id);
      if IdOf(e).Some? { OtherUnmoved(chain, s, e, Slot(id, phase)); }
    }
  }

  /** Over every run the tables show, for every id, exactly the stage that the call's
      own automaton has reached. */
  lemma {:induction false} Simulates(chain: Chain, events: seq<Event>)
    ensures AllShow(chain, After(chain, START, events), events)
  {
    if events == [] {
      assert forall id :: Follow(chain, events, id) == Unused;
    } else {
      var init, e := events[..|events| - 1], events[|events| - 1];
      Simulates(chain, init);
      var s := After(chain, START, init);
      forall x ensures Home(s, x) {
        assert Shows(s, x, Follow(chain, init, x));
      }
      forall id ensures Shows(After(chain, START, events), id, Follow(chain, events, id)) {
        StepShows(chain, s, e, id, Follow(chain, init, id));
      }
    }
  }
}
