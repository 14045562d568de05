/** Every reachable state of the gateway client, whatever the order of events. */
module GatewayClientRuns {
  import opened Basics
  import opened Options
  import opened GatewayClient
  import opened GatewayClientLaws

  lemma StageOkStep(chain: Chain, connected: bool, frames: seq<Frame>, more: seq<Frame>, st: Stage, e: Event, id: Id)
    requires StageOk(chain, frames, st, id) && frames <= more
    requires more == if e.Arrive? then frames + [e.frame] else frames
    ensures StageOk(chain, more, StageNext(chain, connected, frames, st, e, id), id)
  {
  }

  lemma FramesGrow(chain: Chain, s: State, e: Event)
    ensures Next(chain, s, e).frames == if e.Arrive? then s.frames + [e.frame] else s.frames
  {
  }

  lemma {:induction false} StageOkAlways(chain: Chain, events: seq<Event>, id: Id)
    ensures StageOk(chain, After(chain, START, events).frames, Follow(chain, events, id), id)
  {
    if events != [] {
      var init, e := events[..|events| - 1], events[|events| - 1];
      StageOkAlways(chain, init, id);
      var s := After(chain, START, init);
      FramesGrow(chain, s, e);
      StageOkStep(chain, s.connected, s.frames, Next(chain, s, e).frames, Follow(chain, init, id), e, id);
    }
  }

  lemma Shown(chain: Chain, events: seq<Event>, slot: Slot)
    ensures var s, st := After(chain, START, events), Follow(chain, events, slot.id);
            && Glance(s, slot.id) == ShowId(st, slot.id) && See(s, slot) == ShowSlot(st, slot.phase)
            && StageOk(chain, s.frames, st, slot.id)
  {
    Simulates(chain, events);
    StageOkAlways(chain, events, slot.id);
    var st := Follow(chain, events, slot.id);
    assert Shows(After(chain, START, events), slot.id, st);
    assert See(After(chain, START, events), Slot(slot.id, slot.phase)) == ShowSlot(st, slot.phase);
  }

  /** A promise has an armed timer exactly while it is in the table. */
  lemma {:induction false} TimersMatchTable(chain: Chain, events: seq<Event>, slot: Slot)
    ensures var s := After(chain, START, events);
            slot in s.armed <==> slot.id in s.pending && s.pending[slot.id] == slot
  {
    Shown(chain, events, slot);
  }

  /** A promise that is resolved has what the interceptors made of a frame with its own
      id; one that is refused, likewise. */
  lemma {:induction false} OwnFrame(chain: Chain, events: seq<Event>, slot: Slot)
    requires slot in After(chain, START, events).settled
    ensures var s := After(chain, START, events);
            && (s.settled[slot].Resolved? ==> Won(chain, s.frames, s.settled[slot].frame, slot.id))
            && (s.settled[slot].Refused? ==>
                  var k := s.settled[slot].frame;
                  k < |s.frames| && s.frames[k].id == slot.id && chain(s.frames[k].reply).Error?)
  {
    Shown(chain, events, slot);
  }

  /** An agent call's completion, whether it comes as an answer or as an error, is taken
      from a later frame than its ack. */
  lemma {:induction false} CompletionAfterAck(chain: Chain, events: seq<Event>, id: Id)
    ensures var s := After(chain, START, events);
            var ack, completion := Slot(id, Ack), Slot(id, Completion);
            completion in s.settled ==>
              && ack in s.settled && s.settled[ack].Resolved?
              && (s.settled[completion].Resolved? || s.settled[completion].Refused? ==>
                    s.settled[ack].frame < s.settled[completion].frame)
  {
    Shown(chain, events, Slot(id, Ack));
    Shown(chain, events, Slot(id, Completion));
  }

  /** A call is in the outbound interceptors, in the table, in the inbound interceptors,
      or between ack and completion. */
  predicate Underway(s: State, id: Id) {
    id in s.outbound || id in s.pending || id in s.acked
    || Slot(id, Sole) in s.inbound || Slot(id, Ack) in s.inbound || Slot(id, Completion) in s.inbound
  }

  /** The caller has its answer: a request's promise is settled, or an ack's promise is
      settled without an ack, or a completion's promise is settled. */
  predicate Answered(s: State, id: Id) {
    || Slot(id, Sole) in s.settled
    || (Slot(id, Ack) in s.settled && !s.settled[Slot(id, Ack)].Resolved?)
    || Slot(id, Completion) in s.settled
  }

  lemma UnderwayStage(chain: Chain, events: seq<Event>, id: Id)
    ensures var s, st := After(chain, START, events), Follow(chain, events, id);
            && (Underway(s, id) <==> !st.Unused? && !st.Ended?)
            && (id in s.used <==> !st.Unused?)
            && (Answered(s, id) <==> st.Ended? || ((st.Waiting? || st.Flying?) && st.orphan))
  {
    Shown(chain, events, Slot(id, Sole));
    Shown(chain, events, Slot(id, Ack));
    Shown(chain, events, Slot(id, Completion));
  }

  /** No call is lost: each is underway or answered, and one that is underway is answered
      exactly if its send threw. */
  lemma {:induction false} NoCallLost(chain: Chain, events: seq<Event>, id: Id)
    ensures var s := After(chain, START, events);
            && (id in s.used <==> Underway(s, id) || Answered(s, id))
            && (Underway(s, id) ==> (Answered(s, id) <==> Slot(id, Sole) in s.orphans || Slot(id, Ack) in s.orphans))
  {
    UnderwayStage(chain, events, id);
    Shown(chain, events, Slot(id, Sole));
    Shown(chain, events, Slot(id, Ack));
  }

  // ---- Promises whose send threw ---------------------------------------------------------------

  /** A promise is resolved or rejected a second time, and never a third, if and only if
      its send threw and its call is over; it keeps the send's error. */
  lemma {:induction false} SettlesOnce(chain: Chain, events: seq<Event>, slot: Slot)
    ensures var s := After(chain, START, events);
            && s.attempts[slot] <= 2
            && (slot in s.settled <==> s.attempts[slot] > 0)
            && (s.attempts[slot] > 1 <==> slot in s.orphans && !Underway(s, slot.id))
            && (slot in s.orphans ==> slot in s.settled && s.settled[slot] == SendThrew)
  {
    Shown(chain, events, slot);
    UnderwayStage(chain, events, slot.id);
    Tries(chain, After(chain, START, events).frames, Follow(chain, events, slot.id), slot);
  }

  lemma Tries(chain: Chain, frames: seq<Frame>, st: Stage, slot: Slot)
    requires StageOk(chain, frames, st, slot.id)
    ensures var v := ShowSlot(st, slot.phase);
            && v.attempts <= 2
            && (v.settled.Some? <==> v.attempts > 0)
            && (v.attempts > 1 <==> v.orphan && st.Ended?)
            && (v.orphan ==> v.settled == Some(SendThrew) && !st.Unused?)
  {
  }

  /** The event sends for this promise, and the send throws: because it is told to, or
      because the connection went away while the request was in the interceptors. */
  predicate Throws(s: State, e: Event, slot: Slot) {
    match e
    case Sent(id, passage, sendThrows) =>
      id in s.outbound && slot == Slot(id, Sole) && passage.Passed? && (sendThrows || !s.connected)
    case Agent(id, sendThrows) => id !in s.used && slot == Slot(id, Ack) && s.connected && sendThrows
    case _ => false
  }

  ghost predicate ThrowsAt(chain: Chain, events: seq<Event>, slot: Slot, n: nat) {
    n < |events| && Throws(After(chain, START, events[..n]), events[n], slot)
  }

  lemma SentOrphans(s: State, id: Id, passage: Passage, sendThrows: bool, slot: Slot)
    ensures slot in SendRequest(s, id, passage, sendThrows).orphans
            <==> slot in s.orphans || Throws(s, Sent(id, passage, sendThrows), slot)
  {
  }

  lemma AgentOrphans(s: State, id: Id, sendThrows: bool, slot: Slot)
    ensures slot in StartAgent(s, id, sendThrows).orphans
            <==> slot in s.orphans || Throws(s, Agent(id, sendThrows), slot)
  {
  }

  lemma OtherOrphans(chain: Chain, s: State, e: Event)
    requires !e.Sent? && !e.Agent?
    ensures Next(chain, s, e).orphans == s.orphans
  {
  }

  lemma OrphansNext(chain: Chain, s: State, e: Event, slot: Slot)
    ensures slot in Next(chain, s, e).orphans <==> slot in s.orphans || Throws(s, e, slot)
  {
    match e
    case Sent(id, passage, sendThrows) => SentOrphans(s, id, passage, sendThrows, slot);
    case Agent(id, sendThrows) => AgentOrphans(s, id, sendThrows, slot);
    case _ => OtherOrphans(chain, s, e);
  }

  lemma ThrowsNext(chain: Chain, events: seq<Event>, slot: Slot)
    requires events != []
    ensures var init := events[..|events| - 1];
            (exists n: nat :: ThrowsAt(chain, events, slot, n))
            <==> (exists n: nat :: ThrowsAt(chain, init, slot, n)) || ThrowsAt(chain, events, slot, |init|)
  {
    var init := events[..|events| - 1];
    forall n: nat | n < |init| ensures ThrowsAt(chain, events, slot, n) <==> ThrowsAt(chain, init, slot, n) {
      assert events[..n] == init[..n] && events[n] == init[n];
    }
    if n: nat :| ThrowsAt(chain, init, slot, n) {
      assert ThrowsAt(chain, events, slot, n);
    }
  }

  /** The promises whose send threw, told from the events alone. */
  lemma {:induction false} OrphansExactly(chain: Chain, events: seq<Event>, slot: Slot)
    ensures slot in After(chain, START, events).orphans <==> exists n: nat :: ThrowsAt(chain, events, slot, n)
  {
    if events != [] {
      OrphansExactly(chain, events[..|events| - 1], slot);
      ThrowsNext(chain, events, slot);
      OrphansNext(chain, After(chain, START, events[..|events| - 1]), events[|events| - 1], slot);
    }
  }

  lemma FollowNext(chain: Chain, init: seq<Event>, e: Event, id: Id)
    ensures var s := After(chain, START, init);
            && Follow(chain, init + [e], id)
               == StageNext(chain, s.connected, s.frames, Follow(chain, init, id), e, id)
            && After(chain, START, init + [e]) == Next(chain, s, e)
  {
    assert (init + [e])[..|init|] == init;
  }

  /** Where a call is after `k` of the events; asserting `Unfold(k)` brings it up. */
  ghost predicate Stands(chain: Chain, events: seq<Event>, k: nat, id: Id, st: Stage, connected: bool) {
    forall x: nat {:trigger Unfold(x)} :: Unfold(x) && x == k ==>
      && k <= |events| && After(chain, START, events[..k]).connected == connected
      && Follow(chain, events[..k], id) == st
  }

  lemma ConnectedNext(chain: Chain, s: State, e: Event)
    ensures Next(chain, s, e).connected == (e.Connect? || (s.connected && !e.Close?))
  {
  }

  lemma ConnectedAfter(chain: Chain, init: seq<Event>, e: Event)
    ensures After(chain, START, init + [e]).connected
            == (e.Connect? || (After(chain, START, init).connected && !e.Close?))
  {
    assert (init + [e])[..|init|] == init;
    ConnectedNext(chain, After(chain, START, init), e);
  }

  lemma StageAlone(chain: Chain, init: seq<Event>, e: Event, id: Id)
    requires !e.Processed? && !e.Arrive?
    ensures Follow(chain, init + [e], id)
            == StageNext(chain, After(chain, START, init).connected, [], Follow(chain, init, id), e, id)
  {
    assert (init + [e])[..|init|] == init;
    FramesUnused(chain, After(chain, START, init).connected, After(chain, START, init).frames,
                 Follow(chain, init, id), e, id);
  }

  lemma FramesUnused(chain: Chain, connected: bool, frames: seq<Frame>, st: Stage, e: Event, id: Id)
    requires !e.Processed? && !e.Arrive?
    ensures StageNext(chain, connected, frames, st, e, id) == StageNext(chain, connected, [], st, e, id)
  {
  }

  lemma StandsNext(chain: Chain, events: seq<Event>, k: nat, id: Id, st: Stage, connected: bool, next: Stage)
    requires Stands(chain, events, k, id, st, connected) && k < |events| && !events[k].Processed? && !events[k].Arrive?
    requires next == StageNext(chain, connected, [], st, events[k], id)
    ensures Stands(chain, events, k + 1, id, next, events[k].Connect? || (connected && !events[k].Close?))
  {
    assert Unfold(k);
    assert events[..k] + [events[k]] == events[..k + 1];
    StageAlone(chain, events[..k], events[k], id);
    ConnectedAfter(chain, events[..k], events[k]);
  }

  /** A request whose connection goes away while it is in the interceptors. */
  function Dropped(id: Id): seq<Event> {
    [Connect, Request(id), Close, Sent(id, Passed, false), Timeout(Slot(id, Sole))]
  }

  /** Its promise is rejected by the send and once more by the timer. */
  lemma {:induction false} RejectedTwice(chain: Chain, id: Id)
    ensures var slot, s := Slot(id, Sole), After(chain, START, Dropped(id));
            s.attempts[slot] == 2 && slot in s.settled && s.settled[slot] == SendThrew
  {
    var es := Dropped(id);
    assert Stands(chain, es, 0, id, Unused, false);
    StandsNext(chain, es, 0, id, Unused, false, Unused);
    StandsNext(chain, es, 1, id, Unused, true, Outbound);
    StandsNext(chain, es, 2, id, Outbound, true, Outbound);
    StandsNext(chain, es, 3, id, Outbound, false, Waiting(Sole, true, 0));
    StandsNext(chain, es, 4, id, Waiting(Sole, true, 0), false, Ended(Sole, true, 0, TimedOut));
    EndedTwice(chain, es, id, false);
  }

  lemma EndedTwice(chain: Chain, events: seq<Event>, id: Id, connected: bool)
    requires Stands(chain, events, |events|, id, Ended(Sole, true, 0, TimedOut), connected)
    ensures var slot, s := Slot(id, Sole), After(chain, START, events);
            s.attempts[slot] == 2 && slot in s.settled && s.settled[slot] == SendThrew
  {
    assert Unfold<nat>(|events|) && events[..|events|] == events;
    Shown(chain, events, Slot(id, Sole));
  }

  // ---- Acks and completions ----------------------------------------------------------------------

  /** Between the frame of an agent call's ack and the code that resumes after it there is
      no entry under its id. */
  predicate BetweenPhases(s: State, id: Id) {
    Slot(id, Ack) in s.inbound || id in s.acked
  }

  /** A frame is taken for the completion of an agent call if and only if its code has
      resumed by then and still waits. */
  lemma {:induction false} CompletionTaken(chain: Chain, events: seq<Event>, id: Id, reply: Reply)
    ensures var s := After(chain, START, events);
            var t := Next(chain, s, Arrive(Frame(id, reply)));
            var slot := Slot(id, Completion);
            slot in t.inbound && t.inbound[slot] == |s.frames| <==> id in s.pending && s.pending[id] == slot
  {
    Shown(chain, events, Slot(id, Completion));
    FollowNext(chain, events, Arrive(Frame(id, reply)), id);
    Shown(chain, events + [Arrive(Frame(id, reply))], Slot(id, Completion));
  }

  /** What a call can come to that is between its phases, if no frame comes any more. */
  predicate Unanswered(st: Stage) {
    || (st.Flying? && st.phase.Ack?)
    || st.Acked?
    || (st.Waiting? && st.phase.Completion?)
    || (st.Ended? && st.phase.Ack?)
    || (st.Ended? && st.phase.Completion? && (st.how.TimedOut? || st.how.Closed?))
  }

  lemma UnansweredStep(chain: Chain, connected: bool, frames: seq<Frame>, st: Stage, e: Event, id: Id)
    requires Unanswered(st) && !(e.Arrive? && e.frame.id == id)
    ensures Unanswered(StageNext(chain, connected, frames, st, e, id))
  {
  }

  ghost predicate NoFrameFor(events: seq<Event>, id: Id) {
    forall i | 0 <= i < |events| :: events[i].Arrive? ==> events[i].frame.id != id
  }

  lemma {:induction false} UnansweredStays(chain: Chain, events: seq<Event>, more: seq<Event>, id: Id)
    requires Unanswered(Follow(chain, events, id)) && NoFrameFor(more, id)
    ensures Unanswered(Follow(chain, events + more, id))
  {
    if more == [] {
      assert events + more == events;
    } else {
      var init, last := more[..|more| - 1], more[|more| - 1];
      UnansweredStays(chain, events, init, id);
      assert events + more == (events + init) + [last];
      var s := After(chain, START, events + init);
      FollowNext(chain, events + init, last, id);
      UnansweredStep(chain, s.connected, s.frames, Follow(chain, events + init, id), last, id);
    }
  }

  /** A frame that comes between the phases is lost, be it the completion: it leaves
      nothing but its record, and whatever happens afterwards, unless another frame comes
      the completion is never answered but by its timer or a close. */
  lemma {:induction false} CompletionLost(chain: Chain, events: seq<Event>, more: seq<Event>, id: Id, reply: Reply)
    requires BetweenPhases(After(chain, START, events), id) && NoFrameFor(more, id)
    ensures var s, frame := After(chain, START, events), Frame(id, reply);
            var t := After(chain, START, events + [Arrive(frame)] + more);
            var slot := Slot(id, Completion);
            && Next(chain, s, Arrive(frame)) == s.(frames := s.frames + [frame])
            && (slot in t.settled ==> t.settled[slot] == TimedOut || t.settled[slot] == Closed)
  {
    Shown(chain, events, Slot(id, Ack));
    FrameDropped(chain, After(chain, START, events), Frame(id, reply));
    FollowNext(chain, events, Arrive(Frame(id, reply)), id);
    UnansweredStays(chain, events + [Arrive(Frame(id, reply))], more, id);
    Shown(chain, events + [Arrive(Frame(id, reply))] + more, Slot(id, Completion));
  }

  lemma EndedStep(chain: Chain, connected: bool, frames: seq<Frame>, st: Stage, e: Event, id: Id)
    requires st.Ended?
    ensures StageNext(chain, connected, frames, st, e, id) == st
  {
  }

  lemma FollowLast(chain: Chain, events: seq<Event>, id: Id)
    requires events != [] && Follow(chain, events[..|events| - 1], id).Ended?
    ensures Follow(chain, events, id) == Follow(chain, events[..|events| - 1], id)
  {
    var s := After(chain, START, events[..|events| - 1]);
    EndedStep(chain, s.connected, s.frames, Follow(chain, events[..|events| - 1], id), events[|events| - 1], id);
  }

  lemma {:induction false} EndedStays(chain: Chain, events: seq<Event>, more: seq<Event>, id: Id)
    requires Follow(chain, events, id).Ended?
    ensures Follow(chain, events + more, id) == Follow(chain, events, id)
  {
    if more == [] {
      assert events + more == events;
    } else {
      var init := more[..|more| - 1];
      EndedStays(chain, events, init, id);
      var all := events + more;
      assert all[..|all| - 1] == events + init;
      FollowLast(chain, all, id);
    }
  }

  /** Once a call is answered and no longer underway, that is for good: whatever happens,
      its promises keep what they have and are not tried again, and a frame with its id
      is dropped. */
  lemma {:induction false} LateFramesChangeNothing(chain: Chain, events: seq<Event>, more: seq<Event>, id: Id,
                                                     phase: Phase, reply: Reply)
    requires id in After(chain, START, events).used && !Underway(After(chain, START, events), id)
    ensures var s, t, slot := After(chain, START, events), After(chain, START, events + more), Slot(id, phase);
            && See(t, slot) == See(s, slot) && !Underway(t, id)
            && Next(chain, t, Arrive(Frame(id, reply))) == t.(frames := t.frames + [Frame(id, reply)])
  {
    UnderwayStage(chain, events, id);
    EndedStays(chain, events, more, id);
    UnderwayStage(chain, events + more, id);
    SlotShown(chain, events, Slot(id, phase));
    SlotShown(chain, events + more, Slot(id, phase));
    FrameDropped(chain, After(chain, START, events + more), Frame(id, reply));
  }

  lemma SlotShown(chain: Chain, events: seq<Event>, slot: Slot)
    ensures See(After(chain, START, events), slot) == ShowSlot(Follow(chain, events, slot.id), slot.phase)
  {
    Shown(chain, events, slot);
  }

  lemma FrameDropped(chain: Chain, s: State, frame: Frame)
    requires frame.id !in s.pending
    ensures Next(chain, s, Arrive(frame)) == s.(frames := s.frames + [frame])
  {
  }

  /** A close leaves no entry and no timer, and every promise that was in the table has
      been settled. */
  lemma {:induction false} CloseRejectsAll(chain: Chain, events: seq<Event>)
    ensures var s := After(chain, START, events);
            var t := Next(chain, s, Close);
            && t.pending == map[] && t.armed == {}
            && forall id | id in s.pending :: s.pending[id] in t.settled
  {
    var s := After(chain, START, events);
    var t := Next(chain, s, Close);
    forall slot | slot in s.armed ensures slot in Entries(s.pending) {
      TimersMatchTable(chain, events, slot);
    }
    forall id | id in s.pending ensures s.pending[id] in t.settled {
      assert s.pending[id] in Entries(s.pending);
    }
  }

  lemma {:induction false} SettledKept(chain: Chain, s: State, e: Event, slot: Slot)
    requires slot in s.settled
    ensures slot in Next(chain, s, e).settled && Next(chain, s, e).settled[slot] == s.settled[slot]
  {
    match e
    case Connect =>
    case Request(id) => assert Keeps(s, StartRequest(s, id), slot);
    case Sent(id, passage, sendThrows) => SentKept(s, id, passage, sendThrows, slot);
    case Agent(id, sendThrows) => AgentKept(s, id, sendThrows, slot);
    case Timeout(x) => assert Keeps(s, Expire(s, x), slot);
    case Arrive(frame) => assert Keeps(s, Receive(s, frame), slot);
    case Processed(x) => assert Keeps(s, Deliver(chain, s, x), slot);
    case Resume(id) => assert Keeps(s, Continue(s, id), slot);
    case Close => assert Keeps(s, RejectAll(s), slot);
  }

  lemma SentKept(s: State, id: Id, passage: Passage, sendThrows: bool, slot: Slot)
    ensures Keeps(s, SendRequest(s, id, passage, sendThrows), slot)
  {
  }

  lemma AgentKept(s: State, id: Id, sendThrows: bool, slot: Slot)
    ensures Keeps(s, StartAgent(s, id, sendThrows), slot)
  {
  }

  predicate Keeps(s: State, t: State, slot: Slot) {
    slot in s.settled ==> slot in t.settled && t.settled[slot] == s.settled[slot]
  }

  /** What a promise was settled with never changes. */
  lemma {:induction false} SettledForGood(chain: Chain, s: State, events: seq<Event>, slot: Slot)
    requires slot in s.settled
    ensures slot in After(chain, s, events).settled && After(chain, s, events).settled[slot] == s.settled[slot]
  {
    if events != [] {
      SettledForGood(chain, s, events[..|events| - 1], slot);
      SettledKept(chain, After(chain, s, events[..|events| - 1]), events[|events| - 1], slot);
    }
  }

  /** Entries stand under their own id. */
  lemma EntriesHome(chain: Chain, events: seq<Event>)
    ensures var s := After(chain, START, events); forall id | id in s.pending :: s.pending[id].id == id
  {
    Simulates(chain, events);
    var s := After(chain, START, events);
    forall id | id in s.pending ensures s.pending[id].id == id {
      assert Shows(s, id, Follow(chain, events, id));
    }
  }

  /** A frame in the inbound interceptors is one that came. */
  lemma FrameKnown(chain: Chain, events: seq<Event>, slot: Slot)
    requires slot in After(chain, START, events).inbound
    ensures After(chain, START, events).inbound[slot] < |After(chain, START, events).frames|
  {
    Shown(chain, events, slot);
  }
}
