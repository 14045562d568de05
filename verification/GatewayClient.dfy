/** The gateway client's pending-call table: `request`, the two-phase `agent`,
    `handleResponse`, timeouts, disconnects and the `onDisconnected` callback of
    packages/gateway-client/src/client.ts, over
    packages/gateway-client/src/connection/pending-request-tracker.ts.

    Each event is what runs between two awaits; any order of events is a run. */
module GatewayClient {

  type Id = string

  type Payload = string

  /** A response frame as the router parses it. */
  datatype Reply = Fine(payload: Payload) | Error(payload: Payload)
  datatype Frame = Frame(id: Id, reply: Reply)

  /** The inbound interceptors; one that throws counts as an error reply. */
  type Chain = Reply -> Reply

  /** What a promise waits for: the answer to a request, or one of the two of an agent
      call. */
  datatype Phase = Sole | Ack | Completion
  datatype Slot = Slot(id: Id, phase: Phase)

  /** How a promise was settled; `frame` is the number of the frame that did it. */
  datatype Settlement =
    | Resolved(frame: nat) | Refused(frame: nat)
    | TimedOut | Closed | SendThrew | Unconnected | Skipped | ChainThrew

  /** `outbound` holds requests in the outbound interceptors, `pending` and `armed` the
      table and the timers, `inbound` frames in the inbound interceptors, and `acked`
      agent calls whose ack has come but whose code has not resumed yet.  `attempts`
      counts calls of resolve and reject. */
  datatype State = State(
    connected: bool,
    used: set<Id>,
    outbound: set<Id>,
    pending: map<Id, Slot>,
    armed: set<Slot>,
    inbound: map<Slot, nat>,
    acked: set<Id>,
    settled: map<Slot, Settlement>,
    attempts: multiset<Slot>,
    orphans: set<Slot>,
    frames: seq<Frame>)

  const START := State(false, {}, {}, map[], {}, map[], {}, map[], multiset{}, {}, [])

  /** What the outbound interceptors do with a request. */
  datatype Passage = Passed | Shorted | Threw

  datatype Event =
    | Connect
    | Request(id: Id)
    | Sent(id: Id, passage: Passage, sendThrows: bool)
    | Agent(id: Id, sendThrows: bool)
    | Timeout(slot: Slot)
    | Arrive(frame: Frame)
    | Processed(slot: Slot)
    | Resume(id: Id)
    | Close

  // ---- Handlers -------------------------------------------------------------------------

  /** Only the first call of resolve or reject counts. */
  function Settle(s: State, slot: Slot, st: Settlement): State {
    s.(settled := if slot in s.settled then s.settled else s.settled[slot := st],
       attempts := s.attempts + multiset{slot})
  }

  function Add(s: State, slot: Slot): State {
    s.(pending := s.pending[slot.id := slot], armed := s.armed + {slot})
  }

  function Remove(s: State, id: Id): State {
    if id in s.pending
    then s.(pending := s.pending - {id}, armed := s.armed - {s.pending[id]})
    else s
  }

  /** The promise's executor: arm, add, send; a send that throws rejects the promise
      and leaves the entry. */
  function Execute(s: State, slot: Slot, sendThrows: bool): State {
    var added := Add(s, slot);
    if sendThrows || !s.connected
    then Settle(added, slot, SendThrew).(orphans := s.orphans + {slot})
    else added
  }

  function StartRequest(s: State, id: Id): State {
    if id in s.used then s // ids are drawn fresh
    else
      var t := s.(used := s.used + {id});
      if s.connected then t.(outbound := s.outbound + {id}) else Settle(t, Slot(id, Sole), Unconnected)
  }

  function SendRequest(s: State, id: Id, passage: Passage, sendThrows: bool): State {
    if id !in s.outbound then s
    else
      var t := s.(outbound := s.outbound - {id});
      match passage
      case Passed => Execute(t, Slot(id, Sole), sendThrows)
      case Shorted => Settle(t, Slot(id, Sole), Skipped)
      case Threw => Settle(t, Slot(id, Sole), ChainThrew)
  }

  function StartAgent(s: State, id: Id, sendThrows: bool): State {
    if id in s.used then s
    else
      var t := s.(used := s.used + {id});
      if s.connected then Execute(t, Slot(id, Ack), sendThrows) else Settle(t, Slot(id, Ack), Unconnected)
  }

  function Expire(s: State, slot: Slot): State {
    if slot !in s.armed then s
    else Settle(Remove(s.(armed := s.armed - {slot}), slot.id), slot, TimedOut)
  }

  /** The router drops frames whose id is not pending; the others lose their entry. */
  function Receive(s: State, frame: Frame): State {
    var t := s.(frames := s.frames + [frame]);
    if frame.id !in s.pending then t
    else Remove(t, frame.id).(inbound := s.inbound[s.pending[frame.id] := |s.frames|])
  }

  /** The inbound interceptors are through with a frame. */
  function Deliver(chain: Chain, s: State, slot: Slot): State {
    if slot !in s.inbound || s.inbound[slot] >= |s.frames| then s
    else
      var k := s.inbound[slot];
      var fine := chain(s.frames[k].reply).Fine?;
      var t := Settle(s.(inbound := s.inbound - {slot}), slot, if fine then Resolved(k) else Refused(k));
      if slot.phase.Ack? && fine && slot !in s.settled then t.(acked := s.acked + {slot.id}) else t
  }

  function Continue(s: State, id: Id): State {
    if id !in s.acked then s
    else Add(s.(acked := s.acked - {id}), Slot(id, Completion))
  }

  function Entries(pending: map<Id, Slot>): set<Slot> {
    set id | id in pending :: pending[id]
  }

  /** `rejectAll` after some of the entries. */
  function Rejected(s: State, slots: set<Slot>): State {
    s.(armed := s.armed - slots, settled := (map slot | slot in slots :: Closed) + s.settled,
       attempts := s.attempts + multiset(slots))
  }

  /** `rejectAll`: clear every timer, reject every promise, forget every entry. */
  function RejectAll(s: State): State {
    Rejected(s, Entries(s.pending)).(pending := map[])
  }

  function Next(chain: Chain, s: State, e: Event): State {
    match e
    case Connect => s.(connected := true)
    case Request(id) => StartRequest(s, id)
    case Sent(id, passage, sendThrows) => SendRequest(s, id, passage, sendThrows)
    case Agent(id, sendThrows) => StartAgent(s, id, sendThrows)
    case Timeout(slot) => Expire(s, slot)
    case Arrive(frame) => Receive(s, frame)
    case Processed(slot) => Deliver(chain, s, slot)
    case Resume(id) => Continue(s, id)
    case Close => RejectAll(s).(connected := false)
  }

  function After(chain: Chain, s: State, events: seq<Event>): State {
    if events == [] then s
    else Next(chain, After(chain, s, events[..|events| - 1]), events[|events| - 1])
  }
}
