/** The gateway client's own code: its methods and callbacks change the tables in place,
    from one reachable state to the next. */
module GatewayClientCode {
  import opened Basics
  import opened GatewayClient
  import opened GatewayClientRuns

  /** The client's fields and the promises it has made.  Ghost fields only count. */
  class Client {
    const chain: Chain
    var connected: bool
    var outbound: set<Id>
    var pending: map<Id, Slot>
    var armed: set<Slot>
    var inbound: map<Slot, nat>
    var acked: set<Id>
    var settled: map<Slot, Settlement>
    var frames: seq<Frame>
    ghost var used: set<Id>
    ghost var attempts: multiset<Slot>
    ghost var orphans: set<Slot>
    // What has happened so far
    ghost var events: seq<Event>

    constructor (chain: Chain)
      ensures this.chain == chain && View() == START && Reached()
    {
      this.chain := chain;
      connected, outbound, pending, armed := false, {}, map[], {};
      inbound, acked, settled, frames := map[], {}, map[], [];
      used, attempts, orphans, events := {}, multiset{}, {}, [];
    }

    ghost predicate Reached()
      reads this
    {
      Reaches(chain, events, View())
    }

    /** An event has been handled in the state s. */
    ghost method Note(s: State, e: Event)
      requires Reaches(chain, events, s) && View() == Next(chain, s, e)
      modifies this`events
      ensures Reached()
    {
      ReachesNext(chain, events, s, e);
      events := events + [e];
    }

    ghost function View(): State
      reads this
    {
      State(connected, used, outbound, pending, armed, inbound, acked, settled, attempts, orphans, frames)
    }

    /** A call of a promise's resolve or reject. */
    method SettlePromise(slot: Slot, st: Settlement)
      modifies this`settled, this`attempts
      ensures View() == Settle(old(View()), slot, st)
    {
      if slot !in settled {
        settled := settled[slot := st];
      }
      attempts := attempts + multiset{slot};
    }

    method AddEntry(slot: Slot)
      modifies this`pending, this`armed
      ensures View() == Add(old(View()), slot)
    {
      armed := armed + {slot};
      pending := pending[slot.id := slot];
    }

    method RemoveEntry(id: Id)
      modifies this`pending, this`armed
      ensures View() == Remove(old(View()), id)
    {
      if id in pending {
        armed := armed - {pending[id]};
        pending := pending - {id};
      }
    }

    /** The body of a promise that sends. */
    method Promise(slot: Slot, sendThrows: bool)
      modifies this`pending, this`armed, this`settled, this`attempts, this`orphans
      ensures View() == Execute(old(View()), slot, sendThrows)
    {
      AddEntry(slot);
      if sendThrows || !connected {
        SettlePromise(slot, SendThrew);
        orphans := orphans + {slot};
      }
    }

    method OnConnect()
      requires Reached()
      modifies this
      ensures View() == Next(chain, old(View()), Connect)
      ensures Reached()
    {
      connected := true;
      Note(old(View()), Connect);
    }

    method OnRequest(id: Id)
      requires id !in used
      requires Reached()
      modifies this
      ensures View() == Next(chain, old(View()), Request(id))
      ensures Reached()
    {
      used := used + {id};
      if !connected {
        SettlePromise(Slot(id, Sole), Unconnected);
        Note(old(View()), Request(id));
        return;
      }
      outbound := outbound + {id};
      Note(old(View()), Request(id));
    }

    method OnSent(id: Id, passage: Passage, sendThrows: bool)
      requires id in outbound
      requires Reached()
      modifies this
      ensures View() == Next(chain, old(View()), Sent(id, passage, sendThrows))
      ensures Reached()
    {
      outbound := outbound - {id};
      match passage {
        case Shorted => SettlePromise(Slot(id, Sole), Skipped);
        case Threw => SettlePromise(Slot(id, Sole), ChainThrew);
        case Passed => Promise(Slot(id, Sole), sendThrows);
      }
      Note(old(View()), Sent(id, passage, sendThrows));
    }

    method OnAgent(id: Id, sendThrows: bool)
      requires id !in used
      requires Reached()
      modifies this
      ensures View() == Next(chain, old(View()), Agent(id, sendThrows))
      ensures Reached()
    {
      used := used + {id};
      if !connected {
        SettlePromise(Slot(id, Ack), Unconnected);
        Note(old(View()), Agent(id, sendThrows));
        return;
      }
      Promise(Slot(id, Ack), sendThrows);
      Note(old(View()), Agent(id, sendThrows));
    }

    method OnTimeout(slot: Slot)
      requires slot in armed
      requires Reached()
      modifies this
      ensures View() == Next(chain, old(View()), Timeout(slot))
      ensures Reached()
    {
      armed := armed - {slot}; // a timer fires once
      RemoveEntry(slot.id);
      SettlePromise(slot, TimedOut);
      Note(old(View()), Timeout(slot));
    }

    method OnFrame(frame: Frame)
      requires Reached()
      modifies this
      ensures View() == Next(chain, old(View()), Arrive(frame))
      ensures Reached()
    {
      frames := frames + [frame];
      if frame.id in pending {
        var slot := pending[frame.id];
        RemoveEntry(frame.id);
        inbound := inbound[slot := |frames| - 1];
      }
      Note(old(View()), Arrive(frame));
    }

    method OnProcessed(slot: Slot)
      requires slot in inbound
      requires Reached()
      modifies this
      ensures View() == Next(chain, old(View()), Processed(slot))
      ensures Reached()
    {
      ReachesWhat(chain, events, View());
      FrameKnown(chain, events, slot);
      var k := inbound[slot];
      inbound := inbound - {slot};
      var processed := chain(frames[k].reply);
      if processed.Error? {
        SettlePromise(slot, Refused(k));
      } else {
        if slot.phase.Ack? && slot !in settled {
          acked := acked + {slot.id};
        }
        SettlePromise(slot, Resolved(k));
      }
      Note(old(View()), Processed(slot));
    }

    method OnResume(id: Id)
      requires id in acked
      requires Reached()
      modifies this
      ensures View() == Next(chain, old(View()), Resume(id))
      ensures Reached()
    {
      acked := acked - {id};
      AddEntry(Slot(id, Completion));
      Note(old(View()), Resume(id));
    }

    /** `rejectAll`, entry by entry in whatever order the table has them. */
    method RejectAllEntries()
      requires forall id | id in pending :: pending[id].id == id
      modifies this`pending, this`armed, this`settled, this`attempts
      ensures View() == RejectAll(old(View()))
    {
      ghost var s := View();
      HalfwayStart(s);
      while pending != map[]
        invariant Part(pending, s.pending)
        invariant View() == Halfway(s, pending)
        decreases |pending.Keys|
      {
        var id :| id in pending;
        HalfwayNext(s, pending, id);
        RejectEntry(id);
      }
      HalfwayEnd(s);
    }

    method RejectEntry(id: Id)
      requires id in pending
      modifies this`pending, this`armed, this`settled, this`attempts
      ensures pending == old(pending) - {id}
      ensures View() == Settle(old(View()).(armed := old(armed) - {old(pending)[id]}), old(pending)[id], Closed)
                        .(pending := pending)
    {
      armed := armed - {pending[id]};
      SettlePromise(pending[id], Closed);
      pending := pending - {id};
    }

    method OnClose()
      requires Reached()
      modifies this
      ensures View() == Next(chain, old(View()), Close)
      ensures Reached()
    {
      ReachesWhat(chain, events, View());
      EntriesHome(chain, events);
      RejectAllEntries();
      connected := false;
      Note(old(View()), Close);
    }
  }

  /** The state after these events, said so that it is not unfolded unasked. */
  ghost predicate Reaches(chain: Chain, events: seq<Event>, s: State) {
    forall t {:trigger Unfold(t)} :: Unfold(t) && t == s ==> t == After(chain, START, events)
  }

  lemma ReachesWhat(chain: Chain, events: seq<Event>, s: State)
    ensures Reaches(chain, events, s) <==> s == After(chain, START, events)
  {
    assert Unfold(s);
  }

  lemma ReachesNext(chain: Chain, events: seq<Event>, s: State, e: Event)
    requires Reaches(chain, events, s)
    ensures Reaches(chain, events + [e], Next(chain, s, e))
  {
    ReachesWhat(chain, events, s);
    assert (events + [e])[..|events|] == events;
    ReachesWhat(chain, events + [e], Next(chain, s, e));
  }

  /** Halfway through `rejectAll`, with these entries left. */
  function Halfway(s: State, left: map<Id, Slot>): State {
    Rejected(s, Entries(s.pending) - Entries(left)).(pending := left)
  }

  lemma HalfwayStart(s: State)
    ensures Halfway(s, s.pending) == s
  {
    assert Entries(s.pending) - Entries(s.pending) == {};
  }

  lemma HalfwayEnd(s: State)
    ensures Halfway(s, map[]) == RejectAll(s)
  {
    assert Entries(s.pending) - Entries(map[]) == Entries(s.pending);
  }

  lemma HalfwayNext(s: State, left: map<Id, Slot>, id: Id)
    requires Part(left, s.pending) && id in left
    ensures Halfway(s, left - {id})
            == (var t := Halfway(s, left);
                Settle(t.(armed := t.armed - {left[id]}), left[id], Closed).(pending := left - {id}))
  {
    EntryOut(s.pending, left, id);
    RejectedNext(s, Entries(s.pending) - Entries(left), left[id]);
  }

  /** A table with some entries gone. */
  ghost predicate Part(pending: map<Id, Slot>, all: map<Id, Slot>) {
    && (forall id | id in pending :: id in all && pending[id] == all[id])
    && (forall id | id in all :: all[id].id == id)
  }

  lemma EntryOut(all: map<Id, Slot>, pending: map<Id, Slot>, id: Id)
    requires Part(pending, all) && id in pending
    ensures pending[id] !in Entries(all) - Entries(pending)
    ensures Entries(all) - Entries(pending - {id}) == Entries(all) - Entries(pending) + {pending[id]}
  {
    var slot := pending[id];
    assert all[id] == slot && slot in Entries(all) && slot in Entries(pending);
    assert Entries(pending - {id}) == Entries(pending) - {slot} by {
      forall x | x in pending && x != id ensures pending[x] in Entries(pending - {id}) && pending[x] != slot {
        assert x in pending - {id} && (pending - {id})[x] == pending[x];
      }
    }
  }

  lemma {:induction false} RejectedNext(s: State, slots: set<Slot>, slot: Slot)
    requires slot !in slots
    ensures Rejected(s, slots + {slot})
            == Settle(Rejected(s, slots).(armed := Rejected(s, slots).armed - {slot}), slot, Closed)
  {
    assert multiset(slots + {slot}) == multiset(slots) + multiset{slot};
  }
}
