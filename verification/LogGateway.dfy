/** The log gateway's own code: its handlers change the two tables in place, from one
    reachable state to the next. */
module LogGateway {
  import opened Options
  import opened LogStreaming
  import opened LogStreamingLaws

  class LogStreamingGateway {
    var streams: map<InstanceId, Stream>
    var socketSubscriptions: map<SocketId, set<InstanceId>>
    var open: set<nat>
    var made: nat
    ghost var online: set<SocketId>
    // What has happened so far
    ghost var events: seq<Event>

    constructor ()
      ensures View() == IDLE && Reached()
    {
      streams, socketSubscriptions, open, made, online, events := map[], map[], {}, 0, {}, [];
    }

    ghost predicate Reached()
      reads this
    {
      View() == After(IDLE, events)
    }

    ghost method Note(e: Event)
      requires View() == Next(After(IDLE, events), e)
      modifies this`events
      ensures Reached()
    {
      assert (events + [e])[..|events|] == events;
      events := events + [e];
    }

    ghost function View(): State
      reads this
    {
      State(streams, socketSubscriptions, open, made, online)
    }

    method HandleConnection(socket: SocketId)
      requires Reached()
      modifies this
      ensures Reached()
      ensures View() == Next(old(View()), Connect(socket))
    {
      online := online + {socket};
      Note(Connect(socket));
    }

    /** False if the connection cannot be made; then there is no stream. */
    method MakeStream(instance: InstanceId, connects: bool)
      modifies this`streams, this`open, this`made
      ensures View() == if connects then CreateStream(old(View()), instance) else old(View())
    {
      if connects {
        open := open + {made};
        streams := streams[instance := Stream(made, map[])];
        made := made + 1;
      }
    }

    method HandleSubscribeLogs(socket: SocketId, instance: InstanceId, level: Option<Level>, connects: bool)
      returns (success: bool)
      requires socket in online
      requires Reached()
      modifies this
      ensures Reached()
      ensures View() == Next(old(View()), Subscribe(socket, instance, level, connects))
      ensures success <==> instance != "" && (instance in old(streams) || connects)
      ensures success ==> instance in streams && socket in streams[instance].subscribers
                          && streams[instance].subscribers[socket] == if level.Some? then level.value else "info"
    {
      if instance == "" {
        Note(Subscribe(socket, instance, level, connects));
        return false;
      }
      var subs := if socket in socketSubscriptions then socketSubscriptions[socket] else {};
      socketSubscriptions := socketSubscriptions[socket := subs + {instance}];
      if instance !in streams {
        MakeStream(instance, connects);
        if !connects {
          Note(Subscribe(socket, instance, level, connects));
          return false;
        }
      }
      var stream := streams[instance];
      streams := streams[instance := stream.(subscribers := stream.subscribers[socket := LevelOr(level)])];
      Note(Subscribe(socket, instance, level, connects));
      return true;
    }

    method HandleUnsubscribeLogs(socket: SocketId, instance: InstanceId)
      requires socket in online
      requires Reached()
      modifies this
      ensures Reached()
      ensures View() == Next(old(View()), Unsubscribe(socket, instance))
    {
      Remove(instance, socket);
      if socket in socketSubscriptions {
        socketSubscriptions := socketSubscriptions[socket := socketSubscriptions[socket] - {instance}];
      }
      Note(Unsubscribe(socket, instance));
    }

    method HandleUpdateLevel(socket: SocketId, instance: InstanceId, level: Option<Level>)
      requires socket in online
      requires Reached()
      modifies this
      ensures Reached()
      ensures View() == Next(old(View()), UpdateLevel(socket, instance, level))
      ensures instance in streams && socket in streams[instance].subscribers ==>
                streams[instance].subscribers[socket] == if level.Some? then level.value else "info"
    {
      if instance in streams && socket in streams[instance].subscribers {
        var stream := streams[instance];
        streams := streams[instance := stream.(subscribers := stream.subscribers[socket := LevelOr(level)])];
      }
      Note(UpdateLevel(socket, instance, level));
    }

    method Remove(instance: InstanceId, socket: SocketId)
      modifies this`streams, this`open
      ensures View() == RemoveSubscriber(old(View()), instance, socket)
    {
      if instance !in streams { return; }
      var stream := streams[instance];
      var left := stream.subscribers - {socket};
      if left == map[] {
        open := open - {stream.client};
        streams := streams - {instance};
      } else {
        streams := streams[instance := stream.(subscribers := left)];
      }
    }

    method HandleDisconnectOf(socket: SocketId)
      requires Reached()
      modifies this
      ensures Reached()
      ensures View() == Next(old(View()), Disconnect(socket))
    {
      ghost var s := View();
      ClientsApart(events);
      online := online - {socket};
      if socket !in socketSubscriptions {
        Note(Disconnect(socket));
        return;
      }
      var left := socketSubscriptions[socket];
      ghost var start, done := View(), {};
      RemoveFromNone(start, socket);
      while left != {}
        invariant View() == RemoveFrom(start, done, socket) && events == old(events)
        invariant done + left == s.socketSubscriptions[socket] && done !! left
        decreases |left|
      {
        var instance :| instance in left;
        RemoveFromMore(start, done, instance, socket);
        left := left - {instance};
        done := done + {instance};
        Remove(instance, socket);
      }
      assert done == s.socketSubscriptions[socket];
      socketSubscriptions := socketSubscriptions - {socket};
      Note(Disconnect(socket));
    }

    /** The sockets an entry of this level goes to, one message each: an entry "debug" to
        those that asked for "debug", "error" to all, "warn" to all but those that asked for
        "error", and any other to all but those that asked for "warn" or "error". */
    method BroadcastLog(instance: InstanceId, level: Level) returns (sent: seq<SocketId>)
      ensures forall socket :: socket in sent
                <==> instance in streams && socket in streams[instance].subscribers
                     && var wanted := streams[instance].subscribers[socket];
                        || wanted == "debug" || level == "error"
                        || (level == "warn" && wanted != "error")
                        || (level != "debug" && wanted != "warn" && wanted != "error")
      ensures forall i, j | 0 <= i < j < |sent| :: sent[i] != sent[j]
    {
      sent := [];
      if instance !in streams { return; }
      var subscribers := streams[instance].subscribers;
      var left := subscribers.Keys;
      while left != {}
        invariant left <= subscribers.Keys
        invariant forall socket :: socket in sent
                    <==> socket in subscribers.Keys - left && Order(level) >= Order(subscribers[socket])
        invariant forall i, j | 0 <= i < j < |sent| :: sent[i] != sent[j]
        decreases |left|
      {
        var socket :| socket in left;
        left := left - {socket};
        if Order(level) >= Order(subscribers[socket]) {
          sent := sent + [socket];
        }
      }
    }
  }

  lemma RemoveFromNone(s: State, socket: SocketId)
    ensures RemoveFrom(s, {}, socket) == s
  {
  }

  lemma RemoveFromMore(s: State, done: set<InstanceId>, instance: InstanceId, socket: SocketId)
    requires instance !in done && OwnClients(s)
    ensures RemoveFrom(s, done + {instance}, socket) == RemoveSubscriber(RemoveFrom(s, done, socket), instance, socket)
  {
  }
}
