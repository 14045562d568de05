/** The stream table and its reverse index keep one simple relation: who is subscribed
    to what, at which level. */
module LogStreamingLaws {
  import opened LogStreaming

  type Pair = (SocketId, InstanceId)
  type Relation = map<Pair, Level>

  // ---- The simple view -------------------------------------------------------------------

  ghost predicate Served(r: Relation, instance: InstanceId) {
    exists socket :: (socket, instance) in r
  }

  /** Subscriptions as their users see them: a new one needs a connection unless someone
      is subscribed already; all of a socket's end when it disconnects. */
  ghost function SimpleNext(r: Relation, online: set<SocketId>, e: Event): Relation {
    match e
    case Connect(_) => r
    case Subscribe(socket, instance, level, connects) =>
      if socket in online && instance != "" && (connects || Served(r, instance))
      then r[(socket, instance) := LevelOr(level)] else r
    case Unsubscribe(socket, instance) => if socket in online then r - {(socket, instance)} else r
    case UpdateLevel(socket, instance, level) =>
      if socket in online && (socket, instance) in r then r[(socket, instance) := LevelOr(level)] else r
    case Disconnect(socket) => map p | p in r && p.0 != socket :: r[p]
  }

  ghost function SimpleAfter(events: seq<Event>): Relation {
    if events == [] then map[]
    else
      var init := events[..|events| - 1];
      SimpleNext(SimpleAfter(init), After(IDLE, init).online, events[|events| - 1])
  }

  // ---- The tables --------------------------------------------------------------------------

  predicate Subscribed(s: State, socket: SocketId, instance: InstanceId) {
    instance in s.streams && socket in s.streams[instance].subscribers
  }

  /** A pair stands in the tables as in the relation, and if it is there the socket is
      online and its reverse index knows. */
  predicate PairOk(s: State, r: Relation, socket: SocketId, instance: InstanceId) {
    && (Subscribed(s, socket, instance) <==> (socket, instance) in r)
    && (Subscribed(s, socket, instance) ==>
          && s.streams[instance].subscribers[socket] == r[(socket, instance)]
          && socket in s.online && instance in Subscriptions(s, socket))
  }

  ghost predicate AllServe(s: State) {
    forall i | i in s.streams :: s.streams[i].subscribers != map[]
  }

  function ClientsOf(s: State): map<InstanceId, nat> {
    map i | i in s.streams :: s.streams[i].client
  }

  /** The open gateway clients are those of the streams, one each. */
  ghost predicate ClientsOk(clients: map<InstanceId, nat>, open: set<nat>, made: nat) {
    && (forall i, j | i in clients && j in clients && i != j :: clients[i] != clients[j])
    && (forall i | i in clients :: clients[i] < made && clients[i] in open)
    && (forall c | c in open :: exists i :: i in clients && clients[i] == c)
  }

  ghost predicate StreamsOk(s: State) {
    AllServe(s) && ClientsOk(ClientsOf(s), s.open, s.made)
  }

  ghost predicate Ok(s: State, r: Relation) {
    StreamsOk(s) && forall socket, instance :: PairOk(s, r, socket, instance)
  }

  lemma ServedIsStreamed(s: State, r: Relation, instance: InstanceId)
    requires Ok(s, r)
    ensures Served(r, instance) <==> instance in s.streams
  {
    if instance in s.streams {
      var subscribers := s.streams[instance].subscribers;
      assert (forall x :: x !in subscribers) ==> subscribers == map[];
      var socket :| socket in subscribers;
      assert PairOk(s, r, socket, instance);
      assert (socket, instance) in r;
    }
    if Served(r, instance) {
      var socket :| (socket, instance) in r;
      assert PairOk(s, r, socket, instance);
    }
  }

  lemma SubscribePair(s: State, r: Relation, e: Event, socket: SocketId, instance: InstanceId)
    requires Ok(s, r) && e.Subscribe?
    ensures PairOk(Next(s, e), SimpleNext(r, s.online, e), socket, instance)
  {
    assert PairOk(s, r, socket, instance);
    ServedIsStreamed(s, r, e.instance);
  }

  lemma RemoveSubscribed(s: State, i: InstanceId, x: SocketId, socket: SocketId, instance: InstanceId)
    ensures var t := RemoveSubscriber(s, i, x);
            && (Subscribed(t, socket, instance) <==> Subscribed(s, socket, instance) && !(socket == x && instance == i))
            && (Subscribed(t, socket, instance) ==>
                  t.streams[instance].subscribers[socket] == s.streams[instance].subscribers[socket])
  {
    if Subscribed(s, socket, instance) && socket != x {
      assert socket in s.streams[instance].subscribers - {x};
    }
  }

  lemma RemoveFromSubscribed(s: State, instances: set<InstanceId>, x: SocketId, socket: SocketId, instance: InstanceId)
    ensures var t := RemoveFrom(s, instances, x);
            && (Subscribed(t, socket, instance) <==>
                  Subscribed(s, socket, instance) && !(socket == x && instance in instances))
            && (Subscribed(t, socket, instance) ==>
                  t.streams[instance].subscribers[socket] == s.streams[instance].subscribers[socket])
  {
    if Subscribed(s, socket, instance) && socket != x {
      assert socket in s.streams[instance].subscribers - {x};
    }
  }

  lemma UnsubscribePair(s: State, r: Relation, x: SocketId, i: InstanceId, socket: SocketId, instance: InstanceId)
    requires Ok(s, r)
    ensures PairOk(Next(s, Unsubscribe(x, i)), SimpleNext(r, s.online, Unsubscribe(x, i)), socket, instance)
  {
    assert PairOk(s, r, socket, instance);
    RemoveSubscribed(s, i, x, socket, instance);
  }

  lemma UpdatePair(s: State, r: Relation, e: Event, socket: SocketId, instance: InstanceId)
    requires Ok(s, r) && (e.UpdateLevel? || e.Connect?)
    ensures PairOk(Next(s, e), SimpleNext(r, s.online, e), socket, instance)
  {
    assert PairOk(s, r, socket, instance);
    if !e.Connect? { assert PairOk(s, r, e.socket, e.instance); }
  }

  lemma DisconnectPair(s: State, r: Relation, x: SocketId, socket: SocketId, instance: InstanceId)
    requires Ok(s, r)
    ensures PairOk(Next(s, Disconnect(x)), SimpleNext(r, s.online, Disconnect(x)), socket, instance)
  {
    assert PairOk(s, r, socket, instance);
    RemoveFromSubscribed(s.(online := s.online - {x}), Subscriptions(s, x), x, socket, instance);
  }

  lemma {:induction false} SubscribeStreams(s: State, r: Relation, e: Event)
    requires Ok(s, r) && e.Subscribe?
    ensures StreamsOk(Next(s, e))
  {
    var t := Next(s, e);
    if e.socket !in s.online || e.instance == "" || (e.instance !in s.streams && !e.connects) {
      assert t.streams == s.streams;
    } else {
      assert e.socket in t.streams[e.instance].subscribers;
      assert AllServe(t);
      if e.instance in s.streams {
        assert ClientsOf(t) == ClientsOf(s);
      } else {
        assert ClientsOf(t) == ClientsOf(s)[e.instance := s.made];
        OneMoreClient(ClientsOf(s), s.open, s.made, e.instance);
      }
    }
  }

  lemma OneMoreClient(clients: map<InstanceId, nat>, open: set<nat>, made: nat, instance: InstanceId)
    requires ClientsOk(clients, open, made) && instance !in clients
    ensures ClientsOk(clients[instance := made], open + {made}, made + 1)
  {
    var more := clients[instance := made];
    forall c | c in open + {made} ensures exists i :: i in more && more[i] == c {
      if c in open {
        var i :| i in clients && clients[i] == c;
        assert more[i] == c;
      } else {
        assert more[instance] == c;
      }
    }
  }

  lemma FewerClients(clients: map<InstanceId, nat>, open: set<nat>, made: nat, gone: set<InstanceId>)
    requires ClientsOk(clients, open, made) && gone <= clients.Keys
    ensures ClientsOk(clients - gone, open - (set i | i in gone :: clients[i]), made)
  {
    var left, rest := clients - gone, open - (set i | i in gone :: clients[i]);
    forall c | c in rest ensures exists i :: i in left && left[i] == c {
      var i :| i in clients && clients[i] == c;
      assert i in left && left[i] == c;
    }
    forall i | i in left ensures left[i] in rest {
    }
  }

  lemma RemoveStreams(s: State, instance: InstanceId, socket: SocketId)
    requires StreamsOk(s)
    ensures StreamsOk(RemoveSubscriber(s, instance, socket))
  {
    var t := RemoveSubscriber(s, instance, socket);
    assert AllServe(t);
    if instance in s.streams && instance !in t.streams {
      CloseStream(s, t, instance);
    } else {
      assert ClientsOf(t) == ClientsOf(s);
    }
  }

  lemma CloseStream(s: State, t: State, instance: InstanceId)
    requires ClientsOk(ClientsOf(s), s.open, s.made) && instance in s.streams
    requires t.streams == s.streams - {instance} && t.open == s.open - {s.streams[instance].client} && t.made == s.made
    ensures ClientsOk(ClientsOf(t), t.open, t.made)
  {
    var clients := ClientsOf(s);
    assert ClientsOf(t) == clients - {instance};
    var gone := {instance};
    FewerClients(clients, s.open, s.made, gone);
    assert (set i | i in gone :: clients[i]) == {clients[instance]} by {
      assert instance in gone;
    }
  }

  lemma RemoveFromStreams(s: State, instances: set<InstanceId>, socket: SocketId)
    requires StreamsOk(s)
    ensures StreamsOk(RemoveFrom(s, instances, socket))
  {
    var t := RemoveFrom(s, instances, socket);
    var emptied := set i | i in instances && i in s.streams && s.streams[i].subscribers - {socket} == map[];
    assert ClientsOf(t) == ClientsOf(s) - emptied;
    FewerClients(ClientsOf(s), s.open, s.made, emptied);
    assert (set i | i in emptied :: ClientsOf(s)[i]) == (set i | i in emptied :: s.streams[i].client);
  }

  lemma RelevelStreams(s: State, socket: SocketId, instance: InstanceId, level: Level)
    requires StreamsOk(s)
    ensures StreamsOk(Relevel(s, socket, instance, level))
  {
    var t := Relevel(s, socket, instance, level);
    assert ClientsOf(t) == ClientsOf(s);
    if Subscribed(s, socket, instance) {
      assert socket in t.streams[instance].subscribers;
    }
  }

  lemma StepOk(s: State, r: Relation, e: Event)
    requires Ok(s, r)
    ensures Ok(Next(s, e), SimpleNext(r, s.online, e))
  {
    forall socket, instance ensures PairOk(Next(s, e), SimpleNext(r, s.online, e), socket, instance) {
      match e
      case Subscribe(_, _, _, _) => SubscribePair(s, r, e, socket, instance);
      case Disconnect(x) => DisconnectPair(s, r, x, socket, instance);
      case Unsubscribe(x, i) => UnsubscribePair(s, r, x, i, socket, instance);
      case _ => UpdatePair(s, r, e, socket, instance);
    }
    match e
    case Connect(_) =>
    case Subscribe(_, _, _, _) => SubscribeStreams(s, r, e);
    case Unsubscribe(socket, instance) => RemoveStreams(s, instance, socket);
    case UpdateLevel(socket, instance, level) => RelevelStreams(s, socket, instance, LevelOr(level));
    case Disconnect(socket) =>
      if socket in s.socketSubscriptions {
        RemoveFromStreams(s.(online := s.online - {socket}), s.socketSubscriptions[socket], socket);
      }
  }

  /** In every reachable state the tables hold exactly the simple relation; every stream
      has a subscriber; every subscriber is online and has the stream in its reverse
      index; and a gateway client is open exactly while its stream is in the table. */
  lemma {:induction false} TablesHoldRelation(events: seq<Event>)
    ensures Ok(After(IDLE, events), SimpleAfter(events))
  {
    if events != [] {
      TablesHoldRelation(events[..|events| - 1]);
      StepOk(After(IDLE, events[..|events| - 1]), SimpleAfter(events[..|events| - 1]), events[|events| - 1]);
    }
  }

  /** A socket that has disconnected, and has not come back, is in no stream. */
  lemma {:induction false} GoneFromStreams(events: seq<Event>, socket: SocketId, instance: InstanceId)
    requires socket !in After(IDLE, events).online
    ensures !Subscribed(After(IDLE, events), socket, instance)
  {
    TablesHoldRelation(events);
    assert PairOk(After(IDLE, events), SimpleAfter(events), socket, instance);
  }

  // ---- The reverse index, the other way round ---------------------------------------------------

  ghost predicate IndexExact(s: State) {
    forall socket, instance :: instance in Subscriptions(s, socket) <==> Subscribed(s, socket, instance)
  }

  /** The one thing that leaves a reverse index entry without a subscription is a
      subscribe that finds no stream and cannot make one. */
  predicate FailsToStream(s: State, e: Event) {
    e.Subscribe? && e.socket in s.online && e.instance != "" && e.instance !in s.streams && !e.connects
  }

  lemma {:induction false} IndexStaysExact(s: State, r: Relation, e: Event)
    requires Ok(s, r) && IndexExact(s)
    ensures IndexExact(Next(s, e)) <==> !FailsToStream(s, e)
  {
    var t := Next(s, e);
    if FailsToStream(s, e) {
      assert e.instance in Subscriptions(t, e.socket) && !Subscribed(t, e.socket, e.instance);
    } else {
      forall socket, instance ensures instance in Subscriptions(t, socket) <==> Subscribed(t, socket, instance) {
        IndexPair(s, r, e, socket, instance);
      }
    }
  }

  lemma {:induction false} IndexPair(s: State, r: Relation, e: Event, socket: SocketId, instance: InstanceId)
    requires Ok(s, r) && IndexExact(s) && !FailsToStream(s, e)
    ensures instance in Subscriptions(Next(s, e), socket) <==> Subscribed(Next(s, e), socket, instance)
  {
    assert instance in Subscriptions(s, socket) <==> Subscribed(s, socket, instance);
    assert PairOk(s, r, socket, instance);
    match e
    case Unsubscribe(x, i) => RemoveSubscribed(s, i, x, socket, instance);
    case Disconnect(x) =>
      RemoveFromSubscribed(s.(online := s.online - {x}), Subscriptions(s, x), x, socket, instance);
    case _ =>
  }

  /** Streams never share a gateway client, so closing one leaves the others open. */
  lemma {:induction false} ClientsApart(events: seq<Event>)
    ensures OwnClients(After(IDLE, events))
  {
    TablesHoldRelation(events);
    var s := After(IDLE, events);
    assert forall i | i in s.streams :: ClientsOf(s)[i] == s.streams[i].client;
  }
}
