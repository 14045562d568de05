/** Log subscriptions: the stream table and its reverse index in
    apps/api/src/health/log-streaming.gateway.ts.  A handler is one atomic step. */
module LogStreaming {
  import opened Options

  type SocketId = string
  type InstanceId = string
  type Level = string

  /** Levels outside the table count as info. */
  function Order(level: Level): nat {
    if level == "debug" then 0 else if level == "warn" then 2 else if level == "error" then 3 else 1
  }

  /** A gateway connection and the sockets it serves, each with its minimum level. */
  datatype Stream = Stream(client: nat, subscribers: map<SocketId, Level>)

  /** `open` holds the gateway clients that are connected, `online` the sockets. */
  datatype State = State(streams: map<InstanceId, Stream>, socketSubscriptions: map<SocketId, set<InstanceId>>,
                         open: set<nat>, made: nat, online: set<SocketId>)

  const IDLE := State(map[], map[], {}, 0, {})

  datatype Event =
    | Connect(socket: SocketId)
    | Subscribe(socket: SocketId, instance: InstanceId, level: Option<Level>, connects: bool)
    | Unsubscribe(socket: SocketId, instance: InstanceId)
    | UpdateLevel(socket: SocketId, instance: InstanceId, level: Option<Level>)
    | Disconnect(socket: SocketId)

  function LevelOr(level: Option<Level>): Level {
    if level.Some? then level.value else "info"
  }

  function Subscriptions(s: State, socket: SocketId): set<InstanceId> {
    if socket in s.socketSubscriptions then s.socketSubscriptions[socket] else {}
  }

  function Join(s: State, socket: SocketId, instance: InstanceId, level: Level): State
    requires instance in s.streams
  {
    var stream := s.streams[instance];
    s.(streams := s.streams[instance := stream.(subscribers := stream.subscribers[socket := level])])
  }

  /** Closes the gateway connection with the last subscriber. */
  function RemoveSubscriber(s: State, instance: InstanceId, socket: SocketId): State {
    if instance !in s.streams then s
    else
      var stream := s.streams[instance];
      var left := stream.subscribers - {socket};
      if left == map[] then s.(streams := s.streams - {instance}, open := s.open - {stream.client})
      else s.(streams := s.streams[instance := stream.(subscribers := left)])
  }

  function CreateStream(s: State, instance: InstanceId): State {
    s.(streams := s.streams[instance := Stream(s.made, map[])], open := s.open + {s.made}, made := s.made + 1)
  }

  /** The reverse index is written before the stream is there. */
  function SubscribeLogs(s: State, socket: SocketId, instance: InstanceId, level: Level, connects: bool): State {
    if instance == "" then s
    else
      var t := s.(socketSubscriptions := s.socketSubscriptions[socket := Subscriptions(s, socket) + {instance}]);
      if instance in s.streams then Join(t, socket, instance, level)
      else if connects then Join(CreateStream(t, instance), socket, instance, level)
      else t
  }

  function UnsubscribeLogs(s: State, socket: SocketId, instance: InstanceId): State {
    var t := RemoveSubscriber(s, instance, socket);
    if socket in t.socketSubscriptions
    then t.(socketSubscriptions := t.socketSubscriptions[socket := t.socketSubscriptions[socket] - {instance}])
    else t
  }

  function Relevel(s: State, socket: SocketId, instance: InstanceId, level: Level): State {
    if instance in s.streams && socket in s.streams[instance].subscribers then Join(s, socket, instance, level) else s
  }

  /** A socket removed from every stream of a set. */
  function RemoveFrom(s: State, instances: set<InstanceId>, socket: SocketId): State {
    var emptied := set i | i in instances && i in s.streams && s.streams[i].subscribers - {socket} == map[];
    s.(streams := map i | i in s.streams && i !in emptied
                    :: if i in instances then s.streams[i].(subscribers := s.streams[i].subscribers - {socket})
                       else s.streams[i],
       open := s.open - set i | i in emptied :: s.streams[i].client)
  }

  function HandleDisconnect(s: State, socket: SocketId): State {
    var t := s.(online := s.online - {socket});
    if socket !in s.socketSubscriptions then t
    else
      var u := RemoveFrom(t, s.socketSubscriptions[socket], socket);
      u.(socketSubscriptions := u.socketSubscriptions - {socket})
  }

  /** Sockets that are not connected send nothing. */
  function Next(s: State, e: Event): State {
    match e
    case Connect(socket) => s.(online := s.online + {socket})
    case Subscribe(socket, instance, level, connects) =>
      if socket in s.online then SubscribeLogs(s, socket, instance, LevelOr(level), connects) else s
    case Unsubscribe(socket, instance) => if socket in s.online then UnsubscribeLogs(s, socket, instance) else s
    case UpdateLevel(socket, instance, level) =>
      if socket in s.online then Relevel(s, socket, instance, LevelOr(level)) else s
    case Disconnect(socket) => HandleDisconnect(s, socket)
  }

  function After(s: State, events: seq<Event>): State {
    if events == [] then s else Next(After(s, events[..|events| - 1]), events[|events| - 1])
  }

  /** No two streams share a gateway client. */
  ghost predicate OwnClients(s: State) {
    forall i, j | i in s.streams && j in s.streams && i != j :: s.streams[i].client != s.streams[j].client
  }
}
