/**
 The event bus, the WebSocket rooms and the SSE streams as one step machine
 (src/realtime/pubsub.ts, src/realtime/ws.ts, src/realtime/sse.ts).

 Everything here runs between two turns of the event loop, so each callback is one step.
 A tenant is the string found in a URL; a payload is any JSON value.
 */
module Realtime {
  import opened Common
  import opened Json

  type Tenant = string
  type SocketId = nat
  type ConnId = nat
  type Payload = Json

  /** A subscriber: handlers are compared by reference, so each room subscription has its own serial number. */
  datatype Handler =
    | RoomHandler(tenant: Tenant, serial: nat)
    | SseHandler(conn: ConnId)
    | OtherHandler(id: nat)

  /** The transport's view of a socket. */
  datatype Link = Link(open: bool, buffered: nat)

  const WS_BUFFER_LIMIT := 64 * 1024

  /** What is written to an SSE response. */
  datatype Frame = Data(payload: Payload) | Comment

  datatype SseConn = SseConn(tenant: Tenant, ended: bool, heartbeat: bool, closed: bool)

  /** ws.ts: who is in which room, and the handler each room has on the bus. */
  datatype Rooms = Rooms(members: map<Tenant, set<SocketId>>, handlers: map<Tenant, Handler>, serial: nat, shut: bool)

  /** What the rooms' sockets carry: the tenant their callbacks close over, isAlive, the transport's state, what was
      handed to each, which of them the heartbeat terminated, and which of them `close()` did. */
  datatype Sockets = Sockets(
    tenants: map<SocketId, Tenant>,
    alive: map<SocketId, bool>,
    links: map<SocketId, Link>,
    sent: map<SocketId, seq<Payload>>,
    dropped: set<SocketId>,
    cut: set<SocketId>)

  /** sse.ts: the open requests, activeSseConnections, and what was written to each response. */
  datatype Streams = Streams(conns: map<ConnId, SseConn>, active: set<ConnId>, written: map<ConnId, seq<Frame>>)

  /** The listeners are by channel, in registration order. */
  datatype Hub = Hub(listeners: map<string, seq<Handler>>, rooms: Rooms, sockets: Sockets, streams: Streams)

  datatype Step =
    | Connect(socket: SocketId, tenant: Tenant, link: Link)
    | Pong(socket: SocketId)
    | Gone(socket: SocketId)                 // 'close' or 'error'
    | LinkChanges(socket: SocketId, link: Link)
    | Beat
    | Broadcast(tenant: Tenant, payload: Payload)
    | Publish(channel: string, payload: Payload)
    | Shut
    | SubscribeOther(channel: string, id: nat)
    | UnsubscribeOther(channel: string, id: nat)
    | SseOpen(conn: ConnId, tenant: Tenant)
    | SseClose(conn: ConnId)
    | KeepAlive(conn: ConnId)
    | TerminateAllSse

  const START :=
    Hub(map[], Rooms(map[], map[], 0, false), Sockets(map[], map[], map[], map[], {}, {}), Streams(map[], {}, map[]))

  /** `incidents:${tenantId}`. */
  function ChannelOf(t: Tenant): string { "incidents:" + t }

  // ----- The bus -----

  function ListenersOn(listeners: map<string, seq<Handler>>, channel: string): seq<Handler> {
    if channel in listeners then listeners[channel] else []
  }

  /** `bus.on`. */
  function On(listeners: map<string, seq<Handler>>, channel: string, h: Handler): map<string, seq<Handler>> {
    listeners[channel := ListenersOn(listeners, channel) + [h]]
  }

  /** The list without the most recently added occurrence of `h`. */
  function WithoutLast(hs: seq<Handler>, h: Handler): seq<Handler> {
    if hs == [] then []
    else if hs[|hs| - 1] == h then hs[..|hs| - 1]
    else WithoutLast(hs[..|hs| - 1], h) + [hs[|hs| - 1]]
  }

  /** `bus.off`. */
  function Off(listeners: map<string, seq<Handler>>, channel: string, h: Handler): map<string, seq<Handler>> {
    if channel in listeners then listeners[channel := WithoutLast(listeners[channel], h)] else listeners
  }

  // ----- WebSocket rooms -----

  predicate Eligible(sk: Sockets, k: SocketId) {
    k in sk.links && sk.links[k].open && sk.links[k].buffered <= WS_BUFFER_LIMIT
  }

  /** The logs after `payload` went to the sockets `to`. */
  function SentTo(sent: map<SocketId, seq<Payload>>, to: set<SocketId>, payload: Payload): map<SocketId, seq<Payload>> {
    map k | k in sent :: if k in to then sent[k] + [payload] else sent[k]
  }

  /** `broadcastToRoom`. */
  function BroadcastTo(s: Hub, t: Tenant, payload: Payload): Hub {
    if t !in s.rooms.members then s
    else
      var ready := set k | k in s.rooms.members[t] && Eligible(s.sockets, k);
      s.(sockets := s.sockets.(sent := SentTo(s.sockets.sent, ready, payload)))
  }

  /** `sseWrite` and `sseKeepAlive`. */
  function WriteFrame(st: Streams, c: ConnId, frame: Frame): Streams {
    if c !in st.conns || c !in st.written || st.conns[c].ended then st
    else st.(written := st.written[c := st.written[c] + [frame]])
  }

  /** One subscriber is called. */
  function Called(s: Hub, h: Handler, payload: Payload): Hub {
    match h
    case RoomHandler(t, _) => BroadcastTo(s, t, payload)
    case SseHandler(c) => s.(streams := WriteFrame(s.streams, c, Data(payload)))
    case OtherHandler(_) => s
  }

  /** `bus.emit`: every subscriber in turn. */
  function CalledAll(s: Hub, hs: seq<Handler>, payload: Payload): Hub {
    if hs == [] then s
    else Called(CalledAll(s, hs[..|hs| - 1], payload), hs[|hs| - 1], payload)
  }

  /** `ensureRoomSubscription`. */
  function Subscribed(s: Hub, t: Tenant): Hub {
    if t in s.rooms.handlers then s
    else
      var h := RoomHandler(t, s.rooms.serial);
      s.(listeners := On(s.listeners, ChannelOf(t), h),
         rooms := s.rooms.(handlers := s.rooms.handlers[t := h], serial := s.rooms.serial + 1))
  }

  function RoomOf(members: map<Tenant, set<SocketId>>, t: Tenant): set<SocketId> {
    if t in members then members[t] else {}
  }

  /** The sockets once `k` has connected. */
  function Connected(sk: Sockets, k: SocketId, t: Tenant, link: Link): Sockets {
    sk.(tenants := sk.tenants[k := t], alive := sk.alive[k := true], links := sk.links[k := link], sent := sk.sent[k := []])
  }

  /** The connection handler, for a socket that names a tenant. */
  function Joined(s: Hub, k: SocketId, t: Tenant): Hub {
    Subscribed(s.(rooms := s.rooms.(members := s.rooms.members[t := RoomOf(s.rooms.members, t) + {k}])), t)
  }

  /** `removeFromRoom`. */
  function Removed(s: Hub, t: Tenant, k: SocketId): Hub {
    if t !in s.rooms.members then s
    else
      var room := s.rooms.members[t] - {k};
      if room != {} then s.(rooms := s.rooms.(members := s.rooms.members[t := room]))
      else if t in s.rooms.handlers then
        s.(rooms := s.rooms.(members := s.rooms.members - {t}, handlers := s.rooms.handlers - {t}),
           listeners := Off(s.listeners, ChannelOf(t), s.rooms.handlers[t]))
      else s.(rooms := s.rooms.(members := s.rooms.members - {t}))
  }

  function InSomeRoom(rooms: map<Tenant, set<SocketId>>): set<SocketId> {
    set t, k | t in rooms && k in rooms[t] :: k
  }

  /** The flags after sockets `ks` were pinged. */
  function AliveAfter(alive: map<SocketId, bool>, ks: set<SocketId>): map<SocketId, bool> {
    map k | k in alive :: alive[k] && k !in ks
  }

  /** The sockets dropped once those of `ks` with a cleared flag were terminated. */
  function DroppedAfter(alive: map<SocketId, bool>, dropped: set<SocketId>, ks: set<SocketId>): set<SocketId> {
    dropped + set k | k in ks && !(k in alive && alive[k])
  }

  /** The heartbeat: sockets silent since the last one are terminated, the others are pinged. */
  function Beaten(s: Hub): Hub {
    var all := InSomeRoom(s.rooms.members);
    var sk := s.sockets;
    s.(sockets := sk.(dropped := DroppedAfter(sk.alive, sk.dropped, all), alive := AliveAfter(sk.alive, all)))
  }

  /** The tenant a channel belongs to. */
  function TenantOn(channel: string): Option<Tenant> {
    if |channel| >= 10 && channel[..10] == "incidents:" then Some(channel[10..]) else None
  }

  /** Every room handler unsubscribed from its channel. */
  function OffAll(listeners: map<string, seq<Handler>>, handlers: map<Tenant, Handler>): map<string, seq<Handler>> {
    map ch | ch in listeners ::
      var t := TenantOn(ch);
      if t.Some? && t.value in handlers then WithoutLast(listeners[ch], handlers[t.value]) else listeners[ch]
  }

  /** `WsController.close`. */
  function Closed(s: Hub): Hub {
    s.(listeners := OffAll(s.listeners, s.rooms.handlers),
       rooms := s.rooms.(handlers := map[], members := map[], shut := true),
       sockets := s.sockets.(cut := s.sockets.cut + InSomeRoom(s.rooms.members)))
  }

  // ----- SSE streams -----

  /** `incidentSSE`, for a request that names a tenant. */
  function Opened(s: Hub, c: ConnId, t: Tenant): Hub {
    var st := s.streams;
    s.(streams := Streams(st.conns[c := SseConn(t, false, true, false)], st.active + {c}, st.written[c := []]),
       listeners := On(s.listeners, ChannelOf(t), SseHandler(c)))
  }

  /** The request's 'close' event. */
  function StreamClosed(s: Hub, c: ConnId): Hub
    requires c in s.streams.conns
  {
    var st := s.streams;
    var conn := st.conns[c];
    s.(streams := st.(conns := st.conns[c := conn.(ended := true, heartbeat := false, closed := true)],
                      active := st.active - {c}),
       listeners := Off(s.listeners, ChannelOf(conn.tenant), SseHandler(c)))
  }

  /** One keep-alive tick: the interval clears itself when the response has ended. */
  function KeptAlive(st: Streams, c: ConnId): Streams
    requires c in st.conns
  {
    if st.conns[c].ended then st.(conns := st.conns[c := st.conns[c].(heartbeat := false)])
    else WriteFrame(st, c, Comment)
  }

  function EndAll(conns: map<ConnId, SseConn>, ended: set<ConnId>): map<ConnId, SseConn> {
    map c | c in conns :: if c in ended then conns[c].(ended := true) else conns[c]
  }

  /** `terminateAllSse`. */
  function Terminated(st: Streams): Streams {
    st.(conns := EndAll(st.conns, st.active), active := {})
  }

  /** Is socket `k` in its tenant's room? */
  predicate InRoom(s: Hub, k: SocketId) {
    k in s.sockets.tenants && s.sockets.tenants[k] in s.rooms.members && k in s.rooms.members[s.sockets.tenants[k]]
  }

  // ----- Steps -----

  predicate CanStep(s: Hub, step: Step) {
    match step
    case Connect(k, _, _) => k !in s.sockets.tenants && !s.rooms.shut
    case Pong(k) => k in s.sockets.tenants
    case Gone(k) => k in s.sockets.tenants
    case LinkChanges(k, _) => k in s.sockets.tenants
    case Beat => !s.rooms.shut
    case Shut => !s.rooms.shut
    case SseOpen(c, _) => c !in s.streams.conns
    case SseClose(c) => c in s.streams.conns
    case KeepAlive(c) => c in s.streams.conns && s.streams.conns[c].heartbeat
    case _ => true
  }

  function After(s: Hub, step: Step): Hub
    requires CanStep(s, step)
  {
    match step
    case Connect(k, t, link) => if t == "" then s else Joined(s.(sockets := Connected(s.sockets, k, t, link)), k, t)
    case Pong(k) => s.(sockets := s.sockets.(alive := s.sockets.alive[k := true]))
    case Gone(k) => Removed(s, s.sockets.tenants[k], k)
    case LinkChanges(k, link) => s.(sockets := s.sockets.(links := s.sockets.links[k := link]))
    case Beat => Beaten(s)
    case Broadcast(t, payload) => BroadcastTo(s, t, payload)
    case Publish(channel, payload) => CalledAll(s, ListenersOn(s.listeners, channel), payload)
    case Shut => Closed(s)
    case SubscribeOther(channel, id) => s.(listeners := On(s.listeners, channel, OtherHandler(id)))
    case UnsubscribeOther(channel, id) => s.(listeners := Off(s.listeners, channel, OtherHandler(id)))
    case SseOpen(c, t) => if t == "" then s else Opened(s, c, t)
    case SseClose(c) => StreamClosed(s, c)
    case KeepAlive(c) => s.(streams := KeptAlive(s.streams, c))
    case TerminateAllSse => s.(streams := Terminated(s.streams))
  }

  /** A run from the start, built step by step. */
  ghost predicate Possible(run: seq<Step>)
    decreases |run|, 0
  {
    run == [] || (Possible(run[..|run| - 1]) && CanStep(Reached(run[..|run| - 1]), run[|run| - 1]))
  }

  ghost function Reached(run: seq<Step>): Hub
    requires Possible(run)
    decreases |run|, 1
  {
    if run == [] then START else After(Reached(run[..|run| - 1]), run[|run| - 1])
  }
}
