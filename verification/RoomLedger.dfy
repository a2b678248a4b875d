/**
 Rooms, room handlers, SSE streams and the bus stay consistent
 (src/realtime/ws.ts:103-163, 191-207, src/realtime/sse.ts:93-139, src/realtime/pubsub.ts:74-101).
 */
module RoomLedger {
  import opened Common
  import opened Realtime

  /** The room handlers among some listeners. */
  function RoomsIn(hs: seq<Handler>): seq<Handler> {
    if hs == [] then []
    else RoomsIn(hs[..|hs| - 1]) + if hs[|hs| - 1].RoomHandler? then [hs[|hs| - 1]] else []
  }

  /** The room handlers a channel should have. */
  function RoomHandlersFor(handlers: map<Tenant, Handler>, channel: string): seq<Handler> {
    var t := TenantOn(channel);
    if t.Some? && t.value in handlers then [handlers[t.value]] else []
  }

  /** Each room has exactly one listener, on its own channel, and there are no other room listeners. */
  ghost predicate RoomsOnBus(listeners: map<string, seq<Handler>>, handlers: map<Tenant, Handler>) {
    && (forall t | t in handlers :: handlers[t].RoomHandler? && handlers[t].tenant == t)
    && (forall ch :: RoomsIn(ListenersOn(listeners, ch)) == RoomHandlersFor(handlers, ch))
  }

  /** The listeners stream `c` should have on a channel. */
  function StreamCount(sse: map<ConnId, SseConn>, c: ConnId, channel: string): nat {
    if c in sse && !sse[c].closed && channel == ChannelOf(sse[c].tenant) then 1 else 0
  }

  /** Each stream not yet closed has exactly one listener, on its own channel. */
  ghost predicate StreamsOnBus(listeners: map<string, seq<Handler>>, sse: map<ConnId, SseConn>) {
    forall c, ch :: multiset(ListenersOn(listeners, ch))[SseHandler(c)] == StreamCount(sse, c, ch)
  }

  /** Rooms are never empty, have one handler each, and hold only sockets of their own tenant. */
  ghost predicate RoomsConsistent(r: Rooms, tenants: map<SocketId, Tenant>) {
    && r.members.Keys == r.handlers.Keys
    && (forall t | t in r.members :: r.members[t] != {})
    && (forall t, k | t in r.members && k in r.members[t] :: k in tenants && tenants[k] == t)
    && (r.shut ==> r.members == map[])
  }

  ghost predicate SocketsConsistent(sk: Sockets) {
    sk.tenants.Keys == sk.alive.Keys == sk.links.Keys == sk.sent.Keys
  }

  ghost predicate StreamsConsistent(st: Streams) {
    && st.conns.Keys == st.written.Keys
    && (forall c | c in st.active :: c in st.conns && !st.conns[c].closed)
    && (forall c | c in st.conns && st.conns[c].closed :: st.conns[c].ended && !st.conns[c].heartbeat)
  }

  ghost predicate Ledger(s: Hub) {
    && RoomsConsistent(s.rooms, s.sockets.tenants)
    && SocketsConsistent(s.sockets)
    && StreamsConsistent(s.streams)
    && RoomsOnBus(s.listeners, s.rooms.handlers)
    && StreamsOnBus(s.listeners, s.streams.conns)
  }

  // ----- Adding and removing one listener -----

  lemma ChannelNamesTenant(t: Tenant, channel: string)
    ensures TenantOn(ChannelOf(t)) == Some(t)
    ensures TenantOn(channel) == Some(t) ==> channel == ChannelOf(t)
  {
    assert ChannelOf(t)[10..] == t && ChannelOf(t)[..10] == "incidents:";
    if TenantOn(channel) == Some(t) {
      assert channel == channel[..10] + channel[10..];
    }
  }

  lemma {:induction false} RoomsInOneMore(hs: seq<Handler>, h: Handler)
    ensures RoomsIn(hs + [h]) == RoomsIn(hs) + if h.RoomHandler? then [h] else []
  {
    assert (hs + [h])[..|hs + [h]| - 1] == hs;
  }

  lemma {:induction false} WithoutLastOneMore(hs: seq<Handler>, last: Handler, h: Handler)
    ensures WithoutLast(hs + [last], h) == if last == h then hs else WithoutLast(hs, h) + [last]
  {
    assert (hs + [last])[..|hs + [last]| - 1] == hs;
  }

  lemma {:induction false} RoomsInWithout(hs: seq<Handler>, h: Handler)
    ensures RoomsIn(WithoutLast(hs, h)) == if h.RoomHandler? then WithoutLast(RoomsIn(hs), h) else RoomsIn(hs)
  {
    if hs != [] {
      var front, last := hs[..|hs| - 1], hs[|hs| - 1];
      RoomsInWithout(front, h);
      WithoutLastOneMore(RoomsIn(front), last, h);
      RoomsInOneMore(WithoutLast(front, h), last);
      assert RoomsIn(front) + [] == RoomsIn(front);
    }
  }

  lemma {:induction false} CountWithout(hs: seq<Handler>, h: Handler)
    ensures multiset(WithoutLast(hs, h)) == multiset(hs) - multiset{h}
  {
    if hs != [] {
      var front, last := hs[..|hs| - 1], hs[|hs| - 1];
      assert hs == front + [last];
      CountWithout(front, h);
      if last != h && h !in front {
        assert multiset(front)[h] == 0 && multiset(hs)[h] == 0;
      }
    }
  }

  lemma SubscribesOnChannel(
    listeners: map<string, seq<Handler>>, handlers: map<Tenant, Handler>, t: Tenant, n: nat, ch: string)
    requires RoomsIn(ListenersOn(listeners, ch)) == RoomHandlersFor(handlers, ch) && t !in handlers
    ensures RoomsIn(ListenersOn(On(listeners, ChannelOf(t), RoomHandler(t, n)), ch)) ==
            RoomHandlersFor(handlers[t := RoomHandler(t, n)], ch)
  {
    var h := RoomHandler(t, n);
    ChannelNamesTenant(t, ch);
    if ch == ChannelOf(t) {
      assert RoomsIn(ListenersOn(listeners, ch)) == [];
      RoomsInOneMore(ListenersOn(listeners, ch), h);
    } else {
      assert ListenersOn(On(listeners, ChannelOf(t), h), ch) == ListenersOn(listeners, ch);
      assert TenantOn(ch) != Some(t);
    }
  }

  lemma RoomSubscribes(listeners: map<string, seq<Handler>>, handlers: map<Tenant, Handler>, t: Tenant, n: nat)
    requires RoomsOnBus(listeners, handlers) && t !in handlers
    ensures RoomsOnBus(On(listeners, ChannelOf(t), RoomHandler(t, n)), handlers[t := RoomHandler(t, n)])
  {
    forall ch
      ensures RoomsIn(ListenersOn(On(listeners, ChannelOf(t), RoomHandler(t, n)), ch)) ==
              RoomHandlersFor(handlers[t := RoomHandler(t, n)], ch)
    {
      SubscribesOnChannel(listeners, handlers, t, n, ch);
    }
  }

  lemma RoomUnsubscribes(listeners: map<string, seq<Handler>>, handlers: map<Tenant, Handler>, t: Tenant)
    requires RoomsOnBus(listeners, handlers) && t in handlers
    ensures RoomsOnBus(Off(listeners, ChannelOf(t), handlers[t]), handlers - {t})
  {
    var h := handlers[t];
    forall ch
      ensures RoomsIn(ListenersOn(Off(listeners, ChannelOf(t), h), ch)) == RoomHandlersFor(handlers - {t}, ch)
    {
      ChannelNamesTenant(t, ch);
      assert RoomsIn(ListenersOn(listeners, ch)) == RoomHandlersFor(handlers, ch);
      RoomsInWithout(ListenersOn(listeners, ch), h);
    }
  }

  lemma AllRoomsUnsubscribe(listeners: map<string, seq<Handler>>, handlers: map<Tenant, Handler>)
    requires RoomsOnBus(listeners, handlers)
    ensures RoomsOnBus(OffAll(listeners, handlers), map[])
  {
    forall ch
      ensures RoomsIn(ListenersOn(OffAll(listeners, handlers), ch)) == []
    {
      assert RoomsIn(ListenersOn(listeners, ch)) == RoomHandlersFor(handlers, ch);
      var t := TenantOn(ch);
      if t.Some? && t.value in handlers {
        RoomsInWithout(ListenersOn(listeners, ch), handlers[t.value]);
      }
    }
  }

  /** Listeners that are not room handlers come and go without touching the rooms. */
  lemma OthersLeaveRooms(listeners: map<string, seq<Handler>>, handlers: map<Tenant, Handler>, channel: string, h: Handler)
    requires RoomsOnBus(listeners, handlers) && !h.RoomHandler?
    ensures RoomsOnBus(On(listeners, channel, h), handlers) && RoomsOnBus(Off(listeners, channel, h), handlers)
  {
    forall ch
      ensures RoomsIn(ListenersOn(On(listeners, channel, h), ch)) == RoomHandlersFor(handlers, ch)
      ensures RoomsIn(ListenersOn(Off(listeners, channel, h), ch)) == RoomHandlersFor(handlers, ch)
    {
      assert RoomsIn(ListenersOn(listeners, ch)) == RoomHandlersFor(handlers, ch);
      RoomsInOneMore(ListenersOn(listeners, ch), h);
      RoomsInWithout(ListenersOn(listeners, ch), h);
    }
  }

  lemma CountOneMore(listeners: map<string, seq<Handler>>, channel: string, h: Handler, g: Handler, ch: string)
    ensures multiset(ListenersOn(On(listeners, channel, h), ch))[g] ==
            multiset(ListenersOn(listeners, ch))[g] + if g == h && ch == channel then 1 else 0
  {
  }

  lemma CountOneLess(listeners: map<string, seq<Handler>>, channel: string, h: Handler, g: Handler, ch: string)
    ensures var before := multiset(ListenersOn(listeners, ch))[g];
            multiset(ListenersOn(Off(listeners, channel, h), ch))[g] ==
            if g == h && ch == channel && before > 0 then before - 1 else before
  {
    if ch == channel && channel in listeners {
      assert ListenersOn(Off(listeners, channel, h), ch) == WithoutLast(listeners[ch], h);
      CountWithout(listeners[ch], h);
    } else {
      assert ListenersOn(Off(listeners, channel, h), ch) == ListenersOn(listeners, ch);
      assert ch == channel ==> ListenersOn(listeners, ch) == [];
    }
  }

  /** Listeners that are not SSE handlers come and go without touching the streams. */
  lemma OthersLeaveStreams(listeners: map<string, seq<Handler>>, sse: map<ConnId, SseConn>, channel: string, h: Handler)
    requires StreamsOnBus(listeners, sse) && !h.SseHandler?
    ensures StreamsOnBus(On(listeners, channel, h), sse) && StreamsOnBus(Off(listeners, channel, h), sse)
  {
    forall c, ch
      ensures multiset(ListenersOn(On(listeners, channel, h), ch))[SseHandler(c)] == StreamCount(sse, c, ch)
      ensures multiset(ListenersOn(Off(listeners, channel, h), ch))[SseHandler(c)] == StreamCount(sse, c, ch)
    {
      assert multiset(ListenersOn(listeners, ch))[SseHandler(c)] == StreamCount(sse, c, ch);
      CountOneMore(listeners, channel, h, SseHandler(c), ch);
      CountOneLess(listeners, channel, h, SseHandler(c), ch);
    }
  }

  lemma RoomsLeaveStreams(listeners: map<string, seq<Handler>>, handlers: map<Tenant, Handler>, sse: map<ConnId, SseConn>)
    requires RoomsOnBus(listeners, handlers) && StreamsOnBus(listeners, sse)
    ensures StreamsOnBus(OffAll(listeners, handlers), sse)
  {
    forall c, ch
      ensures multiset(ListenersOn(OffAll(listeners, handlers), ch))[SseHandler(c)] == StreamCount(sse, c, ch)
    {
      assert multiset(ListenersOn(listeners, ch))[SseHandler(c)] == StreamCount(sse, c, ch);
      var t := TenantOn(ch);
      if t.Some? && t.value in handlers {
        CountWithout(ListenersOn(listeners, ch), handlers[t.value]);
      }
    }
  }

  lemma StreamSubscribes(listeners: map<string, seq<Handler>>, sse: map<ConnId, SseConn>, c: ConnId, conn: SseConn)
    requires StreamsOnBus(listeners, sse) && c !in sse && !conn.closed
    ensures StreamsOnBus(On(listeners, ChannelOf(conn.tenant), SseHandler(c)), sse[c := conn])
  {
    var l' := On(listeners, ChannelOf(conn.tenant), SseHandler(c));
    forall d, ch
      ensures multiset(ListenersOn(l', ch))[SseHandler(d)] == StreamCount(sse[c := conn], d, ch)
    {
      assert multiset(ListenersOn(listeners, ch))[SseHandler(d)] == StreamCount(sse, d, ch);
      CountOneMore(listeners, ChannelOf(conn.tenant), SseHandler(c), SseHandler(d), ch);
    }
  }

  lemma StreamUnsubscribes(listeners: map<string, seq<Handler>>, sse: map<ConnId, SseConn>, c: ConnId, conn: SseConn)
    requires StreamsOnBus(listeners, sse) && c in sse && conn.closed && conn.tenant == sse[c].tenant
    ensures StreamsOnBus(Off(listeners, ChannelOf(conn.tenant), SseHandler(c)), sse[c := conn])
  {
    var l' := Off(listeners, ChannelOf(conn.tenant), SseHandler(c));
    forall d, ch
      ensures multiset(ListenersOn(l', ch))[SseHandler(d)] == StreamCount(sse[c := conn], d, ch)
    {
      assert multiset(ListenersOn(listeners, ch))[SseHandler(d)] == StreamCount(sse, d, ch);
      CountOneLess(listeners, ChannelOf(conn.tenant), SseHandler(c), SseHandler(d), ch);
    }
  }

  /** Ending a response or its keep-alive moves no listener. */
  lemma SameListeners(listeners: map<string, seq<Handler>>, sse: map<ConnId, SseConn>, sse': map<ConnId, SseConn>)
    requires StreamsOnBus(listeners, sse) && sse'.Keys == sse.Keys
    requires forall c | c in sse :: sse'[c].tenant == sse[c].tenant && sse'[c].closed == sse[c].closed
    ensures StreamsOnBus(listeners, sse')
  {
    forall c, ch
      ensures StreamCount(sse', c, ch) == StreamCount(sse, c, ch)
    {
    }
  }

  // ----- Every step keeps the ledger -----

  /** Calling subscribers only sends and writes. */
  lemma {:induction false} CallingOnlyWrites(s: Hub, hs: seq<Handler>, payload: Payload)
    ensures var s' := CalledAll(s, hs, payload);
            && s'.listeners == s.listeners && s'.rooms == s.rooms
            && s'.sockets == s.sockets.(sent := s'.sockets.sent) && s'.sockets.sent.Keys == s.sockets.sent.Keys
            && s'.streams == s.streams.(written := s'.streams.written) && s'.streams.written.Keys == s.streams.written.Keys
    decreases |hs|
  {
    if hs != [] {
      var s1 := CalledAll(s, hs[..|hs| - 1], payload);
      CallingOnlyWrites(s, hs[..|hs| - 1], payload);
      CallOnlyWrites(s1, hs[|hs| - 1], payload);
    }
  }

  lemma CallOnlyWrites(s: Hub, h: Handler, payload: Payload)
    ensures var s' := Called(s, h, payload);
            && s'.listeners == s.listeners && s'.rooms == s.rooms
            && s'.sockets == s.sockets.(sent := s'.sockets.sent) && s'.sockets.sent.Keys == s.sockets.sent.Keys
            && s'.streams == s.streams.(written := s'.streams.written) && s'.streams.written.Keys == s.streams.written.Keys
  {
    if h.SseHandler? {
      WriteKeepsKeys(s.streams, h.conn, Data(payload));
    }
  }

  lemma WriteKeepsKeys(st: Streams, c: ConnId, frame: Frame)
    ensures var st' := WriteFrame(st, c, frame);
            st' == st.(written := st'.written) && st'.written.Keys == st.written.Keys
  {
  }

  lemma JoinKeepsRooms(r: Rooms, tenants: map<SocketId, Tenant>, k: SocketId, t: Tenant, h: Handler)
    requires RoomsConsistent(r, tenants) && k !in tenants && !r.shut
    ensures RoomsConsistent(
              r.(members := r.members[t := RoomOf(r.members, t) + {k}], handlers := r.handlers[t := h]),
              tenants[k := t])
  {
    var members := r.members[t := RoomOf(r.members, t) + {k}];
    assert k in members[t];
    assert members.Keys == r.members.Keys + {t} && r.handlers[t := h].Keys == r.handlers.Keys + {t};
    forall u, j | u in members && j in members[u]
      ensures j in tenants[k := t] && tenants[k := t][j] == u
    {
      if j != k {
        assert u in r.members && j in r.members[u];
      }
    }
  }

  lemma JoinKeepsLedger(s: Hub, k: SocketId, t: Tenant, link: Link)
    requires Ledger(s) && k !in s.sockets.tenants && !s.rooms.shut
    ensures Ledger(Joined(s.(sockets := Connected(s.sockets, k, t, link)), k, t))
  {
    var r := s.rooms;
    if t in r.handlers {
      JoinKeepsRooms(r, s.sockets.tenants, k, t, r.handlers[t]);
      assert r.handlers[t := r.handlers[t]] == r.handlers;
    } else {
      var h := RoomHandler(t, r.serial);
      JoinKeepsRooms(r.(serial := r.serial + 1), s.sockets.tenants, k, t, h);
      RoomSubscribes(s.listeners, r.handlers, t, r.serial);
      OthersLeaveStreams(s.listeners, s.streams.conns, ChannelOf(t), h);
    }
  }

  lemma LeaveKeepsRooms(s: Hub, t: Tenant, k: SocketId)
    requires RoomsConsistent(s.rooms, s.sockets.tenants)
    ensures RoomsConsistent(Removed(s, t, k).rooms, s.sockets.tenants)
  {
    var r, r' := s.rooms, Removed(s, t, k).rooms;
    if t in r.members {
      assert r'.members.Keys == if r.members[t] - {k} != {} then r.members.Keys else r.members.Keys - {t};
      assert forall u | u in r'.members :: u in r.members && r'.members[u] <= r.members[u] && r'.members[u] != {};
    }
  }

  lemma LeaveKeepsBus(s: Hub, t: Tenant, k: SocketId)
    requires RoomsOnBus(s.listeners, s.rooms.handlers) && StreamsOnBus(s.listeners, s.streams.conns)
    ensures RoomsOnBus(Removed(s, t, k).listeners, Removed(s, t, k).rooms.handlers)
    ensures StreamsOnBus(Removed(s, t, k).listeners, s.streams.conns)
  {
    if t in s.rooms.members && s.rooms.members[t] - {k} == {} && t in s.rooms.handlers {
      RoomUnsubscribes(s.listeners, s.rooms.handlers, t);
      OthersLeaveStreams(s.listeners, s.streams.conns, ChannelOf(t), s.rooms.handlers[t]);
    }
  }

  lemma LeaveKeepsLedger(s: Hub, t: Tenant, k: SocketId)
    requires Ledger(s)
    ensures Ledger(Removed(s, t, k))
  {
    LeaveKeepsRooms(s, t, k);
    LeaveKeepsBus(s, t, k);
  }

  lemma OpenKeepsLedger(s: Hub, c: ConnId, t: Tenant)
    requires Ledger(s) && c !in s.streams.conns
    ensures Ledger(Opened(s, c, t))
  {
    OthersLeaveRooms(s.listeners, s.rooms.handlers, ChannelOf(t), SseHandler(c));
    StreamSubscribes(s.listeners, s.streams.conns, c, SseConn(t, false, true, false));
  }

  lemma CloseKeepsLedger(s: Hub, c: ConnId)
    requires Ledger(s) && c in s.streams.conns
    ensures Ledger(StreamClosed(s, c))
  {
    var conn := s.streams.conns[c];
    OthersLeaveRooms(s.listeners, s.rooms.handlers, ChannelOf(conn.tenant), SseHandler(c));
    StreamUnsubscribes(s.listeners, s.streams.conns, c, conn.(ended := true, heartbeat := false, closed := true));
  }

  lemma KeepAliveKeepsLedger(s: Hub, c: ConnId)
    requires Ledger(s) && c in s.streams.conns
    ensures Ledger(s.(streams := KeptAlive(s.streams, c)))
  {
    if s.streams.conns[c].ended {
      SameListeners(s.listeners, s.streams.conns, KeptAlive(s.streams, c).conns);
    } else {
      WriteKeepsKeys(s.streams, c, Comment);
    }
  }

  lemma TerminateKeepsLedger(s: Hub)
    requires Ledger(s)
    ensures Ledger(s.(streams := Terminated(s.streams)))
  {
    SameListeners(s.listeners, s.streams.conns, Terminated(s.streams).conns);
  }

  lemma StepKeepsLedger(s: Hub, step: Step)
    requires CanStep(s, step) && Ledger(s)
    ensures Ledger(After(s, step))
  {
    match step
    case Connect(k, t, link) => if t != "" { JoinKeepsLedger(s, k, t, link); }
    case Gone(k) => LeaveKeepsLedger(s, s.sockets.tenants[k], k);
    case Publish(channel, payload) => CallingOnlyWrites(s, ListenersOn(s.listeners, channel), payload);
    case Shut =>
      AllRoomsUnsubscribe(s.listeners, s.rooms.handlers);
      RoomsLeaveStreams(s.listeners, s.rooms.handlers, s.streams.conns);
    case SubscribeOther(channel, id) =>
      OthersLeaveRooms(s.listeners, s.rooms.handlers, channel, OtherHandler(id));
      OthersLeaveStreams(s.listeners, s.streams.conns, channel, OtherHandler(id));
    case UnsubscribeOther(channel, id) =>
      OthersLeaveRooms(s.listeners, s.rooms.handlers, channel, OtherHandler(id));
      OthersLeaveStreams(s.listeners, s.streams.conns, channel, OtherHandler(id));
    case SseOpen(c, t) => if t != "" { OpenKeepsLedger(s, c, t); }
    case SseClose(c) => CloseKeepsLedger(s, c);
    case KeepAlive(c) => KeepAliveKeepsLedger(s, c);
    case TerminateAllSse => TerminateKeepsLedger(s);
    case _ =>
  }

  /** After any run: rooms, handlers and streams have exactly their own listeners on the bus. */
  lemma {:induction false} LedgerAlwaysHolds(run: seq<Step>)
    requires Possible(run)
    ensures Ledger(Reached(run))
    decreases |run|
  {
    if run != [] {
      LedgerAlwaysHolds(run[..|run| - 1]);
      StepKeepsLedger(Reached(run[..|run| - 1]), run[|run| - 1]);
    } else {
      assert forall ch :: RoomsIn(ListenersOn(START.listeners, ch)) == [];
    }
  }

  /** A close or error event of a socket that is in no room changes nothing. */
  lemma LeavingFromOutside(s: Hub, k: SocketId)
    requires Ledger(s) && k in s.sockets.tenants && !InRoom(s, k)
    ensures After(s, Gone(k)) == s
  {
    var t := s.sockets.tenants[k];
    if t in s.rooms.members {
      assert s.rooms.members[t] - {k} == s.rooms.members[t];
      assert s.rooms.members[t := s.rooms.members[t]] == s.rooms.members;
    }
  }

  /** Leaving takes a socket out of its room and puts no one in. */
  lemma RemovedIsOut(s: Hub, j: SocketId, k: SocketId)
    requires Ledger(s) && j in s.sockets.tenants && k in s.sockets.tenants && (!InRoom(s, k) || j == k)
    ensures !InRoom(Removed(s, s.sockets.tenants[j], j), k)
  {
  }

  lemma OtherJoins(s: Hub, step: Step, k: SocketId)
    requires CanStep(s, step) && step.Connect? && k in s.sockets.tenants && !InRoom(s, k)
    ensures k in After(s, step).sockets.tenants && !InRoom(After(s, step), k)
  {
  }

  /** A known socket in no room stays in none: only a new connection joins. */
  lemma StaysOutside(s: Hub, step: Step, k: SocketId)
    requires CanStep(s, step) && Ledger(s) && k in s.sockets.tenants
    requires !InRoom(s, k) || step == Gone(k)
    ensures k in After(s, step).sockets.tenants && !InRoom(After(s, step), k)
  {
    match step
    case Publish(channel, payload) => CallingOnlyWrites(s, ListenersOn(s.listeners, channel), payload);
    case Gone(j) => RemovedIsOut(s, j, k);
    case Connect(_, _, _) => OtherJoins(s, step, k);
    case _ =>
  }

  /** After its first close or error event a socket is never in a room again. */
  lemma {:induction false} LeftForGood(run: seq<Step>, i: nat, k: SocketId)
    requires Possible(run) && i < |run| && run[i] == Gone(k)
    ensures k in Reached(run).sockets.tenants && !InRoom(Reached(run), k)
    decreases |run|
  {
    var front, last := run[..|run| - 1], run[|run| - 1];
    LedgerAlwaysHolds(front);
    if i < |front| {
      LeftForGood(front, i, k);
    }
    StaysOutside(Reached(front), last, k);
  }

  /** However many steps lie between them, a socket's later close and error events change nothing. */
  lemma {:induction false} LeavingTwiceIsLeavingOnce(run: seq<Step>, i: nat, k: SocketId)
    requires Possible(run) && i < |run| && run[i] == Gone(k)
    ensures CanStep(Reached(run), Gone(k)) && After(Reached(run), Gone(k)) == Reached(run)
  {
    LedgerAlwaysHolds(run);
    LeftForGood(run, i, k);
    LeavingFromOutside(Reached(run), k);
  }

  lemma StaysShut(s: Hub, step: Step)
    requires CanStep(s, step) && s.rooms.shut && s.rooms.members == map[] && s.rooms.handlers == map[] && Ledger(s)
    ensures After(s, step).rooms == s.rooms
  {
    if step.Publish? {
      CallingOnlyWrites(s, ListenersOn(s.listeners, step.channel), step.payload);
    }
  }

  /** After the shutdown the rooms stay empty: no socket joins one any more, and no heartbeat runs. */
  lemma {:induction false} ShutForGood(run: seq<Step>, i: nat)
    requires Possible(run) && i < |run| && run[i] == Shut
    ensures Reached(run).rooms.shut && Reached(run).rooms.members == map[] && Reached(run).rooms.handlers == map[]
    ensures !CanStep(Reached(run), Beat) && forall k, t, link :: !CanStep(Reached(run), Connect(k, t, link))
    decreases |run|
  {
    var front, last := run[..|run| - 1], run[|run| - 1];
    if i < |front| {
      LedgerAlwaysHolds(front);
      ShutForGood(front, i);
      StaysShut(Reached(front), last);
    } else {
      assert Reached(run) == Closed(Reached(front));
    }
  }

  // ----- Foreign listeners -----

  /** The registrations of foreign listener `id` on a channel. */
  function Foreign(listeners: map<string, seq<Handler>>, channel: string, id: nat): nat {
    multiset(ListenersOn(listeners, channel))[OtherHandler(id)]
  }

  /** Those a run leaves: one more for each subscription, one less for each unsubscription that finds one. */
  function ForeignAfter(run: seq<Step>, channel: string, id: nat): nat {
    if run == [] then 0
    else
      var n := ForeignAfter(run[..|run| - 1], channel, id);
      match run[|run| - 1]
      case SubscribeOther(ch, j) => if ch == channel && j == id then n + 1 else n
      case UnsubscribeOther(ch, j) => if ch == channel && j == id && n > 0 then n - 1 else n
      case _ => n
  }

  lemma OnCounts(listeners: map<string, seq<Handler>>, ch: string, h: Handler, channel: string, id: nat)
    ensures Foreign(On(listeners, ch, h), channel, id) ==
            Foreign(listeners, channel, id) + if ch == channel && h == OtherHandler(id) then 1 else 0
  {
  }

  lemma OffCounts(listeners: map<string, seq<Handler>>, ch: string, h: Handler, channel: string, id: nat)
    ensures Foreign(Off(listeners, ch, h), channel, id) ==
            var n := Foreign(listeners, channel, id); if ch == channel && h == OtherHandler(id) && n > 0 then n - 1 else n
  {
    CountWithout(ListenersOn(listeners, ch), h);
  }

  lemma OffAllCounts(listeners: map<string, seq<Handler>>, handlers: map<Tenant, Handler>, channel: string, id: nat)
    requires forall t | t in handlers :: handlers[t].RoomHandler?
    ensures Foreign(OffAll(listeners, handlers), channel, id) == Foreign(listeners, channel, id)
  {
    var t := TenantOn(channel);
    if t.Some? && t.value in handlers {
      CountWithout(ListenersOn(listeners, channel), handlers[t.value]);
    }
  }

  lemma RoomsLeaveForeign(s: Hub, step: Step, channel: string, id: nat)
    requires CanStep(s, step) && (step.Connect? || step.Gone?)
    requires forall t | t in s.rooms.handlers :: s.rooms.handlers[t].RoomHandler?
    ensures Foreign(After(s, step).listeners, channel, id) == Foreign(s.listeners, channel, id)
  {
    match step
    case Connect(_, t, _) => OnCounts(s.listeners, ChannelOf(t), RoomHandler(t, s.rooms.serial), channel, id);
    case Gone(k) =>
      var t := s.sockets.tenants[k];
      if t in s.rooms.handlers {
        OffCounts(s.listeners, ChannelOf(t), s.rooms.handlers[t], channel, id);
      }
  }

  lemma StreamsLeaveForeign(s: Hub, step: Step, channel: string, id: nat)
    requires CanStep(s, step) && (step.SseOpen? || step.SseClose?)
    ensures Foreign(After(s, step).listeners, channel, id) == Foreign(s.listeners, channel, id)
  {
    match step
    case SseOpen(c, t) => OnCounts(s.listeners, ChannelOf(t), SseHandler(c), channel, id);
    case SseClose(c) => OffCounts(s.listeners, ChannelOf(s.streams.conns[c].tenant), SseHandler(c), channel, id);
  }

  lemma StepLeavesForeign(s: Hub, step: Step, channel: string, id: nat)
    requires CanStep(s, step) && Ledger(s)
    ensures Foreign(After(s, step).listeners, channel, id) ==
            var n := Foreign(s.listeners, channel, id);
            match step
            case SubscribeOther(ch, j) => (if ch == channel && j == id then n + 1 else n)
            case UnsubscribeOther(ch, j) => (if ch == channel && j == id && n > 0 then n - 1 else n)
            case _ => n
  {
    match step
    case Connect(_, _, _) => RoomsLeaveForeign(s, step, channel, id);
    case Gone(_) => RoomsLeaveForeign(s, step, channel, id);
    case SseOpen(_, _) => StreamsLeaveForeign(s, step, channel, id);
    case SseClose(_) => StreamsLeaveForeign(s, step, channel, id);
    case Publish(ch, payload) => CallingOnlyWrites(s, ListenersOn(s.listeners, ch), payload);
    case Shut => OffAllCounts(s.listeners, s.rooms.handlers, channel, id);
    case SubscribeOther(ch, j) => OnCounts(s.listeners, ch, OtherHandler(j), channel, id);
    case UnsubscribeOther(ch, j) => OffCounts(s.listeners, ch, OtherHandler(j), channel, id);
    case _ => assert After(s, step).listeners == s.listeners;
  }

  /** Rooms and streams coming and going, and the shutdown, never touch a foreign listener. */
  lemma {:induction false} ForeignListenersStay(run: seq<Step>, channel: string, id: nat)
    requires Possible(run)
    ensures Foreign(Reached(run).listeners, channel, id) == ForeignAfter(run, channel, id)
    decreases |run|
  {
    if run != [] {
      LedgerAlwaysHolds(run[..|run| - 1]);
      ForeignListenersStay(run[..|run| - 1], channel, id);
      StepLeavesForeign(Reached(run[..|run| - 1]), run[|run| - 1], channel, id);
    }
  }

  /** After `close()` and the closing of every stream the bus holds none of their listeners. */
  lemma {:induction false} NothingLeftOnTheBus(run: seq<Step>, i: nat, channel: string)
    requires Possible(run) && i < |run| && run[i] == Shut
    requires forall c | c in Reached(run).streams.conns :: Reached(run).streams.conns[c].closed
    ensures forall h | h in ListenersOn(Reached(run).listeners, channel) :: h.OtherHandler?
  {
    LedgerAlwaysHolds(run);
    ShutForGood(run, i);
    var s := Reached(run);
    var hs := ListenersOn(s.listeners, channel);
    assert RoomsIn(hs) == RoomHandlersFor(s.rooms.handlers, channel) == [];
    forall h | h in hs
      ensures h.OtherHandler?
    {
      if h.RoomHandler? {
        RoomsInHas(hs, h);
      }
      assert forall c :: multiset(hs)[SseHandler(c)] == StreamCount(s.streams.conns, c, channel) == 0;
      assert h in multiset(hs);
    }
  }

  lemma {:induction false} RoomsInHas(hs: seq<Handler>, h: Handler)
    requires h in hs && h.RoomHandler?
    ensures h in RoomsIn(hs)
  {
    if h != hs[|hs| - 1] {
      RoomsInHas(hs[..|hs| - 1], h);
    }
  }
}
