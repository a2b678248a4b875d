/**
 The bus, the WebSocket controller and the SSE handler in place
 (src/realtime/pubsub.ts:74-101, src/realtime/ws.ts:77-209, src/realtime/sse.ts:49-139).
 Each callback's contract is one step of `Realtime`.
 */
module RealtimeService {
  import opened Realtime
  import opened RoomLedger

  /** The shared emitter. */
  class Bus {
    var listeners: map<string, seq<Handler>>

    constructor ()
      ensures listeners == map[]
    {
      listeners := map[];
    }

    method Subscribe(channel: string, h: Handler)
      modifies this
      ensures ListenersOn(listeners, channel) == ListenersOn(old(listeners), channel) + [h]
      ensures forall other | other != channel :: ListenersOn(listeners, other) == ListenersOn(old(listeners), other)
      ensures listeners == On(old(listeners), channel, h)
    {
      var hs := if channel in listeners then listeners[channel] else [];
      listeners := listeners[channel := hs + [h]];
    }

    /** Removes the most recently added registration of `h`. */
    method Unsubscribe(channel: string, h: Handler)
      modifies this
      ensures listeners == Off(old(listeners), channel, h)
    {
      if channel !in listeners {
        return;
      }
      var hs := listeners[channel];
      var i := |hs|;
      while i > 0 && hs[i - 1] != h
        modifies {}
        invariant 0 <= i <= |hs| && forall j | i <= j < |hs| :: hs[j] != h
      {
        i := i - 1;
      }
      WithoutLastAt(hs, i, h);
      if i > 0 {
        hs := hs[..i - 1] + hs[i..];
      }
      listeners := listeners[channel := hs];
    }
  }

  class Server {
    const bus: Bus
    var rooms: map<Tenant, set<SocketId>>
    var roomHandlers: map<Tenant, Handler>
    var serial: nat
    var tenants: map<SocketId, Tenant>
    var alive: map<SocketId, bool>
    var links: map<SocketId, Link>
    var sent: map<SocketId, seq<Payload>>
    var dropped: set<SocketId>
    var cut: set<SocketId>
    var shut: bool
    var sse: map<ConnId, SseConn>
    var active: set<ConnId>
    var written: map<ConnId, seq<Frame>>

    function Snapshot(): Hub
      reads this, bus
    {
      Hub(bus.listeners, Rooms(rooms, roomHandlers, serial, shut), Sockets(tenants, alive, links, sent, dropped, cut),
          Streams(sse, active, written))
    }

    constructor ()
      ensures Snapshot() == START && fresh(bus)
    {
      bus := new Bus();
      rooms, roomHandlers, serial := map[], map[], 0;
      tenants, alive, links, sent, dropped, cut, shut := map[], map[], map[], map[], {}, {}, false;
      sse, active, written := map[], {}, map[];
    }

    // ----- ws.ts -----

    /** Every socket of a room is known to the transport and to the log. */
    ghost predicate RoomsKnown()
      reads this
    {
      forall t | t in rooms :: rooms[t] <= links.Keys && rooms[t] <= sent.Keys
    }

    method BroadcastToRoom(t: Tenant, payload: Payload)
      requires RoomsKnown()
      modifies this`sent
      ensures Snapshot() == BroadcastTo(old(Snapshot()), t, payload) && sent.Keys == old(sent).Keys
    {
      if t !in rooms {
        return;
      }
      var rest := rooms[t];
      ghost var before := sent;
      while rest != {}
        invariant rest <= rooms[t] && sent.Keys == before.Keys
        invariant forall k | k in sent ::
          sent[k] == if k in rooms[t] && k !in rest && links[k].open && links[k].buffered <= WS_BUFFER_LIMIT
                     then before[k] + [payload] else before[k]
      {
        var k :| k in rest;
        rest := rest - {k};
        if !links[k].open {
          continue;
        }
        if links[k].buffered > WS_BUFFER_LIMIT {
          continue;
        }
        sent := sent[k := sent[k] + [payload]];
      }
      assert sent == BroadcastTo(old(Snapshot()), t, payload).sockets.sent;
    }

    method EnsureRoomSubscription(t: Tenant)
      modifies this`roomHandlers, this`serial, bus
      ensures Snapshot() == Subscribed(old(Snapshot()), t)
    {
      if t in roomHandlers {
        return;
      }
      var h := RoomHandler(t, serial);
      serial := serial + 1;
      bus.Subscribe("incidents:" + t, h);
      roomHandlers := roomHandlers[t := h];
    }

    method RemoveFromRoom(t: Tenant, k: SocketId)
      modifies this`rooms, this`roomHandlers, bus
      ensures Snapshot() == Removed(old(Snapshot()), t, k)
    {
      if t !in rooms {
        return;
      }
      rooms := rooms[t := rooms[t] - {k}];
      if rooms[t] == {} {
        rooms := rooms - {t};
        assert rooms == old(rooms) - {t};
        if t in roomHandlers {
          bus.Unsubscribe("incidents:" + t, roomHandlers[t]);
          roomHandlers := roomHandlers - {t};
        }
      }
    }

    method OnConnection(k: SocketId, t: Tenant, link: Link)
      requires k !in tenants && !shut
      modifies this, bus
      ensures Snapshot() == After(old(Snapshot()), Connect(k, t, link))
    {
      if t == "" {
        return;
      }
      alive := alive[k := true];
      tenants, links, sent := tenants[k := t], links[k := link], sent[k := []];
      assert Snapshot() == old(Snapshot()).(sockets := Connected(old(Snapshot()).sockets, k, t, link));
      Join(k, t);
    }

    method Join(k: SocketId, t: Tenant)
      modifies this`rooms, this`roomHandlers, this`serial, bus
      ensures Snapshot() == Joined(old(Snapshot()), k, t)
    {
      var room := {};
      if t in rooms {
        room := rooms[t];
      }
      room := room + {k};
      rooms := rooms[t := room];
      EnsureRoomSubscription(t);
    }

    method OnPong(k: SocketId)
      requires k in tenants
      modifies this
      ensures Snapshot() == After(old(Snapshot()), Pong(k))
    {
      alive := alive[k := true];
    }

    /** 'close' and 'error' do the same. */
    method OnGone(k: SocketId)
      requires k in tenants
      modifies this, bus
      ensures Snapshot() == After(old(Snapshot()), Gone(k))
    {
      RemoveFromRoom(tenants[k], k);
    }

    /** The heartbeat over one room. */
    method BeatRoom(room: set<SocketId>)
      requires room <= alive.Keys
      modifies this`alive, this`dropped
      ensures alive == AliveAfter(old(alive), room)
      ensures dropped == DroppedAfter(old(alive), old(dropped), room)
    {
      var rest := room;
      while rest != {}
        invariant rest <= room && alive.Keys == old(alive).Keys
        invariant forall k | k in alive :: alive[k] == (old(alive)[k] && k !in room - rest)
        invariant dropped == old(dropped) + (set k | k in room - rest && !old(alive)[k])
      {
        var k :| k in rest;
        rest := rest - {k};
        if !alive[k] {
          dropped := dropped + {k};
          continue;
        }
        alive := alive[k := false];
      }
    }

    /** A socket is in one room only, so no socket is looked at twice in one heartbeat. */
    method Heartbeat()
      requires RoomsConsistent(Snapshot().rooms, tenants) && SocketsConsistent(Snapshot().sockets) && !shut
      modifies this
      ensures Snapshot() == After(old(Snapshot()), Beat)
    {
      var rest := rooms.Keys;
      ghost var start := Snapshot();
      ghost var done: set<SocketId> := {};
      assert alive == AliveAfter(alive, {});
      while rest != {}
        modifies this`alive, this`dropped
        invariant rest <= rooms.Keys && done == InSomeRoom(rooms - rest)
        invariant alive == AliveAfter(old(alive), done) && dropped == DroppedAfter(old(alive), old(dropped), done)
      {
        var t :| t in rest;
        OneMoreRoom(start, rest, t);
        BeatInParts(old(alive), old(dropped), done, rooms[t]);
        BeatRoom(rooms[t]);
        rest := rest - {t};
        done := done + rooms[t];
      }
      assert rooms - rest == rooms;
    }

    /** `close()`: unsubscribe every room, terminate every socket. */
    method Close()
      requires Ledger(Snapshot()) && !shut
      modifies this, bus
      ensures Snapshot() == After(old(Snapshot()), Shut)
    {
      forall t | t in roomHandlers
        ensures ChannelOf(t) in bus.listeners
      {
        RoomIsListening(Snapshot(), t);
      }
      UnsubscribeRooms();
      roomHandlers := map[];
      TerminateRooms();
      rooms := map[];
      shut := true;
    }

    /** Terminates every socket of every room. */
    method TerminateRooms()
      modifies this`cut
      ensures cut == old(cut) + InSomeRoom(rooms)
    {
      var rest := rooms.Keys;
      assert InSomeRoom(rooms - rest) == {};
      while rest != {}
        invariant rest <= rooms.Keys && cut == old(cut) + InSomeRoom(rooms - rest)
      {
        var t :| t in rest;
        var sockets := rooms[t];
        ghost var before := cut;
        while sockets != {}
          invariant sockets <= rooms[t] && cut == before + (rooms[t] - sockets)
        {
          var k :| k in sockets;
          cut := cut + {k};
          sockets := sockets - {k};
        }
        RoomsOneMore(rooms, rest, t);
        rest := rest - {t};
      }
      assert rooms - rest == rooms;
    }

    method UnsubscribeRooms()
      requires forall t | t in roomHandlers :: ChannelOf(t) in bus.listeners
      modifies bus
      ensures bus.listeners == OffAll(old(bus.listeners), roomHandlers)
    {
      var rest := roomHandlers.Keys;
      assert roomHandlers - rest == map[];
      while rest != {}
        modifies bus
        invariant rest <= roomHandlers.Keys && bus.listeners == OffAll(old(bus.listeners), roomHandlers - rest)
      {
        var t :| t in rest;
        OffOneMore(old(bus.listeners), roomHandlers, rest, t);
        bus.Unsubscribe("incidents:" + t, roomHandlers[t]);
        rest := rest - {t};
      }
      assert roomHandlers - rest == roomHandlers;
    }

    // ----- pubsub.ts: emit -----

    /** Every listener registered when the publish begins is called, in order. */
    method Emit(channel: string, payload: Payload)
      requires RoomsKnown()
      modifies this
      ensures Snapshot() == After(old(Snapshot()), Publish(channel, payload))
    {
      var hs := if channel in bus.listeners then bus.listeners[channel] else [];
      var i := 0;
      assert hs[..0] == [];
      while i < |hs|
        modifies this`sent, this`written
        invariant 0 <= i <= |hs| && Snapshot() == CalledAll(old(Snapshot()), hs[..i], payload)
        invariant sent.Keys == old(sent).Keys
      {
        OneMoreCall(old(Snapshot()), hs, i, payload);
        Call(hs[i], payload);
        i := i + 1;
      }
      assert hs[..i] == hs;
    }

    /** One listener runs. */
    method Call(h: Handler, payload: Payload)
      requires RoomsKnown()
      modifies this`sent, this`written
      ensures Snapshot() == Called(old(Snapshot()), h, payload) && sent.Keys == old(sent).Keys
    {
      match h {
        case RoomHandler(t, _) => BroadcastToRoom(t, payload);
        case SseHandler(c) => SseWrite(c, payload);
        case OtherHandler(_) =>
      }
    }

    // ----- sse.ts -----

    method SseWrite(c: ConnId, payload: Payload)
      modifies this`written
      ensures Snapshot().streams == WriteFrame(old(Snapshot()).streams, c, Data(payload))
    {
      if c in sse && c in written {
        if sse[c].ended {
          return;
        }
        written := written[c := written[c] + [Data(payload)]];
      }
    }

    method SseKeepAlive(c: ConnId)
      requires c in sse && c in written && sse[c].heartbeat
      modifies this
      ensures Snapshot() == After(old(Snapshot()), KeepAlive(c))
    {
      if sse[c].ended {
        sse := sse[c := sse[c].(heartbeat := false)];
        return;
      }
      written := written[c := written[c] + [Comment]];
    }

    method IncidentSse(c: ConnId, t: Tenant)
      requires c !in sse
      modifies this`sse, this`active, this`written, bus
      ensures Snapshot() == After(old(Snapshot()), SseOpen(c, t))
    {
      if t == "" {
        return;
      }
      written := written[c := []];
      active := active + {c};
      bus.Subscribe("incidents:" + t, SseHandler(c));
      sse := sse[c := SseConn(t, false, true, false)];
    }

    method OnRequestClose(c: ConnId)
      requires c in sse
      modifies this`sse, this`active, bus
      ensures Snapshot() == After(old(Snapshot()), SseClose(c))
    {
      active := active - {c};
      bus.Unsubscribe("incidents:" + sse[c].tenant, SseHandler(c));
      sse := sse[c := sse[c].(heartbeat := false, closed := true)];
      if !sse[c].ended {
        sse := sse[c := sse[c].(ended := true)];
      }
    }

    method TerminateAll()
      requires StreamsConsistent(Snapshot().streams)
      modifies this`sse, this`active
      ensures Snapshot() == After(old(Snapshot()), TerminateAllSse)
    {
      EndResponses();
      active := {};
    }

    method EndResponses()
      requires active <= sse.Keys
      modifies this`sse
      ensures sse == EndAll(old(sse), active)
    {
      var rest := active;
      assert EndAll(sse, {}) == sse;
      while rest != {}
        invariant rest <= active && sse == EndAll(old(sse), active - rest)
      {
        var c :| c in rest;
        EndOneMore(old(sse), active, rest, c);
        rest := rest - {c};
        if !sse[c].ended {
          sse := sse[c := sse[c].(ended := true)];
        }
      }
      assert active - rest == active;
    }
  }

  lemma {:induction false} OffOneChannel(
    listeners: map<string, seq<Handler>>, handlers: map<Tenant, Handler>, rest: set<Tenant>, t: Tenant, ch: string)
    requires t in rest && t in handlers && ChannelOf(t) in listeners && ch in listeners
    ensures Off(OffAll(listeners, handlers - rest), ChannelOf(t), handlers[t])[ch] ==
            OffAll(listeners, handlers - (rest - {t}))[ch]
  {
    ChannelNamesTenant(t, ch);
  }

  /** Unsubscribing one more room of those still to do. */
  lemma OffOneMore(listeners: map<string, seq<Handler>>, handlers: map<Tenant, Handler>, rest: set<Tenant>, t: Tenant)
    requires t in rest && t in handlers && ChannelOf(t) in listeners
    ensures Off(OffAll(listeners, handlers - rest), ChannelOf(t), handlers[t]) == OffAll(listeners, handlers - (rest - {t}))
  {
    var one := Off(OffAll(listeners, handlers - rest), ChannelOf(t), handlers[t]);
    var all := OffAll(listeners, handlers - (rest - {t}));
    assert one.Keys == listeners.Keys == all.Keys;
    forall ch | ch in listeners
      ensures one[ch] == all[ch]
    {
      OffOneChannel(listeners, handlers, rest, t, ch);
    }
  }

  lemma {:induction false} OneMoreCall(s: Hub, hs: seq<Handler>, i: nat, payload: Payload)
    requires i < |hs|
    ensures CalledAll(s, hs[..i + 1], payload) == Called(CalledAll(s, hs[..i], payload), hs[i], payload)
  {
    assert hs[..i + 1][..i] == hs[..i];
  }

  lemma EndOneMore(conns: map<ConnId, SseConn>, active: set<ConnId>, rest: set<ConnId>, c: ConnId)
    requires c in rest && c in conns && rest <= active
    ensures var before := EndAll(conns, active - rest);
            EndAll(conns, active - (rest - {c})) ==
            if before[c].ended then before else before[c := before[c].(ended := true)]
  {
  }

  /** The last occurrence is the one before `i` when none stands at or after `i`. */
  lemma {:induction false} WithoutLastAt(hs: seq<Handler>, i: nat, h: Handler)
    requires i <= |hs| && (forall j | i <= j < |hs| :: hs[j] != h) && (i > 0 ==> hs[i - 1] == h)
    ensures WithoutLast(hs, h) == if i > 0 then hs[..i - 1] + hs[i..] else hs
    decreases |hs|
  {
    if i < |hs| {
      var front, last := hs[..|hs| - 1], hs[|hs| - 1];
      WithoutLastAt(front, i, h);
      assert WithoutLast(hs, h) == WithoutLast(front, h) + [last] && front + [last] == hs;
      if i > 0 {
        assert (front[..i - 1] + front[i..]) + [last] == hs[..i - 1] + hs[i..];
      }
    }
  }

  /** A room's channel has listeners. */
  lemma RoomIsListening(s: Hub, t: Tenant)
    requires Ledger(s) && t in s.rooms.handlers
    ensures ChannelOf(t) in s.listeners
  {
    ChannelNamesTenant(t, ChannelOf(t));
    assert RoomsIn(ListenersOn(s.listeners, ChannelOf(t))) ==
           RoomHandlersFor(s.rooms.handlers, ChannelOf(t)) == [s.rooms.handlers[t]];
  }

  /** Pinging two separate groups is pinging them together. */
  lemma BeatInParts(alive: map<SocketId, bool>, dropped: set<SocketId>, a: set<SocketId>, b: set<SocketId>)
    requires a !! b
    ensures AliveAfter(AliveAfter(alive, a), b) == AliveAfter(alive, a + b)
    ensures DroppedAfter(AliveAfter(alive, a), DroppedAfter(alive, dropped, a), b) == DroppedAfter(alive, dropped, a + b)
  {
  }

  lemma RoomsOneMore(members: map<Tenant, set<SocketId>>, rest: set<Tenant>, t: Tenant)
    requires t in rest && t in members
    ensures InSomeRoom(members - (rest - {t})) == InSomeRoom(members - rest) + members[t]
  {
    var fewer, more := members - rest, members - (rest - {t});
    assert more[t] == members[t] && forall u | u in fewer :: u in more && more[u] == fewer[u];
    forall k
      ensures k in InSomeRoom(more) <==> k in InSomeRoom(fewer) || k in members[t]
    {
      if k in InSomeRoom(more) {
        var u :| u in more && k in more[u];
        assert u == t || u in fewer;
      }
    }
  }

  /** The rooms not yet visited share no socket with those visited. */
  lemma OneMoreRoom(s: Hub, rest: set<Tenant>, t: Tenant)
    requires RoomsConsistent(s.rooms, s.sockets.tenants) && SocketsConsistent(s.sockets)
    requires t in rest && rest <= s.rooms.members.Keys
    ensures InSomeRoom(s.rooms.members - rest) !! s.rooms.members[t] && s.rooms.members[t] <= s.sockets.alive.Keys
    ensures InSomeRoom(s.rooms.members - (rest - {t})) == InSomeRoom(s.rooms.members - rest) + s.rooms.members[t]
  {
    var fewer := s.rooms.members - rest;
    RoomsOneMore(s.rooms.members, rest, t);
    forall k | k in InSomeRoom(fewer)
      ensures k !in s.rooms.members[t]
    {
      var u :| u in fewer && k in fewer[u];
      assert u in s.rooms.members && u != t && fewer[u] == s.rooms.members[u];
      assert s.sockets.tenants[k] == u;
    }
  }
}
