/**
 Who gets which messages (src/realtime/ws.ts:87-101, 119-163, src/realtime/sse.ts:56-82, 117-139), and whom the
 heartbeat drops (src/realtime/ws.ts:171-182).

 `View` and `StreamView` are reference observers: each follows one socket or one stream through the run and knows
 nothing of rooms, handlers or the bus.
 */
module Delivery {
  import opened Realtime
  import opened RoomLedger

  // ----- WebSocket delivery -----

  datatype View = View(connected: bool, joined: bool, tenant: Tenant, link: Link, inbox: seq<Payload>)

  /** Can the socket take a message now? */
  predicate Ready(v: View) {
    v.joined && v.link.open && v.link.buffered <= 65536
  }

  /** What one step means for socket `k`. */
  function Seen(v: View, step: Step, k: SocketId): View {
    match step
    case Connect(j, t, link) => if j == k && t != "" then View(true, true, t, link, []) else v
    case Gone(j) => if j == k then v.(joined := false) else v
    case LinkChanges(j, link) => if j == k then v.(link := link) else v
    case Shut => v.(joined := false)
    case Publish(channel, payload) =>
      if Ready(v) && channel == "incidents:" + v.tenant then v.(inbox := v.inbox + [payload]) else v
    case Broadcast(t, payload) => if Ready(v) && t == v.tenant then v.(inbox := v.inbox + [payload]) else v
    case _ => v
  }

  function Watch(run: seq<Step>, k: SocketId): View {
    if run == [] then View(false, false, "", Link(false, 0), [])
    else Seen(Watch(run[..|run| - 1], k), run[|run| - 1], k)
  }

  /** The observer agrees with the hub. */
  ghost predicate Agrees(s: Hub, v: View, k: SocketId) {
    && v.connected == (k in s.sockets.tenants)
    && (v.joined ==> v.connected)
    && (k in s.sockets.tenants && k in s.sockets.links && k in s.sockets.sent ==>
          && v.tenant == s.sockets.tenants[k]
          && v.link == s.sockets.links[k]
          && v.inbox == s.sockets.sent[k]
          && v.joined == InRoom(s, k))
  }

  /** What one subscriber sends to socket `k`. */
  function SentBy(s: Hub, h: Handler, payload: Payload, k: SocketId): seq<Payload> {
    if h.RoomHandler? && h.tenant in s.rooms.members && k in s.rooms.members[h.tenant] && Eligible(s.sockets, k)
    then [payload] else []
  }

  lemma OneCallSends(s: Hub, h: Handler, payload: Payload, k: SocketId)
    requires k in s.sockets.sent
    ensures k in Called(s, h, payload).sockets.sent
    ensures Called(s, h, payload).sockets.sent[k] == s.sockets.sent[k] + SentBy(s, h, payload, k)
    ensures Called(s, h, payload).rooms.members == s.rooms.members && Called(s, h, payload).sockets.links == s.sockets.links
  {
  }

  /** Only room handlers send, and each sends to its room. */
  lemma {:induction false} CallingSends(s: Hub, hs: seq<Handler>, payload: Payload, k: SocketId)
    requires k in s.sockets.sent
    requires |RoomsIn(hs)| <= 1
    ensures var s' := CalledAll(s, hs, payload);
            && k in s'.sockets.sent && s'.rooms.members == s.rooms.members && s'.sockets.links == s.sockets.links
            && s'.sockets.sent[k] ==
               s.sockets.sent[k] + if RoomsIn(hs) == [] then [] else SentBy(s, RoomsIn(hs)[0], payload, k)
    decreases |hs|
  {
    if hs != [] {
      var front, last := hs[..|hs| - 1], hs[|hs| - 1];
      assert RoomsIn(hs) == RoomsIn(front) + if last.RoomHandler? then [last] else [];
      CallingSends(s, front, payload, k);
      OneCallSends(CalledAll(s, front, payload), last, payload, k);
    }
  }

  lemma {:induction false} PublishDelivers(s: Hub, channel: string, payload: Payload, v: View, k: SocketId)
    requires Ledger(s) && Agrees(s, v, k)
    ensures Agrees(After(s, Publish(channel, payload)), Seen(v, Publish(channel, payload), k), k)
  {
    var hs := ListenersOn(s.listeners, channel);
    CallingOnlyWrites(s, hs, payload);
    if k in s.sockets.tenants {
      assert RoomsIn(hs) == RoomHandlersFor(s.rooms.handlers, channel);
      ChannelNamesTenant(s.sockets.tenants[k], channel);
      CallingSends(s, hs, payload, k);
      assert SentBy(s, RoomHandler(s.sockets.tenants[k], 0), payload, k) == if Ready(v) then [payload] else [];
    }
  }

  lemma JoinAgrees(s: Hub, step: Step, v: View, k: SocketId)
    requires CanStep(s, step) && Ledger(s) && Agrees(s, v, k) && step.Connect?
    ensures Agrees(After(s, step), Seen(v, step, k), k)
  {
  }

  lemma BroadcastAgrees(s: Hub, t: Tenant, payload: Payload, v: View, k: SocketId)
    requires RoomsConsistent(s.rooms, s.sockets.tenants) && SocketsConsistent(s.sockets) && Agrees(s, v, k)
    ensures Agrees(BroadcastTo(s, t, payload), Seen(v, Broadcast(t, payload), k), k)
  {
  }

  lemma LeaveAgrees(s: Hub, j: SocketId, v: View, k: SocketId)
    requires j in s.sockets.tenants && Ledger(s) && Agrees(s, v, k)
    ensures Agrees(After(s, Gone(j)), Seen(v, Gone(j), k), k)
  {
    var s' := After(s, Gone(j));
    var t := s.sockets.tenants[j];
    if k in s.sockets.tenants && k != j {
      if s.sockets.tenants[k] == t && t in s.rooms.members && k in s.rooms.members[t] {
        assert k in s.rooms.members[t] - {j};
      }
      assert InRoom(s', k) == InRoom(s, k);
    } else if k == j {
      assert !InRoom(s', k);
    }
  }

  lemma HubStepAgrees(s: Hub, step: Step, v: View, k: SocketId)
    requires CanStep(s, step) && RoomsConsistent(s.rooms, s.sockets.tenants) && SocketsConsistent(s.sockets) && Agrees(s, v, k)
    requires step.Beat? || step.Shut? || step.LinkChanges? || step.Pong?
    ensures Agrees(After(s, step), Seen(v, step, k), k)
  {
  }

  lemma OtherStepAgrees(s: Hub, step: Step, v: View, k: SocketId)
    requires CanStep(s, step) && Agrees(s, v, k)
    requires step.SubscribeOther? || step.UnsubscribeOther? || step.SseOpen? || step.SseClose? || step.KeepAlive?
             || step.TerminateAllSse?
    ensures Agrees(After(s, step), Seen(v, step, k), k)
  {
  }

  lemma StepDelivers(s: Hub, step: Step, v: View, k: SocketId)
    requires CanStep(s, step) && Ledger(s) && Agrees(s, v, k)
    ensures Agrees(After(s, step), Seen(v, step, k), k)
  {
    match step
    case Publish(channel, payload) => PublishDelivers(s, channel, payload, v, k);
    case Gone(j) => LeaveAgrees(s, j, v, k);
    case Connect(_, _, _) => JoinAgrees(s, step, v, k);
    case Broadcast(t, payload) => BroadcastAgrees(s, t, payload, v, k);
    case Beat => HubStepAgrees(s, step, v, k);
    case Shut => HubStepAgrees(s, step, v, k);
    case LinkChanges(_, _) => HubStepAgrees(s, step, v, k);
    case Pong(_) => HubStepAgrees(s, step, v, k);
    case _ => OtherStepAgrees(s, step, v, k);
  }

  lemma {:induction false} ObserverAgrees(run: seq<Step>, k: SocketId)
    requires Possible(run)
    ensures Agrees(Reached(run), Watch(run, k), k)
    decreases |run|
  {
    if run != [] {
      var front := run[..|run| - 1];
      LedgerAlwaysHolds(front);
      ObserverAgrees(front, k);
      StepDelivers(Reached(front), run[|run| - 1], Watch(front, k), k);
    }
  }

  /**
   Exact delivery: after any run a socket has been sent, in order and once each, exactly the messages published on
   its tenant's channel or broadcast to its tenant while it was joined, open and not backed up.
   */
  lemma {:induction false} ExactDelivery(run: seq<Step>, k: SocketId)
    requires Possible(run) && k in Reached(run).sockets.tenants
    ensures k in Reached(run).sockets.sent && Reached(run).sockets.sent[k] == Watch(run, k).inbox
    ensures Watch(run, k).tenant == Reached(run).sockets.tenants[k] && Watch(run, k).joined == InRoom(Reached(run), k)
  {
    LedgerAlwaysHolds(run);
    ObserverAgrees(run, k);
  }

  // ----- SSE delivery -----

  /**
   `listening` until the request closes, `ended` once the response has ended, `tracked` until either, `ticking` while the
   keep-alive runs: its first tick after the end is the last.
   */
  datatype StreamView = StreamView(
    known: bool, listening: bool, ended: bool, tracked: bool, ticking: bool, tenant: Tenant, frames: seq<Frame>)

  function SeenByStream(v: StreamView, step: Step, c: ConnId): StreamView {
    match step
    case SseOpen(d, t) => if d == c && t != "" then StreamView(true, true, false, true, true, t, []) else v
    case SseClose(d) => if d == c then v.(listening := false, ended := true, tracked := false, ticking := false) else v
    case TerminateAllSse => if v.tracked then v.(ended := true, tracked := false) else v
    case Publish(channel, payload) =>
      if v.known && v.listening && !v.ended && channel == "incidents:" + v.tenant
      then v.(frames := v.frames + [Data(payload)]) else v
    case KeepAlive(d) =>
      if d != c then v else if v.ended then v.(ticking := false) else v.(frames := v.frames + [Comment])
    case _ => v
  }

  function WatchStream(run: seq<Step>, c: ConnId): StreamView {
    if run == [] then StreamView(false, false, false, false, false, "", [])
    else SeenByStream(WatchStream(run[..|run| - 1], c), run[|run| - 1], c)
  }

  ghost predicate StreamAgrees(st: Streams, v: StreamView, c: ConnId) {
    && v.known == (c in st.conns) == (c in st.written)
    && v.tracked == (c in st.active)
    && (c in st.conns && c in st.written ==>
          && v.tenant == st.conns[c].tenant
          && v.listening == !st.conns[c].closed
          && v.ended == st.conns[c].ended
          && v.ticking == st.conns[c].heartbeat
          && v.frames == st.written[c]
          && (!v.ended ==> v.tracked))
  }

  /** A stream registered once is written once. */
  lemma {:induction false} CallingWrites(s: Hub, hs: seq<Handler>, payload: Payload, c: ConnId)
    requires c in s.streams.conns && c in s.streams.written && multiset(hs)[SseHandler(c)] <= 1
    ensures var st, st' := s.streams, CalledAll(s, hs, payload).streams;
            && c in st'.written && st'.conns == st.conns
            && st'.written[c] ==
               st.written[c] + if SseHandler(c) in hs && !st.conns[c].ended then [Data(payload)] else []
    decreases |hs|
  {
    if hs != [] {
      var front, last := hs[..|hs| - 1], hs[|hs| - 1];
      assert hs == front + [last];
      CallingWrites(s, front, payload, c);
      var s1 := CalledAll(s, front, payload);
      assert CalledAll(s, hs, payload) == Called(s1, last, payload);
      if last == SseHandler(c) {
        assert SseHandler(c) !in front;
      }
    }
  }

  lemma {:induction false} PublishStreams(s: Hub, channel: string, payload: Payload, v: StreamView, c: ConnId)
    requires Ledger(s) && StreamAgrees(s.streams, v, c)
    ensures StreamAgrees(After(s, Publish(channel, payload)).streams, SeenByStream(v, Publish(channel, payload), c), c)
  {
    var hs := ListenersOn(s.listeners, channel);
    CallingOnlyWrites(s, hs, payload);
    if c in s.streams.conns {
      assert multiset(hs)[SseHandler(c)] == StreamCount(s.streams.conns, c, channel);
      CallingWrites(s, hs, payload, c);
    }
  }

  lemma OpenAgrees(s: Hub, d: ConnId, t: Tenant, v: StreamView, c: ConnId)
    requires d !in s.streams.conns && StreamAgrees(s.streams, v, c) && StreamsConsistent(s.streams) && t != ""
    ensures StreamAgrees(Opened(s, d, t).streams, SeenByStream(v, SseOpen(d, t), c), c)
  {
  }

  lemma CloseAgrees(s: Hub, d: ConnId, v: StreamView, c: ConnId)
    requires d in s.streams.conns && StreamAgrees(s.streams, v, c)
    ensures StreamAgrees(StreamClosed(s, d).streams, SeenByStream(v, SseClose(d), c), c)
  {
  }

  lemma KeepAliveAgrees(st: Streams, d: ConnId, v: StreamView, c: ConnId)
    requires d in st.conns && StreamAgrees(st, v, c) && StreamsConsistent(st)
    ensures StreamAgrees(KeptAlive(st, d), SeenByStream(v, KeepAlive(d), c), c)
  {
  }

  lemma TerminateAgrees(st: Streams, v: StreamView, c: ConnId)
    requires StreamAgrees(st, v, c) && StreamsConsistent(st)
    ensures StreamAgrees(Terminated(st), SeenByStream(v, TerminateAllSse, c), c)
  {
  }

  lemma StepStreams(s: Hub, step: Step, v: StreamView, c: ConnId)
    requires CanStep(s, step) && Ledger(s) && StreamAgrees(s.streams, v, c)
    ensures StreamAgrees(After(s, step).streams, SeenByStream(v, step, c), c)
  {
    match step
    case Publish(channel, payload) => PublishStreams(s, channel, payload, v, c);
    case SseOpen(d, t) => if t != "" { OpenAgrees(s, d, t, v, c); }
    case SseClose(d) => CloseAgrees(s, d, v, c);
    case KeepAlive(d) => KeepAliveAgrees(s.streams, d, v, c);
    case TerminateAllSse => TerminateAgrees(s.streams, v, c);
    case _ =>
      // no other step touches the streams
      assert After(s, step).streams == s.streams;
  }

  lemma {:induction false} StreamObserverAgrees(run: seq<Step>, c: ConnId)
    requires Possible(run)
    ensures StreamAgrees(Reached(run).streams, WatchStream(run, c), c)
    decreases |run|
  {
    if run != [] {
      var front := run[..|run| - 1];
      LedgerAlwaysHolds(front);
      StreamObserverAgrees(front, c);
      StepStreams(Reached(front), run[|run| - 1], WatchStream(front, c), c);
    }
  }

  /**
   A response is written exactly the events of its tenant's channel, and its keep-alives, from its opening to its end;
   and its keep-alive can tick exactly until its request closes or it finds the response ended.
   */
  lemma {:induction false} ExactStreaming(run: seq<Step>, c: ConnId)
    requires Possible(run) && c in Reached(run).streams.conns
    ensures c in Reached(run).streams.written && Reached(run).streams.written[c] == WatchStream(run, c).frames
    ensures CanStep(Reached(run), KeepAlive(c)) <==> WatchStream(run, c).ticking
  {
    StreamObserverAgrees(run, c);
  }

  /** Nothing is written to a response once `terminateAllSse` has run, or once its request has closed. */
  lemma {:induction false} NothingAfterTheEnd(run: seq<Step>, more: seq<Step>, c: ConnId)
    requires Possible(run) && Possible(run + more) && c in Reached(run).streams.conns
    requires run != [] && (run[|run| - 1] == TerminateAllSse || run[|run| - 1] == SseClose(c))
    ensures c in Reached(run).streams.written && c in Reached(run + more).streams.written
    ensures Reached(run + more).streams.written[c] == Reached(run).streams.written[c]
  {
    StreamObserverAgrees(run, c);
    StreamObserverAgrees(run[..|run| - 1], c);
    EndedStaysEnded(run, more, c);
    StreamObserverAgrees(run + more, c);
  }

  lemma {:induction false} EndedStaysEnded(run: seq<Step>, more: seq<Step>, c: ConnId)
    requires Possible(run + more) && Possible(run) && WatchStream(run, c).known && WatchStream(run, c).ended
    ensures WatchStream(run + more, c).known && WatchStream(run + more, c).ended
    ensures WatchStream(run + more, c).frames == WatchStream(run, c).frames
    decreases |more|
  {
    if more == [] {
      assert run + more == run;
    } else {
      var front := more[..|more| - 1];
      assert (run + more)[..|run + more| - 1] == run + front;
      EndedStaysEnded(run, front, c);
      StreamObserverAgrees(run + front, c);
    }
  }

  // ----- Shutdown -----

  /** A socket is terminated by the shutdown if and only if it was in its room just then. */
  lemma {:induction false} ShutdownTerminates(run: seq<Step>, k: SocketId)
    requires Possible(run)
    ensures k in Reached(run).sockets.cut <==>
            exists i :: 0 <= i < |run| && run[i] == Shut && InRoomAt(run, i, k)
    decreases |run|
  {
    if run != [] {
      var front, last := run[..|run| - 1], run[|run| - 1];
      LedgerAlwaysHolds(front);
      ShutdownTerminates(front, k);
      CutStep(Reached(front), last, k);
      assert InRoomAt(run, |run| - 1, k) == InRoom(Reached(front), k);
      forall i | 0 <= i < |front|
        ensures run[i] == front[i] && InRoomAt(front, i, k) == InRoomAt(run, i, k)
      {
        PrefixesAgree(run, i, k);
      }
    }
  }

  lemma CutStep(s: Hub, step: Step, k: SocketId)
    requires CanStep(s, step) && Ledger(s)
    ensures k in After(s, step).sockets.cut <==> k in s.sockets.cut || (step == Shut && InRoom(s, k))
  {
    if step.Publish? {
      CallingOnlyWrites(s, ListenersOn(s.listeners, step.channel), step.payload);
    } else if step.Shut? && k in InSomeRoom(s.rooms.members) {
      var t :| t in s.rooms.members && k in s.rooms.members[t];
    }
  }

  // ----- The heartbeat -----

  /** Has socket `k` answered since the last heartbeat, as far as the run shows? */
  ghost predicate SilentSince(run: seq<Step>, i: nat, k: SocketId) {
    i < |run| && run[i] == Beat && forall m | i < m < |run| :: run[m] != Pong(k)
  }

  /** Only a heartbeat clears a flag, only a pong or a connection raises it, only a cleared flag gets a socket dropped. */
  lemma FlagStep(s: Hub, step: Step, k: SocketId)
    requires CanStep(s, step) && Ledger(s)
    ensures var before, after := s.sockets, After(s, step).sockets;
            && (k in after.alive && !after.alive[k] ==>
                  (step == Beat && InRoom(s, k)) || (k in before.alive && !before.alive[k] && step != Pong(k)))
            && (k in after.dropped ==>
                  k in before.dropped || (step == Beat && InRoom(s, k) && k in before.alive && !before.alive[k]))
  {
    if step.Publish? {
      CallingOnlyWrites(s, ListenersOn(s.listeners, step.channel), step.payload);
    } else if step.Beat? && k in InSomeRoom(s.rooms.members) {
      var t :| t in s.rooms.members && k in s.rooms.members[t];
    }
  }

  /** Was socket `k` in its room after the first `i` steps? */
  ghost predicate InRoomAt(run: seq<Step>, i: nat, k: SocketId) {
    i <= |run| && Possible(run[..i]) && InRoom(Reached(run[..i]), k)
  }

  lemma {:induction false} PrefixesAgree(run: seq<Step>, i: nat, k: SocketId)
    requires run != [] && i < |run|
    ensures InRoomAt(run[..|run| - 1], i, k) == InRoomAt(run, i, k)
  {
    assert run[..|run| - 1][..i] == run[..i];
  }

  lemma {:induction false} StillSilent(run: seq<Step>, i: nat, k: SocketId)
    requires run != [] && SilentSince(run[..|run| - 1], i, k) && run[|run| - 1] != Pong(k)
    ensures SilentSince(run, i, k)
  {
    var front := run[..|run| - 1];
    assert run[i] == front[i];
    assert forall m | i < m < |front| :: run[m] == front[m];
  }

  /** A cleared flag means a heartbeat, with the socket in its room, that has not been answered since. */
  lemma {:induction false} ClearedFlagMeansSilence(run: seq<Step>, k: SocketId)
    requires Possible(run) && k in Reached(run).sockets.alive && !Reached(run).sockets.alive[k]
    ensures exists i :: SilentSince(run, i, k) && InRoomAt(run, i, k)
    decreases |run|
  {
    var front, last := run[..|run| - 1], run[|run| - 1];
    LedgerAlwaysHolds(front);
    FlagStep(Reached(front), last, k);
    if last == Beat && InRoom(Reached(front), k) {
      assert SilentSince(run, |run| - 1, k) && InRoomAt(run, |run| - 1, k);
    } else {
      ClearedFlagMeansSilence(front, k);
      var i :| SilentSince(front, i, k) && InRoomAt(front, i, k);
      PrefixesAgree(run, i, k);
      StillSilent(run, i, k);
    }
  }

  /** Between any two heartbeats that find the socket in its room, it sends a pong. */
  ghost predicate Punctual(run: seq<Step>, k: SocketId) {
    forall i, j | 0 <= i < j < |run| && run[i] == Beat && run[j] == Beat && InRoomAt(run, i, k) && InRoomAt(run, j, k) ::
      exists m :: i < m < j && run[m] == Pong(k)
  }

  /** A socket that, while in its room, answers every heartbeat before the next one is never dropped by it. */
  lemma {:induction false} PunctualSocketsAreKept(run: seq<Step>, k: SocketId)
    requires Possible(run) && Punctual(run, k)
    ensures k !in Reached(run).sockets.dropped
    decreases |run|
  {
    if run != [] {
      var front, last := run[..|run| - 1], run[|run| - 1];
      PunctualSoFar(run, k);
      PunctualSocketsAreKept(front, k);
      LedgerAlwaysHolds(front);
      FlagStep(Reached(front), last, k);
      var alive := Reached(front).sockets.alive;
      if last == Beat && InRoom(Reached(front), k) && k in alive && !alive[k] {
        ClearedFlagMeansSilence(front, k);
        var i :| SilentSince(front, i, k) && InRoomAt(front, i, k);
        PrefixesAgree(run, i, k);
        SilenceIsNotPunctual(run, i, k);
      }
    }
  }

  lemma {:induction false} SilenceIsNotPunctual(run: seq<Step>, i: nat, k: SocketId)
    requires run != [] && Punctual(run, k) && SilentSince(run[..|run| - 1], i, k)
    requires InRoomAt(run, i, k) && InRoomAt(run, |run| - 1, k)
    ensures run[|run| - 1] != Beat
  {
    var front := run[..|run| - 1];
    assert front[i] == run[i];
    forall m | i < m < |front|
      ensures run[m] != Pong(k)
    {
      assert front[m] == run[m];
    }
  }

  lemma {:induction false} PunctualSoFar(run: seq<Step>, k: SocketId)
    requires run != [] && Punctual(run, k)
    ensures Punctual(run[..|run| - 1], k)
  {
    var front := run[..|run| - 1];
    forall i, j | 0 <= i < j < |front| && front[i] == Beat && front[j] == Beat
                  && InRoomAt(front, i, k) && InRoomAt(front, j, k)
      ensures exists m :: i < m < j && front[m] == Pong(k)
    {
      PrefixesAgree(run, i, k);
      PrefixesAgree(run, j, k);
      assert run[i] == Beat && run[j] == Beat;
      var m :| i < m < j && run[m] == Pong(k);
      assert front[m] == Pong(k);
    }
  }

  /** The socket is dropped already, or its flag is down. */
  ghost predicate Marked(s: Hub, k: SocketId) {
    k in s.sockets.dropped || (InRoom(s, k) && k in s.sockets.alive && !s.sockets.alive[k])
  }

  lemma BeatMarks(s: Hub, k: SocketId)
    requires Ledger(s) && InRoom(s, k)
    ensures Marked(Beaten(s), k) && (Marked(s, k) ==> k in Beaten(s).sockets.dropped)
  {
    assert k in InSomeRoom(s.rooms.members);
  }

  /** A step that is neither the socket's pong nor its departure leaves the mark. */
  lemma MarkStays(s: Hub, step: Step, k: SocketId)
    requires CanStep(s, step) && Ledger(s) && Marked(s, k) && step != Pong(k)
    requires InRoom(After(s, step), k)
    ensures Marked(After(s, step), k)
  {
    if step.Publish? {
      CallingOnlyWrites(s, ListenersOn(s.listeners, step.channel), step.payload);
    }
  }

  /** From one heartbeat to the next the mark stays on a silent socket. */
  lemma {:induction false} SilentSocketsStayMarked(run: seq<Step>, i: nat, k: SocketId)
    requires Possible(run) && SilentSince(run, i, k)
    requires forall m | i <= m <= |run| :: Possible(run[..m]) && InRoom(Reached(run[..m]), k)
    ensures Marked(Reached(run), k)
    decreases |run|
  {
    var front, last := run[..|run| - 1], run[|run| - 1];
    assert run[..|run|] == run && run[..|run| - 1] == front;
    LedgerAlwaysHolds(front);
    if i == |run| - 1 {
      BeatMarks(Reached(front), k);
    } else {
      forall m | i <= m <= |front|
        ensures Possible(front[..m]) && InRoom(Reached(front[..m]), k)
      {
        assert front[..m] == run[..m];
      }
      SilentSocketsStayMarked(front, i, k);
      MarkStays(Reached(front), last, k);
    }
  }

  /** A socket that stays in its room and sends no pong between two heartbeats is dropped by the second. */
  lemma {:induction false} SilentSocketsAreDropped(run: seq<Step>, i: nat, k: SocketId)
    requires Possible(run + [Beat]) && Possible(run) && SilentSince(run, i, k)
    requires forall m | i <= m <= |run| :: Possible(run[..m]) && InRoom(Reached(run[..m]), k)
    ensures k in Reached(run + [Beat]).sockets.dropped
  {
    SilentSocketsStayMarked(run, i, k);
    LedgerAlwaysHolds(run);
    assert run[..|run|] == run && (run + [Beat])[..|run + [Beat]| - 1] == run;
    BeatMarks(Reached(run), k);
  }
}
