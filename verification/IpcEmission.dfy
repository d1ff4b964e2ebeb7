/** What one call of emit_trigger does from beginning to end when nothing comes in between. */
module IpcEmission {
  import opened IpcFrames
  import opened IpcHubSpec
  import opened IpcProtocol
  import opened IpcSafety

  /** The emitter's next block; sends to the raising clients fail. */
  function Proceed(s: State, id: string, raising: set<ConnId>): State {
    if id !in s.emitters then s else
    match s.emitters[id].phase
    case Focusing(todo) => Step(s, FocusStep(id, todo == [] || todo[0] !in raising))
    case Broadcasting(todo) => Step(s, BroadcastStep(id, todo == [] || todo[0] !in raising))
    case AwaitingAck => s
  }

  function ProceedBy(s: State, id: string, raising: set<ConnId>, n: nat): State
    decreases n
  {
    if n == 0 then s else ProceedBy(Proceed(s, id, raising), id, raising, n - 1)
  }

  /** The frames end the queues of those targets that the daemon can send to; nothing else is on any wire. */
  predicate Sent(s: State, s': State, targets: seq<ConnId>, raising: set<ConnId>, fs: seq<Frame>) {
    && s'.wires.Keys == s.wires.Keys
    && forall c :: c in s.wires ==>
      s'.wires[c] == if c in targets && c !in raising then Extended(s.wires[c], fs) else s.wires[c]
  }

  function Extended(w: Wire, fs: seq<Frame>): Wire {
    if w.dropped then w else w.(down := w.down + fs)
  }

  function Pairs(targets: seq<ConnId>, t: Trigger): set<(ConnId, Trigger)> {
    set c | c in targets :: (c, t)
  }

  lemma SentFirst(s: State, s1: State, s': State, targets: seq<ConnId>, raising: set<ConnId>, f: Frame)
    requires targets != [] && NoDuplicates(targets)
    requires s1.wires == PushDown(s, targets[0], f, targets[0] !in raising)
    requires Sent(s1, s', targets[1..], raising, [f])
    ensures Sent(s, s', targets, raising, [f])
  {
    assert targets[0] !in targets[1..];
  }

  lemma SentTwice(s: State, s1: State, s': State, targets: seq<ConnId>, raising: set<ConnId>, f: Frame, g: Frame)
    requires Sent(s, s1, targets, raising, [f]) && Sent(s1, s', targets, raising, [g])
    ensures Sent(s, s', targets, raising, [f, g])
  {
    forall c | c in s.wires && c in targets && c !in raising && !s.wires[c].dropped
      ensures s'.wires[c].down == s.wires[c].down + [f, g]
    {
      assert s.wires[c].down + [f] + [g] == s.wires[c].down + [f, g];
    }
  }

  lemma FocusesOne(s: State, id: string, raising: set<ConnId>)
    requires id in s.emitters && s.emitters[id].phase.Focusing?
    ensures var todo := s.emitters[id].phase.todo;
      var s' := Proceed(s, id, raising);
      var phase := if todo == [] then Broadcasting(s.hub.clients) else Focusing(todo[1..]);
      && s' == s.(emitters := s.emitters[id := s.emitters[id].(phase := phase)], wires := s'.wires)
      && (todo == [] ==> s'.wires == s.wires)
      && (todo != [] ==> s'.wires == PushDown(s, todo[0], FocusWindow(id), todo[0] !in raising))
  {
  }

  lemma {:induction false} FocusesAll(s: State, id: string, raising: set<ConnId>)
    requires id in s.emitters && s.emitters[id].phase.Focusing? && NoDuplicates(s.emitters[id].phase.todo)
    ensures var todo := s.emitters[id].phase.todo;
      var s' := ProceedBy(s, id, raising, |todo| + 1);
      && s' == s.(emitters := s.emitters[id := s.emitters[id].(phase := Broadcasting(s.hub.clients))],
                  wires := s'.wires)
      && Sent(s, s', todo, raising, [FocusWindow(id)])
    decreases |s.emitters[id].phase.todo|
  {
    var todo, done := s.emitters[id].phase.todo, s.emitters[id].(phase := Broadcasting(s.hub.clients));
    var s1 := Proceed(s, id, raising);
    FocusesOne(s, id, raising);
    if todo != [] {
      FocusesAll(s1, id, raising);
      SentFirst(s, s1, ProceedBy(s1, id, raising, |todo|), todo, raising, FocusWindow(id));
      assert s1.emitters[id := done] == s.emitters[id := done];
    } else {
      assert ProceedBy(s1, id, raising, 0) == s1;
    }
  }

  lemma BroadcastsOne(s: State, id: string, raising: set<ConnId>)
    requires id in s.emitters && s.emitters[id].phase.Broadcasting?
    ensures var todo, t := s.emitters[id].phase.todo, s.emitters[id].trigger;
      var s' := Proceed(s, id, raising);
      var phase := if todo == [] then AwaitingAck else Broadcasting(todo[1..]);
      && s' == s.(emitters := s.emitters[id := Emitter(t, phase)], wires := s'.wires,
                  attempted := if todo == [] then s.attempted else s.attempted + {(todo[0], t)}, failed := s'.failed)
      && (todo == [] ==> s'.wires == s.wires)
      && (todo != [] ==> s'.wires == PushDown(s, todo[0], TriggerEvent(t), todo[0] !in raising))
  {
  }

  lemma PairsFirst(targets: seq<ConnId>, t: Trigger)
    ensures Pairs([], t) == {}
    ensures targets != [] ==> {(targets[0], t)} + Pairs(targets[1..], t) == Pairs(targets, t)
  {
    if targets != [] {
      assert targets == [targets[0]] + targets[1..];
    }
  }

  /** The broadcast to these targets is over. */
  predicate Broadcasted(s: State, s': State, id: string, t: Trigger, targets: seq<ConnId>) {
    s' == s.(emitters := s.emitters[id := Emitter(t, AwaitingAck)], wires := s'.wires,
             attempted := s.attempted + Pairs(targets, t), failed := s'.failed)
  }

  lemma BroadcastedFirst(s: State, s1: State, s': State, id: string, raising: set<ConnId>)
    requires id in s.emitters && s.emitters[id].phase.Broadcasting? && s.emitters[id].phase.todo != []
    requires s1 == Proceed(s, id, raising)
    requires Broadcasted(s1, s', id, s.emitters[id].trigger, s.emitters[id].phase.todo[1..])
    ensures Broadcasted(s, s', id, s.emitters[id].trigger, s.emitters[id].phase.todo)
  {
    var todo, t := s.emitters[id].phase.todo, s.emitters[id].trigger;
    BroadcastsOne(s, id, raising);
    PairsFirst(todo, t);
    assert s1.emitters[id := Emitter(t, AwaitingAck)] == s.emitters[id := Emitter(t, AwaitingAck)];
    assert s1.attempted + Pairs(todo[1..], t) == s.attempted + Pairs(todo, t);
  }

  lemma {:induction false} BroadcastsAll(s: State, id: string, raising: set<ConnId>)
    requires id in s.emitters && s.emitters[id].phase.Broadcasting? && NoDuplicates(s.emitters[id].phase.todo)
    ensures var todo, t := s.emitters[id].phase.todo, s.emitters[id].trigger;
      var s' := ProceedBy(s, id, raising, |todo| + 1);
      Broadcasted(s, s', id, t, todo) && Sent(s, s', todo, raising, [TriggerEvent(t)])
    decreases |s.emitters[id].phase.todo|
  {
    var todo, t := s.emitters[id].phase.todo, s.emitters[id].trigger;
    var s1 := Proceed(s, id, raising);
    BroadcastsOne(s, id, raising);
    if todo != [] {
      BroadcastsAll(s1, id, raising);
      var s' := ProceedBy(s1, id, raising, |todo|);
      BroadcastedFirst(s, s1, s', id, raising);
      SentFirst(s, s1, s', todo, raising, TriggerEvent(t));
    } else {
      PairsFirst(todo, t);
      assert ProceedBy(s1, id, raising, 0) == s1;
      assert s.attempted + Pairs(todo, t) == s.attempted;
    }
  }

  lemma {:induction false} ProceedMore(s: State, id: string, raising: set<ConnId>, n: nat, m: nat)
    ensures ProceedBy(s, id, raising, n + m) == ProceedBy(ProceedBy(s, id, raising, n), id, raising, m)
    decreases n
  {
    if n > 0 {
      ProceedMore(Proceed(s, id, raising), id, raising, n - 1, m);
    }
  }

  lemma EmitSends(s: State, t: Trigger, raising: set<ConnId>)
    requires t.id in s.emitters && s.emitters[t.id] == Emitter(t, Focusing(s.hub.clients))
    requires NoDuplicates(s.hub.clients)
    ensures var s' := ProceedBy(s, t.id, raising, 2 * |s.hub.clients| + 2);
      && s' == s.(emitters := s.emitters[t.id := Emitter(t, AwaitingAck)], wires := s'.wires,
                  attempted := s.attempted + Pairs(s.hub.clients, t), failed := s'.failed)
      && Sent(s, s', s.hub.clients, raising, [FocusWindow(t.id), TriggerEvent(t)])
  {
    var n, done := |s.hub.clients| + 1, Emitter(t, AwaitingAck);
    var s1 := ProceedBy(s, t.id, raising, n);
    FocusesAll(s, t.id, raising);
    BroadcastsAll(s1, t.id, raising);
    assert s1.emitters[t.id := done] == s.emitters[t.id := done];
    ProceedMore(s, t.id, raising, n, n);
    SentTwice(s, s1, ProceedBy(s1, t.id, raising, n), s.hub.clients, raising, FocusWindow(t.id), TriggerEvent(t));
  }

  /** With clients connected, one call tells each of them to focus its window and then gives it the trigger, in that
      order, whichever sends to others raise; then it waits for the acknowledgement, with the trigger pending. */
  lemma EmitReachesAll(s: State, t: Trigger, raising: set<ConnId>)
    requires t.id != "" && t.id !in s.emitted && s.hub.clients != [] && NoDuplicates(s.hub.clients)
    ensures var s' := ProceedBy(Step(s, BeginEmit(t)), t.id, raising, 2 * |s.hub.clients| + 2);
      && t.id in s'.emitters && s'.emitters[t.id] == Emitter(t, AwaitingAck)
      && Sent(s, s', s.hub.clients, raising, [FocusWindow(t.id), TriggerEvent(t)])
      && s'.hub == AddPending(s.hub, t) && s'.attempted == s.attempted + Pairs(s.hub.clients, t)
      && s'.browsers == s.browsers && s'.flushes == s.flushes && s'.results == s.results
  {
    EmitSends(Step(s, BeginEmit(t)), t, raising);
  }

  /** With no client connected, nothing is sent: the trigger waits for the next connection. */
  lemma EmitWaitsForClients(s: State, t: Trigger)
    requires t.id != "" && t.id !in s.emitted && s.hub.clients == []
    ensures var s' := Step(s, BeginEmit(t));
      && s'.emitters == s.emitters[t.id := Emitter(t, AwaitingAck)]
      && s'.wires == s.wires && s'.hub == AddPending(s.hub, t)
  {
  }

  /** A waiting emitter reports success as soon as its trigger is acknowledged, and not before; it may give up at
      any time, with the trigger left pending or not as it was. */
  lemma EmitEndsExactly(s: State, id: string)
    requires PendingExact(s) && id in s.emitters && s.emitters[id].phase.AwaitingAck? && id in s.emitted
    ensures id !in s.acked ==> Step(s, AckWake(id)) == s
    ensures id in s.acked ==>
      Step(s, AckWake(id)) == s.(emitters := s.emitters - {id}, results := s.results[id := true])
    ensures Step(s, AckTimeout(id)) == s.(emitters := s.emitters - {id}, results := s.results[id := false])
  {
  }

  /** These wires differ from the state's at most upwards for this connection. */
  predicate SameDown(s: State, s': State, c: ConnId) {
    c in s'.wires ==> c in s.wires && s'.wires[c].down == s.wires[c].down && s'.wires[c].dropped == s.wires[c].dropped
  }

  lemma ReceiptPopsFirst(s: State, c: ConnId)
    requires c in s.wires
    ensures var s' := StepBrowserReceive(s, c);
      c in s'.wires && s'.wires[c].dropped == s.wires[c].dropped
        && (s' == s || (s.wires[c].down != [] && s'.wires[c].down == s.wires[c].down[1..]))
  {
  }

  lemma ReceiptElsewhere(s: State, x: ConnId, c: ConnId)
    requires x != c
    ensures SameDown(s, StepBrowserReceive(s, x), c)
  {
  }

  lemma DaemonSkipsDropped(s: State, e: Event, c: ConnId)
    requires c in s.wires && s.wires[c].dropped
    requires e.FocusStep? || e.BroadcastStep? || e.FlushStep? || e.HubHeartbeat? || e.HubReceive? || e.HubDrop?
    ensures c in Step(s, e).wires && Step(s, e).wires[c].dropped && Step(s, e).wires[c].down == s.wires[c].down
  {
  }

  /** On a connection that the daemon has dropped nothing arrives that was not sent before. */
  lemma DroppedGetsNothing(s: State, e: Event, c: ConnId)
    requires c in s.wires && s.wires[c].dropped && c in s.dialed
    ensures c in Step(s, e).wires ==>
      var down, down' := s.wires[c].down, Step(s, e).wires[c].down;
      && Step(s, e).wires[c].dropped
      && (down' == down || (e == BrowserReceive(c) && down != [] && down' == down[1..]))
  {
    if e.BrowserReceive? {
      ReceiptPopsFirst(s, c);
      if e.conn != c {
        ReceiptElsewhere(s, e.conn, c);
      }
    } else if e.FocusStep? || e.BroadcastStep? || e.FlushStep? || e.HubHeartbeat? || e.HubReceive? || e.HubDrop? {
      DaemonSkipsDropped(s, e, c);
    }
  }
}

/** Single events on the connections, by their effect on wires and clients. */
module IpcLinks {
  import opened Wrappers
  import opened IpcFrames
  import opened IpcHubSpec
  import opened IpcProtocol
  import Client = DaemonClientSpec

  /** Nothing is read from a connection, nor its end noticed, before its flush is over. */
  lemma NothingBeforeTheFlush(s: State, c: ConnId)
    requires c in s.flushes && s.flushes[c] != []
    ensures Step(s, HubReceive(c)) == s && Step(s, HubDrop(c)) == s
  {
  }

  /** When the end is noticed the connection is unregistered; what came up unread is lost, what went down may still
      arrive, and every pending trigger stays pending. */
  lemma DropLosesTheUnread(s: State, c: ConnId)
    requires c in s.hub.clients && c in s.flushes && s.flushes[c] == [] && c in s.wires && NoDuplicates(s.hub.clients)
    ensures var s' := Step(s, HubDrop(c));
      && c !in s'.hub.clients && c !in s'.flushes && s'.hub.pending == s.hub.pending
      && s'.wires == s.wires[c := Wire(s.wires[c].browser, s.wires[c].down, [], true)]
      && (forall x :: x in s.hub.clients && x != c ==> x in s'.hub.clients)
  {
    WithoutLeaves(s.hub.clients, c);
  }

  lemma {:induction false} WithoutLeaves(clients: seq<ConnId>, c: ConnId)
    requires NoDuplicates(clients)
    ensures forall x :: x in Without(clients, c) <==> x in clients && x != c
  {
    if clients != [] {
      WithoutLeaves(clients[1..], c);
    }
  }

  /** A heartbeat on an idle connection that the browser holds comes back as one acknowledgement. */
  lemma HeartbeatIsAnswered(s: State, b: BrowserId, c: ConnId)
    requires c in s.wires && s.wires[c].browser == b && !s.wires[c].dropped && s.wires[c].down == []
    requires b in s.browsers && s.browsers[b].ws == Some(c) && s.browsers[b].connected && s.browsers[b].ready
    ensures var s' := Step(Step(s, HubHeartbeat(c)), BrowserReceive(c));
      s' == s.(wires := s.wires[c := s.wires[c].(up := s.wires[c].up + [HeartbeatAck])])
  {
    var s1 := Step(s, HubHeartbeat(c));
    assert [Heartbeat][1..] == [];
    assert s1.wires[c].down == [Heartbeat];
    var s' := Step(s1, BrowserReceive(c));
    assert s'.browsers == s.browsers;
    assert s'.wires == s.wires[c := s.wires[c].(up := s.wires[c].up + [HeartbeatAck])];
  }

  /** The call to connect of a browser at rest gives it an empty connection of its own. */
  lemma ConnectTakesAWire(s: State, b: BrowserId, c: ConnId)
    requires b in s.browsers && c !in s.dialed
    requires s.browsers[b].ws == None && (s.browsers[b].stopped || !s.browsers[b].connected)
    ensures var s' := Step(s, ConnectCall(b, c));
      && s'.browsers == s.browsers[b := s.browsers[b].(ws := Some(c), ready := false, stopped := false)]
      && s'.wires == s.wires[c := Wire(b, [], [], false)] && s'.dialed == s.dialed + {c} && s'.hub == s.hub
  {
  }

  /** A stopped browser lets go of its socket, and no timer will bring it back; what it sent is still on its way. */
  lemma StopLetsGo(s: State, b: BrowserId)
    requires b in s.browsers
    ensures var s' := Step(s, StopBrowser(b));
      && s' == s.(browsers := s'.browsers) && s'.browsers.Keys == s.browsers.Keys
      && s'.browsers[b].stopped && s'.browsers[b].ws == None && s'.browsers[b].timer == None
      && s'.browsers[b].queue == s.browsers[b].queue
      && (forall x :: x in s.browsers && x != b ==> s'.browsers[x] == s.browsers[x])
  {
  }

  /** A socket's end is noticed and, unless the browser was stopped, followed by a timer; while a socket is closing
      its frames are queued. */
  lemma CloseIsRetried(s: State, b: BrowserId)
    requires b in s.browsers
    ensures var s' := Step(s, SocketClosed(b));
      && s' == s.(browsers := s'.browsers) && b in s'.browsers
      && s'.browsers[b].ws == None && !s'.browsers[b].connected && s'.browsers[b].queue == s.browsers[b].queue
      && (!s.browsers[b].stopped ==> s'.browsers[b].timer.Some?)
    ensures var s' := Step(s, SocketClosing(b));
      && s' == s.(browsers := s'.browsers) && b in s'.browsers
      && !Client.CanSend(s'.browsers[b]) && s'.browsers[b] == s.browsers[b].(ready := false)
  {
  }

  /** A lost connection takes with it what was on its way, and nothing else. */
  lemma LostWireIsGone(s: State, c: ConnId)
    ensures var s' := Step(s, WireLost(c));
      && c !in s'.wires && s'.hub == s.hub && s'.browsers == s.browsers && s'.flushes == s.flushes
      && (forall x :: x in s.wires && x != c ==> x in s'.wires && s'.wires[x] == s.wires[x])
  {
  }
}
