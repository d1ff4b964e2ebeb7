/** Daemon and browsers together. Events are the atomic blocks between two
    awaits on the daemon and single callbacks in a browser; a block that sends
    is split before each send, which only adds interleavings. */
module IpcProtocol {
  import opened Wrappers
  import opened IpcFrames
  import opened IpcHubSpec
  import Client = DaemonClientSpec

  type BrowserId = nat

  datatype Phase =
    | Focusing(todo: seq<ConnId>)      // broadcasting FOCUS_WINDOW
    | Broadcasting(todo: seq<ConnId>)  // broadcasting TRIGGER_EVENT
    | AwaitingAck

  datatype Emitter = Emitter(trigger: Trigger, phase: Phase)

  /** One connection: frames on their way in each direction, and whether the daemon has dropped it. */
  datatype Wire = Wire(browser: BrowserId, down: seq<Frame>, up: seq<Frame>, dropped: bool)

  datatype State = State(
    hub: Hub,
    flushes: map<ConnId, seq<Trigger>>,   // what each registered client's flush still has to send
    emitters: map<string, Emitter>,
    wires: map<ConnId, Wire>,
    browsers: map<BrowserId, Client.Client>,
    dialed: set<ConnId>,
    // history
    emitted: set<string>,
    acked: set<string>,
    attempted: set<(ConnId, Trigger)>,    // TRIGGER_EVENT sends tried
    failed: set<(ConnId, Trigger)>,       // those that raised
    received: set<string>,
    results: map<string, bool>)

  datatype Event =
    | BeginEmit(trigger: Trigger)
    | FocusStep(id: string, ok: bool)
    | BroadcastStep(id: string, ok: bool)
    | AckWake(id: string)
    | AckTimeout(id: string)
    | Accept(conn: ConnId)
    | FlushStep(conn: ConnId, ok: bool)
    | HubHeartbeat(conn: ConnId)
    | HubReceive(conn: ConnId)
    | HubDrop(conn: ConnId)
    | WireLost(conn: ConnId)
    | Dial(browser: BrowserId, conn: ConnId)
    | ConnectCall(browser: BrowserId, conn: ConnId)
    | SocketOpened(browser: BrowserId)
    | StaleOpened(browser: BrowserId)
    | SocketClosing(browser: BrowserId)
    | SocketClosed(browser: BrowserId)
    | BrowserReceive(conn: ConnId)
    | AppSend(browser: BrowserId, payload: int)
    | StopBrowser(browser: BrowserId)

  // ---- wires ----

  function PushDown(s: State, c: ConnId, f: Frame, ok: bool): map<ConnId, Wire> {
    if ok && c in s.wires && !s.wires[c].dropped then s.wires[c := s.wires[c].(down := s.wires[c].down + [f])]
    else s.wires
  }

  function PushUp(wires: map<ConnId, Wire>, c: Option<ConnId>, fs: seq<Frame>): map<ConnId, Wire> {
    if c.Some? && c.value in wires then wires[c.value := wires[c.value].(up := wires[c.value].up + fs)] else wires
  }

  /** The browser's client ran a callback: its frames go to its current socket. */
  function AfterCallback(s: State, b: BrowserId, e: Client.Effect): State
  {
    s.(browsers := s.browsers[b := e.client], wires := PushUp(s.wires, e.client.ws, e.sent))
  }

  // ---- the daemon's blocks ----

  /** Ids are fresh: the default is a random UUID. */
  function StepBeginEmit(s: State, t: Trigger): State {
    if t.id == "" || t.id in s.emitted then s
    else
      var phase := if s.hub.clients != [] then Focusing(s.hub.clients) else AwaitingAck;
      s.(hub := AddPending(s.hub, t),
         emitters := s.emitters[t.id := Emitter(t, phase)],
         emitted := s.emitted + {t.id})
  }

  function StepFocus(s: State, id: string, ok: bool): State {
    if id !in s.emitters || !s.emitters[id].phase.Focusing? then s
    else
      var todo := s.emitters[id].phase.todo;
      if todo == [] then s.(emitters := s.emitters[id := s.emitters[id].(phase := Broadcasting(s.hub.clients))])
      else s.(emitters := s.emitters[id := s.emitters[id].(phase := Focusing(todo[1..]))],
              wires := PushDown(s, todo[0], FocusWindow(id), ok))
  }

  function StepBroadcast(s: State, id: string, ok: bool): State {
    if id !in s.emitters || !s.emitters[id].phase.Broadcasting? then s
    else
      var todo := s.emitters[id].phase.todo;
      if todo == [] then s.(emitters := s.emitters[id := s.emitters[id].(phase := AwaitingAck)])
      else s.(emitters := s.emitters[id := s.emitters[id].(phase := Broadcasting(todo[1..]))],
              wires := PushDown(s, todo[0], TriggerEvent(s.emitters[id].trigger), ok),
              attempted := s.attempted + {(todo[0], s.emitters[id].trigger)},
              failed := if ok then s.failed else s.failed + {(todo[0], s.emitters[id].trigger)})
  }

  function StepEndEmit(s: State, id: string, woken: bool): State {
    if id !in s.emitters || !s.emitters[id].phase.AwaitingAck? || (woken && id in s.hub.acks) then s
    else s.(emitters := s.emitters - {id}, results := s.results[id := woken])
  }

  function StepAccept(s: State, c: ConnId): State {
    if c !in s.wires || s.wires[c].dropped || c in s.hub.clients then s
    else s.(hub := Register(s.hub, c), flushes := s.flushes[c := s.hub.pending])
  }

  function StepFlush(s: State, c: ConnId, ok: bool): State {
    if c !in s.flushes || s.flushes[c] == [] then s
    else
      var t := s.flushes[c][0];
      s.(flushes := s.flushes[c := s.flushes[c][1..]],
         wires := PushDown(s, c, TriggerEvent(t), ok),
         attempted := s.attempted + {(c, t)},
         failed := if ok then s.failed else s.failed + {(c, t)})
  }

  /** The receive loop runs once the flush is over. */
  predicate Reading(s: State, c: ConnId) {
    c in s.hub.clients && c in s.flushes && s.flushes[c] == []
  }

  function StepHubReceive(s: State, c: ConnId): State {
    if !Reading(s, c) || c !in s.wires || s.wires[c].up == [] then s
    else
      var f := s.wires[c].up[0];
      var s' := s.(wires := s.wires[c := s.wires[c].(up := s.wires[c].up[1..])]);
      if !f.TriggerAck? then s'
      else s'.(hub := ResolveAck(s.hub, Some(f.id)),
               acked := if f.id in s.emitted then s.acked + {f.id} else s.acked)
  }

  /** The connection is gone: unregistered, and nothing more is read from it. What was sent may still arrive,
      until the browser's socket is closed or lost. */
  function StepHubDrop(s: State, c: ConnId): State {
    if !Reading(s, c) then s
    else s.(hub := Unregister(s.hub, c), flushes := s.flushes - {c}, wires := DropWire(s.wires, c))
  }

  function DropWire(wires: map<ConnId, Wire>, c: ConnId): map<ConnId, Wire> {
    if c in wires then wires[c := wires[c].(up := [], dropped := true)] else wires
  }

  // ---- the browsers' callbacks ----

  /** The timer fires. Nothing keeps it from opening a second socket beside a first. */
  function StepDial(s: State, b: BrowserId, c: ConnId): State {
    if b !in s.browsers || s.browsers[b].stopped || c in s.dialed then s
    else s.(browsers := s.browsers[b := Client.Open(s.browsers[b], Some(c))],
            wires := s.wires[c := Wire(b, [], [], false)], dialed := s.dialed + {c})
  }

  /** connect(), the first time or after stop(). */
  function StepConnect(s: State, b: BrowserId, c: ConnId): State {
    if b !in s.browsers || c in s.dialed || Client.Connect(s.browsers[b], Some(c)) == s.browsers[b] then s
    else s.(browsers := s.browsers[b := Client.Connect(s.browsers[b], Some(c))],
            wires := s.wires[c := Wire(b, [], [], false)], dialed := s.dialed + {c})
  }

  function StepSocketOpened(s: State, b: BrowserId): State {
    if b !in s.browsers || s.browsers[b].ws.None? || s.browsers[b].ready then s
    else AfterCallback(s, b, Client.OnOpen(s.browsers[b].(ready := true)))
  }

  /** A socket that the client no longer holds, closed or replaced, may still be open: its callback runs as well. */
  function StepStaleOpened(s: State, b: BrowserId): State {
    if b !in s.browsers then s else AfterCallback(s, b, Client.OnOpen(s.browsers[b]))
  }

  /** A frame arrives on any of the browser's sockets; the answer goes to the one it holds. */
  function StepBrowserReceive(s: State, c: ConnId): State {
    if c !in s.wires || s.wires[c].down == [] || s.wires[c].browser !in s.browsers then s
    else
      var b, f := s.wires[c].browser, s.wires[c].down[0];
      var s' := s.(wires := s.wires[c := s.wires[c].(down := s.wires[c].down[1..])],
                   received := if f.TriggerEvent? then s.received + {f.trigger.id} else s.received);
      AfterCallback(s', b, Client.Receive(s.browsers[b], f))
  }

  function Step(s: State, e: Event): State {
    match e
    case BeginEmit(t) => StepBeginEmit(s, t)
    case FocusStep(id, ok) => StepFocus(s, id, ok)
    case BroadcastStep(id, ok) => StepBroadcast(s, id, ok)
    case AckWake(id) => StepEndEmit(s, id, true)
    case AckTimeout(id) => StepEndEmit(s, id, false)
    case Accept(c) => StepAccept(s, c)
    case FlushStep(c, ok) => StepFlush(s, c, ok)
    case HubHeartbeat(c) => s.(wires := PushDown(s, c, Heartbeat, true))
    case HubReceive(c) => StepHubReceive(s, c)
    case HubDrop(c) => StepHubDrop(s, c)
    case WireLost(c) => s.(wires := s.wires - {c})
    case Dial(b, c) => StepDial(s, b, c)
    case ConnectCall(b, c) => StepConnect(s, b, c)
    case SocketOpened(b) => StepSocketOpened(s, b)
    case StaleOpened(b) => StepStaleOpened(s, b)
    case SocketClosing(b) =>
      if b in s.browsers then s.(browsers := s.browsers[b := s.browsers[b].(ready := false)]) else s
    case SocketClosed(b) =>
      if b in s.browsers then s.(browsers := s.browsers[b := Client.OnClose(s.browsers[b])]) else s
    case BrowserReceive(c) => StepBrowserReceive(s, c)
    case AppSend(b, payload) =>
      if b in s.browsers then AfterCallback(s, b, Client.SendFrame(s.browsers[b], ConfigUpdated(payload))) else s
    case StopBrowser(b) =>
      if b in s.browsers then s.(browsers := s.browsers[b := Client.Stop(s.browsers[b])]) else s
  }

  function Run(s: State, es: seq<Event>): State {
    if es == [] then s else Step(Run(s, es[..|es| - 1]), es[|es| - 1])
  }

  /** A fresh daemon and idle browsers. */
  function Start(browsers: map<BrowserId, nat>): State {
    State(Hub([], [], {}), map[], map[], map[],
          map b | b in browsers :: Client.InitialClient(browsers[b]), {}, {}, {}, {}, {}, {}, map[])
  }
}

/** What every interleaving keeps. */
module IpcSafety {
  import opened IpcFrames
  import opened IpcHubSpec
  import opened IpcProtocol
  import Client = DaemonClientSpec

  // ---- pending is exactly what is emitted and not acknowledged ----

  ghost predicate PendingExact(s: State) {
    && DistinctIds(s.hub.pending)
    && Ids(s.hub.pending) == s.emitted - s.acked
    && s.hub.acks == s.emitted - s.acked
    && s.acked <= s.emitted
    && "" !in s.emitted
  }

  lemma IdsAfterPop(pending: seq<Trigger>, id: string)
    requires DistinctIds(pending)
    ensures Ids(Pop(pending, id)) == Ids(pending) - {id} && DistinctIds(Pop(pending, id))
  {
    PopRemoves(pending, id);
    forall x | x in Ids(pending) - {id} ensures x in Ids(Pop(pending, id)) {
      var t :| t in pending && t.id == x;
      assert t in Pop(pending, id);
    }
    forall x | x in Ids(Pop(pending, id)) ensures x in Ids(pending) - {id} {
      var t :| t in Pop(pending, id) && t.id == x;
      assert t in pending && t.id != id;
    }
  }

  lemma IdsAfterPut(pending: seq<Trigger>, t: Trigger)
    requires DistinctIds(pending) && t.id !in Ids(pending)
    ensures Ids(Put(pending, t)) == Ids(pending) + {t.id} && DistinctIds(Put(pending, t))
    ensures Put(pending, t) == pending + [t]
  {
    PutNew(pending, t);
    assert forall x :: x in pending + [t] <==> x in pending || x == t;
    forall i | 0 <= i < |pending| ensures pending[i].id != t.id {
      assert pending[i] in pending;
    }
  }

  lemma StepKeepsPending(s: State, e: Event)
    requires PendingExact(s)
    ensures PendingExact(Step(s, e))
  {
    if e.BeginEmit? {
      if e.trigger.id != "" && e.trigger.id !in s.emitted {
        IdsAfterPut(s.hub.pending, e.trigger);
      }
    } else if e.HubReceive? {
      if Reading(s, e.conn) && e.conn in s.wires && s.wires[e.conn].up != [] && s.wires[e.conn].up[0].TriggerAck? {
        IdsAfterPop(s.hub.pending, s.wires[e.conn].up[0].id);
      }
    } else {
      OtherKeepsPending(s, e);
    }
  }

  lemma OtherKeepsPending(s: State, e: Event)
    requires !e.BeginEmit? && !e.HubReceive?
    ensures var s' := Step(s, e);
      s'.hub.pending == s.hub.pending && s'.hub.acks == s.hub.acks && s'.emitted == s.emitted && s'.acked == s.acked
  {
  }

  // ---- every client is owed every pending trigger ----

  /** `t` has been sent to `c`, or somebody still has to send it. */
  predicate SentOrOwed(s: State, c: ConnId, t: Trigger) {
    || (c, t) in s.attempted
    || (c in s.flushes && t in s.flushes[c])
    || (t.id in s.emitters && s.emitters[t.id].trigger == t
        && (s.emitters[t.id].phase.Focusing?
            || (s.emitters[t.id].phase.Broadcasting? && c in s.emitters[t.id].phase.todo)))
  }

  ghost predicate NobodyForgotten(s: State) {
    && NoDuplicates(s.hub.clients)
    && (forall c :: c in s.hub.clients <==> c in s.flushes)
    && (forall id :: id in s.emitters ==> s.emitters[id].trigger.id == id && id in s.emitted)
    && (forall c, t :: c in s.hub.clients && t in s.hub.pending ==> SentOrOwed(s, c, t))
  }

  lemma OwedAfterBegin(s: State, t: Trigger)
    requires PendingExact(s) && NobodyForgotten(s)
    ensures NobodyForgotten(StepBeginEmit(s, t))
  {
    if t.id != "" && t.id !in s.emitted {
      IdsAfterPut(s.hub.pending, t);
      var s' := StepBeginEmit(s, t);
      forall c, u | c in s'.hub.clients && u in s'.hub.pending ensures SentOrOwed(s', c, u) {
        if u != t {
          assert SentOrOwed(s, c, u);
          assert u.id in Ids(s.hub.pending);
        }
      }
    }
  }

  lemma OneOwedAfterBroadcast(s: State, id: string, ok: bool, c: ConnId, t: Trigger)
    requires SentOrOwed(s, c, t)
    ensures SentOrOwed(StepBroadcast(s, id, ok), c, t)
  {
    if t.id == id && id in s.emitters && s.emitters[id].phase.Broadcasting? && s.emitters[id].phase.todo != [] {
      var todo := s.emitters[id].phase.todo;
      assert forall x :: x in todo ==> x == todo[0] || x in todo[1..];
    }
  }

  /** The emitters may move on; the clients, the triggers and the flushes stay. */
  predicate OnlyEmittersMove(s: State, s': State) {
    && s'.hub == s.hub && s'.flushes == s.flushes && s'.emitted == s.emitted
    && (forall id :: id in s'.emitters ==> id in s.emitters && s'.emitters[id].trigger == s.emitters[id].trigger)
  }

  lemma BroadcastMovesEmitters(s: State, id: string, ok: bool)
    ensures OnlyEmittersMove(s, StepBroadcast(s, id, ok))
  {
  }

  lemma FocusMovesEmitters(s: State, id: string, ok: bool)
    ensures OnlyEmittersMove(s, StepFocus(s, id, ok))
  {
  }

  lemma OwedWhenEmittersMove(s: State, s': State)
    requires NobodyForgotten(s) && OnlyEmittersMove(s, s')
    requires forall c, t :: c in s.hub.clients && t in s.hub.pending && SentOrOwed(s, c, t) ==> SentOrOwed(s', c, t)
    ensures NobodyForgotten(s')
  {
  }

  lemma OwedAfterBroadcast(s: State, id: string, ok: bool)
    requires NobodyForgotten(s)
    ensures NobodyForgotten(StepBroadcast(s, id, ok))
  {
    var s' := StepBroadcast(s, id, ok);
    forall c, t | SentOrOwed(s, c, t) ensures SentOrOwed(s', c, t) {
      OneOwedAfterBroadcast(s, id, ok, c, t);
    }
    BroadcastMovesEmitters(s, id, ok);
    OwedWhenEmittersMove(s, s');
  }

  lemma OwedAfterFlush(s: State, conn: ConnId, ok: bool)
    requires NobodyForgotten(s)
    ensures NobodyForgotten(StepFlush(s, conn, ok))
  {
    var s' := StepFlush(s, conn, ok);
    if s' != s {
      var todo := s.flushes[conn];
      forall c, t | c in s'.hub.clients && t in s'.hub.pending ensures SentOrOwed(s', c, t) {
        assert SentOrOwed(s, c, t);
        if c == conn && t in todo && t != todo[0] {
          assert t in todo[1..];
        }
      }
    }
  }

  lemma OwedAfterAccept(s: State, conn: ConnId)
    requires NobodyForgotten(s)
    ensures NobodyForgotten(StepAccept(s, conn))
  {
    WithoutRemoves(s.hub.clients, conn);
    var s' := StepAccept(s, conn);
    if s' != s {
      forall c, t | c in s'.hub.clients && t in s'.hub.pending ensures SentOrOwed(s', c, t) {
        if c != conn {
          assert SentOrOwed(s, c, t);
        }
      }
    }
  }

  lemma OwedAfterReceive(s: State, conn: ConnId)
    requires PendingExact(s) && NobodyForgotten(s)
    ensures NobodyForgotten(StepHubReceive(s, conn))
  {
    var s' := StepHubReceive(s, conn);
    if s' != s {
      if s.wires[conn].up[0].TriggerAck? {
        PopRemoves(s.hub.pending, s.wires[conn].up[0].id);
      }
      forall c, t | c in s'.hub.clients && t in s'.hub.pending ensures SentOrOwed(s', c, t) {
        assert SentOrOwed(s, c, t);
      }
    }
  }

  lemma OwedAfterDrop(s: State, conn: ConnId)
    requires NobodyForgotten(s)
    ensures NobodyForgotten(StepHubDrop(s, conn))
  {
    WithoutRemoves(s.hub.clients, conn);
    var s' := StepHubDrop(s, conn);
    forall c, t | c in s'.hub.clients && t in s'.hub.pending ensures SentOrOwed(s', c, t) {
      assert SentOrOwed(s, c, t);
    }
  }

  lemma OneOwedAfterFocus(s: State, id: string, ok: bool, c: ConnId, t: Trigger)
    requires SentOrOwed(s, c, t) && c in s.hub.clients
    ensures SentOrOwed(StepFocus(s, id, ok), c, t)
  {
  }

  lemma OwedAfterFocus(s: State, id: string, ok: bool)
    requires NobodyForgotten(s)
    ensures NobodyForgotten(StepFocus(s, id, ok))
  {
    var s' := StepFocus(s, id, ok);
    forall c, t | SentOrOwed(s, c, t) && c in s.hub.clients ensures SentOrOwed(s', c, t) {
      OneOwedAfterFocus(s, id, ok, c, t);
    }
    FocusMovesEmitters(s, id, ok);
    OwedWhenEmittersMove(s, s');
  }

  lemma OwedAfterEnd(s: State, id: string, woken: bool)
    requires NobodyForgotten(s)
    ensures NobodyForgotten(StepEndEmit(s, id, woken))
  {
    var s' := StepEndEmit(s, id, woken);
    forall c, t | c in s'.hub.clients && t in s'.hub.pending ensures SentOrOwed(s', c, t) {
      assert SentOrOwed(s, c, t);
    }
  }

  /** Events that touch only wires, browsers and history. */
  predicate SameDaemon(s: State, s': State) {
    s'.hub == s.hub && s'.flushes == s.flushes && s'.emitters == s.emitters
    && s'.attempted == s.attempted && s'.emitted == s.emitted
  }

  lemma OwedUnderSameDaemon(s: State, s': State)
    requires NobodyForgotten(s) && SameDaemon(s, s')
    ensures NobodyForgotten(s')
  {
    forall c, t | c in s'.hub.clients && t in s'.hub.pending ensures SentOrOwed(s', c, t) {
      assert SentOrOwed(s, c, t);
    }
  }

  lemma StepKeepsOwed(s: State, e: Event)
    requires PendingExact(s) && NobodyForgotten(s)
    ensures NobodyForgotten(Step(s, e))
  {
    match e
    case BeginEmit(t) => OwedAfterBegin(s, t);
    case FocusStep(id, ok) => OwedAfterFocus(s, id, ok);
    case BroadcastStep(id, ok) => OwedAfterBroadcast(s, id, ok);
    case AckWake(id) => OwedAfterEnd(s, id, true);
    case AckTimeout(id) => OwedAfterEnd(s, id, false);
    case Accept(c) => OwedAfterAccept(s, c);
    case FlushStep(c, ok) => OwedAfterFlush(s, c, ok);
    case HubReceive(c) => OwedAfterReceive(s, c);
    case HubDrop(c) => OwedAfterDrop(s, c);
    case _ =>
      BrowsersLeaveDaemon(s, e);
      OwedUnderSameDaemon(s, Step(s, e));
  }

  lemma BrowsersLeaveDaemon(s: State, e: Event)
    requires e.HubHeartbeat? || e.WireLost? || SocketChange(e) || e.SocketOpened? || e.StaleOpened?
          || e.BrowserReceive? || e.AppSend?
    ensures SameDaemon(s, Step(s, e))
  {
    if e.BrowserReceive? {
      ReceiptLeavesDaemon(s, e.conn);
    } else if e.Dial? {
      DialLeavesDaemon(s, e.browser, e.conn);
    } else if e.ConnectCall? {
      ConnectLeavesDaemon(s, e.browser, e.conn);
    }
  }

  lemma ReceiptLeavesDaemon(s: State, c: ConnId)
    ensures SameDaemon(s, StepBrowserReceive(s, c))
  {
  }

  lemma DialLeavesDaemon(s: State, b: BrowserId, c: ConnId)
    ensures SameDaemon(s, StepDial(s, b, c))
  {
  }

  lemma ConnectLeavesDaemon(s: State, b: BrowserId, c: ConnId)
    ensures SameDaemon(s, StepConnect(s, b, c))
  {
  }

  // ---- acknowledgements come only from receipts ----

  predicate AcksOk(fs: seq<Frame>, received: set<string>) {
    forall f :: f in fs && f.TriggerAck? ==> f.id in received
  }

  predicate TriggersOk(fs: seq<Frame>, emitted: set<string>) {
    forall f :: f in fs && f.TriggerEvent? ==> f.trigger.id in emitted
  }

  ghost predicate AcksHonest(s: State) {
    && (forall c :: c in s.wires ==> AcksOk(s.wires[c].up, s.received))
    && (forall b :: b in s.browsers ==> AcksOk(s.browsers[b].queue, s.received))
    && s.acked <= s.received
    && (forall id :: id in s.results && s.results[id] ==> id in s.acked)
  }

  ghost predicate OnlyEmittedTravels(s: State) {
    && (forall c :: c in s.wires ==> TriggersOk(s.wires[c].down, s.emitted))
    && (forall c, t :: c in s.flushes && t in s.flushes[c] ==> t.id in s.emitted)
    && (forall t :: t in s.hub.pending ==> t.id in s.emitted)
    && (forall id :: id in s.emitters ==> s.emitters[id].trigger.id == id && id in s.emitted)
    && s.received <= s.emitted
  }

  ghost predicate QueuesBounded(s: State) {
    forall b :: b in s.browsers ==> |s.browsers[b].queue| <= s.browsers[b].maxQueue
  }

  lemma CallbackKeepsAcks(s: State, b: BrowserId, e: Client.Effect)
    requires AcksHonest(s) && QueuesBounded(s)
    requires AcksOk(e.sent, s.received) && AcksOk(e.client.queue, s.received)
    requires |e.client.queue| <= e.client.maxQueue
    ensures AcksHonest(AfterCallback(s, b, e)) && QueuesBounded(AfterCallback(s, b, e))
  {
  }

  lemma OpenBounds(c: Client.Client)
    requires |c.queue| <= c.maxQueue
    ensures var e := Client.OnOpen(c);
      && |e.client.queue| <= e.client.maxQueue
      && forall f :: f in e.sent || f in e.client.queue ==> f in c.queue
  {
    var opening := c.(connected := true, attempt := 0);
    Client.FlushSendsOrKeeps(opening);
  }

  lemma OpenedKeepsAcks(s: State, b: BrowserId, ready: bool)
    requires AcksHonest(s) && QueuesBounded(s) && b in s.browsers
    ensures var e := Client.OnOpen(s.browsers[b].(ready := ready));
      AcksHonest(AfterCallback(s, b, e)) && QueuesBounded(AfterCallback(s, b, e))
  {
    var c := s.browsers[b].(ready := ready);
    OpenBounds(c);
    CallbackKeepsAcks(s, b, Client.OnOpen(c));
  }

  lemma SendFrameBounds(c: Client.Client, f: Frame)
    requires |c.queue| <= c.maxQueue
    ensures |Client.SendFrame(c, f).client.queue| <= Client.SendFrame(c, f).client.maxQueue
    ensures forall g :: g in Client.SendFrame(c, f).client.queue || g in Client.SendFrame(c, f).sent ==>
      g in c.queue || g == f
  {
  }

  lemma ReceiveKeepsAcks(s: State, c: ConnId)
    requires AcksHonest(s) && QueuesBounded(s)
    ensures AcksHonest(StepBrowserReceive(s, c)) && QueuesBounded(StepBrowserReceive(s, c))
  {
    if StepBrowserReceive(s, c) != s {
      var b, f := s.wires[c].browser, s.wires[c].down[0];
      var s' := s.(wires := s.wires[c := s.wires[c].(down := s.wires[c].down[1..])],
                   received := if f.TriggerEvent? then s.received + {f.trigger.id} else s.received);
      var client := s.browsers[b];
      SendFrameBounds(client, HeartbeatAck);
      if f.TriggerEvent? {
        SendFrameBounds(client, TriggerAck(f.trigger.id));
      }
      CallbackKeepsAcks(s', b, Client.Receive(client, f));
    }
  }

  lemma HubReceiveKeepsAcks(s: State, c: ConnId)
    requires AcksHonest(s) && QueuesBounded(s)
    ensures AcksHonest(StepHubReceive(s, c)) && QueuesBounded(StepHubReceive(s, c))
  {
    if Reading(s, c) && c in s.wires && s.wires[c].up != [] {
      assert s.wires[c].up[0] in s.wires[c].up;
      assert AcksOk(s.wires[c].up[1..], s.received);
    }
  }

  lemma EndKeepsAcks(s: State, id: string, woken: bool)
    requires PendingExact(s) && AcksHonest(s) && QueuesBounded(s) && OnlyEmittedTravels(s)
    ensures AcksHonest(StepEndEmit(s, id, woken)) && QueuesBounded(StepEndEmit(s, id, woken))
  {
  }

  predicate DaemonSends(e: Event) {
    e.BeginEmit? || e.FocusStep? || e.BroadcastStep? || e.Accept? || e.FlushStep? || e.HubHeartbeat? || e.HubDrop?
    || e.WireLost?
  }

  /** The daemon's sends leave the upward queues alone. */
  predicate SameUpward(s: State, s': State) {
    && s'.browsers == s.browsers && s'.received == s.received && s'.acked == s.acked && s'.results == s.results
    && forall c :: c in s'.wires ==> c in s.wires && (s'.wires[c].up == s.wires[c].up || s'.wires[c].up == [])
  }

  lemma FocusIsDownward(s: State, id: string, ok: bool)
    ensures SameUpward(s, StepFocus(s, id, ok))
  {
  }

  lemma BroadcastIsDownward(s: State, id: string, ok: bool)
    ensures SameUpward(s, StepBroadcast(s, id, ok))
  {
  }

  lemma FlushIsDownward(s: State, c: ConnId, ok: bool)
    ensures SameUpward(s, StepFlush(s, c, ok))
  {
  }

  lemma SendingIsDownward(s: State, e: Event)
    requires DaemonSends(e)
    ensures SameUpward(s, Step(s, e))
  {
    match e
    case FocusStep(id, ok) => FocusIsDownward(s, id, ok);
    case BroadcastStep(id, ok) => BroadcastIsDownward(s, id, ok);
    case FlushStep(c, ok) => FlushIsDownward(s, c, ok);
    case _ =>
  }

  lemma SendingKeepsAcks(s: State, e: Event)
    requires AcksHonest(s) && QueuesBounded(s) && DaemonSends(e)
    ensures AcksHonest(Step(s, e)) && QueuesBounded(Step(s, e))
  {
    SendingIsDownward(s, e);
  }

  predicate SocketChange(e: Event) {
    e.Dial? || e.ConnectCall? || e.SocketClosing? || e.SocketClosed? || e.StopBrowser?
  }

  /** Nothing is queued or sent. */
  predicate QuietChange(s: State, s': State) {
    && s'.received == s.received && s'.acked == s.acked && s'.results == s.results
    && (forall b :: b in s'.browsers ==>
      && b in s.browsers
      && s'.browsers[b].queue == s.browsers[b].queue && s'.browsers[b].maxQueue == s.browsers[b].maxQueue)
    && (forall c :: c in s'.wires ==> (c in s.wires && s'.wires[c] == s.wires[c]) || s'.wires[c].up == [])
  }

  lemma SocketChangeKeepsAcks(s: State, e: Event)
    requires AcksHonest(s) && QueuesBounded(s) && SocketChange(e)
    ensures AcksHonest(Step(s, e)) && QueuesBounded(Step(s, e))
  {
    SocketChangeIsQuiet(s, e);
  }

  lemma SocketChangeIsQuiet(s: State, e: Event)
    requires SocketChange(e)
    ensures QuietChange(s, Step(s, e))
  {
    if e.Dial? {
      DialIsQuiet(s, e.browser, e.conn);
    } else if e.ConnectCall? {
      ConnectIsQuiet(s, e.browser, e.conn);
    } else {
      LeavingIsQuiet(s, e);
    }
  }

  lemma ClientIsQuiet(s: State, b: BrowserId, c: Client.Client)
    requires b in s.browsers && c.queue == s.browsers[b].queue && c.maxQueue == s.browsers[b].maxQueue
    ensures QuietChange(s, s.(browsers := s.browsers[b := c]))
  {
  }

  lemma LeavingIsQuiet(s: State, e: Event)
    requires e.SocketClosing? || e.SocketClosed? || e.StopBrowser?
    ensures QuietChange(s, Step(s, e))
  {
    var b := e.browser;
    if b in s.browsers {
      var c := s.browsers[b];
      ClientIsQuiet(s, b, c.(ready := false));
      ClientIsQuiet(s, b, Client.OnClose(c));
      ClientIsQuiet(s, b, Client.Stop(c));
    }
  }

  lemma ConnectIsQuiet(s: State, b: BrowserId, c: ConnId)
    ensures QuietChange(s, StepConnect(s, b, c))
  {
  }

  lemma DialIsQuiet(s: State, b: BrowserId, c: ConnId)
    ensures QuietChange(s, StepDial(s, b, c))
  {
  }

  lemma StepKeepsAcks(s: State, e: Event)
    requires PendingExact(s) && AcksHonest(s) && QueuesBounded(s) && OnlyEmittedTravels(s)
    ensures AcksHonest(Step(s, e)) && QueuesBounded(Step(s, e))
  {
    if DaemonSends(e) {
      SendingKeepsAcks(s, e);
    } else if SocketChange(e) {
      SocketChangeKeepsAcks(s, e);
    } else {
      match e
      case AckWake(id) => EndKeepsAcks(s, id, true);
      case AckTimeout(id) => EndKeepsAcks(s, id, false);
      case SocketOpened(b) =>
        if b in s.browsers {
          OpenedKeepsAcks(s, b, true);
        }
      case StaleOpened(b) =>
        if b in s.browsers {
          OpenedKeepsAcks(s, b, s.browsers[b].ready);
        }
      case BrowserReceive(c) => ReceiveKeepsAcks(s, c);
      case HubReceive(c) => HubReceiveKeepsAcks(s, c);
      case AppSend(b, payload) =>
        if b in s.browsers {
          SendFrameBounds(s.browsers[b], ConfigUpdated(payload));
          CallbackKeepsAcks(s, b, Client.SendFrame(s.browsers[b], ConfigUpdated(payload)));
        }
    }
  }

  lemma BeginKeepsEmitted(s: State, t: Trigger)
    requires PendingExact(s) && OnlyEmittedTravels(s)
    ensures OnlyEmittedTravels(StepBeginEmit(s, t))
  {
    if t.id != "" && t.id !in s.emitted {
      var s', pending := StepBeginEmit(s, t), s.hub.pending;
      IdsAfterPut(pending, t);
      assert forall u :: u in pending + [t] ==> u in pending || u == t;
      forall c | c in s'.wires ensures TriggersOk(s'.wires[c].down, s'.emitted) {
        assert TriggersOk(s.wires[c].down, s.emitted);
      }
    }
  }

  lemma PushDownKeeps(s: State, c: ConnId, f: Frame, ok: bool)
    requires forall d :: d in s.wires ==> TriggersOk(s.wires[d].down, s.emitted)
    requires f.TriggerEvent? ==> f.trigger.id in s.emitted
    ensures forall d :: d in PushDown(s, c, f, ok) ==> TriggersOk(PushDown(s, c, f, ok)[d].down, s.emitted)
  {
  }

  lemma FocusKeepsEmitted(s: State, id: string, ok: bool)
    requires OnlyEmittedTravels(s)
    ensures OnlyEmittedTravels(StepFocus(s, id, ok))
  {
    if id in s.emitters && s.emitters[id].phase.Focusing? && s.emitters[id].phase.todo != [] {
      PushDownKeeps(s, s.emitters[id].phase.todo[0], FocusWindow(id), ok);
    }
  }

  lemma BroadcastKeepsEmitted(s: State, id: string, ok: bool)
    requires OnlyEmittedTravels(s)
    ensures OnlyEmittedTravels(StepBroadcast(s, id, ok))
  {
    if id in s.emitters && s.emitters[id].phase.Broadcasting? && s.emitters[id].phase.todo != [] {
      PushDownKeeps(s, s.emitters[id].phase.todo[0], TriggerEvent(s.emitters[id].trigger), ok);
    }
  }

  lemma FlushKeepsEmitted(s: State, c: ConnId, ok: bool)
    requires OnlyEmittedTravels(s)
    ensures OnlyEmittedTravels(StepFlush(s, c, ok))
  {
    if c in s.flushes && s.flushes[c] != [] {
      assert s.flushes[c][0] in s.flushes[c];
      PushDownKeeps(s, c, TriggerEvent(s.flushes[c][0]), ok);
    }
  }

  lemma DaemonKeepsEmitted(s: State, e: Event)
    requires OnlyEmittedTravels(s) && DaemonSends(e) && !e.BeginEmit?
    ensures OnlyEmittedTravels(Step(s, e))
  {
    match e
    case FocusStep(id, ok) => FocusKeepsEmitted(s, id, ok);
    case BroadcastStep(id, ok) => BroadcastKeepsEmitted(s, id, ok);
    case FlushStep(c, ok) => FlushKeepsEmitted(s, c, ok);
    case HubHeartbeat(c) => PushDownKeeps(s, c, Heartbeat, true);
    case _ =>
  }

  lemma HubReceiveKeepsEmitted(s: State, c: ConnId)
    requires PendingExact(s) && OnlyEmittedTravels(s)
    ensures OnlyEmittedTravels(StepHubReceive(s, c))
  {
    if Reading(s, c) && c in s.wires && s.wires[c].up != [] && s.wires[c].up[0].TriggerAck? {
      PopRemoves(s.hub.pending, s.wires[c].up[0].id);
    }
  }

  lemma BrowserReceiveKeepsEmitted(s: State, c: ConnId)
    requires OnlyEmittedTravels(s)
    ensures OnlyEmittedTravels(StepBrowserReceive(s, c))
  {
    if StepBrowserReceive(s, c) != s {
      assert s.wires[c].down[0] in s.wires[c].down;
      assert TriggersOk(s.wires[c].down[1..], s.emitted);
    }
  }

  lemma StepKeepsEmitted(s: State, e: Event)
    requires PendingExact(s) && OnlyEmittedTravels(s)
    ensures OnlyEmittedTravels(Step(s, e))
  {
    if e.BeginEmit? {
      BeginKeepsEmitted(s, e.trigger);
    } else if DaemonSends(e) {
      DaemonKeepsEmitted(s, e);
    } else if e.HubReceive? {
      HubReceiveKeepsEmitted(s, e.conn);
    } else if e.BrowserReceive? {
      BrowserReceiveKeepsEmitted(s, e.conn);
    } else {
      OtherKeepsEmitted(s, e);
    }
  }

  lemma OtherKeepsEmitted(s: State, e: Event)
    requires OnlyEmittedTravels(s)
    requires !DaemonSends(e) && !e.HubReceive? && !e.BrowserReceive?
    ensures OnlyEmittedTravels(Step(s, e))
  {
  }

  // ---- a send that did not raise puts the trigger on the wire ----

  /** Connections the daemon knows of were dialed by a browser, and are registered only while undropped. */
  ghost predicate DialedFirst(s: State) {
    && s.wires.Keys <= s.dialed
    && (forall c :: c in s.hub.clients ==> c in s.dialed)
    && (forall c :: c in s.hub.clients && c in s.wires ==> !s.wires[c].dropped)
    && (forall c :: c in s.flushes ==> c in s.dialed)
    && (forall id, c :: id in s.emitters && s.emitters[id].phase.Broadcasting? && c in s.emitters[id].phase.todo ==>
      c in s.dialed)
    && (forall c, t :: (c, t) in s.attempted ==> c in s.dialed)
  }

  /** The connection is gone: lost on the browser's side, or dropped by the daemon. */
  predicate Gone(s: State, c: ConnId) {
    c !in s.wires || s.wires[c].dropped
  }

  /** The trigger's frame is on its way to the browser, or the trigger has arrived at one. */
  predicate OnItsWay(s: State, c: ConnId, t: Trigger) {
    t.id in s.received || (c in s.wires && TriggerEvent(t) in s.wires[c].down)
  }

  ghost predicate SendsDeliver(s: State) {
    forall c, t :: (c, t) in s.attempted ==> (c, t) in s.failed || Gone(s, c) || OnItsWay(s, c, t)
  }

  /** A step of a broadcast whose send does not raise appends TRIGGER_EVENT, and nothing else, to the client's wire. */
  lemma BroadcastDelivers(s: State, id: string)
    requires id in s.emitters && s.emitters[id].phase.Broadcasting? && s.emitters[id].phase.todo != []
    ensures var c, t, s' := s.emitters[id].phase.todo[0], s.emitters[id].trigger, StepBroadcast(s, id, true);
      && (!Gone(s, c) ==> c in s'.wires && s'.wires[c] == s.wires[c].(down := s.wires[c].down + [TriggerEvent(t)]))
      && (c, t) in s'.attempted && s'.failed == s.failed
  {
  }

  lemma FlushDelivers(s: State, c: ConnId)
    requires c in s.flushes && s.flushes[c] != []
    ensures var t, s' := s.flushes[c][0], StepFlush(s, c, true);
      && (!Gone(s, c) ==> c in s'.wires && s'.wires[c] == s.wires[c].(down := s.wires[c].down + [TriggerEvent(t)]))
      && (c, t) in s'.attempted && s'.failed == s.failed
  {
  }

  /** Only the first frame leaves a wire downwards, and only by arriving. */
  predicate WiresGoOn(s: State, s': State) {
    && s.received <= s'.received && s.failed <= s'.failed
    && (forall c :: c in s'.wires && c in s.dialed ==> c in s.wires)
    && (forall c :: !Gone(s', c) && c in s.wires ==> !Gone(s, c))
    && (forall c, f :: !Gone(s', c) && c in s.wires && f in s.wires[c].down ==>
      f in s'.wires[c].down || (f.TriggerEvent? && f.trigger.id in s'.received) || !f.TriggerEvent?)
  }

  lemma DeliveriesGoOn(s: State, s': State)
    requires SendsDeliver(s) && DialedFirst(s) && WiresGoOn(s, s') && s'.attempted == s.attempted
    ensures SendsDeliver(s')
  {
    forall c, t | (c, t) in s'.attempted ensures (c, t) in s'.failed || Gone(s', c) || OnItsWay(s', c, t) {
      assert (c, t) in s.attempted && c in s.dialed;
    }
  }

  lemma BroadcastKeepsDialed(s: State, id: string, ok: bool)
    requires DialedFirst(s)
    ensures DialedFirst(StepBroadcast(s, id, ok))
  {
    if id in s.emitters && s.emitters[id].phase.Broadcasting? && s.emitters[id].phase.todo != [] {
      var todo := s.emitters[id].phase.todo;
      assert todo[0] in todo && forall c :: c in todo[1..] ==> c in todo;
    }
  }

  lemma PushGoesOn(s: State, c: ConnId, f: Frame, ok: bool)
    ensures WiresGoOn(s, s.(wires := PushDown(s, c, f, ok)))
  {
  }

  /** One more send is recorded, with its frame on the wire unless it raised. */
  lemma OneMoreDelivery(s: State, s': State, c: ConnId, t: Trigger)
    requires DialedFirst(s) && SendsDeliver(s) && WiresGoOn(s, s')
    requires s'.attempted == s.attempted + {(c, t)}
    requires (c, t) in s'.failed || Gone(s', c) || OnItsWay(s', c, t)
    ensures SendsDeliver(s')
  {
    DeliveriesGoOn(s, s'.(attempted := s.attempted));
    forall d, u | (d, u) in s'.attempted ensures (d, u) in s'.failed || Gone(s', d) || OnItsWay(s', d, u) {
      if (d, u) in s.attempted {
        var s'' := s'.(attempted := s.attempted);
        assert (d, u) in s''.failed || Gone(s'', d) || OnItsWay(s'', d, u);
      }
    }
  }

  lemma BroadcastGoesOn(s: State, id: string, ok: bool)
    requires DialedFirst(s) && SendsDeliver(s)
    ensures SendsDeliver(StepBroadcast(s, id, ok))
  {
    if id in s.emitters && s.emitters[id].phase.Broadcasting? {
      var todo, t := s.emitters[id].phase.todo, s.emitters[id].trigger;
      if todo == [] {
        DeliveriesGoOn(s, StepBroadcast(s, id, ok));
      } else {
        PushGoesOn(s, todo[0], TriggerEvent(t), ok);
        BroadcastDelivers(s, id);
        OneMoreDelivery(s, StepBroadcast(s, id, ok), todo[0], t);
      }
    }
  }

  lemma FlushGoesOn(s: State, c: ConnId, ok: bool)
    requires DialedFirst(s) && SendsDeliver(s)
    ensures DialedFirst(StepFlush(s, c, ok)) && SendsDeliver(StepFlush(s, c, ok))
  {
    if c in s.flushes && s.flushes[c] != [] {
      var t := s.flushes[c][0];
      PushGoesOn(s, c, TriggerEvent(t), ok);
      FlushDelivers(s, c);
      OneMoreDelivery(s, StepFlush(s, c, ok), c, t);
    }
  }

  lemma ReceiptGoesOn(s: State, c: ConnId)
    requires DialedFirst(s) && SendsDeliver(s)
    ensures DialedFirst(StepBrowserReceive(s, c)) && SendsDeliver(StepBrowserReceive(s, c))
  {
    var s' := StepBrowserReceive(s, c);
    if s' != s {
      var down := s.wires[c].down;
      assert forall f :: f in down ==> f == down[0] || f in down[1..];
      DeliveriesGoOn(s, s');
    }
  }

  lemma AcceptGoesOn(s: State, c: ConnId)
    requires NobodyForgotten(s) && DialedFirst(s) && SendsDeliver(s)
    ensures DialedFirst(StepAccept(s, c)) && SendsDeliver(StepAccept(s, c))
  {
    WithoutRemoves(s.hub.clients, c);
    DeliveriesGoOn(s, StepAccept(s, c));
  }

  lemma DropGoesOn(s: State, c: ConnId)
    requires NobodyForgotten(s) && DialedFirst(s) && SendsDeliver(s)
    ensures DialedFirst(StepHubDrop(s, c)) && SendsDeliver(StepHubDrop(s, c))
  {
    WithoutRemoves(s.hub.clients, c);
    DeliveriesGoOn(s, StepHubDrop(s, c));
  }

  lemma DialGoesOn(s: State, e: Event)
    requires DialedFirst(s) && SendsDeliver(s) && (e.Dial? || e.ConnectCall?)
    ensures DialedFirst(Step(s, e)) && SendsDeliver(Step(s, e))
  {
    DeliveriesGoOn(s, Step(s, e));
  }

  lemma FocusGoesOn(s: State, id: string, ok: bool)
    requires DialedFirst(s) && SendsDeliver(s)
    ensures DialedFirst(StepFocus(s, id, ok)) && SendsDeliver(StepFocus(s, id, ok))
  {
    FocusKeepsDialed(s, id, ok);
    if id in s.emitters && s.emitters[id].phase.Focusing? && s.emitters[id].phase.todo != [] {
      PushGoesOn(s, s.emitters[id].phase.todo[0], FocusWindow(id), ok);
    }
    DeliveriesGoOn(s, StepFocus(s, id, ok));
  }

  lemma FocusKeepsDialed(s: State, id: string, ok: bool)
    requires DialedFirst(s)
    ensures DialedFirst(StepFocus(s, id, ok))
  {
  }

  lemma CallbackGoesOn(s: State, b: BrowserId, e: Client.Effect)
    requires DialedFirst(s) && SendsDeliver(s)
    ensures DialedFirst(AfterCallback(s, b, e)) && SendsDeliver(AfterCallback(s, b, e))
  {
    DeliveriesGoOn(s, AfterCallback(s, b, e));
  }

  predicate SocketSends(e: Event) {
    e.SocketOpened? || e.StaleOpened? || e.AppSend?
  }

  lemma SocketSendGoesOn(s: State, e: Event)
    requires DialedFirst(s) && SendsDeliver(s) && SocketSends(e)
    ensures DialedFirst(Step(s, e)) && SendsDeliver(Step(s, e))
  {
    var b := e.browser;
    if b in s.browsers {
      var c := s.browsers[b];
      CallbackGoesOn(s, b, Client.OnOpen(c.(ready := true)));
      CallbackGoesOn(s, b, Client.OnOpen(c));
      if e.AppSend? {
        CallbackGoesOn(s, b, Client.SendFrame(c, ConfigUpdated(e.payload)));
      }
    }
  }

  lemma EmitterGoesOn(s: State, e: Event)
    requires DialedFirst(s) && SendsDeliver(s) && (e.BeginEmit? || e.AckWake? || e.AckTimeout?)
    ensures DialedFirst(Step(s, e)) && SendsDeliver(Step(s, e))
  {
    DeliveriesGoOn(s, Step(s, e));
  }

  lemma HubReceiveGoesOn(s: State, c: ConnId)
    requires DialedFirst(s) && SendsDeliver(s)
    ensures DialedFirst(StepHubReceive(s, c)) && SendsDeliver(StepHubReceive(s, c))
  {
    HubReceiveKeepsDialed(s, c);
    DeliveriesGoOn(s, StepHubReceive(s, c));
  }

  lemma HubReceiveKeepsDialed(s: State, c: ConnId)
    requires DialedFirst(s)
    ensures DialedFirst(StepHubReceive(s, c))
  {
  }

  lemma LeavingGoesOn(s: State, e: Event)
    requires DialedFirst(s) && SendsDeliver(s)
    requires e.HubHeartbeat? || e.WireLost? || e.SocketClosing? || e.SocketClosed? || e.StopBrowser?
    ensures DialedFirst(Step(s, e)) && SendsDeliver(Step(s, e))
  {
    if e.HubHeartbeat? {
      PushGoesOn(s, e.conn, Heartbeat, true);
    }
    LeavingKeepsDialed(s, e);
    DeliveriesGoOn(s, Step(s, e));
  }

  lemma LeavingKeepsDialed(s: State, e: Event)
    requires DialedFirst(s)
    requires e.HubHeartbeat? || e.WireLost? || e.SocketClosing? || e.SocketClosed? || e.StopBrowser?
    ensures DialedFirst(Step(s, e))
  {
  }

  lemma StepKeepsDelivering(s: State, e: Event)
    requires NobodyForgotten(s) && DialedFirst(s) && SendsDeliver(s)
    ensures DialedFirst(Step(s, e)) && SendsDeliver(Step(s, e))
  {
    match e
    case FocusStep(id, ok) => FocusGoesOn(s, id, ok);
    case BroadcastStep(id, ok) =>
      BroadcastKeepsDialed(s, id, ok);
      BroadcastGoesOn(s, id, ok);
    case FlushStep(c, ok) => FlushGoesOn(s, c, ok);
    case BrowserReceive(c) => ReceiptGoesOn(s, c);
    case HubReceive(c) => HubReceiveGoesOn(s, c);
    case Accept(c) => AcceptGoesOn(s, c);
    case HubDrop(c) => DropGoesOn(s, c);
    case Dial(_, _) => DialGoesOn(s, e);
    case ConnectCall(_, _) => DialGoesOn(s, e);
    case _ =>
      if SocketSends(e) {
        SocketSendGoesOn(s, e);
      } else if e.BeginEmit? || e.AckWake? || e.AckTimeout? {
        EmitterGoesOn(s, e);
      } else {
        LeavingGoesOn(s, e);
      }
  }

  // ---- the theorems ----

  ghost predicate Inv(s: State) {
    && PendingExact(s) && NobodyForgotten(s) && AcksHonest(s) && OnlyEmittedTravels(s) && QueuesBounded(s)
    && DialedFirst(s) && SendsDeliver(s)
  }

  lemma {:induction false} EveryInterleaving(browsers: map<BrowserId, nat>, es: seq<Event>)
    ensures Inv(Run(Start(browsers), es))
  {
    if es != [] {
      var n := |es| - 1;
      EveryInterleaving(browsers, es[..n]);
      var s := Run(Start(browsers), es[..n]);
      StepKeepsPending(s, es[n]);
      StepKeepsOwed(s, es[n]);
      StepKeepsAcks(s, es[n]);
      StepKeepsEmitted(s, es[n]);
      StepKeepsDelivering(s, es[n]);
    }
  }

  /** No trigger is lost: each emitted one is still pending, or some browser has received it. */
  lemma NoTriggerIsLost(browsers: map<BrowserId, nat>, es: seq<Event>, id: string)
    requires id in Run(Start(browsers), es).emitted
    ensures id in Ids(Run(Start(browsers), es).hub.pending) || id in Run(Start(browsers), es).received
    ensures id in Run(Start(browsers), es).results && Run(Start(browsers), es).results[id]
      ==> id in Run(Start(browsers), es).received
  {
    EveryInterleaving(browsers, es);
  }

  /** With no flush to a client and no broadcast running, every pending trigger has been sent to it: unless that send
      raised or the browser has lost the connection, the trigger's frame is on the wire to it or has arrived at a
      browser. */
  lemma QuietMeansSent(browsers: map<BrowserId, nat>, es: seq<Event>, c: ConnId, t: Trigger)
    requires var s := Run(Start(browsers), es);
      && c in s.hub.clients && t in s.hub.pending
      && (c in s.flushes ==> s.flushes[c] == [])
      && (t.id in s.emitters ==> s.emitters[t.id].phase.AwaitingAck?)
    ensures var s := Run(Start(browsers), es);
      (c, t) in s.attempted && ((c, t) in s.failed || c !in s.wires || OnItsWay(s, c, t))
  {
    EveryInterleaving(browsers, es);
    assert SentOrOwed(Run(Start(browsers), es), c, t);
  }
}
