/** What travels on the daemon channel. */
module IpcFrames {
  type ConnId = nat

  datatype Trigger = Trigger(id: string, detail: int)

  datatype Frame =
    | TriggerEvent(trigger: Trigger)
    | TriggerAck(id: string)
    | FocusWindow(id: string)
    | Heartbeat
    | HeartbeatAck
    | ConfigUpdated(payload: int)
}

/** The browser's end of the channel: reconnection and a bounded outbound queue. */
module DaemonClientSpec {
  import opened Wrappers
  import opened IpcFrames

  /** `ready` is the socket's readyState being OPEN. */
  datatype Client = Client(
    maxQueue: nat,
    ws: Option<ConnId>,
    ready: bool,
    connected: bool,
    queue: seq<Frame>,
    attempt: nat,
    stopped: bool,
    timer: Option<nat>)

  /** The new state and the frames handed to the socket. */
  datatype Effect = Effect(client: Client, sent: seq<Frame>)

  const BACKOFF_MS: seq<nat> := [100, 200, 400, 800, 1600]

  function InitialClient(maxQueue: nat): Client {
    Client(maxQueue, None, false, false, [], 0, false, None)
  }

  predicate CanSend(c: Client) {
    c.connected && c.ws.Some? && c.ready
  }

  function SendFrame(c: Client, f: Frame): Effect {
    if CanSend(c) then Effect(c, [f])
    else
      var queue := c.queue + [f];
      Effect(c.(queue := if |queue| > c.maxQueue then queue[1..] else queue), [])
  }

  function SendAll(c: Client, fs: seq<Frame>): Effect {
    if fs == [] then Effect(c, [])
    else
      var before := SendAll(c, fs[..|fs| - 1]);
      var last := SendFrame(before.client, fs[|fs| - 1]);
      Effect(last.client, before.sent + last.sent)
  }

  function Flush(c: Client): Effect {
    SendAll(c.(queue := []), c.queue)
  }

  function BackoffDelay(attempt: nat): nat {
    if attempt < |BACKOFF_MS| then BACKOFF_MS[attempt] else 5000
  }

  function ScheduleReconnect(c: Client): Client {
    if c.stopped then c
    else c.(attempt := c.attempt + 1, timer := Some(BackoffDelay(c.attempt)))
  }

  /** `conn` is None when the WebSocket constructor throws. */
  function Open(c: Client, conn: Option<ConnId>): Client {
    if conn.None? then ScheduleReconnect(c) else c.(ws := conn, ready := false)
  }

  function Connect(c: Client, conn: Option<ConnId>): Client {
    if c.ws.Some? || (!c.stopped && c.connected) then c else Open(c.(stopped := false), conn)
  }

  function OnOpen(c: Client): Effect {
    Flush(c.(connected := true, attempt := 0))
  }

  function OnClose(c: Client): Client {
    ScheduleReconnect(c.(connected := false, ws := None, ready := false))
  }

  function Stop(c: Client): Client {
    c.(stopped := true, timer := None, ws := None, ready := false, connected := false)
  }

  function Receive(c: Client, f: Frame): Effect {
    match f
    case Heartbeat => SendFrame(c, HeartbeatAck)
    case TriggerEvent(t) => SendFrame(c, TriggerAck(t.id))
    case _ => Effect(c, [])
  }

  // ---- how the client waits between attempts ----

  /** One failed attempt: the constructor throws, or the socket closes. */
  datatype Failure = OpenThrew | SocketClosed

  function Fail(c: Client, f: Failure): Client {
    match f
    case OpenThrew => Open(c, None)
    case SocketClosed => OnClose(c)
  }

  function FailAll(c: Client, fs: seq<Failure>): Client {
    if fs == [] then c else Fail(FailAll(c, fs[..|fs| - 1]), fs[|fs| - 1])
  }

  /** The wait, in milliseconds, set after each failure of a run that nothing interrupts. */
  function Waits(c: Client, fs: seq<Failure>): seq<nat> {
    if fs == [] then [] else Waits(c, fs[..|fs| - 1]) + [FailAll(c, fs).timer.GetOr(0)]
  }

  lemma {:induction false} WaitsAt(c: Client, fs: seq<Failure>)
    requires !c.stopped
    ensures !FailAll(c, fs).stopped && FailAll(c, fs).attempt == c.attempt + |fs|
    ensures |Waits(c, fs)| == |fs|
    ensures forall i :: 0 <= i < |fs| ==> Waits(c, fs)[i] == BackoffDelay(c.attempt + i)
  {
    if fs != [] {
      var before := fs[..|fs| - 1];
      WaitsAt(c, before);
      assert FailAll(c, fs).timer == Some(BackoffDelay(FailAll(c, before).attempt));
    }
  }

  /** The sixth wait and all later ones are 5 s; before that they double. */
  lemma DelayTable(attempt: nat)
    ensures BackoffDelay(0) == 100
    ensures attempt < 4 ==> BackoffDelay(attempt + 1) == 2 * BackoffDelay(attempt)
    ensures attempt >= 5 ==> BackoffDelay(attempt) == 5000
    ensures 100 <= BackoffDelay(attempt) <= BackoffDelay(attempt + 1) <= 5000
  {
  }

  lemma {:induction false} DelayGrows(a: nat, b: nat)
    requires a <= b
    ensures BackoffDelay(a) <= BackoffDelay(b)
    decreases b
  {
    if a < b {
      DelayGrows(a, b - 1);
      DelayTable(b - 1);
    }
  }

  /** Over a run of failures the waits never get shorter and stay between 100 ms and 5 s. */
  lemma FailuresBackOff(c: Client, fs: seq<Failure>)
    requires !c.stopped
    ensures |Waits(c, fs)| == |fs|
    ensures forall i :: 0 <= i < |fs| ==> 100 <= Waits(c, fs)[i] <= 5000
    ensures forall i, j :: 0 <= i <= j < |fs| ==> Waits(c, fs)[i] <= Waits(c, fs)[j]
  {
    WaitsAt(c, fs);
    forall i | 0 <= i < |fs| ensures 100 <= Waits(c, fs)[i] <= 5000 {
      DelayTable(c.attempt + i);
    }
    forall i, j | 0 <= i <= j < |fs| ensures Waits(c, fs)[i] <= Waits(c, fs)[j] {
      DelayGrows(c.attempt + i, c.attempt + j);
    }
  }

  /** After a connection that opened, the waits double from 100 ms to 1600 ms and are 5 s from the sixth on. */
  lemma BackOffStartsAfresh(c: Client, fs: seq<Failure>)
    requires !c.stopped
    ensures var waits := Waits(OnOpen(c).client, fs);
      && |waits| == |fs|
      && (fs != [] ==> waits[0] == 100)
      && (forall i :: 0 <= i < 4 && i + 1 < |fs| ==> waits[i + 1] == 2 * waits[i])
      && (forall i :: 5 <= i < |fs| ==> waits[i] == 5000)
  {
    OpenResets(c);
    WaitsAt(OnOpen(c).client, fs);
    forall i: nat | i < |fs| ensures i < 4 ==> BackoffDelay(i + 1) == 2 * BackoffDelay(i) {
      DelayTable(i);
    }
  }

  lemma {:induction false} SendAllIsQueueOnly(c: Client, fs: seq<Frame>)
    ensures SendAll(c, fs).client == c.(queue := SendAll(c, fs).client.queue)
  {
    if fs != [] {
      SendAllIsQueueOnly(c, fs[..|fs| - 1]);
    }
  }

  lemma OpenResets(c: Client)
    ensures OnOpen(c).client.attempt == 0 && OnOpen(c).client.stopped == c.stopped
  {
    var ready := c.(connected := true, attempt := 0);
    SendAllIsQueueOnly(ready.(queue := []), ready.queue);
  }

  /** Once stopped, no failure sets a timer: the client stays away until it is told to connect. */
  lemma {:induction false} StoppedStaysAway(c: Client, fs: seq<Failure>)
    ensures FailAll(Stop(c), fs).stopped && FailAll(Stop(c), fs).timer == None
  {
    if fs != [] {
      StoppedStaysAway(c, fs[..|fs| - 1]);
    }
  }

  // ---- what the queue keeps ----

  function Newest(fs: seq<Frame>, n: nat): seq<Frame> {
    if |fs| <= n then fs else fs[|fs| - n..]
  }

  lemma NewestAfterOne(fs: seq<Frame>, f: Frame, n: nat)
    ensures var kept := Newest(fs, n) + [f];
      Newest(fs + [f], n) == if |kept| > n then kept[1..] else kept
  {
  }

  lemma {:induction false} SendAllOnline(c: Client, fs: seq<Frame>)
    requires CanSend(c)
    ensures SendAll(c, fs) == Effect(c, fs)
  {
    if fs != [] {
      SendAllOnline(c, fs[..|fs| - 1]);
      assert fs[..|fs| - 1] + [fs[|fs| - 1]] == fs;
    }
  }

  lemma {:induction false} SendAllOffline(c: Client, fs: seq<Frame>)
    requires |c.queue| <= c.maxQueue && !CanSend(c)
    ensures SendAll(c, fs) == Effect(c.(queue := Newest(c.queue + fs, c.maxQueue)), [])
  {
    if fs == [] {
      assert c.queue + fs == c.queue;
    } else {
      var n := |fs| - 1;
      var all := c.queue + fs[..n];
      SendAllOffline(c, fs[..n]);
      OfflineOne(c, all, fs[n]);
      calc {
        SendAll(c, fs);
        Effect(SendFrame(c.(queue := Newest(all, c.maxQueue)), fs[n]).client, []);
        Effect(c.(queue := Newest(all + [fs[n]], c.maxQueue)), []);
        { LastApart(c.queue, fs); }
        Effect(c.(queue := Newest(c.queue + fs, c.maxQueue)), []);
      }
    }
  }

  lemma LastApart(xs: seq<Frame>, ys: seq<Frame>)
    requires ys != []
    ensures xs + ys[..|ys| - 1] + [ys[|ys| - 1]] == xs + ys
  {
  }

  lemma OfflineOne(c: Client, all: seq<Frame>, f: Frame)
    requires !CanSend(c)
    ensures SendFrame(c.(queue := Newest(all, c.maxQueue)), f) == Effect(c.(queue := Newest(all + [f], c.maxQueue)), [])
  {
    NewestAfterOne(all, f, c.maxQueue);
  }

  /** Offline, the queue holds exactly the newest frames, oldest first; online it is not touched. */
  lemma SendAllKeepsNewest(c: Client, fs: seq<Frame>)
    requires |c.queue| <= c.maxQueue
    ensures var e := SendAll(c, fs);
      && (CanSend(c) ==> e == Effect(c, fs))
      && (!CanSend(c) ==> e == Effect(c.(queue := Newest(c.queue + fs, c.maxQueue)), []))
      && |e.client.queue| <= c.maxQueue
  {
    if CanSend(c) {
      SendAllOnline(c, fs);
    } else {
      SendAllOffline(c, fs);
    }
  }

  /** Reconnecting sends the whole queue in order, or, if the socket is not open after all, keeps it. */
  lemma FlushSendsOrKeeps(c: Client)
    requires |c.queue| <= c.maxQueue
    ensures CanSend(c) ==> Flush(c) == Effect(c.(queue := []), c.queue)
    ensures !CanSend(c) ==> Flush(c) == Effect(c, [])
  {
    SendAllKeepsNewest(c.(queue := []), c.queue);
    assert [] + c.queue == c.queue;
  }

  /** Every frame handed to the socket or left queued was queued before or sent now. */
  lemma {:induction false} SendAllInventsNothing(c: Client, fs: seq<Frame>, g: Frame)
    requires g in SendAll(c, fs).sent || g in SendAll(c, fs).client.queue
    ensures g in c.queue || g in fs
  {
    if fs != [] {
      var before := SendAll(c, fs[..|fs| - 1]);
      if g in before.sent || g in before.client.queue {
        SendAllInventsNothing(c, fs[..|fs| - 1], g);
      }
    }
  }
}

/** The client object. `wire` collects what is handed to its sockets. */
module DaemonClientClass {
  import opened Wrappers
  import opened IpcFrames
  import Spec = DaemonClientSpec

  class DaemonIpcClient {
    const maxQueue: nat
    var ws: Option<ConnId>
    var ready: bool
    var connected: bool
    var queue: seq<Frame>
    var attempt: nat
    var stopped: bool
    var timer: Option<nat>
    var wire: seq<Frame>

    ghost function State(): Spec.Client reads this {
      Spec.Client(maxQueue, ws, ready, connected, queue, attempt, stopped, timer)
    }

    constructor (maxQueue: nat)
      ensures State() == Spec.InitialClient(maxQueue) && wire == []
    {
      this.maxQueue := maxQueue;
      ws, ready, connected, queue, attempt, stopped, timer := None, false, false, [], 0, false, None;
      wire := [];
    }

    method SendFrame(f: Frame) returns (sent: bool)
      modifies this
      ensures State() == Spec.SendFrame(old(State()), f).client
      ensures wire == old(wire) + Spec.SendFrame(old(State()), f).sent
      ensures sent <==> Spec.CanSend(old(State()))
    {
      if connected && ws.Some? && ready {
        wire := wire + [f];
        return true;
      }
      queue := queue + [f];
      if |queue| > maxQueue {
        queue := queue[1..];
      }
      sent := false;
    }

    method Flush()
      modifies this
      ensures State() == Spec.Flush(old(State())).client
      ensures wire == old(wire) + Spec.Flush(old(State())).sent
    {
      var waiting := queue;
      queue := [];
      ghost var start := State();
      var i := 0;
      while i < |waiting|
        invariant 0 <= i <= |waiting|
        invariant State() == Spec.SendAll(start, waiting[..i]).client
        invariant wire == old(wire) + Spec.SendAll(start, waiting[..i]).sent
      {
        assert waiting[..i + 1][..i] == waiting[..i];
        var _ := SendFrame(waiting[i]);
        i := i + 1;
      }
      assert waiting[..i] == waiting;
    }

    method ScheduleReconnect()
      modifies this
      ensures State() == Spec.ScheduleReconnect(old(State())) && wire == old(wire)
    {
      if stopped {
        return;
      }
      var delay: nat := if attempt < |Spec.BACKOFF_MS| then Spec.BACKOFF_MS[attempt] else 5000;
      attempt := attempt + 1;
      timer := Some(delay);
    }

    method Open(conn: Option<ConnId>)
      modifies this
      ensures State() == Spec.Open(old(State()), conn) && wire == old(wire)
    {
      if conn.None? {
        ScheduleReconnect();
        return;
      }
      ws, ready := conn, false;
    }

    method Connect(conn: Option<ConnId>)
      modifies this
      ensures State() == Spec.Connect(old(State()), conn) && wire == old(wire)
    {
      if ws.Some? || (!stopped && connected) {
        return;
      }
      stopped := false;
      Open(conn);
    }

    method OnOpen()
      modifies this
      ensures State() == Spec.OnOpen(old(State())).client
      ensures wire == old(wire) + Spec.OnOpen(old(State())).sent
    {
      connected := true;
      attempt := 0;
      Flush();
    }

    method OnClose()
      modifies this
      ensures State() == Spec.OnClose(old(State())) && wire == old(wire)
    {
      connected, ws, ready := false, None, false;
      ScheduleReconnect();
    }

    method Stop()
      modifies this
      ensures State() == Spec.Stop(old(State())) && wire == old(wire)
    {
      stopped, timer := true, None;
      ws, ready, connected := None, false, false;
    }

    /** Returns whether the application's onMessage is called: not for heartbeats. */
    method Receive(f: Frame) returns (forwarded: bool)
      modifies this
      ensures State() == Spec.Receive(old(State()), f).client
      ensures wire == old(wire) + Spec.Receive(old(State()), f).sent
      ensures forwarded <==> !f.Heartbeat?
    {
      if f.Heartbeat? {
        var _ := SendFrame(HeartbeatAck);
        return false;
      }
      if f.TriggerEvent? {
        var _ := SendFrame(TriggerAck(f.trigger.id));
      }
      forwarded := true;
    }
  }
}
