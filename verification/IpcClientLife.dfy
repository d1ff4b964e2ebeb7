/** The browser's client over its whole life: whatever its caller, its sockets and its timer do. */
module DaemonClientLife {
  import opened Wrappers
  import opened IpcFrames
  import opened DaemonClientSpec

  /** `conn` is the new socket, or None when its constructor throws; a socket that opens or closes may be one the
      client no longer holds. */
  datatype Event =
    | ConnectCall(conn: Option<ConnId>)
    | StopCall
    | TimerFires(conn: Option<ConnId>)
    | SocketOpens(current: bool)
    | SocketClosing
    | SocketCloses
    | Offer(frame: Frame)
    | Arrive(frame: Frame)

  /** The client, whether any socket was ever made, and the history: the frames handed to sockets, the frames
      offered to be sent, the place among the latter of each frame handed over or queued, and how many were
      dropped. */
  datatype Life = Life(client: Client, made: bool, out: seq<Frame>, offered: seq<Frame>, places: seq<nat>, dropped: nat)

  function Born(maxQueue: nat): Life {
    Life(InitialClient(maxQueue), false, [], [], [], 0)
  }

  function WithClient(s: Life, c: Client): Life {
    s.(client := c, made := s.made || c.ws.Some?)
  }

  function OfferFrame(s: Life, f: Frame): Life {
    var e := SendFrame(s.client, f);
    var full := Full(s.client);
    var places := s.places + [|s.offered|];
    var k := if |s.out| < |s.places| then |s.out| else |s.places|;
    s.(client := e.client, out := s.out + e.sent, offered := s.offered + [f],
       places := if full then places[..k] + places[k + 1..] else places,
       dropped := if full then s.dropped + 1 else s.dropped)
  }

  function Step(s: Life, e: Event): Life {
    match e
    case ConnectCall(conn) => WithClient(s, Connect(s.client, conn))
    case StopCall => WithClient(s, Stop(s.client))
    case TimerFires(conn) =>
      if s.client.timer.None? then s else WithClient(s, Open(s.client.(timer := None), conn))
    case SocketOpens(current) =>
      if !s.made then s
      else
        var flushed := OnOpen(if current && s.client.ws.Some? then s.client.(ready := true) else s.client);
        s.(client := flushed.client, out := s.out + flushed.sent)
    case SocketClosing => s.(client := s.client.(ready := false))
    case SocketCloses => if !s.made then s else WithClient(s, OnClose(s.client))
    case Offer(f) => OfferFrame(s, f)
    case Arrive(f) =>
      if f.Heartbeat? then OfferFrame(s, HeartbeatAck)
      else if f.TriggerEvent? then OfferFrame(s, TriggerAck(f.trigger.id))
      else s
  }

  function Run(s: Life, es: seq<Event>): Life {
    if es == [] then s else Step(Run(s, es[..|es| - 1]), es[|es| - 1])
  }

  // ---- the client comes back by itself exactly while it is wanted ----

  /** Connected by its caller, and not stopped since. */
  predicate Wanted(es: seq<Event>) {
    es != [] && (es[|es| - 1].ConnectCall? || (!es[|es| - 1].StopCall? && Wanted(es[..|es| - 1])))
  }

  predicate Reachable(s: Life, wanted: bool) {
    && (s.client.ws.Some? || s.client.timer.Some? <==> wanted)
    && (wanted ==> !s.client.stopped)
    && (!wanted ==> s.client.stopped || !s.made)
    && (s.client.ws.Some? ==> s.made)
    && (!s.made ==> !s.client.connected)
  }

  lemma OpenedOnlyQueue(c: Client)
    requires |c.queue| <= c.maxQueue
    ensures var c' := OnOpen(c).client;
      c' == c.(connected := true, attempt := 0, queue := c'.queue)
  {
    FlushSendsOrKeeps(c.(connected := true, attempt := 0));
  }

  lemma StepReaches(s: Life, e: Event, wanted: bool)
    requires Reachable(s, wanted) && |s.client.queue| <= s.client.maxQueue
    ensures Reachable(Step(s, e), e.ConnectCall? || (!e.StopCall? && wanted))
  {
    if e.SocketOpens? {
      OpenedOnlyQueue(s.client);
      OpenedOnlyQueue(s.client.(ready := true));
    }
  }

  /** Over any life: the client has a socket or a timer for the next one exactly while its caller wants it connected;
      so a failure never strands it, and a stopped client stays away. */
  lemma {:induction false} NeverStranded(maxQueue: nat, es: seq<Event>)
    ensures var c := Run(Born(maxQueue), es).client;
      && (c.ws.Some? || c.timer.Some? <==> Wanted(es))
      && (Wanted(es) ==> !c.stopped)
  {
    RunReaches(maxQueue, es);
  }

  lemma {:induction false} RunReaches(maxQueue: nat, es: seq<Event>)
    ensures Reachable(Run(Born(maxQueue), es), Wanted(es))
  {
    if es != [] {
      RunReaches(maxQueue, es[..|es| - 1]);
      RunDelivers(maxQueue, es[..|es| - 1]);
      StepReaches(Run(Born(maxQueue), es[..|es| - 1]), es[|es| - 1], Wanted(es[..|es| - 1]));
    }
  }

  // ---- frames leave in the order they were offered ----

  /** Where the frames handed over or queued were offered. */
  predicate Placed(frames: seq<Frame>, places: seq<nat>, offered: seq<Frame>) {
    && |places| == |frames|
    && (forall i, j :: 0 <= i < j < |places| ==> places[i] < places[j])
    && (forall i :: 0 <= i < |places| ==> places[i] < |offered| && frames[i] == offered[places[i]])
  }

  predicate Delivering(s: Life) {
    && |s.client.queue| <= s.client.maxQueue
    && Placed(s.out + s.client.queue, s.places, s.offered)
    && |s.places| + s.dropped == |s.offered|
    && (CanSend(s.client) ==> s.client.queue == [])
  }

  lemma PlacedOneMore(frames: seq<Frame>, places: seq<nat>, offered: seq<Frame>, f: Frame)
    requires Placed(frames, places, offered)
    ensures Placed(frames + [f], places + [|offered|], offered + [f])
  {
  }

  lemma PlacedWithout(frames: seq<Frame>, places: seq<nat>, offered: seq<Frame>, k: nat)
    requires Placed(frames, places, offered) && k < |frames|
    ensures Placed(frames[..k] + frames[k + 1..], places[..k] + places[k + 1..], offered)
  {
  }

  predicate Full(c: Client) {
    !CanSend(c) && |c.queue| >= c.maxQueue
  }

  /** Joined: what was handed to sockets, what is queued, and one frame more. */
  lemma JoinedByOne(out: seq<Frame>, queue: seq<Frame>, f: Frame)
    ensures out + [f] == out + [f] + []
    ensures (out + queue) + [f] == out + (queue + [f])
  {
  }

  lemma JoinedWithout(out: seq<Frame>, queue: seq<Frame>)
    requires queue != []
    ensures (out + queue)[..|out|] + (out + queue)[|out| + 1..] == out + queue[1..]
  {
  }

  lemma OfferWithRoom(s: Life, f: Frame)
    requires Delivering(s) && !Full(s.client)
    ensures Delivering(OfferFrame(s, f))
  {
    PlacedOneMore(s.out + s.client.queue, s.places, s.offered, f);
    JoinedByOne(s.out, s.client.queue, f);
  }

  lemma PlacedAfterDrop(out: seq<Frame>, queue: seq<Frame>, places: seq<nat>, offered: seq<Frame>, f: Frame)
    requires Placed(out + queue, places, offered)
    ensures var places', k := places + [|offered|], |out|;
      k <= |places| && Placed(out + (queue + [f])[1..], places'[..k] + places'[k + 1..], offered + [f])
  {
    PlacedOneMore(out + queue, places, offered, f);
    JoinedByOne(out, queue, f);
    PlacedWithout(out + (queue + [f]), places + [|offered|], offered + [f], |out|);
    JoinedWithout(out, queue + [f]);
  }

  lemma OfferWhenFull(s: Life, f: Frame)
    requires Delivering(s) && Full(s.client)
    ensures Delivering(OfferFrame(s, f))
  {
    PlacedAfterDrop(s.out, s.client.queue, s.places, s.offered, f);
    var s' := OfferFrame(s, f);
    assert s'.out == s.out && s'.client.queue == (s.client.queue + [f])[1..];
  }

  lemma OfferDelivers(s: Life, f: Frame)
    requires Delivering(s)
    ensures Delivering(OfferFrame(s, f))
  {
    if Full(s.client) {
      OfferWhenFull(s, f);
    } else {
      OfferWithRoom(s, f);
    }
  }

  lemma OpenDelivers(s: Life, current: bool)
    requires Delivering(s)
    ensures Delivering(Step(s, SocketOpens(current)))
  {
    var c := if current && s.client.ws.Some? then s.client.(ready := true) else s.client;
    FlushSendsOrKeeps(c.(connected := true, attempt := 0));
    var s' := Step(s, SocketOpens(current));
    assert s'.out + s'.client.queue == s.out + s.client.queue;
  }

  lemma StepDelivers(s: Life, e: Event)
    requires Delivering(s)
    ensures Delivering(Step(s, e))
  {
    match e
    case SocketOpens(current) => OpenDelivers(s, current);
    case Offer(f) => OfferDelivers(s, f);
    case Arrive(f) =>
      if f.Heartbeat? {
        OfferDelivers(s, HeartbeatAck);
      } else if f.TriggerEvent? {
        OfferDelivers(s, TriggerAck(f.trigger.id));
      }
    case _ =>
  }

  lemma {:induction false} RunDelivers(maxQueue: nat, es: seq<Event>)
    ensures Delivering(Run(Born(maxQueue), es))
  {
    if es != [] {
      RunDelivers(maxQueue, es[..|es| - 1]);
      StepDelivers(Run(Born(maxQueue), es[..|es| - 1]), es[|es| - 1]);
    }
  }

  lemma {:induction false} NoGaps(places: seq<nat>, n: nat)
    requires |places| == n
    requires (forall i, j :: 0 <= i < j < |places| ==> places[i] < places[j])
    requires forall i :: 0 <= i < |places| ==> places[i] < n
    ensures forall i :: 0 <= i < n ==> places[i] == i
  {
    if n > 0 {
      assert places[n - 1] < n;
      assert forall i :: 0 <= i < n - 1 ==> places[i] < places[n - 1];
      NoGaps(places[..n - 1], n - 1);
      assert n > 1 ==> places[n - 2] == n - 2;
    }
  }

  /** Over any life: what was handed to sockets and then what is queued are frames in the order they were offered,
      none twice, all of them exactly when none was dropped; and nothing is queued while frames can be sent, so no
      frame overtakes another. */
  lemma FramesKeepTheirOrder(maxQueue: nat, es: seq<Event>)
    ensures var s := Run(Born(maxQueue), es);
      && Placed(s.out + s.client.queue, s.places, s.offered)
      && |s.client.queue| <= maxQueue
      && |s.out| + |s.client.queue| + s.dropped == |s.offered|
      && (s.dropped == 0 <==> s.out + s.client.queue == s.offered)
      && (s.client.connected && s.client.ws.Some? && s.client.ready ==> s.client.queue == [])
  {
    RunDelivers(maxQueue, es);
    SameBound(maxQueue, es);
    var s := Run(Born(maxQueue), es);
    if s.dropped == 0 {
      NoGaps(s.places, |s.offered|);
    }
  }

  lemma {:induction false} SameBound(maxQueue: nat, es: seq<Event>)
    ensures Run(Born(maxQueue), es).client.maxQueue == maxQueue
  {
    if es != [] {
      SameBound(maxQueue, es[..|es| - 1]);
      RunDelivers(maxQueue, es[..|es| - 1]);
      var s := Run(Born(maxQueue), es[..|es| - 1]);
      OpenedOnlyQueue(s.client);
      OpenedOnlyQueue(s.client.(ready := true));
    }
  }

  // ---- what the client shows ----

  /** A socket has opened, and none has closed and no stop come since. */
  predicate OpenSince(maxQueue: nat, es: seq<Event>) {
    es != [] &&
    var before, e := es[..|es| - 1], es[|es| - 1];
    if e.SocketOpens? then Run(Born(maxQueue), before).made
    else !e.SocketCloses? && !e.StopCall? && OpenSince(maxQueue, before)
  }

  /** The client calls itself connected exactly then. */
  lemma {:induction false} ConnectedExactly(maxQueue: nat, es: seq<Event>)
    ensures Run(Born(maxQueue), es).client.connected <==> OpenSince(maxQueue, es)
  {
    if es != [] {
      var before := es[..|es| - 1];
      ConnectedExactly(maxQueue, before);
      RunDelivers(maxQueue, before);
      RunReaches(maxQueue, before);
      StepShows(Run(Born(maxQueue), before), es[|es| - 1], Wanted(before));
    }
  }

  lemma StepShows(s: Life, e: Event, wanted: bool)
    requires Reachable(s, wanted) && |s.client.queue| <= s.client.maxQueue
    ensures Step(s, e).client.connected <==>
      if e.SocketOpens? then s.made else !e.SocketCloses? && !e.StopCall? && s.client.connected
  {
    if e.SocketOpens? {
      OpenedOnlyQueue(s.client);
      OpenedOnlyQueue(s.client.(ready := true));
    }
  }

  // ---- single calls, by the client's fields ----

  /** A frame is handed to the socket exactly when the client is connected through an open socket, and else it is
      queued last; it pushes out the oldest frame exactly when the queue is full. */
  lemma SentExactly(c: Client, f: Frame)
    requires |c.queue| <= c.maxQueue
    ensures var e := SendFrame(c, f);
      && (e.sent == [f] <==> c.connected && c.ws.Some? && c.ready)
      && (e.sent == [] <==> !(c.connected && c.ws.Some? && c.ready))
      && (e.sent == [f] ==> e.client == c)
      && (e.sent == [] ==>
        && e.client == c.(queue := e.client.queue)
        && e.client.queue == if |c.queue| < c.maxQueue then c.queue + [f] else (c.queue + [f])[1..])
  {
  }

  /** Connecting holds on to the socket there is; otherwise it tries for one, unless the client takes itself for
      connected, and a failure to make one is followed by a retry. */
  lemma ConnectTries(c: Client, conn: Option<ConnId>)
    ensures var c' := Connect(c, conn);
      && (c.ws.Some? ==> c' == c)
      && (c.ws.None? && (c.stopped || !c.connected) ==> !c'.stopped && c'.ws == conn && (conn.None? ==> c'.timer.Some?))
      && (c.ws.None? && !c.stopped && c.connected ==> c' == c)
      && c'.connected == c.connected && c'.queue == c.queue
  {
  }

  /** From the start, as after every connection that opened, the first retry waits 100 ms. */
  lemma FirstRetryIsQuick(maxQueue: nat)
    ensures Connect(InitialClient(maxQueue), None).timer == Some(100)
    ensures InitialClient(maxQueue).queue == [] && !CanSend(InitialClient(maxQueue))
  {
  }
}
