/** From any reachable state, one undisturbed reconnection of one browser drains
    everything pending. */
module IpcRecovery {
  import opened Wrappers
  import opened IpcFrames
  import opened IpcHubSpec
  import opened IpcProtocol
  import opened IpcSafety
  import Client = DaemonClientSpec
  import Members

  lemma {:induction false} RunAppend(s: State, xs: seq<Event>, ys: seq<Event>)
    ensures Run(s, xs + ys) == Run(Run(s, xs), ys)
  {
    if ys == [] {
      assert xs + ys == xs;
    } else {
      var n := |ys| - 1;
      RunAppend(s, xs, ys[..n]);
      assert (xs + ys)[..|xs + ys| - 1] == xs + ys[..n];
    }
  }

  lemma RunFirst(s: State, e: Event, es: seq<Event>)
    ensures Run(s, [e] + es) == Run(Step(s, e), es)
  {
    RunAppend(s, [e], es);
    assert [e][..0] == [];
  }

  lemma {:induction false} FreshConn(used: set<ConnId>) returns (c: ConnId)
    ensures c !in used && forall x :: x in used ==> x < c
  {
    if used == {} {
      c := 0;
    } else {
      var x :| x in used;
      var c' := FreshConn(used - {x});
      c := if x < c' then c' else x + 1;
      assert forall y :: y in used ==> y == x || y in used - {x};
    }
  }

  function EventsFor(ts: seq<Trigger>): seq<Frame> {
    seq(|ts|, i requires 0 <= i < |ts| => TriggerEvent(ts[i]))
  }

  function AcksFor(ts: seq<Trigger>): seq<Frame> {
    seq(|ts|, i requires 0 <= i < |ts| => TriggerAck(ts[i].id))
  }

  /** Browser `b` sits on connection `c`, with this left to flush and these frames in flight. */
  predicate Linked(s: State, b: BrowserId, c: ConnId, owed: seq<Trigger>, down: seq<Frame>, up: seq<Frame>) {
    && c in s.hub.clients && c in s.flushes && s.flushes[c] == owed
    && c in s.wires && s.wires[c] == Wire(b, down, up, false)
    && b in s.browsers && s.browsers[b].ws == Some(c)
  }

  lemma {:induction false} Flushes(s: State, b: BrowserId, c: ConnId, owed: seq<Trigger>, down: seq<Frame>)
    returns (es: seq<Event>)
    requires Linked(s, b, c, owed, down, [])
    ensures Linked(Run(s, es), b, c, [], down + EventsFor(owed), [])
    ensures Run(s, es).hub == s.hub && Run(s, es).browsers == s.browsers
    decreases |owed|
  {
    if owed == [] {
      es := [];
      assert down + EventsFor(owed) == down;
    } else {
      var s1 := Step(s, FlushStep(c, true));
      var rest := Flushes(s1, b, c, owed[1..], down + [TriggerEvent(owed[0])]);
      es := [FlushStep(c, true)] + rest;
      RunFirst(s, FlushStep(c, true), rest);
      assert down + [TriggerEvent(owed[0])] + EventsFor(owed[1..]) == down + EventsFor(owed);
    }
  }

  lemma ReceivesOne(s: State, b: BrowserId, c: ConnId, ts: seq<Trigger>, up: seq<Frame>)
    requires ts != [] && Linked(s, b, c, [], EventsFor(ts), up) && Client.CanSend(s.browsers[b])
    ensures var s1 := Step(s, BrowserReceive(c));
      && Linked(s1, b, c, [], EventsFor(ts[1..]), up + [TriggerAck(ts[0].id)])
      && Client.CanSend(s1.browsers[b]) && s1.hub == s.hub
  {
    assert EventsFor(ts)[1..] == EventsFor(ts[1..]);
  }

  lemma AcksForFirst(ts: seq<Trigger>, up: seq<Frame>)
    requires ts != []
    ensures up + [TriggerAck(ts[0].id)] + AcksFor(ts[1..]) == up + AcksFor(ts)
  {
    assert [TriggerAck(ts[0].id)] + AcksFor(ts[1..]) == AcksFor(ts);
  }

  lemma {:induction false} Receives(s: State, b: BrowserId, c: ConnId, ts: seq<Trigger>, up: seq<Frame>)
    returns (es: seq<Event>)
    requires Linked(s, b, c, [], EventsFor(ts), up) && Client.CanSend(s.browsers[b])
    ensures Linked(Run(s, es), b, c, [], [], up + AcksFor(ts))
    ensures Run(s, es).hub == s.hub
    decreases |ts|
  {
    if ts == [] {
      es := [];
      assert up + AcksFor(ts) == up;
    } else {
      var s1 := Step(s, BrowserReceive(c));
      ReceivesOne(s, b, c, ts, up);
      var rest := Receives(s1, b, c, ts[1..], up + [TriggerAck(ts[0].id)]);
      es := [BrowserReceive(c)] + rest;
      RunFirst(s, BrowserReceive(c), rest);
      AcksForFirst(ts, up);
    }
  }

  ghost predicate AllAcked(pending: seq<Trigger>, up: seq<Frame>) {
    forall t :: t in pending ==> TriggerAck(t.id) in up
  }

  lemma {:induction false} Drains(s: State, b: BrowserId, c: ConnId, up: seq<Frame>)
    returns (es: seq<Event>)
    requires Linked(s, b, c, [], [], up) && AllAcked(s.hub.pending, up)
    requires DistinctIds(s.hub.pending) && forall t :: t in s.hub.pending ==> t.id != ""
    ensures Run(s, es).hub.pending == []
    decreases |up|
  {
    if up == [] {
      es := [];
      Members.SomeElement(s.hub.pending);
    } else {
      var s1 := Step(s, HubReceive(c));
      if up[0].TriggerAck? {
        PopRemoves(s.hub.pending, up[0].id);
      }
      forall t | t in s1.hub.pending ensures TriggerAck(t.id) in up[1..] {
        assert t in s.hub.pending;
        assert TriggerAck(t.id) in up;
      }
      var rest := Drains(s1, b, c, up[1..]);
      es := [HubReceive(c)] + rest;
      RunFirst(s, HubReceive(c), rest);
    }
  }

  lemma Connects(s: State, b: BrowserId, c: ConnId) returns (s': State)
    requires Inv(s) && b in s.browsers && s.browsers[b].ws.None? && !s.browsers[b].stopped
    requires c !in s.dialed && c !in s.hub.clients
    ensures s' == Run(s, [Dial(b, c), Accept(c)])
    ensures Linked(s', b, c, s.hub.pending, [], []) && s'.hub.pending == s.hub.pending
    ensures |s'.browsers[b].queue| <= s'.browsers[b].maxQueue && !s'.browsers[b].ready
  {
    var s1 := Step(s, Dial(b, c));
    s' := Step(s1, Accept(c));
    RunFirst(s, Dial(b, c), [Accept(c)]);
    RunFirst(s1, Accept(c), []);
    assert [Dial(b, c)] + [Accept(c)] == [Dial(b, c), Accept(c)];
    assert [Accept(c)] + [] == [Accept(c)];
  }

  lemma Opens(s: State, b: BrowserId, c: ConnId, down: seq<Frame>) returns (up: seq<Frame>)
    requires Linked(s, b, c, [], down, []) && !s.browsers[b].ready
    requires |s.browsers[b].queue| <= s.browsers[b].maxQueue
    ensures Linked(Step(s, SocketOpened(b)), b, c, [], down, up)
    ensures Step(s, SocketOpened(b)).hub == s.hub
    ensures Client.CanSend(Step(s, SocketOpened(b)).browsers[b])
  {
    var client := s.browsers[b].(ready := true, connected := true, attempt := 0);
    Client.FlushSendsOrKeeps(client);
    up := client.queue;
  }

  /** Whatever has happened, if an idle browser reconnects undisturbed, nothing stays pending. */
  lemma ReconnectDrainsPending(browsers: map<BrowserId, nat>, es: seq<Event>, b: BrowserId)
    returns (more: seq<Event>)
    requires var s := Run(Start(browsers), es);
      b in s.browsers && s.browsers[b].ws.None? && !s.browsers[b].stopped
    ensures Run(Start(browsers), es + more).hub.pending == []
  {
    EveryInterleaving(browsers, es);
    var s := Run(Start(browsers), es);
    var c := FreshConn(s.dialed + set x | x in s.hub.clients);
    var s1 := Connects(s, b, c);
    var flush := Flushes(s1, b, c, s.hub.pending, []);
    var s2 := Run(s1, flush);
    assert [] + EventsFor(s.hub.pending) == EventsFor(s.hub.pending);
    var queued := Opens(s2, b, c, EventsFor(s.hub.pending));
    var s3 := Step(s2, SocketOpened(b));
    var receive := Receives(s3, b, c, s.hub.pending, queued);
    var s4 := Run(s3, receive);
    var up := queued + AcksFor(s.hub.pending);
    forall t | t in s4.hub.pending ensures TriggerAck(t.id) in up && t.id != "" {
      var i :| 0 <= i < |s.hub.pending| && s.hub.pending[i] == t;
      assert up[|queued| + i] == TriggerAck(t.id);
      assert t.id in Ids(s.hub.pending);
    }
    var drain := Drains(s4, b, c, up);
    more := [Dial(b, c), Accept(c)] + (flush + ([SocketOpened(b)] + (receive + drain)));
    RunAppend(Start(browsers), es, more);
    RunAppend(s, [Dial(b, c), Accept(c)], flush + ([SocketOpened(b)] + (receive + drain)));
    RunAppend(s1, flush, [SocketOpened(b)] + (receive + drain));
    RunFirst(s2, SocketOpened(b), receive + drain);
    RunAppend(s3, receive, drain);
  }
}
