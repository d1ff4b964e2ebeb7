/** Tabs elect a primary over a broadcast channel: a timed system with a bounded message delay. */
module PrimaryElection {
  import Members

  const BEAT := 500
  const EXPIRY := 1500

  /** One tab's closure. Tab ids are integers, ordered as the ids' strings are. */
  datatype Tab = Tab(peers: map<int, int>, primary: int, nextBeat: int)

  datatype Message = Message(sender: int, to: int, sent: int)

  datatype System = System(now: int, tabs: map<int, Tab>, flight: set<Message>)

  datatype Event =
    | Wait(ms: nat)
    | Beat(id: int)
    | Deliver(m: Message)
    | Open(id: int)
    | Close(id: int)

  predicate IsSmallest(x: int, s: set<int>) {
    x in s && forall y :: y in s ==> x <= y
  }

  lemma {:induction false} SmallestExists(s: set<int>)
    requires s != {}
    ensures exists x :: IsSmallest(x, s)
    decreases |s|
  {
    var x := Members.SomeMember(s);
    if s == {x} {
      assert IsSmallest(x, s);
    } else {
      SmallestExists(s - {x});
      var y :| IsSmallest(y, s - {x});
      assert forall z :: z in s ==> z == x || z in s - {x};
      assert IsSmallest(if x < y then x else y, s);
    }
  }

  /** The first of the sorted ids. */
  function Smallest(s: set<int>): (x: int)
    requires s != {}
    ensures IsSmallest(x, s)
  {
    SmallestExists(s);
    var x :| x in s && forall y :: y in s ==> x <= y;
    x
  }

  /** The peers that stay: the tab itself, and whoever was heard of recently. */
  function Unexpired(peers: map<int, int>, id: int, now: int): map<int, int> {
    map p | p in peers && (p == id || now - peers[p] <= EXPIRY) :: peers[p]
  }

  /** Note a sign of life and recompute the primary. */
  function Hear(tab: Tab, id: int, sender: int, now: int): (tab': Tab)
    requires id in tab.peers
    ensures id in tab'.peers
  {
    var peers := Unexpired(tab.peers[sender := now], id, now);
    assert id in peers;
    tab.(peers := peers, primary := Smallest(peers.Keys))
  }

  function Broadcast(s: System, id: int): set<Message> {
    set u | u in s.tabs && u != id :: Message(id, u, s.now)
  }

  predicate KnowThemselves(s: System) {
    forall v :: v in s.tabs ==> v in s.tabs[v].peers
  }

  /** Timers fire on time, and no message is late. */
  predicate Enabled(s: System, e: Event, delay: nat) {
    match e
    case Wait(ms) =>
      && (forall v :: v in s.tabs ==> s.now + ms <= s.tabs[v].nextBeat)
      && (forall m :: m in s.flight ==> s.now + ms <= m.sent + delay)
    case Beat(id) => id in s.tabs && s.tabs[id].nextBeat == s.now
    case Deliver(m) => m in s.flight
    case Open(id) => id !in s.tabs
    case Close(id) => id in s.tabs
  }

  function Step(s: System, e: Event, delay: nat): (s': System)
    requires KnowThemselves(s)
    ensures KnowThemselves(s')
  {
    if !Enabled(s, e, delay) then s else
    match e
    case Wait(ms) => s.(now := s.now + ms)
    case Beat(id) =>
      s.(tabs := s.tabs[id := Hear(s.tabs[id], id, id, s.now).(nextBeat := s.now + BEAT)],
         flight := s.flight + Broadcast(s, id))
    case Deliver(m) =>
      var tabs := if m.to in s.tabs then s.tabs[m.to := Hear(s.tabs[m.to], m.to, m.sender, s.now)] else s.tabs;
      s.(tabs := tabs, flight := s.flight - {m})
    case Open(id) =>
      s.(tabs := s.tabs[id := Tab(map[id := s.now], id, s.now + BEAT)], flight := s.flight + Broadcast(s, id))
    case Close(id) => s.(tabs := s.tabs - {id})
  }

  function Run(s: System, es: seq<Event>, delay: nat): (s': System)
    requires KnowThemselves(s)
    ensures KnowThemselves(s')
  {
    if es == [] then s else Step(Run(s, es[..|es| - 1], delay), es[|es| - 1], delay)
  }

  const START := System(0, map[], {})
}

/** With a fixed set of tabs, every tab's view becomes that set and the smallest id is the only primary. */
module ElectionSafety {
  import opened PrimaryElection

  /** Clocks, deadlines and ages that hold in every run. */
  ghost predicate Timed(s: System, delay: nat) {
    && KnowThemselves(s)
    && (forall v :: v in s.tabs ==> s.now <= s.tabs[v].nextBeat <= s.now + BEAT)
    && (forall v :: v in s.tabs ==> IsSmallest(s.tabs[v].primary, s.tabs[v].peers.Keys))
    && (forall v, p :: v in s.tabs && p in s.tabs[v].peers ==>
      s.tabs[v].nextBeat - BEAT - EXPIRY <= s.tabs[v].peers[p] <= s.now)
    && (forall m :: m in s.flight ==> m.sent <= s.now <= m.sent + delay)
  }

  lemma StepKeepsTimed(s: System, e: Event, delay: nat)
    requires Timed(s, delay)
    ensures Timed(Step(s, e, delay), delay)
  {
  }

  lemma {:induction false} RunKeepsTimed(es: seq<Event>, delay: nat)
    ensures Timed(Run(START, es, delay), delay)
  {
    if es != [] {
      RunKeepsTimed(es[..|es| - 1], delay);
      StepKeepsTimed(Run(START, es[..|es| - 1], delay), es[|es| - 1], delay);
    }
  }

  /** Time is never stuck: whenever it may not pass, a due beat or a due message may happen. */
  lemma TimeNeverStuck(s: System, delay: nat)
    requires Timed(s, delay)
    ensures Enabled(s, Wait(1), delay)
      || (exists v :: v in s.tabs && Enabled(s, Beat(v), delay))
      || (exists m :: m in s.flight && Enabled(s, Deliver(m), delay))
  {
    if !Enabled(s, Wait(1), delay) && forall m :: m in s.flight ==> s.now + 1 <= m.sent + delay {
      var v :| v in s.tabs && s.now + 1 > s.tabs[v].nextBeat;
      assert Enabled(s, Beat(v), delay);
    } else if !Enabled(s, Wait(1), delay) {
      var m :| m in s.flight && s.now + 1 > m.sent + delay;
      assert Enabled(s, Deliver(m), delay);
    }
  }

  /** The beat of p that lies k beats back. */
  function BeatOf(s: System, p: int, k: nat): int
    requires p in s.tabs
  {
    s.tabs[p].nextBeat - BEAT - BEAT * k
  }

  /** The beat of p has reached v, or is on its way. */
  predicate Reaches(s: System, p: int, v: int, b: int)
    requires v in s.tabs
  {
    Message(p, v, b) in s.flight || (p in s.tabs[v].peers && s.tabs[v].peers[p] >= b)
  }

  /** Every beat of a live tab after time T reaches every other live tab. */
  ghost predicate BeatsReach(s: System, T: int) {
    forall p, v, k: nat :: p in s.tabs && v in s.tabs && p != v && BeatOf(s, p, k) > T ==>
      Reaches(s, p, v, BeatOf(s, p, k))
  }

  /** Whatever still speaks of a closed tab was sent by time T. */
  ghost predicate DeadAreOld(s: System, T: int, delay: nat) {
    && (forall m :: m in s.flight && m.sender !in s.tabs ==> m.sent <= T)
    && (forall v, p :: v in s.tabs && p in s.tabs[v].peers && p !in s.tabs ==> s.tabs[v].peers[p] <= T + delay)
  }

  ghost predicate Settling(s: System, T: int, delay: nat) {
    Timed(s, delay) && s.now >= T && BeatsReach(s, T) && DeadAreOld(s, T, delay)
  }

  /** Any moment may be the one from which the tabs stay fixed. */
  lemma BeginsSettling(s: System, delay: nat)
    requires Timed(s, delay)
    ensures Settling(s, s.now, delay)
  {
    forall p, k: nat | p in s.tabs ensures BeatOf(s, p, k) <= s.now {
    }
  }

  /** A live tab that was heard of since T is never too old to be kept. */
  lemma HeardIsFresh(s: System, p: int, v: int, k: nat, T: int, delay: nat)
    requires Settling(s, T, delay) && delay <= EXPIRY - BEAT
    requires p in s.tabs && v in s.tabs && p != v && BeatOf(s, p, k) > T
    requires p in s.tabs[v].peers && s.tabs[v].peers[p] >= BeatOf(s, p, k)
    ensures s.now - s.tabs[v].peers[p] <= EXPIRY
    decreases k
  {
    if k > 0 && BeatOf(s, p, k) < s.now - EXPIRY {
      // A younger beat was sent long enough ago to have arrived.
      assert Reaches(s, p, v, BeatOf(s, p, k - 1));
      assert Message(p, v, BeatOf(s, p, k - 1)) !in s.flight;
      HeardIsFresh(s, p, v, k - 1, T, delay);
    }
  }

  predicate KeepsTabs(e: Event) {
    !e.Open? && !e.Close?
  }

  lemma StepKeepsDead(s: System, e: Event, T: int, delay: nat)
    requires Settling(s, T, delay) && KeepsTabs(e)
    ensures DeadAreOld(Step(s, e, delay), T, delay) && Step(s, e, delay).tabs.Keys == s.tabs.Keys
  {
  }

  lemma StepKeepsReach(s: System, e: Event, T: int, delay: nat)
    requires Settling(s, T, delay) && KeepsTabs(e) && delay <= EXPIRY - BEAT
    ensures BeatsReach(Step(s, e, delay), T)
  {
    var s' := Step(s, e, delay);
    forall p, v, k: nat | p in s'.tabs && v in s'.tabs && p != v && BeatOf(s', p, k) > T
      ensures Reaches(s', p, v, BeatOf(s', p, k))
    {
      ReachStep(s, e, p, v, k, T, delay);
    }
  }

  lemma ReachStep(s: System, e: Event, p: int, v: int, k: nat, T: int, delay: nat)
    requires Settling(s, T, delay) && KeepsTabs(e) && delay <= EXPIRY - BEAT
    requires p in Step(s, e, delay).tabs && v in Step(s, e, delay).tabs && p != v
    requires BeatOf(Step(s, e, delay), p, k) > T
    ensures Reaches(Step(s, e, delay), p, v, BeatOf(Step(s, e, delay), p, k))
  {
    var s' := Step(s, e, delay);
    if Enabled(s, e, delay) && e == Beat(p) {
      if k == 0 {
        assert Message(p, v, s.now) in Broadcast(s, p);
      } else {
        assert BeatOf(s', p, k) == BeatOf(s, p, k - 1);
        assert Reaches(s, p, v, BeatOf(s, p, k - 1));
      }
    } else {
      var b := BeatOf(s, p, k);
      assert Reaches(s, p, v, b);
      if p in s.tabs[v].peers && s.tabs[v].peers[p] >= b {
        HeardIsFresh(s, p, v, k, T, delay);
      }
    }
  }

  lemma {:induction false} RunKeepsSettling(s: System, es: seq<Event>, T: int, delay: nat)
    requires Settling(s, T, delay) && delay <= EXPIRY - BEAT
    requires forall i :: 0 <= i < |es| ==> KeepsTabs(es[i])
    ensures Settling(Run(s, es, delay), T, delay) && Run(s, es, delay).tabs.Keys == s.tabs.Keys
  {
    if es != [] {
      var n := |es| - 1;
      RunKeepsSettling(s, es[..n], T, delay);
      var before := Run(s, es[..n], delay);
      StepKeepsTimed(before, es[n], delay);
      StepKeepsDead(before, es[n], T, delay);
      StepKeepsReach(before, es[n], T, delay);
    }
  }

  /** Late enough, every live tab has been heard of and no closed tab is remembered. */
  lemma ViewIsLive(s: System, v: int, T: int, delay: nat)
    requires Settling(s, T, delay) && v in s.tabs
    requires s.now >= T + BEAT + EXPIRY + delay
    requires s.now > T + BEAT + EXPIRY + delay || s.now < s.tabs[v].nextBeat
    ensures s.tabs[v].peers.Keys == s.tabs.Keys
  {
    forall p | p in s.tabs && p != v ensures p in s.tabs[v].peers {
      var k := (s.tabs[p].nextBeat - BEAT - T - 1) / BEAT;
      assert T < BeatOf(s, p, k) <= T + BEAT;
      assert Reaches(s, p, v, BeatOf(s, p, k));
    }
    forall p | p in s.tabs[v].peers ensures s.tabs[v].peers[p] > T + delay {
    }
    assert forall p :: p in s.tabs[v].peers.Keys <==> p in s.tabs.Keys;
  }

  ghost predicate Agreed(s: System, v: int)
    requires v in s.tabs
  {
    && s.tabs[v].peers.Keys == s.tabs.Keys
    && IsSmallest(s.tabs[v].primary, s.tabs.Keys)
    && (s.tabs[v].primary == v <==> IsSmallest(v, s.tabs.Keys))
  }

  ghost predicate Fixed(es: seq<Event>) {
    forall i :: 0 <= i < |es| ==> KeepsTabs(es[i])
  }

  /** The tabs agree from T + 2000 + delay on, where T is the moment the last tab opened or closed;
      at the very instant a tab may still have its due beat to take. */
  ghost predicate SettledAfter(before: seq<Event>, after: seq<Event>, delay: nat) {
    var last := Run(START, before, delay);
    var s := Run(last, after, delay);
    && s.tabs.Keys == last.tabs.Keys
    && (forall v :: v in s.tabs && s.now == last.now + 2000 + delay && s.now < s.tabs[v].nextBeat ==> Agreed(s, v))
    && (forall v :: v in s.tabs && s.now > last.now + 2000 + delay ==> Agreed(s, v))
  }

  /** When messages take at most a second, every tab's view becomes the set of live tabs,
      the smallest id alone is primary, and it stays that way. */
  lemma ElectionSettles(before: seq<Event>, after: seq<Event>, delay: nat)
    requires delay <= 1000 && Fixed(after)
    ensures SettledAfter(before, after, delay)
  {
    var last := Run(START, before, delay);
    RunKeepsTimed(before, delay);
    BeginsSettling(last, delay);
    RunKeepsSettling(last, after, last.now, delay);
    var s := Run(last, after, delay);
    var due := last.now + 2000 + delay;
    forall v | v in s.tabs && s.now >= due && (s.now > due || s.now < s.tabs[v].nextBeat)
      ensures Agreed(s, v)
    {
      ViewIsLive(s, v, last.now, delay);
    }
  }
}

/** One millisecond more, and two tabs can disagree for ever: a second is the exact bound. */
module ElectionLimit {
  import opened PrimaryElection
  import opened ElectionSafety

  /** The run arrives at this state, with the set of tabs fixed throughout. */
  ghost predicate Arrives(s: System, es: seq<Event>, delay: nat, end: System) {
    KnowThemselves(s) && Fixed(es) && Run(s, es, delay) == end
  }

  lemma Extend(s: System, es: seq<Event>, delay: nat, mid: System, e: Event, end: System)
    requires Arrives(s, es, delay, mid) && KeepsTabs(e) && KnowThemselves(mid) && Step(mid, e, delay) == end
    ensures Arrives(s, es + [e], delay, end)
  {
    assert (es + [e])[..|es|] == es;
  }

  function Pair(now: int, a1: int, a2: int, nextA: int, b1: int, b2: int, nextB: int, flight: set<Message>): System {
    System(now, map[1 := Tab(map[1 := a1, 2 := a2], 1, nextA), 2 := Tab(map[1 := b1, 2 := b2], 1, nextB)], flight)
  }

  /** Just after a beat of the first tab; the second last heard of it at time h. */
  function Two(t: int, h: int, pending: set<Message>): System {
    Pair(t, t, t - 499, t + 500, h, t - 499, t + 1, pending)
  }

  lemma BothKept(a: int, b: int, id: int, now: int)
    requires id == 1 || now - a <= EXPIRY
    requires id == 2 || now - b <= EXPIRY
    ensures Unexpired(map[1 := a, 2 := b], id, now) == map[1 := a, 2 := b]
    ensures map[1 := a, 2 := b].Keys == {1, 2} && Smallest({1, 2}) == 1
  {
    assert map[1 := a, 2 := b].Keys == {1, 2};
  }

  lemma ToTheOther(s: System)
    requires s.tabs.Keys == {1, 2}
    ensures Broadcast(s, 1) == {Message(1, 2, s.now)} && Broadcast(s, 2) == {Message(2, 1, s.now)}
  {
    assert 1 in s.tabs && 2 in s.tabs;
  }

  lemma BeatOfTwo(now: int, a1: int, a2: int, nextA: int, b1: int, b2: int, flight: set<Message>, delay: nat)
    requires now - b1 <= EXPIRY
    ensures Step(Pair(now, a1, a2, nextA, b1, b2, now, flight), Beat(2), delay)
         == Pair(now, a1, a2, nextA, b1, now, now + BEAT, flight + {Message(2, 1, now)})
  {
    var s := Pair(now, a1, a2, nextA, b1, b2, now, flight);
    ToTheOther(s);
    BothKept(b1, now, 2, now);
    assert s.tabs[2].peers[2 := now] == map[1 := b1, 2 := now];
  }

  lemma BeatOfOne(now: int, a1: int, a2: int, b1: int, b2: int, nextB: int, flight: set<Message>, delay: nat)
    requires now - a2 <= EXPIRY
    ensures Step(Pair(now, a1, a2, now, b1, b2, nextB, flight), Beat(1), delay)
         == Pair(now, now, a2, now + BEAT, b1, b2, nextB, flight + {Message(1, 2, now)})
  {
    var s := Pair(now, a1, a2, now, b1, b2, nextB, flight);
    ToTheOther(s);
    BothKept(now, a2, 1, now);
    assert s.tabs[1].peers[1 := now] == map[1 := now, 2 := a2];
  }

  lemma HeardByOne(now: int, a1: int, a2: int, nextA: int, b1: int, b2: int, nextB: int, flight: set<Message>,
                   sent: int, delay: nat)
    requires Message(2, 1, sent) in flight
    ensures Step(Pair(now, a1, a2, nextA, b1, b2, nextB, flight), Deliver(Message(2, 1, sent)), delay)
         == Pair(now, a1, now, nextA, b1, b2, nextB, flight - {Message(2, 1, sent)})
  {
    var s := Pair(now, a1, a2, nextA, b1, b2, nextB, flight);
    BothKept(a1, now, 1, now);
    assert s.tabs[1].peers[2 := now] == map[1 := a1, 2 := now];
  }

  predicate SentByOne(pending: set<Message>, t: int, delay: nat) {
    forall m :: m in pending ==> m.sender == 1 && m.to == 2 && t <= m.sent + delay
  }

  /** The second tab beats while a beat of the first stays on its way. */
  lemma TwoBeats(s: System, es: seq<Event>, t: int, h: int, pending: set<Message>, delay: nat) returns (es': seq<Event>)
    requires Arrives(s, es, delay, Two(t, h, pending)) && SentByOne(pending, t + 1, delay)
    requires h <= t && t + 1 - h <= EXPIRY
    ensures Arrives(s, es', delay, Pair(t + 1, t, t + 1, t + 500, h, t + 1, t + 501, pending))
  {
    var note := Message(2, 1, t + 1);
    var s1 := Pair(t + 1, t, t - 499, t + 500, h, t - 499, t + 1, pending);
    Extend(s, es, delay, Two(t, h, pending), Wait(1), s1);
    var s2 := Pair(t + 1, t, t - 499, t + 500, h, t + 1, t + 501, pending + {note});
    BeatOfTwo(t + 1, t, t - 499, t + 500, h, t - 499, pending, delay);
    Extend(s, es + [Wait(1)], delay, s1, Beat(2), s2);
    HeardByOne(t + 1, t, t - 499, t + 500, h, t + 1, t + 501, pending + {note}, t + 1, delay);
    assert pending + {note} - {note} == pending;
    var s3 := Pair(t + 1, t, t + 1, t + 500, h, t + 1, t + 501, pending);
    Extend(s, es + [Wait(1)] + [Beat(2)], delay, s2, Deliver(note), s3);
    es' := es + [Wait(1)] + [Beat(2)] + [Deliver(note)];
  }

  /** Half a second in which the first tab's beats stay on their way. */
  lemma Delayed(s: System, es: seq<Event>, t: int, h: int, pending: set<Message>, delay: nat) returns (es': seq<Event>)
    requires Arrives(s, es, delay, Two(t, h, pending)) && SentByOne(pending, t + 500, delay)
    requires h <= t && t + 1 - h <= EXPIRY
    ensures Arrives(s, es', delay, Two(t + 500, h, pending + {Message(1, 2, t + 500)}))
  {
    es' := TwoBeats(s, es, t, h, pending, delay);
    var s1 := Pair(t + 500, t, t + 1, t + 500, h, t + 1, t + 501, pending);
    Extend(s, es', delay, Pair(t + 1, t, t + 1, t + 500, h, t + 1, t + 501, pending), Wait(499), s1);
    BeatOfOne(t + 500, t, t + 1, h, t + 1, t + 501, pending, delay);
    Extend(s, es' + [Wait(499)], delay, s1, Beat(1), Two(t + 500, h, pending + {Message(1, 2, t + 500)}));
    es' := es' + [Wait(499)] + [Beat(1)];
  }

  function Late(t: int): set<Message> {
    {Message(1, 2, t + 500), Message(1, 2, t + 1000), Message(1, 2, t + 1500)}
  }

  /** After a second and a half without news the second tab drops the first, and takes itself for the primary. */
  function Split(t: int): System {
    System(t + 1501,
           map[1 := Tab(map[1 := t + 1500, 2 := t + 1001], 1, t + 2000), 2 := Tab(map[2 := t + 1501], 2, t + 2001)],
           Late(t) + {Message(2, 1, t + 1501)})
  }

  lemma Splits(s: System, es: seq<Event>, t: int, delay: nat) returns (es': seq<Event>)
    requires Arrives(s, es, delay, Two(t, t, {})) && delay >= 1001
    ensures Arrives(s, es', delay, Split(t))
  {
    es' := Delayed(s, es, t, t, {}, delay);
    es' := Delayed(s, es', t + 500, t, {} + {Message(1, 2, t + 500)}, delay);
    es' := Delayed(s, es', t + 1000, t, {} + {Message(1, 2, t + 500)} + {Message(1, 2, t + 1000)}, delay);
    assert {} + {Message(1, 2, t + 500)} + {Message(1, 2, t + 1000)} + {Message(1, 2, t + 1500)} == Late(t);
    var s1 := Pair(t + 1501, t + 1500, t + 1001, t + 2000, t, t + 1001, t + 1501, Late(t));
    Extend(s, es', delay, Two(t + 1500, t, Late(t)), Wait(1), s1);
    Drops(t, delay);
    Extend(s, es' + [Wait(1)], delay, s1, Beat(2), Split(t));
    es' := es' + [Wait(1)] + [Beat(2)];
  }

  lemma Drops(t: int, delay: nat)
    ensures Step(Pair(t + 1501, t + 1500, t + 1001, t + 2000, t, t + 1001, t + 1501, Late(t)), Beat(2), delay)
         == Split(t)
  {
    var s1 := Pair(t + 1501, t + 1500, t + 1001, t + 2000, t, t + 1001, t + 1501, Late(t));
    ToTheOther(s1);
    assert Unexpired(s1.tabs[2].peers[2 := t + 1501], 2, t + 1501) == map[2 := t + 1501];
    assert map[2 := t + 1501].Keys == {2};
  }

  lemma HeardByTwo(now: int, a1: int, a2: int, nextA: int, b1: int, b2: int, nextB: int, flight: set<Message>,
                   sent: int, delay: nat)
    requires Message(1, 2, sent) in flight
    ensures Step(Pair(now, a1, a2, nextA, b1, b2, nextB, flight), Deliver(Message(1, 2, sent)), delay)
         == Pair(now, a1, a2, nextA, now, b2, nextB, flight - {Message(1, 2, sent)})
  {
    var s := Pair(now, a1, a2, nextA, b1, b2, nextB, flight);
    BothKept(now, b2, 2, now);
    assert s.tabs[2].peers[1 := now] == map[1 := now, 2 := b2];
  }

  /** A tab that knew only itself hears of the first. */
  lemma MeetsOne(now: int, a1: int, a2: int, nextA: int, b2: int, primary: int, nextB: int, flight: set<Message>,
                 sent: int, delay: nat)
    requires Message(1, 2, sent) in flight
    ensures var tabs := map[1 := Tab(map[1 := a1, 2 := a2], 1, nextA), 2 := Tab(map[2 := b2], primary, nextB)];
      Step(System(now, tabs, flight), Deliver(Message(1, 2, sent)), delay)
      == Pair(now, a1, a2, nextA, now, b2, nextB, flight - {Message(1, 2, sent)})
  {
    BothKept(now, b2, 2, now);
    assert map[2 := b2][1 := now] == map[1 := now, 2 := b2];
  }

  /** The first tab hears of the second, which knows only itself. */
  lemma OneMeets(now: int, peers: map<int, int>, a1: int, nextA: int, b2: int, nextB: int, flight: set<Message>,
                 sent: int, delay: nat)
    requires Message(2, 1, sent) in flight && peers[2 := now] == map[1 := a1, 2 := now] && 1 in peers
    ensures var lone := Tab(map[2 := b2], 2, nextB);
      Step(System(now, map[1 := Tab(peers, 1, nextA), 2 := lone], flight), Deliver(Message(2, 1, sent)), delay)
      == System(now, map[1 := Tab(map[1 := a1, 2 := now], 1, nextA), 2 := lone], flight - {Message(2, 1, sent)})
  {
    BothKept(a1, now, 1, now);
  }

  /** The late beats arrive, the split ends, and the same two seconds can begin again. */
  lemma Heals(s: System, es: seq<Event>, t: int, delay: nat) returns (es': seq<Event>)
    requires Arrives(s, es, delay, Split(t)) && delay >= 1001
    ensures Arrives(s, es', delay, Two(t + 2000, t + 2000, {}))
  {
    es' := LateBeatsArrive(s, es, t, delay);
    var s1 := Pair(t + 1501, t + 1500, t + 1501, t + 2000, t + 1501, t + 1501, t + 2001, {});
    var s2 := Pair(t + 2000, t + 1500, t + 1501, t + 2000, t + 1501, t + 1501, t + 2001, {});
    Extend(s, es', delay, s1, Wait(499), s2);
    var s3 :=
      Pair(t + 2000, t + 2000, t + 1501, t + 2500, t + 1501, t + 1501, t + 2001, {} + {Message(1, 2, t + 2000)});
    BeatOfOne(t + 2000, t + 1500, t + 1501, t + 1501, t + 1501, t + 2001, {}, delay);
    Extend(s, es' + [Wait(499)], delay, s2, Beat(1), s3);
    HeardByTwo(t + 2000, t + 2000, t + 1501, t + 2500, t + 1501, t + 1501, t + 2001, {Message(1, 2, t + 2000)},
               t + 2000, delay);
    var e := Deliver(Message(1, 2, t + 2000));
    Extend(s, es' + [Wait(499)] + [Beat(1)], delay, s3, e, Two(t + 2000, t + 2000, {}));
    es' := es' + [Wait(499)] + [Beat(1)] + [e];
  }

  lemma LateBeatsArrive(s: System, es: seq<Event>, t: int, delay: nat) returns (es': seq<Event>)
    requires Arrives(s, es, delay, Split(t))
    ensures Arrives(s, es', delay, Pair(t + 1501, t + 1500, t + 1501, t + 2000, t + 1501, t + 1501, t + 2001, {}))
  {
    var now, m0, m1, m2, m3 :=
      t + 1501, Message(2, 1, t + 1501), Message(1, 2, t + 500), Message(1, 2, t + 1000), Message(1, 2, t + 1500);
    assert Late(t) + {m0} - {m0} == {m1, m2, m3} && {m1, m2, m3} - {m1} == {m2, m3};
    assert {m2, m3} - {m2} == {m3} && {m3} - {m3} == {};
    var s1 := System(now,
                     map[1 := Tab(map[1 := t + 1500, 2 := now], 1, t + 2000), 2 := Tab(map[2 := now], 2, t + 2001)],
                     {m1, m2, m3});
    OneMeets(now, map[1 := t + 1500, 2 := t + 1001], t + 1500, t + 2000, now, t + 2001, Late(t) + {m0}, now, delay);
    Extend(s, es, delay, Split(t), Deliver(m0), s1);
    MeetsOne(now, t + 1500, now, t + 2000, now, 2, t + 2001, {m1, m2, m3}, t + 500, delay);
    var s2 := Pair(now, t + 1500, now, t + 2000, now, now, t + 2001, {m2, m3});
    Extend(s, es + [Deliver(m0)], delay, s1, Deliver(m1), s2);
    HeardByTwo(now, t + 1500, now, t + 2000, now, now, t + 2001, {m2, m3}, t + 1000, delay);
    var s3 := s2.(flight := {m3});
    Extend(s, es + [Deliver(m0)] + [Deliver(m1)], delay, s2, Deliver(m2), s3);
    HeardByTwo(now, t + 1500, now, t + 2000, now, now, t + 2001, {m3}, t + 1500, delay);
    Extend(s, es + [Deliver(m0)] + [Deliver(m1)] + [Deliver(m2)], delay, s3, Deliver(m3), s2.(flight := {}));
    es' := es + [Deliver(m0)] + [Deliver(m1)] + [Deliver(m2)] + [Deliver(m3)];
  }

  const BOTH_OPEN := [Open(1), Wait(1), Open(2)]

  const JUST_OPENED := System(1, map[1 := Tab(map[1 := 0], 1, 500), 2 := Tab(map[2 := 1], 2, 501)], {Message(2, 1, 1)})

  lemma OpenBoth(delay: nat)
    ensures Run(START, BOTH_OPEN, delay) == JUST_OPENED
  {
    var es := BOTH_OPEN;
    assert es[..2] == [Open(1), Wait(1)] && es[..2][..1] == [Open(1)] && es[..1][..0] == [];
    var s1 := System(0, map[1 := Tab(map[1 := 0], 1, 500)], {});
    assert Run(START, [Open(1)], delay) == s1 by {
      assert START.flight + Broadcast(START, 1) == {};
    }
    assert Run(START, es[..2], delay) == s1.(now := 1);
    assert Broadcast(s1.(now := 1), 2) == {Message(2, 1, 1)} by {
      assert 1 in s1.tabs;
    }
  }

  lemma Begins(delay: nat) returns (es: seq<Event>)
    requires delay >= 1001
    ensures Arrives(JUST_OPENED, es, delay, Two(500, 500, {}))
  {
    var s := JUST_OPENED;
    var s1 := System(1, map[1 := Tab(map[1 := 0, 2 := 1], 1, 500), 2 := Tab(map[2 := 1], 2, 501)], {});
    OneMeets(1, map[1 := 0], 0, 500, 1, 501, {Message(2, 1, 1)}, 1, delay);
    Extend(s, [], delay, s, Deliver(Message(2, 1, 1)), s1);
    es := [] + [Deliver(Message(2, 1, 1))];
    Extend(s, es, delay, s1, Wait(499), s1.(now := 500));
    es := es + [Wait(499)];
    var s2 := System(500, map[1 := Tab(map[1 := 500, 2 := 1], 1, 1000), 2 := Tab(map[2 := 1], 2, 501)],
                     {Message(1, 2, 500)});
    ToTheOther(s1.(now := 500));
    BothKept(500, 1, 1, 500);
    assert map[1 := 0, 2 := 1][1 := 500] == map[1 := 500, 2 := 1];
    Extend(s, es, delay, s1.(now := 500), Beat(1), s2);
    es := es + [Beat(1)];
    MeetsOne(500, 500, 1, 1000, 1, 2, 501, {Message(1, 2, 500)}, 500, delay);
    Extend(s, es, delay, s2, Deliver(Message(1, 2, 500)), Two(500, 500, {}));
    es := es + [Deliver(Message(1, 2, 500))];
  }

  /** The split comes back as often as one likes. */
  lemma {:induction false} SplitsAgain(n: nat, delay: nat) returns (es: seq<Event>)
    requires delay >= 1001
    ensures Arrives(JUST_OPENED, es, delay, Split(500 + 2000 * n))
  {
    if n == 0 {
      es := Begins(delay);
    } else {
      es := SplitsAgain(n - 1, delay);
      es := Heals(JUST_OPENED, es, 500 + 2000 * (n - 1), delay);
    }
    es := Splits(JUST_OPENED, es, 500 + 2000 * n, delay);
  }

  /** Every run settles exactly when no message takes longer than a second. */
  lemma SecondIsTheBound(delay: nat)
    ensures (forall before, after :: Fixed(after) ==> SettledAfter(before, after, delay)) <==> delay <= 1000
  {
    if delay <= 1000 {
      forall before, after | Fixed(after) ensures SettledAfter(before, after, delay) {
        ElectionSettles(before, after, delay);
      }
    } else {
      var after := SplitsAgain(delay, delay);
      OpenBoth(delay);
      var s := Run(JUST_OPENED, after, delay);
      assert 2 in s.tabs && s.now > 1 + 2000 + delay && !Agreed(s, 2) by {
        assert 1 in s.tabs.Keys && 1 !in s.tabs[2].peers.Keys;
      }
      assert !SettledAfter(BOTH_OPEN, after, delay);
    }
  }

  // ---- the instant itself ----

  /** Tab 2 alone, still remembering a tab that it last heard of, and that closed, at time 0. */
  function Mourning(now: int, heard: int, nextBeat: int): System {
    System(now, map[2 := Tab(map[1 := 0, 2 := heard], 1, nextBeat)], {})
  }

  const ONE_CLOSES := [Open(2), Open(1), Deliver(Message(1, 2, 0)), Close(1)]

  lemma OneCloses()
    ensures Run(START, ONE_CLOSES, 0) == Mourning(0, 0, 500)
  {
    var es := ONE_CLOSES;
    assert es[..3][..2] == es[..2] && es[..2][..1] == [Open(2)] && es[..1][..0] == [];
    var alone := Tab(map[2 := 0], 2, 500);
    assert Run(START, es[..1], 0) == System(0, map[2 := alone], {}) by {
      assert START.flight + Broadcast(START, 2) == {};
    }
    var both := System(0, map[1 := Tab(map[1 := 0], 1, 500), 2 := alone], {Message(1, 2, 0)});
    assert Run(START, es[..2], 0) == both by {
      var s := System(0, map[2 := alone], {});
      assert 2 in s.tabs && Broadcast(s, 1) == {Message(1, 2, 0)};
    }
    assert Run(START, es[..3], 0) == both.(tabs := both.tabs[2 := Tab(map[1 := 0, 2 := 0], 1, 500)], flight := {}) by {
      BothKept(0, 0, 2, 0);
      assert map[2 := 0][1 := 0] == map[1 := 0, 2 := 0];
    }
  }

  /** Half a second later the closed tab is still not old enough to be dropped. */
  lemma MourningGoesOn(s: System, es: seq<Event>, t: int) returns (es': seq<Event>)
    requires Arrives(s, es, 0, Mourning(t, t, t + 500)) && 0 <= t <= 1000
    ensures Arrives(s, es', 0, Mourning(t + 500, t + 500, t + 1000))
  {
    var s1 := Mourning(t + 500, t, t + 500);
    Extend(s, es, 0, Mourning(t, t, t + 500), Wait(500), s1);
    BothKept(0, t + 500, 2, t + 500);
    assert map[1 := 0, 2 := t][2 := t + 500] == map[1 := 0, 2 := t + 500];
    assert Broadcast(s1, 2) == {};
    Extend(s, es + [Wait(500)], 0, s1, Beat(2), Mourning(t + 500, t + 500, t + 1000));
    es' := es + [Wait(500)] + [Beat(2)];
  }

  /** At the very instant T + 2000 + delay a tab whose beat is due and not yet taken may still remember a closed tab,
      and take that one for the primary. */
  lemma DueBeatMatters() returns (after: seq<Event>)
    ensures Fixed(after)
    ensures var last := Run(START, ONE_CLOSES, 0);
      var s := Run(last, after, 0);
      && s.now == last.now + 2000 && 2 in s.tabs && s.now == s.tabs[2].nextBeat
      && s.tabs[2].primary !in s.tabs && !Agreed(s, 2)
  {
    OneCloses();
    var last := Mourning(0, 0, 500);
    assert Arrives(last, [], 0, last);
    after := MourningGoesOn(last, [], 0);
    after := MourningGoesOn(last, after, 500);
    after := MourningGoesOn(last, after, 1000);
    Extend(last, after, 0, Mourning(1500, 1500, 2000), Wait(500), Mourning(2000, 1500, 2000));
    after := after + [Wait(500)];
    var s := Mourning(2000, 1500, 2000);
    assert 1 in s.tabs[2].peers.Keys && 1 !in s.tabs.Keys;
  }
}

/** One tab's closure over its peers, updated by its callbacks. */
module PrimaryTab {
  import Members
  import opened PrimaryElection

  class Elector {
    const id: int
    var peers: map<int, int>
    var primary: int
    var nextBeat: int

    function View(): Tab
      reads this
    {
      Tab(peers, primary, nextBeat)
    }

    constructor (id: int, now: int)
      ensures this.id == id && View() == Tab(map[id := now], id, now + BEAT)
    {
      this.id, this.peers, this.primary, this.nextBeat := id, map[id := now], id, now + BEAT;
    }

    /** Drop the silent peers one by one, then take the smallest id; tell the caller when it changes. */
    method Recompute(now: int) returns (announced: bool)
      requires id in peers
      modifies this`peers, this`primary
      ensures peers == Unexpired(old(peers), id, now) && IsSmallest(primary, peers.Keys)
      ensures announced <==> primary != old(primary)
    {
      var left := peers.Keys;
      while left != {}
        invariant left <= old(peers.Keys) && primary == old(primary)
        invariant peers ==
          map p | p in old(peers) && (p in left || p == id || now - old(peers)[p] <= EXPIRY) :: old(peers)[p]
        decreases |left|
      {
        ghost var _ := Members.SomeMember(left);
        var pid :| pid in left;
        left := left - {pid};
        if pid != id && now - peers[pid] > EXPIRY {
          peers := peers - {pid};
        }
      }
      assert id in peers;
      var next := Smallest(peers.Keys);
      announced := next != primary;
      primary := next;
    }

    method OnMessage(sender: int, now: int) returns (announced: bool)
      requires id in peers
      modifies this`peers, this`primary
      ensures View() == Hear(old(View()), id, sender, now)
      ensures announced <==> primary != old(primary)
    {
      peers := peers[sender := now];
      announced := Recompute(now);
    }

    /** The tab's own timer; the message it posts is the channel's part. */
    method OnBeat(now: int) returns (announced: bool)
      requires id in peers
      modifies this
      ensures View() == Hear(old(View()), id, id, now).(nextBeat := now + BEAT)
      ensures announced <==> primary != old(primary)
    {
      peers := peers[id := now];
      nextBeat := now + BEAT;
      announced := Recompute(now);
    }
  }
}
