/** One subscriber's ring buffer: any number of threads push, one thread drains. */
module CaptureRing {
  type Frame = seq<real>

  /** Where the drain thread stands in its loop. */
  datatype Pc = CheckStop | Waiting | Clearing | Testing | Popping | Handling(frame: Frame) | Done

  /** The shared fields, the drain thread, and the history: every frame pushed, the push number of every
      frame popped, and how many pushes found the ring full. A thread between its last write and its call
      of wake.set() is counted in setters. */
  datatype State = State(ring: seq<Frame>, wake: bool, stop: bool, setters: nat, pc: Pc, handled: seq<Frame>,
                         pushed: seq<Frame>, taken: seq<int>, lost: nat)

  datatype Event =
    | Append(frame: Frame)
    | SetWake
    | RequestStop
    | Drain(timeout: bool)

  /** A bounded deque's append: the oldest frame goes when there is no room. */
  function Appended(ring: seq<Frame>, frame: Frame, bound: nat): seq<Frame> {
    if |ring| < bound then ring + [frame] else (ring + [frame])[1..]
  }

  /** The next atomic action of the drain thread; a wait ends by the flag or by its timeout. */
  function DrainStep(s: State, timeout: bool): State {
    match s.pc
    case CheckStop => s.(pc := if s.stop then Done else Waiting)
    case Waiting => if s.wake || timeout then s.(pc := Clearing) else s
    case Clearing => s.(wake := false, pc := Testing)
    case Testing => s.(pc := if s.ring != [] then Popping else CheckStop)
    case Popping =>
      if s.ring == [] then s.(pc := CheckStop)
      else s.(ring := s.ring[1..], pc := Handling(s.ring[0]), taken := s.taken + [|s.pushed| - |s.ring|])
    case Handling(frame) => s.(handled := s.handled + [frame], pc := Testing)
    case Done => s
  }

  function Step(s: State, e: Event, bound: nat): State {
    match e
    case Append(frame) =>
      s.(ring := Appended(s.ring, frame, bound), setters := s.setters + 1, pushed := s.pushed + [frame],
         lost := if |s.ring| < bound then s.lost else s.lost + 1)
    case SetWake => if s.setters > 0 then s.(setters := s.setters - 1, wake := true) else s
    case RequestStop => s.(stop := true, setters := s.setters + 1)
    case Drain(timeout) => DrainStep(s, timeout)
  }

  function Run(s: State, es: seq<Event>, bound: nat): State {
    if es == [] then s else Step(Run(s, es[..|es| - 1], bound), es[|es| - 1], bound)
  }

  const START := State([], false, false, 0, CheckStop, [], [], [], 0)

  /** The frame that is popped but not yet handled. */
  function InHand(pc: Pc): seq<Frame> {
    if pc.Handling? then [pc.frame] else []
  }
}

module CaptureSafety {
  import opened CaptureRing

  predicate IsSuffix(xs: seq<Frame>, of: seq<Frame>) {
    |xs| <= |of| && of[|of| - |xs|..] == xs
  }

  predicate Increasing(xs: seq<int>) {
    forall i, j :: 0 <= i < j < |xs| ==> xs[i] < xs[j]
  }

  /** The frames at those places of the history, in that order. */
  predicate PickedFrom(xs: seq<Frame>, places: seq<int>, history: seq<Frame>) {
    && |xs| == |places| && Increasing(places)
    && forall i :: 0 <= i < |xs| ==> 0 <= places[i] < |history| && xs[i] == history[places[i]]
  }

  predicate RingInv(s: State, bound: nat) {
    |s.ring| <= bound && IsSuffix(s.ring, s.pushed)
  }

  predicate TakenInv(s: State) {
    && |s.ring| <= |s.pushed|
    && PickedFrom(s.handled + InHand(s.pc), s.taken, s.pushed)
    && (forall i :: 0 <= i < |s.taken| ==> s.taken[i] < |s.pushed| - |s.ring|)
  }

  /** Every push is handled, in hand, in the ring or lost; the first loss is what breaks the sequence. */
  predicate CountInv(s: State) {
    && |s.taken| + |s.ring| + s.lost == |s.pushed|
    && (s.lost == 0 ==> forall i :: 0 <= i < |s.taken| ==> s.taken[i] == i)
  }

  /** A drain thread that is about to wait for frames that are there will be woken. */
  predicate NoLostWakeup(s: State) {
    (s.pc.CheckStop? || s.pc.Waiting?) && s.ring != [] ==> s.wake || s.setters > 0
  }

  /** Only a request ends the drain thread, and a request made while it waits will wake it. */
  predicate StopInv(s: State) {
    (s.pc.Done? ==> s.stop) && (s.stop && s.pc.Waiting? ==> s.wake || s.setters > 0)
  }

  predicate Inv(s: State, bound: nat) {
    RingInv(s, bound) && TakenInv(s) && CountInv(s) && NoLostWakeup(s) && StopInv(s)
  }

  lemma AppendKeepsInv(s: State, frame: Frame, bound: nat)
    requires Inv(s, bound)
    ensures Inv(Step(s, Append(frame), bound), bound)
  {
    var s' := Step(s, Append(frame), bound);
    var k := |s.pushed| - |s.ring|;
    assert s'.pushed[k..] == s.ring + [frame];
    assert |s.ring| >= bound ==> s'.pushed[k + 1..] == (s.ring + [frame])[1..];
  }

  lemma PopKeepsInv(s: State, timeout: bool, bound: nat)
    requires Inv(s, bound) && s.pc.Popping? && s.ring != []
    ensures Inv(DrainStep(s, timeout), bound)
  {
    var s' := DrainStep(s, timeout);
    var k := |s.pushed| - |s.ring|;
    assert s.ring[0] == s.pushed[k] && s.pushed[k + 1..] == s.ring[1..];
    assert s'.handled + InHand(s'.pc) == s.handled + [s.pushed[k]];
    assert s.handled + InHand(s.pc) == s.handled;
  }

  lemma SameHandover(s: State, timeout: bool)
    requires !s.pc.Popping? || s.ring == []
    ensures DrainStep(s, timeout).handled + InHand(DrainStep(s, timeout).pc) == s.handled + InHand(s.pc)
  {
  }

  lemma DrainKeepsInv(s: State, timeout: bool, bound: nat)
    requires Inv(s, bound)
    ensures Inv(DrainStep(s, timeout), bound)
  {
    var s' := DrainStep(s, timeout);
    if s.pc.Popping? && s.ring != [] {
      PopKeepsInv(s, timeout, bound);
    } else {
      assert s'.ring == s.ring && s'.taken == s.taken && s'.pushed == s.pushed && s'.lost == s.lost;
      SameHandover(s, timeout);
    }
  }

  lemma {:induction false} RunKeepsInv(es: seq<Event>, bound: nat)
    ensures Inv(Run(START, es, bound), bound)
  {
    if es != [] {
      var n := |es| - 1;
      var s := Run(START, es[..n], bound);
      RunKeepsInv(es[..n], bound);
      if es[n].Append? {
        AppendKeepsInv(s, es[n].frame, bound);
      } else if es[n].Drain? {
        DrainKeepsInv(s, es[n].timeout, bound);
      }
    }
  }

  /** Whatever the interleaving: the ring holds the newest frames and at most its bound; the frames handed to the
      subscriber come in push order and none comes twice; all of them arrive exactly when no push
      found the ring full; and no wakeup is lost. */
  lemma EveryInterleaving(es: seq<Event>, bound: nat)
    ensures var s := Run(START, es, bound);
      && |s.ring| <= bound && IsSuffix(s.ring, s.pushed)
      && PickedFrom(s.handled + InHand(s.pc), s.taken, s.pushed)
      && (s.handled + InHand(s.pc) + s.ring == s.pushed <==> s.lost == 0)
      && |s.handled + InHand(s.pc) + s.ring| + s.lost == |s.pushed|
      && NoLostWakeup(s) && StopInv(s)
  {
    RunKeepsInv(es, bound);
    var s := Run(START, es, bound);
    var out := s.handled + InHand(s.pc);
    if s.lost == 0 {
      assert out == s.pushed[..|out|];
      assert s.pushed == s.pushed[..|out|] + s.pushed[|out|..];
    }
  }

  // ---- the timeout is never needed ----

  /** The drain thread alone, with no timeout expiring. */
  function Drained(s: State, n: nat): State
    decreases n
  {
    if n == 0 then s else Drained(DrainStep(s, false), n - 1)
  }

  function Rank(pc: Pc): nat {
    match pc
    case CheckStop => 5
    case Waiting => 4
    case Clearing => 3
    case Handling(_) => 2
    case Testing => 1
    case Popping => 0
    case Done => 0
  }

  function Outstanding(s: State): nat {
    6 * |s.ring| + Rank(s.pc)
  }

  predicate Quiet(s: State) {
    s.setters == 0 && !s.stop && !s.pc.Done?
  }

  function Delivery(s: State): seq<Frame> {
    s.handled + InHand(s.pc) + s.ring
  }

  lemma DrainProgresses(s: State)
    requires Quiet(s) && NoLostWakeup(s) && (s.ring != [] || s.pc.Handling?)
    ensures var s' := DrainStep(s, false);
      Quiet(s') && Outstanding(s') < Outstanding(s) && Delivery(s') == Delivery(s)
  {
    var s' := DrainStep(s, false);
    if s.pc.Popping? {
      assert s.handled + [] + s.ring == s.handled + [s.ring[0]] + s.ring[1..];
    } else if s.pc.Handling? {
      assert s.handled + [s.pc.frame] + [] == s.handled + [s.pc.frame];
    }
  }

  /** Once the pushers have set the flag, the drain thread hands over everything in the ring, in order,
      without waiting for a timeout. */
  lemma {:induction false} DrainsWithoutTimeout(s: State, bound: nat) returns (n: nat)
    requires Inv(s, bound) && Quiet(s)
    ensures var s' := Drained(s, n);
      s'.ring == [] && s'.handled == s.handled + InHand(s.pc) + s.ring
    decreases Outstanding(s)
  {
    if s.ring == [] && !s.pc.Handling? {
      n := 0;
    } else {
      DrainProgresses(s);
      DrainKeepsInv(s, false, bound);
      n := DrainsWithoutTimeout(DrainStep(s, false), bound);
      n := n + 1;
    }
  }

  // ---- the thread sleeps between pushes and ends when it is told to ----

  /** The steps left before the thread sleeps on a cleared flag, or ends. */
  function StepsToRest(s: State): nat {
    3 * |s.ring| + match s.pc
    case CheckStop => if s.wake then 6 else 1
    case Waiting => if s.wake then 5 else 0
    case Clearing => 4
    case Testing => if s.wake then 8 else 3
    case Popping => if s.wake then 7 else 2
    case Handling(_) => if s.wake then 9 else 4
    case Done => 0
  }

  predicate Asleep(s: State) {
    s.pc.Waiting? && !s.wake
  }

  /** The frames the thread hands over before it rests: it ends without looking at the ring only from the test
      of the stop flag. */
  function LastDelivery(s: State): seq<Frame> {
    if s.pc.Done? || (s.stop && s.pc.CheckStop?) then s.handled else Delivery(s)
  }

  lemma TowardsRest(s: State, bound: nat)
    requires Inv(s, bound) && s.setters == 0 && !Asleep(s) && !s.pc.Done?
    ensures var s' := DrainStep(s, false);
      && StepsToRest(s') < StepsToRest(s) && s'.stop == s.stop && s'.setters == 0
      && LastDelivery(s') == LastDelivery(s)
  {
    var s' := DrainStep(s, false);
    if s.pc.Popping? && s.ring != [] {
      assert s.handled + [] + s.ring == s.handled + [s.ring[0]] + s.ring[1..];
    } else if s.pc.Handling? {
      assert s.handled + [s.pc.frame] + [] == s.handled + [s.pc.frame];
    } else if s'.ring == [] {
      assert s.handled + [] + [] == s.handled;
    }
  }

  /** Left alone once every pusher and stopper has set the flag, the drain thread rests: it ends if it was told to
      stop, and otherwise it sleeps with the flag clear and the ring empty, so that it never spins. */
  lemma {:induction false} DrainRests(s: State, bound: nat) returns (n: nat)
    requires Inv(s, bound) && s.setters == 0
    ensures var s' := Drained(s, n);
      && (if s.stop then s'.pc.Done? else Asleep(s') && s'.ring == [])
      && s'.handled == LastDelivery(s)
    decreases StepsToRest(s)
  {
    if Asleep(s) || s.pc.Done? {
      n := 0;
    } else {
      TowardsRest(s, bound);
      DrainKeepsInv(s, false, bound);
      n := DrainRests(DrainStep(s, false), bound);
      n := n + 1;
    }
  }

  /** Nothing but the flag or a timeout moves a sleeping thread. */
  lemma {:induction false} SleepLasts(s: State, n: nat)
    requires Asleep(s)
    ensures Drained(s, n) == s
    decreases n
  {
    if n > 0 {
      SleepLasts(DrainStep(s, false), n - 1);
    }
  }

  /** How often the flag is still to be set: once for each push and each request to stop. */
  function Unset(es: seq<Event>): int {
    if es == [] then 0 else Unset(es[..|es| - 1]) + Due(es[|es| - 1])
  }

  function Due(e: Event): int {
    if e.Append? || e.RequestStop? then 1 else if e.SetWake? then -1 else 0
  }

  /** No thread sets the flag that has not pushed or requested the stop. */
  predicate Paired(es: seq<Event>) {
    Unset(es) >= 0 && (es == [] || Paired(es[..|es| - 1]))
  }

  lemma StepCounts(s: State, e: Event, bound: nat)
    requires s.setters + Due(e) >= 0
    ensures Step(s, e, bound).setters == s.setters + Due(e)
    ensures Step(s, e, bound).stop == (s.stop || e == RequestStop)
    ensures e.SetWake? ==> Step(s, e, bound).wake
  {
  }

  /** The count of setters is exactly the calls of wake.set() still to come, each raises the flag, and the stop flag
      is up exactly when a stop was requested. */
  lemma {:induction false} EveryCallSetsTheFlag(es: seq<Event>, bound: nat)
    requires Paired(es)
    ensures var s := Run(START, es, bound);
      && s.setters == Unset(es) && (s.stop <==> RequestStop in es)
      && (es != [] && es[|es| - 1].SetWake? ==> s.wake)
  {
    if es != [] {
      var n := |es| - 1;
      EveryCallSetsTheFlag(es[..n], bound);
      StepCounts(Run(START, es[..n], bound), es[n], bound);
      assert es == es[..n] + [es[n]];
    }
  }
}

/** The runner and the broadcaster as the threads call them. */
module CaptureBroadcast {
  import opened CaptureRing

  /** The default size of a subscriber's ring. */
  const RING_SIZE: nat := 64

  class Runner {
    const bound: nat
    var ring: seq<Frame>
    var wake: bool
    var stop: bool

    constructor (bound: nat)
      ensures this.bound == bound && ring == [] && !wake && !stop
    {
      this.bound, this.ring, this.wake, this.stop := bound, [], false, false;
    }

    method Push(frame: Frame)
      modifies this`ring, this`wake
      ensures ring == Appended(old(ring), frame, bound) && wake
    {
      ring := Appended(ring, frame, bound);
      wake := true;
    }

    /** One turn of the outer loop once the wait is over, with no push in between: the frames the subscriber is
        given, whether or not it raises on one of them. */
    method DrainOnce() returns (handled: seq<Frame>)
      modifies this`ring, this`wake
      ensures handled == old(ring) && ring == [] && !wake
    {
      wake := false;
      handled := [];
      while ring != []
        invariant handled + ring == old(ring) && !wake
        decreases |ring|
      {
        var frame := ring[0];
        ring := ring[1..];
        handled := handled + [frame];
      }
    }

    method Stop()
      modifies this`stop, this`wake
      ensures stop && wake
    {
      stop := true;
      wake := true;
    }
  }

  predicate Distinct(runners: seq<Runner>) {
    forall i, j :: 0 <= i < j < |runners| ==> runners[i] != runners[j]
  }

  /** The runners whose token is not the removed one's. */
  function Without(runners: seq<Runner>, runner: Runner): seq<Runner> {
    if runners == [] then []
    else
      var before := Without(runners[..|runners| - 1], runner);
      if runners[|runners| - 1] == runner then before else before + [runners[|runners| - 1]]
  }

  lemma {:induction false} WithoutRemoves(runners: seq<Runner>, runner: Runner)
    ensures forall r :: r in Without(runners, runner) <==> r in runners && r != runner
    ensures Distinct(runners) ==> Distinct(Without(runners, runner))
  {
    if runners != [] {
      var n := |runners| - 1;
      WithoutRemoves(runners[..n], runner);
      assert runners == runners[..n] + [runners[n]];
      if Distinct(runners) {
        assert forall i :: 0 <= i < n ==> runners[..n][i] == runners[i];
        assert runners[n] !in runners[..n];
      }
    }
  }

  /** The others stay in their order. */
  lemma {:induction false} WithoutKeepsOrder(before: seq<Runner>, runner: Runner, after: seq<Runner>)
    requires runner !in before && runner !in after
    ensures Without(before + [runner] + after, runner) == before + after
  {
    var runners := before + [runner] + after;
    if after != [] {
      var n := |after| - 1;
      WithoutKeepsOrder(before, runner, after[..n]);
      assert runners[..|runners| - 1] == before + [runner] + after[..n];
      assert before + after == before + after[..n] + [after[n]];
    } else {
      assert runners[..|runners| - 1] == before;
      WithoutNothing(before, runner);
    }
  }

  lemma {:induction false} WithoutNothing(runners: seq<Runner>, runner: Runner)
    requires runner !in runners
    ensures Without(runners, runner) == runners
  {
    if runners != [] {
      WithoutNothing(runners[..|runners| - 1], runner);
    }
  }

  class AudioCaptureBroadcaster {
    var runners: seq<Runner>

    predicate Valid()
      reads this
    {
      Distinct(runners)
    }

    constructor ()
      ensures Valid() && runners == []
    {
      runners := [];
    }

    /** The new runner is published last; the ones before it are left alone. */
    method Subscribe() returns (runner: Runner)
      requires Valid()
      modifies this
      ensures Valid() && fresh(runner) && runners == old(runners) + [runner]
      ensures runner.bound == RING_SIZE && runner.ring == [] && !runner.stop
    {
      runner := new Runner(RING_SIZE);
      runners := runners + [runner];
    }

    /** The others keep their places and their rings; the removed runner is stopped. */
    method Unsubscribe(runner: Runner)
      requires Valid()
      modifies this, runner`stop, runner`wake
      ensures Valid() && runners == Without(old(runners), runner)
      ensures if runner in old(runners) then runner.stop && runner.wake
              else runner.stop == old(runner.stop) && runner.wake == old(runner.wake)
    {
      var removed := runner in runners;
      WithoutRemoves(runners, runner);
      runners := Without(runners, runner);
      if removed {
        runner.Stop();
      }
    }

    /** Every subscribed runner gets the frame once. */
    method FeedFrame(frame: Frame)
      requires Valid()
      modifies runners
      ensures runners == old(runners)
      ensures forall r :: r in runners ==>
        r.ring == Appended(old(r.ring), frame, r.bound) && r.wake && r.stop == old(r.stop)
    {
      var i := 0;
      while i < |runners|
        invariant 0 <= i <= |runners| && runners == old(runners)
        invariant forall k :: 0 <= k < i ==>
          runners[k].ring == Appended(old(runners[k].ring), frame, runners[k].bound) && runners[k].wake
        invariant forall k :: i <= k < |runners| ==> runners[k].ring == old(runners[k].ring)
        invariant forall k :: 0 <= k < |runners| ==> runners[k].stop == old(runners[k].stop)
        modifies runners
      {
        runners[i].Push(frame);
        i := i + 1;
      }
    }
  }
}
