/** The daemon's hub: registered clients and triggers that have not been acknowledged. */
module IpcHubSpec {
  import opened Wrappers
  import opened IpcFrames

  /** `_clients` and `_pending` keep insertion order, as Python dicts do. */
  datatype Hub = Hub(clients: seq<ConnId>, pending: seq<Trigger>, acks: set<string>)

  function Ids(pending: seq<Trigger>): set<string> {
    set t | t in pending :: t.id
  }

  predicate DistinctIds(pending: seq<Trigger>) {
    forall i, j :: 0 <= i < j < |pending| ==> pending[i].id != pending[j].id
  }

  /** dict[id] = trigger: an existing key keeps its place. */
  function Put(pending: seq<Trigger>, t: Trigger): seq<Trigger> {
    if pending == [] then [t]
    else if pending[0].id == t.id then [t] + pending[1..]
    else [pending[0]] + Put(pending[1..], t)
  }

  /** dict.pop(id, None). */
  function Pop(pending: seq<Trigger>, id: string): seq<Trigger> {
    if pending == [] then []
    else if pending[0].id == id then pending[1..]
    else [pending[0]] + Pop(pending[1..], id)
  }

  function Without(clients: seq<ConnId>, c: ConnId): seq<ConnId> {
    if clients == [] then []
    else if clients[0] == c then clients[1..]
    else [clients[0]] + Without(clients[1..], c)
  }

  function Register(h: Hub, c: ConnId): Hub {
    h.(clients := Without(h.clients, c) + [c])
  }

  function Unregister(h: Hub, c: ConnId): Hub {
    h.(clients := Without(h.clients, c))
  }

  function AddPending(h: Hub, t: Trigger): Hub {
    h.(pending := Put(h.pending, t), acks := h.acks + {t.id})
  }

  function ResolveAck(h: Hub, id: Option<string>): Hub {
    if id.None? || id.value == "" then h
    else h.(pending := Pop(h.pending, id.value), acks := h.acks - {id.value})
  }

  // ---- relaunching the application ----

  /** One trigger, and whether a client was connected when it came. */
  datatype Emission = Emission(now: real, live: bool)

  /** The launcher is called: nobody is connected, and the last call is a debounce ago. */
  predicate Launches(last: real, e: Emission, debounce: real) {
    !e.live && e.now - last >= debounce
  }

  function LastAfter(last: real, es: seq<Emission>, debounce: real): real {
    if es == [] then last
    else
      var before := LastAfter(last, es[..|es| - 1], debounce);
      if Launches(before, es[|es| - 1], debounce) then es[|es| - 1].now else before
  }

  /** Which of the triggers call the launcher. */
  function Launched(last: real, es: seq<Emission>, debounce: real): seq<nat> {
    if es == [] then []
    else
      var before := Launched(last, es[..|es| - 1], debounce);
      if Launches(LastAfter(last, es[..|es| - 1], debounce), es[|es| - 1], debounce) then before + [|es| - 1]
      else before
  }

  /** These places of the run are launches, at least the debounce apart, and the last one is at `now`. */
  predicate Apart(last: real, es: seq<Emission>, debounce: real, at: seq<nat>, now: real) {
    && (forall i :: 0 <= i < |at| ==> at[i] < |es| && !es[at[i]].live && es[at[i]].now - last >= debounce)
    && (forall i, j :: 0 <= i < j < |at| ==> at[i] < at[j] && es[at[j]].now - es[at[i]].now >= debounce)
    && now == (if at == [] then last else es[at[|at| - 1]].now)
  }

  lemma ApartOneMore(last: real, es: seq<Emission>, debounce: real, at: seq<nat>, now: real)
    requires es != [] && 0.0 <= debounce && Apart(last, es[..|es| - 1], debounce, at, now)
    requires Launches(now, es[|es| - 1], debounce)
    ensures Apart(last, es, debounce, at + [|es| - 1], es[|es| - 1].now)
  {
    var n := |es| - 1;
    assert forall i :: 0 <= i < n ==> es[..n][i] == es[i];
    forall i | 0 <= i < |at| ensures es[n].now - es[at[i]].now >= debounce {
      var k := |at| - 1;
      assert es[..n][at[i]].now <= es[..n][at[k]].now;
    }
  }

  /** Over any triggers, two launches are at least the debounce apart, and none comes while a client is connected. */
  lemma {:induction false} LaunchesApart(last: real, es: seq<Emission>, debounce: real)
    requires 0.0 <= debounce
    ensures Apart(last, es, debounce, Launched(last, es, debounce), LastAfter(last, es, debounce))
  {
    if es != [] {
      var n := |es| - 1;
      LaunchesApart(last, es[..n], debounce);
      var at, now := Launched(last, es[..n], debounce), LastAfter(last, es[..n], debounce);
      if Launches(now, es[n], debounce) {
        ApartOneMore(last, es, debounce, at, now);
      } else {
        assert forall i :: 0 <= i < n ==> es[..n][i] == es[i];
      }
    }
  }

  predicate NoDuplicates(clients: seq<ConnId>) {
    forall i, j :: 0 <= i < j < |clients| ==> clients[i] != clients[j]
  }

  lemma {:induction false} PutNew(pending: seq<Trigger>, t: Trigger)
    requires t.id !in Ids(pending)
    ensures Put(pending, t) == pending + [t]
  {
    if pending != [] {
      assert pending[0] in pending;
      assert Ids(pending[1..]) <= Ids(pending);
      PutNew(pending[1..], t);
    }
  }

  /** A trigger whose id is pending already takes the place of the first that has it. */
  lemma {:induction false} PutReplaces(pending: seq<Trigger>, t: Trigger, i: nat)
    requires i < |pending| && pending[i].id == t.id && forall j :: 0 <= j < i ==> pending[j].id != t.id
    ensures Put(pending, t) == pending[i := t]
  {
    if i > 0 {
      assert forall j :: 0 <= j < i - 1 ==> pending[1..][j] == pending[j + 1];
      PutReplaces(pending[1..], t, i - 1);
    }
  }

  /** A connection that registers comes last, and only once; the others stay in their order. */
  lemma {:induction false} RegisterPutsLast(h: Hub, before: seq<ConnId>, c: ConnId, after: seq<ConnId>)
    requires c !in before && c !in after
    requires h.clients == before + after || h.clients == before + [c] + after
    ensures Register(h, c) == h.(clients := before + after + [c])
    ensures Unregister(h, c) == h.(clients := before + after)
  {
    WithoutJoins(before, c, after);
    assert before + [c] + after == before + ([c] + after);
  }

  lemma {:induction false} WithoutJoins(before: seq<ConnId>, c: ConnId, after: seq<ConnId>)
    requires c !in before && c !in after
    ensures Without(before + [c] + after, c) == before + after
    ensures Without(before + after, c) == before + after
  {
    if before != [] {
      WithoutJoins(before[1..], c, after);
      assert (before + [c] + after)[1..] == before[1..] + [c] + after;
      assert (before + after)[1..] == before[1..] + after;
    } else {
      assert before + after == after && before + [c] + after == [c] + after;
      WithoutNone(after, c);
    }
  }

  lemma {:induction false} WithoutNone(clients: seq<ConnId>, c: ConnId)
    requires c !in clients
    ensures Without(clients, c) == clients
  {
    if clients != [] {
      WithoutNone(clients[1..], c);
    }
  }

  /** A trigger launches the application exactly when nobody is connected and no launch came within the debounce
      before it; so with nobody connected a trigger a full debounce after the last launch does launch. */
  lemma {:induction false} LaunchesExactly(last: real, es: seq<Emission>, debounce: real)
    requires es != [] && 0.0 <= debounce && Sequenced(es)
    ensures var n := |es| - 1;
      n in Launched(last, es, debounce) <==>
        !es[n].live && es[n].now - last >= debounce
        && forall i :: i in Launched(last, es[..n], debounce) && i < n ==> es[n].now - es[i].now >= debounce
  {
    var n := |es| - 1;
    LaunchesApart(last, es[..n], debounce);
    var at := Launched(last, es[..n], debounce);
    forall i | i in at ensures i < n && es[..n][i] == es[i] {
    }
    if at != [] {
      assert at[|at| - 1] in at;
      forall i | i in at ensures es[i].now <= es[at[|at| - 1]].now {
      }
    }
  }

  predicate Sequenced(es: seq<Emission>) {
    forall i, j :: 0 <= i < j < |es| ==> es[i].now <= es[j].now
  }

  /** Popping takes out place `i` and joins what is before and behind it; past the end, nothing is taken out. */
  predicate PopsAt(pending: seq<Trigger>, id: string, i: nat) {
    if i < |pending| then pending[i].id == id && Pop(pending, id) == pending[..i] + pending[i + 1..]
    else Pop(pending, id) == pending && forall t :: t in pending ==> t.id != id
  }

  lemma PopsAtTail(pending: seq<Trigger>, id: string, i: nat)
    requires pending != [] && pending[0].id != id && PopsAt(pending[1..], id, i)
    ensures PopsAt(pending, id, i + 1)
  {
    var tail := pending[1..];
    assert pending == [pending[0]] + tail;
    if i < |tail| {
      assert [pending[0]] + (tail[..i] + tail[i + 1..]) == pending[..i + 1] + pending[i + 2..];
    }
  }

  lemma {:induction false} PopTakesOut(pending: seq<Trigger>, id: string) returns (i: nat)
    ensures PopsAt(pending, id, i)
  {
    i := 0;
    if pending != [] && pending[0].id != id {
      i := PopTakesOut(pending[1..], id);
      PopsAtTail(pending, id, i);
      i := i + 1;
    }
  }

  /** Popping removes exactly the trigger with that id and keeps the order of the others. */
  lemma {:induction false} PopRemoves(pending: seq<Trigger>, id: string)
    requires DistinctIds(pending)
    ensures exists i :: PopsAt(pending, id, i)
    ensures DistinctIds(Pop(pending, id))
    ensures forall t :: t in Pop(pending, id) <==> t in pending && t.id != id
  {
    var _ := PopTakesOut(pending, id);
    if pending != [] {
      PopRemoves(pending[1..], id);
      if pending[0].id == id {
        assert forall t :: t in pending[1..] ==> t.id != id;
      } else {
        var rest := Pop(pending[1..], id);
        forall i, j | 0 <= i < j < |[pending[0]] + rest|
          ensures ([pending[0]] + rest)[i].id != ([pending[0]] + rest)[j].id
        {
          if i == 0 {
            assert rest[j - 1] in pending[1..];
          }
        }
      }
    }
  }

  lemma {:induction false} WithoutRemoves(clients: seq<ConnId>, c: ConnId)
    requires NoDuplicates(clients)
    ensures NoDuplicates(Without(clients, c))
    ensures forall x :: x in Without(clients, c) <==> x in clients && x != c
  {
    if clients != [] {
      WithoutRemoves(clients[1..], c);
      if clients[0] != c {
        var rest := Without(clients[1..], c);
        forall i, j | 0 <= i < j < |[clients[0]] + rest|
          ensures ([clients[0]] + rest)[i] != ([clients[0]] + rest)[j]
        {
          if i == 0 {
            assert rest[j - 1] in clients[1..];
          }
        }
      }
    }
  }
}

/** The hub object. Each method is one block between two awaits. */
module IpcHubClass {
  import opened Wrappers
  import opened IpcFrames
  import Spec = IpcHubSpec

  class IpcHub {
    const resurrectDebounce: real
    var clients: seq<ConnId>
    var pending: seq<Trigger>
    var acks: set<string>
    var lastResurrect: real

    ghost function State(): Spec.Hub reads this {
      Spec.Hub(clients, pending, acks)
    }

    constructor (resurrectDebounce: real)
      ensures State() == Spec.Hub([], [], {})
      ensures this.resurrectDebounce == resurrectDebounce && lastResurrect == 0.0
    {
      this.resurrectDebounce := resurrectDebounce;
      clients, pending, acks, lastResurrect := [], [], {}, 0.0;
    }

    /** handle_connection up to its first send: registers, and lists what the flush will resend. */
    method Accept(c: ConnId) returns (owed: seq<Trigger>)
      modifies this
      ensures State() == Spec.Register(old(State()), c) && lastResurrect == old(lastResurrect)
      ensures owed == old(pending)
    {
      clients := Spec.Without(clients, c) + [c];
      owed := pending;
    }

    method Unregister(c: ConnId)
      modifies this
      ensures State() == Spec.Unregister(old(State()), c) && lastResurrect == old(lastResurrect)
    {
      clients := Spec.Without(clients, c);
    }

    /** emit_trigger up to its first await: the clients to focus, or whether the app was launched.
        `launches` is what the launcher would answer. */
    method BeginEmit(t: Trigger, now: real, launches: bool) returns (targets: seq<ConnId>, resurrected: bool)
      modifies this
      ensures State() == Spec.AddPending(old(State()), t)
      ensures targets == old(clients)
      ensures var e := Spec.Emission(now, old(clients) != []);
        && (resurrected <==> Spec.Launches(old(lastResurrect), e, resurrectDebounce) && launches)
        && lastResurrect == Spec.LastAfter(old(lastResurrect), [e], resurrectDebounce)
    {
      pending := Spec.Put(pending, t);
      acks := acks + {t.id};
      targets, resurrected := clients, false;
      if clients == [] {
        if now - lastResurrect >= resurrectDebounce {
          lastResurrect := now;
          resurrected := launches;
        }
      }
    }

    /** Returns whether a waiting emitter is woken. */
    method ResolveAck(id: Option<string>) returns (woken: bool)
      modifies this
      ensures State() == Spec.ResolveAck(old(State()), id) && lastResurrect == old(lastResurrect)
      ensures woken <==> id.Some? && id.value != "" && id.value in old(acks)
    {
      if id.None? || id.value == "" {
        return false;
      }
      pending := Spec.Pop(pending, id.value);
      woken := id.value in acks;
      acks := acks - {id.value};
    }
  }
}
