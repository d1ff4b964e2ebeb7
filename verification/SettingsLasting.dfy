/** What a power loss leaves is what loads from then on, until other settings are saved. */
module SettingsLasting {
  import opened Wrappers
  import opened SettingsDisk
  import opened SettingsProtocol
  import opened SettingsSafety

  function RunFrom<S>(k: Codec<S>, dirSync: bool, s: State<S>, es: seq<Event<S>>): (s': State<S>)
    requires WellFormed(s.disk)
    ensures WellFormed(s'.disk)
  {
    if es == [] then s else Step(k, dirSync, RunFrom(k, dirSync, s, es[..|es| - 1]), es[|es| - 1])
  }

  lemma {:induction false} RunGoesOn<S>(k: Codec<S>, dirSync: bool, es: seq<Event<S>>, more: seq<Event<S>>)
    ensures Run(k, dirSync, es + more) == RunFrom(k, dirSync, Run(k, dirSync, es), more)
  {
    if more == [] {
      assert es + more == es;
    } else {
      var n := |more| - 1;
      RunGoesOn(k, dirSync, es, more[..n]);
      assert (es + more)[..|es + more| - 1] == es + more[..n];
    }
  }

  /** A save of these settings begins in the run. */
  predicate BegunIn<S(==)>(es: seq<Event<S>>, settings: S) {
    exists i :: 0 <= i < |es| && es[i] == Begin(settings)
  }

  /** The same disk and the same save in progress, whatever has been recorded of earlier saves. */
  ghost predicate SameMachine<S(!new)>(s: State<S>, r: State<S>) {
    s.disk == r.disk && s.job == r.job
  }

  lemma {:induction false} RunsAlike<S(!new)>(k: Codec<S>, dirSync: bool, s: State<S>, r: State<S>, es: seq<Event<S>>)
    requires WellFormed(s.disk) && SameMachine(s, r)
    ensures SameMachine(RunFrom(k, dirSync, s, es), RunFrom(k, dirSync, r, es))
  {
    if es != [] {
      RunsAlike(k, dirSync, s, r, es[..|es| - 1]);
    }
  }

  ghost predicate AllowedWithin<S(!new)>(r: State<S>, known: seq<S>, es: seq<Event<S>>) {
    forall v :: v in Allowed(r) ==> v in known || BegunIn(es, v)
  }

  lemma StepAllows<S(!new)>(k: Codec<S>, dirSync: bool, kept: bool, r: State<S>, e: Event<S>)
    requires WellFormed(r.disk) && Inv(k, dirSync, kept, r)
    ensures forall v :: v in Allowed(Step(k, dirSync, r, e)) ==> v in Allowed(r) || e == Begin(v)
  {
  }

  lemma {:induction false} RunAllows<S(!new)>(k: Codec<S>, dirSync: bool, kept: bool, r: State<S>, es: seq<Event<S>>)
    requires WellFormed(r.disk) && Inv(k, dirSync, kept, r)
    ensures Inv(k, dirSync, kept, RunFrom(k, dirSync, r, es))
    ensures AllowedWithin(RunFrom(k, dirSync, r, es), Allowed(r), es)
  {
    if es != [] {
      var n := |es| - 1;
      RunAllows(k, dirSync, kept, r, es[..n]);
      var before := RunFrom(k, dirSync, r, es[..n]);
      StepKeepsInv(k, dirSync, kept, before, es[n]);
      StepAllows(k, dirSync, kept, before, es[n]);
      forall v | v in Allowed(RunFrom(k, dirSync, r, es)) ensures v in Allowed(r) || BegunIn(es, v) {
        if v in Allowed(before) && BegunIn(es[..n], v) {
          var i :| 0 <= i < n && es[..n][i] == Begin(v);
          assert es[i] == Begin(v);
        }
      }
    }
  }

  /** The state right after a power loss, told as if what loads had been saved and nothing else. */
  ghost function Restart<S>(k: Codec<S>, dirSync: bool, d: Disk): State<S>
    requires WellFormed(d)
  {
    if Main in Current(d) then State(d, None, Some(Load(k, d)), if dirSync then [] else [Load(k, d)])
    else State(d, None, None, [])
  }

  lemma RestartKeepsInv<S(!new)>(k: Codec<S>, dirSync: bool, s: State<S>, survivor: nat, junk: map<Inode, string>)
    requires Faithful(k) && WellFormed(s.disk) && Inv(k, dirSync, false, s) && survivor < |s.disk.dirs|
    ensures var d := PowerLoss(s.disk, survivor, junk);
      Inv(k, dirSync, Main in Current(d), Restart(k, dirSync, d))
  {
    var d := PowerLoss(s.disk, survivor, junk);
    PowerLossKeeps(k, s.disk, survivor, junk, Allowed(s), Always(dirSync, false, s));
    var r := Restart(k, dirSync, d);
    assert MainHolds(k, d, 0, Allowed(s));
    if Main in Current(d) {
      var j :| 0 <= j < |Allowed(s)| && FileAt(d, 0, Main).content == k.render(Allowed(s)[j]);
      assert k.parse(k.render(Allowed(s)[j])) == Some(Allowed(s)[j]);
      assert Allowed(r)[0] == Allowed(s)[j];
      assert Renders(k, Allowed(r), FileAt(d, 0, Main).content);
    }
  }

  /** What loads right after a power loss goes on loading, through any further crashes, until it is replaced
      by settings whose save begins later: settings lost once never come back by themselves. */
  lemma LostSettingsStayLost<S(!new)>(k: Codec<S>, dirSync: bool, es: seq<Event<S>>, survivor: nat,
                                      junk: map<Inode, string>, more: seq<Event<S>>)
    requires Faithful(k) && survivor < |Run(k, dirSync, es).disk.dirs|
    ensures var loss := es + [PowerLossEvent(survivor, junk)];
      var now := Load(k, Run(k, dirSync, loss).disk);
      var later := Load(k, Run(k, dirSync, loss + more).disk);
      later == now || BegunIn(more, later)
  {
    var loss := es + [PowerLossEvent(survivor, junk)];
    var s, lost := Run(k, dirSync, es), Run(k, dirSync, loss);
    assert loss[..|loss| - 1] == es;
    RunKeepsInv(k, dirSync, es);
    RestartKeepsInv(k, dirSync, s, survivor, junk);
    var kept, r := Main in Current(lost.disk), Restart(k, dirSync, lost.disk);
    LoadsAllowed(k, dirSync, kept, r);
    RunAllows(k, dirSync, kept, r, more);
    LoadsAllowed(k, dirSync, kept, RunFrom(k, dirSync, r, more));
    RunGoesOn(k, dirSync, loss, more);
    RunsAlike(k, dirSync, lost, r, more);
  }
}
