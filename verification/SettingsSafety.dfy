/** Settings survive: the next load returns the last save that completed, or one being saved. */
module SettingsSafety {
  import opened Wrappers
  import opened SettingsDisk
  import opened SettingsProtocol

  /** The saves whose settings the disk may hold: those begun since the last completed one, and it. */
  function Allowed<S>(s: State<S>): seq<S> {
    (if s.completed.Some? then [s.completed.value] else []) + s.begun
  }

  /** Names in one directory never share a file. */
  predicate Apart(dir: Directory) {
    forall a, b :: a in dir && b in dir && a != b ==> dir[a] != dir[b]
  }

  /** Truncating a scratch file cannot reach a main file that a power loss may bring back. */
  predicate ScratchApart(d: Disk)
    requires WellFormed(d)
  {
    forall i, name :: 0 <= i < |d.dirs| && Main in d.dirs[i] && name in Current(d) && name != Main
      ==> Current(d)[name] != d.dirs[i][Main]
  }

  predicate Renders<S>(k: Codec<S>, values: seq<S>, content: string) {
    exists j :: 0 <= j < |values| && content == k.render(values[j])
  }

  lemma RendersWithin<S>(k: Codec<S>, xs: seq<S>, ys: seq<S>, content: string)
    requires Renders(k, xs, content) && forall j :: 0 <= j < |xs| ==> xs[j] in ys
    ensures Renders(k, ys, content)
  {
    var j :| 0 <= j < |xs| && content == k.render(xs[j]);
    var i :| 0 <= i < |ys| && ys[i] == xs[j];
  }

  ghost predicate MainHolds<S>(k: Codec<S>, d: Disk, i: nat, values: seq<S>)
    requires WellFormed(d) && i < |d.dirs|
  {
    Main in d.dirs[i] ==>
      FileAt(d, i, Main).synced && Renders(k, values, FileAt(d, i, Main).content)
  }

  /** `always`: no directory that may come back lacks the main file. */
  ghost predicate DiskInv<S>(k: Codec<S>, d: Disk, values: seq<S>, always: bool) {
    && WellFormed(d)
    && (forall i :: 0 <= i < |d.dirs| ==> Apart(d.dirs[i]))
    && ScratchApart(d)
    && (forall i :: 0 <= i < |d.dirs| ==> MainHolds(k, d, i, values))
    && (forall i :: 0 <= i < |d.dirs| && Backup in d.dirs[i] ==> Main in d.dirs[i])
    && (always ==> forall i :: 0 <= i < |d.dirs| ==> Main in d.dirs[i])
  }

  // ---- each system call ----

  lemma OpenKeeps<S>(k: Codec<S>, d: Disk, name: Name, values: seq<S>, always: bool)
    requires DiskInv(k, d, values, always) && name != Main && (name == Backup ==> Main in Current(d))
    ensures DiskInv(k, OpenForWrite(d, name), values, always)
  {
    if name in Current(d) {
      WriteKeeps(k, d, name, "", values, always);
    } else {
      OpenNewKeeps(k, d, name, values, always);
    }
  }

  lemma OpenNewKeeps<S>(k: Codec<S>, d: Disk, name: Name, values: seq<S>, always: bool)
    requires DiskInv(k, d, values, always) && name != Main && (name == Backup ==> Main in Current(d))
    requires name !in Current(d)
    ensures DiskInv(k, OpenForWrite(d, name), values, always)
  {
    var d' := OpenForWrite(d, name);
    var last := |d.dirs| - 1;
    assert forall n :: n in Current(d) ==> Current(d)[n] in Current(d).Values;
    assert Apart(Current(d')) by {
      assert Apart(d.dirs[last]);
    }
    forall i | 0 <= i < |d'.dirs| ensures MainHolds(k, d', i, values) {
      assert MainHolds(k, d, if i < |d.dirs| then i else last, values);
    }
    assert ScratchApart(d') by {
      forall i, n | 0 <= i < |d'.dirs| && Main in d'.dirs[i] && n in Current(d') && n != Main
        ensures Current(d')[n] != d'.dirs[i][Main]
      {
        var j := if i < |d.dirs| then i else last;
        assert Main in d.dirs[j] && d'.dirs[i][Main] == d.dirs[j][Main];
        assert d.dirs[j][Main] in d.dirs[j].Values;
      }
    }
  }

  lemma WriteKeeps<S>(k: Codec<S>, d: Disk, name: Name, data: string, values: seq<S>, always: bool)
    requires DiskInv(k, d, values, always) && name != Main
    ensures DiskInv(k, Write(d, name, data), values, always)
  {
    var d' := Write(d, name, data);
    forall i | 0 <= i < |d'.dirs| ensures MainHolds(k, d', i, values) {
      assert MainHolds(k, d, i, values);
    }
  }

  lemma SyncFileKeeps<S>(k: Codec<S>, d: Disk, name: Name, values: seq<S>, always: bool)
    requires DiskInv(k, d, values, always) && name != Main
    ensures DiskInv(k, SyncFile(d, name), values, always)
  {
    var d' := SyncFile(d, name);
    forall i | 0 <= i < |d'.dirs| ensures MainHolds(k, d', i, values) {
      assert MainHolds(k, d, i, values);
    }
  }

  /** The rename publishes a file that is already synced and complete. */
  lemma RenameKeeps<S>(k: Codec<S>, d: Disk, v: S, values: seq<S>, always: bool)
    requires DiskInv(k, d, values, always) && v in values
    requires Tmp in Current(d) && FileAt(d, |d.dirs| - 1, Tmp) == File(k.render(v), true)
    ensures DiskInv(k, Rename(d, Tmp, Main), values, always)
    ensures Contents(Rename(d, Tmp, Main), Main) == Some(k.render(v))
  {
    var d' := Rename(d, Tmp, Main);
    assert Apart(Current(d));
    forall i | 0 <= i < |d'.dirs| ensures MainHolds(k, d', i, values) {
      if i < |d.dirs| {
        assert MainHolds(k, d, i, values);
      } else {
        assert FileAt(d', i, Main).content == k.render(v);
      }
    }
  }

  lemma SyncDirKeeps<S>(k: Codec<S>, d: Disk, works: bool, values: seq<S>, always: bool)
    requires DiskInv(k, d, values, always)
    ensures DiskInv(k, SyncDir(d, works), values, always)
  {
    var d' := SyncDir(d, works);
    forall i | 0 <= i < |d'.dirs| ensures MainHolds(k, d', i, values) {
      assert MainHolds(k, d, if works then |d.dirs| - 1 else i, values);
    }
    assert forall i :: 0 <= i < |d'.dirs| ==> d'.dirs[i] in d.dirs;
  }

  lemma PowerLossKeeps<S>(k: Codec<S>, d: Disk, survivor: nat, junk: map<Inode, string>, values: seq<S>, always: bool)
    requires DiskInv(k, d, values, always) && survivor < |d.dirs|
    ensures DiskInv(k, PowerLoss(d, survivor, junk), values, always)
  {
    var d' := PowerLoss(d, survivor, junk);
    assert Apart(d.dirs[survivor]) && MainHolds(k, d, survivor, values);
    forall i | 0 <= i < |d'.dirs| ensures MainHolds(k, d', i, values) {
      assert i == 0;
      if Main in d.dirs[survivor] {
        assert FileAt(d', 0, Main).content == FileAt(d, survivor, Main).content;
      }
    }
  }

  lemma MoreAllowed<S>(k: Codec<S>, d: Disk, few: seq<S>, many: seq<S>, always: bool)
    requires DiskInv(k, d, few, always) && few <= many
    ensures DiskInv(k, d, many, always)
  {
    forall i | 0 <= i < |d.dirs| ensures MainHolds(k, d, i, many) {
      assert MainHolds(k, d, i, few);
    }
  }

  // ---- the whole state ----

  /** What the save in progress has achieved so far. */
  ghost predicate JobInv<S>(k: Codec<S>, s: State<S>)
    requires WellFormed(s.disk)
  {
    s.job.Some? ==>
      var job, last := s.job.value, |s.disk.dirs| - 1;
      && job.pc < LAST_STEP && job.settings in s.begun
      && (1 <= job.pc <= 5 ==> Tmp in Current(s.disk))
      && (2 <= job.pc <= 5 ==> FileAt(s.disk, last, Tmp).content == k.render(job.settings))
      && (3 <= job.pc <= 5 ==> FileAt(s.disk, last, Tmp).synced)
      && (job.pc == 6 ==> Contents(s.disk, Main) == Some(k.render(job.settings)))
  }

  /** No directory that may come back lacks the main file: since a sync of the directory, or from the start. */
  predicate Always<S>(dirSync: bool, kept: bool, s: State<S>) {
    kept || (dirSync && s.completed.Some?)
  }

  ghost predicate Inv<S>(k: Codec<S>, dirSync: bool, kept: bool, s: State<S>) {
    && DiskInv(k, s.disk, Allowed(s), Always(dirSync, kept, s))
    && JobInv(k, s)
    && (!dirSync && s.completed.Some? ==> s.completed.value in s.begun)
  }

  lemma TmpStepKeeps<S>(k: Codec<S>, dirSync: bool, kept: bool, s: State<S>)
    requires Inv(k, dirSync, kept, s) && s.job.Some? && s.job.value.pc < 3
    ensures Inv(k, dirSync, kept, Step(k, dirSync, s, Next))
  {
    var values, always := Allowed(s), Always(dirSync, kept, s);
    match s.job.value.pc
    case 0 => OpenKeeps(k, s.disk, Tmp, values, always);
    case 1 => WriteKeeps(k, s.disk, Tmp, k.render(s.job.value.settings), values, always);
    case 2 => SyncFileKeeps(k, s.disk, Tmp, values, always);
  }

  /** The backup copy touches neither the temporary file's entry nor its content. */
  lemma BackupLeavesTmp(d: Disk, d': Disk)
    requires WellFormed(d) && WellFormed(d') && Tmp in Current(d) && Apart(Current(d))
    requires d' == OpenForWrite(d, Backup) || exists data :: d' == Write(d, Backup, data)
    ensures Tmp in Current(d') && FileAt(d', |d'.dirs| - 1, Tmp) == FileAt(d, |d.dirs| - 1, Tmp)
  {
    assert Current(d)[Tmp] in Current(d).Values;
  }

  lemma BackupKeepsJob<S>(k: Codec<S>, s: State<S>, d': Disk)
    requires WellFormed(s.disk) && WellFormed(d') && Apart(Current(s.disk)) && JobInv(k, s)
    requires s.job.Some? && 3 <= s.job.value.pc < 5
    requires d' == OpenForWrite(s.disk, Backup) || exists data :: d' == Write(s.disk, Backup, data)
    ensures JobInv(k, s.(disk := d', job := Some(s.job.value.(pc := s.job.value.pc + 1))))
  {
    BackupLeavesTmp(s.disk, d');
  }

  lemma OpenBackupKeeps<S>(k: Codec<S>, dirSync: bool, kept: bool, s: State<S>)
    requires Inv(k, dirSync, kept, s) && s.job.Some? && s.job.value.pc == 3
    ensures Inv(k, dirSync, kept, Step(k, dirSync, s, Next))
  {
    var values, always, d := Allowed(s), Always(dirSync, kept, s), s.disk;
    if Main in Current(d) {
      OpenKeeps(k, d, Backup, values, always);
      BackupKeepsJob(k, s, OpenForWrite(d, Backup));
    }
  }

  lemma WriteBackupKeeps<S>(k: Codec<S>, dirSync: bool, kept: bool, s: State<S>)
    requires Inv(k, dirSync, kept, s) && s.job.Some? && s.job.value.pc == 4
    ensures Inv(k, dirSync, kept, Step(k, dirSync, s, Next))
  {
    var values, always, d := Allowed(s), Always(dirSync, kept, s), s.disk;
    if Main in Current(d) {
      WriteKeeps(k, d, Backup, Contents(d, Main).value, values, always);
      BackupKeepsJob(k, s, Write(d, Backup, Contents(d, Main).value));
    }
  }

  lemma RenameStepKeeps<S>(k: Codec<S>, dirSync: bool, kept: bool, s: State<S>)
    requires Inv(k, dirSync, kept, s) && s.job.Some? && s.job.value.pc == 5
    ensures Inv(k, dirSync, kept, Step(k, dirSync, s, Next))
  {
    RenameKeeps(k, s.disk, s.job.value.settings, Allowed(s), Always(dirSync, kept, s));
  }

  lemma FinishKeeps<S>(k: Codec<S>, dirSync: bool, kept: bool, s: State<S>)
    requires Inv(k, dirSync, kept, s) && s.job.Some? && s.job.value.pc == 6
    ensures Inv(k, dirSync, kept, Step(k, dirSync, s, Next))
  {
    var s' := Step(k, dirSync, s, Next);
    SyncDirKeeps(k, s.disk, dirSync, Allowed(s), Always(dirSync, kept, s));
    if dirSync {
      assert FileAt(s'.disk, 0, Main).content == k.render(s.job.value.settings);
      forall i | 0 <= i < |s'.disk.dirs| ensures MainHolds(k, s'.disk, i, Allowed(s')) {
        assert MainHolds(k, s'.disk, i, Allowed(s));
        assert s.job.value.settings in Allowed(s');
      }
    } else {
      // Without a working directory sync the earlier saves stay possible.
      forall i | 0 <= i < |s'.disk.dirs| ensures MainHolds(k, s'.disk, i, Allowed(s')) {
        assert MainHolds(k, s'.disk, i, Allowed(s));
        if Main in s'.disk.dirs[i] {
          RendersWithin(k, Allowed(s), Allowed(s'), FileAt(s'.disk, i, Main).content);
        }
      }
    }
  }

  lemma StepKeepsInv<S>(k: Codec<S>, dirSync: bool, kept: bool, s: State<S>, e: Event<S>)
    requires Inv(k, dirSync, kept, s)
    ensures Inv(k, dirSync, kept, Step(k, dirSync, s, e))
  {
    var always := Always(dirSync, kept, s);
    match e
    case Begin(settings) =>
      if s.job.None? {
        var s' := Step(k, dirSync, s, e);
        assert Allowed(s') == Allowed(s) + [settings];
        MoreAllowed(k, s.disk, Allowed(s), Allowed(s'), always);
      }
    case Next =>
      if s.job.Some? {
        if s.job.value.pc == 6 {
          FinishKeeps(k, dirSync, kept, s);
        } else if s.job.value.pc == 5 {
          RenameStepKeeps(k, dirSync, kept, s);
        } else if s.job.value.pc == 4 {
          WriteBackupKeeps(k, dirSync, kept, s);
        } else if s.job.value.pc == 3 {
          OpenBackupKeeps(k, dirSync, kept, s);
        } else {
          TmpStepKeeps(k, dirSync, kept, s);
        }
      }
    case ProcessCrash(partial) =>
      WriteKeeps(k, s.disk, Tmp, partial, Allowed(s), always);
      WriteKeeps(k, s.disk, Backup, partial, Allowed(s), always);
    case PowerLossEvent(survivor, junk) =>
      if survivor < |s.disk.dirs| {
        PowerLossKeeps(k, s.disk, survivor, junk, Allowed(s), always);
      }
  }

  lemma {:induction false} RunKeepsInv<S>(k: Codec<S>, dirSync: bool, es: seq<Event<S>>)
    ensures Inv(k, dirSync, false, Run(k, dirSync, es))
  {
    if es != [] {
      RunKeepsInv(k, dirSync, es[..|es| - 1]);
      StepKeepsInv(k, dirSync, false, Run(k, dirSync, es[..|es| - 1]), es[|es| - 1]);
    }
  }

  lemma LoadsAllowed<S(!new)>(k: Codec<S>, dirSync: bool, kept: bool, s: State<S>)
    requires Faithful(k) && WellFormed(s.disk) && Inv(k, dirSync, kept, s)
    ensures Load(k, s.disk) in Allowed(s) || (Load(k, s.disk) == k.default && !Always(dirSync, kept, s))
  {
    var last := |s.disk.dirs| - 1;
    assert MainHolds(k, s.disk, last, Allowed(s));
    if Main in Current(s.disk) {
      var j :| 0 <= j < |Allowed(s)| && FileAt(s.disk, last, Main).content == k.render(Allowed(s)[j]);
      assert k.parse(k.render(Allowed(s)[j])) == Some(Allowed(s)[j]);
    }
  }

  /** After any history of saves and crashes, a load returns the last completed settings or
      settings whose save began since; the defaults only before any save has completed. */
  lemma LoadReturnsASave<S(!new)>(k: Codec<S>, dirSync: bool, es: seq<Event<S>>)
    requires Faithful(k)
    ensures var s := Run(k, dirSync, es);
      && (Load(k, s.disk) in Allowed(s) || Load(k, s.disk) == k.default)
      && (dirSync && s.completed.Some? ==> Load(k, s.disk) in Allowed(s))
  {
    RunKeepsInv(k, dirSync, es);
    LoadsAllowed(k, dirSync, false, Run(k, dirSync, es));
  }

  /** A save that has returned is what loads, until the next save begins, across any crashes. */
  lemma {:induction false} CompletedSaveSticks<S(!new)>(k: Codec<S>, es: seq<Event<S>>)
    requires Faithful(k)
    requires Run(k, true, es).completed.Some? && Run(k, true, es).begun == []
    ensures Load(k, Run(k, true, es).disk) == Run(k, true, es).completed.value
  {
    LoadReturnsASave(k, true, es);
  }

  /** One interrupted save leaves either its own settings or those completed before it, nothing else. */
  lemma InterruptedSaveIsAtomic<S(!new)>(k: Codec<S>, es: seq<Event<S>>, v: S)
    requires Faithful(k)
    requires Run(k, true, es).completed.Some? && Run(k, true, es).begun == [v]
    ensures Load(k, Run(k, true, es).disk) in [Run(k, true, es).completed.value, v]
  {
    LoadReturnsASave(k, true, es);
  }

  // ---- when the directory cannot be synced ----

  function FirstSave<S>(v: S): seq<Event<S>> {
    [Begin(v), Next, Next, Next, Next, Next, Next, Next]
  }

  ghost function AfterFirstSave<S>(k: Codec<S>, dirSync: bool, v: S): (s: State<S>)
    ensures WellFormed(s.disk)
  {
    Run(k, dirSync, FirstSave(v))
  }

  /** The disk after each of the first save's system calls. */
  function FirstSaveDisk(data: string, pc: nat): Disk
    requires pc <= 6
  {
    if pc == 0 then Disk(map[], [map[]], 0)
    else
      Disk(map[0 := if pc == 1 then File("", false) else File(data, pc > 2)],
           if pc == 6 then [map[], map[Tmp := 0], map[Main := 0]] else [map[], map[Tmp := 0]], 1)
  }

  lemma FirstSaveStep(data: string, pc: nat, dirSync: bool)
    requires pc < 6
    ensures WellFormed(FirstSaveDisk(data, pc))
    ensures SaveStep(FirstSaveDisk(data, pc), data, pc, dirSync) == FirstSaveDisk(data, pc + 1)
  {
    assert (map[Tmp := 0] - {Tmp})[Main := 0] == map[Main := 0];
  }

  lemma {:induction false} FirstSaveStates<S>(k: Codec<S>, dirSync: bool, v: S, pc: nat)
    requires pc <= 6
    ensures Run(k, dirSync, FirstSave(v)[..pc + 1])
         == State(FirstSaveDisk(k.render(v), pc), Some(Job(v, pc)), None, [v])
  {
    var es := FirstSave(v);
    assert es[..pc + 1][..pc] == es[..pc];
    if pc == 0 {
      assert es[..0] == [];
      assert [] + [v] == [v];
    } else {
      FirstSaveStates(k, dirSync, v, pc - 1);
      FirstSaveStep(k.render(v), pc - 1, dirSync);
    }
  }

  lemma FirstSaveEnds<S>(k: Codec<S>, dirSync: bool, v: S)
    ensures var d6 := FirstSaveDisk(k.render(v), 6);
      AfterFirstSave(k, dirSync, v) == State(if dirSync then d6.(dirs := [map[Main := 0]]) else d6, None, Some(v),
                                             if dirSync then [] else [v])
  {
    FirstSaveStates(k, dirSync, v, 6);
    assert FirstSave(v)[..7] == FirstSave(v)[..|FirstSave(v)| - 1];
  }

  /** A completed first save survives every power loss exactly when the directory sync works. */
  lemma DirectorySyncDecides<S(!new)>(k: Codec<S>, dirSync: bool, v: S)
    requires Faithful(k) && v != k.default
    ensures dirSync <==> SurvivesPowerLoss(k, AfterFirstSave(k, dirSync, v).disk, v)
  {
    FirstSaveEnds(k, dirSync, v);
    var d := AfterFirstSave(k, dirSync, v).disk;
    assert k.parse(k.render(v)) == Some(v);
    if !dirSync {
      assert Current(PowerLoss(d, 0, map[])) == map[];
      assert Load(k, PowerLoss(d, 0, map[])) == k.default;
    }
  }

  ghost predicate SurvivesPowerLoss<S(!new)>(k: Codec<S>, d: Disk, v: S)
    requires WellFormed(d)
  {
    forall survivor: nat, junk: map<Inode, string> ::
      survivor < |d.dirs| ==> Load(k, PowerLoss(d, survivor, junk)) == v
  }
}

/** The writer object, its save one system call after another. */
module SettingsWriter {
  import opened Wrappers
  import Disks = SettingsDisk
  import Spec = SettingsProtocol

  function SaveFrom(d: Disks.Disk, data: string, pc: nat, dirSync: bool): (r: Disks.Disk)
    requires Disks.WellFormed(d) && pc <= Spec.LAST_STEP
    ensures Disks.WellFormed(r)
    decreases Spec.LAST_STEP - pc
  {
    if pc == Spec.LAST_STEP then d
    else SaveFrom(Spec.SaveStep(d, data, pc, dirSync), data, pc + 1, dirSync)
  }

  lemma Unroll(d: Disks.Disk, data: string, pc: nat, dirSync: bool)
    requires Disks.WellFormed(d) && pc < Spec.LAST_STEP
    ensures SaveFrom(d, data, pc, dirSync) == SaveFrom(Spec.SaveStep(d, data, pc, dirSync), data, pc + 1, dirSync)
  {
  }

  /** `n` system calls in a row, with no crash between them. */
  function Undisturbed<S>(k: Spec.Codec<S>, dirSync: bool, s: Spec.State<S>, n: nat): (r: Spec.State<S>)
    requires Disks.WellFormed(s.disk)
    ensures Disks.WellFormed(r.disk)
    decreases n
  {
    if n == 0 then s else Undisturbed(k, dirSync, Spec.Step(k, dirSync, s, Spec.Next), n - 1)
  }

  /** Run without a crash, a begun save is the method below. */
  lemma {:induction false} UndisturbedSave<S>(k: Spec.Codec<S>, dirSync: bool, s: Spec.State<S>, settings: S, pc: nat)
    requires Disks.WellFormed(s.disk) && pc < Spec.LAST_STEP && s.job == Some(Spec.Job(settings, pc))
    ensures var end := Undisturbed(k, dirSync, s, Spec.LAST_STEP - pc);
      end.disk == SaveFrom(s.disk, k.render(settings), pc, dirSync) && end.job.None? && end.completed == Some(settings)
    decreases Spec.LAST_STEP - pc
  {
    Unroll(s.disk, k.render(settings), pc, dirSync);
    if pc + 1 < Spec.LAST_STEP {
      UndisturbedSave(k, dirSync, Spec.Step(k, dirSync, s, Spec.Next), settings, pc + 1);
    }
  }

  class AtomicSettingsWriter<S> {
    const codec: Spec.Codec<S>
    const dirSync: bool
    var disk: Disks.Disk

    constructor (codec: Spec.Codec<S>, dirSync: bool, disk: Disks.Disk)
      ensures this.codec == codec && this.dirSync == dirSync && this.disk == disk
    {
      this.codec, this.dirSync, this.disk := codec, dirSync, disk;
    }

    method Save(settings: S)
      requires Disks.WellFormed(disk)
      modifies this`disk
      ensures Disks.WellFormed(disk)
      ensures disk == SaveFrom(old(disk), codec.render(settings), 0, dirSync)
    {
      var data := codec.render(settings);
      ghost var start := disk;
      disk := Disks.OpenForWrite(disk, Disks.Tmp);
      Unroll(start, data, 0, dirSync);
      ghost var written := disk;
      disk := Disks.Write(disk, Disks.Tmp, data);
      Unroll(written, data, 1, dirSync);
      ghost var synced := disk;
      disk := Disks.SyncFile(disk, Disks.Tmp);
      Unroll(synced, data, 2, dirSync);
      ghost var unsaved := disk;
      BackUp(data);
      Unroll(unsaved, data, 3, dirSync);
      Unroll(Spec.SaveStep(unsaved, data, 3, dirSync), data, 4, dirSync);
      ghost var renamed := disk;
      disk := Disks.Rename(disk, Disks.Tmp, Disks.Main);
      Unroll(renamed, data, 5, dirSync);
      Unroll(disk, data, 6, dirSync);
      disk := Disks.SyncDir(disk, dirSync);
    }

    /** Copies the current good file before it is replaced. */
    method BackUp(ghost data: string)
      requires Disks.WellFormed(disk)
      modifies this`disk
      ensures Disks.WellFormed(disk)
      ensures disk == Spec.SaveStep(Spec.SaveStep(old(disk), data, 3, dirSync), data, 4, dirSync)
    {
      if Disks.Contents(disk, Disks.Main).Some? {
        disk := Disks.OpenForWrite(disk, Disks.Backup);
        var copied := Disks.Contents(disk, Disks.Main).value;
        disk := Disks.Write(disk, Disks.Backup, copied);
      }
    }

    method TryLoad(name: Disks.Name) returns (r: Option<S>)
      requires Disks.WellFormed(disk)
      ensures r == Spec.TryLoad(codec, disk, name)
    {
      var raw := Disks.Contents(disk, name);
      if raw.None? {
        return None;
      }
      r := codec.parse(raw.value);
    }

    method Load() returns (settings: S)
      requires Disks.WellFormed(disk)
      ensures settings == Spec.Load(codec, disk)
    {
      var candidates := [Disks.Main, Disks.Backup];
      var i := 0;
      while i < |candidates|
        invariant 0 <= i <= |candidates|
        invariant forall j :: 0 <= j < i ==> Spec.TryLoad(codec, disk, candidates[j]).None?
      {
        var loaded := TryLoad(candidates[i]);
        if loaded.Some? {
          assert i == 0 || Spec.TryLoad(codec, disk, candidates[0]).None?;
          return loaded.value;
        }
        i := i + 1;
      }
      assert Spec.TryLoad(codec, disk, candidates[0]).None? && Spec.TryLoad(codec, disk, candidates[1]).None?;
      settings := codec.default;
    }
  }
}
