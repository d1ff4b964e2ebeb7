/** Saving settings with a crash possible between any two steps. */
module SettingsProtocol {
  import opened Wrappers
  import opened SettingsDisk

  /** Serialisation, and parsing with migration and validation. */
  datatype Codec<!S> = Codec(render: S -> string, parse: string -> Option<S>, default: S)

  ghost predicate Faithful<S(!new)>(k: Codec<S>) {
    forall s :: k.parse(k.render(s)) == Some(s)
  }

  // ---- save, one system call at a time ----

  const LAST_STEP: nat := 7

  function SaveStep(d: Disk, data: string, pc: nat, dirSync: bool): (r: Disk)
    requires WellFormed(d)
    ensures WellFormed(r)
  {
    match pc
    case 0 => OpenForWrite(d, Tmp)
    case 1 => Write(d, Tmp, data)
    case 2 => SyncFile(d, Tmp)
    case 3 => if Main in Current(d) then OpenForWrite(d, Backup) else d
    case 4 => if Main in Current(d) then Write(d, Backup, Contents(d, Main).value) else d
    case 5 => Rename(d, Tmp, Main)
    case 6 => SyncDir(d, dirSync)
    case _ => d
  }

  // ---- load ----

  function TryLoad<S>(k: Codec<S>, d: Disk, name: Name): Option<S>
    requires WellFormed(d)
  {
    var raw := Contents(d, name);
    if raw.None? then None else k.parse(raw.value)
  }

  function Load<S>(k: Codec<S>, d: Disk): S
    requires WellFormed(d)
  {
    var main := TryLoad(k, d, Main);
    var backup := TryLoad(k, d, Backup);
    if main.Some? then main.value else if backup.Some? then backup.value else k.default
  }

  // ---- runs with crashes ----

  datatype Job<+S> = Job(settings: S, pc: nat)

  /** `completed` is the last save that returned; `begun` are the saves started since. */
  datatype State<+S> = State(disk: Disk, job: Option<Job<S>>, completed: Option<S>, begun: seq<S>)

  datatype Event<+S> =
    | Begin(settings: S)
    | Next
    | ProcessCrash(partial: string)                        // a write may have been cut short
    | PowerLossEvent(survivor: nat, junk: map<Inode, string>)

  /** The write that a crash cuts short leaves part of its data. */
  function CutShort<S>(s: State<S>, partial: string): (r: Disk)
    requires WellFormed(s.disk)
    ensures WellFormed(r)
  {
    if s.job.Some? && s.job.value.pc == 1 then Write(s.disk, Tmp, partial)
    else if s.job.Some? && s.job.value.pc == 4 && Main in Current(s.disk) then Write(s.disk, Backup, partial)
    else s.disk
  }

  function Step<S>(k: Codec<S>, dirSync: bool, s: State<S>, e: Event<S>): (s': State<S>)
    requires WellFormed(s.disk)
    ensures WellFormed(s'.disk)
  {
    match e
    case Begin(settings) =>
      if s.job.Some? then s else s.(job := Some(Job(settings, 0)), begun := s.begun + [settings])
    case Next =>
      if s.job.None? then s
      else
        var disk := SaveStep(s.disk, k.render(s.job.value.settings), s.job.value.pc, dirSync);
        if s.job.value.pc + 1 < LAST_STEP then s.(disk := disk, job := Some(s.job.value.(pc := s.job.value.pc + 1)))
        else State(disk, None, Some(s.job.value.settings), if dirSync then [] else s.begun)
    case ProcessCrash(partial) => s.(disk := CutShort(s, partial), job := None)
    case PowerLossEvent(survivor, junk) =>
      if survivor < |s.disk.dirs| then s.(disk := PowerLoss(s.disk, survivor, junk), job := None) else s
  }

  /** Nothing has been saved yet. */
  function Fresh<S>(): (s: State<S>)
    ensures WellFormed(s.disk)
  {
    State(Disk(map[], [map[]], 0), None, None, [])
  }

  ghost function Run<S>(k: Codec<S>, dirSync: bool, es: seq<Event<S>>): (s: State<S>)
    ensures WellFormed(s.disk)
  {
    if es == [] then Fresh()
    else Step(k, dirSync, Run(k, dirSync, es[..|es| - 1]), es[|es| - 1])
  }
}
