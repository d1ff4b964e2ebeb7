/** The backup: what a save puts into it, and when a load takes it. */
module SettingsBackup {
  import opened Wrappers
  import opened SettingsDisk
  import opened SettingsProtocol
  import opened SettingsSafety
  import opened SettingsWriter

  /** Main if it parses; else the backup if that parses; else the defaults. */
  lemma LoadByContents<S>(k: Codec<S>, d: Disk, v: S)
    requires WellFormed(d)
    ensures Parses(k, d, Main, v) ==> Load(k, d) == v
    ensures !Readable(k, d, Main) && Parses(k, d, Backup, v) ==> Load(k, d) == v
    ensures !Readable(k, d, Main) && !Readable(k, d, Backup) ==> Load(k, d) == k.default
  {
  }

  /** The file exists and holds these settings. */
  predicate Parses<S(==)>(k: Codec<S>, d: Disk, name: Name, v: S)
    requires WellFormed(d)
  {
    Contents(d, name).Some? && k.parse(Contents(d, name).value) == Some(v)
  }

  /** The file exists and holds some settings. */
  predicate Readable<S>(k: Codec<S>, d: Disk, name: Name)
    requires WellFormed(d)
  {
    Contents(d, name).Some? && k.parse(Contents(d, name).value).Some?
  }

  /** A process crash during the write of the temporary file or of the backup leaves what was written of it there;
      any other moment leaves every file as it is. */
  lemma CrashCutsTheWriteShort<S>(k: Codec<S>, dirSync: bool, s: State<S>, partial: string, name: Name)
    requires WellFormed(s.disk) && Apart(Current(s.disk)) && s.job.Some? && s.job.value.pc < LAST_STEP
    requires s.job.value.pc == 1 ==> Tmp in Current(s.disk)
    requires s.job.value.pc == 4 && Main in Current(s.disk) ==> Backup in Current(s.disk)
    ensures var s' := Step(k, dirSync, s, ProcessCrash(partial));
      && s'.job == None
      && (s.job.value.pc == 1 && name == Tmp ==> Contents(s'.disk, name) == Some(partial))
      && (s.job.value.pc == 4 && name == Backup && Contents(s.disk, Main).Some? ==>
          Contents(s'.disk, name) == Some(partial))
      && (s.job.value.pc != 1 && s.job.value.pc != 4 ==> Contents(s'.disk, name) == Contents(s.disk, name))
      && (name == Main || (s.job.value.pc == 1 && name == Backup) || (s.job.value.pc == 4 && name == Tmp)
          || (s.job.value.pc == 4 && Contents(s.disk, Main).None?) ==>
          Contents(s'.disk, name) == Contents(s.disk, name))
  {
    if s.job.value.pc == 1 {
      WriteContents(s.disk, Tmp, partial, name);
    } else if s.job.value.pc == 4 && Main in Current(s.disk) {
      WriteContents(s.disk, Backup, partial, name);
    }
  }

  /** What a power loss leaves is on the disk: losing power again changes nothing. */
  lemma SecondPowerLossIsIdle(d: Disk, survivor: nat, junk: map<Inode, string>, junk': map<Inode, string>)
    requires WellFormed(d) && survivor < |d.dirs|
    ensures var d' := PowerLoss(d, survivor, junk);
      PowerLoss(d', 0, junk') == d'
  {
    var d' := PowerLoss(d, survivor, junk);
    assert PowerLoss(d', 0, junk').files == d'.files;
  }

  // ---- what each system call does to the three files ----

  lemma OpenContents(d: Disk, name: Name, other: Name)
    requires WellFormed(d) && Apart(Current(d))
    ensures var d' := OpenForWrite(d, name);
      && Apart(Current(d')) && Contents(d', name) == Some("")
      && (other != name ==> Contents(d', other) == Contents(d, other))
  {
    EntryValues(Current(d), {}, name, d.next);
    EntryValues(Current(d), {}, other, d.next);
    assert Current(d).Values <= d.files.Keys;
    var d' := OpenForWrite(d, name);
    forall a | a in Current(d) ensures Current(d)[a] in d.files {
      assert Current(d)[a] in Current(d).Values;
    }
  }

  lemma WriteContents(d: Disk, name: Name, data: string, other: Name)
    requires WellFormed(d) && Apart(Current(d)) && name in Current(d)
    ensures var d' := Write(d, name, data);
      && Current(d') == Current(d) && Contents(d', name) == Some(data)
      && (other != name ==> Contents(d', other) == Contents(d, other))
  {
    EntryValues(Current(d), {}, name, 0);
    EntryValues(Current(d), {}, other, 0);
  }

  lemma SyncContents(d: Disk, name: Name, other: Name)
    requires WellFormed(d) && Apart(Current(d)) && name in Current(d)
    ensures Current(SyncFile(d, name)) == Current(d) && Contents(SyncFile(d, name), other) == Contents(d, other)
  {
    EntryValues(Current(d), {}, name, 0);
    EntryValues(Current(d), {}, other, 0);
  }

  lemma RenameContents(d: Disk)
    requires WellFormed(d) && Apart(Current(d)) && Tmp in Current(d)
    ensures var d' := Rename(d, Tmp, Main);
      && Apart(Current(d')) && Contents(d', Main) == Contents(d, Tmp)
      && Contents(d', Backup) == Contents(d, Backup) && Contents(d', Tmp) == None
  {
    assert Current(Rename(d, Tmp, Main)) == (Current(d) - {Tmp})[Main := Current(d)[Tmp]];
  }

  /** The temporary file is complete on disk; the other two are as they were. */
  lemma TmpWritten(d: Disk, data: string) returns (d': Disk)
    requires WellFormed(d) && Apart(Current(d))
    ensures d' == SyncFile(Write(OpenForWrite(d, Tmp), Tmp, data), Tmp)
    ensures Apart(Current(d')) && Contents(d', Tmp) == Some(data)
    ensures Contents(d', Main) == Contents(d, Main) && Contents(d', Backup) == Contents(d, Backup)
  {
    var truncated := OpenForWrite(d, Tmp);
    OpenContents(d, Tmp, Main);
    OpenContents(d, Tmp, Backup);
    var written := Write(truncated, Tmp, data);
    WriteContents(truncated, Tmp, data, Main);
    WriteContents(truncated, Tmp, data, Backup);
    SyncContents(written, Tmp, Tmp);
    SyncContents(written, Tmp, Main);
    SyncContents(written, Tmp, Backup);
    d' := SyncFile(written, Tmp);
  }

  lemma BackedUp(d: Disk, data: string, dirSync: bool) returns (d': Disk)
    requires WellFormed(d) && Apart(Current(d)) && Contents(d, Tmp).Some?
    ensures d' == SaveStep(SaveStep(d, data, 3, dirSync), data, 4, dirSync)
    ensures Apart(Current(d')) && Contents(d', Tmp) == Contents(d, Tmp) && Contents(d', Main) == Contents(d, Main)
    ensures Contents(d', Backup) == if Contents(d, Main).Some? then Contents(d, Main) else Contents(d, Backup)
  {
    d' := d;
    if Main in Current(d) {
      var truncated := OpenForWrite(d, Backup);
      OpenContents(d, Backup, Main);
      OpenContents(d, Backup, Tmp);
      WriteContents(truncated, Backup, Contents(d, Main).value, Main);
      WriteContents(truncated, Backup, Contents(d, Main).value, Tmp);
      d' := Write(truncated, Backup, Contents(d, Main).value);
    }
  }

  /** A save leaves the new settings in main, what main held before in the backup, and no temporary file. */
  lemma SaveKeepsPrevious(d: Disk, data: string, dirSync: bool)
    requires WellFormed(d) && Apart(Current(d))
    ensures var d' := SaveFrom(d, data, 0, dirSync);
      && Apart(Current(d'))
      && Contents(d', Main) == Some(data) && Contents(d', Tmp) == None
      && Contents(d', Backup) == if Contents(d, Main).Some? then Contents(d, Main) else Contents(d, Backup)
  {
    var synced := TmpWritten(d, data);
    Unroll(d, data, 0, dirSync);
    Unroll(OpenForWrite(d, Tmp), data, 1, dirSync);
    Unroll(Write(OpenForWrite(d, Tmp), Tmp, data), data, 2, dirSync);
    var copied := BackedUp(synced, data, dirSync);
    Unroll(synced, data, 3, dirSync);
    Unroll(SaveStep(synced, data, 3, dirSync), data, 4, dirSync);
    RenameContents(copied);
    Unroll(copied, data, 5, dirSync);
    Unroll(Rename(copied, Tmp, Main), data, 6, dirSync);
  }

  // ---- recovery ----

  /** Whatever the history, if main is damaged after a save, the load returns what loaded before that save; and the
      defaults only if the backup is damaged as well. */
  lemma DamagedMainFallsBack<S(!new)>(k: Codec<S>, dirSync: bool, es: seq<Event<S>>, settings: S, junk: string,
                                      more: string)
    requires Faithful(k) && k.parse(junk) == None && k.parse(more) == None
    requires Main in Current(Run(k, dirSync, es).disk)
    ensures var before := Run(k, dirSync, es).disk;
      var saved := SaveFrom(before, k.render(settings), 0, dirSync);
      && Load(k, saved) == settings
      && Load(k, Write(saved, Main, junk)) == Load(k, before)
      && Load(k, Write(Write(saved, Main, junk), Backup, more)) == k.default
  {
    var s := Run(k, dirSync, es);
    var last := |s.disk.dirs| - 1;
    RunKeepsInv(k, dirSync, es);
    assert Apart(s.disk.dirs[last]) && MainHolds(k, s.disk, last, Allowed(s));
    var saved := SaveFrom(s.disk, k.render(settings), 0, dirSync);
    SaveKeepsPrevious(s.disk, k.render(settings), dirSync);
    var j :| 0 <= j < |Allowed(s)| && FileAt(s.disk, last, Main).content == k.render(Allowed(s)[j]);
    assert k.parse(k.render(Allowed(s)[j])) == Some(Allowed(s)[j]);
    assert k.parse(k.render(settings)) == Some(settings);
    WriteContents(saved, Main, junk, Backup);
    WriteContents(Write(saved, Main, junk), Backup, more, Main);
  }

  /** The first two saves: the second one is loaded, the first one again when main is damaged. */
  lemma SecondSaveBacksUpFirst<S(!new)>(k: Codec<S>, dirSync: bool, a: S, b: S, junk: string)
    requires Faithful(k) && k.parse(junk) == None
    ensures var first := SaveFrom(Fresh<S>().disk, k.render(a), 0, dirSync);
      var second := SaveFrom(first, k.render(b), 0, dirSync);
      && Load(k, first) == a && Load(k, second) == b && Load(k, Write(second, Main, junk)) == a
  {
    var first := SaveFrom(Fresh<S>().disk, k.render(a), 0, dirSync);
    var second := SaveFrom(first, k.render(b), 0, dirSync);
    assert k.parse(k.render(a)) == Some(a) && k.parse(k.render(b)) == Some(b);
    SaveKeepsPrevious(Fresh<S>().disk, k.render(a), dirSync);
    SaveKeepsPrevious(first, k.render(b), dirSync);
    WriteContents(second, Main, junk, Backup);
  }
}
