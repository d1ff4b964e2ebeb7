/** A directory with three files on a disk that can lose power. */
module SettingsDisk {
  import opened Wrappers

  type Inode = nat

  datatype Name = Main | Backup | Tmp

  /** `synced`: the content is on the platter, not only in the cache. */
  datatype File = File(content: string, synced: bool)

  type Directory = map<Name, Inode>

  /** `dirs` are the directories a power loss may leave: the last one synced and
      every version since, ending with the current one. A rename replaces a
      directory entry atomically (IEEE Std 1003.1, rename()). */
  datatype Disk = Disk(files: map<Inode, File>, dirs: seq<Directory>, next: Inode)

  function Current(d: Disk): Directory
    requires d.dirs != []
  {
    d.dirs[|d.dirs| - 1]
  }

  predicate WellFormed(d: Disk) {
    && d.dirs != []
    && (forall i :: 0 <= i < |d.dirs| ==> d.dirs[i].Values <= d.files.Keys)
    && (forall n :: n in d.files ==> n < d.next)
  }

  function FileAt(d: Disk, i: nat, name: Name): File
    requires WellFormed(d) && i < |d.dirs| && name in d.dirs[i]
  {
    assert d.dirs[i][name] in d.dirs[i].Values;
    d.files[d.dirs[i][name]]
  }

  function Contents(d: Disk, name: Name): Option<string>
    requires WellFormed(d)
  {
    if name in Current(d) then Some(d.files[Current(d)[name]].content) else None
  }

  lemma EntryValues(dir: Directory, removed: set<Name>, name: Name, n: Inode)
    ensures (dir - removed)[name := n].Values <= dir.Values + {n}
    ensures name in dir ==> dir[name] in dir.Values
  {
    var dir' := (dir - removed)[name := n];
    forall v | v in dir'.Values ensures v in dir.Values + {n} {
      var m :| m in dir' && dir'[m] == v;
      assert m == name || (m in dir && dir[m] == v);
    }
  }

  /** open(name, "w"): an existing file is truncated in place. */
  function OpenForWrite(d: Disk, name: Name): (r: Disk)
    requires WellFormed(d)
    ensures WellFormed(r)
  {
    EntryValues(Current(d), {}, name, d.next);
    assert Current(d)[name := d.next] == (Current(d) - {})[name := d.next];
    if name in Current(d) then d.(files := d.files[Current(d)[name] := File("", false)])
    else Disk(d.files[d.next := File("", false)], d.dirs + [Current(d)[name := d.next]], d.next + 1)
  }

  function Write(d: Disk, name: Name, data: string): (r: Disk)
    requires WellFormed(d)
    ensures WellFormed(r)
  {
    EntryValues(Current(d), {}, name, 0);
    if name in Current(d) then d.(files := d.files[Current(d)[name] := File(data, false)]) else d
  }

  function SyncFile(d: Disk, name: Name): (r: Disk)
    requires WellFormed(d)
    ensures WellFormed(r)
  {
    EntryValues(Current(d), {}, name, 0);
    if name !in Current(d) then d
    else d.(files := d.files[Current(d)[name] := d.files[Current(d)[name]].(synced := true)])
  }

  function Rename(d: Disk, from: Name, to: Name): (r: Disk)
    requires WellFormed(d)
    ensures WellFormed(r)
  {
    if from in Current(d) then
      EntryValues(Current(d), {from}, to, Current(d)[from]);
      EntryValues(Current(d), {}, from, 0);
      d.(dirs := d.dirs + [(Current(d) - {from})[to := Current(d)[from]]])
    else d
  }

  /** `works` is false where a directory cannot be synced; the error is swallowed. */
  function SyncDir(d: Disk, works: bool): (r: Disk)
    requires WellFormed(d)
    ensures WellFormed(r)
  {
    if works then d.(dirs := [Current(d)]) else d
  }

  /** One of the possible directories survives; unsynced contents become anything. */
  function PowerLoss(d: Disk, survivor: nat, junk: map<Inode, string>): (r: Disk)
    requires WellFormed(d) && survivor < |d.dirs|
    ensures WellFormed(r)
  {
    Disk(map n | n in d.files ::
           (if d.files[n].synced || n !in junk then File(d.files[n].content, true) else File(junk[n], true)),
         [d.dirs[survivor]], d.next)
  }
}
