/** The file system the commands act on, as a map from names to contents and
    status-change times, and `TimeCreationOfFile`, which reads such a time
    back. */
module Files {
  import opened Text
  import opened Wrappers

  /** Seconds since the Unix epoch. */
  type Time = int

  /** Go's zero `time.Time{}` (January 1 of year 1, UTC), in Unix seconds. */
  const ZeroTime: Time := -62135596800

  /** A file's contents and the inode status-change time (`st_ctim`). */
  datatype FileInfo = FileInfo(text: string, ctime: Time)

  type FileSystem = map<string, FileInfo>

  /** `runtime.GOOS`: the only values the source distinguishes. */
  datatype Platform = Linux | Darwin | OtherOS(name: string)

  function OsName(p: Platform): string {
    match p
    case Linux => "linux"
    case Darwin => "darwin"
    case OtherOS(name) => name
  }

  /** `os.Create`: make an empty file or truncate an existing one. The empty
      name is the one name the model lets fail. */
  function CreateFile(fs: FileSystem, name: string, now: Time): (r: Option<FileSystem>)
    ensures r.Some? <==> name != ""
    ensures r.Some? ==> r.value == fs[name := FileInfo("", now)]
  {
    if name == "" then None else Some(fs[name := FileInfo("", now)])
  }

  /** `os.Rename`: move a file under a new name, replacing any file there. */
  function RenameFile(fs: FileSystem, from: string, to: string, now: Time): (r: Option<FileSystem>)
    ensures r.Some? <==> from in fs && to != ""
    ensures r.Some? && from != to ==>
      r.value.Keys == fs.Keys - {from} + {to} && r.value[to] == FileInfo(fs[from].text, now) &&
      forall n :: n in fs && n != from && n != to ==> r.value[n] == fs[n]
    ensures r.Some? && from == to ==> r.value == fs
  {
    if from !in fs || to == "" then None
    else if from == to then Some(fs)
    else Some((fs - {from})[to := fs[from].(ctime := now)])
  }

  /** `os.Remove` */
  function DeleteFile(fs: FileSystem, name: string): (r: Option<FileSystem>)
    ensures r.Some? <==> name in fs
    ensures r.Some? ==>
      r.value.Keys == fs.Keys - {name} && forall n :: n in r.value ==> r.value[n] == fs[n]
  {
    if name !in fs then None else Some(fs - {name})
  }

  /** `os.OpenFile(name, O_RDWR|O_APPEND)` then `WriteString(text)`: the
      file must exist; the text is appended. A write of no bytes changes
      nothing, its status-change time included. */
  function AppendText(fs: FileSystem, name: string, text: string, now: Time): (r: Option<FileSystem>)
    ensures r.Some? <==> name in fs
    ensures r.Some? ==>
      r.value.Keys == fs.Keys && r.value[name].text == fs[name].text + text &&
      forall n :: n in fs && n != name ==> r.value[n] == fs[n]
    ensures r.Some? ==> r.value[name].ctime == (if text == "" then fs[name].ctime else now)
  {
    if name !in fs then None
    else Some(fs[name := FileInfo(fs[name].text + text, if text == "" then fs[name].ctime else now)])
  }

  /** The message `TimeCreationOfFile` returns. */
  datatype StatMessage =
    | StatFailed(name: string, posParam: nat, posName: nat)
    | CreationTime(name: string, ctime: Time, os: string, posParam: nat, posName: nat)
    | NoCreationTime(os: string, name: string, posParam: nat, posName: nat)

  /** `TimeCreationOfFile`: the status-change time of a file and a message
      saying so; a file that cannot be stat'ed, or a platform other than
      linux, gives the zero time. */
  function TimeCreationOfFile(fs: FileSystem, platform: Platform, name: string,
                              posName: nat, posParam: nat): (r: (StatMessage, Time))
    ensures name !in fs ==> r == (StatFailed(name, posParam, posName), ZeroTime)
    ensures name in fs && platform == Linux ==>
      r == (CreationTime(name, fs[name].ctime, "linux", posParam, posName), fs[name].ctime)
    ensures name in fs && platform != Linux ==>
      r == (NoCreationTime(OsName(platform), name, posParam, posName), ZeroTime)
  {
    if name !in fs then (StatFailed(name, posParam, posName), ZeroTime)
    else
      match platform
      case Linux => (CreationTime(name, fs[name].ctime, "linux", posParam, posName), fs[name].ctime)
      case _ => (NoCreationTime(OsName(platform), name, posParam, posName), ZeroTime)
  }

  /** The `%e` rendering of the stat error, which the model does not spell out. */
  const ErrorPlaceholder := "<stat error>"

  /** The message as text, the form in which an `If` with no operator passes
      it on. Times are written as decimal Unix seconds. */
  function RenderStat(m: StatMessage): string {
    match m
    case StatFailed(name, pp, pn) =>
      "Can't extract time of file named " + name + " by " + NatText(pp) + " param " +
      NatText(pn) + " action + err: " + ErrorPlaceholder + "; "
    case CreationTime(name, t, os, pp, pn) =>
      "Time creation of file " + name + " is: " + IntText(t) + " at OS " + os + " by " +
      NatText(pp) + " param " + NatText(pn) + " action; "
    case NoCreationTime(os, name, pp, pn) =>
      "Unable to find file creation time at OS " + os + " of file named " + name + " by " +
      NatText(pp) + " param " + NatText(pn) + " action; "
  }

  /** A successful create, then a write, leaves the written text as the
      whole contents of the file. */
  lemma CreateThenWrite(fs: FileSystem, name: string, text: string, t1: Time, t2: Time)
    requires name != ""
    ensures CreateFile(fs, name, t1).Some?
    ensures AppendText(CreateFile(fs, name, t1).value, name, text, t2).Some?
    ensures AppendText(CreateFile(fs, name, t1).value, name, text, t2).value[name].text == text
  {
  }

  /** Writing no bytes into an existing file leaves the whole file system
      as it was. */
  lemma EmptyWriteKeeps(fs: FileSystem, name: string, now: Time)
    requires name in fs
    ensures AppendText(fs, name, "", now) == Some(fs)
  {
    var f := fs[name];
    assert FileInfo(f.text + "", f.ctime) == f;
    assert fs[name := f] == fs;
  }

  /** Renaming back restores the contents under the old name, with every
      other file untouched. */
  lemma RenameBack(fs: FileSystem, a: string, b: string, t1: Time, t2: Time)
    requires a in fs && b !in fs && a != b && a != "" && b != ""
    ensures RenameFile(fs, a, b, t1).Some?
    ensures RenameFile(RenameFile(fs, a, b, t1).value, b, a, t2).Some?
    ensures var back := RenameFile(RenameFile(fs, a, b, t1).value, b, a, t2).value;
      back.Keys == fs.Keys && back[a].text == fs[a].text &&
      forall n :: n in fs && n != a ==> back[n] == fs[n]
  {
    var mid := RenameFile(fs, a, b, t1).value;
    assert b in mid;
    var back := RenameFile(mid, b, a, t2).value;
    assert back.Keys == fs.Keys;
  }

  /** The time `Get` and `If` read back is the one the last create, rename or
      write of the file stamped (on linux). */
  lemma StatAfterCreate(fs: FileSystem, name: string, now: Time, posName: nat, posParam: nat)
    requires name != ""
    ensures TimeCreationOfFile(CreateFile(fs, name, now).value, Linux, name, posName, posParam).1 == now
  {
  }
}
