/** The file store (internal/store/store.go): a snapshot is written to a temporary file that is
    then renamed over the state file. */
module Store {
  import opened Common

  type Spend = map<string, int>

  /** The JSON encoding, left abstract: what is marshalled parses back. */
  datatype Codec = Codec(marshal: Spend -> string, parse: string -> Option<Spend>)

  ghost predicate Lawful(c: Codec) {
    forall s: Spend :: c.parse(c.marshal(s)) == Some(s)
  }

  const EMPTY: Spend := map[]

  /** What Load returns: a snapshot, empty if there is an error. */
  datatype Loaded = Loaded(spend: Spend, failed: bool)

  /** File.Load over a directory: a missing file is a first run. */
  function LoadFrom(c: Codec, files: Files, path: string): Loaded {
    if path !in files then Loaded(EMPTY, false)
    else match c.parse(files[path])
      case Some(s) => Loaded(s, false)
      case None => Loaded(EMPTY, true)
  }

  function TempOf(path: string): string { path + ".tmp" }

  /** The directory contents that exist, one after the other, while `data` is written to a file:
      the file is truncated and then grows. */
  function WriteStates(files: Files, path: string, data: string): seq<Files> {
    seq(|data| + 1, i requires 0 <= i <= |data| => files[path := data[..i]])
  }

  /** Every directory content a crash can leave behind during File.Save of marshalled `data`. */
  function SaveStates(files: Files, path: string, data: string): seq<Files> {
    var temp := TempOf(path);
    WriteStates(files, temp, data) + [Renamed(files[temp := data], temp, path)]
  }

  /** At whatever point a crash stops File.Save, loading gives what it gave before or the new
      snapshot; and it gives the new one exactly when the rename was reached. */
  lemma CrashLeavesOldOrNew(c: Codec, files: Files, path: string, s: Spend, i: nat)
    requires Lawful(c) && i < |SaveStates(files, path, c.marshal(s))|
    ensures var states := SaveStates(files, path, c.marshal(s));
      LoadFrom(c, states[i], path) == if i == |states| - 1 then Loaded(s, false) else LoadFrom(c, files, path)
  {
    var temp := TempOf(path);
    assert |temp| != |path|;
  }

  /** What the operating system does to a save: nothing wrong; no file could be opened; the write
      stopped after some bytes; or the rename was refused. */
  datatype Fault = NoFault | OpenRefused | WriteStopped(after: nat) | RenameRefused

  /** How many of the states of a save are reached. */
  function Reached(fault: Fault, data: string): nat {
    match fault
    case NoFault => |data| + 2
    case OpenRefused => 0
    case WriteStopped(n) => (if n < |data| then n else |data|) + 1
    case RenameRefused => |data| + 1
  }

  /** A directory with the history of the contents it went through. */
  class Disk {
    var files: Files
    ghost var past: seq<Files>

    constructor (files: Files)
      ensures this.files == files && past == []
    {
      this.files, past := files, [];
    }

    method WriteFile(path: string, data: string, fault: Fault) returns (ok: bool)
      modifies this
      ensures ok == (fault.NoFault? || fault.RenameRefused?) && (ok ==> files == old(files)[path := data])
      ensures var n := if ok then |data| + 1 else Reached(fault, data);
        && past == old(past) + WriteStates(old(files), path, data)[..n]
        && files == if n == 0 then old(files) else WriteStates(old(files), path, data)[n - 1]
    {
      ok := fault.NoFault? || fault.RenameRefused?;
      if fault.OpenRefused? {
        return;
      }
      var size := if fault.WriteStopped? && fault.after < |data| then fault.after else |data|;
      files := files[path := ""];
      past := past + [files];
      for i := 0 to size
        invariant files == old(files)[path := data[..i]]
        invariant past == old(past) + WriteStates(old(files), path, data)[..i + 1]
      {
        files := files[path := data[..i + 1]];
        past := past + [files];
      }
      assert data[..|data|] == data;
    }

    method Rename(from: string, to: string, fault: Fault) returns (ok: bool)
      requires from in files
      modifies this
      ensures ok == !fault.RenameRefused?
      ensures if ok then files == Renamed(old(files), from, to) && past == old(past) + [files]
              else files == old(files) && past == old(past)
    {
      if fault.RenameRefused? {
        return false;
      }
      var data := files[from];
      files := files - {from};
      files := files[to := data];
      past := past + [files];
      return true;
    }
  }

  class File {
    const path: string
    const codec: Codec
    const disk: Disk

    constructor (path: string, codec: Codec, disk: Disk)
      ensures this.path == path && this.codec == codec && this.disk == disk
    {
      this.path, this.codec, this.disk := path, codec, disk;
    }

    method Load() returns (r: Loaded)
      ensures r == LoadFrom(codec, disk.files, path)
      ensures path !in disk.files ==> r.spend == map[] && !r.failed
      ensures path in disk.files ==> match codec.parse(disk.files[path])
        case Some(s) => r.spend == s && !r.failed
        case None => r.spend == map[] && r.failed
    {
      if path !in disk.files {
        return Loaded(EMPTY, false);
      }
      var parsed := codec.parse(disk.files[path]);
      match parsed
      case Some(s) => r := Loaded(s, false);
      case None => r := Loaded(EMPTY, true);
    }

    /** After success the snapshot is loaded, after an error what was loaded before; and at every
        moment in between the one or the other. */
    method Save(s: Spend, fault: Fault) returns (ok: bool)
      requires Lawful(codec)
      modifies disk
      ensures ok == fault.NoFault?
      ensures disk.past
           == old(disk.past) + SaveStates(old(disk.files), path, codec.marshal(s))[..Reached(fault, codec.marshal(s))]
      ensures LoadFrom(codec, disk.files, path)
           == if ok then Loaded(s, false) else LoadFrom(codec, old(disk.files), path)
      ensures forall i :: |old(disk.past)| <= i < |disk.past| ==>
        LoadFrom(codec, disk.past[i], path)
        == if ok && i == |disk.past| - 1 then Loaded(s, false) else LoadFrom(codec, old(disk.files), path)
    {
      var data := codec.marshal(s);
      var temp := path + ".tmp";
      ghost var states := SaveStates(old(disk.files), path, data);
      forall i | 0 <= i < |states|
        ensures LoadFrom(codec, states[i], path)
             == if i == |states| - 1 then Loaded(s, false) else LoadFrom(codec, old(disk.files), path)
      {
        CrashLeavesOldOrNew(codec, old(disk.files), path, s, i);
      }
      ok := disk.WriteFile(temp, data, fault);
      assert states[..|data| + 1] == WriteStates(old(disk.files), temp, data);
      if ok {
        assert disk.files == states[|data|];
        ok := disk.Rename(temp, path, fault);
        assert states == states[..|data| + 1] + [states[|data| + 1]];
      } else {
        assert states[..Reached(fault, data)] == states[..|data| + 1][..Reached(fault, data)];
      }
    }
  }
}
