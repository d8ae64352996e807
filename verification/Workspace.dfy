/** The file-changing tools of the agent (internal/agent/tools.go) over a map from resolved paths to
    contents: what each does, and what its capture records for undo. */
module Workspace {
  import opened Common
  import Editing

  datatype ToolKind = ReadOnly | WriteFile | EditFile | MultiEdit | DeleteFile | MoveFile
                    | External  // bash and MCP tools: no capture

  /** The decoded arguments of a call; a field the call does not carry is empty. */
  datatype Args = Args(path: string, content: string, edit: Editing.Edit, edits: seq<Editing.Edit>,
                       from: string, to: string)

  /** What the operating system does to a change: nothing wrong, refusal before anything changed, or
      a write that stopped with some other content in the file. */
  datatype Fault = NoFault | Refused | Torn(content: string)

  /** Sandbox.Resolve. */
  type Resolver = string -> Option<string>

  function Write(files: Files, p: string, content: string, fault: Fault): (Files, bool) {
    match fault
    case NoFault => (files[p := content], true)
    case Refused => (files, false)
    case Torn(part) => (files[p := part], false)
  }

  /** The Run body of a file tool: the new files, and whether it succeeded. */
  function RunFileTool(resolve: Resolver, kind: ToolKind, a: Args, files: Files, fault: Fault): (Files, bool)
    requires !kind.ReadOnly? && !kind.External?
  {
    if kind.MoveFile? then
      var from, to := resolve(a.from), resolve(a.to);
      if from.None? || to.None? || from.value !in files || !fault.NoFault? then (files, false)
      else (Renamed(files, from.value, to.value), true)
    else match resolve(a.path)
      case None => (files, false)
      case Some(p) =>
        if kind.WriteFile? then Write(files, p, a.content, fault)
        else if p !in files then (files, false)
        else if kind.DeleteFile? then
          if fault.NoFault? then (files - {p}, true) else (files, false)
        else
          match (if kind.EditFile? then Editing.EditFile(files[p], a.edit) else Editing.MultiEdit(files[p], a.edits))
          case Ok(body) => Write(files, p, body, fault)
          case Err(_) => (files, false)
  }

  /** What a capture closes over. */
  datatype Restore =
    | RestoreFile(path: string, prior: Option<string>)  // prior bytes, or None if there was no file
    | RenameBack(moved: string, original: string)

  function Lookup(files: Files, p: string): Option<string> {
    if p in files then Some(files[p]) else None
  }

  function Capture(resolve: Resolver, kind: ToolKind, a: Args, files: Files): Option<Restore> {
    match kind
    case ReadOnly => None
    case External => None
    case MoveFile =>
      var from, to := resolve(a.from), resolve(a.to);
      if from.None? || to.None? then None else Some(RenameBack(to.value, from.value))
    case _ =>
      match resolve(a.path)
      case None => None
      case Some(p) => Some(RestoreFile(p, Lookup(files, p)))
  }

  /** The restore closure: the files afterwards, and whether it reported success. */
  function Revert(files: Files, r: Restore): (Files, bool) {
    match r
    case RestoreFile(p, None) => if p in files then (files - {p}, true) else (files, false)
    case RestoreFile(p, Some(prior)) => (files[p := prior], true)
    case RenameBack(moved, original) =>
      if moved in files then (Renamed(files, moved, original), true) else (files, false)
  }

  /** A move can be undone only onto a free destination: the undo renames back whatever it finds. */
  predicate Reversible(resolve: Resolver, kind: ToolKind, a: Args, files: Files) {
    kind.MoveFile? && resolve(a.from).Some? && resolve(a.to).Some? ==>
      resolve(a.to).value !in files || resolve(a.from).value == resolve(a.to).value
  }

  /** Outside the captured path, nothing changes. */
  lemma FileToolTouchesOnePath(resolve: Resolver, kind: ToolKind, a: Args, files: Files, fault: Fault)
    requires !kind.ReadOnly? && !kind.External? && !kind.MoveFile?
    ensures var after := RunFileTool(resolve, kind, a, files, fault).0;
      match resolve(a.path)
      case None => after == files
      case Some(p) => after - {p} == files - {p}
  {
  }

  /** Undo inverts execution exactly: whatever a file tool did, success or failure, the captured
      restore brings every file back, except after a move onto an existing other file; and then it
      never does. */
  lemma RevertInvertsRun(resolve: Resolver, kind: ToolKind, a: Args, files: Files, fault: Fault)
    requires !kind.ReadOnly? && !kind.External?
    ensures var after := RunFileTool(resolve, kind, a, files, fault).0;
      match Capture(resolve, kind, a, files)
      case None => after == files
      case Some(r) => Revert(after, r).0 == files <==> Reversible(resolve, kind, a, files)
  {
    var after := RunFileTool(resolve, kind, a, files, fault).0;
    if kind.MoveFile? {
      if resolve(a.from).Some? && resolve(a.to).Some? {
        MoveCase(resolve, a, files, fault);
      }
    } else {
      FileToolTouchesOnePath(resolve, kind, a, files, fault);
      match resolve(a.path)
      case None =>
      case Some(p) =>
        var back := Revert(after, RestoreFile(p, Lookup(files, p))).0;
        assert forall q :: q != p ==> (q in after <==> q in after - {p}) && (q in files <==> q in files - {p});
        assert forall q :: q in after && q != p ==> q in files && after[q] == (after - {p})[q] == (files - {p})[q] == files[q];
        assert forall q :: q in files && q != p ==> q in after;
        assert back == files;
    }
  }

  lemma MoveCase(resolve: Resolver, a: Args, files: Files, fault: Fault)
    requires resolve(a.from).Some? && resolve(a.to).Some?
    ensures var after := RunFileTool(resolve, MoveFile, a, files, fault).0;
      Revert(after, RenameBack(resolve(a.to).value, resolve(a.from).value)).0 == files <==>
      Reversible(resolve, MoveFile, a, files)
  {
    var from, to := resolve(a.from).value, resolve(a.to).value;
    var after := RunFileTool(resolve, MoveFile, a, files, fault).0;
    var back := Revert(after, RenameBack(to, from)).0;
    if from != to && to in files {
      assert to !in back;
    } else if from != to && from in after && to !in after {
      assert after == files;
    } else if from != to && to in after {
      assert back.Keys == files.Keys;
      assert back == files;
    }
  }

  /** A concrete move that undo does not invert: onto an existing file, whose contents are lost. */
  lemma MoveOntoExample(a: Args)
    requires a.from == "a" && a.to == "b"
    ensures var resolve: Resolver := p => Some(p);
      var files := map["a" := "x", "b" := "y"];
      var after := RunFileTool(resolve, MoveFile, a, files, NoFault).0;
      after == map["b" := "x"]
      && Capture(resolve, MoveFile, a, files) == Some(RenameBack("b", "a"))
      && Revert(after, RenameBack("b", "a")).0 == map["a" := "x"] != files
  {
    var files := map["a" := "x", "b" := "y"];
    assert "b" in files && "b" !in map["a" := "x"];
    assert (files - {"a"})["b" := "x"] == map["b" := "x"];
    assert (map["b" := "x"] - {"b"})["a" := "x"] == map["a" := "x"];
  }
}
