/** What a tool call does, told from the call, the world's answers and the files alone. */
module AgentEffects {
  import opened Common
  import opened Schema
  import opened Workspace
  import opened AgentModel
  import Editing

  // ---- the file tools ----

  /** A write of some content to a path under a fault. */
  predicate Wrote(files: Files, after: Files, p: string, content: string, fault: Fault, ok: bool) {
    match fault
    case NoFault => ok && after == files[p := content]
    case Refused => !ok && after == files
    case Torn(part) => !ok && after == files[p := part]
  }

  /** The contents of one path stand at another, and nothing else changed. */
  ghost predicate Moved(files: Files, after: Files, from: string, to: string) {
    && from in files && to in after && after[to] == files[from]
    && (from != to ==> from !in after)
    && (forall q :: q != from && q != to ==> (q in after <==> q in files))
    && (forall q :: q != from && q != to && q in files ==> after[q] == files[q])
  }

  predicate Unchanged(files: Files, after: Files, ok: bool) { !ok && after == files }

  predicate WroteEdit(files: Files, after: Files, p: string, r: Result<string>, fault: Fault, ok: bool) {
    if r.Err? then Unchanged(files, after, ok) else Wrote(files, after, p, r.value, fault, ok)
  }

  /** What a file tool left behind, and whether it reported success. */
  ghost predicate Did(w: World, n: nat, c: ToolCall, kind: ToolKind, files: Files, after: Files, ok: bool) {
    var a, fault := w.args(c.arguments), w.fault(n);
    match kind
    case WriteFile =>
      var p := w.resolve(a.path);
      if p.None? then Unchanged(files, after, ok) else Wrote(files, after, p.value, a.content, fault, ok)
    case DeleteFile =>
      var p := w.resolve(a.path);
      if p.None? || p.value !in files || fault != NoFault then Unchanged(files, after, ok)
      else ok && after == files - {p.value}
    case EditFile =>
      var p := w.resolve(a.path);
      if p.None? || p.value !in files then Unchanged(files, after, ok)
      else exists r ::
        Editing.EditedTo(Editing.Unix(files[p.value]), a.edit, r) && WroteEdit(files, after, p.value, r, fault, ok)
    case MultiEdit =>
      var p := w.resolve(a.path);
      if p.None? || p.value !in files then Unchanged(files, after, ok)
      else exists r ::
        Editing.MultiEditedTo(files[p.value], a.edits, r) && WroteEdit(files, after, p.value, r, fault, ok)
    case MoveFile =>
      var from, to := w.resolve(a.from), w.resolve(a.to);
      if from.None? || to.None? || from.value !in files || fault != NoFault then Unchanged(files, after, ok)
      else ok && Moved(files, after, from.value, to.value)
    case ReadOnly => false
    case External => false
  }

  lemma ToolDid(w: World, n: nat, c: ToolCall, kind: ToolKind, files: Files)
    requires !kind.ReadOnly? && !kind.External?
    ensures var (after, ok) := RunFileTool(w.resolve, kind, w.args(c.arguments), files, w.fault(n));
      Did(w, n, c, kind, files, after, ok)
  {
    hide Editing.EditedTo, Editing.MultiEditedTo, Editing.EditFile, Editing.MultiEdit, Editing.Unix;
    var a := w.args(c.arguments);
    var p := w.resolve(a.path);
    if p.Some? && p.value in files {
      Editing.EditFileMeaning(files[p.value], a.edit);
      Editing.MultiEditMeaning(files[p.value], a.edits);
    }
  }

  /** A tool that reports failure leaves the files alone, but for a write that stopped half-way. */
  lemma FailureLeavesFiles(w: World, n: nat, c: ToolCall, kind: ToolKind, files: Files, after: Files)
    requires Did(w, n, c, kind, files, after, false) && !w.fault(n).Torn?
    ensures after == files
  {
  }

  // ---- a call ----

  /** The gate: the tool exists; in plan mode it only reads; and a destructive one was approved if an
      approver is set. */
  predicate Passes(cfg: Config, w: World, mode: Mode, n: nat, c: ToolCall) {
    && c.name in cfg.table
    && (cfg.table[c.name].destructive ==> mode == Build && (cfg.approver ==> w.approve(n, c)))
  }

  /** One more tool message with the call's id, whose text is cut to 8000 characters and then says how
      many were left out. */
  ghost predicate Said(w: World, s: State, t: State, id: string, text: string) {
    exists shown ::
      && t.messages == s.messages + [Message(Role.Tool, Plain(shown), NO_CALLS, id)]
      && (|text| <= 8000 ==> shown == text)
      && (|text| > 8000 ==> shown == text[..8000] + w.notice(Truncated(|text| - 8000)))
  }

  /** Why a call did not pass, in the order in which it is asked. */
  function Refusal(cfg: Config, mode: Mode, c: ToolCall): Notice {
    if c.name !in cfg.table then UnknownTool(c.name)
    else if mode == Plan then BlockedInPlanMode(c.name)
    else Denied
  }

  function Outcome(w: World, r: Result<string>): string {
    if r.Ok? then r.value else w.notice(RunError(r.error))
  }

  /** What executing a call did: nothing but a message if it did not pass the gate; otherwise what its
      tool does to the files, a message with the tool's outcome, and at most one more undo entry. */
  ghost predicate Executed(cfg: Config, w: World, s: State, n: nat, c: ToolCall, t: State) {
    && t.mode == s.mode && t.goal == s.goal && t.dropped == s.dropped && t.tick == s.tick
    && if !Passes(cfg, w, s.mode, n, c) then
         && t.files == s.files && t.undo == s.undo
         && Said(w, s, t, c.id, w.notice(Refusal(cfg, s.mode, c)))
       else
         var kind := cfg.table[c.name].kind;
         && s.undo <= t.undo && |t.undo| <= |s.undo| + 1
         && (|t.undo| > |s.undo| ==> t.undo[|s.undo|].desc == w.preview(c))
         && match kind
            case ReadOnly =>
              t.files == s.files && t.undo == s.undo && Said(w, s, t, c.id, Outcome(w, w.read(n, c, s.files)))
            case External =>
              && t.files == w.external(n, c, s.files).0 && t.undo == s.undo
              && Said(w, s, t, c.id, Outcome(w, w.external(n, c, s.files).1))
            case _ =>
              exists ok ::
                && Did(w, n, c, kind, s.files, t.files, ok)
                && Said(w, s, t, c.id, if ok then w.report(n, c, true) else w.notice(RunError(w.report(n, c, false))))
  }

  lemma AnswerSays(w: World, s: State, id: string, text: string)
    ensures Said(w, s, Answer(w, s, id, text), id, text)
  {
    var t := Answer(w, s, id, text);
    assert t.messages == s.messages + [Message(Role.Tool, Plain(Clip(w, text)), NO_CALLS, id)];
  }

  lemma PerformDoes(cfg: Config, w: World, s: State, n: nat, c: ToolCall)
    requires Passes(cfg, w, s.mode, n, c)
    ensures Executed(cfg, w, s, n, c, Perform(w, s, n, c, cfg.table[c.name]))
  {
    hide Did, RunFileTool, Clip, Said;
    var tool := cfg.table[c.name];
    var t := Perform(w, s, n, c, tool);
    var (files, r) := RunTool(w, n, tool.kind, c, s.files);
    AnswerSays(w, s.(undo := t.undo, log := t.log, files := t.files), c.id, TextOf(w, r));
    SaidOfMessages(w, s.(undo := t.undo, log := t.log, files := t.files), s, t, c.id, TextOf(w, r));
    if !tool.kind.ReadOnly? && !tool.kind.External? {
      ToolDid(w, n, c, tool.kind, s.files);
    }
  }

  lemma SaidOfMessages(w: World, s: State, u: State, t: State, id: string, text: string)
    requires Said(w, s, t, id, text) && u.messages == s.messages
    ensures Said(w, u, t, id, text)
  {
  }

  /** Executing a call, told without the steps that execute it. */
  lemma ExecIsExecuted(cfg: Config, w: World, s: State, n: nat, c: ToolCall)
    ensures Executed(cfg, w, s, n, c, Exec(cfg, w, s, n, c))
  {
    hide Perform, Did, Answer, Said;
    if Passes(cfg, w, s.mode, n, c) {
      var s1 := s.(log := s.log + [Asked(n, c, true)]);
      PerformDoes(cfg, w, s, n, c);
      PerformDoes(cfg, w, s1, n, c);
      SaidAfterAsking(cfg, w, s, n, c, s1, Perform(w, s1, n, c, cfg.table[c.name]));
    } else {
      RefusedCall(cfg, w, s, n, c);
    }
  }

  lemma RefusedCall(cfg: Config, w: World, s: State, n: nat, c: ToolCall)
    requires !Passes(cfg, w, s.mode, n, c)
    ensures Executed(cfg, w, s, n, c, Exec(cfg, w, s, n, c))
  {
    hide Perform, Said, Clip;
    var text := w.notice(Refusal(cfg, s.mode, c));
    var s1 := s.(log := Exec(cfg, w, s, n, c).log);
    AnswerSays(w, s1, c.id, text);
    SaidOfMessages(w, s1, s, Answer(w, s1, c.id, text), c.id, text);
    assert Exec(cfg, w, s, n, c) == Answer(w, s1, c.id, text);
  }

  /** The question to the approver leaves no trace but in the log. */
  lemma SaidAfterAsking(cfg: Config, w: World, s: State, n: nat, c: ToolCall, s1: State, t: State)
    requires s1 == s.(log := s1.log) && Executed(cfg, w, s1, n, c, t)
    ensures Executed(cfg, w, s, n, c, t)
  {
    hide Said, Did, Passes, Refusal, Outcome;
    forall id, text | Said(w, s1, t, id, text) ensures Said(w, s, t, id, text) {
      SaidOfMessages(w, s1, s, t, id, text);
    }
  }

  // ---- a batch ----

  /** The order in which a batch takes effect: first the calls of tools that only read, then the others,
      each group in the order of the calls and every call once. */
  ghost predicate ReadersFirst(cfg: Config, calls: seq<ToolCall>, order: seq<nat>) {
    && |order| == |calls| && (forall j :: 0 <= j < |order| ==> order[j] < |calls|)
    && (forall j, k :: 0 <= j < k < |order| ==> order[j] != order[k])
    && (forall j, k :: 0 <= j < k < |order| ==>
          var early := calls[order[j]].name in cfg.table && !cfg.table[calls[order[j]].name].destructive;
          var late := calls[order[k]].name in cfg.table && !cfg.table[calls[order[k]].name].destructive;
          if early == late then order[j] < order[k] else early)
  }

  ghost predicate Increasing(cfg: Config, calls: seq<ToolCall>, readOnly: bool, p: seq<nat>, n: nat)
    requires n <= |calls|
  {
    && (forall j :: 0 <= j < |p| ==> p[j] < n && IsReadOnly(cfg, calls[p[j]]) == readOnly)
    && (forall j, k :: 0 <= j < k < |p| ==> p[j] < p[k])
  }

  lemma IncreasingMore(cfg: Config, calls: seq<ToolCall>, readOnly: bool, p: seq<nat>, n: nat)
    requires n < |calls| && Increasing(cfg, calls, readOnly, p, n)
    ensures Increasing(cfg, calls, readOnly, p, n + 1)
    ensures IsReadOnly(cfg, calls[n]) == readOnly ==> Increasing(cfg, calls, readOnly, p + [n], n + 1)
  {
    hide IsReadOnly;
  }

  lemma {:induction false} PlacesAreOrdered(cfg: Config, calls: seq<ToolCall>, readOnly: bool, n: nat)
    requires n <= |calls|
    ensures Increasing(cfg, calls, readOnly, Places(cfg, calls, readOnly, n), n)
    decreases n
  {
    if n > 0 {
      PlacesAreOrdered(cfg, calls, readOnly, n - 1);
      IncreasingMore(cfg, calls, readOnly, Places(cfg, calls, readOnly, n - 1), n - 1);
      var q := Places(cfg, calls, readOnly, n - 1);
      assert q + [] == q;
    }
  }

  lemma {:induction false} PlacesCount(cfg: Config, calls: seq<ToolCall>, n: nat)
    requires n <= |calls|
    ensures |Places(cfg, calls, true, n)| + |Places(cfg, calls, false, n)| == n
    decreases n
  {
    if n > 0 {
      PlacesCount(cfg, calls, n - 1);
    }
  }

  lemma BatchOrderIs(cfg: Config, calls: seq<ToolCall>)
    ensures ReadersFirst(cfg, calls, BatchOrder(cfg, calls))
  {
    hide Places;
    PlacesAreOrdered(cfg, calls, true, |calls|);
    PlacesAreOrdered(cfg, calls, false, |calls|);
    PlacesCount(cfg, calls, |calls|);
  }

  /** The states a batch goes through, one call after the other in that order. */
  ghost predicate Staged(cfg: Config, w: World, base: nat, calls: seq<ToolCall>, order: seq<nat>, stages: seq<State>) {
    && |stages| == |order| + 1 && (forall j :: 0 <= j < |order| ==> order[j] < |calls|)
    && forall j :: 0 <= j < |order| ==> Executed(cfg, w, stages[j], base + order[j], calls[order[j]], stages[j + 1])
  }

  lemma {:induction false} PlacesStaged(cfg: Config, w: World, s: State, base: nat, calls: seq<ToolCall>,
                                        places: seq<nat>) returns (stages: seq<State>)
    requires InRange(places, |calls|)
    ensures Staged(cfg, w, base, calls, places, stages)
    ensures stages[0] == s && stages[|places|] == ExecPlaces(cfg, w, s, base, calls, places)
    decreases |places|
  {
    hide Exec, Executed;
    if places == [] {
      stages := [s];
    } else {
      var init, last := places[..|places| - 1], places[|places| - 1];
      var before := PlacesStaged(cfg, w, s, base, calls, init);
      var t := before[|init|];
      ExecIsExecuted(cfg, w, t, base + last, calls[last]);
      stages := before + [Exec(cfg, w, t, base + last, calls[last])];
    }
  }

  /** A batch executes every call once, the readers first. */
  lemma BatchIsStaged(cfg: Config, w: World, s: State, calls: seq<ToolCall>)
    returns (order: seq<nat>, stages: seq<State>)
    ensures ReadersFirst(cfg, calls, order) && Staged(cfg, w, s.tick, calls, order, stages)
    ensures stages[0] == s && ExecBatch(cfg, w, s, calls) == stages[|order|].(tick := s.tick + |calls|)
  {
    hide ExecPlaces, Executed, ReadersFirst;
    order := BatchOrder(cfg, calls);
    BatchOrderIs(cfg, calls);
    stages := PlacesStaged(cfg, w, s, s.tick, calls, order);
  }

  // ---- undo ----

  /** What an undo did: the last entry is gone; its file is as it was, or gone again if it was new, or
      moved back; and the entry's description is reported exactly if that could be done. */
  ghost predicate Undone(s: State, t: State, r: Result<string>) {
    if s.undo == [] then t == s && r.Err?
    else
      var e := s.undo[|s.undo| - 1];
      && t == s.(undo := s.undo[..|s.undo| - 1], files := t.files)
      && match e.restore
         case RestoreFile(p, Some(prior)) => t.files == s.files[p := prior] && r == Ok(e.desc)
         case RestoreFile(p, None) =>
           if p in s.files then t.files == s.files - {p} && r == Ok(e.desc) else t.files == s.files && r.Err?
         case RenameBack(moved, original) =>
           if moved in s.files then Moved(s.files, t.files, moved, original) && r == Ok(e.desc)
           else t.files == s.files && r.Err?
  }

  lemma UndoIsUndone(s: State)
    ensures Undone(s, Undo(s).0, Undo(s).1)
  {
  }
}
