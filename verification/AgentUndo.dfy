/** Undo is the inverse of execution. */
module AgentUndo {
  import opened Common
  import opened Schema
  import opened Workspace
  import opened AgentModel

  /** The files after restoring every entry, newest first. */
  function Unwind(files: Files, undo: seq<UndoEntry>): Files
    decreases |undo|
  {
    if undo == [] then files
    else Unwind(Revert(files, undo[|undo| - 1].restore).0, undo[..|undo| - 1])
  }

  /** `Undo` called n times. */
  function UndoTimes(s: State, n: nat): State
    decreases n
  {
    if n == 0 then s else UndoTimes(Undo(s).0, n - 1)
  }

  lemma {:induction false} UnwindAppend(files: Files, a: seq<UndoEntry>, b: seq<UndoEntry>)
    ensures Unwind(files, a + b) == Unwind(Unwind(files, b), a)
    decreases |b|
  {
    if b == [] {
      assert a + b == a;
    } else {
      var last := b[|b| - 1];
      assert (a + b)[..|a + b| - 1] == a + b[..|b| - 1] && (a + b)[|a + b| - 1] == last;
      UnwindAppend(Revert(files, last.restore).0, a, b[..|b| - 1]);
    }
  }

  /** Undoing as often as there are entries empties the history and unwinds all of it; an entry is
      popped before it is restored, so failing restores do not stop the rest. */
  lemma {:induction false} UndoAllUnwinds(s: State)
    ensures UndoTimes(s, |s.undo|) == s.(undo := [], files := Unwind(s.files, s.undo))
    decreases |s.undo|
  {
    if s.undo != [] {
      UndoAllUnwinds(Undo(s).0);
    }
  }

  /** A run that undo can invert: not an uncaptured tool, and not a move onto another file. */
  predicate ReversibleEffect(w: World, e: Effect) {
    e.Ran? ==> !e.kind.External? && Reversible(w.resolve, e.kind, w.args(e.call.arguments), e.before)
  }

  predicate AllReversible(w: World, log: seq<Effect>) {
    forall i :: 0 <= i < |log| ==> ReversibleEffect(w, log[i])
  }

  /** From s to t the history and the log only grew (and the history did not begin
      anew), and if every run logged in between is reversible, unwinding the new entries gives back
      the files of s. */
  ghost predicate Undoes(w: World, s: State, t: State) {
    && s.undo <= t.undo && s.log <= t.log && t.base == s.base && t.since == s.since
    && (AllReversible(w, t.log[|s.log|..]) ==> Unwind(t.files, t.undo[|s.undo|..]) == s.files)
  }

  lemma UndoesTransitive(w: World, s: State, t: State, u: State)
    requires Undoes(w, s, t) && Undoes(w, t, u)
    ensures Undoes(w, s, u)
  {
    var first, second := t.undo[|s.undo|..], u.undo[|t.undo|..];
    assert u.undo[|s.undo|..] == first + second;
    UnwindAppend(u.files, first, second);
    if AllReversible(w, u.log[|s.log|..]) {
      forall i | 0 <= i < |t.log[|s.log|..]| ensures ReversibleEffect(w, t.log[|s.log|..][i]) {
        assert t.log[|s.log|..][i] == u.log[|s.log|..][i];
      }
      forall i | 0 <= i < |u.log[|t.log|..]| ensures ReversibleEffect(w, u.log[|t.log|..][i]) {
        assert u.log[|t.log|..][i] == u.log[|s.log|..][i + |t.log| - |s.log|];
      }
    }
  }

  /** States that differ in neither files, history, log nor base. */
  lemma UndoesNothing(w: World, s: State, t: State)
    requires t.files == s.files && t.undo == s.undo && t.log == s.log && t.base == s.base && t.since == s.since
    ensures Undoes(w, s, t)
  {
    assert t.undo[|s.undo|..] == [];
  }

  lemma OneEntry(files: Files, e: UndoEntry)
    ensures Unwind(files, [e]) == Revert(files, e.restore).0
  {
    assert [e][..0] == [];
  }

  lemma AskedUndoes(w: World, s: State, e: Effect)
    ensures Undoes(w, s, s.(log := s.log + [e]))
  {
    assert s.undo[|s.undo|..] == [];
  }

  /** Capture and run, whatever the tool and whatever its outcome. */
  lemma PerformUndoes(w: World, s: State, n: nat, c: ToolCall, tool: Tool)
    requires !tool.destructive ==> tool.kind.ReadOnly?
    ensures Undoes(w, s, Perform(w, s, n, c, tool))
  {
    var t := Perform(w, s, n, c, tool);
    var captured := Capture(w.resolve, tool.kind, w.args(c.arguments), s.files);
    if captured.None? {
      assert t.undo[|s.undo|..] == [];
    } else {
      var e := UndoEntry(w.preview(c), captured.value);
      assert t.undo == s.undo + [e];
      assert t.undo[|s.undo|..] == [e];
      OneEntry(t.files, e);
    }
    if tool.destructive {
      assert t.log[|t.log| - 1] == Ran(n, c, s.mode, tool.kind, s.files);
      assert t.log[|s.log|..][|t.log| - |s.log| - 1] == Ran(n, c, s.mode, tool.kind, s.files);
    }
    if !tool.kind.ReadOnly? && !tool.kind.External? {
      RevertInvertsRun(w.resolve, tool.kind, w.args(c.arguments), s.files, w.fault(n));
    }
  }

  lemma ExecUndoes(cfg: Config, w: World, s: State, n: nat, c: ToolCall)
    requires Sound(cfg)
    ensures Undoes(w, s, Exec(cfg, w, s, n, c))
  {
    var t := Exec(cfg, w, s, n, c);
    if c.name !in cfg.table {
      UndoesNothing(w, s, t);
    } else {
      var tool := cfg.table[c.name];
      if s.mode.Plan? && tool.destructive {
        UndoesNothing(w, s, t);
      } else if tool.destructive && cfg.approver {
        var s1 := s.(log := s.log + [Asked(n, c, w.approve(n, c))]);
        AskedUndoes(w, s, Asked(n, c, w.approve(n, c)));
        if w.approve(n, c) {
          PerformUndoes(w, s1, n, c, tool);
        } else {
          UndoesNothing(w, s1, t);
        }
        UndoesTransitive(w, s, s1, t);
      } else {
        PerformUndoes(w, s, n, c, tool);
      }
    }
  }

  lemma {:induction false} PlacesUndo(cfg: Config, w: World, s: State, base: nat, calls: seq<ToolCall>,
                                      places: seq<nat>)
    requires Sound(cfg) && InRange(places, |calls|)
    ensures Undoes(w, s, ExecPlaces(cfg, w, s, base, calls, places))
    decreases |places|
  {
    hide Exec, Undoes;
    if places == [] {
      UndoesNothing(w, s, s);
    } else {
      var init, last := places[..|places| - 1], places[|places| - 1];
      PlacesUndo(cfg, w, s, base, calls, init);
      var t := ExecPlaces(cfg, w, s, base, calls, init);
      ExecUndoes(cfg, w, t, base + last, calls[last]);
      UndoesTransitive(w, s, t, Exec(cfg, w, t, base + last, calls[last]));
    }
  }

  lemma BatchUndoes(cfg: Config, w: World, s: State, calls: seq<ToolCall>)
    requires Sound(cfg)
    ensures Undoes(w, s, ExecBatch(cfg, w, s, calls))
  {
    PlacesUndo(cfg, w, s, s.tick, calls, BatchOrder(cfg, calls));
  }

  lemma RoundUndoes(cfg: Config, w: World, s: State)
    requires Sound(cfg)
    ensures Undoes(w, s, Round(cfg, w, s).0)
  {
    match w.turn(s.tick, s.messages)
    case TurnFailed => UndoesNothing(w, s, Tick(s));
    case NoChoices => UndoesNothing(w, s, Tick(s));
    case Reply(content, toolCalls) =>
      var msg := Message(Assistant, content, toolCalls, "");
      var s1 := Tick(s).(messages := s.messages + [msg]);
      UndoesNothing(w, s, s1);
      if msg.ParseToolCalls() != [] {
        BatchUndoes(cfg, w, s1, msg.ParseToolCalls());
        UndoesTransitive(w, s, s1, ExecBatch(cfg, w, s1, msg.ParseToolCalls()));
      }
  }

  /** A whole Run loop: unwinding the entries it added restores the files it started with, provided
      every run it logged is reversible. */
  lemma {:induction false} LoopUndoes(cfg: Config, w: World, s: State, steps: int)
    requires Sound(cfg)
    ensures Undoes(w, s, Loop(cfg, w, s, steps).0)
    decreases if steps < 0 then 0 else steps
  {
    hide Round, Undoes;
    if steps <= 0 {
      UndoesNothing(w, s, s);
    } else {
      var (s1, exit) := Round(cfg, w, s);
      RoundUndoes(cfg, w, s);
      if exit.None? {
        LoopUndoes(cfg, w, s1, steps - 1);
        UndoesTransitive(w, s, s1, Loop(cfg, w, s1, steps - 1).0);
      }
    }
  }

  /** Undo inverts a batch: any sequence of approved, denied, failing or succeeding calls of the
      captured tools, from any files; then as many undos as entries were added. */
  lemma UndoInvertsBatch(cfg: Config, w: World, s: State, calls: seq<ToolCall>)
    requires Sound(cfg) && s.undo == []
    requires var t := ExecBatch(cfg, w, s, calls);
      |s.log| <= |t.log| ==> AllReversible(w, t.log[|s.log|..])
    ensures var t := ExecBatch(cfg, w, s, calls);
      UndoTimes(t, |t.undo|).files == s.files && UndoTimes(t, |t.undo|).undo == []
  {
    BatchUndoes(cfg, w, s, calls);
    var t := ExecBatch(cfg, w, s, calls);
    assert t.undo[0..] == t.undo;
    UndoAllUnwinds(t);
  }

  /** Exactly when: one call that recorded an undo entry is undone by it if and only if it was not a
      move onto an existing other file. */
  lemma UndoOfOneCall(cfg: Config, w: World, s: State, n: nat, c: ToolCall)
    requires Sound(cfg)
    requires |Exec(cfg, w, s, n, c).undo| > |s.undo|
    ensures c.name in cfg.table
    ensures Undo(Exec(cfg, w, s, n, c)).0.files == s.files
       <==> Reversible(w.resolve, cfg.table[c.name].kind, w.args(c.arguments), s.files)
  {
    var kind := cfg.table[c.name].kind;
    RevertInvertsRun(w.resolve, kind, w.args(c.arguments), s.files, w.fault(n));
  }
}
