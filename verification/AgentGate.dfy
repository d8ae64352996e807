/** The gate: nothing destructive happens in plan mode or without the approver's yes. */
module AgentGate {
  import opened Schema
  import opened Workspace
  import opened AgentModel

  /** An entry of the log is let through by the gate: captures and runs happen in build mode and,
      when an approver is set, right after it said yes to this very call. */
  ghost predicate GatedAt(cfg: Config, log: seq<Effect>, i: nat)
    requires i < |log|
  {
    match log[i]
    case Asked(_, _, _) => true
    case Captured(n, c, mode) => mode == Build && (cfg.approver ==> i >= 1 && log[i - 1] == Asked(n, c, true))
    case Ran(n, c, mode, _, _) =>
      mode == Build &&
      (cfg.approver ==>
         || (i >= 1 && log[i - 1] == Asked(n, c, true))
         || (i >= 2 && log[i - 1] == Captured(n, c, mode) && log[i - 2] == Asked(n, c, true)))
  }

  ghost predicate Gated(cfg: Config, log: seq<Effect>) {
    forall i :: 0 <= i < |log| ==> GatedAt(cfg, log, i)
  }

  lemma GatedMore(cfg: Config, log: seq<Effect>, e: Effect)
    requires Gated(cfg, log) && GatedAt(cfg, log + [e], |log|)
    ensures Gated(cfg, log + [e])
  {
    forall i | 0 <= i < |log + [e]| ensures GatedAt(cfg, log + [e], i) {
      if i < |log| {
        assert GatedAt(cfg, log, i);
      }
    }
  }

  /** No destructive tool ran. */
  predicate Quiet(log: seq<Effect>) { forall i :: 0 <= i < |log| ==> !log[i].Ran? }

  /** An approver is set, and it never says yes. */
  ghost predicate AlwaysRefuses(cfg: Config, w: World) {
    cfg.approver && forall n, c :: !w.approve(n, c)
  }

  /** From s to t the log only grew, stayed gated, and the files changed only if a run was logged, in
      build mode, and not against an approver that always refuses. */
  ghost predicate GatedStep(cfg: Config, w: World, s: State, t: State) {
    && s.log <= t.log && t.mode == s.mode
    && (Gated(cfg, s.log) ==> Gated(cfg, t.log))
    && (Quiet(t.log[|s.log|..]) ==> t.files == s.files)
    && (s.mode.Plan? ==> t.log == s.log && t.files == s.files)
    && (AlwaysRefuses(cfg, w) ==> t.files == s.files)
  }

  lemma GatedStepTransitive(cfg: Config, w: World, s: State, t: State, u: State)
    requires GatedStep(cfg, w, s, t) && GatedStep(cfg, w, t, u)
    ensures GatedStep(cfg, w, s, u)
  {
    if Quiet(u.log[|s.log|..]) {
      forall i | 0 <= i < |t.log[|s.log|..]| ensures !t.log[|s.log|..][i].Ran? {
        assert t.log[|s.log|..][i] == u.log[|s.log|..][i];
      }
      forall i | 0 <= i < |u.log[|t.log|..]| ensures !u.log[|t.log|..][i].Ran? {
        assert u.log[|t.log|..][i] == u.log[|s.log|..][i + |t.log| - |s.log|];
      }
    }
  }

  lemma GatedStepSelf(cfg: Config, w: World, s: State)
    ensures GatedStep(cfg, w, s, s)
  {
  }

  lemma PerformReads(w: World, s: State, n: nat, c: ToolCall, tool: Tool)
    requires !tool.destructive && tool.kind.ReadOnly?
    ensures Perform(w, s, n, c, tool) == s.(messages := Perform(w, s, n, c, tool).messages)
  {
  }

  lemma PerformGated(cfg: Config, w: World, s: State, n: nat, c: ToolCall, tool: Tool)
    requires !tool.destructive ==> tool.kind.ReadOnly?
    requires tool.destructive ==> s.mode == Build
    requires tool.destructive && cfg.approver ==>
      w.approve(n, c) && s.log != [] && s.log[|s.log| - 1] == Asked(n, c, true)
    ensures GatedStep(cfg, w, s, Perform(w, s, n, c, tool))
  {
    hide Capture, Clip, RunTool;
    var t := Perform(w, s, n, c, tool);
    if tool.destructive {
      var captured := Capture(w.resolve, tool.kind, w.args(c.arguments), s.files);
      var ran := Ran(n, c, s.mode, tool.kind, s.files);
      var log1 := if captured.None? then s.log else s.log + [Captured(n, c, s.mode)];
      if Gated(cfg, s.log) {
        if captured.Some? {
          GatedMore(cfg, s.log, Captured(n, c, s.mode));
        }
        GatedMore(cfg, log1, ran);
      }
      assert t.log == log1 + [ran];
      assert t.log[|s.log|..][|t.log| - |s.log| - 1] == ran;
    } else {
      PerformReads(w, s, n, c, tool);
    }
  }

  lemma ExecGated(cfg: Config, w: World, s: State, n: nat, c: ToolCall)
    requires Sound(cfg)
    ensures GatedStep(cfg, w, s, Exec(cfg, w, s, n, c))
  {
    if c.name in cfg.table {
      var tool := cfg.table[c.name];
      if s.mode.Plan? && tool.destructive {
      } else if tool.destructive && cfg.approver {
        var yes := w.approve(n, c);
        var s1 := s.(log := s.log + [Asked(n, c, yes)]);
        if Gated(cfg, s.log) {
          GatedMore(cfg, s.log, Asked(n, c, yes));
        }
        if yes {
          PerformGated(cfg, w, s1, n, c, tool);
          GatedStepTransitive(cfg, w, s, s1, Perform(w, s1, n, c, tool));
        }
      } else {
        PerformGated(cfg, w, s, n, c, tool);
      }
    }
  }

  lemma {:induction false} PlacesGated(cfg: Config, w: World, s: State, base: nat, calls: seq<ToolCall>,
                                       places: seq<nat>)
    requires Sound(cfg) && InRange(places, |calls|)
    ensures GatedStep(cfg, w, s, ExecPlaces(cfg, w, s, base, calls, places))
    decreases |places|
  {
    hide Exec, GatedStep;
    GatedStepSelf(cfg, w, s);
    if places != [] {
      var init, last := places[..|places| - 1], places[|places| - 1];
      PlacesGated(cfg, w, s, base, calls, init);
      var t := ExecPlaces(cfg, w, s, base, calls, init);
      ExecGated(cfg, w, t, base + last, calls[last]);
      GatedStepTransitive(cfg, w, s, t, Exec(cfg, w, t, base + last, calls[last]));
    }
  }

  lemma RoundGated(cfg: Config, w: World, s: State)
    requires Sound(cfg)
    ensures GatedStep(cfg, w, s, Round(cfg, w, s).0)
  {
    match w.turn(s.tick, s.messages)
    case TurnFailed =>
    case NoChoices =>
    case Reply(content, toolCalls) =>
      var msg := Message(Assistant, content, toolCalls, "");
      var s1 := Tick(s).(messages := s.messages + [msg]);
      var calls := msg.ParseToolCalls();
      if calls != [] {
        PlacesGated(cfg, w, s1, s1.tick, calls, BatchOrder(cfg, calls));
      }
  }

  lemma {:induction false} LoopGated(cfg: Config, w: World, s: State, steps: int)
    requires Sound(cfg)
    ensures GatedStep(cfg, w, s, Loop(cfg, w, s, steps).0)
    decreases if steps < 0 then 0 else steps
  {
    hide Round, GatedStep;
    GatedStepSelf(cfg, w, s);
    if steps > 0 {
      RoundGated(cfg, w, s);
      var (s1, exit) := Round(cfg, w, s);
      if exit.None? {
        LoopGated(cfg, w, s1, steps - 1);
        GatedStepTransitive(cfg, w, s, s1, Loop(cfg, w, s1, steps - 1).0);
      }
    }
  }

  /** A whole Run, compaction included. */
  lemma RunGated(cfg: Config, w: World, s: State, input: string)
    requires Sound(cfg)
    ensures GatedStep(cfg, w, s, Run(cfg, w, s, input).0)
  {
    var s1 := Compact(cfg, w, s.(messages := s.messages + [UserMsg(input)]), false).0;
    assert GatedStep(cfg, w, s, s1);
    LoopGated(cfg, w, s1, cfg.maxSteps);
    GatedStepTransitive(cfg, w, s, s1, Loop(cfg, w, s1, cfg.maxSteps).0);
  }

  /** Plan mode is read-only over a whole Run: whatever the model asks for, no file changes and
      nothing destructive is captured or run. */
  lemma PlanModeIsReadOnly(cfg: Config, w: World, s: State, input: string)
    requires Sound(cfg) && s.mode.Plan?
    ensures var t := Run(cfg, w, s, input).0; t.files == s.files && t.log == s.log
  {
    RunGated(cfg, w, s, input);
  }

  /** An approver that always says no keeps the files as they are over a whole Run, whatever happened
      before it. */
  lemma DenialKeepsFiles(cfg: Config, w: World, s: State, input: string)
    requires Sound(cfg) && AlwaysRefuses(cfg, w)
    ensures Run(cfg, w, s, input).0.files == s.files
  {
    RunGated(cfg, w, s, input);
  }

  /** The log records the approver's own answers to the calls it was asked about, and what ran is a
      tool of the table. */
  ghost predicate Truthful(cfg: Config, w: World, log: seq<Effect>) {
    forall i :: 0 <= i < |log| ==>
      match log[i]
      case Asked(n, c, yes) => yes == w.approve(n, c)
      case Captured(_, _, _) => true
      case Ran(_, c, _, kind, _) => c.name in cfg.table && cfg.table[c.name].kind == kind
  }

  lemma {:induction false} PlacesTruthful(cfg: Config, w: World, s: State, base: nat, calls: seq<ToolCall>,
                                          places: seq<nat>)
    requires InRange(places, |calls|) && Truthful(cfg, w, s.log)
    ensures Truthful(cfg, w, ExecPlaces(cfg, w, s, base, calls, places).log)
    decreases |places|
  {
    hide Exec, Truthful;
    if places != [] {
      var init, last := places[..|places| - 1], places[|places| - 1];
      PlacesTruthful(cfg, w, s, base, calls, init);
      ExecTruthful(cfg, w, ExecPlaces(cfg, w, s, base, calls, init), base + last, calls[last]);
    }
  }

  lemma ExecTruthful(cfg: Config, w: World, s: State, n: nat, c: ToolCall)
    requires Truthful(cfg, w, s.log)
    ensures Truthful(cfg, w, Exec(cfg, w, s, n, c).log)
  {
    var yes := w.approve(n, c);
    assert Truthful(cfg, w, s.log + [Asked(n, c, yes)]);
    if c.name in cfg.table {
      PerformTruthful(cfg, w, s, n, c, cfg.table[c.name]);
      PerformTruthful(cfg, w, s.(log := s.log + [Asked(n, c, yes)]), n, c, cfg.table[c.name]);
    }
  }

  lemma PerformTruthful(cfg: Config, w: World, s: State, n: nat, c: ToolCall, tool: Tool)
    requires Truthful(cfg, w, s.log) && c.name in cfg.table && tool == cfg.table[c.name]
    ensures Truthful(cfg, w, Perform(w, s, n, c, tool).log)
  {
    var t := Perform(w, s, n, c, tool);
    forall i | 0 <= i < |t.log|
      ensures match t.log[i]
        case Asked(m, d, yes) => yes == w.approve(m, d)
        case Captured(_, _, _) => true
        case Ran(_, d, _, kind, _) => d.name in cfg.table && cfg.table[d.name].kind == kind
    {
      if i < |s.log| {
        assert t.log[i] == s.log[i];
      }
    }
  }

  lemma RoundTruthful(cfg: Config, w: World, s: State)
    requires Truthful(cfg, w, s.log)
    ensures Truthful(cfg, w, Round(cfg, w, s).0.log)
  {
    match w.turn(s.tick, s.messages)
    case TurnFailed =>
    case NoChoices =>
    case Reply(content, toolCalls) =>
      var msg := Message(Assistant, content, toolCalls, "");
      var s1 := Tick(s).(messages := s.messages + [msg]);
      var calls := msg.ParseToolCalls();
      if calls != [] {
        PlacesTruthful(cfg, w, s1, s1.tick, calls, BatchOrder(cfg, calls));
      }
  }

  lemma {:induction false} LoopTruthful(cfg: Config, w: World, s: State, steps: int)
    requires Truthful(cfg, w, s.log)
    ensures Truthful(cfg, w, Loop(cfg, w, s, steps).0.log)
    decreases if steps < 0 then 0 else steps
  {
    hide Round, Truthful;
    if steps > 0 {
      RoundTruthful(cfg, w, s);
      var (s1, exit) := Round(cfg, w, s);
      if exit.None? {
        LoopTruthful(cfg, w, s1, steps - 1);
      }
    }
  }

  lemma RunAsksTruthfully(cfg: Config, w: World, s: State, input: string)
    requires Truthful(cfg, w, s.log)
    ensures Truthful(cfg, w, Run(cfg, w, s, input).0.log)
  {
    var s1 := Compact(cfg, w, s.(messages := s.messages + [UserMsg(input)]), false).0;
    LoopTruthful(cfg, w, s1, cfg.maxSteps);
  }
}
