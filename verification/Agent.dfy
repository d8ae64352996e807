/** The agent as the object it is (internal/agent/agent.go): every method is tied to the step
    machine's function of the old state. */
module Agent {
  import opened Common
  import opened Schema
  import opened Workspace
  import Model = AgentModel
  import Effects = AgentEffects
  import Runs = AgentRuns
  import Text

  class Agent {
    const cfg: Model.Config
    const world: Model.World
    var messages: seq<Message>
    var mode: Model.Mode
    var goal: string
    var undo: seq<Model.UndoEntry>
    var files: Files
    var tick: nat
    ghost var log: seq<Model.Effect>
    ghost var dropped: seq<Message>
    ghost var base: Files
    ghost var since: nat

    ghost function View(): Model.State
      reads this
    {
      Model.State(messages, mode, goal, undo, files, tick, log, dropped, base, since)
    }

    constructor (cfg: Model.Config, world: Model.World, files: Files)
      ensures this.cfg == cfg && this.world == world && View() == Model.New(cfg, files)
    {
      this.cfg, this.world, this.files := cfg, world, files;
      messages, mode, goal, undo, tick, log, dropped, base, since := [], Model.Build, "", [], 0, [], [], files, 0;
      new;
      ApplySystem();
    }

    method ApplySystem()
      modifies this
      ensures View() == Model.ApplySystem(cfg, old(View()))
    {
      var sm := SysMsg(cfg.prompt(mode, goal));
      if |messages| > 0 && messages[0].role.System? {
        messages := messages[0 := sm];
      } else {
        messages := [sm] + messages;
      }
    }

    method SetMode(m: Model.Mode)
      modifies this
      ensures View() == Model.SetMode(cfg, old(View()), m)
    {
      mode := m;
      ApplySystem();
    }

    method SetGoal(g: string)
      modifies this
      ensures View() == Model.SetGoal(cfg, old(View()), g)
    {
      goal := Text.TrimSpace(g);
      ApplySystem();
    }

    method Reset()
      modifies this
      ensures View() == Model.Reset(old(View()))
    {
      if |messages| > 0 && messages[0].role.System? {
        messages := messages[..1];
      } else {
        messages := [];
      }
      dropped := [];
    }

    method AddSystem(text: string)
      modifies this
      ensures View() == Model.AddSystem(old(View()), text)
    {
      messages := messages + [SysMsg(text)];
    }

    method Undo() returns (r: Result<string>)
      modifies this
      ensures (View(), r) == Model.Undo(old(View())) && Effects.Undone(old(View()), View(), r)
    {
      Effects.UndoIsUndone(View());
      if |undo| == 0 {
        return Err("nothing to undo");
      }
      var e := undo[|undo| - 1];
      undo := undo[..|undo| - 1];
      var (restored, ok) := Revert(files, e.restore);
      files := restored;
      return if ok then Ok(e.desc) else Err("restore failed");
    }

    method AppendToolResult(id: string, content: string)
      modifies this
      ensures View() == Model.Answer(world, old(View()), id, content)
    {
      messages := messages + [ToolMsg(id, Model.Clip(world, content))];
    }

    /** execToolCall: gate, capture, run, append. */
    method ExecToolCall(n: nat, c: ToolCall)
      modifies this
      ensures View() == Model.Exec(cfg, world, old(View()), n, c)
      ensures Effects.Executed(cfg, world, old(View()), n, c, View())
    {
      hide Effects.Executed, Capture, Model.RunTool, Model.Clip;
      Effects.ExecIsExecuted(cfg, world, View(), n, c);
      if c.name !in cfg.table {
        AppendToolResult(c.id, world.notice(Model.UnknownTool(c.name)));
        return;
      }
      var tool := cfg.table[c.name];
      if mode == Model.Plan && tool.destructive {
        AppendToolResult(c.id, world.notice(Model.BlockedInPlanMode(c.name)));
        return;
      }
      if tool.destructive && cfg.approver {
        var yes := world.approve(n, c);
        log := log + [Model.Asked(n, c, yes)];
        if !yes {
          AppendToolResult(c.id, world.notice(Model.Denied));
          return;
        }
      }
      var args := world.args(c.arguments);
      var captured := Capture(world.resolve, tool.kind, args, files);
      if captured.Some? {
        undo := undo + [Model.UndoEntry(world.preview(c), captured.value)];
        log := log + [Model.Captured(n, c, mode)];
      }
      ghost var before := files;
      var (after, result) := Model.RunTool(world, n, tool.kind, c, files);
      files := after;
      if tool.destructive {
        log := log + [Model.Ran(n, c, mode, tool.kind, before)];
      }
      match result {
        case Ok(out) => AppendToolResult(c.id, out);
        case Err(e) => AppendToolResult(c.id, world.notice(Model.RunError(e)));
      }
    }

    /** execToolCalls: read-only calls fan out and complete in any order, their results are appended
        in call order; the other calls run one after the other.  The outcome is that of the
        sequential stable partition. */
    method ExecToolCalls(calls: seq<ToolCall>)
      requires Model.Sound(cfg)
      modifies this
      ensures View() == Model.ExecBatch(cfg, world, old(View()), calls)
    {
      var start := tick;
      ghost var s := View();
      var roIdx: seq<nat> := [];
      for i := 0 to |calls|
        invariant View() == s && roIdx == Model.Places(cfg, calls, true, i)
      {
        var c := calls[i];
        if c.name in cfg.table && !cfg.table[c.name].destructive {
          roIdx := roIdx + [i];
        }
      }
      Model.PlacesAreReadOnly(cfg, calls, |calls|);
      RunReadOnly(calls, roIdx, start);
      RunRest(calls, roIdx, start, s);
      tick := start + |calls|;
    }

    /** The read-only part: fanned out when there is more than one call. */
    method RunReadOnly(calls: seq<ToolCall>, roIdx: seq<nat>, base: nat)
      requires Model.Sound(cfg) && base == tick
      requires Model.InRange(roIdx, |calls|) && Model.AllReadOnly(cfg, calls, roIdx)
      modifies this
      ensures View() == Model.ExecPlaces(cfg, world, old(View()), base, calls, roIdx)
    {
      hide Model.Exec, Model.ExecPlaces, Model.TextOf, Model.IsReadOnly;
      Model.ExecNone(cfg, world, View(), base, calls);
      if |roIdx| > 1 {
        var results := FanOut(calls, roIdx);
        AppendResults(calls, roIdx, results, base);
      } else {
        ghost var s := View();
        for j := 0 to |roIdx|
          invariant View() == Model.ExecPlaces(cfg, world, s, base, calls, roIdx[..j])
        {
          assert roIdx[..j + 1] == roIdx[..j] + [roIdx[j]];
          RunOne(calls, roIdx[..j], roIdx[j], base, s);
        }
        assert roIdx[..|roIdx|] == roIdx;
      }
    }

    /** The fanned-out results, appended in call order. */
    method AppendResults(calls: seq<ToolCall>, roIdx: seq<nat>, results: seq<string>, base: nat)
      requires Model.Sound(cfg) && |results| == |calls|
      requires Model.InRange(roIdx, |calls|) && Model.AllReadOnly(cfg, calls, roIdx)
      requires forall j :: 0 <= j < |roIdx| ==>
        results[roIdx[j]] == Model.TextOf(world, world.read(base + roIdx[j], calls[roIdx[j]], files))
      modifies this
      ensures View() == Model.ExecPlaces(cfg, world, old(View()), base, calls, roIdx)
    {
      hide Model.Exec, Model.ExecPlaces, Model.TextOf, Model.IsReadOnly;
      ghost var s := View();
      Model.ExecNone(cfg, world, s, base, calls);
      for j := 0 to |roIdx|
        invariant View() == s.(messages := messages)
        invariant View() == Model.ExecPlaces(cfg, world, s, base, calls, roIdx[..j])
      {
        assert roIdx[..j + 1] == roIdx[..j] + [roIdx[j]];
        AppendOne(calls, roIdx[..j], roIdx[j], results[roIdx[j]], base, s);
      }
      assert roIdx[..|roIdx|] == roIdx;
    }

    method AppendOne(calls: seq<ToolCall>, ghost done: seq<nat>, i: nat, result: string,
                     ghost base: nat, ghost s: Model.State)
      requires Model.Sound(cfg) && Model.InRange(done, |calls|) && i < |calls| && Model.IsReadOnly(cfg, calls[i])
      requires View() == s.(messages := messages) && View() == Model.ExecPlaces(cfg, world, s, base, calls, done)
      requires result == Model.TextOf(world, world.read(base + i, calls[i], s.files))
      modifies this
      ensures View() == s.(messages := messages) && Model.InRange(done + [i], |calls|)
      ensures View() == Model.ExecPlaces(cfg, world, s, base, calls, done + [i])
    {
      Model.ExecOneMore(cfg, world, s, base, calls, done, i);
      Model.ExecOfReadOnly(cfg, world, View(), base + i, calls[i]);
      AppendToolResult(calls[i].id, result);
    }

    method RunOne(calls: seq<ToolCall>, ghost done: seq<nat>, i: nat, base: nat, ghost s: Model.State)
      requires Model.InRange(done, |calls|) && i < |calls|
      requires View() == Model.ExecPlaces(cfg, world, s, base, calls, done)
      modifies this
      ensures Model.InRange(done + [i], |calls|)
      ensures View() == Model.ExecPlaces(cfg, world, s, base, calls, done + [i])
    {
      hide Model.Exec, Model.ExecPlaces;
      ghost var before := View();
      ExecToolCall(base + i, calls[i]);
      Model.ExecNext(cfg, world, s, base, calls, done, i, before, View());
    }

    /** The other calls, one after the other. */
    method RunRest(calls: seq<ToolCall>, roIdx: seq<nat>, base: nat, ghost s: Model.State)
      requires roIdx == Model.Places(cfg, calls, true, |calls|)
      requires View() == Model.ExecPlaces(cfg, world, s, base, calls, roIdx)
      modifies this
      ensures View() == Model.ExecPlaces(cfg, world, s, base, calls, Model.BatchOrder(cfg, calls))
    {
      hide Model.Exec, Model.ExecPlaces;
      ghost var done := roIdx;
      for i := 0 to |calls|
        invariant done == roIdx + Model.Places(cfg, calls, false, i) && Model.InRange(done, |calls|)
        invariant View() == Model.ExecPlaces(cfg, world, s, base, calls, done)
      {
        Model.PlacesMembers(cfg, calls, |calls|, i);
        if i !in roIdx {
          RunOne(calls, done, i, base, s);
          done := done + [i];
        }
      }
    }

    /** The goroutines: each fills its own slot, and they complete in an arbitrary order. */
    method FanOut(calls: seq<ToolCall>, roIdx: seq<nat>) returns (results: seq<string>)
      requires Model.Sound(cfg)
      requires Model.AllReadOnly(cfg, calls, roIdx)
      ensures |results| == |calls|
      ensures forall j :: 0 <= j < |roIdx| ==>
        results[roIdx[j]] == Model.TextOf(world, world.read(tick + roIdx[j], calls[roIdx[j]], files))
    {
      results := seq(|calls|, _ => "");
      var running := set i | i in roIdx;
      while running != {}
        invariant |results| == |calls|
        invariant forall i :: i in running ==> i in roIdx
        invariant forall j :: 0 <= j < |roIdx| && roIdx[j] !in running ==>
          results[roIdx[j]] == Model.TextOf(world, world.read(tick + roIdx[j], calls[roIdx[j]], files))
      {
        var i :| i in running;
        running := running - {i};
        var c := calls[i];
        var (_, r) := Model.RunTool(world, tick + i, cfg.table[c.name].kind, c, files);
        match r {
          case Ok(out) => results := results[i := out];
          case Err(e) => results := results[i := world.notice(Model.RunError(e))];
        }
      }
    }

    /** Compact. */
    method Compact(force: bool) returns (r: Result<nat>)
      modifies this
      ensures (View(), r) == Model.Compact(cfg, world, old(View()), force)
      ensures Runs.Compacted(cfg, world, old(View()), force, View(), r)
    {
      hide Runs.Compacted;
      Runs.CompactIsCompacted(cfg, world, View(), force);
      var before := EstimateMessages(messages);
      if !force && (cfg.compactBudget <= 0 || before <= cfg.compactBudget) {
        return Ok(0);
      }
      var sys, rest := SplitMessages(messages);
      var keep := cfg.keepRecent;
      if keep < 2 {
        keep := 2;
      }
      if |rest| <= keep {
        return Ok(0);
      }
      var old_, recent := rest[..|rest| - keep], rest[|rest| - keep..];
      var resp := world.summarize(tick, old_);
      tick := tick + 1;
      if resp.TurnFailed? {
        return Err("summarize failed");
      }
      var summary := "";
      if resp.Reply? {
        summary := Model.TurnText(resp);
      }
      if Text.TrimSpace(summary) == "" {
        return Err("empty summary");
      }
      Rebuild(sys, old_, recent, summary);
      var after := EstimateMessages(messages);
      var saved := before - after;
      if saved < 0 {
        saved := 0;
      }
      return Ok(saved);
    }

    method Rebuild(sys: seq<Message>, old_: seq<Message>, recent: seq<Message>, summary: string)
      requires sys == Systems(messages)
      modifies this
      ensures View() == Model.Rebuild(world, old(View()), old_, recent, summary)
    {
      var note := SysMsg(world.notice(Model.SummaryNote(summary)));
      messages := sys + [note] + recent;
      dropped := dropped + old_;
      if |undo| > 0 {
        undo := [];
      }
      base, since := files, |log|;
    }

    /** One round of Run's loop. */
    method Round() returns (exit: Option<Model.Exit>)
      requires Model.Sound(cfg)
      modifies this
      ensures (View(), exit) == Model.Round(cfg, world, old(View()))
    {
      hide Model.ExecBatch;
      var now := tick;
      var t := world.turn(now, messages);
      tick := tick + 1;
      if t.TurnFailed? {
        return Some(if world.cancelled(now) then Model.Interrupted else Model.Failed);
      }
      if t.NoChoices? {
        return Some(Model.Empty);
      }
      var msg := Message(Assistant, t.content, t.toolCalls, "");
      messages := messages + [msg];
      var calls := msg.ParseToolCalls();
      if |calls| == 0 {
        return Some(Model.Answered);
      }
      ExecToolCalls(calls);
      var after := tick;
      tick := tick + 1;
      if world.cancelled(after) {
        return Some(Model.Interrupted);
      }
      return None;
    }

    method Loop() returns (exit: Model.Exit)
      requires Model.Sound(cfg)
      modifies this
      ensures (View(), exit) == Model.Loop(cfg, world, old(View()), cfg.maxSteps)
    {
      hide Model.Round;
      var step := 0;
      while step < cfg.maxSteps
        invariant Model.Loop(cfg, world, View(), cfg.maxSteps - step)
               == Model.Loop(cfg, world, old(View()), cfg.maxSteps)
        decreases cfg.maxSteps - step
      {
        var ended := Round();
        if ended.Some? {
          return ended.value;
        }
        step := step + 1;
      }
      return Model.OutOfSteps;
    }

    /** Run: one user input through the agentic loop. */
    method Run(input: string) returns (exit: Model.Exit)
      requires Model.Sound(cfg)
      modifies this
      ensures (View(), exit) == Model.Run(cfg, world, old(View()), input)
      ensures exists steps, r, begin ::
        && Runs.Compacted(cfg, world, old(View()).(messages := old(messages) + [UserMsg(input)]), false, begin, r)
        && Runs.Chain(world, begin.messages, begin.tick, steps)
        && Runs.Ended(world, if cfg.maxSteps < 0 then 0 else cfg.maxSteps, begin.messages, begin.tick, steps, exit,
                      messages)
    {
      hide Model.Compact, Model.Loop, Runs.Compacted, Runs.Chain, Runs.Ended;
      Runs.CompactIsCompacted(cfg, world, View().(messages := messages + [UserMsg(input)]), false);
      ghost var steps := Runs.RunEnds(cfg, world, View(), input);
      messages := messages + [UserMsg(input)];
      var _ := Compact(false);
      exit := Loop();
    }
  }

  /** Separates system messages from the others, keeping both orders. */
  method SplitMessages(ms: seq<Message>) returns (sys: seq<Message>, rest: seq<Message>)
    ensures sys == Systems(ms) && rest == Others(ms)
  {
    sys, rest := [], [];
    for i := 0 to |ms|
      invariant sys == Systems(ms[..i]) && rest == Others(ms[..i])
    {
      assert ms[..i + 1] == ms[..i] + [ms[i]];
      SystemsAppend(ms[..i], [ms[i]]);
      OthersAppend(ms[..i], [ms[i]]);
      if ms[i].role.System? {
        sys := sys + [ms[i]];
      } else {
        rest := rest + [ms[i]];
      }
    }
    assert ms[..|ms|] == ms;
  }
}
