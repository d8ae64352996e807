/** The coding agent's step machine (internal/agent/agent.go) as functions on its state.  Everything
    outside the agent, the model, the approver and the tools' surroundings, is a `World`: functions
    of a tick that counts outside calls, so that answers are arbitrary but fixed for each call. */
module AgentModel {
  import opened Common
  import opened Schema
  import opened Workspace
  import Text

  datatype Mode = Build | Plan

  /** A tool of the table.  Only destructive tools are gated. */
  datatype Tool = Tool(destructive: bool, kind: ToolKind)

  /** One streamed model turn. */
  datatype Turn = TurnFailed | NoChoices | Reply(content: Content, toolCalls: RawCalls)

  datatype World = World(
    turn: (nat, seq<Message>) -> Turn,
    summarize: (nat, seq<Message>) -> Turn,
    cancelled: nat -> bool,
    approve: (nat, ToolCall) -> bool,
    args: string -> Args,
    preview: ToolCall -> string,
    resolve: Resolver,
    fault: nat -> Fault,
    read: (nat, ToolCall, Files) -> Result<string>,            // read-only tools
    report: (nat, ToolCall, bool) -> string,                   // text of a file tool's outcome
    external: (nat, ToolCall, Files) -> (Files, Result<string>),
    notice: Notice -> string)                                  // the wording of the agent's own texts

  /** The texts the agent writes itself. */
  datatype Notice =
    | UnknownTool(name: string)
    | BlockedInPlanMode(name: string)
    | Denied
    | RunError(text: string)
    | Truncated(chars: nat)
    | SummaryNote(summary: string)

  /** `table` is byName; `approver` tells whether an approver is set; `prompt` is the system prompt
      for a mode and a goal. */
  datatype Config = Config(table: map<string, Tool>, approver: bool, maxSteps: int, compactBudget: int,
                           keepRecent: int, prompt: (Mode, string) -> string)

  /** Tools that are not destructive only read. */
  ghost predicate Sound(cfg: Config) {
    forall n :: n in cfg.table && !cfg.table[n].destructive ==> cfg.table[n].kind.ReadOnly?
  }

  datatype UndoEntry = UndoEntry(desc: string, restore: Restore)

  /** What the gate let through, in order: questions to the approver, captures, and runs of
      destructive tools with the files they ran on; each with the tick of its call. */
  datatype Effect =
    | Asked(tick: nat, call: ToolCall, yes: bool)
    | Captured(tick: nat, call: ToolCall, mode: Mode)
    | Ran(tick: nat, call: ToolCall, mode: Mode, kind: ToolKind, before: Files)

  /** The agent's state.  `log`, `dropped` (non-system messages that compaction or reset removed, in
      order, since the last reset), `base` and `since` (the files and the length of the log when the
      undo history last began) exist for the specification only. */
  datatype State = State(messages: seq<Message>, mode: Mode, goal: string, undo: seq<UndoEntry>, files: Files,
                         tick: nat, log: seq<Effect>, dropped: seq<Message>, base: Files,
                         since: nat)

  // ---- system prompt ----

  /** applySystem: rewrites the leading system message, or puts one in front. */
  function ApplySystem(cfg: Config, s: State): State {
    var sm := SysMsg(cfg.prompt(s.mode, s.goal));
    s.(messages := if s.messages != [] && s.messages[0].role.System? then s.messages[0 := sm] else [sm] + s.messages)
  }

  function New(cfg: Config, files: Files): State {
    ApplySystem(cfg, State([], Build, "", [], files, 0, [], [], files, 0))
  }

  function SetMode(cfg: Config, s: State, m: Mode): State { ApplySystem(cfg, s.(mode := m)) }
  function SetGoal(cfg: Config, s: State, goal: string): State {
    ApplySystem(cfg, s.(goal := Text.TrimSpace(goal)))
  }
  function AddSystem(s: State, text: string): State { s.(messages := s.messages + [SysMsg(text)]) }

  function Reset(s: State): State {
    s.(messages := if s.messages != [] && s.messages[0].role.System? then s.messages[..1] else [], dropped := [])
  }

  // ---- tool execution ----

  const MAX_TOOL_RESULT_CHARS := 8000

  function Clip(w: World, content: string): string {
    if |content| <= MAX_TOOL_RESULT_CHARS then content
    else content[..MAX_TOOL_RESULT_CHARS] + w.notice(Truncated(|content| - MAX_TOOL_RESULT_CHARS))
  }

  /** appendToolResult. */
  function Answer(w: World, s: State, id: string, content: string): State {
    s.(messages := s.messages + [ToolMsg(id, Clip(w, content))])
  }

  function TextOf(w: World, r: Result<string>): string {
    match r case Ok(out) => out case Err(e) => w.notice(RunError(e))
  }

  /** A tool's Run: the files afterwards and its outcome. */
  function RunTool(w: World, n: nat, kind: ToolKind, c: ToolCall, files: Files): (Files, Result<string>) {
    match kind
    case ReadOnly => (files, w.read(n, c, files))
    case External => w.external(n, c, files)
    case _ =>
      var (after, ok) := RunFileTool(w.resolve, kind, w.args(c.arguments), files, w.fault(n));
      (after, if ok then Ok(w.report(n, c, ok)) else Err(w.report(n, c, ok)))
  }

  /** Capture, run, append the result. */
  function Perform(w: World, s: State, n: nat, c: ToolCall, tool: Tool): State {
    var captured := Capture(w.resolve, tool.kind, w.args(c.arguments), s.files);
    var s1 := if captured.None? then s
              else s.(undo := s.undo + [UndoEntry(w.preview(c), captured.value)],
                      log := s.log + [Captured(n, c, s.mode)]);
    var (files, r) := RunTool(w, n, tool.kind, c, s.files);
    var s2 := s1.(files := files,
                  log := if tool.destructive then s1.log + [Ran(n, c, s.mode, tool.kind, s.files)] else s1.log);
    Answer(w, s2, c.id, TextOf(w, r))
  }

  /** execToolCall for the call at tick `n`: unknown tools, plan mode and the approver first. */
  function Exec(cfg: Config, w: World, s: State, n: nat, c: ToolCall): State {
    if c.name !in cfg.table then Answer(w, s, c.id, w.notice(UnknownTool(c.name)))
    else
      var tool := cfg.table[c.name];
      if s.mode.Plan? && tool.destructive then
        Answer(w, s, c.id, w.notice(BlockedInPlanMode(c.name)))
      else if tool.destructive && cfg.approver then
        var yes := w.approve(n, c);
        var s1 := s.(log := s.log + [Asked(n, c, yes)]);
        if yes then Perform(w, s1, n, c, tool) else Answer(w, s1, c.id, w.notice(Denied))
      else Perform(w, s, n, c, tool)
  }

  predicate IsReadOnly(cfg: Config, c: ToolCall) {
    c.name in cfg.table && !cfg.table[c.name].destructive
  }

  predicate InRange(places: seq<nat>, n: nat) { forall j :: 0 <= j < |places| ==> places[j] < n }

  /** The places below `n` whose calls are (or are not) read-only, in order. */
  function Places(cfg: Config, calls: seq<ToolCall>, readOnly: bool, n: nat): seq<nat>
    requires n <= |calls|
    ensures InRange(Places(cfg, calls, readOnly, n), n)
  {
    if n == 0 then []
    else Places(cfg, calls, readOnly, n - 1) + (if IsReadOnly(cfg, calls[n - 1]) == readOnly then [n - 1] else [])
  }

  /** The calls at the given places, one after the other; call i has tick base + i. */
  function ExecPlaces(cfg: Config, w: World, s: State, base: nat, calls: seq<ToolCall>,
                      places: seq<nat>): State
    requires InRange(places, |calls|)
  {
    if places == [] then s
    else
      var last := places[|places| - 1];
      Exec(cfg, w, ExecPlaces(cfg, w, s, base, calls, places[..|places| - 1]), base + last, calls[last])
  }

  lemma ExecNone(cfg: Config, w: World, s: State, base: nat, calls: seq<ToolCall>)
    ensures ExecPlaces(cfg, w, s, base, calls, []) == s
  {
  }

  lemma ExecOneMore(cfg: Config, w: World, s: State, base: nat, calls: seq<ToolCall>, places: seq<nat>, p: nat)
    requires InRange(places, |calls|) && p < |calls|
    ensures InRange(places + [p], |calls|)
    ensures ExecPlaces(cfg, w, s, base, calls, places + [p])
         == Exec(cfg, w, ExecPlaces(cfg, w, s, base, calls, places), base + p, calls[p])
  {
    hide Exec;
    assert (places + [p])[..|places + [p]| - 1] == places;
  }

  lemma ExecNext(cfg: Config, w: World, s: State, base: nat, calls: seq<ToolCall>, places: seq<nat>, p: nat,
                 before: State, after: State)
    requires InRange(places, |calls|) && p < |calls|
    requires before == ExecPlaces(cfg, w, s, base, calls, places)
    requires after == Exec(cfg, w, before, base + p, calls[p])
    ensures InRange(places + [p], |calls|)
    ensures after == ExecPlaces(cfg, w, s, base, calls, places + [p])
  {
    ExecOneMore(cfg, w, s, base, calls, places, p);
  }

  /** A read-only call passes the gate, captures nothing and changes nothing but the messages. */
  lemma ExecOfReadOnly(cfg: Config, w: World, s: State, n: nat, c: ToolCall)
    requires Sound(cfg) && IsReadOnly(cfg, c)
    ensures Exec(cfg, w, s, n, c) == Answer(w, s, c.id, TextOf(w, w.read(n, c, s.files)))
  {
  }

  predicate AllReadOnly(cfg: Config, calls: seq<ToolCall>, places: seq<nat>) {
    forall j :: 0 <= j < |places| ==> places[j] < |calls| && IsReadOnly(cfg, calls[places[j]])
  }

  lemma {:induction false} PlacesAreReadOnly(cfg: Config, calls: seq<ToolCall>, n: nat)
    requires n <= |calls|
    ensures AllReadOnly(cfg, calls, Places(cfg, calls, true, n))
    decreases n
  {
    if n > 0 {
      PlacesAreReadOnly(cfg, calls, n - 1);
    }
  }

  lemma {:induction false} PlacesMembers(cfg: Config, calls: seq<ToolCall>, n: nat, i: nat)
    requires i < n <= |calls|
    ensures i in Places(cfg, calls, true, n) <==> IsReadOnly(cfg, calls[i])
    decreases n
  {
    if i < n - 1 {
      PlacesMembers(cfg, calls, n - 1, i);
    } else {
      var before := Places(cfg, calls, true, n - 1);
      if IsReadOnly(cfg, calls[i]) {
        assert (before + [i])[|before|] == i;
      }
    }
  }

  /** The stable partition of a batch: read-only calls in order, then the rest in order. */
  function BatchOrder(cfg: Config, calls: seq<ToolCall>): seq<nat>
    ensures InRange(BatchOrder(cfg, calls), |calls|)
  {
    Places(cfg, calls, true, |calls|) + Places(cfg, calls, false, |calls|)
  }

  /** execToolCalls. */
  function ExecBatch(cfg: Config, w: World, s: State, calls: seq<ToolCall>): State {
    ExecPlaces(cfg, w, s, s.tick, calls, BatchOrder(cfg, calls)).(tick := s.tick + |calls|)
  }

  // ---- compaction ----

  function Tick(s: State): State { s.(tick := s.tick + 1) }

  function TurnText(t: Turn): string
    requires t.Reply?
  {
    match Message(Assistant, t.content, t.toolCalls, "").TextContent()
    case Some(text) => text
    case None => ""
  }

  /** The conversation rebuilt around a summary: all system messages, the note, the recent tail. */
  function Rebuild(w: World, s: State, old_: seq<Message>, recent: seq<Message>, summary: string): State {
    s.(messages := Systems(s.messages) + [SysMsg(w.notice(SummaryNote(summary)))] + recent, undo := [],
       dropped := s.dropped + old_, base := s.files, since := |s.log|)
  }

  /** Compact: the state afterwards and the tokens saved, or an error. */
  function Compact(cfg: Config, w: World, s: State, force: bool): (State, Result<nat>) {
    var before := Estimate(s.messages);
    var rest, keep := Others(s.messages), Max(cfg.keepRecent, 2);
    if !force && (cfg.compactBudget <= 0 || before <= cfg.compactBudget) then (s, Ok(0))
    else if |rest| <= keep then (s, Ok(0))
    else
      var old_, recent := rest[..|rest| - keep], rest[|rest| - keep..];
      var t := w.summarize(s.tick, old_);
      if t.TurnFailed? then (Tick(s), Err("summarize failed"))
      else
        var summary := if t.Reply? then TurnText(t) else "";
        if Text.TrimSpace(summary) == "" then (Tick(s), Err("empty summary"))
        else
          var s1 := Rebuild(w, Tick(s), old_, recent, summary);
          (s1, Ok(Max(before - Estimate(s1.messages), 0)))
  }

  // ---- the loop ----

  datatype Exit = Answered | Interrupted | Empty | Failed | OutOfSteps

  /** One round: a model turn and, if it asks for tools, the batch.  None means go on. */
  function Round(cfg: Config, w: World, s: State): (State, Option<Exit>) {
    match w.turn(s.tick, s.messages)
    case TurnFailed => (Tick(s), Some(if w.cancelled(s.tick) then Interrupted else Failed))
    case NoChoices => (Tick(s), Some(Empty))
    case Reply(content, toolCalls) =>
      var msg := Message(Assistant, content, toolCalls, "");
      var s1 := Tick(s).(messages := s.messages + [msg]);
      var calls := msg.ParseToolCalls();
      if calls == [] then (s1, Some(Answered))
      else
        var s2 := ExecBatch(cfg, w, s1, calls);
        (Tick(s2), if w.cancelled(s2.tick) then Some(Interrupted) else None)
  }

  function Loop(cfg: Config, w: World, s: State, steps: int): (State, Exit)
    decreases if steps < 0 then 0 else steps
  {
    if steps <= 0 then (s, OutOfSteps)
    else
      var (s1, exit) := Round(cfg, w, s);
      if exit.Some? then (s1, exit.value) else Loop(cfg, w, s1, steps - 1)
  }

  /** Run: one user input. */
  function Run(cfg: Config, w: World, s: State, input: string): (State, Exit) {
    Loop(cfg, w, Compact(cfg, w, s.(messages := s.messages + [UserMsg(input)]), false).0, cfg.maxSteps)
  }

  /** Undo: the entry is popped before it is restored. */
  function Undo(s: State): (State, Result<string>) {
    if s.undo == [] then (s, Err("nothing to undo"))
    else
      var e := s.undo[|s.undo| - 1];
      var (files, ok) := Revert(s.files, e.restore);
      (s.(undo := s.undo[..|s.undo| - 1], files := files), if ok then Ok(e.desc) else Err("restore failed"))
  }
}
