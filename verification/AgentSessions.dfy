/** Whole sessions of the agent: every invariant holds after any series of user commands. */
module AgentSessions {
  import opened Common
  import opened Schema
  import opened Workspace
  import opened AgentModel
  import opened AgentShape
  import opened AgentUndo
  import opened AgentGate

  datatype Command =
    | Input(text: string)
    | CompactNow(force: bool)
    | ResetChat
    | Skill(text: string)      // AddSystem
    | Switch(mode: Mode)
    | Goal(text: string)
    | UndoLast

  function Apply(cfg: Config, w: World, s: State, c: Command): State {
    match c
    case Input(text) => Run(cfg, w, s, text).0
    case CompactNow(force) => Compact(cfg, w, s, force).0
    case ResetChat => Reset(s)
    case Skill(text) => AddSystem(s, text)
    case Switch(mode) => SetMode(cfg, s, mode)
    case Goal(text) => SetGoal(cfg, s, text)
    case UndoLast => Undo(s).0
  }

  function Session(cfg: Config, w: World, s: State, commands: seq<Command>): State
    decreases |commands|
  {
    if commands == [] then s else Session(cfg, w, Apply(cfg, w, s, commands[0]), commands[1..])
  }

  /** The history leads back to the base if every run logged since it began is reversible. */
  ghost predicate LeadsBack(w: World, s: State) {
    s.since <= |s.log| && (AllReversible(w, s.log[s.since..]) ==> Unwind(s.files, s.undo) == s.base)
  }

  ghost predicate Invariant(cfg: Config, w: World, s: State) {
    Shaped(s) && Gated(cfg, s.log) && Truthful(cfg, w, s.log) && LeadsBack(w, s)
  }

  lemma UndoesLeadsBack(w: World, s: State, t: State)
    requires LeadsBack(w, s) && Undoes(w, s, t)
    ensures LeadsBack(w, t)
  {
    var added := t.undo[|s.undo|..];
    assert t.undo == s.undo + added;
    UnwindAppend(t.files, s.undo, added);
    var recent := t.log[t.since..];
    if AllReversible(w, recent) {
      forall i | 0 <= i < |s.log[s.since..]| ensures ReversibleEffect(w, s.log[s.since..][i]) {
        assert s.log[s.since..][i] == recent[i];
      }
      forall i | 0 <= i < |t.log[|s.log|..]| ensures ReversibleEffect(w, t.log[|s.log|..][i]) {
        assert t.log[|s.log|..][i] == recent[i + |s.log| - s.since];
      }
    }
  }

  lemma CompactLeadsBack(cfg: Config, w: World, s: State, force: bool)
    requires LeadsBack(w, s)
    ensures LeadsBack(w, Compact(cfg, w, s, force).0)
    ensures Compact(cfg, w, s, force).0.log == s.log
  {
  }

  lemma InputKeeps(cfg: Config, w: World, s: State, text: string)
    requires Sound(cfg) && Invariant(cfg, w, s)
    ensures Invariant(cfg, w, Run(cfg, w, s, text).0)
  {
    hide Compact, Loop, Gated, Truthful, LeadsBack, Undoes, Shaped, Transcript;
    var s1 := s.(messages := s.messages + [UserMsg(text)]);
    var s2 := Compact(cfg, w, s1, false).0;
    RunExtends(cfg, w, s, text);
    RunGated(cfg, w, s, text);
    RunAsksTruthfully(cfg, w, s, text);
    MessagesLeadBack(w, s, s1);
    CompactLeadsBack(cfg, w, s1, false);
    LoopUndoes(cfg, w, s2, cfg.maxSteps);
    UndoesLeadsBack(w, s2, Loop(cfg, w, s2, cfg.maxSteps).0);
  }

  lemma MessagesLeadBack(w: World, s: State, t: State)
    requires LeadsBack(w, s) && t == s.(messages := t.messages)
    ensures LeadsBack(w, t)
  {
  }

  lemma ApplyKeeps(cfg: Config, w: World, s: State, c: Command)
    requires Sound(cfg) && Invariant(cfg, w, s)
    ensures Invariant(cfg, w, Apply(cfg, w, s, c))
  {
    hide WellFormed, Others, Run, Compact, Gated, Truthful, AllReversible;
    match c
    case Input(text) => InputKeeps(cfg, w, s, text);
    case CompactNow(force) =>
      CompactKeepsTranscript(cfg, w, s, force);
      CompactLeadsBack(cfg, w, s, force);
    case ResetChat => ResetKeeps(s);
    case Skill(text) => AddSystemKeeps(s, text);
    case Switch(mode) => ApplySystemKeeps(cfg, s.(mode := mode));
    case Goal(text) => ApplySystemKeeps(cfg, s.(goal := SetGoal(cfg, s, text).goal));
    case UndoLast =>
  }

  lemma {:induction false} SessionKeeps(cfg: Config, w: World, s: State, commands: seq<Command>)
    requires Sound(cfg) && Invariant(cfg, w, s)
    ensures Invariant(cfg, w, Session(cfg, w, s, commands))
    decreases |commands|
  {
    if commands != [] {
      ApplyKeeps(cfg, w, s, commands[0]);
      SessionKeeps(cfg, w, Apply(cfg, w, s, commands[0]), commands[1..]);
    }
  }

  lemma NewHolds(cfg: Config, w: World, files: Files)
    ensures Invariant(cfg, w, New(cfg, files))
  {
    ApplySystemKeeps(cfg, State([], Build, "", [], files, 0, [], [], files, 0));
  }

  /** Every reachable state: message 0 is a system message; the non-system messages are, up to a cut
      at the front, whole blocks; everything destructive passed the gate; and undoing everything
      leads back to the files at which the history began, if every run since then is reversible. */
  lemma EverySession(cfg: Config, w: World, files: Files, commands: seq<Command>)
    returns (n: nat)
    requires Sound(cfg)
    ensures var s := Session(cfg, w, New(cfg, files), commands);
      && Invariant(cfg, w, s)
      && var others := Others(s.messages);
         n <= |others| && (forall i :: 0 <= i < n ==> others[i].role.Tool?) && WellFormed(others[n..])
    ensures var s := Session(cfg, w, New(cfg, files), commands);
      s.since <= |s.log| && (AllReversible(w, s.log[s.since..]) ==>
        UndoTimes(s, |s.undo|).files == s.base && UndoTimes(s, |s.undo|).undo == [])
  {
    NewHolds(cfg, w, files);
    SessionKeeps(cfg, w, New(cfg, files), commands);
    var s := Session(cfg, w, New(cfg, files), commands);
    n := CutOnlyAtFront(s.dropped, Others(s.messages));
    UndoAllUnwinds(s);
  }

  /** The user never approves a tool that undo does not cover: no uncaptured tool (bash, MCP tools) and
      no move.  A table without such tools needs no approver. */
  ghost predicate OnlyUndoable(cfg: Config, w: World) {
    forall c: ToolCall ::
      c.name in cfg.table && (cfg.table[c.name].kind.External? || cfg.table[c.name].kind.MoveFile?) ==>
      cfg.approver && forall n :: !w.approve(n, c)
  }

  /** Then every run is reversible, whatever the model does. */
  lemma GateKeepsReversible(cfg: Config, w: World, log: seq<Effect>, from: nat)
    requires OnlyUndoable(cfg, w) && Gated(cfg, log) && Truthful(cfg, w, log) && from <= |log|
    ensures AllReversible(w, log[from..])
  {
    forall i | 0 <= i < |log[from..]| ensures ReversibleEffect(w, log[from..][i]) {
      var e := log[from + i];
      assert log[from..][i] == e && GatedAt(cfg, log, from + i);
      if e.Ran? && cfg.approver {
        var j := if log[from + i - 1] == Asked(e.tick, e.call, true) then from + i - 1 else from + i - 2;
        assert log[j] == Asked(e.tick, e.call, true);
        assert w.approve(e.tick, e.call);
      }
    }
  }

  predicate NeverCompacts(cfg: Config, commands: seq<Command>) {
    cfg.compactBudget <= 0 && forall c :: c in commands ==> !c.CompactNow?
  }

  lemma {:induction false} BaseStays(cfg: Config, w: World, s: State, commands: seq<Command>)
    requires Sound(cfg) && NeverCompacts(cfg, commands)
    ensures Session(cfg, w, s, commands).base == s.base && Session(cfg, w, s, commands).since == s.since
    decreases |commands|
  {
    if commands != [] {
      var c := commands[0];
      if c.Input? {
        LoopUndoes(cfg, w, s.(messages := s.messages + [UserMsg(c.text)]), cfg.maxSteps);
      }
      BaseStays(cfg, w, Apply(cfg, w, s, c), commands[1..]);
    }
  }

  /** With any tool table, and a user who approves only what undo covers: after any session, undoing
      until the history is empty restores every file to what it was when the history began; without
      compaction, to what it was when the agent was built. */
  lemma UndoRestoresStart(cfg: Config, w: World, files: Files, commands: seq<Command>)
    requires Sound(cfg) && OnlyUndoable(cfg, w)
    ensures var s := Session(cfg, w, New(cfg, files), commands);
      && UndoTimes(s, |s.undo|).files == s.base && UndoTimes(s, |s.undo|).undo == []
      && (NeverCompacts(cfg, commands) ==> s.base == files)
  {
    var n := EverySession(cfg, w, files, commands);
    var s := Session(cfg, w, New(cfg, files), commands);
    GateKeepsReversible(cfg, w, s.log, s.since);
    if NeverCompacts(cfg, commands) {
      BaseStays(cfg, w, New(cfg, files), commands);
    }
  }

  /** With any tools, the same without compaction after a session all of whose runs were reversible. */
  lemma ReversibleSessionIsUndone(cfg: Config, w: World, files: Files, commands: seq<Command>)
    requires Sound(cfg) && NeverCompacts(cfg, commands)
    requires AllReversible(w, Session(cfg, w, New(cfg, files), commands).log)
    ensures var s := Session(cfg, w, New(cfg, files), commands);
      UndoTimes(s, |s.undo|).files == files && UndoTimes(s, |s.undo|).undo == []
  {
    var n := EverySession(cfg, w, files, commands);
    BaseStays(cfg, w, New(cfg, files), commands);
    var log := Session(cfg, w, New(cfg, files), commands).log;
    assert log[0..] == log;
  }
}
