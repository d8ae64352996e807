/** When a run goes on and why it stops, told from the messages, the ticks and the world's answers. */
module AgentRuns {
  import opened Common
  import opened Schema
  import opened AgentModel
  import opened AgentShape
  import Text

  /** One completed round: when and with which messages the model was asked, what it replied, and the
      results its calls were given. */
  datatype Step = Step(tick: nat, prompt: seq<Message>, content: Content, toolCalls: RawCalls, results: seq<Message>)

  function CallsIn(toolCalls: RawCalls): seq<ToolCall> { if toolCalls.bytes == 0 then [] else toolCalls.calls }

  function ReplyMessage(content: Content, toolCalls: RawCalls): Message { Message(Assistant, content, toolCalls, "") }

  /** The tick of the question whether the run was cancelled, after a round. */
  function AskedAt(st: Step): nat { st.tick + 1 + |CallsIn(st.toolCalls)| }

  /** The model replied with calls, and each got its result. */
  ghost predicate Took(w: World, st: Step) {
    && w.turn(st.tick, st.prompt) == Turn.Reply(st.content, st.toolCalls)
    && CallsIn(st.toolCalls) != [] && Answers(CallsIn(st.toolCalls), st.results)
  }

  /** The messages and the tick after a number of rounds. */
  function PromptAt(m0: seq<Message>, steps: seq<Step>, i: nat): seq<Message>
    requires i <= |steps|
  {
    if i == 0 then m0 else After(steps[i - 1])
  }

  function TickAt(t0: nat, steps: seq<Step>, i: nat): nat
    requires i <= |steps|
  {
    if i == 0 then t0 else AskedAt(steps[i - 1]) + 1
  }

  /** Rounds that follow one another, none but perhaps the last of them cancelled. */
  ghost predicate Chain(w: World, m0: seq<Message>, t0: nat, steps: seq<Step>) {
    && (forall i :: 0 <= i < |steps| ==>
          steps[i].prompt == PromptAt(m0, steps, i) && steps[i].tick == TickAt(t0, steps, i) && Took(w, steps[i]))
    && (forall i :: 0 <= i < |steps| - 1 ==> !w.cancelled(AskedAt(steps[i])))
  }

  /** How a run ended after its completed rounds: it was cancelled after the last of them; or they were as
      many as allowed; or the model was asked once more, and failed (cancelled meanwhile or not), had no
      choices, or replied without calls. */
  ghost predicate Ended(w: World, max: nat, m0: seq<Message>, t0: nat, steps: seq<Step>, exit: Exit,
                        messages: seq<Message>)
  {
    var n := |steps|;
    var m, t := PromptAt(m0, steps, n), TickAt(t0, steps, n);
    var stopped := n > 0 && w.cancelled(AskedAt(steps[n - 1]));
    var asked := n < max && !stopped;
    var turn := w.turn(t, m);
    && n <= max
    && (exit == OutOfSteps <==> n == max && !stopped)
    && (exit == Interrupted <==> stopped || (asked && turn.TurnFailed? && w.cancelled(t)))
    && (exit == Failed <==> asked && turn.TurnFailed? && !w.cancelled(t))
    && (exit == Empty <==> asked && turn.NoChoices?)
    && (exit == Answered <==> asked && turn.Reply? && CallsIn(turn.toolCalls) == [])
    && messages == if exit == Answered then m + [ReplyMessage(turn.content, turn.toolCalls)] else m
  }

  /** The messages after a round. */
  function After(st: Step): seq<Message> {
    st.prompt + ([ReplyMessage(st.content, st.toolCalls)] + st.results)
  }

  lemma Shift(st: Step, m0: seq<Message>, t0: nat, rest: seq<Step>, i: nat)
    requires i <= |rest|
    ensures PromptAt(m0, [st] + rest, i + 1) == PromptAt(After(st), rest, i)
    ensures TickAt(t0, [st] + rest, i + 1) == TickAt(AskedAt(st) + 1, rest, i)
  {
    hide AskedAt, ReplyMessage;
    var steps := [st] + rest;
    if i > 0 {
      assert steps[i] == rest[i - 1];
    } else {
      assert steps[0] == st;
    }
  }

  /** A round in front of a chain. */
  lemma ChainPrepend(w: World, st: Step, m0: seq<Message>, t0: nat, rest: seq<Step>)
    requires Took(w, st) && st.prompt == m0 && st.tick == t0 && !w.cancelled(AskedAt(st))
    requires Chain(w, After(st), AskedAt(st) + 1, rest)
    ensures Chain(w, m0, t0, [st] + rest)
  {
    hide Took, AskedAt, After;
    var steps := [st] + rest;
    forall i | 0 <= i < |steps|
      ensures steps[i].prompt == PromptAt(m0, steps, i) && steps[i].tick == TickAt(t0, steps, i) && Took(w, steps[i])
    {
      if i > 0 {
        assert steps[i] == rest[i - 1];
        Shift(st, m0, t0, rest, i - 1);
      }
    }
    forall i | 0 <= i < |steps| - 1 ensures !w.cancelled(AskedAt(steps[i])) {
      if i > 0 {
        assert steps[i] == rest[i - 1];
      }
    }
  }

  lemma EndedPrepend(w: World, st: Step, m0: seq<Message>, t0: nat, rest: seq<Step>, max: nat, exit: Exit,
                     messages: seq<Message>)
    requires !w.cancelled(AskedAt(st)) && Ended(w, max, After(st), AskedAt(st) + 1, rest, exit, messages)
    ensures Ended(w, max + 1, m0, t0, [st] + rest, exit, messages)
  {
    hide AskedAt, After, PromptAt, TickAt, ReplyMessage, CallsIn;
    var steps := [st] + rest;
    Shift(st, m0, t0, rest, |rest|);
    if rest != [] {
      assert steps[|steps| - 1] == rest[|rest| - 1];
    }
  }

  lemma NoSteps(w: World, m0: seq<Message>, t0: nat)
    ensures Chain(w, m0, t0, []) && PromptAt(m0, [], 0) == m0 && TickAt(t0, [], 0) == t0
  {
  }

  lemma OneStep(w: World, m0: seq<Message>, t0: nat, st: Step)
    requires Took(w, st) && st.prompt == m0 && st.tick == t0
    ensures Chain(w, m0, t0, [st]) && PromptAt(m0, [st], 1) == After(st) && TickAt(t0, [st], 1) == AskedAt(st) + 1
  {
    hide Took, AskedAt, ReplyMessage;
  }

  /** A round whose reply has calls. */
  lemma RoundTakes(cfg: Config, w: World, s: State, turn: Turn) returns (st: Step)
    requires turn == w.turn(s.tick, s.messages) && turn.Reply? && CallsIn(turn.toolCalls) != []
    ensures Took(w, st) && st.prompt == s.messages && st.tick == s.tick
    ensures var (t, exit) := Round(cfg, w, s);
      && t.messages == After(st) && t.tick == AskedAt(st) + 1
      && exit == if w.cancelled(AskedAt(st)) then Some(Interrupted) else None
  {
    hide ExecBatch, Answers;
    var msg := ReplyMessage(turn.content, turn.toolCalls);
    var calls := CallsIn(turn.toolCalls);
    assert msg.ParseToolCalls() == calls;
    var s1 := Tick(s).(messages := s.messages + [msg]);
    var results := BatchAnswers(cfg, w, s1, calls);
    var s2 := ExecBatch(cfg, w, s1, calls);
    BatchTicks(cfg, w, s1, calls);
    st := Step(s.tick, s.messages, turn.content, turn.toolCalls, results);
    assert s2.messages == s.messages + ([msg] + results);
  }

  lemma BatchTicks(cfg: Config, w: World, s: State, calls: seq<ToolCall>)
    ensures ExecBatch(cfg, w, s, calls).tick == s.tick + |calls|
  {
  }

  /** The loop, round by round. */
  lemma {:induction false} LoopEnds(cfg: Config, w: World, s: State, max: int) returns (steps: seq<Step>)
    ensures Chain(w, s.messages, s.tick, steps)
    ensures var (t, exit) := Loop(cfg, w, s, max);
      Ended(w, if max < 0 then 0 else max, s.messages, s.tick, steps, exit, t.messages)
    decreases if max < 0 then 0 else max
  {
    hide Round, Chain, Took, Ended, AskedAt, After, CallsIn;
    NoSteps(w, s.messages, s.tick);
    if max <= 0 {
      steps := [];
      NoRounds(w, s.messages, s.tick);
    } else {
      var turn := w.turn(s.tick, s.messages);
      if turn.Reply? && CallsIn(turn.toolCalls) != [] {
        var st := RoundTakes(cfg, w, s, turn);
        var (s1, exit) := Round(cfg, w, s);
        if exit.Some? {
          OneStep(w, s.messages, s.tick, st);
          steps := [st];
          CancelledEnds(w, max, s.messages, s.tick, st);
        } else {
          steps := LoopEnds(cfg, w, s1, max - 1);
          ChainPrepend(w, st, s.messages, s.tick, steps);
          EndedPrepend(w, st, s.messages, s.tick, steps, max - 1, Loop(cfg, w, s, max).1,
                       Loop(cfg, w, s, max).0.messages);
          steps := [st] + steps;
        }
      } else {
        steps := [];
        AskedOnce(cfg, w, s, max, turn);
      }
    }
  }

  lemma NoRounds(w: World, m0: seq<Message>, t0: nat)
    ensures Ended(w, 0, m0, t0, [], OutOfSteps, m0)
  {
  }

  lemma CancelledEnds(w: World, max: nat, m0: seq<Message>, t0: nat, st: Step)
    requires max > 0 && w.cancelled(AskedAt(st))
    ensures Ended(w, max, m0, t0, [st], Interrupted, After(st))
  {
    hide AskedAt, CallsIn;
  }

  lemma AskedOnce(cfg: Config, w: World, s: State, max: nat, turn: Turn)
    requires max > 0 && turn == w.turn(s.tick, s.messages) && !(turn.Reply? && CallsIn(turn.toolCalls) != [])
    ensures var (t, exit) := Loop(cfg, w, s, max); Ended(w, max, s.messages, s.tick, [], exit, t.messages)
  {
    hide ExecBatch;
    if turn.Reply? {
      assert ReplyMessage(turn.content, turn.toolCalls).ParseToolCalls() == CallsIn(turn.toolCalls);
    }
  }

  // ---- runs ----

  /** The rounds of a whole run: they start from the user's message, after compaction if there was one. */
  lemma RunEnds(cfg: Config, w: World, s: State, input: string) returns (steps: seq<Step>)
    ensures var s0 := Compact(cfg, w, s.(messages := s.messages + [UserMsg(input)]), false).0;
      var (t, exit) := Run(cfg, w, s, input);
      && Chain(w, s0.messages, s0.tick, steps)
      && Ended(w, if cfg.maxSteps < 0 then 0 else cfg.maxSteps, s0.messages, s0.tick, steps, exit, t.messages)
  {
    hide Compact, Loop, Chain, Ended;
    var s0 := Compact(cfg, w, s.(messages := s.messages + [UserMsg(input)]), false).0;
    steps := LoopEnds(cfg, w, s0, cfg.maxSteps);
  }

  /** Without cancellation and without failing turns, a run ends with an answer, with an empty turn, or
      with all its rounds done. */
  lemma QuietRunEnds(cfg: Config, w: World, s: State, input: string) returns (steps: seq<Step>)
    requires (forall n :: !w.cancelled(n)) && (forall n, ms :: !w.turn(n, ms).TurnFailed?)
    ensures var exit := Run(cfg, w, s, input).1;
      && (exit == Answered || exit == Empty || exit == OutOfSteps)
      && (exit == OutOfSteps ==> |steps| == if cfg.maxSteps < 0 then 0 else cfg.maxSteps)
  {
    hide Compact, Loop, Chain;
    steps := RunEnds(cfg, w, s, input);
  }

  /** The user's message comes last when a run begins, compacted or not. */
  lemma RunStartsWithInput(cfg: Config, w: World, s: State, input: string)
    ensures var m0 := Compact(cfg, w, s.(messages := s.messages + [UserMsg(input)]), false).0.messages;
      m0 != [] && m0[|m0| - 1] == UserMsg(input)
  {
    hide Estimate, Text.TrimSpace, Others, Systems;
    var ms := s.messages + [UserMsg(input)];
    OthersAppend(s.messages, [UserMsg(input)]);
    assert Others([UserMsg(input)]) == [UserMsg(input)] by { SplitUniform([UserMsg(input)]); }
  }

  /** A message that ends a conversation: from the assistant, without calls. */
  predicate FinalAnswer(ms: seq<Message>) {
    ms != [] && ms[|ms| - 1].role.Assistant? && CallsIn(ms[|ms| - 1].toolCalls) == []
  }

  /** A run was answered exactly if its last message is an answer. */
  lemma AnsweredShows(cfg: Config, w: World, s: State, input: string)
    ensures var (t, exit) := Run(cfg, w, s, input); exit == Answered <==> FinalAnswer(t.messages)
  {
    var steps := RunEnds(cfg, w, s, input);
    RunStartsWithInput(cfg, w, s, input);
    hide Compact, Run;
    var m0 := Compact(cfg, w, s.(messages := s.messages + [UserMsg(input)]), false).0.messages;
    NotYetAnswered(w, m0, steps, Compact(cfg, w, s.(messages := s.messages + [UserMsg(input)]), false).0.tick);
  }

  lemma NotYetAnswered(w: World, m0: seq<Message>, steps: seq<Step>, t0: nat)
    requires Chain(w, m0, t0, steps) && m0 != [] && m0[|m0| - 1].role.User?
    ensures !FinalAnswer(PromptAt(m0, steps, |steps|))
  {
    if steps != [] {
      var last := steps[|steps| - 1];
      assert Took(w, last) && last.results != [];
      var m := PromptAt(m0, steps, |steps|);
      assert m[|m| - 1] == last.results[|last.results| - 1];
    }
  }

  // ---- compaction ----

  /** What compaction did.  It is wanted if asked for, or if the conversation is over a positive budget; and
      only if there are more messages than those to be kept, which are at least two.  The older ones then
      go to the model; a failure or a blank summary leaves everything as it was; otherwise all system
      messages, the note and the kept messages remain, and the undo history is cleared. */
  ghost predicate Compacted(cfg: Config, w: World, s: State, force: bool, t: State, r: Result<nat>) {
    var others := Others(s.messages);
    var keep := if cfg.keepRecent < 2 then 2 else cfg.keepRecent;
    var wanted := (force || (cfg.compactBudget > 0 && Estimate(s.messages) > cfg.compactBudget)) && |others| > keep;
    if !wanted then t == s && r == Ok(0)
    else
      var turn := w.summarize(s.tick, others[..|others| - keep]);
      var text := if turn.Reply? then
                    (match ReplyMessage(turn.content, turn.toolCalls).TextContent() case Some(x) => x case None => "")
                  else "";
      if turn.TurnFailed? || Text.Blank(text) then r.Err? && t == s.(tick := s.tick + 1)
      else
        && t.messages
           == Systems(s.messages) + [SysMsg(w.notice(SummaryNote(text)))] + others[|others| - keep..]
        && t.undo == [] && t.files == s.files && t.mode == s.mode && t.goal == s.goal && t.tick == s.tick + 1
        && r.Ok? && r.value == (if Estimate(t.messages) < Estimate(s.messages)
                                then Estimate(s.messages) - Estimate(t.messages) else 0)
  }

  lemma CompactIsCompacted(cfg: Config, w: World, s: State, force: bool)
    ensures Compacted(cfg, w, s, force, Compact(cfg, w, s, force).0, Compact(cfg, w, s, force).1)
  {
    hide Estimate, Others, Systems, Text.TrimSpace, Text.Blank;
    forall text ensures Text.TrimSpace(text) == "" <==> Text.Blank(text) {
      Text.TrimSpaceBlank(text);
    }
  }

  // ---- the other commands ----

  /** The system prompt of the state's mode and goal comes first, the rest of the conversation stays. */
  ghost predicate Prompted(cfg: Config, s: State, t: State) {
    && t == s.(messages := t.messages, mode := t.mode, goal := t.goal)
    && t.messages != [] && t.messages[0] == SysMsg(cfg.prompt(t.mode, t.goal))
    && t.messages[1..] == if s.messages != [] && s.messages[0].role.System? then s.messages[1..] else s.messages
  }

  /** A new agent: its prompt is the whole conversation, and nothing can be undone. */
  lemma NewMeans(cfg: Config, files: Files)
    ensures New(cfg, files).messages == [SysMsg(cfg.prompt(Build, ""))] && New(cfg, files).undo == []
    ensures New(cfg, files).mode == Build && New(cfg, files).goal == "" && New(cfg, files).files == files
  {
  }

  lemma CommandsMean(cfg: Config, s: State, m: Mode, goal: string, text: string)
    ensures Prompted(cfg, s, SetMode(cfg, s, m)) && SetMode(cfg, s, m).mode == m && SetMode(cfg, s, m).goal == s.goal
    ensures Prompted(cfg, s, SetGoal(cfg, s, goal)) && SetGoal(cfg, s, goal).mode == s.mode
    ensures SetGoal(cfg, s, goal).goal == Text.TrimSpace(goal)
    ensures AddSystem(s, text) == s.(messages := s.messages + [SysMsg(text)])
    ensures Reset(s).files == s.files && Reset(s).undo == s.undo && Reset(s).mode == s.mode
    ensures |Reset(s).messages| <= 1
    ensures s.messages != [] && s.messages[0].role.System? ==> Reset(s).messages == [s.messages[0]]
    ensures (s.messages == [] || !s.messages[0].role.System?) ==> Reset(s).messages == []
  {
  }
}
