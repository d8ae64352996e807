/** The conversation's shape, kept by every step. */
module AgentShape {
  import opened Common
  import opened Schema
  import opened AgentModel

  function CallIds(calls: seq<ToolCall>): seq<string> {
    if calls == [] then [] else CallIds(calls[..|calls| - 1]) + [calls[|calls| - 1].id]
  }

  function ResultIds(ms: seq<Message>): seq<string> {
    if ms == [] then [] else ResultIds(ms[..|ms| - 1]) + [ms[|ms| - 1].toolCallID]
  }

  /** One tool result for each call, in some order. */
  ghost predicate Answers(calls: seq<ToolCall>, results: seq<Message>) {
    && |results| == |calls|
    && (forall i :: 0 <= i < |results| ==> results[i].role.Tool?)
    && multiset(ResultIds(results)) == multiset(CallIds(calls))
  }

  /** The length of the block that a message opens: a user message stands alone, an assistant message
      is followed by the results of its calls. */
  function BlockSize(m: Message): nat {
    if m.role.Assistant? then 1 + |m.ParseToolCalls()| else 1
  }

  ghost predicate IsBlock(ms: seq<Message>) {
    && ms != [] && |ms| == BlockSize(ms[0])
    && (ms[0].role.User? || (ms[0].role.Assistant? && Answers(ms[0].ParseToolCalls(), ms[1..])))
  }

  /** A sequence of blocks. */
  ghost predicate WellFormed(ms: seq<Message>)
    decreases |ms|
  {
    ms == [] ||
    (BlockSize(ms[0]) <= |ms| && IsBlock(ms[..BlockSize(ms[0])]) && WellFormed(ms[BlockSize(ms[0])..]))
  }

  /** The invariant: a system message first, and the non-system messages, put after those that were
      dropped, are a sequence of blocks. */
  ghost predicate Shaped(s: State) {
    && s.messages != [] && s.messages[0].role.System?
    && WellFormed(s.dropped + Others(s.messages))
  }

  /** Everything said since the last reset. */
  function Transcript(s: State): seq<Message> { s.dropped + Others(s.messages) }

  lemma BlockThenRest(ms: seq<Message>, n: nat)
    requires 0 < n <= |ms| && n == BlockSize(ms[0]) && IsBlock(ms[..n]) && WellFormed(ms[n..])
    ensures WellFormed(ms)
  {
  }

  lemma BlockIsWellFormed(block: seq<Message>)
    requires IsBlock(block)
    ensures WellFormed(block)
  {
    assert block[..|block|] == block && block[|block|..] == [];
    BlockThenRest(block, |block|);
  }

  lemma {:induction false} WellFormedAppend(a: seq<Message>, block: seq<Message>)
    requires WellFormed(a) && IsBlock(block)
    ensures WellFormed(a + block)
    decreases |a|
  {
    hide IsBlock;
    if a == [] {
      assert a + block == block;
      BlockIsWellFormed(block);
    } else {
      var n := BlockSize(a[0]);
      WellFormedAppend(a[n..], block);
      assert (a + block)[..n] == a[..n] && (a + block)[n..] == a[n..] + block;
      BlockThenRest(a + block, n);
    }
  }

  lemma BlockTail(block: seq<Message>, k: nat)
    requires IsBlock(block) && 0 < k < |block|
    ensures block[k].role.Tool?
  {
    assert block[k] == block[1..][k - 1];
  }

  /** Only the front can be cut: what is left of a sequence of blocks after its first messages are
      dropped is some tool results, all of the block that was cut, and then whole blocks. */
  lemma {:induction false} CutOnlyAtFront(dropped: seq<Message>, kept: seq<Message>) returns (n: nat)
    requires WellFormed(dropped + kept)
    ensures n <= |kept| && (forall i :: 0 <= i < n ==> kept[i].role.Tool?) && WellFormed(kept[n..])
    ensures dropped == [] ==> n == 0
    decreases |dropped|
  {
    if dropped == [] {
      n := 0;
      assert dropped + kept == kept && kept[0..] == kept;
    } else {
      var all, b := dropped + kept, BlockSize(dropped[0]);
      if b <= |dropped| {
        assert all[b..] == dropped[b..] + kept;
        n := CutOnlyAtFront(dropped[b..], kept);
        if |dropped[b..]| == 0 {
          assert kept[n..] == kept;
        }
      } else {
        n := b - |dropped|;
        assert kept[n..] == all[b..];
        var block := all[..b];
        assert IsBlock(block);
        forall i | 0 <= i < n ensures kept[i].role.Tool? {
          assert kept[i] == all[|dropped| + i] == block[|dropped| + i];
          BlockTail(block, |dropped| + i);
        }
      }
    }
  }

  // ---- tool batches ----

  /** What a call appends: nothing but one tool message with its id. */
  lemma ExecAppends(cfg: Config, w: World, s: State, n: nat, c: ToolCall) returns (m: Message)
    ensures m.role.Tool? && m.toolCallID == c.id
    ensures Exec(cfg, w, s, n, c).messages == s.messages + [m]
    ensures Exec(cfg, w, s, n, c).dropped == s.dropped
  {
    var t := Exec(cfg, w, s, n, c);
    m := t.messages[|t.messages| - 1];
  }

  function IdsAt(calls: seq<ToolCall>, places: seq<nat>): seq<string>
    requires InRange(places, |calls|)
  {
    if places == [] then [] else IdsAt(calls, places[..|places| - 1]) + [calls[places[|places| - 1]].id]
  }

  lemma ResultIdsSnoc(ms: seq<Message>, m: Message)
    ensures ResultIds(ms + [m]) == ResultIds(ms) + [m.toolCallID]
  {
    assert (ms + [m])[..|ms + [m]| - 1] == ms;
  }

  /** From s to t, exactly these tool results were appended. */
  ghost predicate Added(s: State, t: State, results: seq<Message>, ids: seq<string>) {
    && t.messages == s.messages + results && t.dropped == s.dropped
    && (forall i :: 0 <= i < |results| ==> results[i].role.Tool?)
    && ResultIds(results) == ids
  }

  lemma AddedMore(s: State, t: State, results: seq<Message>, ids: seq<string>, u: State, m: Message)
    requires Added(s, t, results, ids)
    requires u.messages == t.messages + [m] && u.dropped == t.dropped && m.role.Tool?
    ensures Added(s, u, results + [m], ids + [m.toolCallID])
  {
    ResultIdsSnoc(results, m);
    assert s.messages + results + [m] == s.messages + (results + [m]);
  }

  lemma ExecAdds(cfg: Config, w: World, s: State, t: State, n: nat, c: ToolCall, results: seq<Message>,
                 ids: seq<string>) returns (more: seq<Message>)
    requires Added(s, t, results, ids)
    ensures Added(s, Exec(cfg, w, t, n, c), more, ids + [c.id])
    ensures |more| == |results| + 1
  {
    var m := ExecAppends(cfg, w, t, n, c);
    AddedMore(s, t, results, ids, Exec(cfg, w, t, n, c), m);
    more := results + [m];
  }

  lemma IdsAtMore(calls: seq<ToolCall>, places: seq<nat>, p: nat)
    requires InRange(places, |calls|) && p < |calls|
    ensures InRange(places + [p], |calls|)
    ensures IdsAt(calls, places + [p]) == IdsAt(calls, places) + [calls[p].id]
  {
    assert (places + [p])[..|places + [p]| - 1] == places;
  }

  lemma PlacesAppendOne(cfg: Config, w: World, s: State, base: nat, calls: seq<ToolCall>, places: seq<nat>, p: nat,
                        t: State, results: seq<Message>) returns (more: seq<Message>)
    requires InRange(places, |calls|) && p < |calls| && t == ExecPlaces(cfg, w, s, base, calls, places)
    requires Added(s, t, results, IdsAt(calls, places))
    ensures InRange(places + [p], |calls|)
    ensures Added(s, ExecPlaces(cfg, w, s, base, calls, places + [p]), more, IdsAt(calls, places + [p]))
  {
    hide Exec;
    more := ExecAdds(cfg, w, s, t, base + p, calls[p], results, IdsAt(calls, places));
    ghost var u := Exec(cfg, w, t, base + p, calls[p]);
    ExecNext(cfg, w, s, base, calls, places, p, t, u);
    IdsAtMore(calls, places, p);
  }

  lemma {:induction false} PlacesAppend(cfg: Config, w: World, s: State, base: nat, calls: seq<ToolCall>,
                                        places: seq<nat>) returns (results: seq<Message>)
    requires InRange(places, |calls|)
    ensures Added(s, ExecPlaces(cfg, w, s, base, calls, places), results, IdsAt(calls, places))
    decreases |places|
  {
    hide Exec;
    if places == [] {
      results := [];
      assert s.messages + [] == s.messages;
    } else {
      var init, last := places[..|places| - 1], places[|places| - 1];
      results := PlacesAppend(cfg, w, s, base, calls, init);
      results := PlacesAppendOne(cfg, w, s, base, calls, init, last, ExecPlaces(cfg, w, s, base, calls, init), results);
      assert init + [last] == places;
    }
  }

  lemma {:induction false} IdsAtAppend(calls: seq<ToolCall>, a: seq<nat>, b: seq<nat>)
    requires InRange(a, |calls|) && InRange(b, |calls|)
    ensures InRange(a + b, |calls|) && IdsAt(calls, a + b) == IdsAt(calls, a) + IdsAt(calls, b)
    decreases |b|
  {
    if b == [] {
      assert a + b == a;
      assert IdsAt(calls, a) + [] == IdsAt(calls, a);
    } else {
      assert (a + b)[..|a + b| - 1] == a + b[..|b| - 1];
      IdsAtAppend(calls, a, b[..|b| - 1]);
    }
  }

  lemma IdsAtSnoc(calls: seq<ToolCall>, places: seq<nat>, p: nat)
    requires InRange(places, |calls|) && p < |calls|
    ensures InRange(places + [p], |calls|)
    ensures multiset(IdsAt(calls, places + [p])) == multiset(IdsAt(calls, places)) + multiset{calls[p].id}
  {
    assert (places + [p])[..|places + [p]| - 1] == places;
  }

  lemma CallIdsSnoc(calls: seq<ToolCall>, n: nat)
    requires 0 < n <= |calls|
    ensures multiset(CallIds(calls[..n])) == multiset(CallIds(calls[..n - 1])) + multiset{calls[n - 1].id}
  {
    assert calls[..n][..n - 1] == calls[..n - 1];
  }

  lemma PlacesStep(cfg: Config, calls: seq<ToolCall>, readOnly: bool, n: nat)
    requires 0 < n <= |calls|
    ensures Places(cfg, calls, readOnly, n)
         == if IsReadOnly(cfg, calls[n - 1]) == readOnly then Places(cfg, calls, readOnly, n - 1) + [n - 1]
            else Places(cfg, calls, readOnly, n - 1)
  {
  }

  /** Two lists of places hold the ids of the first n calls, each once. */
  ghost predicate Covers(calls: seq<ToolCall>, ro: seq<nat>, rest: seq<nat>, n: nat)
    requires n <= |calls|
  {
    && InRange(ro, |calls|) && InRange(rest, |calls|)
    && multiset(IdsAt(calls, ro)) + multiset(IdsAt(calls, rest)) == multiset(CallIds(calls[..n]))
  }

  lemma CoversNothing(calls: seq<ToolCall>)
    ensures Covers(calls, [], [], 0)
  {
    assert calls[..0] == [];
  }

  lemma CoversMore(calls: seq<ToolCall>, ro: seq<nat>, rest: seq<nat>, n: nat)
    requires n < |calls| && Covers(calls, ro, rest, n)
    ensures Covers(calls, ro + [n], rest, n + 1) && Covers(calls, ro, rest + [n], n + 1)
  {
    hide IdsAt, CallIds;
    CallIdsSnoc(calls, n + 1);
    IdsAtSnoc(calls, ro, n);
    IdsAtSnoc(calls, rest, n);
  }

  /** The two halves of the partition hold every call once. */
  lemma {:induction false} PartitionCovers(cfg: Config, calls: seq<ToolCall>, n: nat)
    requires n <= |calls|
    ensures Covers(calls, Places(cfg, calls, true, n), Places(cfg, calls, false, n), n)
    decreases n
  {
    hide Covers, Places, IsReadOnly, InRange;
    if n == 0 {
      CoversNothing(calls);
      NoPlaces(cfg, calls, true);
      NoPlaces(cfg, calls, false);
    } else {
      PartitionCovers(cfg, calls, n - 1);
      CoversMore(calls, Places(cfg, calls, true, n - 1), Places(cfg, calls, false, n - 1), n - 1);
      PlacesStep(cfg, calls, true, n);
      PlacesStep(cfg, calls, false, n);
    }
  }

  lemma NoPlaces(cfg: Config, calls: seq<ToolCall>, readOnly: bool)
    ensures Places(cfg, calls, readOnly, 0) == []
  {
  }

  /** A batch appends one result for each call and nothing else, whatever the schedule of the
      fan-out. */
  lemma BatchAnswers(cfg: Config, w: World, s: State, calls: seq<ToolCall>) returns (results: seq<Message>)
    ensures var t := ExecBatch(cfg, w, s, calls); t.messages == s.messages + results && t.dropped == s.dropped
    ensures Answers(calls, results)
    ensures ResultIds(results) == IdsAt(calls, BatchOrder(cfg, calls))
  {
    results := PlacesAppend(cfg, w, s, s.tick, calls, BatchOrder(cfg, calls));
    PartitionCovers(cfg, calls, |calls|);
    IdsAtAppend(calls, Places(cfg, calls, true, |calls|), Places(cfg, calls, false, |calls|));
    assert calls[..|calls|] == calls;
    SameLength(results);
    CallIdsLength(calls);
    assert |multiset(ResultIds(results))| == |multiset(CallIds(calls))|;
  }

  lemma {:induction false} SameLength(ms: seq<Message>)
    ensures |ResultIds(ms)| == |ms|
  {
    if ms != [] {
      SameLength(ms[..|ms| - 1]);
    }
  }

  lemma {:induction false} CallIdsLength(calls: seq<ToolCall>)
    ensures |CallIds(calls)| == |calls|
  {
    if calls != [] {
      CallIdsLength(calls[..|calls| - 1]);
    }
  }

  // ---- steps ----

  /** What a step may do to the conversation: keep it shaped and only extend the transcript. */
  ghost predicate Extends(s: State, t: State) {
    Shaped(t) && Transcript(s) <= Transcript(t)
  }

  lemma TranscriptAppends(s: State, t: State, block: seq<Message>)
    requires NoSystem(block) && t.messages == s.messages + block && t.dropped == s.dropped
    ensures Transcript(t) == Transcript(s) + block
  {
    OthersAppend(s.messages, block);
    SplitUniform(block);
    assert s.dropped + (Others(s.messages) + block) == (s.dropped + Others(s.messages)) + block;
  }

  lemma AppendBlock(s: State, t: State, block: seq<Message>)
    requires Shaped(s) && IsBlock(block) && NoSystem(block)
    requires t.messages == s.messages + block && t.dropped == s.dropped
    ensures Extends(s, t) && Transcript(t) == Transcript(s) + block
  {
    TranscriptAppends(s, t, block);
    WellFormedAppend(Transcript(s), block);
    assert t.messages[0] == s.messages[0];
  }

  lemma UserExtends(s: State, input: string)
    requires Shaped(s)
    ensures var t := s.(messages := s.messages + [UserMsg(input)]);
      Extends(s, t) && Transcript(t) == Transcript(s) + [UserMsg(input)]
  {
    var block := [UserMsg(input)];
    assert IsBlock(block);
    AppendBlock(s, s.(messages := s.messages + block), block);
  }

  /** Compaction moves the cut but never changes what was said: the transcript stays as it is. */
  lemma CompactKeepsTranscript(cfg: Config, w: World, s: State, force: bool)
    requires Shaped(s)
    ensures Shaped(Compact(cfg, w, s, force).0)
    ensures Transcript(Compact(cfg, w, s, force).0) == Transcript(s)
  {
    hide WellFormed, Compact, Rebuild, Others;
    var t := Compact(cfg, w, s, force).0;
    var old_, recent, summary := CompactCases(cfg, w, s, force);
    if t != s && t != Tick(s) {
      RebuildKeepsTranscript(w, Tick(s), old_, recent, summary);
    }
  }

  /** Compaction leaves the state, asks in vain, or rebuilds around a cut of the conversation. */
  lemma CompactCases(cfg: Config, w: World, s: State, force: bool)
    returns (old_: seq<Message>, recent: seq<Message>, summary: string)
    ensures var t := Compact(cfg, w, s, force).0;
      || t == s || t == Tick(s)
      || (Others(s.messages) == old_ + recent && t == Rebuild(w, Tick(s), old_, recent, summary))
  {
    hide Estimate, Others, Rebuild, Text.TrimSpace;
    var rest, keep := Others(s.messages), Max(cfg.keepRecent, 2);
    old_, recent, summary := [], [], "";
    if |rest| > keep {
      old_, recent := rest[..|rest| - keep], rest[|rest| - keep..];
      var turn := w.summarize(s.tick, old_);
      summary := if turn.Reply? then TurnText(turn) else "";
    }
  }

  lemma SystemsStart(ms: seq<Message>)
    requires ms != [] && ms[0].role.System?
    ensures Systems(ms) != [] && Systems(ms)[0] == ms[0] && AllSystem(Systems(ms))
  {
    SplitUniform(ms);
  }

  lemma RebuildKeepsTranscript(w: World, s: State, old_: seq<Message>, recent: seq<Message>, summary: string)
    requires Shaped(s) && Others(s.messages) == old_ + recent
    ensures Shaped(Rebuild(w, s, old_, recent, summary))
    ensures Transcript(Rebuild(w, s, old_, recent, summary)) == Transcript(s)
  {
    hide WellFormed;
    var t := Rebuild(w, s, old_, recent, summary);
    var head := Systems(s.messages) + [SysMsg(w.notice(SummaryNote(summary)))];
    SystemsStart(s.messages);
    assert AllSystem(head);
    assert NoSystem(recent) by {
      SplitUniform(s.messages);
      assert forall m :: m in recent ==> m in old_ + recent;
    }
    assert t.messages == head + recent && t.messages[0] == s.messages[0];
    SystemsThenOthers(head, recent);
    assert s.dropped + old_ + recent == s.dropped + (old_ + recent);
    assert Transcript(t) == Transcript(s);
  }

  lemma AnsweredBlock(msg: Message, results: seq<Message>)
    requires msg.role.Assistant? && Answers(msg.ParseToolCalls(), results)
    ensures IsBlock([msg] + results) && NoSystem([msg] + results)
  {
    assert ([msg] + results)[1..] == results;
    assert forall m :: m in results ==> m.role.Tool?;
  }

  lemma NothingAnswersNothing()
    ensures Answers([], [])
  {
  }

  /** An assistant message with the results of its calls is one more block. */
  lemma ReplyExtends(cfg: Config, w: World, s: State, msg: Message)
    requires Shaped(s) && msg.role.Assistant?
    ensures var s1 := Tick(s).(messages := s.messages + [msg]); var calls := msg.ParseToolCalls();
      if calls == [] then Extends(s, s1) else Extends(s, ExecBatch(cfg, w, s1, calls))
  {
    hide Shaped, Transcript, IsBlock, Answers, Extends, ExecBatch;
    var s1, calls := Tick(s).(messages := s.messages + [msg]), msg.ParseToolCalls();
    if calls == [] {
      NothingAnswersNothing();
      AnsweredBlock(msg, []);
      assert [msg] + [] == [msg];
      AppendBlock(s, s1, [msg]);
    } else {
      var results := BatchAnswers(cfg, w, s1, calls);
      AnsweredBlock(msg, results);
      assert s.messages + [msg] + results == s.messages + ([msg] + results);
      AppendBlock(s, ExecBatch(cfg, w, s1, calls), [msg] + results);
    }
  }

  lemma RoundExtends(cfg: Config, w: World, s: State)
    requires Shaped(s)
    ensures Extends(s, Round(cfg, w, s).0)
  {
    hide ExecBatch;
    match w.turn(s.tick, s.messages)
    case TurnFailed =>
    case NoChoices =>
    case Reply(content, toolCalls) => ReplyExtends(cfg, w, s, Message(Assistant, content, toolCalls, ""));
  }

  lemma {:induction false} LoopExtends(cfg: Config, w: World, s: State, steps: int)
    requires Shaped(s)
    ensures Extends(s, Loop(cfg, w, s, steps).0)
    decreases if steps < 0 then 0 else steps
  {
    hide Round, Shaped, Transcript;
    if steps > 0 {
      RoundExtends(cfg, w, s);
      var (s1, exit) := Round(cfg, w, s);
      if exit.None? {
        LoopExtends(cfg, w, s1, steps - 1);
      }
    }
  }

  /** At every exit of Run (answer, error, no choices, interruption, step budget) the conversation is
      shaped, and the transcript is the old one, then the user's message, then what followed. */
  lemma RunExtends(cfg: Config, w: World, s: State, input: string)
    requires Shaped(s)
    ensures Shaped(Run(cfg, w, s, input).0)
    ensures Transcript(s) + [UserMsg(input)] <= Transcript(Run(cfg, w, s, input).0)
  {
    UserExtends(s, input);
    var s1 := s.(messages := s.messages + [UserMsg(input)]);
    CompactKeepsTranscript(cfg, w, s1, false);
    LoopExtends(cfg, w, Compact(cfg, w, s1, false).0, cfg.maxSteps);
  }

  lemma ApplySystemKeeps(cfg: Config, s: State)
    requires WellFormed(Transcript(s))
    ensures Shaped(ApplySystem(cfg, s)) && Transcript(ApplySystem(cfg, s)) == Transcript(s)
  {
    hide WellFormed;
    var t := ApplySystem(cfg, s);
    assert Others(t.messages) == Others(s.messages) by {
      assert t.messages == [t.messages[0]] + t.messages[1..];
      if s.messages != [] && s.messages[0].role.System? {
        assert s.messages == [s.messages[0]] + s.messages[1..];
        assert t.messages[1..] == s.messages[1..];
      } else {
        assert t.messages[1..] == s.messages;
      }
    }
  }

  lemma AddSystemKeeps(s: State, text: string)
    requires Shaped(s)
    ensures Shaped(AddSystem(s, text)) && Transcript(AddSystem(s, text)) == Transcript(s)
  {
    var note := [SysMsg(text)];
    OthersAppend(s.messages, note);
    SplitUniform(note);
    assert Others(s.messages) + [] == Others(s.messages);
    assert Transcript(AddSystem(s, text)) == Transcript(s);
  }

  lemma ResetKeeps(s: State)
    requires Shaped(s)
    ensures Shaped(Reset(s)) && Transcript(Reset(s)) == []
  {
    var first := [s.messages[0]];
    assert Reset(s).messages == first;
    assert first[1..] == [] && Others(first) == [] + Others([]) == [];
  }
}
