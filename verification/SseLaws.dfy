/** What else an assembled stream carries: its identity, usage, finish reason and callbacks; and which
    lines carry anything. */
module SseLaws {
  import opened Common
  import opened Schema
  import opened Sse
  import opened SseTheorems
  import Text

  /** The last text that is not empty. */
  function LastText(s: seq<string>): string {
    if s == [] then "" else if s[|s| - 1] != "" then s[|s| - 1] else LastText(s[..|s| - 1])
  }

  lemma {:induction false} LastTextIs(s: seq<string>)
    ensures LastText(s) == "" <==> forall i :: 0 <= i < |s| ==> s[i] == ""
    ensures LastText(s) != "" ==>
      exists i :: 0 <= i < |s| && s[i] == LastText(s) && forall j :: i < j < |s| ==> s[j] == ""
    decreases |s|
  {
    if s != [] {
      if s[|s| - 1] == "" {
        LastTextIs(s[..|s| - 1]);
      } else {
        assert s[|s| - 1] == LastText(s);
      }
    }
  }

  function IDs(chunks: seq<Chunk>): seq<string> {
    seq(|chunks|, i requires 0 <= i < |chunks| => chunks[i].id)
  }

  function Models(chunks: seq<Chunk>): seq<string> {
    seq(|chunks|, i requires 0 <= i < |chunks| => chunks[i].model)
  }

  function Reasons(cs: seq<ChunkChoice>): seq<string> {
    seq(|cs|, i requires 0 <= i < |cs| => cs[i].finishReason)
  }

  /** The last usage reported, or none. */
  function LastUsage(chunks: seq<Chunk>): Usage {
    if chunks == [] then Usage(0, 0, 0)
    else
      var last := chunks[|chunks| - 1];
      if last.usage.Some? then last.usage.value else LastUsage(chunks[..|chunks| - 1])
  }

  /** The callbacks of a choice: its reasoning, of either kind, and then its text; nothing for nothing. */
  function HeardFrom(c: ChunkChoice): seq<Heard> {
    var thought := c.delta.reasoning + c.delta.reasoningContent;
    (if thought == "" then [] else [Thought(thought)]) + (if c.delta.content == "" then [] else [Said(c.delta.content)])
  }

  function HeardOf(cs: seq<ChunkChoice>): seq<Heard> {
    if cs == [] then [] else HeardOf(cs[..|cs| - 1]) + HeardFrom(cs[|cs| - 1])
  }

  /** What a state has kept of the chunks that reached it. */
  ghost predicate Keeps(st: State, chunks: seq<Chunk>) {
    && st.id == LastText(IDs(chunks)) && st.model == LastText(Models(chunks)) && st.usage == LastUsage(chunks)
    && st.finish == LastText(Reasons(Choices(chunks))) && st.heard == HeardOf(Choices(chunks))
  }

  lemma LastTextSnoc(s: seq<string>, x: string)
    ensures LastText(s + [x]) == if x != "" then x else LastText(s)
  {
    assert (s + [x])[..|s + [x]| - 1] == s;
  }

  lemma {:induction false} FragmentsKeep(st: State, fs: seq<ToolFragment>)
    ensures var t := AddFragments(st, fs);
      t.id == st.id && t.model == st.model && t.usage == st.usage && t.finish == st.finish && t.heard == st.heard
    decreases |fs|
  {
    if fs != [] {
      FragmentsKeep(st, fs[..|fs| - 1]);
    }
  }

  lemma OneChoiceKeeps(st: State, c: ChunkChoice)
    ensures var t := AddChoice(st, c);
      && t.id == st.id && t.model == st.model && t.usage == st.usage
      && t.finish == (if c.finishReason != "" then c.finishReason else st.finish)
      && t.heard == st.heard + HeardFrom(c)
  {
    FragmentsKeep(AddText(st, c.delta), c.delta.toolCalls);
  }

  lemma {:induction false} ChoicesKeep(st: State, done: seq<ChunkChoice>, cs: seq<ChunkChoice>)
    requires st.finish == LastText(Reasons(done)) && st.heard == HeardOf(done)
    ensures var t := AddChoices(st, cs);
      && t.id == st.id && t.model == st.model && t.usage == st.usage
      && t.finish == LastText(Reasons(done + cs)) && t.heard == HeardOf(done + cs)
    decreases |cs|
  {
    hide AddChoice, HeardFrom, LastText;
    if cs == [] {
      assert done + cs == done;
    } else {
      var init, last := cs[..|cs| - 1], cs[|cs| - 1];
      ChoicesKeep(st, done, init);
      OneChoiceKeeps(AddChoices(st, init), last);
      var before, all := done + init, done + cs;
      assert all[..|all| - 1] == before && all[|all| - 1] == last;
      assert Reasons(all) == Reasons(before) + [last.finishReason];
      LastTextSnoc(Reasons(before), last.finishReason);
    }
  }

  lemma ChunkKeeps(st: State, done: seq<Chunk>, c: Chunk)
    requires Keeps(st, done)
    ensures Keeps(AddChunk(st, c), done + [c])
  {
    hide AddChoices, LastText, HeardOf, Reasons;
    var all := done + [c];
    assert all[..|all| - 1] == done;
    assert IDs(all) == IDs(done) + [c.id] && Models(all) == Models(done) + [c.model];
    LastTextSnoc(IDs(done), c.id);
    LastTextSnoc(Models(done), c.model);
    ChoicesAppend(done, [c]);
    assert Choices([c]) == c.choices by { assert [c][1..] == [] && c.choices + [] == c.choices; }
    var named := st.(id := Either(c.id, st.id), model := Either(c.model, st.model),
                     usage := if c.usage.Some? then c.usage.value else st.usage);
    ChoicesKeep(named, Choices(done), c.choices);
  }

  lemma {:induction false} FeedKeeps(json: Json, st: State, done: seq<Chunk>, lines: seq<string>)
    requires Keeps(st, done)
    ensures Keeps(Feed(json, st, lines), done + Chunks(json, lines))
    decreases |lines|
  {
    hide Keeps, AddChunk, ChunkOf, TrimNewline;
    if lines == [] {
      assert done + [] == done;
    } else {
      var rest := Chunks(json, lines[1..]);
      match ChunkOf(json, TrimNewline(lines[0]))
      case None =>
        assert [] + rest == rest;
        FeedKeeps(json, st, done, lines[1..]);
      case Some(c) =>
        ChunkKeeps(st, done, c);
        FeedKeeps(json, AddChunk(st, c), done + [c], lines[1..]);
        assert done + [c] + rest == done + ([c] + rest);
    }
  }

  /** Whatever stream is written, in whatever chunks: the response has the last id, model and finish
      reason that were not empty ("stop" if there was none), the last usage reported, one assistant
      message; and the callbacks were those of its choices, in order. */
  lemma StreamFields(json: Json, chunks: seq<string>)
    ensures var st := WriteAll(json, START, "", chunks).0;
      var cs := Chunks(json, Lines(Text.Concat(chunks)));
      && st.heard == HeardOf(Choices(cs))
      && (forall k :: 0 <= k < |st.order| ==> st.order[k] in st.calls)
      && var r := ResponseOf(json, st);
         && r.id == LastText(IDs(cs)) && r.model == LastText(Models(cs)) && r.usage == LastUsage(cs)
         && |r.choices| == 1 && r.choices[0].index == 0 && r.choices[0].message.role == Assistant
         && r.choices[0].finishReason
            == (if LastText(Reasons(Choices(cs))) == "" then "stop" else LastText(Reasons(Choices(cs))))
  {
    hide Feed, WriteAll, Chunks, Choices, Lines, Text.Concat, LastText, HeardOf, LastUsage, IDs, Models, Reasons;
    StartKeeps();
    ChunkingIndependence(json, START, "", chunks);
    assert "" + Text.Concat(chunks) == Text.Concat(chunks);
    FeedKeeps(json, START, [], Lines(Text.Concat(chunks)));
    assert [] + Chunks(json, Lines(Text.Concat(chunks))) == Chunks(json, Lines(Text.Concat(chunks)));
    TableInvariant(json, chunks);
  }

  lemma StartKeeps()
    ensures Keeps(START, []) && Lines("") == [] && Tail("") == ""
  {
  }

  // ---- which lines carry anything ----

  /** No white space at either end. */
  predicate Bare(s: string) {
    s == "" || (!Text.IsSpace(s[0]) && !Text.IsSpace(s[|s| - 1]))
  }

  /** A line that begins, blanks aside, with "data:" carries what follows it, blanks aside; unless that is
      empty or "[DONE]". */
  lemma DataLine(json: Json, pre: string, mid: string, p: string, post: string)
    requires Text.Blank(pre) && Text.Blank(mid) && Text.Blank(post) && Bare(p)
    ensures ChunkOf(json, pre + ("data:" + mid + p) + post) == if p == "" || p == "[DONE]" then None else json.parse(p)
  {
    hide Text.TrimSpace, Text.Blank;
    var head := "data:";
    if p == "" {
      assert head + mid + p == head + mid && pre + (head + mid) + post == pre + head + (mid + post);
      Text.BlankAppend(mid, post);
      Text.TrimSpaceOf(pre, head, mid + post);
      Text.TrimSpaceOf("", "", "");
      assert "" + "" + "" == "" && head[|DATA|..] == "";
    } else {
      var text := head + mid + p;
      assert text[|text| - 1] == p[|p| - 1];
      Text.TrimSpaceOf(pre, text, post);
      assert text[|DATA|..] == mid + p + "";
      Text.TrimSpaceOf(mid, p, "");
    }
  }

  /** Every other line carries nothing. */
  lemma OtherLine(json: Json, pre: string, text: string, post: string)
    requires Text.Blank(pre) && Text.Blank(post) && Bare(text) && !("data:" <= text)
    ensures ChunkOf(json, pre + text + post) == None
  {
    hide Text.TrimSpace, Text.Blank;
    Text.TrimSpaceOf(pre, text, post);
  }

  /** The lines of a stream, and what is left, are the stream; each line ends with its only newline, and
      what is left has none. */
  lemma {:induction false} LinesAreTheStream(s: string)
    ensures Text.Concat(Lines(s)) + Tail(s) == s && '\n' !in Tail(s)
    ensures forall i :: 0 <= i < |Lines(s)| ==>
      var l := Lines(s)[i]; l != "" && l[|l| - 1] == '\n' && '\n' !in l[..|l| - 1]
    decreases |s|
  {
    hide Newline, Lines, Tail;
    var n := Newline(s);
    OneLine(s);
    OneTail(s);
    if n < |s| {
      var line, rest := s[..n + 1], s[n + 1..];
      LinesAreTheStream(rest);
      assert ([line] + Lines(rest))[1..] == Lines(rest);
      assert Text.Concat(Lines(s)) == line + Text.Concat(Lines(rest));
      assert line + Text.Concat(Lines(rest)) + Tail(rest) == line + (Text.Concat(Lines(rest)) + Tail(rest)) == s;
      assert line[..n] == s[..n];
    } else {
      assert s[..n] == s;
      assert "" + s == s;
    }
  }

  // ---- the calls, from the fragments ----

  /** The fragments of one index. */
  function Matching(fs: seq<ToolFragment>, index: int): seq<ToolFragment> {
    if fs == [] then [] else (if fs[0].index == index then [fs[0]] else []) + Matching(fs[1..], index)
  }

  lemma {:induction false} MatchingSnoc(fs: seq<ToolFragment>, f: ToolFragment, index: int)
    ensures Matching(fs + [f], index) == Matching(fs, index) + (if f.index == index then [f] else [])
    decreases |fs|
  {
    if fs == [] {
      assert ([f])[1..] == [] && fs + [f] == [f];
    } else {
      assert (fs + [f])[0] == fs[0] && (fs + [f])[1..] == fs[1..] + [f];
      MatchingSnoc(fs[1..], f, index);
      var head := if fs[0].index == index then [fs[0]] else [];
      var last := if f.index == index then [f] else [];
      assert head + (Matching(fs[1..], index) + last) == (head + Matching(fs[1..], index)) + last;
    }
  }

  lemma {:induction false} OfIsMatching(fs: seq<ToolFragment>, index: int)
    ensures Of(fs, index) == Matching(fs, index)
    decreases |fs|
  {
    if fs != [] {
      OfIsMatching(fs[..|fs| - 1], index);
      MatchingSnoc(fs[..|fs| - 1], fs[|fs| - 1], index);
      assert fs[..|fs| - 1] + [fs[|fs| - 1]] == fs;
    }
  }

  function ArgumentsIn(fs: seq<ToolFragment>): seq<string> {
    seq(|fs|, i requires 0 <= i < |fs| => fs[i].arguments)
  }

  function IDsIn(fs: seq<ToolFragment>): seq<string> {
    seq(|fs|, i requires 0 <= i < |fs| => fs[i].id)
  }

  function NamesIn(fs: seq<ToolFragment>): seq<string> {
    seq(|fs|, i requires 0 <= i < |fs| => fs[i].name)
  }

  lemma {:induction false} JoinedIs(fs: seq<ToolFragment>)
    ensures Joined(fs) == Accum(LastText(IDsIn(fs)), LastText(NamesIn(fs)), Text.Concat(ArgumentsIn(fs)))
    decreases |fs|
  {
    if fs != [] {
      var init, last := fs[..|fs| - 1], fs[|fs| - 1];
      JoinedIs(init);
      assert IDsIn(fs) == IDsIn(init) + [last.id] && NamesIn(fs) == NamesIn(init) + [last.name];
      assert ArgumentsIn(fs) == ArgumentsIn(init) + [last.arguments];
      LastTextSnoc(IDsIn(init), last.id);
      LastTextSnoc(NamesIn(init), last.name);
      ConcatAppend(ArgumentsIn(init), [last.arguments]);
      assert Text.Concat([last.arguments]) == last.arguments + "" == last.arguments;
    }
  }

  /** The first place of an index. */
  ghost predicate FirstPlace(fs: seq<ToolFragment>, index: int, p: nat) {
    p < |fs| && fs[p].index == index && forall q :: 0 <= q < p ==> fs[q].index != index
  }

  lemma {:induction false} FirstSeenPlaces(fs: seq<ToolFragment>, k: nat) returns (p: nat)
    requires k < |FirstSeen(fs)|
    ensures FirstPlace(fs, FirstSeen(fs)[k], p)
    ensures forall l, q: nat :: 0 <= l < k && FirstPlace(fs, FirstSeen(fs)[l], q) ==> q < p
    decreases |fs|
  {
    var init, last := fs[..|fs| - 1], fs[|fs| - 1];
    var before := FirstSeen(init);
    FirstSeenMembers(init);
    if k < |before| {
      p := FirstSeenPlaces(init, k);
      forall l, q: nat | 0 <= l < k && FirstPlace(fs, FirstSeen(fs)[l], q) ensures q < p {
        var r := FirstSeenPlaces(init, l);
        assert FirstPlace(init, before[l], r) && q == r;
      }
    } else {
      p := |fs| - 1;
      forall q | 0 <= q < p ensures fs[q].index != last.index {
        NotSeen(init, last.index, q);
      }
    }
  }

  lemma {:induction false} NotSeen(fs: seq<ToolFragment>, index: int, q: nat)
    requires index !in FirstSeen(fs) && q < |fs|
    ensures fs[q].index != index
    decreases |fs|
  {
    if q < |fs| - 1 {
      NotSeen(fs[..|fs| - 1], index, q);
    }
  }

  /** The calls of a response, from the fragments of its stream: one for each index, in the order of the
      indices' first fragments, with the arguments of its fragments joined in arrival order, and the last
      id and the last name among them that are not empty. */
  lemma CallsOfStream(json: Json, chunks: seq<string>, k: nat) returns (index: int, p: nat)
    requires var st := WriteAll(json, START, "", chunks).0;
      (forall j :: 0 <= j < |st.order| ==> st.order[j] in st.calls)
      && k < |ResponseOf(json, st).choices[0].message.ParseToolCalls()|
    ensures var fs := Fragments(Delivered(json, chunks));
      var st := WriteAll(json, START, "", chunks).0;
      var mine := Matching(fs, index);
      && FirstPlace(fs, index, p) && index == st.order[k]
      && ResponseOf(json, st).choices[0].message.ParseToolCalls()[k]
         == ToolCall(LastText(IDsIn(mine)), LastText(NamesIn(mine)), Text.Concat(ArgumentsIn(mine)))
      && forall l, q: nat :: 0 <= l < k && FirstPlace(fs, st.order[l], q) ==> q < p
  {
    hide Delivered, Fragments, WriteAll, FirstPlace, Deltas, Spoken, Of;
    Reassembly(json, chunks);
    TableInvariant(json, chunks);
    var fs := Fragments(Delivered(json, chunks));
    index := FirstSeen(fs)[k];
    p := FirstSeenPlaces(fs, k);
    OfIsMatching(fs, index);
    JoinedIs(Matching(fs, index));
  }
}
