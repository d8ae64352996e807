/** The assembler equals a batch parser under every chunking, and reassembles every tool call. */
module SseTheorems {
  import opened Schema
  import opened Sse
  import Text

  // ---- chunking ----

  lemma {:induction false} NewlineAppend(a: string, b: string)
    ensures Newline(a) < |a| ==> Newline(a + b) == Newline(a)
    ensures Newline(a) == |a| ==> Newline(a + b) == |a| + Newline(b)
  {
    if a == "" {
      assert a + b == b;
    } else if a[0] != '\n' {
      assert (a + b)[1..] == a[1..] + b;
      NewlineAppend(a[1..], b);
    }
  }

  /** Cutting a stream: the lines completed so far, then the lines of what was left plus the rest. */
  lemma {:induction false} LinesAppend(a: string, b: string)
    ensures Lines(a + b) == Lines(a) + Lines(Tail(a) + b)
    ensures Tail(a + b) == Tail(Tail(a) + b)
    decreases |a|
  {
    hide Newline, Lines, Tail;
    var n := Newline(a);
    NewlineAppend(a, b);
    LinesStep(a);
    if n < |a| {
      assert (a + b)[..n + 1] == a[..n + 1];
      assert (a + b)[n + 1..] == a[n + 1..] + b;
      LinesStep(a + b);
      LinesAppend(a[n + 1..], b);
      assert Lines(a + b) == [a[..n + 1]] + (Lines(a[n + 1..]) + Lines(Tail(a) + b));
    } else {
      assert [] + Lines(a + b) == Lines(a + b);
    }
  }

  lemma LinesStep(s: string)
    ensures var n := Newline(s);
      if n < |s| then Lines(s) == [s[..n + 1]] + Lines(s[n + 1..]) && Tail(s) == Tail(s[n + 1..])
      else Lines(s) == [] && Tail(s) == s
  {
    hide Newline, Lines, Tail;
    OneLine(s);
    OneTail(s);
  }

  lemma OneLine(s: string)
    ensures Lines(s) == if Newline(s) == |s| then [] else [s[..Newline(s) + 1]] + Lines(s[Newline(s) + 1..])
  {
    hide Newline, Tail;
  }

  lemma OneTail(s: string)
    ensures Tail(s) == if Newline(s) == |s| then s else Tail(s[Newline(s) + 1..])
  {
    hide Newline, Lines;
  }

  lemma {:induction false} FeedAppend(json: Json, st: State, a: seq<string>, b: seq<string>)
    ensures Feed(json, st, a + b) == Feed(json, Feed(json, st, a), b)
    decreases |a|
  {
    if a == [] {
      assert a + b == b;
    } else {
      assert (a + b)[0] == a[0] && (a + b)[1..] == a[1..] + b;
      FeedAppend(json, HandleLine(json, st, TrimNewline(a[0])), a[1..], b);
    }
  }

  /** The assembler's state and buffer after a series of Writes, by Write's contract. */
  function WriteAll(json: Json, st: State, buf: string, chunks: seq<string>): (State, string)
    decreases |chunks|
  {
    if chunks == [] then (st, buf)
    else WriteAll(json, Feed(json, st, Lines(buf + chunks[0])), Tail(buf + chunks[0]), chunks[1..])
  }

  lemma {:induction false} TailHasNoLine(s: string)
    ensures Lines(Tail(s)) == [] && Tail(Tail(s)) == Tail(s)
    decreases |s|
  {
    if Newline(s) < |s| {
      TailHasNoLine(s[Newline(s) + 1..]);
    }
  }

  /** Chunking independence: however a stream is cut into writes, state, callbacks and buffer are
      those of handling its complete lines at once. */
  lemma {:induction false} ChunkingIndependence(json: Json, st: State, buf: string, chunks: seq<string>)
    requires Lines(buf) == [] && Tail(buf) == buf
    ensures WriteAll(json, st, buf, chunks)
         == (Feed(json, st, Lines(buf + Text.Concat(chunks))), Tail(buf + Text.Concat(chunks)))
    decreases |chunks|
  {
    if chunks == [] {
      assert buf + "" == buf;
    } else {
      var seen, rest := buf + chunks[0], Text.Concat(chunks[1..]);
      assert buf + Text.Concat(chunks) == seen + rest;
      LinesAppend(seen, rest);
      FeedAppend(json, st, Lines(seen), Lines(Tail(seen) + rest));
      TailHasNoLine(seen);
      ChunkingIndependence(json, Feed(json, st, Lines(seen)), Tail(seen), chunks[1..]);
    }
  }

  /** A fresh assembler cannot tell two chunkings of one stream apart. */
  lemma SameStreamSameResult(json: Json, chunks: seq<string>, other: seq<string>)
    requires Text.Concat(chunks) == Text.Concat(other)
    ensures WriteAll(json, START, "", chunks) == WriteAll(json, START, "", other)
  {
    ChunkingIndependence(json, START, "", chunks);
    ChunkingIndependence(json, START, "", other);
  }

  // ---- reassembly ----

  /** Everything a list of lines delivers, in arrival order. */
  function Chunks(json: Json, lines: seq<string>): seq<Chunk> {
    if lines == [] then []
    else
      (match ChunkOf(json, TrimNewline(lines[0]))
       case None => []
       case Some(c) => [c]) + Chunks(json, lines[1..])
  }

  function Deltas(cs: seq<ChunkChoice>): seq<string> {
    if cs == [] then []
    else (if cs[0].delta.content != "" then [cs[0].delta.content] else []) + Deltas(cs[1..])
  }

  function Fragments(cs: seq<ChunkChoice>): seq<ToolFragment> {
    if cs == [] then [] else cs[0].delta.toolCalls + Fragments(cs[1..])
  }

  function Choices(chunks: seq<Chunk>): seq<ChunkChoice> {
    if chunks == [] then [] else chunks[0].choices + Choices(chunks[1..])
  }

  /** The fragments of one index, in arrival order. */
  function Of(fs: seq<ToolFragment>, index: int): seq<ToolFragment> {
    if fs == [] then []
    else Of(fs[..|fs| - 1], index) + (if fs[|fs| - 1].index == index then [fs[|fs| - 1]] else [])
  }

  /** Indices in the order in which they were first seen. */
  function FirstSeen(fs: seq<ToolFragment>): seq<int> {
    if fs == [] then []
    else
      var before := FirstSeen(fs[..|fs| - 1]);
      if fs[|fs| - 1].index in before then before else before + [fs[|fs| - 1].index]
  }

  /** First-seen order: what arrives later only extends the list. */
  lemma {:induction false} FirstSeenGrows(fs: seq<ToolFragment>, more: seq<ToolFragment>)
    ensures FirstSeen(fs) <= FirstSeen(fs + more)
    decreases |more|
  {
    if more == [] {
      assert fs + more == fs;
    } else {
      var init := more[..|more| - 1];
      FirstSeenGrows(fs, init);
      assert (fs + more)[..|fs + more| - 1] == fs + init;
    }
  }

  function Arguments(fs: seq<ToolFragment>): string {
    if fs == [] then "" else Arguments(fs[..|fs| - 1]) + fs[|fs| - 1].arguments
  }

  function LastID(fs: seq<ToolFragment>): string {
    if fs == [] then "" else Either(fs[|fs| - 1].id, LastID(fs[..|fs| - 1]))
  }

  function LastName(fs: seq<ToolFragment>): string {
    if fs == [] then "" else Either(fs[|fs| - 1].name, LastName(fs[..|fs| - 1]))
  }

  function Joined(fs: seq<ToolFragment>): Accum {
    Accum(LastID(fs), LastName(fs), Arguments(fs))
  }

  /** The tool calls a stream's fragments amount to: one for each index in first-seen order, with
      the arguments of that index joined in arrival order and its last non-empty id and name. */
  function ToolCallsOf(fs: seq<ToolFragment>): seq<ToolCall> {
    seq(|FirstSeen(fs)|, k requires 0 <= k < |FirstSeen(fs)| =>
      var acc := Joined(Of(fs, FirstSeen(fs)[k])); ToolCall(acc.id, acc.name, acc.args))
  }

  lemma {:induction false} FirstSeenMembers(fs: seq<ToolFragment>)
    ensures forall i :: i in FirstSeen(fs) <==> Of(fs, i) != []
    ensures forall j, k :: 0 <= j < k < |FirstSeen(fs)| ==> FirstSeen(fs)[j] != FirstSeen(fs)[k]
  {
    if fs != [] {
      FirstSeenMembers(fs[..|fs| - 1]);
    }
  }

  /** What the assembler's table stands for. */
  ghost predicate Represents(st: State, fs: seq<ToolFragment>) {
    && st.order == FirstSeen(fs)
    && (forall i :: i in st.calls <==> i in st.order)
    && (forall i :: i in st.calls ==> st.calls[i] == Joined(Of(fs, i)))
  }

  lemma OfSnoc(fs: seq<ToolFragment>, f: ToolFragment, i: int)
    ensures Of(fs + [f], i) == if f.index == i then Of(fs, i) + [f] else Of(fs, i)
    ensures FirstSeen(fs + [f]) == if f.index in FirstSeen(fs) then FirstSeen(fs) else FirstSeen(fs) + [f.index]
  {
    var all := fs + [f];
    assert all[..|all| - 1] == fs && all[|all| - 1] == f;
  }

  lemma JoinedSnoc(fs: seq<ToolFragment>, f: ToolFragment)
    ensures var acc := Joined(fs);
      Joined(fs + [f]) == Accum(Either(f.id, acc.id), Either(f.name, acc.name), acc.args + f.arguments)
  {
    var all := fs + [f];
    assert all[..|all| - 1] == fs && all[|all| - 1] == f;
  }

  lemma AddOne(st: State, fs: seq<ToolFragment>, f: ToolFragment)
    requires Represents(st, fs)
    ensures Represents(AddFragment(st, f), fs + [f])
  {
    var after := AddFragment(st, f);
    FirstSeenMembers(fs);
    OfSnoc(fs, f, f.index);
    JoinedSnoc(Of(fs, f.index), f);
    forall i | i in after.calls ensures after.calls[i] == Joined(Of(fs + [f], i)) {
      OfSnoc(fs, f, i);
    }
  }

  lemma {:induction false} AddMany(st: State, fs: seq<ToolFragment>, more: seq<ToolFragment>)
    requires Represents(st, fs)
    ensures Represents(AddFragments(st, more), fs + more)
    ensures var after := AddFragments(st, more); after.content == st.content && after.heard == st.heard
    decreases |more|
  {
    if more == [] {
      assert fs + more == fs;
    } else {
      var init, last := more[..|more| - 1], more[|more| - 1];
      AddMany(st, fs, init);
      AddOne(AddFragments(st, init), fs + init, last);
      assert fs + init + [last] == fs + more;
    }
  }

  function Spoken(heard: seq<Heard>): seq<string> {
    if heard == [] then [] else (if heard[0].Said? then [heard[0].text] else []) + Spoken(heard[1..])
  }

  lemma {:induction false} SpokenAppend(a: seq<Heard>, b: seq<Heard>)
    ensures Spoken(a + b) == Spoken(a) + Spoken(b)
  {
    if a == [] {
      assert a + b == b;
    } else {
      assert (a + b)[0] == a[0] && (a + b)[1..] == a[1..] + b;
      SpokenAppend(a[1..], b);
    }
  }

  lemma {:induction false} ConcatAppend(a: seq<string>, b: seq<string>)
    ensures Text.Concat(a + b) == Text.Concat(a) + Text.Concat(b)
  {
    if a == [] {
      assert a + b == b;
    } else {
      assert (a + b)[0] == a[0] && (a + b)[1..] == a[1..] + b;
      ConcatAppend(a[1..], b);
    }
  }

  /** The whole meaning of a state: the choices received so far. */
  ghost predicate Meaning(st: State, cs: seq<ChunkChoice>) {
    Represents(st, Fragments(cs)) && Spoken(st.heard) == Deltas(cs) && st.content == Text.Concat(Deltas(cs))
  }

  function DeltaOf(c: ChunkChoice): seq<string> {
    if c.delta.content != "" then [c.delta.content] else []
  }

  lemma AddTextMeaning(st: State, d: Delta)
    ensures var spoken := if d.content != "" then [d.content] else [];
      Spoken(AddText(st, d).heard) == Spoken(st.heard) + spoken && Text.Concat(spoken) == d.content
  {
    var thought := d.reasoning + d.reasoningContent;
    var t := if thought != "" then [Thought(thought)] else [];
    var s := if d.content != "" then [Said(d.content)] else [];
    SpokenAppend(st.heard + t, s);
    SpokenAppend(st.heard, t);
  }

  lemma {:induction false} ChoicesSnoc(cs: seq<ChunkChoice>, c: ChunkChoice)
    ensures Fragments(cs + [c]) == Fragments(cs) + c.delta.toolCalls
    ensures Deltas(cs + [c]) == Deltas(cs) + DeltaOf(c)
  {
    if cs == [] {
      assert cs + [c] == [c];
      assert Fragments([c]) == c.delta.toolCalls + Fragments([]);
      assert Deltas([c]) == DeltaOf(c) + Deltas([]);
    } else {
      assert (cs + [c])[0] == cs[0] && (cs + [c])[1..] == cs[1..] + [c];
      ChoicesSnoc(cs[1..], c);
    }
  }

  lemma AddChoiceMeaning(st: State, cs: seq<ChunkChoice>, c: ChunkChoice)
    requires Meaning(st, cs)
    ensures Meaning(AddChoice(st, c), cs + [c])
  {
    AddTextMeaning(st, c.delta);
    ConcatAppend(Deltas(cs), DeltaOf(c));
    ChoicesSnoc(cs, c);
    AddMany(AddText(st, c.delta), Fragments(cs), c.delta.toolCalls);
  }

  lemma {:induction false} AddChoicesMeaning(st: State, cs: seq<ChunkChoice>, more: seq<ChunkChoice>)
    requires Meaning(st, cs)
    ensures Meaning(AddChoices(st, more), cs + more)
    decreases |more|
  {
    if more == [] {
      assert cs + more == cs;
    } else {
      var init, last := more[..|more| - 1], more[|more| - 1];
      AddChoicesMeaning(st, cs, init);
      AddChoiceMeaning(AddChoices(st, init), cs + init, last);
      assert cs + init + [last] == cs + more;
    }
  }

  lemma AddChunkMeaning(st: State, cs: seq<ChunkChoice>, c: Chunk)
    requires Meaning(st, cs)
    ensures Meaning(AddChunk(st, c), cs + c.choices)
  {
    var named := st.(id := Either(c.id, st.id), model := Either(c.model, st.model),
                     usage := if c.usage.Some? then c.usage.value else st.usage);
    AddChoicesMeaning(named, cs, c.choices);
  }

  lemma {:induction false} FeedMeaning(json: Json, st: State, cs: seq<ChunkChoice>, lines: seq<string>)
    requires Meaning(st, cs)
    ensures Meaning(Feed(json, st, lines), cs + Choices(Chunks(json, lines)))
    decreases |lines|
  {
    hide Meaning, AddChunk, ChunkOf, TrimNewline;
    if lines == [] {
      assert cs + [] == cs;
    } else {
      var rest := Chunks(json, lines[1..]);
      match ChunkOf(json, TrimNewline(lines[0]))
      case None =>
        assert [] + rest == rest;
        FeedMeaning(json, st, cs, lines[1..]);
      case Some(c) =>
        AddChunkMeaning(st, cs, c);
        FeedMeaning(json, AddChunk(st, c), cs + c.choices, lines[1..]);
        assert ([c] + rest)[1..] == rest;
        assert cs + c.choices + Choices(rest) == cs + Choices([c] + rest);
    }
  }

  /** Everything a written stream delivers. */
  function Delivered(json: Json, chunks: seq<string>): seq<ChunkChoice> {
    Choices(Chunks(json, Lines(Text.Concat(chunks))))
  }

  /** The reassembly invariant: after any series of writes the order list is free of duplicates,
      has the same members as the table, and is the first-seen order of the indices. */
  lemma TableInvariant(json: Json, chunks: seq<string>)
    ensures var st := WriteAll(json, START, "", chunks).0;
      && Meaning(st, Delivered(json, chunks))
      && (forall k :: 0 <= k < |st.order| ==> st.order[k] in st.calls)
      && (forall i :: i in st.calls ==> i in st.order)
      && (forall j, k :: 0 <= j < k < |st.order| ==> st.order[j] != st.order[k])
  {
    hide WriteAll, Meaning, Delivered;
    WrittenMeaning(json, chunks);
    OrderMembers(WriteAll(json, START, "", chunks).0, Delivered(json, chunks));
  }

  lemma StartMeaning()
    ensures Meaning(START, [])
  {
  }

  lemma WrittenMeaning(json: Json, chunks: seq<string>)
    ensures Meaning(WriteAll(json, START, "", chunks).0, Delivered(json, chunks))
  {
    hide Feed, WriteAll, Chunks, Choices, Meaning, Text.Concat;
    StartMeaning();
    ChunkingIndependence(json, START, "", chunks);
    assert "" + Text.Concat(chunks) == Text.Concat(chunks);
    FeedMeaning(json, START, [], Lines(Text.Concat(chunks)));
    assert [] + Delivered(json, chunks) == Delivered(json, chunks);
  }

  lemma OrderMembers(st: State, cs: seq<ChunkChoice>)
    requires Meaning(st, cs)
    ensures forall k :: 0 <= k < |st.order| ==> st.order[k] in st.calls
    ensures forall i :: i in st.calls ==> i in st.order
    ensures forall j, k :: 0 <= j < k < |st.order| ==> st.order[j] != st.order[k]
  {
    hide Fragments, Of, Spoken, Deltas, FirstSeen;
    FirstSeenMembers(Fragments(cs));
    forall k | 0 <= k < |st.order| ensures st.order[k] in st.calls {
      var i := st.order[k];
      assert i in st.order;
      assert i in st.calls;
    }
  }

  lemma AssembledCalls(st: State, fs: seq<ToolFragment>)
    requires Represents(st, fs)
    requires forall k :: 0 <= k < |st.order| ==> st.order[k] in st.calls
    ensures Assembled(st) == ToolCallsOf(fs)
  {
  }

  /** Reassembly: whatever stream is written, in whatever chunks, the response carries exactly the
      tool calls the stream's fragments amount to, its content is the concatenation of the text
      deltas, and those deltas are what onText heard, in order. */
  lemma Reassembly(json: Json, chunks: seq<string>)
    ensures var st := WriteAll(json, START, "", chunks).0;
      var cs := Delivered(json, chunks);
      && (forall k :: 0 <= k < |st.order| ==> st.order[k] in st.calls)
      && var msg := ResponseOf(json, st).choices[0].message;
         && msg.ParseToolCalls() == ToolCallsOf(Fragments(cs))
         && msg.content == (if Text.Concat(Deltas(cs)) == "" then Missing else Plain(Text.Concat(Deltas(cs))))
         && Spoken(st.heard) == Deltas(cs)
  {
    TableInvariant(json, chunks);
    var st := WriteAll(json, START, "", chunks).0;
    AssembledCalls(st, Fragments(Delivered(json, chunks)));
  }

  /** Interleaving does not matter: two streams, in whatever chunks, whose fragments agree index by
      index, and introduce the indices in the same order, give responses with the same calls. */
  lemma InterleavingIndependence(json: Json, chunks: seq<string>, other: seq<string>)
    requires var fs, gs := Fragments(Delivered(json, chunks)), Fragments(Delivered(json, other));
      FirstSeen(fs) == FirstSeen(gs) && forall i :: i in FirstSeen(fs) ==> Of(fs, i) == Of(gs, i)
    ensures var st, su := WriteAll(json, START, "", chunks).0, WriteAll(json, START, "", other).0;
      && (forall k :: 0 <= k < |st.order| ==> st.order[k] in st.calls)
      && (forall k :: 0 <= k < |su.order| ==> su.order[k] in su.calls)
      && ResponseOf(json, st).choices[0].message.toolCalls == ResponseOf(json, su).choices[0].message.toolCalls
  {
    hide Delivered, Fragments, Of, FirstSeen, WriteAll, Deltas, Spoken;
    Reassembly(json, chunks);
    Reassembly(json, other);
    SameFragmentsSameCalls(Fragments(Delivered(json, chunks)), Fragments(Delivered(json, other)));
  }

  lemma SameFragmentsSameCalls(fs: seq<ToolFragment>, gs: seq<ToolFragment>)
    requires FirstSeen(fs) == FirstSeen(gs)
    requires forall i :: i in FirstSeen(fs) ==> Of(fs, i) == Of(gs, i)
    ensures ToolCallsOf(fs) == ToolCallsOf(gs)
  {
  }

  // ---- more of a stream ----

  lemma {:induction false} ChunksAppend(json: Json, a: seq<string>, b: seq<string>)
    ensures Chunks(json, a + b) == Chunks(json, a) + Chunks(json, b)
    decreases |a|
  {
    if a == [] {
      assert a + b == b;
    } else {
      assert (a + b)[0] == a[0] && (a + b)[1..] == a[1..] + b;
      ChunksAppend(json, a[1..], b);
    }
  }

  lemma {:induction false} ChoicesAppend(a: seq<Chunk>, b: seq<Chunk>)
    ensures Choices(a + b) == Choices(a) + Choices(b)
    decreases |a|
  {
    if a == [] {
      assert a + b == b;
    } else {
      assert (a + b)[0] == a[0] && (a + b)[1..] == a[1..] + b;
      ChoicesAppend(a[1..], b);
    }
  }

  lemma {:induction false} FragmentsAppend(a: seq<ChunkChoice>, b: seq<ChunkChoice>)
    ensures Fragments(a + b) == Fragments(a) + Fragments(b)
    decreases |a|
  {
    if a == [] {
      assert a + b == b;
    } else {
      assert (a + b)[0] == a[0] && (a + b)[1..] == a[1..] + b;
      FragmentsAppend(a[1..], b);
    }
  }

  /** Calls keep their places: what a stream delivers later only adds calls at the end. */
  lemma OrderOnlyGrows(json: Json, chunks: seq<string>, more: seq<string>)
    ensures WriteAll(json, START, "", chunks).0.order <= WriteAll(json, START, "", chunks + more).0.order
  {
    hide Chunks, Choices, Fragments, FirstSeen, WriteAll, Lines, Tail, Text.Concat, Spoken, Deltas;
    TableInvariant(json, chunks);
    TableInvariant(json, chunks + more);
    ConcatAppend(chunks, more);
    var a, b := Text.Concat(chunks), Text.Concat(more);
    var rest := Lines(Tail(a) + b);
    LinesAppend(a, b);
    ChunksAppend(json, Lines(a), rest);
    ChoicesAppend(Chunks(json, Lines(a)), Chunks(json, rest));
    FragmentsAppend(Delivered(json, chunks), Choices(Chunks(json, rest)));
    FirstSeenGrows(Fragments(Delivered(json, chunks)), Fragments(Choices(Chunks(json, rest))));
  }
}
