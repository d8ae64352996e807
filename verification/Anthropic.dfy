/** The Anthropic adapter's stream translation (internal/provider/anthropic.go), piped into the
    assembler. */
module Anthropic {
  import opened Common
  import opened Schema
  import opened Sse
  import opened SseTheorems
  import Text

  /** The fields of an Anthropic stream event the translation reads: type and delta.text. */
  datatype Event = Event(kind: string, text: string)

  /** JSON on the adapter's side: decoding an event and encoding a chunk. */
  datatype Wire = Wire(parseEvent: string -> Option<Event>, marshal: Chunk -> string)

  /** An encoded chunk is one line, a JSON object, and decodes to the chunk. */
  ghost predicate Lawful(json: Json, wire: Wire) {
    forall c: Chunk ::
      var m := wire.marshal(c);
      |m| >= 2 && m[0] == '{' && m[|m| - 1] == '}' && '\n' !in m && json.parse(m) == Some(c)
  }

  const STREAM_ID := "chatcmpl-stream"

  function OpenAIChunk(model: string, content: string, finish: string): Chunk {
    Chunk(STREAM_ID, model, [ChunkChoice(Delta(content, "", "", []), finish)], None)
  }

  function SseLine(m: string): string { DATA + " " + m + "\n\n" }

  function EventOf(wire: Wire, raw: string): Option<Event> {
    var line := Text.TrimSpace(raw);
    if !(DATA <= line) then None else wire.parseEvent(Text.TrimSpace(line[|DATA|..]))
  }

  /** What the translation writes for one line of the upstream body. */
  function Translate(wire: Wire, model: string, raw: string): seq<string> {
    match EventOf(wire, raw)
    case None => []
    case Some(ev) =>
      (if ev.kind == "content_block_delta" && ev.text != ""
       then [SseLine(wire.marshal(OpenAIChunk(model, ev.text, "")))] else []) +
      (if ev.kind == "message_stop"
       then [SseLine(wire.marshal(OpenAIChunk(model, "", "stop"))), SseLine("[DONE]")] else [])
  }

  function TranslateAll(wire: Wire, model: string, lines: seq<string>): seq<string> {
    if lines == [] then []
    else TranslateAll(wire, model, lines[..|lines| - 1]) + Translate(wire, model, lines[|lines| - 1])
  }

  /** The text an upstream line carries. */
  function TextOf(wire: Wire, raw: string): string {
    match EventOf(wire, raw)
    case None => ""
    case Some(ev) => if ev.kind == "content_block_delta" then ev.text else ""
  }

  function TextOfAll(wire: Wire, lines: seq<string>): string {
    if lines == [] then "" else TextOfAll(wire, lines[..|lines| - 1]) + TextOf(wire, lines[|lines| - 1])
  }

  lemma {:induction false} WriteAllAppend(json: Json, st: State, buf: string, a: seq<string>, b: seq<string>)
    ensures var mid := WriteAll(json, st, buf, a);
      WriteAll(json, st, buf, a + b) == WriteAll(json, mid.0, mid.1, b)
    decreases |a|
  {
    if a == [] {
      assert a + b == b;
    } else {
      assert (a + b)[0] == a[0] && (a + b)[1..] == a[1..] + b;
      WriteAllAppend(json, Feed(json, st, Lines(buf + a[0])), Tail(buf + a[0]), a[1..], b);
    }
  }

  lemma WriteOne(json: Json, st: State, buf: string, a: string)
    ensures WriteAll(json, st, buf, [a]) == (Feed(json, st, Lines(buf + a)), Tail(buf + a))
  {
    assert [a][1..] == [];
  }

  /** The loop over the scanned lines, writing into an assembler. */
  method Stream(wire: Wire, model: string, lines: seq<string>, w: SseAssembler)
    modifies w
    ensures (w.View(), w.buf) == WriteAll(w.json, old(w.View()), old(w.buf), TranslateAll(wire, model, lines))
  {
    for i := 0 to |lines|
      invariant (w.View(), w.buf)
             == WriteAll(w.json, old(w.View()), old(w.buf), TranslateAll(wire, model, lines[..i]))
    {
      ghost var before := TranslateAll(wire, model, lines[..i]);
      ghost var now := Translate(wire, model, lines[i]);
      assert lines[..i + 1][..i] == lines[..i];
      assert TranslateAll(wire, model, lines[..i + 1]) == before + now;
      WriteAllAppend(w.json, old(w.View()), old(w.buf), before, now);
      StreamLine(wire, model, lines[i], w);
    }
    assert lines[..|lines|] == lines;
  }

  method StreamLine(wire: Wire, model: string, raw: string, w: SseAssembler)
    modifies w
    ensures (w.View(), w.buf) == WriteAll(w.json, old(w.View()), old(w.buf), Translate(wire, model, raw))
  {
    var line := Text.TrimSpace(raw);
    if !(DATA <= line) {
      return;
    }
    var parsed := wire.parseEvent(Text.TrimSpace(line[|DATA|..]));
    if parsed.None? {
      return;
    }
    var ev := parsed.value;
    ghost var delta := if ev.kind == "content_block_delta" && ev.text != ""
                       then [SseLine(wire.marshal(OpenAIChunk(model, ev.text, "")))] else [];
    if ev.kind == "content_block_delta" && ev.text != "" {
      WriteOne(w.json, w.View(), w.buf, delta[0]);
      w.Write(DATA + " " + wire.marshal(OpenAIChunk(model, ev.text, "")) + "\n\n");
    }
    assert (w.View(), w.buf) == WriteAll(w.json, old(w.View()), old(w.buf), delta);
    if ev.kind == "message_stop" {
      ghost var stop, done := SseLine(wire.marshal(OpenAIChunk(model, "", "stop"))), SseLine("[DONE]");
      WriteAllAppend(w.json, old(w.View()), old(w.buf), delta, [stop, done]);
      WriteAllAppend(w.json, w.View(), w.buf, [stop], [done]);
      assert [stop] + [done] == [stop, done];
      WriteOne(w.json, w.View(), w.buf, stop);
      w.Write(DATA + " " + wire.marshal(OpenAIChunk(model, "", "stop")) + "\n\n");
      WriteOne(w.json, w.View(), w.buf, done);
      w.Write(DATA + " " + "[DONE]" + "\n\n");
    } else {
      assert delta + [] == delta;
    }
  }

  // ---- what the assembler makes of it ----

  lemma {:induction false} NoNewline(s: string)
    requires '\n' !in s
    ensures Newline(s) == |s|
  {
    if s != "" {
      assert s[0] in s;
      assert forall c :: c in s[1..] ==> c in s;
      NoNewline(s[1..]);
    }
  }

  lemma SseLineIsOneLine(m: string)
    requires '\n' !in m
    ensures Lines(SseLine(m)) == [DATA + " " + m + "\n", "\n"]
    ensures Tail(SseLine(m)) == ""
  {
    var head := DATA + " " + m;
    assert SseLine(m) == head + "\n\n";
    NoNewline(head);
    NewlineAppend(head, "\n\n");
    assert (head + "\n\n")[..|head| + 1] == head + "\n";
    assert (head + "\n\n")[|head| + 1..] == "\n";
    assert "\n"[..1] == "\n" && "\n"[1..] == "";
  }

  lemma TrimsNothing(s: string)
    requires s != "" && !Text.IsSpace(s[0]) && !Text.IsSpace(s[|s| - 1])
    ensures Text.TrimSpace(s) == s
  {
  }

  lemma TrimsOneSpace(s: string)
    requires s != "" && !Text.IsSpace(s[0]) && !Text.IsSpace(s[|s| - 1])
    ensures Text.TrimSpace(" " + s) == s
  {
    assert (" " + s)[0] == ' ' && (" " + s)[1..] == s;
    assert Text.TrimLeft(" " + s) == Text.TrimLeft(s) == s;
    assert Text.TrimRight(s) == s;
  }

  lemma TrimsOneNewline(s: string)
    requires s != "" && !Text.IsSpace(s[|s| - 1])
    ensures TrimNewline(s + "\n") == s
  {
    assert (s + "\n")[..|s|] == s;
  }

  lemma PayloadOfTrimmed(line: string, rest: string, m: string)
    requires Text.TrimSpace(line) == DATA + rest && Text.TrimSpace(rest) == m && m != ""
    ensures Payload(line) == if m == "[DONE]" then None else Some(m)
  {
    assert (DATA + rest)[|DATA|..] == rest;
  }

  /** A trimmed marked line, without its newline. */
  lemma PayloadOfHead(head: string, rest: string, m: string)
    requires head == DATA + rest && rest == " " + m
    requires m != "" && !Text.IsSpace(m[0]) && !Text.IsSpace(m[|m| - 1])
    ensures Payload(head) == if m == "[DONE]" then None else Some(m)
    ensures TrimNewline(head + "\n") == head
  {
    assert head[0] == 'd' && head[|head| - 1] == m[|m| - 1];
    TrimsNothing(head);
    TrimsOneSpace(m);
    PayloadOfTrimmed(head, rest, m);
    TrimsOneNewline(head);
  }

  lemma PayloadOf(m: string)
    requires m != "" && !Text.IsSpace(m[0]) && !Text.IsSpace(m[|m| - 1])
    ensures Payload(TrimNewline(DATA + " " + m + "\n")) == if m == "[DONE]" then None else Some(m)
  {
    var head := DATA + " " + m;
    assert head == DATA + (" " + m);
    assert DATA + " " + m + "\n" == head + "\n";
    PayloadOfHead(head, " " + m, m);
  }

  lemma BlankLine(json: Json, st: State)
    ensures HandleLine(json, st, TrimNewline("\n")) == st
  {
    assert "\n"[..0] == "";
  }

  /** Writing one marked line, at a line boundary, is handling it. */
  lemma WriteMarked(json: Json, st: State, m: string)
    requires m != "" && !Text.IsSpace(m[0]) && !Text.IsSpace(m[|m| - 1]) && '\n' !in m
    ensures WriteAll(json, st, "", [SseLine(m)])
         == (if m == "[DONE]" || json.parse(m).None? then st else AddChunk(st, json.parse(m).value), "")
  {
    SseLineIsOneLine(m);
    PayloadOf(m);
    WriteOne(json, st, "", SseLine(m));
    assert "" + SseLine(m) == SseLine(m);
    var line := DATA + " " + m + "\n";
    var next := HandleLine(json, st, TrimNewline(line));
    BlankLine(json, next);
    assert [line, "\n"][1..] == ["\n"] && ["\n"][1..] == [];
    assert Feed(json, next, ["\n"]) == next;
    assert Feed(json, st, [line, "\n"]) == next;
  }

  lemma WriteChunk(json: Json, wire: Wire, st: State, c: Chunk)
    requires Lawful(json, wire)
    ensures WriteAll(json, st, "", [SseLine(wire.marshal(c))]) == (AddChunk(st, c), "")
  {
    var m := wire.marshal(c);
    assert m != "[DONE]" by { assert m[0] == '{' && "[DONE]"[0] == '['; }
    WriteMarked(json, st, m);
  }

  lemma WriteDone(json: Json, st: State)
    ensures WriteAll(json, st, "", [SseLine("[DONE]")]) == (st, "")
  {
    WriteMarked(json, st, "[DONE]");
  }

  lemma AddTextChunk(st: State, model: string, text: string, finish: string)
    ensures var after := AddChunk(st, OpenAIChunk(model, text, finish));
      && after.content == st.content + text && after.order == st.order
      && after.finish == Either(finish, st.finish)
      && after.heard == st.heard + (if text != "" then [Said(text)] else [])
      && after.id == "chatcmpl-stream" && after.model == (if model != "" then model else st.model)
  {
    var c := OpenAIChunk(model, text, finish);
    var named := st.(id := Either(c.id, st.id), model := Either(c.model, st.model));
    var cs := c.choices;
    assert cs[..|cs| - 1] == [] && AddChoices(named, []) == named;
    assert AddChoices(named, cs) == AddChoice(named, cs[0]);
    var spoken := AddText(named, cs[0].delta);
    assert AddFragments(spoken, []) == spoken;
    assert "" + "" == "";
    assert spoken.heard == st.heard + [] + if text != "" then [Said(text)] else [];
  }

  /** State kept along a translated stream. */
  ghost predicate Carries(st: State, model: string, text: string) {
    && st.content == text && Text.Concat(Spoken(st.heard)) == text
    && ((st.id == "" && st.model == "" && text == "") || (st.id == "chatcmpl-stream" && st.model == model))
    && st.order == [] && (st.finish == "" || st.finish == "stop")
  }

  lemma CarriesMore(st: State, text: string, model: string, more: string, finish: string)
    requires Carries(st, model, text) && (finish == "" || finish == "stop")
    ensures Carries(AddChunk(st, OpenAIChunk(model, more, finish)), model, text + more)
  {
    AddTextChunk(st, model, more, finish);
    var said := if more != "" then [Said(more)] else [];
    SpokenAppend(st.heard, said);
    ConcatAppend(Spoken(st.heard), Spoken(said));
    assert Text.Concat(Spoken(said)) == more;
  }

  lemma TranslateOne(json: Json, wire: Wire, model: string, st: State, text: string, raw: string)
    requires Lawful(json, wire) && Carries(st, model, text)
    ensures var (after, buf) := WriteAll(json, st, "", Translate(wire, model, raw));
      buf == "" && Carries(after, model, text + TextOf(wire, raw))
  {
    assert text + "" == text;
    match EventOf(wire, raw)
    case None =>
    case Some(ev) =>
      if ev.kind == "content_block_delta" {
        assert ev.kind != "message_stop" by { assert ev.kind[0] == 'c' && "message_stop"[0] == 'm'; }
        if ev.text != "" {
          WriteChunk(json, wire, st, OpenAIChunk(model, ev.text, ""));
          CarriesMore(st, text, model, ev.text, "");
          assert Translate(wire, model, raw) == [SseLine(wire.marshal(OpenAIChunk(model, ev.text, "")))];
        }
      } else if ev.kind == "message_stop" {
        var first, second := [SseLine(wire.marshal(OpenAIChunk(model, "", "stop")))], [SseLine("[DONE]")];
        WriteChunk(json, wire, st, OpenAIChunk(model, "", "stop"));
        CarriesMore(st, text, model, "", "stop");
        WriteDone(json, AddChunk(st, OpenAIChunk(model, "", "stop")));
        WriteAllAppend(json, st, "", first, second);
        assert Translate(wire, model, raw) == first + second;
      }
  }

  lemma {:induction false} TranslateMany(json: Json, wire: Wire, model: string, lines: seq<string>)
    requires Lawful(json, wire)
    ensures var (st, buf) := WriteAll(json, START, "", TranslateAll(wire, model, lines));
      buf == "" && Carries(st, model, TextOfAll(wire, lines))
    decreases |lines|
  {
    if lines != [] {
      var init, last := lines[..|lines| - 1], lines[|lines| - 1];
      TranslateMany(json, wire, model, init);
      var (st, buf) := WriteAll(json, START, "", TranslateAll(wire, model, init));
      TranslateOne(json, wire, model, st, TextOfAll(wire, init), last);
      WriteAllAppend(json, START, "", TranslateAll(wire, model, init), Translate(wire, model, last));
    }
  }

  /** For any event stream, the response assembled from the translation carries the concatenated
      text of the content_block_delta events, no tool calls, and finish reason "stop"; malformed
      and unrelated events leave no trace. */
  lemma StreamPreservesText(json: Json, wire: Wire, model: string, lines: seq<string>)
    requires Lawful(json, wire)
    ensures var st := WriteAll(json, START, "", TranslateAll(wire, model, lines)).0;
      st.order == [] &&
      var choice := ResponseOf(json, st).choices[0];
      var text := TextOfAll(wire, lines);
      && choice.message.content == (if text == "" then Missing else Plain(text))
      && choice.message.ParseToolCalls() == []
      && choice.finishReason == "stop"
      && Text.Concat(Spoken(st.heard)) == text
      && (text != "" ==> st.id == "chatcmpl-stream" && st.model == model)
  {
    TranslateMany(json, wire, model, lines);
  }

  /** Which upstream lines carry an event: those that begin, blanks aside, with "data:". */
  lemma EventLine(wire: Wire, pre: string, mid: string, p: string, post: string)
    requires Text.Blank(pre) && Text.Blank(mid) && Text.Blank(post) && p != ""
    requires !Text.IsSpace(p[0]) && !Text.IsSpace(p[|p| - 1])
    ensures EventOf(wire, pre + ("data:" + mid + p) + post) == wire.parseEvent(p)
  {
    hide Text.TrimSpace, Text.Blank;
    var text := "data:" + mid + p;
    assert text[|text| - 1] == p[|p| - 1];
    Text.TrimSpaceOf(pre, text, post);
    assert text[|DATA|..] == mid + p + "";
    Text.BlankNothing();
    Text.TrimSpaceOf(mid, p, "");
  }

  lemma NoEventLine(wire: Wire, pre: string, text: string, post: string)
    requires Text.Blank(pre) && Text.Blank(post) && !("data:" <= text)
    requires text != "" ==> !Text.IsSpace(text[0]) && !Text.IsSpace(text[|text| - 1])
    ensures EventOf(wire, pre + text + post) == None
  {
    hide Text.TrimSpace, Text.Blank;
    Text.TrimSpaceOf(pre, text, post);
  }
}
