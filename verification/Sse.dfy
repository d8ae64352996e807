/** The streaming assembler (internal/gateway/sse.go): an incremental line parser that reassembles
    a chat response, tool-call fragments included. */
module Sse {
  import opened Common
  import opened Schema
  import Text

  datatype ToolFragment = ToolFragment(index: int, id: string, name: string, arguments: string)
  datatype Delta = Delta(content: string, reasoning: string, reasoningContent: string,
                         toolCalls: seq<ToolFragment>)
  datatype ChunkChoice = ChunkChoice(delta: Delta, finishReason: string)
  datatype Chunk = Chunk(id: string, model: string, choices: seq<ChunkChoice>, usage: Option<Usage>)

  type Length = n: nat | n > 0 witness 1

  /** JSON, left abstract: how a payload decodes, and the length of an encoded call list, which takes
      at least its brackets. */
  datatype Json = Json(parse: string -> Option<Chunk>, callBytes: seq<ToolCall> -> Length)

  datatype Accum = Accum(id: string, name: string, args: string)

  /** A call of onText or onReasoning. */
  datatype Heard = Said(text: string) | Thought(text: string)

  datatype State = State(content: string, calls: map<int, Accum>, order: seq<int>, model: string, id: string,
                         usage: Usage, finish: string, heard: seq<Heard>)

  const START := State("", map[], [], "", "", Usage(0, 0, 0), "", [])

  function Either(s: string, other: string): string { if s != "" then s else other }

  function AddFragment(st: State, f: ToolFragment): State {
    var acc := if f.index in st.calls then st.calls[f.index] else Accum("", "", "");
    st.(calls := st.calls[f.index := Accum(Either(f.id, acc.id), Either(f.name, acc.name), acc.args + f.arguments)],
        order := if f.index in st.calls then st.order else st.order + [f.index])
  }

  function AddFragments(st: State, fs: seq<ToolFragment>): State {
    if fs == [] then st else AddFragment(AddFragments(st, fs[..|fs| - 1]), fs[|fs| - 1])
  }

  function AddText(st: State, d: Delta): State {
    var thought := d.reasoning + d.reasoningContent;
    st.(content := st.content + d.content,
        heard := st.heard + (if thought != "" then [Thought(thought)] else [])
                          + (if d.content != "" then [Said(d.content)] else []))
  }

  function AddChoice(st: State, c: ChunkChoice): State {
    var s := AddFragments(AddText(st, c.delta), c.delta.toolCalls);
    s.(finish := Either(c.finishReason, s.finish))
  }

  function AddChoices(st: State, cs: seq<ChunkChoice>): State {
    if cs == [] then st else AddChoice(AddChoices(st, cs[..|cs| - 1]), cs[|cs| - 1])
  }

  function AddChunk(st: State, c: Chunk): State {
    AddChoices(st.(id := Either(c.id, st.id), model := Either(c.model, st.model),
                   usage := if c.usage.Some? then c.usage.value else st.usage), c.choices)
  }

  const DATA := "data:"

  /** The payload of a data line, unless it is empty or the end marker. */
  function Payload(line: string): Option<string> {
    var t := Text.TrimSpace(line);
    if !(DATA <= t) then None
    else
      var p := Text.TrimSpace(t[|DATA|..]);
      if p == "" || p == "[DONE]" then None else Some(p)
  }

  /** The chunk a line carries, if it carries one. */
  function ChunkOf(json: Json, line: string): Option<Chunk> {
    match Payload(line)
    case None => None
    case Some(p) => json.parse(p)
  }

  function HandleLine(json: Json, st: State, line: string): State {
    match ChunkOf(json, line)
    case None => st
    case Some(c) => AddChunk(st, c)
  }

  /** Position of the first newline, or the length. */
  function Newline(s: string): nat
    ensures Newline(s) <= |s|
    ensures '\n' !in s[..Newline(s)]
    ensures Newline(s) < |s| ==> s[Newline(s)] == '\n'
  {
    if s == "" || s[0] == '\n' then 0 else 1 + Newline(s[1..])
  }

  /** The complete lines of a stream, each with its newline. */
  function Lines(s: string): seq<string>
    decreases |s|
  {
    var n := Newline(s);
    if n == |s| then [] else [s[..n + 1]] + Lines(s[n + 1..])
  }

  /** What follows the last newline. */
  function Tail(s: string): string
    decreases |s|
  {
    var n := Newline(s);
    if n == |s| then s else Tail(s[n + 1..])
  }

  function TrimNewline(line: string): string {
    if line != "" && (line[|line| - 1] == '\n' || line[|line| - 1] == '\r') then TrimNewline(line[..|line| - 1])
    else line
  }

  function Feed(json: Json, st: State, lines: seq<string>): State
    decreases |lines|
  {
    if lines == [] then st else Feed(json, HandleLine(json, st, TrimNewline(lines[0])), lines[1..])
  }

  /** The calls of a response: one for each index in first-seen order. */
  function Assembled(st: State): seq<ToolCall>
    requires forall k :: 0 <= k < |st.order| ==> st.order[k] in st.calls
  {
    seq(|st.order|, k requires 0 <= k < |st.order| =>
      var acc := st.calls[st.order[k]]; ToolCall(acc.id, acc.name, acc.args))
  }

  function ResponseOf(json: Json, st: State): ChatBody
    requires forall k :: 0 <= k < |st.order| ==> st.order[k] in st.calls
  {
    var calls := Assembled(st);
    var msg := Message(Assistant, if st.content != "" then Plain(st.content) else Missing,
                       if st.order != [] then RawCalls(json.callBytes(calls), calls) else NO_CALLS, "");
    ChatBody(st.id, st.model, [Choice(0, msg, Either(st.finish, "stop"))], st.usage)
  }

  class SseAssembler {
    const json: Json
    var buf: string
    var content: string
    var calls: map<int, Accum>
    var order: seq<int>
    var model: string
    var id: string
    var usage: Usage
    var finish: string
    /** The callbacks made so far, in order. */
    ghost var heard: seq<Heard>

    ghost function View(): State
      reads this
    {
      State(content, calls, order, model, id, usage, finish, heard)
    }

    constructor (json: Json)
      ensures this.json == json && View() == START && buf == ""
    {
      this.json := json;
      buf, content, calls, order, model, id, usage, finish, heard := "", "", map[], [], "", "", Usage(0, 0, 0), "", [];
    }

    /** Handles every complete line and keeps the rest for the next write. */
    method Write(p: string)
      modifies this
      ensures View() == Feed(json, old(View()), Lines(old(buf) + p))
      ensures buf == Tail(old(buf) + p)
    {
      buf := buf + p;
      while true
        invariant Feed(json, View(), Lines(buf)) == Feed(json, old(View()), Lines(old(buf) + p))
        invariant Tail(buf) == Tail(old(buf) + p)
        decreases |buf|
      {
        var n := Newline(buf);
        if n == |buf| {
          break;
        }
        var line := buf[..n + 1];
        buf := buf[n + 1..];
        HandleLineOf(TrimNewline(line));
      }
    }

    method HandleLineOf(line: string)
      modifies this
      ensures View() == HandleLine(json, old(View()), line) && buf == old(buf)
    {
      var t := Text.TrimSpace(line);
      if !(DATA <= t) {
        return;
      }
      var payload := Text.TrimSpace(t[|DATA|..]);
      if payload == "" || payload == "[DONE]" {
        return;
      }
      var parsed := json.parse(payload);
      if parsed.None? {
        return;
      }
      HandleChunk(parsed.value);
    }

    method HandleChunk(chunk: Chunk)
      modifies this
      ensures View() == AddChunk(old(View()), chunk) && buf == old(buf)
    {
      if chunk.id != "" {
        id := chunk.id;
      }
      if chunk.model != "" {
        model := chunk.model;
      }
      if chunk.usage.Some? {
        usage := chunk.usage.value;
      }
      ghost var st := View();
      for i := 0 to |chunk.choices|
        invariant buf == old(buf) && View() == AddChoices(st, chunk.choices[..i])
      {
        assert chunk.choices[..i + 1][..i] == chunk.choices[..i];
        HandleChoice(chunk.choices[i]);
      }
      assert chunk.choices[..|chunk.choices|] == chunk.choices;
    }

    method HandleChoice(ch: ChunkChoice)
      modifies this
      ensures View() == AddChoice(old(View()), ch) && buf == old(buf)
    {
      var rz := ch.delta.reasoning + ch.delta.reasoningContent;
      if rz != "" {
        heard := heard + [Thought(rz)];
      }
      if ch.delta.content != "" {
        content := content + ch.delta.content;
        heard := heard + [Said(ch.delta.content)];
      }
      assert View() == AddText(old(View()), ch.delta);
      AddToolCalls(ch.delta.toolCalls);
      if ch.finishReason != "" {
        finish := ch.finishReason;
      }
    }

    method AddToolCalls(fs: seq<ToolFragment>)
      modifies this
      ensures View() == AddFragments(old(View()), fs) && buf == old(buf)
    {
      hide AddFragment;
      for j := 0 to |fs|
        invariant buf == old(buf) && View() == AddFragments(old(View()), fs[..j])
      {
        assert fs[..j + 1][..j] == fs[..j];
        AddToolCall(fs[j]);
      }
      assert fs[..|fs|] == fs;
    }

    method AddToolCall(tc: ToolFragment)
      modifies this
      ensures View() == AddFragment(old(View()), tc) && buf == old(buf)
    {
      if tc.index !in calls {
        calls := calls[tc.index := Accum("", "", "")];
        order := order + [tc.index];
      }
      var acc := calls[tc.index];
      if tc.id != "" {
        acc := acc.(id := tc.id);
      }
      if tc.name != "" {
        acc := acc.(name := tc.name);
      }
      calls := calls[tc.index := acc.(args := acc.args + tc.arguments)];
    }

    method Response() returns (r: ChatBody)
      requires forall k :: 0 <= k < |order| ==> order[k] in calls
      ensures r == ResponseOf(json, View())
    {
      var msg := Message(Assistant, Missing, NO_CALLS, "");
      if |content| > 0 {
        msg := msg.SetText(content);
      }
      if |order| > 0 {
        var out: seq<ToolCall> := [];
        for k := 0 to |order|
          invariant out == Assembled(View())[..k]
        {
          var acc := calls[order[k]];
          out := out + [ToolCall(acc.id, acc.name, acc.args)];
        }
        assert out == Assembled(View());
        msg := msg.(toolCalls := RawCalls(json.callBytes(out), out));
      }
      var fin := finish;
      if fin == "" {
        fin := "stop";
      }
      r := ChatBody(id, model, [Choice(0, msg, fin)], usage);
    }
  }
}
