/** Chat requests and responses (internal/schema/chat.go) and their token estimate
    (internal/tokens/tokens.go).  Raw JSON fields are represented by what the code reads from them. */
module Schema {
  import opened Common

  datatype Role = System | User | Assistant | Tool | OtherRole(name: string)

  datatype Part = Part(kind: string, text: string)

  /** A raw content field: missing, a JSON string, an array of parts, or anything else. */
  datatype Content = Missing | Plain(text: string) | Parts(parts: seq<Part>) | Unreadable

  datatype ToolCall = ToolCall(id: string, name: string, arguments: string)

  /** A raw tool_calls field: its length in bytes and the calls it decodes to (none when it is
      missing or malformed). */
  datatype RawCalls = RawCalls(bytes: nat, calls: seq<ToolCall>)

  const NO_CALLS := RawCalls(0, [])

  datatype Message = Message(role: Role, content: Content, toolCalls: RawCalls, toolCallID: string)
  {
    /** ParseToolCalls: an absent field has no calls. */
    function ParseToolCalls(): seq<ToolCall> {
      if toolCalls.bytes == 0 then [] else toolCalls.calls
    }

    /** TextContent, None standing for ("", false). */
    function TextContent(): Option<string> {
      match content
      case Missing => None
      case Plain(text) => Some(text)
      case Parts(parts) => var t := PartsText(parts); if t == "" then None else Some(t)
      case Unreadable => None
    }

    function SetText(text: string): Message { this.(content := Plain(text)) }
  }

  function PartsText(parts: seq<Part>): string {
    if parts == [] then ""
    else (if parts[0].kind == "text" then parts[0].text else "") + PartsText(parts[1..])
  }

  function SysMsg(text: string): Message { Message(System, Plain(text), NO_CALLS, "") }
  function UserMsg(text: string): Message { Message(User, Plain(text), NO_CALLS, "") }
  function ToolMsg(id: string, text: string): Message { Message(Tool, Plain(text), NO_CALLS, id) }

  datatype Usage = Usage(promptTokens: int, completionTokens: int, totalTokens: int)

  datatype Choice = Choice(index: int, message: Message, finishReason: string)

  /** A chat response without its gateway metadata. */
  datatype ChatBody = ChatBody(id: string, model: string, choices: seq<Choice>, usage: Usage)

  datatype GatewayMeta = GatewayMeta(provider: string, resolvedModel: string, cacheHit: bool, attempts: int,
                                     tokensSaved: int, compression: string, toolCalls: int,
                                     toolIterations: int, node: string)

  const NO_META := GatewayMeta("", "", false, 0, 0, "", 0, 0, "")

  /** What a response holds. */
  datatype ResponseValue = ResponseValue(body: ChatBody, meta: Option<GatewayMeta>)

  /** A response's metadata block, stamped in place. */
  class Meta {
    var v: GatewayMeta

    constructor (v: GatewayMeta)
      ensures this.v == v
    {
      this.v := v;
    }
  }

  /** A response, passed around by reference with its choices and its metadata. */
  class ChatResponse {
    var id: string
    var model: string
    var choices: array<Choice>
    var usage: Usage
    var meta: Meta?

    /** Every object a holder of the response can write to. */
    ghost function Parts(): set<object>
      reads this
    {
      if meta == null then {this, choices} else var m: object := meta; {this, choices, m}
    }

    function Body(): ChatBody
      reads this, choices
    {
      ChatBody(id, model, choices[..], usage)
    }

    function MetaValue(): Option<GatewayMeta>
      reads this, meta
    {
      if meta == null then None else Some(meta.v)
    }

    ghost function View(): ResponseValue
      reads this, choices, meta
    {
      ResponseValue(Body(), MetaValue())
    }

    constructor (body: ChatBody, m: Option<GatewayMeta>)
      ensures View() == ResponseValue(body, m) && fresh(Parts())
    {
      id, model, usage, meta := body.id, body.model, body.usage, null;
      choices := new Choice[|body.choices|](i requires 0 <= i < |body.choices| => body.choices[i]);
      new;
      assert choices[..] == body.choices;
      if m.Some? {
        meta := new Meta(m.value);
      }
    }

    /** Overwrites the metadata block, which is made first if there is none. */
    method Stamp(v: GatewayMeta)
      modifies this`meta, meta
      ensures Body() == old(Body()) && MetaValue() == Some(v) && fresh(Parts() - old(Parts()))
    {
      if meta == null {
        meta := new Meta(NO_META);
      }
      meta.v := v;
    }
  }

  /** A request, passed around by reference; compression and the tool loop rewrite its messages. */
  class ChatRequest {
    const model: string
    const stream: bool
    const temperature: Option<real>
    var messages: seq<Message>

    constructor (model: string, stream: bool, temperature: Option<real>, messages: seq<Message>)
      ensures this.model == model && this.stream == stream && this.temperature == temperature
      ensures this.messages == messages
    {
      this.model, this.stream, this.temperature, this.messages := model, stream, temperature, messages;
    }
  }

  /** The system messages of a conversation, in order. */
  function Systems(ms: seq<Message>): seq<Message> {
    if ms == [] then []
    else (if ms[0].role.System? then [ms[0]] else []) + Systems(ms[1..])
  }

  /** The other messages of a conversation, in order. */
  function Others(ms: seq<Message>): seq<Message> {
    if ms == [] then []
    else (if ms[0].role.System? then [] else [ms[0]]) + Others(ms[1..])
  }

  lemma {:induction false} SystemsAppend(a: seq<Message>, b: seq<Message>)
    ensures Systems(a + b) == Systems(a) + Systems(b)
  {
    if a == [] {
      assert a + b == b;
    } else {
      var head := if a[0].role.System? then [a[0]] else [];
      assert (a + b)[0] == a[0] && (a + b)[1..] == a[1..] + b;
      SystemsAppend(a[1..], b);
      assert head + (Systems(a[1..]) + Systems(b)) == (head + Systems(a[1..])) + Systems(b);
    }
  }

  lemma {:induction false} OthersAppend(a: seq<Message>, b: seq<Message>)
    ensures Others(a + b) == Others(a) + Others(b)
  {
    if a == [] {
      assert a + b == b;
    } else {
      var head := if a[0].role.System? then [] else [a[0]];
      assert (a + b)[0] == a[0] && (a + b)[1..] == a[1..] + b;
      OthersAppend(a[1..], b);
      assert head + (Others(a[1..]) + Others(b)) == (head + Others(a[1..])) + Others(b);
    }
  }

  predicate AllSystem(ms: seq<Message>) { forall m :: m in ms ==> m.role.System? }
  predicate NoSystem(ms: seq<Message>) { forall m :: m in ms ==> !m.role.System? }

  lemma {:induction false} SplitUniform(ms: seq<Message>)
    ensures AllSystem(ms) ==> Systems(ms) == ms && Others(ms) == []
    ensures NoSystem(ms) ==> Systems(ms) == [] && Others(ms) == ms
    ensures AllSystem(Systems(ms)) && NoSystem(Others(ms))
    ensures |Systems(ms)| + |Others(ms)| == |ms|
  {
    if ms != [] {
      SplitUniform(ms[1..]);
    }
  }

  /** System messages followed by others fall apart again. */
  lemma SystemsThenOthers(head: seq<Message>, tail: seq<Message>)
    requires AllSystem(head) && NoSystem(tail)
    ensures Systems(head + tail) == head
    ensures Others(head + tail) == tail
  {
    SystemsAppend(head, tail);
    OthersAppend(head, tail);
    SplitUniform(head);
    SplitUniform(tail);
    assert head + [] == head && [] + tail == tail;
  }

  /** About four characters to a token. */
  function EstimateText(s: string): nat { (|s| + 3) / 4 }

  function EstimateMessage(m: Message): nat {
    4 + (match m.TextContent()
         case Some(t) => EstimateText(t)
         case None => 0) + m.toolCalls.bytes / 4
  }

  function Estimate(ms: seq<Message>): nat {
    if ms == [] then 0 else EstimateMessage(ms[0]) + Estimate(ms[1..])
  }

  lemma {:induction false} EstimateAppend(a: seq<Message>, b: seq<Message>)
    ensures Estimate(a + b) == Estimate(a) + Estimate(b)
  {
    if a == [] {
      assert a + b == b;
    } else {
      assert (a + b)[1..] == a[1..] + b;
      EstimateAppend(a[1..], b);
    }
  }

  /** Reordering system messages to the front keeps the estimate. */
  lemma {:induction false} EstimateSplit(ms: seq<Message>)
    ensures Estimate(ms) == Estimate(Systems(ms)) + Estimate(Others(ms))
  {
    if ms != [] {
      EstimateSplit(ms[1..]);
      EstimateAppend(if ms[0].role.System? then [ms[0]] else [], Systems(ms[1..]));
      EstimateAppend(if ms[0].role.System? then [] else [ms[0]], Others(ms[1..]));
    }
  }

  /** tokens.EstimateText as coded. */
  method EstimateTextLoop(s: string) returns (n: int)
    ensures n == EstimateText(s)
  {
    if s == "" {
      return 0;
    }
    n := (|s| + 3) / 4;
    if n < 1 {
      n := 1;
    }
  }

  /** tokens.EstimateMessages: a running total. */
  method EstimateMessages(ms: seq<Message>) returns (total: int)
    ensures total == Estimate(ms)
  {
    total := 0;
    for i := 0 to |ms|
      invariant total == Estimate(ms[..i])
    {
      total := total + 4;
      var t := ms[i].TextContent();
      if t.Some? {
        var n := EstimateTextLoop(t.value);
        total := total + n;
      }
      total := total + ms[i].toolCalls.bytes / 4;
      assert ms[..i + 1] == ms[..i] + [ms[i]];
      EstimateAppend(ms[..i], [ms[i]]);
    }
    assert ms[..|ms|] == ms;
  }

  /** About four characters to a token, rounded up. */
  lemma EstimateTextRounds(s: string)
    ensures 4 * EstimateText(s) >= |s| && 4 * EstimateText(s) < |s| + 4
  {
  }

  /** A message costs four tokens, its text, and a token for every four bytes of its calls. */
  lemma EstimateOne(m: Message, text: string)
    requires m.TextContent() == Some(text) || (m.TextContent() == None && text == "")
    ensures Estimate([m]) == 4 + EstimateText(text) + m.toolCalls.bytes / 4
  {
    assert [m][1..] == [];
  }

  /** The text of a list of parts is the texts of its "text" parts, in order. */
  lemma {:induction false} PartsTextAppend(a: seq<Part>, p: Part, b: seq<Part>)
    ensures PartsText(a + [p] + b) == PartsText(a) + (if p.kind == "text" then p.text else "") + PartsText(b)
    ensures PartsText([]) == ""
    decreases |a|
  {
    if a == [] {
      assert a + [p] + b == [p] + b && ([p] + b)[1..] == b;
    } else {
      assert (a + [p] + b)[0] == a[0] && (a + [p] + b)[1..] == a[1..] + [p] + b;
      PartsTextAppend(a[1..], p, b);
      assert PartsText(a) == (if a[0].kind == "text" then a[0].text else "") + PartsText(a[1..]);
    }
  }

  /** What counts as a message's text, and as its calls. */
  lemma ContentMeans(m: Message, text: string)
    ensures m.content == Plain(text) ==> m.TextContent() == Some(text)
    ensures m.content.Missing? || m.content.Unreadable? ==> m.TextContent() == None
    ensures m.content.Parts? ==>
      m.TextContent() == if PartsText(m.content.parts) == "" then None else Some(PartsText(m.content.parts))
    ensures m.SetText(text).TextContent() == Some(text) && m.SetText(text) == m.(content := m.SetText(text).content)
    ensures m.toolCalls == NO_CALLS ==> m.ParseToolCalls() == []
    ensures m.toolCalls.bytes > 0 ==> m.ParseToolCalls() == m.toolCalls.calls
  {
  }
}
