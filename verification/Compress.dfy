/** Context compression (internal/compress/compress.go): trim, window and summary. */
module Compress {
  import opened Common
  import opened Schema
  import Text

  datatype Strategy = Off | Trim | Window | Summary | Unknown(name: string)

  /** `keepRecentTurns` is not negative, as the configuration has it. */
  datatype Config = Config(enabled: bool, strategy: Strategy, maxPromptTokens: int, keepRecentTurns: nat,
                           summaryModel: string)

  /** The injected summarizer: a model and the dropped history to a summary or an error. */
  type Summarizer = (string, seq<Message>) -> Result<string>

  datatype Outcome = Outcome(applied: Option<Strategy>, beforeTok: int, afterTok: int, tokensSaved: int)

  // ---- what the strategies compute ----

  /** Text with its white space collapsed. */
  function Clean(t: string): string { Text.Join(Text.Fields(t), " ") }

  function TrimMessage(m: Message): Message {
    match m.TextContent()
    case None => m
    case Some(t) => if Clean(t) != t then m.SetText(Clean(t)) else m
  }

  function TrimAll(ms: seq<Message>): seq<Message> {
    seq(|ms|, i requires 0 <= i < |ms| => TrimMessage(ms[i]))
  }

  function Middle(ms: seq<Message>, keep: nat): seq<Message> {
    var others := Others(ms);
    if keep >= |others| then [] else others[..|others| - keep]
  }

  function Recent(ms: seq<Message>, keep: nat): seq<Message> {
    var others := Others(ms);
    if keep >= |others| then others else others[|others| - keep..]
  }

  function Breadcrumb(n: nat): Message {
    SysMsg("[frostgate: omitted " + Text.Decimal(n) + " earlier message(s) to save tokens]")
  }

  function SummaryNote(summary: string): Message {
    SysMsg("Summary of earlier conversation (compressed to save tokens):\n" + summary)
  }

  /** All system messages, one note in the place of the middle, then the recent messages. */
  function Elide(ms: seq<Message>, keep: nat, note: Message): seq<Message> {
    Systems(ms) + [note] + Recent(ms, keep)
  }

  function WindowOf(ms: seq<Message>, keep: nat): seq<Message> {
    if Middle(ms, keep) == [] then ms else Elide(ms, keep, Breadcrumb(|Middle(ms, keep)|))
  }

  /** The summary of the middle, if the summarizer is wired and gives one. */
  function SummaryText(cfg: Config, summarize: Option<Summarizer>, middle: seq<Message>): Option<string> {
    if summarize.None? || cfg.summaryModel == "" then None
    else match summarize.value(cfg.summaryModel, middle)
      case Err(_) => None
      case Ok(text) => if Text.TrimSpace(text) == "" then None else Some(text)
  }

  function SummaryOf(cfg: Config, summarize: Option<Summarizer>, ms: seq<Message>): seq<Message> {
    var middle := Middle(ms, cfg.keepRecentTurns);
    if middle == [] then ms
    else match SummaryText(cfg, summarize, middle)
      case None => WindowOf(ms, cfg.keepRecentTurns)
      case Some(text) => Elide(ms, cfg.keepRecentTurns, SummaryNote(text))
  }

  predicate OverBudget(cfg: Config, n: int) { cfg.maxPromptTokens <= 0 || n > cfg.maxPromptTokens }

  /** What compression turns a prompt into. */
  function Compressed(cfg: Config, summarize: Option<Summarizer>, ms: seq<Message>): seq<Message> {
    if !cfg.enabled || cfg.strategy.Off? then ms
    else if cfg.strategy.Trim? then TrimAll(ms)
    else if !OverBudget(cfg, Estimate(ms)) then ms
    else if cfg.strategy.Summary? then SummaryOf(cfg, summarize, ms)
    else WindowOf(ms, cfg.keepRecentTurns)
  }

  // ---- which strategy acts, and when ----

  /** A message with its words separated by single spaces and nothing else changed. */
  ghost predicate Spaced(m: Message, out: Message) {
    match m.TextContent()
    case None => out == m
    case Some(text) =>
      && out == m.(content := out.content) && out.TextContent() == Some(Text.Join(Text.Fields(text), " "))
      && (Text.Join(Text.Fields(text), " ") == text ==> out == m)
  }

  /** The note in the place of dropped messages: their summary, if one can be had; else their number. */
  ghost predicate NoteFor(cfg: Config, summarize: Option<Summarizer>, dropped: seq<Message>, note: Message) {
    var asked := cfg.strategy.Summary? && summarize.Some? && cfg.summaryModel != "";
    var summary := if asked then summarize.value(cfg.summaryModel, dropped) else Err("");
    if summary.Ok? && !Text.Blank(summary.value) then
      note == SysMsg("Summary of earlier conversation (compressed to save tokens):\n" + summary.value)
    else note == SysMsg("[frostgate: omitted " + Text.Decimal(|dropped|) + " earlier message(s) to save tokens]")
  }

  /** What compression did: nothing when it is off; under trim every message is spaced; under any other
      strategy nothing while the prompt is within a positive limit or has no message to drop; and
      otherwise the older messages that are not the system's give way to a note. */
  ghost predicate Acted(cfg: Config, summarize: Option<Summarizer>, ms: seq<Message>, out: seq<Message>) {
    var others := Others(ms);
    var keep := cfg.keepRecentTurns;
    if !cfg.enabled || cfg.strategy == Off then out == ms
    else if cfg.strategy == Trim then |out| == |ms| && forall i :: 0 <= i < |ms| ==> Spaced(ms[i], out[i])
    else if (cfg.maxPromptTokens > 0 && Estimate(ms) <= cfg.maxPromptTokens) || |others| <= keep then out == ms
    else
      exists note ::
        && NoteFor(cfg, summarize, others[..|others| - keep], note)
        && out == Systems(ms) + [note] + others[|others| - keep..]
  }

  lemma TrimSpaces(m: Message)
    ensures Spaced(m, TrimMessage(m))
  {
  }

  lemma NoteIsFor(cfg: Config, summarize: Option<Summarizer>, dropped: seq<Message>)
    ensures !cfg.strategy.Summary? ==> NoteFor(cfg, summarize, dropped, Breadcrumb(|dropped|))
    ensures cfg.strategy.Summary? ==>
      NoteFor(cfg, summarize, dropped,
              match SummaryText(cfg, summarize, dropped)
              case None => Breadcrumb(|dropped|)
              case Some(text) => SummaryNote(text))
  {
    hide Text.TrimSpace, Text.Blank, Text.Decimal;
    if summarize.Some? {
      match summarize.value(cfg.summaryModel, dropped)
      case Ok(text) => Text.TrimSpaceBlank(text);
      case Err(_) =>
    }
  }

  lemma CompressionActs(cfg: Config, summarize: Option<Summarizer>, ms: seq<Message>)
    ensures Acted(cfg, summarize, ms, Compressed(cfg, summarize, ms))
  {
    hide Spaced, TrimMessage, NoteFor, Breadcrumb, SummaryText, Estimate, Systems, Others;
    var keep := cfg.keepRecentTurns;
    if cfg.strategy.Trim? {
      forall i | 0 <= i < |ms| ensures Spaced(ms[i], TrimAll(ms)[i]) {
        TrimSpaces(ms[i]);
      }
    }
    NoteIsFor(cfg, summarize, Middle(ms, keep));
  }

  // ---- the code ----

  class Compressor {
    const cfg: Config
    const summarize: Option<Summarizer>

    constructor (cfg: Config, summarize: Option<Summarizer>)
      ensures this.cfg == cfg && this.summarize == summarize
    {
      this.cfg, this.summarize := cfg, summarize;
    }

    /** Rewrites the request's messages in place and reports what that saved: never a negative
        number, and a strategy is named exactly when the estimate went down. */
    method Apply(req: ChatRequest) returns (res: Outcome)
      modifies req
      ensures req.messages == Compressed(cfg, summarize, old(req.messages))
      ensures Acted(cfg, summarize, old(req.messages), req.messages)
      ensures cfg.enabled && !cfg.strategy.Off? ==>
        && res.beforeTok == Estimate(old(req.messages)) && res.afterTok == Estimate(req.messages)
        && res.tokensSaved == (if res.afterTok < res.beforeTok then res.beforeTok - res.afterTok else 0)
        && res.applied == (if res.afterTok < res.beforeTok then Some(cfg.strategy) else None)
      ensures !cfg.enabled || cfg.strategy.Off? ==> res == Outcome(None, 0, 0, 0)
    {
      hide Acted, TrimAll, WindowOf, SummaryOf, Estimate;
      CompressionActs(cfg, summarize, req.messages);
      res := Outcome(None, 0, 0, 0);
      if !cfg.enabled || cfg.strategy.Off? {
        return;
      }
      var before := EstimateMessages(req.messages);
      res := res.(beforeTok := before);
      if cfg.strategy.Trim? {
        Trim(req);
      } else if OverBudget(cfg, before) {
        if cfg.strategy.Summary? {
          Summary(req);
        } else {
          Window(req);
        }
      }
      var after := EstimateMessages(req.messages);
      res := res.(afterTok := after);
      if after < before {
        res := res.(applied := Some(cfg.strategy), tokensSaved := before - after);
      }
    }

    method Trim(req: ChatRequest)
      modifies req
      ensures req.messages == TrimAll(old(req.messages))
    {
      ghost var ms := req.messages;
      for i := 0 to |req.messages|
        invariant |req.messages| == |ms|
        invariant forall j :: 0 <= j < |ms| ==> req.messages[j] == if j < i then TrimMessage(ms[j]) else ms[j]
      {
        var t := req.messages[i].TextContent();
        if t.Some? {
          var cleaned := Text.Join(Text.Fields(t.value), " ");
          if cleaned != t.value {
            req.messages := req.messages[i := req.messages[i].SetText(cleaned)];
          }
        }
      }
    }

    method Split(msgs: seq<Message>) returns (system: seq<Message>, middle: seq<Message>, recent: seq<Message>)
      ensures system == Systems(msgs) && middle == Middle(msgs, cfg.keepRecentTurns)
      ensures recent == Recent(msgs, cfg.keepRecentTurns)
    {
      var nonSystem: seq<Message>;
      system, nonSystem := [], [];
      for i := 0 to |msgs|
        invariant system == Systems(msgs[..i]) && nonSystem == Others(msgs[..i])
      {
        assert msgs[..i + 1] == msgs[..i] + [msgs[i]];
        SystemsAppend(msgs[..i], [msgs[i]]);
        OthersAppend(msgs[..i], [msgs[i]]);
        if msgs[i].role.System? {
          system := system + [msgs[i]];
        } else {
          nonSystem := nonSystem + [msgs[i]];
        }
      }
      assert msgs[..|msgs|] == msgs;
      var keep := cfg.keepRecentTurns;
      if keep >= |nonSystem| {
        return system, [], nonSystem;
      }
      var cut := |nonSystem| - keep;
      return system, nonSystem[..cut], nonSystem[cut..];
    }

    method Window(req: ChatRequest)
      modifies req
      ensures req.messages == WindowOf(old(req.messages), cfg.keepRecentTurns)
    {
      var system, middle, recent := Split(req.messages);
      if |middle| == 0 {
        return;
      }
      req.messages := system + [Breadcrumb(|middle|)] + recent;
    }

    method Summary(req: ChatRequest)
      modifies req
      ensures req.messages == SummaryOf(cfg, summarize, old(req.messages))
    {
      var system, middle, recent := Split(req.messages);
      if |middle| == 0 {
        return;
      }
      if summarize.None? || cfg.summaryModel == "" {
        Window(req);
        return;
      }
      var sum := summarize.value(cfg.summaryModel, middle);
      if sum.Err? || Text.TrimSpace(sum.value) == "" {
        Window(req);
        return;
      }
      req.messages := system + [SummaryNote(sum.value)] + recent;
    }
  }

  const MAX_INT := 0x7fff_ffff_ffff_ffff

  /** itoa: fills a 20-byte buffer from the back; a negative number gives the empty string. */
  method Itoa(n: int) returns (s: string)
    requires n <= MAX_INT
    ensures s == if n < 0 then "" else Text.Decimal(n)
  {
    if n == 0 {
      return "0";
    }
    var b := new char[20];
    var i := FillDigits(b, n);
    s := b[i..];
  }

  method FillDigits(b: array<char>, n: int) returns (i: nat)
    requires n <= MAX_INT && b.Length == 20
    modifies b
    ensures i <= 20 && b[i..] == Leading(n)
  {
    hide Leading, Limit, Text.Digit;
    var k := n;
    i := 20;
    LimitOfBuffer();
    LeadingNothing();
    while k > 0
      invariant 0 <= i <= 20 && k <= Limit(i)
      invariant Leading(n) == Leading(k) + b[i..]
      decreases k
    {
      LimitStep(i, k);
      LeadingStep(k, b[i..]);
      i := i - 1;
      PutDigit(b, i, Text.Digit(k % 10));
      k := k / 10;
    }
  }

  method PutDigit(b: array<char>, i: nat, d: char)
    requires i < b.Length
    modifies b
    ensures b[i..] == [d] + old(b[i + 1..])
  {
    b[i] := d;
  }

  /** The digits still to be written. */
  function Leading(k: int): string { if k <= 0 then "" else Text.Decimal(k) }

  lemma LeadingNothing()
    ensures forall k :: k <= 0 ==> Leading(k) == ""
  {
  }

  lemma LeadingStep(k: int, tail: string)
    requires k > 0
    ensures Leading(k) + tail == Leading(k / 10) + ([Text.Digit(k % 10)] + tail)
  {
    if k < 10 {
      assert Leading(k / 10) == "";
    } else {
      assert Leading(k) == Leading(k / 10) + [Text.Digit(k % 10)];
    }
  }

  /** The largest number that still fits in front of place i. */
  function Limit(i: nat): nat
    requires i <= 20
  {
    if i == 0 then 0 else 10 * Limit(i - 1) + 9
  }

  lemma LimitOfBuffer()
    ensures Limit(20) >= MAX_INT
  {
    assert Limit(4) == 9999;
    assert Limit(6) == 999999;
    assert Limit(8) == 99999999;
    assert Limit(10) == 9999999999;
    assert Limit(12) == 999999999999;
    assert Limit(14) == 99999999999999;
    assert Limit(16) == 9999999999999999;
    assert Limit(18) == 999999999999999999;
  }

  lemma LimitStep(i: nat, k: int)
    requires i <= 20 && 0 < k <= Limit(i)
    ensures i > 0 && k / 10 <= Limit(i - 1)
  {
  }
}

/** Laws of compression. */
module CompressionLaws {
  import opened Common
  import opened Schema
  import opened Compress
  import Text

  lemma CleanLaws(t: string)
    ensures Clean(Clean(t)) == Clean(t) && |Clean(t)| <= |t| && Text.Fields(Clean(t)) == Text.Fields(t)
  {
    Text.FieldsAreWords(t);
    Text.FieldsOfJoin(Text.Fields(t));
    Text.JoinFieldsIsShort(t);
  }

  /** Trimming a message keeps its words, is idempotent and never raises its estimate. */
  lemma TrimMessageLaws(m: Message)
    ensures TrimMessage(TrimMessage(m)) == TrimMessage(m)
    ensures EstimateMessage(TrimMessage(m)) <= EstimateMessage(m)
    ensures m.TextContent().Some? ==>
      TrimMessage(m).TextContent().Some? &&
      Text.Fields(TrimMessage(m).TextContent().value) == Text.Fields(m.TextContent().value)
  {
    if m.TextContent().Some? {
      CleanLaws(m.TextContent().value);
    }
  }

  lemma TrimIsIdempotent(ms: seq<Message>)
    ensures TrimAll(TrimAll(ms)) == TrimAll(ms)
  {
    forall i | 0 <= i < |ms| ensures TrimMessage(TrimMessage(ms[i])) == TrimMessage(ms[i]) {
      TrimMessageLaws(ms[i]);
    }
  }

  lemma {:induction false} TrimNeverCosts(ms: seq<Message>)
    ensures Estimate(TrimAll(ms)) <= Estimate(ms)
    decreases |ms|
  {
    if ms != [] {
      TrimMessageLaws(ms[0]);
      TrimNeverCosts(ms[1..]);
      assert TrimAll(ms)[1..] == TrimAll(ms[1..]);
    }
  }

  /** The shape of a prompt whose middle was dropped. */
  lemma ElideShape(ms: seq<Message>, keep: nat, note: Message)
    requires note.role.System? && Middle(ms, keep) != []
    ensures Systems(Elide(ms, keep, note)) == Systems(ms) + [note]
    ensures Others(Elide(ms, keep, note)) == Recent(ms, keep)
    ensures Middle(ms, keep) + Recent(ms, keep) == Others(ms) && |Recent(ms, keep)| == keep
  {
    hide Systems, Others, AllSystem, NoSystem;
    NothingSystem(ms, keep);
    NoteIsSystem(ms, note);
    SystemsThenOthers(Systems(ms) + [note], Recent(ms, keep));
  }

  lemma NoteIsSystem(ms: seq<Message>, note: Message)
    requires note.role.System?
    ensures AllSystem(Systems(ms) + [note])
  {
    hide Systems;
    SplitUniform(ms);
  }

  lemma NothingSystem(ms: seq<Message>, keep: nat)
    ensures NoSystem(Recent(ms, keep))
  {
    SplitUniform(ms);
    assert forall m :: m in Recent(ms, keep) ==> m in Others(ms);
  }

  /** Applying window twice equals applying it once; so the result of an elision, whatever the note,
      is left alone by window. */
  lemma WindowIsStable(ms: seq<Message>, keep: nat, note: Message)
    requires note.role.System?
    ensures Middle(ms, keep) != [] ==> WindowOf(Elide(ms, keep, note), keep) == Elide(ms, keep, note)
    ensures WindowOf(WindowOf(ms, keep), keep) == WindowOf(ms, keep)
  {
    if Middle(ms, keep) != [] {
      ElideShape(ms, keep, note);
      ElideShape(ms, keep, Breadcrumb(|Middle(ms, keep)|));
    }
  }

  /** Exact accounting: what an elision saves is the estimate of the dropped middle minus that of
      the note. */
  lemma ElideAccounting(ms: seq<Message>, keep: nat, note: Message)
    requires Middle(ms, keep) != []
    ensures Estimate(ms) - Estimate(Elide(ms, keep, note)) == Estimate(Middle(ms, keep)) - EstimateMessage(note)
  {
    var middle, recent := Middle(ms, keep), Recent(ms, keep);
    EstimateSplit(ms);
    assert middle + recent == Others(ms);
    EstimateAppend(middle, recent);
    EstimateAppend(Systems(ms) + [note], recent);
    EstimateAppend(Systems(ms), [note]);
    assert [note][1..] == [] && Estimate([note]) == EstimateMessage(note);
  }

  /** When a window reports nothing although it rewrote the prompt: exactly when the dropped middle
      was estimated at no more than the breadcrumb. */
  lemma SilentRewrite(ms: seq<Message>, keep: nat)
    requires Middle(ms, keep) != []
    ensures var note := Breadcrumb(|Middle(ms, keep)|);
      Estimate(WindowOf(ms, keep)) < Estimate(ms) <==> Estimate(Middle(ms, keep)) > EstimateMessage(note)
  {
    ElideAccounting(ms, keep, Breadcrumb(|Middle(ms, keep)|));
  }

  /** A concrete prompt: one short message, with nothing to be kept. */
  lemma SilentRewriteExample()
    ensures var ms := [UserMsg("hi")];
      WindowOf(ms, 0) == [Breadcrumb(1)] && Estimate(WindowOf(ms, 0)) > Estimate(ms)
  {
    var ms := [UserMsg("hi")];
    assert ms[1..] == [] && Others(ms) == ms && Systems(ms) == [];
    assert Middle(ms, 0) == ms && Recent(ms, 0) == [];
    assert WindowOf(ms, 0) == [Breadcrumb(1)];
    assert [Breadcrumb(1)][1..] == [];
    assert EstimateMessage(UserMsg("hi")) == 5;
    BreadcrumbIsLong(1);
  }

  lemma BreadcrumbIsLong(n: nat)
    ensures EstimateMessage(Breadcrumb(n)) > 5
  {
  }

  /** Trimming acts on the system messages and on the others separately. */
  lemma {:induction false} TrimKeepsSides(ms: seq<Message>)
    ensures Systems(TrimAll(ms)) == TrimAll(Systems(ms)) && Others(TrimAll(ms)) == TrimAll(Others(ms))
    decreases |ms|
  {
    hide TrimMessage, TrimAll;
    assert TrimAll([]) == [] by { TrimAllCons(SysMsg(""), []); }
    if ms != [] {
      var m, rest := ms[0], ms[1..];
      assert ms == [m] + rest;
      TrimAllCons(m, rest);
      var trimmed := TrimAll(rest);
      assert ([TrimMessage(m)] + trimmed)[1..] == trimmed;
      TrimKeepsSides(rest);
      TrimAllCons(m, Systems(rest));
      TrimAllCons(m, Others(rest));
      assert [] + Systems(rest) == Systems(rest) && [] + Others(rest) == Others(rest);
      assert [] + TrimAll(Systems(rest)) == TrimAll(Systems(rest));
      assert [] + TrimAll(Others(rest)) == TrimAll(Others(rest));
    }
  }

  lemma TrimAllCons(m: Message, rest: seq<Message>)
    ensures TrimAll([m] + rest) == [TrimMessage(m)] + TrimAll(rest) && TrimMessage(m).role == m.role
    ensures TrimAll([]) == []
  {
  }

  /** Whatever the strategy, compression does one of three things: nothing; it trims every message in
      its place; or it keeps every system message in order, adds one, and keeps exactly the most
      recent of the others. */
  lemma CompressionIsProjection(cfg: Config, summarize: Option<Summarizer>, ms: seq<Message>)
    ensures var out := Compressed(cfg, summarize, ms);
      || out == ms
      || (cfg.strategy.Trim? && |out| == |ms|
          && Systems(out) == TrimAll(Systems(ms)) && Others(out) == TrimAll(Others(ms)))
      || (!cfg.strategy.Trim? && Systems(ms) <= Systems(out) && |Systems(out)| == |Systems(ms)| + 1
          && Others(out) == Recent(ms, cfg.keepRecentTurns) && |Others(out)| == cfg.keepRecentTurns)
  {
    hide Clean, Estimate, TrimMessage;
    var keep := cfg.keepRecentTurns;
    TrimKeepsSides(ms);
    if Middle(ms, keep) != [] {
      ElideShape(ms, keep, Breadcrumb(|Middle(ms, keep)|));
      match SummaryText(cfg, summarize, Middle(ms, keep))
      case None =>
      case Some(text) => ElideShape(ms, keep, SummaryNote(text));
    }
  }

  /** Compressing twice, under any configuration and with any summarizer, is compressing once. */
  lemma CompressionIsIdempotent(cfg: Config, summarize: Option<Summarizer>, ms: seq<Message>)
    ensures var out := Compressed(cfg, summarize, ms); Compressed(cfg, summarize, out) == out
  {
    hide Clean, Estimate, TrimMessage, Systems, Others, Text.TrimSpace;
    var keep := cfg.keepRecentTurns;
    TrimIsIdempotent(ms);
    if Middle(ms, keep) != [] {
      ElideShape(ms, keep, Breadcrumb(|Middle(ms, keep)|));
      match SummaryText(cfg, summarize, Middle(ms, keep))
      case None =>
      case Some(text) => ElideShape(ms, keep, SummaryNote(text));
    }
  }
}
