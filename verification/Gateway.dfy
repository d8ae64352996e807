/** The tool loop of the gateway (internal/gateway/gateway.go): what one conversation with the model
    may look like. */
module ToolLoop {
  import opened Common
  import opened Schema
  import opened Routing = Router

  /** Everything outside the gateway: providers, back-off waits and tool servers.  Each answers by the
      time of asking, so it may answer differently every time. */
  datatype Env = Env(
    upstream: (nat, nat, Attempt, seq<Message>) -> Upstream,
    cancelled: (nat, nat) -> bool,
    call: (nat, nat, string, ToolCall) -> Result<string>,
    unknownTool: string -> string)

  /** Attempt i answers: all attempts before it failed in a way that allows another try. */
  predicate AnswersAt(env: Env, tick: nat, attempts: seq<Attempt>, ms: seq<Message>, i: nat, answer: ResponseValue,
                      won: Attempt)
  {
    && i < |attempts| && won == attempts[i] && env.upstream(tick, i, won, ms) == Answer(answer)
    && forall j :: 0 <= j < i ==> Retryable(env.upstream(tick, j, attempts[j], ms)) && !env.cancelled(tick, j)
  }

  ghost predicate Answers(env: Env, tick: nat, attempts: seq<Attempt>, ms: seq<Message>, answer: ResponseValue,
                          won: Attempt)
  {
    exists i: nat :: AnswersAt(env, tick, attempts, ms, i, answer, won)
  }

  /** No attempt answers. */
  ghost predicate Fails(env: Env, tick: nat, attempts: seq<Attempt>, ms: seq<Message>) {
    forall answer, won :: !Answers(env, tick, attempts, ms, answer, won)
  }

  /** The chain of attempts has one answer, or none. */
  lemma OneAnswer(env: Env, tick: nat, attempts: seq<Attempt>, ms: seq<Message>, a: ResponseValue, v: Attempt,
                  b: ResponseValue, w: Attempt)
    requires Answers(env, tick, attempts, ms, a, v) && Answers(env, tick, attempts, ms, b, w)
    ensures a == b && v == w
  {
    var i: nat :| AnswersAt(env, tick, attempts, ms, i, a, v);
    var j: nat :| AnswersAt(env, tick, attempts, ms, j, b, w);
    assert i == j;
  }

  /** One completed round: when and what the model was asked, its answer, its message and a result
      for each call in it. */
  datatype Round = Round(tick: nat, prompt: seq<Message>, answer: ResponseValue, won: Attempt, call: Message,
                         results: seq<Message>)

  /** What the rounds added to the conversation. */
  function Flatten(rounds: seq<Round>): seq<Message> {
    if rounds == [] then []
    else
      var last := rounds[|rounds| - 1];
      Flatten(rounds[..|rounds| - 1]) + ([last.call] + last.results)
  }

  function ResultCount(rounds: seq<Round>): nat {
    if rounds == [] then 0 else ResultCount(rounds[..|rounds| - 1]) + |rounds[|rounds| - 1].results|
  }

  /** The text a call produces: its owner's answer, or the error as text. */
  function Output(env: Env, tick: nat, j: nat, home: map<string, string>, c: ToolCall): string {
    if c.name in home then
      match env.call(tick, j, home[c.name], c)
      case Ok(text) => text
      case Err(error) => "tool error: " + error
    else "tool error: " + env.unknownTool(c.name)
  }

  function Outputs(env: Env, tick: nat, home: map<string, string>, calls: seq<ToolCall>): (r: seq<Message>)
    ensures |r| == |calls|
  {
    seq(|calls|, j requires 0 <= j < |calls| => ToolMsg(calls[j].id, Output(env, tick, j, home, calls[j])))
  }

  predicate Final(answer: ResponseValue) {
    answer.body.choices == [] || answer.body.choices[0].message.ParseToolCalls() == []
  }

  /** The model answered the prompt, and every call in its message has a result, in order and under
      its id. */
  ghost predicate Answered(env: Env, attempts: seq<Attempt>, home: map<string, string>, r: Round) {
    && Answers(env, r.tick, attempts, r.prompt, r.answer, r.won)
    && !Final(r.answer) && r.call == r.answer.body.choices[0].message
    && r.results == Outputs(env, r.tick, home, r.call.ParseToolCalls())
  }

  /** The rounds of a conversation: each is the model's answer to everything before it. */
  ghost predicate Conversed(env: Env, start: nat, attempts: seq<Attempt>, home: map<string, string>, ms: seq<Message>,
                            rounds: seq<Round>)
  {
    forall k :: 0 <= k < |rounds| ==>
      && rounds[k].tick == start + k && rounds[k].prompt == ms + Flatten(rounds[..k])
      && Answered(env, attempts, home, rounds[k])
  }

  lemma Converse(env: Env, start: nat, attempts: seq<Attempt>, home: map<string, string>, ms: seq<Message>,
                 rounds: seq<Round>, r: Round)
    requires Conversed(env, start, attempts, home, ms, rounds) && Answered(env, attempts, home, r)
    requires r.tick == start + |rounds| && r.prompt == ms + Flatten(rounds)
    ensures Conversed(env, start, attempts, home, ms, rounds + [r])
    ensures ms + Flatten(rounds + [r]) == r.prompt + ([r.call] + r.results)
    ensures ResultCount(rounds + [r]) == ResultCount(rounds) + |r.results|
  {
    hide Answered, ResultCount, Flatten;
    var longer := rounds + [r];
    assert longer[..|rounds|] == rounds;
    AddRound(ms, rounds, r);
    forall k | 0 <= k < |longer|
      ensures longer[k].tick == start + k && longer[k].prompt == ms + Flatten(longer[..k])
           && Answered(env, attempts, home, longer[k])
    {
      if k < |rounds| {
        assert longer[..k] == rounds[..k];
      }
    }
  }

  lemma NoRounds(env: Env, start: nat, attempts: seq<Attempt>, home: map<string, string>, ms: seq<Message>)
    ensures Conversed(env, start, attempts, home, ms, []) && ms + Flatten([]) == ms && ResultCount([]) == 0
  {
  }

  lemma AddRound(ms: seq<Message>, rounds: seq<Round>, r: Round)
    ensures ms + Flatten(rounds + [r]) == ms + Flatten(rounds) + ([r.call] + r.results)
    ensures ResultCount(rounds + [r]) == ResultCount(rounds) + |r.results|
  {
    assert (rounds + [r])[..|rounds|] == rounds;
  }

  /** No tool call means no round, so the conversation was not touched. */
  lemma NoCallsNoRounds(env: Env, start: nat, attempts: seq<Attempt>, home: map<string, string>, ms: seq<Message>,
                        rounds: seq<Round>)
    requires Conversed(env, start, attempts, home, ms, rounds)
    ensures ResultCount(rounds) == 0 <==> rounds == []
  {
    if rounds != [] {
      assert Answered(env, attempts, home, rounds[|rounds| - 1]);
    }
  }
}

/** The pipeline (internal/gateway/gateway.go) and its counters (internal/metrics/metrics.go). */
module Gateway {
  import opened Common
  import opened Schema
  import opened Routing = Router
  import opened Compress
  import opened Cache
  import opened ToolLoop
  import CacheRuns
  import Vectors
  import Mcp

  /** Requests over all providers. */
  ghost function Total(m: map<string, nat>): nat {
    if m == map[] then 0
    else
      var k :| k in m;
      m[k] + Total(m - {k})
  }

  lemma {:induction false} TotalWithout(m: map<string, nat>, k: string)
    requires k in m
    ensures Total(m) == m[k] + Total(m - {k})
    decreases |m|
  {
    var l :| l in m && Total(m) == m[l] + Total(m - {l});
    if l != k {
      TotalWithout(m - {l}, k);
      TotalWithout(m - {k}, l);
      assert m - {l} - {k} == m - {k} - {l};
    }
  }

  function Observed(m: map<string, nat>, k: string): map<string, nat> {
    m[k := (if k in m then m[k] else 0) + 1]
  }

  lemma TimesOneMore(i: nat, n: nat)
    ensures (i + 1) * n == i * n + n
  {
  }

  lemma ObservedTotal(m: map<string, nat>, k: string)
    ensures Total(Observed(m, k)) == Total(m) + 1
  {
    var more := Observed(m, k);
    TotalWithout(more, k);
    assert more - {k} == m - {k};
    if k in m {
      TotalWithout(m, k);
    } else {
      assert m - {k} == m;
    }
  }

  function StrategyName(s: Option<Strategy>): string {
    match s
    case None => ""
    case Some(Off) => "off"
    case Some(Trim) => "trim"
    case Some(Window) => "window"
    case Some(Summary) => "summary"
    case Some(Unknown(name)) => name
  }

  /** attachMeta and the stamps after it. */
  function Stamped(meta: Option<GatewayMeta>, provider: string, model: string, hit: bool, attempts: int, c: Outcome,
                   node: string): GatewayMeta
  {
    var m := if meta.Some? then meta.value else NO_META;
    m.(provider := provider, resolvedModel := model, cacheHit := hit, attempts := attempts,
       tokensSaved := c.tokensSaved, compression := StrategyName(c.applied), node := node)
  }

  /** How a request ended. */
  datatype Path =
    | Hit(stored: ResponseValue)
    | Unroutable
    | Failed(attempts: seq<Attempt>, rounds: seq<Round>)
    | Sent(attempts: seq<Attempt>, won: Attempt, answer: ResponseValue, rounds: seq<Round>, tries: nat, iterations: nat)

  /** A lookup finds something. */
  ghost predicate Has(t: Table, key: string, model: string, ms: seq<Message>, now: real, threshold: real) {
    ExactHit(t, key, now) || ScanHit(t, model, TermsOf(ms), now, threshold)
  }

  /** The entry a lookup may serve. */
  ghost predicate Serves(t: Table, key: string, model: string, ms: seq<Message>, now: real, threshold: real,
                         stored: ResponseValue)
  {
    if ExactHit(t, key, now) then stored == t.items[key].resp
    else exists k :: Best(t, k, model, TermsOf(ms), now, threshold) && stored == t.items[k].resp
  }

  /** The cache is well formed: one key per entry, in order, within the cap. */
  ghost predicate Ordered(max: int, t: Table) {
    max >= 1 ==>
      CacheRuns.Distinct(t.order) && (forall k :: k in t.items <==> k in t.order) && |t.order| <= max
  }

  /** A stored response is what the same key finds until it expires. */
  lemma StoredIsFound(max: int, t: Table, key: string, e: Stored, now: real)
    requires max >= 1 && Ordered(max, t) && now < e.expires
    ensures var after := Insert(max, t, key, e);
      Ordered(max, after) && ExactHit(after, key, now) && after.items[key] == e
  {
    CacheRuns.InsertOrder(max, t, key, e);
    assert key in Insert(max, t, key, e).order;
  }

  lemma KeepsOrder(max: int, t: Table, key: string, e: Stored)
    requires Ordered(max, t)
    ensures Ordered(max, Insert(max, t, key, e))
  {
    if max >= 1 {
      CacheRuns.InsertOrder(max, t, key, e);
    }
  }

  class Gateway {
    const router: Router
    const cache: ResponseCache
    const compressor: Compressor
    const mcp: Mcp.Manager
    const mcpEnabled: bool
    const maxToolIterations: int
    const env: Env
    const node: string
    var requests: nat
    var cacheHits: nat
    var errors: nat
    var tokensSaved: nat
    var byProvider: map<string, nat>
    /** Requests the counters see outside Complete: agent turns served, requests the governor denied,
        and streams prepared but not finished. */
    ghost var direct: nat
    ghost var denied: nat
    ghost var streaming: nat

    ghost predicate Valid()
      reads this, router, cache, cache.owned, mcp
    {
      && router.Valid() && cache.Valid() && mcp.Valid()
      && Ordered(cache.maxItems, cache.View())
      && Balanced()
    }

    /** Conservation: everything that came in is accounted for once. */
    ghost predicate Balanced()
      reads this
    {
      requests + direct + denied == cacheHits + errors + Total(byProvider) + streaming
    }

    constructor (router: Router, cache: ResponseCache, compressor: Compressor, mcp: Mcp.Manager, mcpEnabled: bool,
                 maxToolIterations: int, env: Env, node: string)
      requires router.Valid() && cache.Valid() && mcp.Valid() && cache.View() == EMPTY
      ensures Valid() && this.router == router && this.cache == cache && this.compressor == compressor
      ensures this.mcp == mcp && this.mcpEnabled == mcpEnabled && this.maxToolIterations == maxToolIterations
      ensures this.env == env && this.node == node
      ensures requests == cacheHits == errors == tokensSaved == 0 && byProvider == map[]
    {
      this.router, this.cache, this.compressor, this.mcp := router, cache, compressor, mcp;
      this.mcpEnabled, this.maxToolIterations, this.env, this.node := mcpEnabled, maxToolIterations, env, node;
      requests, cacheHits, errors, tokensSaved, byProvider := 0, 0, 0, 0, map[];
      direct, denied, streaming := 0, 0, 0;
    }

    /** Nothing the gateway writes to is a part of a cached response. */
    lemma Apart(req: ChatRequest?)
      requires cache.Valid()
      ensures this !in cache.owned && router !in cache.owned && cache !in cache.owned && mcp !in cache.owned
      ensures req != null ==> req !in cache.owned
    {
    }

    /** MaxIterations: the guard of the tool loop. */
    function MaxIterations(): (n: nat)
      ensures n >= 1
    {
      if maxToolIterations <= 0 then 4 else maxToolIterations
    }

    /** One upstream call through the fallback chain. */
    method Ask(tick: nat, attempts: seq<Attempt>, ms: seq<Message>) returns (s: Routing.Served)
      ensures s.tries <= |attempts| && (s.resp.Some? ==> s.tries >= 1)
      ensures s.resp.Some? ==> Answers(env, tick, attempts, ms, s.resp.value, s.won)
      ensures s.resp.None? ==> Fails(env, tick, attempts, ms)
    {
      s := Chat(env.upstream, env.cancelled, tick, attempts, ms);
      if s.resp.Some? {
        assert AnswersAt(env, tick, attempts, ms, s.tries - 1, s.resp.value, s.won);
      }
    }

    /** The tool loop: at most MaxIterations rounds; only whole rounds are appended; it ends with a final
        answer, with a failed call, or with the last round allowed. */
    method RunToolLoop(start: nat, attempts: seq<Attempt>, req: ChatRequest)
      returns (answer: Option<ResponseValue>, won: Attempt, total: nat, toolCalls: nat, iterations: nat,
               ghost rounds: seq<Round>)
      requires mcp.Valid()
      modifies req
      ensures Conversed(env, start, attempts, mcp.toolHome, old(req.messages), rounds)
      ensures req.messages == old(req.messages) + Flatten(rounds) && toolCalls == ResultCount(rounds)
      ensures |rounds| <= iterations <= MaxIterations() && iterations <= |rounds| + 1
      ensures total <= iterations * |attempts| && (answer.Some? ==> iterations <= total)
      ensures answer.None? ==> iterations == |rounds| + 1 && Fails(env, start + |rounds|, attempts, req.messages)
      ensures answer.Some? && iterations == |rounds| ==>
        |rounds| == MaxIterations() && answer.value == rounds[|rounds| - 1].answer && won == rounds[|rounds| - 1].won
      ensures answer.Some? && iterations > |rounds| ==>
        Final(answer.value) && Answers(env, start + |rounds|, attempts, req.messages, answer.value, won)
    {
      hide Answers, Fails, Flatten, ResultCount, Conversed, Outputs;
      var maxIter := MaxIterations();
      answer, won, total, toolCalls, iterations, rounds := None, NO_ATTEMPT, 0, 0, 0, [];
      NoRounds(env, start, attempts, mcp.toolHome, req.messages);
      for i := 0 to maxIter
        invariant Conversed(env, start, attempts, mcp.toolHome, old(req.messages), rounds)
        invariant req.messages == old(req.messages) + Flatten(rounds)
        invariant toolCalls == ResultCount(rounds) && |rounds| == iterations == i
        invariant i <= total <= i * |attempts|
        invariant i > 0 ==> answer == Some(rounds[i - 1].answer) && won == rounds[i - 1].won
      {
        iterations := i + 1;
        var s := Ask(start + i, attempts, req.messages);
        TimesOneMore(i, |attempts|);
        total := total + s.tries;
        if s.resp.None? {
          answer, won := None, s.won;
          return;
        }
        answer, won := s.resp, s.won;
        if Final(s.resp.value) {
          return;
        }
        var call := s.resp.value.body.choices[0].message;
        ghost var r := Round(start + i, req.messages, s.resp.value, s.won, call,
                             Outputs(env, start + i, mcp.toolHome, call.ParseToolCalls()));
        Converse(env, start, attempts, mcp.toolHome, old(req.messages), rounds, r);
        AppendRound(start + i, call, req);
        toolCalls := toolCalls + |call.ParseToolCalls()|;
        rounds := rounds + [r];
      }
    }

    /** Appends the model's message and one result per call, in order. */
    method AppendRound(tick: nat, call: Message, req: ChatRequest)
      requires mcp.Valid()
      modifies req
      ensures req.messages
           == old(req.messages) + ([call] + Outputs(env, tick, mcp.toolHome, call.ParseToolCalls()))
    {
      var calls := call.ParseToolCalls();
      ghost var all := Outputs(env, tick, mcp.toolHome, calls);
      ghost var head := req.messages + [call];
      req.messages := req.messages + [call];
      for j := 0 to |calls|
        invariant req.messages == head + all[..j]
      {
        var out := CallTool(tick, j, calls[j]);
        req.messages := req.messages + [ToolMsg(calls[j].id, out)];
        assert all[..j + 1] == all[..j] + [all[j]];
      }
      assert all[..|calls|] == all;
      assert old(req.messages) + [call] + all == old(req.messages) + ([call] + all);
    }

    /** Call: the owner runs the tool; a failure is turned into text. */
    method CallTool(tick: nat, j: nat, c: ToolCall) returns (out: string)
      requires mcp.Valid()
      ensures out == Output(env, tick, j, mcp.toolHome, c)
    {
      if c.name in mcp.toolHome {
        var r := env.call(tick, j, mcp.toolHome[c.name], c);
        if r.Ok? {
          return r.value;
        }
        return "tool error: " + r.error;
      }
      return "tool error: " + env.unknownTool(c.name);
    }

    /** Upstream, with or without tools. */
    method Serve(start: nat, attempts: seq<Attempt>, req: ChatRequest)
      returns (answer: Option<ResponseValue>, won: Attempt, total: nat, toolCalls: nat, iterations: nat,
               ghost rounds: seq<Round>)
      requires mcp.Valid()
      modifies req
      ensures req.messages == old(req.messages) + Flatten(rounds) && toolCalls == ResultCount(rounds)
      ensures toolCalls == 0 <==> rounds == []
      ensures Conversed(env, start, attempts, mcp.toolHome, old(req.messages), rounds)
      ensures |rounds| <= MaxIterations() && (!ToolsOn() ==> rounds == [])
      ensures if ToolsOn() then |rounds| <= iterations <= MaxIterations() && total <= iterations * |attempts|
              else iterations == 0 && total <= |attempts|
      ensures answer.Some? ==> Concludes(start, attempts, old(req.messages), rounds, answer.value, won)
      ensures answer.None? ==> Fails(env, start + |rounds|, attempts, req.messages)
    {
      hide Answers, Fails, Flatten, ResultCount, Conversed;
      ghost var ms := req.messages;
      NoRounds(env, start, attempts, mcp.toolHome, ms);
      if ToolsOn() {
        answer, won, total, toolCalls, iterations, rounds := RunToolLoop(start, attempts, req);
        NoCallsNoRounds(env, start, attempts, mcp.toolHome, ms, rounds);
      } else {
        var s := Ask(start, attempts, req.messages);
        answer, won, total, toolCalls, iterations, rounds := s.resp, s.won, s.tries, 0, 0, [];
      }
    }

    predicate ToolsOn()
      reads mcp
    {
      mcpEnabled && |mcp.catalog| > 0
    }

    /** The answer that ends a conversation: the answer to all of it, or the last round allowed. */
    ghost predicate Concludes(start: nat, attempts: seq<Attempt>, ms: seq<Message>, rounds: seq<Round>,
                              answer: ResponseValue, won: Attempt)
      reads mcp
    {
      || (Answers(env, start + |rounds|, attempts, ms + Flatten(rounds), answer, won) && (ToolsOn() ==> Final(answer)))
      || (|rounds| == MaxIterations() && answer == rounds[|rounds| - 1].answer && won == rounds[|rounds| - 1].won)
    }

    /** What compression leaves of a prompt. */
    function Prompt(ms: seq<Message>): seq<Message> { Compressed(compressor.cfg, compressor.summarize, ms) }

    /** What compression reports of a prompt. */
    function Report(ms: seq<Message>): Outcome {
      var before, after := Estimate(ms), Estimate(Prompt(ms));
      if !compressor.cfg.enabled || compressor.cfg.strategy.Off? then Outcome(None, 0, 0, 0)
      else if after < before then Outcome(Some(compressor.cfg.strategy), before, after, before - after)
      else Outcome(None, before, after, 0)
    }

    /** The counters after a request that took this path. */
    twostate predicate Counted(saved: int, path: Path)
      reads this
    {
      && requests == old(requests) + 1 && tokensSaved == old(tokensSaved) + saved
      && direct == old(direct) && denied == old(denied) && streaming == old(streaming)
      && cacheHits == old(cacheHits) + (if path.Hit? then 1 else 0)
      && errors == old(errors) + (if path.Unroutable? || path.Failed? then 1 else 0)
      && byProvider == if path.Sent? then Observed(old(byProvider), path.won.provider) else old(byProvider)
    }

    method Observe(provider: string)
      modifies this`byProvider
      ensures byProvider == Observed(old(byProvider), provider) && Total(byProvider) == Total(old(byProvider)) + 1
    {
      ObservedTotal(byProvider, provider);
      byProvider := Observed(byProvider, provider);
    }

    /** Compresses the prompt in place and counts what that saved. */
    method Shrink(req: ChatRequest) returns (cres: Outcome)
      modifies this`tokensSaved, req
      ensures req.messages == Prompt(old(req.messages)) && cres == Report(old(req.messages))
      ensures tokensSaved == old(tokensSaved) + cres.tokensSaved
    {
      hide Compressed, Estimate;
      cres := compressor.Apply(req);
      if cres.tokensSaved > 0 {
        tokensSaved := tokensSaved + cres.tokensSaved;
      }
    }

    /** Asks the cache; a hit is stamped with this request's compression and node. */
    method LookUp(req: ChatRequest, lookup: real, cres: Outcome) returns (r: ChatResponse?, ghost stored: ResponseValue)
      requires cache.Valid()
      ensures r != null <==> Cached(cache.View(), req, req.messages, lookup)
      ensures r != null ==>
        && fresh(r) && fresh(r.Parts())
        && Serves(cache.View(), KeyOf(req, req.messages), req.model, req.messages, lookup, cache.threshold, stored)
        && r.View() == ResponseValue(stored.body, Some(Stamped(stored.meta, "cache", req.model, true, 0, cres, node)))
    {
      hide TermsOf, Close, Eligible, ScanHit, StrategyName, ResponseCache.Valid, ResponseCache.View;
      r := cache.Get(req.model, req.messages, req.stream, req.temperature, lookup);
      if r != null {
        ghost var ms, key, t := req.messages, cache.keyFor(req.model, req.messages, req.temperature), cache.View();
        if ExactHit(t, key, lookup) {
          stored := t.items[key].resp;
        } else {
          ghost var k :| Best(t, k, req.model, TermsOf(ms), lookup, cache.threshold)
                         && r.View() == Cache.Served(t.items[k].resp);
          stored := t.items[k].resp;
        }
        r.Stamp(Stamped(r.MetaValue(), "cache", req.model, true, 0, cres, node));
      } else {
        stored := ResponseValue(ChatBody("", "", [], Usage(0, 0, 0)), None);
      }
    }

    /** Stamps an answer, and stores it unless tools were used. */
    method Finish(req: ChatRequest, answer: ResponseValue, won: Attempt, n: nat, toolCalls: nat, iterations: nat,
                  cres: Outcome, store: real) returns (r: ChatResponse)
      requires cache.Valid() && Ordered(cache.maxItems, cache.View())
      modifies cache
      ensures cache.Valid() && Ordered(cache.maxItems, cache.View()) && fresh(cache.owned - old(cache.owned))
      ensures fresh(r) && fresh(r.Parts()) && r.Parts() !! cache.owned
      ensures r.View() == ResponseValue(answer.body,
        Some(Stamped(answer.meta, won.provider, won.model, false, n, cres, node)
             .(toolCalls := toolCalls, toolIterations := iterations)))
      ensures cache.View() == if cache.enabled && !req.stream && toolCalls == 0
        then cache.Stores(old(cache.View()), req.model, req.messages, req.temperature, r.View(), store)
        else old(cache.View())
    {
      hide Ordered, ResponseCache.Valid, ResponseCache.View, Insert, TermsOf, StrategyName;
      ghost var t := cache.View();
      r := new ChatResponse(answer.body, answer.meta);
      r.Stamp(Stamped(r.MetaValue(), won.provider, won.model, false, n, cres, node)
              .(toolCalls := toolCalls, toolIterations := iterations));
      if toolCalls == 0 {
        cache.Put(req.model, req.messages, req.stream, req.temperature, r, store);
        ghost var vec := TermsOf(req.messages);
        KeepsOrder(cache.maxItems, t, cache.keyFor(req.model, req.messages, req.temperature),
                   Stored(r.View(), store + cache.ttl, req.model, vec, Vectors.NormSq(vec)));
      }
    }

    /** Routes a request that the cache did not serve. */
    method Forward(req: ChatRequest, start: nat, cres: Outcome, store: real)
      returns (r: ChatResponse?, ghost path: Path)
      requires router.Valid() && cache.Valid() && mcp.Valid() && Ordered(cache.maxItems, cache.View())
      modifies this`errors, this`byProvider, router`rr, cache, req
      ensures router.Valid() && cache.Valid() && mcp.Valid() && Ordered(cache.maxItems, cache.View())
      ensures fresh(cache.owned - old(cache.owned))
      ensures !path.Hit? && (path.Sent? <==> r != null)
      ensures r != null ==> fresh(r) && fresh(r.Parts()) && r.Parts() !! cache.owned
      ensures errors == old(errors) + (if path.Sent? then 0 else 1)
      ensures byProvider == if path.Sent? then Observed(old(byProvider), path.won.provider) else old(byProvider)
      ensures Total(byProvider) == Total(old(byProvider)) + (if path.Sent? then 1 else 0)
      ensures path.Unroutable? <==> Unknown(req.model)
      ensures path.Unroutable? ==> req.messages == old(req.messages)
      ensures path.Failed? ==>
        Sending(req, start, old(req.messages), path.attempts, path.rounds) &&
        Fails(env, start + |path.rounds|, path.attempts, req.messages)
      ensures !path.Sent? ==> cache.View() == old(cache.View())
      ensures path.Sent? ==>
        Answering(req, start, old(req.messages), cres, store, old(cache.View()), path, r.View(), cache.View())
    {
      hide Conversed, Concludes, Flatten, ResultCount, Fails, Stamped, Total, Insert, Observed;
      hide ResponseCache.View, ResponseCache.Valid, Mcp.Manager.Valid, Routing.Router.Valid, Ordered;
      hide ResponseCache.Stores;
      Apart(req);
      RoutesFollow(req.model);
      var attempts := router.Resolve(req.model);
      if attempts.Err? {
        errors := errors + 1;
        return null, Unroutable;
      }
      var answer, won, n, toolCalls, iterations;
      ghost var rounds;
      answer, won, n, toolCalls, iterations, rounds := Serve(start, attempts.value, req);
      if answer.None? {
        errors := errors + 1;
        return null, Failed(attempts.value, rounds);
      }
      Observe(won.provider);
      path := Sent(attempts.value, won, answer.value, rounds, n, iterations);
      NoRounds(env, start, attempts.value, mcp.toolHome, old(req.messages));
      r := Finish(req, answer.value, won, n, toolCalls, iterations, cres, store);
    }

    /** The conversation that was had from the prompt `ms`: rounds only if there are tools, appended whole. */
    ghost predicate Sending(req: ChatRequest, start: nat, ms: seq<Message>, attempts: seq<Attempt>, rounds: seq<Round>)
      reads req, mcp
    {
      && Routes(req.model, attempts) && req.messages == ms + Flatten(rounds)
      && |rounds| <= MaxIterations() && (!ToolsOn() ==> rounds == [])
      && Conversed(env, start, attempts, mcp.toolHome, ms, rounds)
    }

    /** The attempts are the usable targets of the model, in order. */
    ghost predicate Routes(model: string, attempts: seq<Attempt>) {
      && attempts != [] && router.Targets(model).Some?
      && var usable := router.Usable(router.Targets(model).value);
         |attempts| == |usable| && forall i :: 0 <= i < |usable| ==>
           attempts[i].provider == usable[i].provider && attempts[i].model == usable[i].model
    }

    /** What the router resolves a model to. */
    lemma RoutesFollow(model: string)
      requires router.Valid()
      ensures var targets := router.Targets(model);
        if targets.None? then Unknown(model)
        else
          var attempts := router.Attempts(router.rr, targets.value).0;
          if attempts == [] then Unknown(model) else Routes(model, attempts) && !Unknown(model)
    {
      var targets := router.Targets(model);
      if targets.Some? {
        router.AttemptsAreUsable(router.rr, targets.value);
      }
    }

    /** The model has no usable target. */
    predicate Unknown(model: string) {
      router.Targets(model).None? || router.Usable(router.Targets(model).value) == []
    }

    /** What an answered request says and leaves behind: a conversation that starts from the prompt `ms`,
        the answer that concludes it, and a new cache entry under the same prompt if no tool was used. */
    ghost predicate Answering(req: ChatRequest, start: nat, ms: seq<Message>, cres: Outcome, store: real, before: Table,
                              path: Path, r: ResponseValue, after: Table)
      requires path.Sent?
      reads req, mcp
    {
      && Sending(req, start, ms, path.attempts, path.rounds)
      && (if ToolsOn() then
            |path.rounds| <= path.iterations <= MaxIterations() && path.tries <= path.iterations * |path.attempts|
          else path.iterations == 0 && path.tries <= |path.attempts|)
      && Concludes(start, path.attempts, ms, path.rounds, path.answer, path.won)
      && r.body == path.answer.body
      && r.meta == Some(Stamped(path.answer.meta, path.won.provider, path.won.model, false, path.tries, cres, node)
                        .(toolCalls := ResultCount(path.rounds), toolIterations := path.iterations))
      && after == if cache.enabled && !req.stream && path.rounds == []
           then cache.Stores(before, req.model, ms, req.temperature, r, store) else before
    }

    /** The pipeline.  A request is served from the cache, or sent upstream, or it fails; the cache is
        asked with the compressed prompt, and what is stored is stored under that same prompt. */
    method Complete(req: ChatRequest, start: nat, lookup: real, store: real)
      returns (r: ChatResponse?, ghost path: Path)
      requires Valid()
      modifies this, router`rr, cache, req
      ensures Valid() && Counted(Report(old(req.messages)).tokensSaved, path)
      ensures fresh(cache.owned - old(cache.owned))
      ensures r == null <==> path.Unroutable? || path.Failed?
      ensures r != null ==> fresh(r) && fresh(r.Parts()) && r.Parts() !! cache.owned
      ensures path.Hit? <==> Cached(old(cache.View()), req, Prompt(old(req.messages)), lookup)
      ensures path.Hit? ==>
        && Serves(old(cache.View()), KeyOf(req, Prompt(old(req.messages))), req.model, Prompt(old(req.messages)),
                  lookup, cache.threshold, path.stored)
        && r.View() == ResponseValue(path.stored.body,
             Some(Stamped(path.stored.meta, "cache", req.model, true, 0, Report(old(req.messages)), node)))
      ensures path.Hit? || path.Unroutable? ==> req.messages == Prompt(old(req.messages))
      ensures path.Unroutable? <==> !path.Hit? && Unknown(req.model)
      ensures path.Failed? ==>
        Sending(req, start, Prompt(old(req.messages)), path.attempts, path.rounds) &&
        Fails(env, start + |path.rounds|, path.attempts, req.messages)
      ensures !path.Sent? ==> cache.View() == old(cache.View())
      ensures path.Sent? ==>
        Answering(req, start, Prompt(old(req.messages)), Report(old(req.messages)), store, old(cache.View()), path,
                  r.View(), cache.View())
    {
      hide Prompt, Report, KeyOf, Flatten, Stamped, Total, Answering, Sending, Unknown, Fails;
      hide Insert, Cached, Observed, Serves;
      hide ResponseCache.View, ResponseCache.Valid, Mcp.Manager.Valid, Routing.Router.Valid, Ordered;
      hide ResponseCache.Stores;
      Apart(req);
      requests := requests + 1;
      var cres := Shrink(req);
      ghost var stored;
      r, stored := LookUp(req, lookup, cres);
      if r != null {
        path := Hit(stored);
        cacheHits := cacheHits + 1;
        return;
      }
      r, path := Forward(req, start, cres, store);
    }

    function KeyOf(req: ChatRequest, ms: seq<Message>): string { cache.keyFor(req.model, ms, req.temperature) }

    /** The cache can serve this request, asked with this prompt. */
    ghost predicate Cached(t: Table, req: ChatRequest, ms: seq<Message>, now: real) {
      cache.enabled && !req.stream && Has(t, KeyOf(req, ms), req.model, ms, now, cache.threshold)
    }

    /** A streaming request is compressed and routed; it stays open until FinishStream. */
    method PrepareStream(req: ChatRequest) returns (attempts: Result<seq<Attempt>>)
      requires Valid()
      modifies this, router`rr, req
      ensures Valid() && cache.View() == old(cache.View()) && req.messages == Prompt(old(req.messages))
      ensures requests == old(requests) + 1 && cacheHits == old(cacheHits) && byProvider == old(byProvider)
      ensures if Unknown(req.model) then attempts.Err? else attempts.Ok? && Routes(req.model, attempts.value)
      ensures errors == old(errors) + (if attempts.Err? then 1 else 0)
      ensures streaming == old(streaming) + (if attempts.Err? then 0 else 1)
      ensures direct == old(direct) && denied == old(denied)
      ensures tokensSaved == old(tokensSaved) + Report(old(req.messages)).tokensSaved
    {
      hide ResponseCache.View, ResponseCache.Valid, Mcp.Manager.Valid, Routing.Router.Valid, Ordered, Prompt, Report;
      Apart(req);
      requests := requests + 1;
      var cres := Shrink(req);
      RoutesFollow(req.model);
      attempts := router.Resolve(req.model);
      if attempts.Err? {
        errors := errors + 1;
      } else {
        streaming := streaming + 1;
      }
    }

    /** The server's end of a stream: the provider that won, or an error. */
    method FinishStream(won: Option<Attempt>)
      requires Valid() && streaming > 0
      modifies this
      ensures Valid() && cache.View() == old(cache.View()) && requests == old(requests) && cacheHits == old(cacheHits)
      ensures errors == old(errors) + (if won.None? then 1 else 0) && streaming == old(streaming) - 1
      ensures byProvider == if won.Some? then Observed(old(byProvider), won.value.provider) else old(byProvider)
      ensures direct == old(direct) && denied == old(denied) && tokensSaved == old(tokensSaved)
    {
      hide ResponseCache.View, ResponseCache.Valid, Mcp.Manager.Valid, Routing.Router.Valid, Ordered, Observed;
      Apart(null);
      streaming := streaming - 1;
      if won.None? {
        errors := errors + 1;
      } else {
        Observe(won.value.provider);
      }
    }

    /** The server's refusal of a request the governor denied. */
    method Deny()
      requires Valid()
      modifies this
      ensures Valid() && cache.View() == old(cache.View()) && requests == old(requests) && cacheHits == old(cacheHits)
      ensures errors == old(errors) + 1 && byProvider == old(byProvider)
      ensures direct == old(direct) && denied == old(denied) + 1 && streaming == old(streaming)
    {
      hide ResponseCache.View, ResponseCache.Valid, Mcp.Manager.Valid, Routing.Router.Valid, Ordered;
      Apart(null);
      errors := errors + 1;
      denied := denied + 1;
    }

    /** ToolChat: one model turn for the agent, past compression, cache and the request counter. */
    method ToolChat(req: ChatRequest, start: nat) returns (r: ChatResponse?, ghost attempts: seq<Attempt>)
      requires Valid()
      modifies this, router`rr
      ensures Valid() && cache.View() == old(cache.View())
      ensures requests == old(requests) && cacheHits == old(cacheHits) && errors == old(errors)
      ensures if Unknown(req.model) then attempts == [] else Routes(req.model, attempts)
      ensures direct == old(direct) + (if r == null then 0 else 1) && denied == old(denied)
      ensures streaming == old(streaming) && tokensSaved == old(tokensSaved)
      ensures r == null ==> byProvider == old(byProvider) && Fails(env, start, attempts, req.messages)
      ensures r != null ==> fresh(r) && fresh(r.Parts()) && exists answer, won ::
        && Answers(env, start, attempts, req.messages, answer, won)
        && byProvider == Observed(old(byProvider), won.provider)
        && r.View() == ResponseValue(answer.body, Some(Credited(answer.meta, won)))
    {
      hide Fails, Total, Credited, Routes, Unknown;
      hide ResponseCache.View, ResponseCache.Valid, Mcp.Manager.Valid, Routing.Router.Valid, Ordered, Observed, Answers;
      attempts := [];
      Apart(req);
      RoutesFollow(req.model);
      var routed := router.Resolve(req.model);
      if routed.Err? {
        NobodyAnswers(env, start, req.messages);
        return null, [];
      }
      attempts := routed.value;
      var s := Ask(start, routed.value, req.messages);
      if s.resp.None? {
        r := null;
        return;
      }
      Observe(s.won.provider);
      direct := direct + 1;
      r := Credit(s.resp.value, s.won);
    }

    method Credit(answer: ResponseValue, won: Attempt) returns (r: ChatResponse)
      ensures fresh(r) && fresh(r.Parts())
      ensures r.View() == ResponseValue(answer.body, Some(Credited(answer.meta, won)))
    {
      r := new ChatResponse(answer.body, answer.meta);
      r.Stamp(Credited(answer.meta, won));
    }
  }

  /** ToolChat's stamps: what an upstream gateway attached stays, but for the provider and the model. */
  function Credited(meta: Option<GatewayMeta>, won: Attempt): GatewayMeta {
    (if meta.Some? then meta.value else NO_META).(provider := won.provider, resolvedModel := won.model)
  }

  /** Every round of a conversation was asked for by a reply with calls, and brought one result for each
      call, in order: its owner's answer, or the error as text. */
  lemma RoundsHaveCalls(env: Env, start: nat, attempts: seq<Attempt>, home: map<string, string>, ms: seq<Message>,
                        rounds: seq<Round>, k: nat, j: nat)
    requires k < |rounds| && Conversed(env, start, attempts, home, ms, rounds)
    ensures var reply := rounds[k].answer.body;
      && reply.choices != [] && rounds[k].call == reply.choices[0].message
      && rounds[k].call.toolCalls.bytes > 0 && rounds[k].call.toolCalls.calls != []
      && |rounds[k].results| == |rounds[k].call.toolCalls.calls|
    ensures j < |rounds[k].results| ==>
      var c := rounds[k].call.toolCalls.calls[j];
      var text := if c.name !in home then "tool error: " + env.unknownTool(c.name)
                  else
                    var answer := env.call(start + k, j, home[c.name], c);
                    if answer.Ok? then answer.value else "tool error: " + answer.error;
      rounds[k].results[j] == Message(Role.Tool, Plain(text), NO_CALLS, c.id)
  {
    hide Answers, Flatten;
    assert Answered(env, attempts, home, rounds[k]);
  }

  /** What the gateway's view of a lookup means, told from the entries. */
  lemma LookupMeans(t: Table, key: string, model: string, ms: seq<Message>, now: real, threshold: real,
                    stored: ResponseValue)
    requires Normed(t)
    ensures Has(t, key, model, ms, now, threshold) <==>
      (key in t.items && now < t.items[key].expires)
      || exists k :: k in t.items && Alike(t.items[k], model, TermsOf(ms), now, threshold)
    ensures Has(t, key, model, ms, now, threshold) && Serves(t, key, model, ms, now, threshold, stored) ==>
      if key in t.items && now < t.items[key].expires then stored == t.items[key].resp
      else exists k :: k in t.items && Alike(t.items[k], model, TermsOf(ms), now, threshold)
                       && stored == t.items[k].resp
  {
    hide Alike, Close, Eligible, TermsOf;
    ScanFindsAlike(t, model, TermsOf(ms), now, threshold);
    if Has(t, key, model, ms, now, threshold) && Serves(t, key, model, ms, now, threshold, stored)
       && !(key in t.items && now < t.items[key].expires) {
      var k :| Best(t, k, model, TermsOf(ms), now, threshold) && stored == t.items[k].resp;
      BestIsAlike(t, k, model, TermsOf(ms), now, threshold);
    }
  }

  /** What an answered request says and leaves in the cache: the winner's name and model, how much
      compression saved and how many tools were called; a new entry only if none was, the cache is on and
      the request is no stream. */
  lemma AnswerMeans(g: Gateway, req: ChatRequest, start: nat, ms: seq<Message>, cres: Outcome, store: real,
                    before: Table, path: Path, r: ResponseValue, after: Table)
    requires path.Sent? && g.Answering(req, start, ms, cres, store, before, path, r, after)
    ensures r.body == path.answer.body && r.meta.Some? && !r.meta.value.cacheHit
    ensures r.meta.value.provider == path.won.provider && r.meta.value.resolvedModel == path.won.model
    ensures r.meta.value.tokensSaved == cres.tokensSaved && r.meta.value.node == g.node
    ensures r.meta.value.toolCalls == ResultCount(path.rounds) && r.meta.value.attempts == path.tries
    ensures !g.cache.enabled || req.stream || path.rounds != [] ==> after == before
    ensures g.cache.enabled && !req.stream && path.rounds == [] ==>
      req.messages == ms &&
      after == Insert(g.cache.maxItems, before, g.cache.keyFor(req.model, ms, req.temperature),
                      Stored(r, store + g.cache.ttl, req.model, TermsOf(ms), Vectors.NormSq(TermsOf(ms))))
  {
    hide Conversed, Gateway.Concludes, Insert;
    if path.rounds == [] {
      NoRounds(g.env, start, [], map[], ms);
    }
  }

  /** What concludes a conversation has no calls, unless the rounds are used up; without tools it is the
      one answer, whatever it asks for. */
  lemma ConclusionHasNoCalls(g: Gateway, start: nat, attempts: seq<Attempt>, ms: seq<Message>, rounds: seq<Round>,
                             answer: ResponseValue, won: Attempt)
    requires g.Concludes(start, attempts, ms, rounds, answer, won)
    requires g.mcpEnabled && |g.mcp.catalog| > 0
    requires |rounds| != (if g.maxToolIterations <= 0 then 4 else g.maxToolIterations)
    ensures answer.body.choices == [] || answer.body.choices[0].message.toolCalls.bytes == 0
         || answer.body.choices[0].message.toolCalls.calls == []
  {
    hide Answers, Flatten;
  }

  /** What the stamps say; the tool counters and anything else stay as they were. */
  lemma StampSays(meta: Option<GatewayMeta>, provider: string, model: string, hit: bool, attempts: int, c: Outcome,
                  node: string)
    ensures var m := Stamped(meta, provider, model, hit, attempts, c, node);
      && m.provider == provider && m.resolvedModel == model && m.cacheHit == hit && m.attempts == attempts
      && m.tokensSaved == c.tokensSaved && m.node == node
      && m.toolCalls == (if meta.Some? then meta.value.toolCalls else 0)
      && m.toolIterations == (if meta.Some? then meta.value.toolIterations else 0)
      && (c.applied.None? ==> m.compression == "")
  {
  }

  /** Observing a provider counts for that provider and no other. */
  lemma ObservedOne(m: map<string, nat>, k: string, l: string)
    ensures k in Observed(m, k) && Observed(m, k)[k] == (if k in m then m[k] else 0) + 1
    ensures l != k ==> (l in Observed(m, k) <==> l in m) && (l in m ==> Observed(m, k)[l] == m[l])
  {
  }

  lemma NobodyAnswers(env: Env, tick: nat, ms: seq<Message>)
    ensures Fails(env, tick, [], ms)
  {
  }

  /** The same request twice: when the first answer came from upstream without tools, the second request
      is served the same body from the cache, without asking any provider, until the entry expires. */
  method AskTwice(g: Gateway, a: ChatRequest, b: ChatRequest, start: nat, lookup: real, store: real, again: real)
    returns (first: ChatResponse?, second: ChatResponse?, ghost path: Path, ghost path2: Path)
    requires g.Valid() && g.cache.enabled && g.cache.maxItems >= 1
    requires a != b && a.model == b.model && a.messages == b.messages && a.temperature == b.temperature
    requires !a.stream && !b.stream && again < store + g.cache.ttl
    modifies g, g.router`rr, g.cache, a, b
    ensures g.Valid()
    ensures path.Sent? && path.rounds == [] ==>
      && path2.Hit? && second != null && second.View().body == path.answer.body && second.View().meta.Some?
      && second.View().meta.value.cacheHit && second.View().meta.value.provider == "cache"
      && g.byProvider == Observed(old(g.byProvider), path.won.provider) && g.errors == old(g.errors)
      && g.requests == old(g.requests) + 2 && g.cacheHits == old(g.cacheHits) + 1
  {
    hide ResponseCache.View, ResponseCache.Valid, Mcp.Manager.Valid, Routing.Router.Valid, Conversed, Gateway.Concludes;
    hide Ordered, Serves, Has, Stamped, Flatten;
    ghost var t := g.cache.View();
    NoRounds(g.env, start, [], map[], g.Prompt(a.messages));
    first, path := g.Complete(a, start, lookup, store);
    if path.Sent? && path.rounds == [] {
      AnswerIsServed(g, t, a, b, a.messages, first.View(), store, again);
    }
    StampShows(g, b, again);
    second, path2 := g.Complete(b, start, again, again);
  }

  lemma StampShows(g: Gateway, req: ChatRequest, now: real)
    ensures forall meta, c :: Stamped(meta, "cache", req.model, true, 0, c, g.node).cacheHit
                            && Stamped(meta, "cache", req.model, true, 0, c, g.node).provider == "cache"
  {
  }

  /** What was stored for one request is what the same request is served. */
  lemma AnswerIsServed(g: Gateway, t: Table, a: ChatRequest, b: ChatRequest, ms: seq<Message>, r: ResponseValue,
                       store: real, again: real)
    requires g.cache.enabled && g.cache.maxItems >= 1 && Ordered(g.cache.maxItems, t) && !b.stream
    requires a.model == b.model && a.temperature == b.temperature && again < store + g.cache.ttl
    ensures var after := g.cache.Stores(t, a.model, ms, a.temperature, r, store);
      && g.Cached(after, b, ms, again)
      && forall stored :: Serves(after, g.KeyOf(b, ms), b.model, ms, again, g.cache.threshold, stored) ==> stored == r
  {
    var vec := TermsOf(ms);
    StoredIsFound(g.cache.maxItems, t, g.KeyOf(b, ms),
                  Stored(r, store + g.cache.ttl, a.model, vec, Vectors.NormSq(vec)), again);
  }

  /** A request for a model without a route, whose name is no provider/model either, and which the cache
      does not hold: it gets no answer, and counts as one request and one error. */
  method AskUnknown(g: Gateway, req: ChatRequest, start: nat, lookup: real, store: real)
    returns (r: ChatResponse?)
    requires g.Valid() && (!g.cache.enabled || req.stream)
    requires req.model !in g.router.models && '/' !in req.model
    modifies g, g.router`rr, g.cache, req
    ensures g.Valid() && r == null
    ensures g.requests == old(g.requests) + 1 && g.errors == old(g.errors) + 1
    ensures g.cacheHits == old(g.cacheHits) && g.byProvider == old(g.byProvider)
  {
    hide ResponseCache.View, ResponseCache.Valid, Mcp.Manager.Valid, Routing.Router.Valid, Ordered;
    hide Gateway.Prompt, Gateway.Report, Gateway.Answering, Stamped;
    NoSlashNoSplit(req.model);
    ghost var path;
    r, path := g.Complete(req, start, lookup, store);
  }

  lemma {:induction false} NoSlashNoSplit(s: string)
    requires '/' !in s
    ensures SplitProviderModel(s).None?
  {
    assert forall i :: 0 <= i < |s| ==> s[i] in s;
  }
}
