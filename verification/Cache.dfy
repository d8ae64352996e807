/** The response cache (internal/cache/cache.go): exact match by key, then a similarity scan over
    live entries of the same model, with first-in first-out eviction. */
module Cache {
  import opened Common
  import opened Schema
  import opened Vectors

  /** keyFor, left abstract: the code reads model, messages and temperature, and nothing else. */
  type KeyFor = (string, seq<Message>, Option<real>) -> string

  /** finalUserText: the text of the last user message, "" when there is none. */
  function FinalUserText(ms: seq<Message>): string {
    if ms == [] then ""
    else if ms[|ms| - 1].role.User? then
      match ms[|ms| - 1].TextContent() case Some(t) => t case None => ""
    else FinalUserText(ms[..|ms| - 1])
  }

  function TermsOf(ms: seq<Message>): Vector { Counts(Terms(FinalUserText(ms))) }

  /** One cached entry, as a value. */
  datatype Stored = Stored(resp: ResponseValue, expires: real, model: string, vec: Vector, normSq: nat)

  /** The cache's content: the entries and the order in which their keys were inserted. */
  datatype Table = Table(items: map<string, Stored>, order: seq<string>)

  const EMPTY := Table(map[], [])

  /** Dropping oldest keys until at most `max` entries are left. */
  function Evict(max: int, t: Table): Table
    decreases |t.order|
  {
    if |t.items| > max && |t.order| > 0 then Evict(max, Table(t.items - {t.order[0]}, t.order[1..])) else t
  }

  lemma EvictUnfolds(max: int, t: Table)
    ensures Evict(max, t)
         == if |t.items| > max && |t.order| > 0 then Evict(max, Table(t.items - {t.order[0]}, t.order[1..])) else t
  {
  }

  function Insert(max: int, t: Table, key: string, e: Stored): Table {
    Evict(max, Table(t.items[key := e], if key in t.items then t.order else t.order + [key]))
  }

  /** What a hit returns: the stored response, marked as a cache hit. */
  function Served(r: ResponseValue): ResponseValue {
    var meta := if r.meta.Some? then r.meta.value else NO_META;
    r.(meta := Some(meta.(cacheHit := true)))
  }

  ghost predicate Eligible(e: Stored, model: string, now: real) {
    e.model == model && now <= e.expires && e.normSq != 0
  }

  /** An entry the scan may return: live, of the model, and similar enough. */
  ghost predicate Close(e: Stored, model: string, query: Vector, now: real, threshold: real) {
    Eligible(e, model, now) && CosineSq(query, e.vec) >= threshold * threshold
  }

  ghost predicate ExactHit(t: Table, key: string, now: real) {
    key in t.items && now < t.items[key].expires
  }

  ghost predicate ScanHit(t: Table, model: string, query: Vector, now: real, threshold: real) {
    threshold > 0.0 && NormSq(query) != 0 &&
    exists k :: k in t.items && Close(t.items[k], model, query, now, threshold)
  }

  /** The entry at `k` is close, and no eligible entry is more similar. */
  ghost predicate Best(t: Table, k: string, model: string, query: Vector, now: real, threshold: real) {
    && k in t.items && Close(t.items[k], model, query, now, threshold)
    && forall l :: l in t.items && Eligible(t.items[l], model, now)
                   ==> CosineSq(query, t.items[l].vec) <= CosineSq(query, t.items[k].vec)
  }

  /** The lookup: the exact entry if it is live, else a best one if there is a close one. */
  ghost predicate Finds(t: Table, key: string, model: string, query: Vector, now: real, threshold: real,
                        r: Option<ResponseValue>)
  {
    if ExactHit(t, key, now) then r == Some(Served(t.items[key].resp))
    else
      && (r.Some? <==> ScanHit(t, model, query, now, threshold))
      && (r.Some? ==> exists k :: Best(t, k, model, query, now, threshold) && r == Some(Served(t.items[k].resp)))
  }

  // ---- what a lookup means ----

  /** An entry of this very model that has not expired and has a term. */
  ghost predicate Candidate(e: Stored, model: string, now: real) {
    e.model == model && now <= e.expires && NormSq(e.vec) > 0
  }

  /** The cosine of two vectors reaches a positive threshold, both sides squared and multiplied out. */
  ghost predicate Reaches(a: Vector, b: Vector, threshold: real) {
    && NormSq(a) > 0 && NormSq(b) > 0 && threshold > 0.0
    && (Inner(a, b) * Inner(a, b)) as real >= threshold * threshold * (NormSq(a) * NormSq(b)) as real
  }

  /** A candidate that is similar enough. */
  ghost predicate Alike(e: Stored, model: string, query: Vector, now: real, threshold: real) {
    Candidate(e, model, now) && Reaches(query, e.vec, threshold)
  }

  /** e is at least as similar to the query as f. */
  ghost predicate AtLeastAsSimilar(query: Vector, e: Stored, f: Stored) {
    (Inner(query, f.vec) * Inner(query, f.vec)) * NormSq(e.vec)
    <= (Inner(query, e.vec) * Inner(query, e.vec)) * NormSq(f.vec)
  }

  /** The stored response, with the hit recorded and all other metadata as it was. */
  ghost predicate ServedFrom(r: ResponseValue, stored: ResponseValue) {
    && r.body == stored.body && r.meta.Some? && r.meta.value.cacheHit
    && r.meta.value.(cacheHit := false)
       == (if stored.meta.Some? then stored.meta.value else NO_META).(cacheHit := false)
  }

  /** What a lookup answers: the entry of the very key if it has not expired yet; else nothing exactly if
      no entry is alike, and otherwise an alike entry that no candidate surpasses. */
  ghost predicate LookedUp(t: Table, key: string, model: string, query: Vector, now: real, threshold: real,
                          r: Option<ResponseValue>)
  {
    if key in t.items && now < t.items[key].expires then
      r.Some? && ServedFrom(r.value, t.items[key].resp)
    else
      && (r.Some? <==> exists k :: k in t.items && Alike(t.items[k], model, query, now, threshold))
      && (r.Some? ==> exists k :: k in t.items && Alike(t.items[k], model, query, now, threshold)
                        && ServedFrom(r.value, t.items[k].resp)
                        && forall l :: l in t.items && Candidate(t.items[l], model, now) ==>
                             AtLeastAsSimilar(query, t.items[k], t.items[l]))
  }

  ghost predicate Normed(t: Table) {
    forall k :: k in t.items ==> t.items[k].normSq == NormSq(t.items[k].vec)
  }

  lemma Divide(a: nat, b: nat, c: real)
    requires b > 0
    ensures a as real / b as real >= c <==> a as real >= c * b as real
  {
    var q := a as real / b as real;
    assert a as real == q * b as real;
    if q >= c {
      assert (q - c) * b as real >= 0.0;
    } else {
      assert (c - q) * b as real > 0.0;
    }
  }

  lemma Swap(q: nat, m: nat, n: nat)
    ensures (q * m) as real * n as real == (q * n) as real * m as real
  {
    assert (q * m) * n == (q * n) * m;
    assert ((q * m) * n) as real == (q * m) as real * n as real;
    assert ((q * n) * m) as real == (q * n) as real * m as real;
  }

  lemma Scale(x: real, y: real, p: real)
    requires x <= y && p >= 0.0
    ensures x * p <= y * p
  {
    assert (y - x) * p >= 0.0;
  }

  lemma Regroup(x: real, y: real, z: real)
    ensures (x * y) * z == x * (y * z)
  {
  }

  lemma Compare(a: nat, m: nat, c: nat, n: nat, q: nat)
    requires m > 0 && n > 0 && q > 0 && q * m > 0 && q * n > 0
    requires a as real / (q * m) as real <= c as real / (q * n) as real
    ensures a * n <= c * m
  {
    var x, y := a as real / (q * m) as real, c as real / (q * n) as real;
    assert a as real == x * (q * m) as real && c as real == y * (q * n) as real;
    var p := (q * m) as real * n as real;
    assert p == (q * n) as real * m as real by { Swap(q, m, n); }
    Scale(x, y, p);
    assert (c * m) as real == c as real * m as real == y * p by { Regroup(y, (q * n) as real, m as real); }
    assert (a * n) as real == a as real * n as real == x * p by { Regroup(x, (q * m) as real, n as real); }
  }

  lemma CloseIsAlike(e: Stored, model: string, query: Vector, now: real, threshold: real)
    requires e.normSq == NormSq(e.vec) && NormSq(query) > 0 && threshold > 0.0
    ensures Close(e, model, query, now, threshold) <==> Alike(e, model, query, now, threshold)
  {
    if NormSq(e.vec) > 0 {
      assert NormSq(query) * NormSq(e.vec) > 0;
      Divide(Inner(query, e.vec) * Inner(query, e.vec), NormSq(query) * NormSq(e.vec), threshold * threshold);
    }
  }

  lemma CosineCompares(query: Vector, e: Stored, f: Stored)
    requires NormSq(query) > 0 && NormSq(e.vec) > 0 && NormSq(f.vec) > 0
    requires CosineSq(query, f.vec) <= CosineSq(query, e.vec)
    ensures AtLeastAsSimilar(query, e, f)
  {
    var q, m, n := NormSq(query), NormSq(f.vec), NormSq(e.vec);
    assert q * m > 0 && q * n > 0;
    Compare(Inner(query, f.vec) * Inner(query, f.vec), m, Inner(query, e.vec) * Inner(query, e.vec), n, q);
  }

  lemma BestIsAlike(t: Table, k: string, model: string, query: Vector, now: real, threshold: real)
    requires Normed(t) && NormSq(query) > 0 && threshold > 0.0 && Best(t, k, model, query, now, threshold)
    ensures Alike(t.items[k], model, query, now, threshold)
    ensures forall l :: l in t.items && Candidate(t.items[l], model, now) ==>
      AtLeastAsSimilar(query, t.items[k], t.items[l])
  {
    hide CosineSq, Inner, NormSq, AtLeastAsSimilar;
    CloseIsAlike(t.items[k], model, query, now, threshold);
    forall l | l in t.items && Candidate(t.items[l], model, now)
      ensures AtLeastAsSimilar(query, t.items[k], t.items[l])
    {
      CosineCompares(query, t.items[k], t.items[l]);
    }
  }

  lemma ScanFindsAlike(t: Table, model: string, query: Vector, now: real, threshold: real)
    requires Normed(t)
    ensures ScanHit(t, model, query, now, threshold) <==>
            exists k :: k in t.items && Alike(t.items[k], model, query, now, threshold)
  {
    hide CosineSq, Inner, NormSq, Close;
    if NormSq(query) > 0 && threshold > 0.0 {
      forall k | k in t.items
        ensures Close(t.items[k], model, query, now, threshold) <==> Alike(t.items[k], model, query, now, threshold)
      {
        CloseIsAlike(t.items[k], model, query, now, threshold);
      }
    }
  }

  lemma LookupIsMeant(t: Table, key: string, model: string, query: Vector, now: real, threshold: real,
                      r: Option<ResponseValue>)
    requires Normed(t)
    requires Finds(t, key, model, query, now, threshold, r)
    ensures LookedUp(t, key, model, query, now, threshold, r)
  {
    hide Alike, AtLeastAsSimilar, Candidate, Close, Eligible;
    ScanFindsAlike(t, model, query, now, threshold);
    if !ExactHit(t, key, now) && r.Some? {
      var k :| Best(t, k, model, query, now, threshold) && r == Some(Served(t.items[k].resp));
      BestIsAlike(t, k, model, query, now, threshold);
      assert ServedFrom(r.value, t.items[k].resp);
    }
  }

  /** An entry as held: the response is an object. */
  datatype Entry = Entry(resp: ChatResponse, expires: real, model: string, vec: Vector, normSq: nat)

  /** An entry as a value. */
  ghost function ValueOf(e: Entry): Stored
    reads e.resp, e.resp.choices, e.resp.meta
  {
    Stored(e.resp.View(), e.expires, e.model, e.vec, e.normSq)
  }

  /** clone: a fresh copy in all its parts, marked when it is served. */
  method Clone(r: ChatResponse, hit: bool) returns (out: ChatResponse)
    ensures fresh(out) && fresh(out.Parts())
    ensures out.View() == if hit then Served(r.View()) else r.View()
  {
    out := new ChatResponse(r.Body(), r.MetaValue());
    if hit {
      var meta := if out.meta == null then NO_META else out.meta.v;
      out.Stamp(meta.(cacheHit := true));
    }
  }

  /** Responses and parts of responses. */
  ghost predicate OnlyParts(owned: set<object>) {
    forall o :: o in owned ==> o is ChatResponse || o is array<Choice> || o is Meta
  }

  /** The parts of all entries are owned. */
  ghost predicate Owns(items: map<string, Entry>, owned: set<object>)
    reads owned
  {
    forall k :: k in items ==> items[k].resp in owned && items[k].resp.Parts() <= owned
  }

  /** Entries as values. */
  ghost function Values(items: map<string, Entry>, owned: set<object>): map<string, Stored>
    requires Owns(items, owned)
    reads owned
  {
    map k | k in items :: ValueOf(items[k])
  }

  lemma ValuesAdd(items: map<string, Entry>, owned: set<object>, key: string, e: Entry)
    requires Owns(items, owned)
    ensures Owns(items[key := e], owned + e.resp.Parts())
    ensures Values(items[key := e], owned + e.resp.Parts()) == Values(items, owned)[key := ValueOf(e)]
  {
  }

  lemma ValuesDrop(items: map<string, Entry>, owned: set<object>, key: string)
    requires Owns(items, owned)
    ensures Owns(items - {key}, owned) && Values(items - {key}, owned) == Values(items, owned) - {key}
  {
  }

  lemma ValuesKeys(items: map<string, Entry>, owned: set<object>)
    requires Owns(items, owned)
    ensures Values(items, owned).Keys == items.Keys
    ensures forall k :: k in items ==> Values(items, owned)[k].expires == items[k].expires
  {
  }

  class ResponseCache {
    const enabled: bool
    const ttl: real
    const maxItems: int
    const threshold: real
    const keyFor: KeyFor
    var items: map<string, Entry>
    var order: seq<string>
    /** The objects the cache owns: its responses with their parts. */
    ghost var owned: set<object>

    ghost predicate Valid()
      reads this, owned
    {
      OnlyParts(owned) && Owns(items, owned) && forall k :: k in items ==> items[k].normSq == NormSq(items[k].vec)
    }

    ghost function View(): Table
      requires Valid()
      reads this, owned
    {
      Table(Values(items, owned), order)
    }

    constructor (enabled: bool, ttl: real, maxItems: int, threshold: real, keyFor: KeyFor)
      ensures Valid() && View() == EMPTY && owned == {}
      ensures this.enabled == enabled && this.ttl == ttl && this.maxItems == maxItems
      ensures this.threshold == threshold && this.keyFor == keyFor
    {
      this.enabled, this.ttl, this.maxItems, this.threshold, this.keyFor := enabled, ttl, maxItems, threshold, keyFor;
      items, order, owned := map[], [], {};
    }

    /** A hit is a fresh copy of the exact entry if it has not expired, otherwise of a most similar
        eligible entry, whatever order the map is ranged over in; and there is a hit exactly when
        one of the two exists. */
    method Get(model: string, messages: seq<Message>, stream: bool, temperature: Option<real>, now: real)
      returns (r: ChatResponse?)
      requires Valid()
      ensures r != null ==> fresh(r) && fresh(r.Parts())
      ensures !enabled || stream ==> r == null
      ensures enabled && !stream ==>
        Finds(View(), keyFor(model, messages, temperature), model, TermsOf(messages), now, threshold,
              if r == null then None else Some(r.View()))
      ensures enabled && !stream ==>
        LookedUp(View(), keyFor(model, messages, temperature), model, TermsOf(messages), now, threshold,
                if r == null then None else Some(r.View()))
    {
      r := Find(model, messages, stream, temperature, now);
      if enabled && !stream {
        NormedView();
        LookupIsMeant(View(), keyFor(model, messages, temperature), model, TermsOf(messages), now, threshold,
                      if r == null then None else Some(r.View()));
      }
    }

    lemma NormedView()
      requires Valid()
      ensures Normed(View())
    {
    }

    method Find(model: string, messages: seq<Message>, stream: bool, temperature: Option<real>, now: real)
      returns (r: ChatResponse?)
      requires Valid()
      ensures r != null ==> fresh(r) && fresh(r.Parts())
      ensures !enabled || stream ==> r == null
      ensures enabled && !stream ==>
        Finds(View(), keyFor(model, messages, temperature), model, TermsOf(messages), now, threshold,
              if r == null then None else Some(r.View()))
    {
      hide Served, CosineSq, NormSq, Counts, Best, Close, Values, ValueOf, Owns;
      ValuesKeys(items, owned);
      if !enabled || stream {
        return null;
      }
      var key := keyFor(model, messages, temperature);
      ghost var t := View();
      if key in items && now < items[key].expires {
        r := Copy(key);
        return;
      }
      if threshold <= 0.0 {
        return null;
      }
      var qVec, qNorm := Vectorize(FinalUserText(messages));
      if qNorm == 0 {
        return null;
      }
      var best := Scan(model, qVec, qNorm, now);
      if best.None? {
        return null;
      }
      r := Copy(best.value);
      assert Best(t, best.value, model, qVec, now, threshold) && r.View() == Served(t.items[best.value].resp);
    }

    /** A copy of an entry's response, as it is served. */
    method Copy(key: string) returns (r: ChatResponse)
      requires Valid() && key in items
      ensures fresh(r) && fresh(r.Parts())
      ensures key in View().items && r.View() == Served(View().items[key].resp)
    {
      r := Clone(items[key].resp, true);
    }

    /** The scan over all entries, in any order. */
    method Scan(model: string, qVec: Vector, qNorm: nat, now: real) returns (best: Option<string>)
      requires Valid() && threshold > 0.0 && qNorm == NormSq(qVec) != 0
      ensures best.Some? <==> ScanHit(View(), model, qVec, now, threshold)
      ensures best.Some? ==> best.value in items && Best(View(), best.value, model, qVec, now, threshold)
    {
      hide CosineSq, NormSq;
      best := None;
      var bestSim := threshold * threshold;
      var todo := items.Keys;
      ghost var t := View();
      while todo != {}
        invariant todo <= items.Keys
        invariant forall k :: k in items.Keys - todo && Eligible(t.items[k], model, now) ==>
          if best.None? then CosineSq(qVec, t.items[k].vec) < bestSim else CosineSq(qVec, t.items[k].vec) <= bestSim
        invariant best.None? ==> bestSim == threshold * threshold
        invariant best.Some? ==> best.value in items && Close(t.items[best.value], model, qVec, now, threshold)
                                 && CosineSq(qVec, t.items[best.value].vec) == bestSim
      {
        var k :| k in todo;
        todo := todo - {k};
        var e := items[k];
        if e.model != model || now > e.expires || e.normSq == 0 {
          continue;
        }
        var sim := Cosine(qVec, qNorm, e.vec, e.normSq);
        if sim >= bestSim {
          bestSim := sim;
          best := Some(k);
        }
      }
    }

    /** The table after storing a response. */
    ghost function Stores(t: Table, model: string, messages: seq<Message>, temperature: Option<real>,
                          resp: ResponseValue, now: real): Table
    {
      var vec := TermsOf(messages);
      Insert(maxItems, t, keyFor(model, messages, temperature), Stored(resp, now + ttl, model, vec, NormSq(vec)))
    }

    /** Stores a copy of the response and evicts in insertion order past the cap. */
    method Put(model: string, messages: seq<Message>, stream: bool, temperature: Option<real>,
               resp: ChatResponse?, now: real)
      requires Valid()
      modifies this
      ensures Valid() && fresh(owned - old(owned))
      ensures !enabled || stream || resp == null ==> View() == old(View())
      ensures enabled && !stream && resp != null ==>
        View() == Stores(old(View()), model, messages, temperature, old(resp.View()), now)
    {
      hide Evict, NormSq, Counts;
      if !enabled || stream || resp == null {
        return;
      }
      var key := keyFor(model, messages, temperature);
      var vec, norm := Vectorize(FinalUserText(messages));
      var copy := Clone(resp, false);
      ghost var t := View();
      ghost var v := Stored(resp.View(), now + ttl, model, vec, norm);
      Add(key, Entry(copy, now + ttl, model, vec, norm), v);
      ghost var full := View();
      EvictOldest();
      assert View() == Evict(maxItems, full) == Insert(maxItems, t, key, v);
    }

    method Add(key: string, e: Entry, ghost v: Stored)
      requires Valid() && e.normSq == NormSq(e.vec) && v == ValueOf(e)
      modifies this
      ensures Valid() && owned == old(owned) + e.resp.Parts()
      ensures View() == Table(old(View()).items[key := v],
                              if key in old(View()).items then old(View()).order else old(View()).order + [key])
    {
      hide NormSq, Owns, Values, ValueOf;
      ValuesKeys(items, owned);
      ValuesAdd(items, owned, key, e);
      if key !in items {
        order := order + [key];
      }
      items := items[key := e];
      owned := owned + e.resp.Parts();
    }

    method EvictOldest()
      requires Valid()
      modifies this
      ensures Valid() && owned == old(owned)
      ensures View() == Evict(maxItems, old(View()))
    {
      ghost var t := View();
      while |items| > maxItems && |order| > 0
        invariant Valid() && owned == old(owned)
        invariant Evict(maxItems, View()) == Evict(maxItems, t)
        decreases |order|
      {
        ghost var before := View();
        SameSize();
        EvictUnfolds(maxItems, before);
        DropOldest();
      }
      SameSize();
      EvictUnfolds(maxItems, View());
    }

    method DropOldest()
      requires Valid() && |order| > 0
      modifies this
      ensures Valid() && owned == old(owned)
      ensures View() == Table(old(View()).items - {old(order)[0]}, old(order)[1..])
    {
      hide NormSq, Owns, Values, ValueOf;
      ValuesDrop(items, owned, order[0]);
      var oldest := order[0];
      order := order[1..];
      items := items - {oldest};
    }

    lemma SameSize()
      requires Valid()
      ensures |items| == |View().items|
    {
      assert items.Keys == View().items.Keys;
      assert |items| == |items.Keys| && |View().items| == |View().items.Keys|;
    }
  }

  /** Mutating a response after it was put, in any of its parts, never changes what the cache holds. */
  method MutateAfterPut(c: ResponseCache, model: string, messages: seq<Message>, temperature: Option<real>,
                        resp: ChatResponse, scribble: ResponseValue, now: real)
    requires c.Valid() && c.enabled && resp.Parts() !! c.owned
    modifies c, resp.Parts()
    ensures c.Valid()
    ensures c.View() == c.Stores(old(c.View()), model, messages, temperature, old(resp.View()), now)
  {
    c.Put(model, messages, false, temperature, resp, now);
    Scribble(c, resp, scribble);
  }

  /** Mutating a response that a hit returned, in any of its parts, never changes what the cache holds. */
  method MutateAfterGet(c: ResponseCache, model: string, messages: seq<Message>, temperature: Option<real>,
                        scribble: ResponseValue, now: real)
    requires c.Valid()
    ensures c.Valid() && c.View() == old(c.View())
  {
    var got := c.Get(model, messages, false, temperature, now);
    if got != null {
      assert got.Parts() !! c.owned;
      Scribble(c, got, scribble);
    }
  }

  /** Writes to every part of a response: its fields, its choices in place, its metadata in place. */
  method Scribble(ghost c: ResponseCache, r: ChatResponse, v: ResponseValue)
    requires c.Valid() && r.Parts() !! c.owned
    modifies r.Parts()
    ensures c.Valid() && c.View() == old(c.View())
  {
    hide ResponseCache.View, ResponseCache.Valid;
    if r.meta != null {
      r.meta.v := if v.meta.Some? then v.meta.value else NO_META;
    }
    var choices := v.body.choices;
    for i := 0 to if |choices| < r.choices.Length then |choices| else r.choices.Length
      invariant r.choices == old(r.choices)
      modifies r.choices
    {
      r.choices[i] := choices[i];
    }
    r.id, r.model, r.usage, r.meta := v.body.id, v.body.model, v.body.usage, null;
  }
}
