/** Runs of the cache: it agrees with a simple log of Puts. */
module CacheRuns {
  import opened Common
  import opened Schema
  import opened Vectors
  import opened Cache
  import Text

  /** One Put, by key. */
  datatype Record = Record(key: string, entry: Stored)

  /** The cache after a log of Puts (Gets change nothing). */
  function Replay(max: int, log: seq<Record>): Table {
    if log == [] then EMPTY
    else
      var last := log[|log| - 1];
      Insert(max, Replay(max, log[..|log| - 1]), last.key, last.entry)
  }

  /** Every key insertion of a log, oldest first: the Puts whose key was not in the cache. */
  function Insertions(max: int, log: seq<Record>): seq<string> {
    if log == [] then []
    else
      var before, key := log[..|log| - 1], log[|log| - 1].key;
      if key in Replay(max, before).items then Insertions(max, before) else Insertions(max, before) + [key]
  }

  predicate Put?(log: seq<Record>, key: string) { exists i :: 0 <= i < |log| && log[i].key == key }

  /** The last entry put under a key. */
  function Latest(log: seq<Record>, key: string): Stored
    requires Put?(log, key)
  {
    var last := log[|log| - 1];
    if last.key == key then last.entry else Latest(log[..|log| - 1], key)
  }

  /** The last n elements, or all. */
  function LastN(s: seq<string>, n: nat): seq<string> {
    if |s| <= n then s else s[|s| - n..]
  }

  predicate Distinct(s: seq<string>) { forall i, j :: 0 <= i < j < |s| ==> s[i] != s[j] }

  lemma {:induction false} DistinctSize(s: seq<string>, keys: set<string>)
    requires Distinct(s) && (forall k :: k in keys <==> k in s)
    ensures |keys| == |s|
  {
    if s == [] {
      assert keys == {};
    } else {
      DistinctSize(s[1..], keys - {s[0]});
    }
  }

  /** The table's keys are exactly the last `max` insertions, oldest first and without repetition. */
  ghost predicate Tracks(max: int, t: Table, ins: seq<string>)
    requires max >= 1
  {
    && t.order == LastN(ins, max) && Distinct(t.order)
    && (forall k :: k in t.items <==> k in t.order)
    && |t.items| == |t.order| <= max
  }

  /** What one insertion does to a table: the order keeps or gains the key, the oldest key goes when there
      is no room, and every other entry stays. */
  ghost predicate AfterInsert(max: int, t: Table, key: string, e: Stored, after: Table)
    requires max >= 1
  {
    && after.order == (if key in t.items then t.order
                       else if |t.order| == max then t.order[1..] + [key] else t.order + [key])
    && Distinct(after.order)
    && (forall k :: k in after.items <==> k in after.order)
    && |after.items| == |after.order|
    && (forall k :: k in after.items ==> k == key || k in t.items)
    && (forall k :: k in after.items ==> after.items[k] == if k == key then e else t.items[k])
  }

  lemma InsertOrder(max: int, t: Table, key: string, e: Stored)
    requires max >= 1 && Distinct(t.order) && (forall k :: k in t.items <==> k in t.order) && |t.order| <= max
    ensures AfterInsert(max, t, key, e, Insert(max, t, key, e))
  {
    hide Evict, Distinct, AfterInsert;
    if key in t.items {
      InsertKnown(max, t, key, e);
    } else {
      InsertNew(max, t, key, e);
    }
  }

  lemma InsertKnown(max: int, t: Table, key: string, e: Stored)
    requires max >= 1 && Distinct(t.order) && (forall k :: k in t.items <==> k in t.order) && |t.order| <= max
    requires key in t.items
    ensures AfterInsert(max, t, key, e, Evict(max, Table(t.items[key := e], t.order)))
  {
    hide Evict, Distinct;
    EvictOne(max, Table(t.items[key := e], t.order));
  }

  lemma InsertNew(max: int, t: Table, key: string, e: Stored)
    requires max >= 1 && Distinct(t.order) && (forall k :: k in t.items <==> k in t.order) && |t.order| <= max
    requires key !in t.items
    ensures AfterInsert(max, t, key, e, Evict(max, Table(t.items[key := e], t.order + [key])))
  {
    hide Evict, Distinct;
    var order := t.order + [key];
    AddDistinct(t, key, e);
    EvictOne(max, Table(t.items[key := e], order));
    var kept := if |t.order| == max then t.order[1..] + [key] else order;
    assert kept == if |order| > max then order[1..] else order;
    FromKept(max, t, key, e, kept, Evict(max, Table(t.items[key := e], order)));
  }

  lemma FromKept(max: int, t: Table, key: string, e: Stored, kept: seq<string>, after: Table)
    requires max >= 1 && key !in t.items
    requires kept == if |t.order| == max then t.order[1..] + [key] else t.order + [key]
    requires after.order == kept && Distinct(kept) && (forall k :: k in after.items <==> k in kept)
    requires |after.items| == |kept| && forall k :: k in after.items ==> k in t.items[key := e]
    requires forall k :: k in after.items ==> after.items[k] == t.items[key := e][k]
    ensures AfterInsert(max, t, key, e, after)
  {
    hide Distinct;
  }

  lemma AddDistinct(t: Table, key: string, e: Stored)
    requires Distinct(t.order) && (forall k :: k in t.items <==> k in t.order) && key !in t.items
    ensures Distinct(t.order + [key]) && forall k :: k in t.items[key := e] <==> k in t.order + [key]
    ensures t.order != [] ==> (t.order + [key])[1..] == t.order[1..] + [key]
  {
  }

  /** A table at most one entry over the cap loses at most its oldest entry. */
  lemma EvictOne(max: int, t: Table)
    requires max >= 1 && Distinct(t.order) && (forall k :: k in t.items <==> k in t.order) && |t.order| <= max + 1
    ensures var order := if |t.order| > max then t.order[1..] else t.order;
      var after := Evict(max, t);
      && after.order == order && Distinct(order)
      && (forall k :: k in after.items <==> k in order)
      && |after.items| == |order|
      && (forall k :: k in after.items ==> k in t.items)
      && (forall k :: k in after.items ==> after.items[k] == t.items[k])
  {
    hide Evict;
    DistinctSize(t.order, t.items.Keys);
    EvictUnfolds(max, t);
    if |t.order| > max {
      var next := Table(t.items - {t.order[0]}, t.order[1..]);
      assert forall k :: k in next.items <==> k in next.order;
      DistinctSize(next.order, next.items.Keys);
      EvictUnfolds(max, next);
    }
  }

  lemma LastNSnoc(s: seq<string>, n: nat, x: string)
    requires n >= 1
    ensures LastN(s + [x], n) == if |LastN(s, n)| == n then LastN(s, n)[1..] + [x] else LastN(s, n) + [x]
  {
  }

  lemma InsertTracks(max: int, t: Table, ins: seq<string>, key: string, e: Stored)
    requires max >= 1 && Tracks(max, t, ins)
    ensures Tracks(max, Insert(max, t, key, e), if key in t.items then ins else ins + [key])
  {
    InsertOrder(max, t, key, e);
    LastNSnoc(ins, max, key);
  }

  lemma {:induction false} KeysTrackInsertions(max: int, log: seq<Record>)
    requires max >= 1
    ensures Tracks(max, Replay(max, log), Insertions(max, log))
    decreases |log|
  {
    if log != [] {
      var before, last := log[..|log| - 1], log[|log| - 1];
      KeysTrackInsertions(max, before);
      InsertTracks(max, Replay(max, before), Insertions(max, before), last.key, last.entry);
    }
  }

  lemma {:induction false} EntriesAreLatest(max: int, log: seq<Record>, k: string)
    requires max >= 1 && k in Replay(max, log).items
    ensures Put?(log, k) && Replay(max, log).items[k] == Latest(log, k)
    decreases |log|
  {
    hide Insertions, Insert, Distinct, LastN;
    var before, last := log[..|log| - 1], log[|log| - 1];
    KeysTrackInsertions(max, before);
    InsertOrder(max, Replay(max, before), last.key, last.entry);
    if k == last.key {
      assert log[|log| - 1].key == k;
    } else {
      EntriesAreLatest(max, before, k);
      var i :| 0 <= i < |before| && before[i].key == k;
      assert log[i].key == k;
    }
  }

  /** The cache is exactly the last `max` insertions of its log, each with the latest entry put
      under its key. */
  lemma RefinesLog(max: int, log: seq<Record>)
    requires max >= 1
    ensures Tracks(max, Replay(max, log), Insertions(max, log))
    ensures forall k :: k in Replay(max, log).items ==> Put?(log, k) && Replay(max, log).items[k] == Latest(log, k)
  {
    KeysTrackInsertions(max, log);
    forall k | k in Replay(max, log).items ensures Put?(log, k) && Replay(max, log).items[k] == Latest(log, k) {
      EntriesAreLatest(max, log, k);
    }
  }

  /** With no room configured, nothing is ever kept. */
  lemma {:induction false} NoRoomKeepsNothing(max: int, log: seq<Record>)
    requires max <= 0
    ensures Replay(max, log) == EMPTY
    decreases |log|
  {
    if log != [] {
      var before, last := log[..|log| - 1], log[|log| - 1];
      NoRoomKeepsNothing(max, before);
      var one := Table(map[last.key := last.entry], [last.key]);
      assert EMPTY.items[last.key := last.entry] == one.items && EMPTY.order + [last.key] == one.order;
      assert |one.items| == 1 && one.items - {last.key} == map[] && one.order[1..] == [];
      EvictUnfolds(max, one);
      EvictUnfolds(max, EMPTY);
    }
  }

  /** An exact hit serves the latest Put of its key. */
  lemma ExactHitIsLatest(max: int, log: seq<Record>, key: string, now: real)
    requires max >= 1
    ensures ExactHit(Replay(max, log), key, now) ==>
      Put?(log, key) && Replay(max, log).items[key] == Latest(log, key) && now < Latest(log, key).expires
  {
    RefinesLog(max, log);
  }

  /** Any max + 1 consecutive elements differ. */
  ghost predicate Spread(max: int, ins: seq<string>) {
    forall i, j :: 0 <= i < j < |ins| && j - i <= max ==> ins[i] != ins[j]
  }

  lemma SpreadMore(max: int, ins: seq<string>, key: string)
    requires max >= 1 && Spread(max, ins) && key !in LastN(ins, max)
    ensures Spread(max, ins + [key])
  {
    forall i | 0 <= i < |ins| && |ins| - i <= max ensures ins[i] != key {
      var kept := LastN(ins, max);
      assert ins[i] == kept[i - (|ins| - |kept|)];
    }
  }

  lemma {:induction false} InsertionsSpread(max: int, log: seq<Record>)
    requires max >= 1
    ensures Spread(max, Insertions(max, log))
    decreases |log|
  {
    if log != [] {
      var before, last := log[..|log| - 1], log[|log| - 1];
      InsertionsSpread(max, before);
      KeysTrackInsertions(max, before);
      if last.key !in Replay(max, before).items {
        SpreadMore(max, Insertions(max, before), last.key);
      }
    }
  }

  /** Every key that was ever put has been inserted; `p` is where it was last inserted. */
  lemma {:induction false} PutInserts(max: int, log: seq<Record>, key: string) returns (p: nat)
    requires max >= 1 && Put?(log, key)
    ensures var ins := Insertions(max, log);
      p < |ins| && ins[p] == key && forall q :: p < q < |ins| ==> ins[q] != key
    decreases |log|
  {
    var before, last := log[..|log| - 1], log[|log| - 1];
    var ins := Insertions(max, before);
    if last.key == key && key !in Replay(max, before).items {
      p := |ins|;
    } else {
      if last.key == key {
        EntriesAreLatest(max, before, key);
      } else {
        var i :| 0 <= i < |log| && log[i].key == key;
        assert before[i].key == key;
      }
      p := PutInserts(max, before, key);
    }
  }

  /** `p` is the place of the last insertion of a key. */
  ghost predicate LastInserted(ins: seq<string>, p: nat, key: string) {
    p < |ins| && ins[p] == key && forall q :: p < q < |ins| ==> ins[q] != key
  }

  lemma SuffixMembership(ins: seq<string>, max: nat, p: nat, key: string)
    requires LastInserted(ins, p, key)
    ensures key in LastN(ins, max) <==> |ins| - 1 - p < max
  {
    var kept := LastN(ins, max);
    if |ins| - 1 - p < max {
      assert kept[p - (|ins| - |kept|)] == key;
    } else {
      forall j | 0 <= j < |kept| ensures kept[j] != key {
        assert kept[j] == ins[j + |ins| - |kept|];
      }
    }
  }

  lemma SpreadWindow(max: int, ins: seq<string>, p: nat)
    requires max >= 1 && Spread(max, ins) && p + max < |ins|
    ensures Distinct(ins[p..p + max + 1])
  {
    var run := ins[p..p + max + 1];
    forall i, j | 0 <= i < j < |run| ensures run[i] != run[j] {
      assert run[i] == ins[p + i] && run[j] == ins[p + j];
    }
  }

  /** FIFO eviction, exactly: a key that was put is gone if and only if at least `max` insertions
      came after its own last insertion, and the first `max` of those are of distinct keys, all
      different from it. */
  lemma GoneAfterMaxInsertions(max: int, log: seq<Record>, key: string) returns (p: nat)
    requires max >= 1 && Put?(log, key)
    ensures LastInserted(Insertions(max, log), p, key)
    ensures key !in Replay(max, log).items <==> |Insertions(max, log)| - 1 - p >= max
    ensures key !in Replay(max, log).items ==> Distinct(Insertions(max, log)[p..p + max + 1])
  {
    p := PutInserts(max, log, key);
    var ins := Insertions(max, log);
    KeysTrackInsertions(max, log);
    SuffixMembership(ins, max, p, key);
    if |ins| - 1 - p >= max {
      InsertionsSpread(max, log);
      SpreadWindow(max, ins, p);
    }
  }

  lemma SquareBelowOne(x: real)
    requires 0.0 < x <= 1.0
    ensures x * x <= 1.0
  {
    assert x * x <= x * 1.0;
  }

  /** An eligible entry whose vector equals the query's is close under any threshold in (0, 1]. */
  lemma EqualVectorsAreClose(e: Stored, model: string, query: Vector, now: real, threshold: real)
    requires Eligible(e, model, now) && 0.0 < threshold <= 1.0
    requires e.vec == query && NormSq(query) != 0
    ensures Close(e, model, query, now, threshold)
  {
    SimilarityLaws(query, query);
    SquareBelowOne(threshold);
  }

  /** A request whose final user text equals that of a live entry of its model, with at least one
      term, is always a hit under any threshold in (0, 1]. */
  lemma SameTextNeverMisses(t: Table, k: string, model: string, ms: seq<Message>, other: seq<Message>,
                            now: real, threshold: real)
    requires k in t.items && 0.0 < threshold <= 1.0
    requires Eligible(t.items[k], model, now)
    requires t.items[k].vec == TermsOf(other) && NormSq(t.items[k].vec) != 0
    requires FinalUserText(ms) == FinalUserText(other)
    ensures ScanHit(t, model, TermsOf(ms), now, threshold)
  {
    EqualVectorsAreClose(t.items[k], model, TermsOf(ms), now, threshold);
  }

  /** The same from the log: after any Puts, a request whose final user text equals that of the latest
      Put under some key is a hit if that Put is live and of the request's model, and fewer than
      `max` insertions came after the key's own last one. */
  lemma RecentTextIsHit(max: int, log: seq<Record>, key: string, model: string, ms: seq<Message>, other: seq<Message>,
                        now: real, threshold: real) returns (p: nat)
    requires max >= 1 && Put?(log, key) && 0.0 < threshold <= 1.0
    requires var e := Latest(log, key);
      Eligible(e, model, now) && e.vec == TermsOf(other) && e.normSq == NormSq(e.vec)
    requires FinalUserText(ms) == FinalUserText(other)
    ensures LastInserted(Insertions(max, log), p, key)
    ensures |Insertions(max, log)| - 1 - p < max ==>
      ScanHit(Replay(max, log), model, TermsOf(ms), now, threshold)
  {
    hide Insertions, Replay, TermsOf, FinalUserText, NormSq, Eligible, Tracks, Distinct, LastInserted, ScanHit;
    p := GoneAfterMaxInsertions(max, log, key);
    if |Insertions(max, log)| - 1 - p < max {
      RefinesLog(max, log);
      EligibleHasTerms(Latest(log, key), model, now);
      SameTextNeverMisses(Replay(max, log), key, model, ms, other, now, threshold);
    }
  }

  lemma EligibleHasTerms(e: Stored, model: string, now: real)
    requires Eligible(e, model, now) && e.normSq == NormSq(e.vec)
    ensures NormSq(e.vec) != 0
  {
  }

  /** A threshold above 1 turns the scan off. */
  lemma HighThresholdNeverHits(t: Table, model: string, query: Vector, now: real, threshold: real)
    requires threshold > 1.0
    ensures !ScanHit(t, model, query, now, threshold)
  {
    assert threshold * threshold > 1.0;
    forall k | k in t.items ensures !Close(t.items[k], model, query, now, threshold) {
      SimilarityLaws(query, t.items[k].vec);
    }
  }

  /** The expiry boundary: at the very instant an entry expires the exact lookup refuses it, but the
      scan, if on, still serves a same-text request from it or from something at least as similar. */
  lemma ExpiryBoundary(t: Table, key: string, ms: seq<Message>, threshold: real)
    requires key in t.items && 0.0 < threshold <= 1.0
    requires t.items[key].vec == TermsOf(ms) && t.items[key].normSq == NormSq(TermsOf(ms)) != 0
    ensures var now := t.items[key].expires;
      !ExactHit(t, key, now) && ScanHit(t, t.items[key].model, TermsOf(ms), now, threshold)
  {
    SameTextNeverMisses(t, key, t.items[key].model, ms, ms, t.items[key].expires, threshold);
  }

  // ---- from the Puts themselves ----

  /** A Put: what was stored, for which request, and when. */
  datatype PutCall = PutCall(model: string, messages: seq<Message>, temperature: Option<real>, resp: ResponseValue,
                             at: real)

  function KeyOf(keyFor: KeyFor, p: PutCall): string { keyFor(p.model, p.messages, p.temperature) }

  /** What a Put puts, by its contract. */
  ghost function RecordOf(keyFor: KeyFor, ttl: real, p: PutCall): Record {
    var vec := TermsOf(p.messages);
    Record(KeyOf(keyFor, p), Stored(p.resp, p.at + ttl, p.model, vec, NormSq(vec)))
  }

  ghost function Records(keyFor: KeyFor, ttl: real, puts: seq<PutCall>): seq<Record> {
    seq(|puts|, i requires 0 <= i < |puts| => RecordOf(keyFor, ttl, puts[i]))
  }

  /** A cache that holds a series of Puts holds, after one more, that series and the one. */
  lemma PutAppends(c: ResponseCache, puts: seq<PutCall>, p: PutCall)
    ensures c.Stores(Replay(c.maxItems, Records(c.keyFor, c.ttl, puts)), p.model, p.messages, p.temperature, p.resp,
                     p.at)
         == Replay(c.maxItems, Records(c.keyFor, c.ttl, puts + [p]))
  {
    hide Insert;
    var all := Records(c.keyFor, c.ttl, puts + [p]);
    assert all[..|all| - 1] == Records(c.keyFor, c.ttl, puts);
  }

  /** Put number i is the last one under its key. */
  ghost predicate LastOfKey(keyFor: KeyFor, puts: seq<PutCall>, i: nat) {
    i < |puts| && forall j :: i < j < |puts| ==> KeyOf(keyFor, puts[j]) != KeyOf(keyFor, puts[i])
  }

  lemma {:induction false} LatestPlace(log: seq<Record>, key: string) returns (i: nat)
    requires Put?(log, key)
    ensures i < |log| && log[i].key == key && log[i].entry == Latest(log, key)
    ensures forall j :: i < j < |log| ==> log[j].key != key
    decreases |log|
  {
    var init, last := log[..|log| - 1], log[|log| - 1];
    if last.key == key {
      i := |log| - 1;
    } else {
      var j :| 0 <= j < |log| && log[j].key == key;
      assert init[j].key == key;
      i := LatestPlace(init, key);
    }
  }

  /** Whatever a lookup serves was put: under the request's very key and less than the ttl ago, or for
      the request's very model, no more than the ttl ago, with a final user text that is alike; and it
      is the last Put of its key. */
  lemma ServedWasPut(keyFor: KeyFor, ttl: real, max: int, puts: seq<PutCall>, key: string, model: string,
                     query: Vector, now: real, threshold: real, r: ResponseValue) returns (i: nat)
    requires max >= 1
    requires LookedUp(Replay(max, Records(keyFor, ttl, puts)), key, model, query, now, threshold, Some(r))
    ensures LastOfKey(keyFor, puts, i) && ServedFrom(r, puts[i].resp)
    ensures (KeyOf(keyFor, puts[i]) == key && now - puts[i].at < ttl)
         || AlikePut(ttl, puts[i], model, query, now, threshold)
  {
    hide Replay, Distinct, TermsOf, Reaches, NormSq, ServedFrom, AtLeastAsSimilar, Alike, Records, AlikePut;
    var t := Replay(max, Records(keyFor, ttl, puts));
    var k :| k in t.items && ServedFrom(r, t.items[k].resp)
      && ((k == key && now < t.items[k].expires) || Alike(t.items[k], model, query, now, threshold));
    i := EntryWasPut(keyFor, ttl, max, puts, k);
    AlikeIsPut(ttl, puts[i], t.items[k], model, query, now, threshold);
  }

  /** A Put for the request's very model, no more than the ttl ago, whose final user text is alike. */
  ghost predicate AlikePut(ttl: real, p: PutCall, model: string, query: Vector, now: real, threshold: real) {
    p.model == model && now - p.at <= ttl && Reaches(query, TermsOf(p.messages), threshold)
  }

  lemma AlikeIsPut(ttl: real, p: PutCall, e: Stored, model: string, query: Vector, now: real, threshold: real)
    requires e.expires == p.at + ttl && e.model == p.model && e.vec == TermsOf(p.messages)
    ensures Alike(e, model, query, now, threshold) ==> AlikePut(ttl, p, model, query, now, threshold)
  {
    hide Reaches, TermsOf, NormSq;
  }

  /** An entry is what the last Put of its key put. */
  lemma EntryWasPut(keyFor: KeyFor, ttl: real, max: int, puts: seq<PutCall>, k: string) returns (i: nat)
    requires max >= 1 && k in Replay(max, Records(keyFor, ttl, puts)).items
    ensures LastOfKey(keyFor, puts, i) && KeyOf(keyFor, puts[i]) == k
    ensures Replay(max, Records(keyFor, ttl, puts)).items[k] == RecordOf(keyFor, ttl, puts[i]).entry
  {
    hide Replay, Tracks, TermsOf, NormSq;
    var log := Records(keyFor, ttl, puts);
    RefinesLog(max, log);
    i := LatestPlace(log, k);
    assert forall j :: 0 <= j < |puts| ==> KeyOf(keyFor, puts[j]) == log[j].key;
  }

  // ---- which text is compared ----

  predicate NoUser(ms: seq<Message>) { forall m :: m in ms ==> !m.role.User? }

  /** The compared text is that of the last user message, and empty if there is none or it has no text. */
  lemma {:induction false} FinalUserTextIsLast(before: seq<Message>, m: Message, after: seq<Message>)
    requires m.role.User? && NoUser(after)
    ensures FinalUserText(before + [m] + after)
         == match m.TextContent() case Some(t) => t case None => ""
    decreases |after|
  {
    var ms := before + [m] + after;
    if after == [] {
      assert ms == before + [m];
    } else {
      assert ms[|ms| - 1] == after[|after| - 1] && after[|after| - 1] in after;
      assert ms[..|ms| - 1] == before + [m] + after[..|after| - 1];
      FinalUserTextIsLast(before, m, after[..|after| - 1]);
    }
  }

  lemma {:induction false} NoUserNoText(ms: seq<Message>)
    requires NoUser(ms)
    ensures FinalUserText(ms) == ""
    decreases |ms|
  {
    if ms != [] {
      assert ms[|ms| - 1] in ms;
      NoUserNoText(ms[..|ms| - 1]);
    }
  }

  /** Texts with the same words, letter case and white space aside, have the same vector. */
  lemma SameWordsSameVector(words: seq<string>, spaced: string, s: string)
    requires (forall w :: w in words ==> Text.IsWord(w))
    requires ToLower(s) == spaced && Text.Fields(spaced) == words
    ensures Terms(s) == words && forall w :: w in Counts(Terms(s)) <==> w in words
    ensures forall w :: w in words ==> Counts(Terms(s))[w] == multiset(words)[w]
  {
    Text.FieldsOfJoin(words);
  }

  /** Letter case: the capital ASCII letters become small, everything else stays. */
  lemma LowerCase(s: string, i: nat)
    requires i < |s|
    ensures |ToLower(s)| == |s|
    ensures 'A' <= s[i] <= 'Z' ==> ToLower(s)[i] as int == s[i] as int + 32
    ensures !('A' <= s[i] <= 'Z') ==> ToLower(s)[i] == s[i]
  {
  }
}
