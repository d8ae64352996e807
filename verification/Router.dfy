/** The router (internal/router/router.go): aliases to attempts, weighted key selection, and fallback. */
module Router {
  import opened Common
  import opened Schema

  datatype Key = Key(value: string, weight: int)
  datatype Target = Target(provider: string, model: string)
  datatype Attempt = Attempt(provider: string, model: string, apiKey: string)

  const NO_ATTEMPT := Attempt("", "", "")

  /** The total weight of the first n keys. */
  function Weight(pool: seq<Key>, n: nat): int
    requires n <= |pool|
  {
    if n == 0 then 0 else Weight(pool, n - 1) + pool[n - 1].weight
  }

  /** What config.Load guarantees of a key pool. */
  predicate Weighted(pool: seq<Key>) { forall i :: 0 <= i < |pool| ==> pool[i].weight >= 1 }

  /** Position i holds the residue r. */
  predicate Selects(pool: seq<Key>, i: nat, r: int)
    requires i < |pool|
  {
    Weight(pool, i) <= r < Weight(pool, i + 1)
  }

  lemma {:induction false} WeightGrows(pool: seq<Key>, i: nat, j: nat)
    requires Weighted(pool) && i <= j <= |pool|
    ensures 0 <= Weight(pool, i) && Weight(pool, i) + (j - i) <= Weight(pool, j)
    decreases j
  {
    if i < j {
      WeightGrows(pool, i, j - 1);
    } else if i > 0 {
      WeightGrows(pool, i - 1, i - 1);
    }
  }

  /** Two positions never hold the same residue. */
  lemma SelectsOne(pool: seq<Key>, i: nat, j: nat, r: int)
    requires Weighted(pool) && i < |pool| && j < |pool| && Selects(pool, i, r) && Selects(pool, j, r)
    ensures i == j
  {
    if i < j {
      WeightGrows(pool, i + 1, j);
    } else if j < i {
      WeightGrows(pool, j + 1, i);
    }
  }

  /** The position, among the first n, that holds a residue. */
  function Position(pool: seq<Key>, r: int, n: nat): (i: nat)
    requires 0 < n <= |pool| && 0 <= r < Weight(pool, n)
    ensures i < n && Selects(pool, i, r)
  {
    if r >= Weight(pool, n - 1) then n - 1
    else Position(pool, r, n - 1)
  }

  /** The residue lies between the weight of the positions before i and that of the positions up to i. */
  ghost predicate Holds(pool: seq<Key>, i: nat, r: int)
    requires i < |pool|
  {
    SumOfWeights(pool[..i]) <= r < SumOfWeights(pool[..i]) + pool[i].weight
  }

  function SumOfWeights(pool: seq<Key>): int {
    if pool == [] then 0 else pool[0].weight + SumOfWeights(pool[1..])
  }

  lemma {:induction false} WeightIsSum(pool: seq<Key>, n: nat)
    requires n <= |pool|
    ensures Weight(pool, n) == SumOfWeights(pool[..n])
    decreases n
  {
    if n > 0 {
      WeightIsSum(pool, n - 1);
      SumSnoc(pool[..n - 1], pool[n - 1]);
      assert pool[..n] == pool[..n - 1] + [pool[n - 1]];
    }
  }

  lemma {:induction false} SumSnoc(pool: seq<Key>, k: Key)
    ensures SumOfWeights(pool + [k]) == SumOfWeights(pool) + k.weight
    decreases |pool|
  {
    if pool != [] {
      assert (pool + [k])[1..] == pool[1..] + [k];
      SumSnoc(pool[1..], k);
    } else {
      assert (pool + [k])[1..] == [];
    }
  }

  /** The key that a residue gives. */
  function KeyAt(pool: seq<Key>, r: nat): string
    requires r < Weight(pool, |pool|)
  {
    pool[Position(pool, r, |pool|)].value
  }

  /** Splits at the first slash, both sides being non-empty. */
  function SplitProviderModel(s: string): Option<(string, string)> {
    var i := Slash(s);
    if i == 0 || i == |s| || i == |s| - 1 then None else Some((s[..i], s[i + 1..]))
  }

  function Slash(s: string): nat
    ensures Slash(s) <= |s|
    ensures forall j :: 0 <= j < Slash(s) ==> s[j] != '/'
    ensures Slash(s) < |s| ==> s[Slash(s)] == '/'
  {
    if s == "" || s[0] == '/' then 0 else 1 + Slash(s[1..])
  }

  /** A provider call either answers or fails with an HTTP status or without one. */
  datatype Upstream = Answer(resp: ResponseValue) | HTTPError(status: int) | NetworkError

  function Retryable(u: Upstream): bool {
    match u
    case Answer(_) => false
    case HTTPError(status) => status == 429 || status >= 500
    case NetworkError => true
  }

  const COUNTERS: nat := 0x1_0000_0000_0000_0000

  class Router {
    const providers: set<string>
    const models: map<string, seq<Target>>
    /** The seeded hash of a counter value. */
    const hash: nat -> nat
    var keys: map<string, seq<Key>>
    var rr: map<string, nat>

    ghost predicate Valid()
      reads this`keys
    {
      forall p :: p in keys ==> Weighted(keys[p])
    }

    constructor (providers: set<string>, models: map<string, seq<Target>>, keys: map<string, seq<Key>>,
                 hash: nat -> nat)
      requires forall p :: p in keys ==> Weighted(keys[p])
      ensures Valid() && this.providers == providers && this.models == models && this.hash == hash
      ensures this.keys == keys && rr == map[]
    {
      this.providers, this.models, this.hash, this.keys, rr := providers, models, hash, keys, map[];
    }

    function Pool(provider: string): seq<Key>
      reads this`keys
    {
      if provider in keys then keys[provider] else []
    }

    /** The next counter value of a provider. */
    function Next(counters: map<string, nat>, provider: string): nat {
      ((if provider in counters then counters[provider] else 0) + 1) % COUNTERS
    }

    /** The next key of a provider and the counters then: a pool of several keys advances its counter
        and gives the key that holds the residue of the counter's hash. */
    function NextKey(counters: map<string, nat>, provider: string): (string, map<string, nat>)
      requires Valid()
      reads this`keys
    {
      var pool := Pool(provider);
      if pool == [] then ("", counters)
      else if |pool| == 1 then (pool[0].value, counters)
      else
        WeightGrows(pool, 0, |pool|);
        var counter := Next(counters, provider);
        (KeyAt(pool, hash(counter) % Weight(pool, |pool|)), counters[provider := counter])
    }

    /** The attempts for some targets, and the counters then: unconfigured providers are skipped. */
    function Attempts(counters: map<string, nat>, targets: seq<Target>): (seq<Attempt>, map<string, nat>)
      requires Valid()
      reads this`keys
    {
      if targets == [] then ([], counters)
      else
        var last := targets[|targets| - 1];
        var (before, counters1) := Attempts(counters, targets[..|targets| - 1]);
        if last.provider !in providers then (before, counters1)
        else
          var (key, counters2) := NextKey(counters1, last.provider);
          (before + [Attempt(last.provider, last.model, key)], counters2)
    }

    /** Picks the next key and advances the counter. */
    method PickKey(provider: string) returns (v: string)
      requires Valid()
      modifies this`rr
      ensures Valid() && (v, rr) == old(NextKey(rr, provider))
      ensures var pool := Pool(provider);
        if |pool| == 0 then v == "" && rr == old(rr)
        else if |pool| == 1 then v == pool[0].value && rr == old(rr)
        else
          var c := (old(if provider in rr then rr[provider] else 0) + 1) % 0x1_0000_0000_0000_0000;
          var total := SumOfWeights(pool);
          && rr == old(rr)[provider := c] && total > 0
          && (exists i: nat :: i < |pool| && v == pool[i].value && Holds(pool, i, hash(c) % total))
          && hash(c) % total < Weight(pool, |pool|) && v == KeyAt(pool, hash(c) % total)
    {
      if provider !in keys || |keys[provider]| == 0 {
        return "";
      }
      var pool := keys[provider];
      if |pool| == 1 {
        return pool[0].value;
      }
      var total := 0;
      for i := 0 to |pool|
        invariant total == Weight(pool, i) && total >= i
      {
        total := total + pool[i].weight;
      }
      var counter := ((if provider in rr then rr[provider] else 0) + 1) % COUNTERS;
      rr := rr[provider := counter];
      var i := Pick(pool, hash(counter) % total);
      SelectsOne(pool, i, Position(pool, hash(counter) % total, |pool|), hash(counter) % total);
      v := pool[i].value;
      WeightIsSum(pool, i);
      WeightIsSum(pool, |pool|);
      assert pool[..|pool|] == pool && Holds(pool, i, hash(counter) % total);
    }

    /** The subtract-and-test loop; its fallback is never reached. */
    method Pick(pool: seq<Key>, residue: int) returns (i: nat)
      requires Weighted(pool) && 0 <= residue < Weight(pool, |pool|)
      ensures i < |pool| && Selects(pool, i, residue)
    {
      var pick := residue;
      i := 0;
      while i < |pool|
        invariant 0 <= i <= |pool|
        invariant pick == residue - Weight(pool, i) >= 0
      {
        pick := pick - pool[i].weight;
        if pick < 0 {
          return;
        }
        i := i + 1;
      }
      assert false;
    }

    /** Replaces a configured provider's pool by one key; every pool stays usable. */
    method SetProviderKey(provider: string, key: string) returns (ok: bool)
      requires Valid()
      modifies this
      ensures Valid() && ok == (provider in providers)
      ensures ok ==> keys == old(keys)[provider := [Key(key, 1)]] && rr == old(rr) - {provider}
      ensures !ok ==> keys == old(keys) && rr == old(rr)
    {
      if provider !in providers {
        return false;
      }
      keys := keys[provider := [Key(key, 1)]];
      rr := rr - {provider};
      return true;
    }

    /** The targets of a model: its route, else provider/model syntax. */
    function Targets(model: string): Option<seq<Target>> {
      if model in models then Some(models[model])
      else match SplitProviderModel(model)
        case None => None
        case Some((p, m)) => Some([Target(p, m)])
    }

    /** The attempts for the model's targets; there is an error exactly when there is none. */
    method Resolve(model: string) returns (r: Result<seq<Attempt>>)
      requires Valid()
      modifies this`rr
      ensures Valid()
      ensures var targets := Targets(model);
        if targets.None? then r.Err? && rr == old(rr)
        else
          var (attempts, counters) := old(Attempts(rr, targets.value));
          rr == counters && if attempts == [] then r.Err? else r == Ok(attempts)
    {
      var targets := Targets(model);
      if targets.None? {
        return Err("unknown model");
      }
      var ts := targets.value;
      var attempts: seq<Attempt> := [];
      for i := 0 to |ts|
        invariant (attempts, rr) == old(Attempts(rr, ts[..i]))
      {
        assert ts[..i + 1][..i] == ts[..i];
        if ts[i].provider in providers {
          var key := PickKey(ts[i].provider);
          attempts := attempts + [Attempt(ts[i].provider, ts[i].model, key)];
        }
      }
      assert ts[..|ts|] == ts;
      if |attempts| == 0 {
        return Err("no usable targets");
      }
      return Ok(attempts);
    }

    /** The usable targets are those of a configured provider. */
    lemma {:induction false} UsableMembers(targets: seq<Target>, t: Target)
      ensures multiset(Usable(targets))[t] == if t.provider in providers then multiset(targets)[t] else 0
      decreases |targets|
    {
      if targets != [] {
        var init, last := targets[..|targets| - 1], targets[|targets| - 1];
        UsableMembers(init, t);
        assert targets == init + [last];
      }
    }

    /** And they keep their order. */
    lemma {:induction false} UsableAppend(a: seq<Target>, b: seq<Target>)
      ensures Usable(a + b) == Usable(a) + Usable(b)
      decreases |b|
    {
      if b == [] {
        assert a + b == a;
      } else {
        assert (a + b)[..|a + b| - 1] == a + b[..|b| - 1];
        UsableAppend(a, b[..|b| - 1]);
      }
    }

    /** The attempts are the targets whose provider is configured, in order, whatever the counters. */
    lemma {:induction false} AttemptsAreUsable(counters: map<string, nat>, targets: seq<Target>)
      requires Valid()
      ensures var (attempts, usable) := (Attempts(counters, targets).0, Usable(targets));
        |attempts| == |usable| && forall i :: 0 <= i < |usable| ==>
          attempts[i].provider == usable[i].provider && attempts[i].model == usable[i].model
      decreases |targets|
    {
      if targets != [] {
        AttemptsAreUsable(counters, targets[..|targets| - 1]);
      }
    }

    function Usable(targets: seq<Target>): seq<Target> {
      if targets == [] then []
      else
        var last := targets[|targets| - 1];
        Usable(targets[..|targets| - 1]) + (if last.provider in providers then [last] else [])
    }
  }

  /** Why a chain of attempts failed. */
  datatype ChatError = Rejected(failure: Upstream) | Cancelled | AllFailed(last: Option<Upstream>)

  /** Outcome of a fallback chain: the response or an error; the attempt that decided; how many ran. */
  datatype Served = Served(resp: Option<ResponseValue>, won: Attempt, tries: nat, error: Option<ChatError>)

  /** Chat: attempts in order; the first answer wins, a non-retryable failure or a cancelled back-off
      stops with that error, and otherwise all have failed and the last failure is reported. */
  method Chat(upstream: (nat, nat, Attempt, seq<Message>) -> Upstream, cancelled: (nat, nat) -> bool, tick: nat,
              attempts: seq<Attempt>, messages: seq<Message>) returns (r: Served)
    ensures r.tries <= |attempts| && (r.resp.Some? <==> r.error.None?)
    ensures forall i :: 0 <= i < r.tries - 1 ==>
      var u := upstream(tick, i, attempts[i], messages);
      u == NetworkError || (u.HTTPError? && (u.status == 429 || u.status >= 500))
    ensures r.error.Some? && r.error.value.Rejected? ==>
      var u := r.error.value.failure; u.HTTPError? && u.status != 429 && u.status < 500
    ensures forall i :: 0 <= i < r.tries - 1 ==>
      Retryable(upstream(tick, i, attempts[i], messages)) && !cancelled(tick, i)
    ensures r.resp.Some? ==>
      r.tries > 0 && r.won == attempts[r.tries - 1] &&
      upstream(tick, r.tries - 1, r.won, messages) == Answer(r.resp.value)
    ensures r.error.Some? && !r.error.value.AllFailed? ==>
      r.tries > 0 && r.won == attempts[r.tries - 1] &&
      var last := upstream(tick, r.tries - 1, r.won, messages);
      !last.Answer? && if Retryable(last) then cancelled(tick, r.tries - 1) && r.error.value == Cancelled
                       else r.error.value == Rejected(last)
    ensures r.error.Some? && r.error.value.AllFailed? ==>
      && r.tries == |attempts| && r.won == NO_ATTEMPT
      && (forall i :: 0 <= i < |attempts| ==>
            Retryable(upstream(tick, i, attempts[i], messages)) && !cancelled(tick, i))
      && r.error.value.last == if attempts == [] then None
                               else Some(upstream(tick, |attempts| - 1, attempts[|attempts| - 1], messages))
  {
    var lastErr: Option<Upstream> := None;
    for i := 0 to |attempts|
      invariant forall j :: 0 <= j < i ==>
        Retryable(upstream(tick, j, attempts[j], messages)) && !cancelled(tick, j)
      invariant lastErr == if i == 0 then None else Some(upstream(tick, i - 1, attempts[i - 1], messages))
    {
      var u := upstream(tick, i, attempts[i], messages);
      if u.Answer? {
        return Served(Some(u.resp), attempts[i], i + 1, None);
      }
      lastErr := Some(u);
      if !Retryable(u) {
        return Served(None, attempts[i], i + 1, Some(Rejected(u)));
      }
      if cancelled(tick, i) {
        return Served(None, attempts[i], i + 1, Some(Cancelled));
      }
    }
    return Served(None, NO_ATTEMPT, |attempts|, Some(AllFailed(lastErr)));
  }
}

/** Weighted selection is exact. */
module WeightedSelection {
  import opened Common
  import opened Router

  /** Residues that select position i. */
  ghost function Residues(pool: seq<Key>, i: nat): set<int>
    requires i < |pool|
  {
    set r: int | 0 <= r < Weight(pool, |pool|) && Selects(pool, i, r)
  }

  lemma {:induction false} IntervalSize(s: set<int>, a: int, b: int)
    requires a <= b && forall r :: r in s <==> a <= r < b
    ensures |s| == b - a
    decreases b - a
  {
    if a < b {
      IntervalSize(s - {b - 1}, a, b - 1);
    } else {
      assert forall r :: r in s ==> r in {};
      assert s == {};
    }
  }

  /** Position i is selected by exactly as many of the residues 0..total-1 as its weight. */
  lemma SelectionCount(pool: seq<Key>, i: nat)
    requires Weighted(pool) && i < |pool|
    ensures |Residues(pool, i)| == pool[i].weight
  {
    WeightGrows(pool, 0, i);
    WeightGrows(pool, i + 1, |pool|);
    IntervalSize(Residues(pool, i), Weight(pool, i), Weight(pool, i + 1));
  }

  /** The intervals partition the residues: each residue selects one position and no other. */
  lemma {:induction false} SelectionPartition(pool: seq<Key>, r: int, n: nat) returns (i: nat)
    requires Weighted(pool) && n <= |pool| && 0 <= r < Weight(pool, n)
    ensures i < n && Selects(pool, i, r)
    ensures forall j :: 0 <= j < |pool| && Selects(pool, j, r) ==> j == i
    decreases n
  {
    if r >= Weight(pool, n - 1) {
      i := n - 1;
      forall j | 0 <= j < |pool| && Selects(pool, j, r) ensures j == i {
        if j < i {
          WeightGrows(pool, j + 1, i);
        } else if i < j {
          WeightGrows(pool, i + 1, j);
        }
      }
    } else {
      i := SelectionPartition(pool, r, n - 1);
    }
  }

  /** The weight of the positions below n that carry a value. */
  function Share(pool: seq<Key>, v: string, n: nat): int
    requires n <= |pool|
  {
    if n == 0 then 0 else Share(pool, v, n - 1) + (if pool[n - 1].value == v then pool[n - 1].weight else 0)
  }

  predicate Within(r: int, pool: seq<Key>, n: nat)
    requires n <= |pool|
  {
    r < Weight(pool, n)
  }

  /** The residues below the weight of the first n positions that give v. */
  ghost function Giving(pool: seq<Key>, v: string, n: nat): set<nat>
    requires Weighted(pool) && n <= |pool|
  {
    set r: nat | r < Weight(pool, n) && Gives(pool, r, v)
  }

  predicate Gives(pool: seq<Key>, r: nat, v: string) {
    r < Weight(pool, |pool|) && KeyAt(pool, r) == v
  }

  lemma GivenBy(pool: seq<Key>, i: nat, r: nat)
    requires Weighted(pool) && i < |pool| && Weight(pool, i) <= r < Weight(pool, i + 1)
    ensures forall v :: Gives(pool, r, v) <==> v == pool[i].value
  {
    WeightGrows(pool, i + 1, |pool|);
    SelectsOne(pool, i, Position(pool, r, |pool|), r);
  }

  /** The selection is exact: the residues that give a key are as many as the weight of the positions
      that carry it. */
  lemma {:induction false} KeyCount(pool: seq<Key>, v: string, n: nat)
    requires Weighted(pool) && n <= |pool|
    ensures |Giving(pool, v, n)| == Share(pool, v, n)
    decreases n
  {
    hide Gives;
    if n == 0 {
      assert Giving(pool, v, 0) == {};
    } else {
      KeyCount(pool, v, n - 1);
      WeightGrows(pool, 0, n - 1);
      WeightGrows(pool, n - 1, n);
      forall r: nat | Weight(pool, n - 1) <= r < Weight(pool, n) ensures Gives(pool, r, v) <==> v == pool[n - 1].value {
        GivenBy(pool, n - 1, r);
      }
      var more := set r: int | Weight(pool, n - 1) <= r < Weight(pool, n) && Within(r, pool, n);
      IntervalSize(more, Weight(pool, n - 1), Weight(pool, n));
      if pool[n - 1].value == v {
        assert Giving(pool, v, n) == Giving(pool, v, n - 1) + more;
      } else {
        assert Giving(pool, v, n) == Giving(pool, v, n - 1);
      }
    }
  }

  /** What splitting returns writes back to the input. */
  lemma SplitWritesBack(s: string)
    requires SplitProviderModel(s).Some?
    ensures var (p, m) := SplitProviderModel(s).value;
      s == p + "/" + m && p != "" && m != "" && '/' !in p
  {
  }

  lemma {:induction false} SlashAfter(p: string, m: string)
    requires '/' !in p
    ensures Slash(p + "/" + m) == |p|
    decreases |p|
  {
    if p == "" {
      assert p + "/" + m == "/" + m;
    } else {
      assert p[0] in p && forall c :: c in p[1..] ==> c in p;
      assert (p + "/" + m)[1..] == p[1..] + "/" + m;
      SlashAfter(p[1..], m);
    }
  }

  /** Splitting is the inverse of writing provider/model. */
  lemma SplitOfWritten(p: string, m: string)
    requires p != "" && m != "" && '/' !in p
    ensures SplitProviderModel(p + "/" + m) == Some((p, m))
  {
    SlashAfter(p, m);
    assert (p + "/" + m)[..|p|] == p && (p + "/" + m)[|p| + 1..] == m;
  }

  /** Where a model's targets come from: its route; else its own text, if that reads provider/model; else
      there are none. */
  lemma TargetsOf(router: Router, model: string)
    ensures model in router.models ==> router.Targets(model) == Some(router.models[model])
    ensures forall p, m :: model !in router.models && Written(model, p, m) ==>
      router.Targets(model) == Some([Target(p, m)])
    ensures router.Targets(model).None? <==> model !in router.models && forall p, m :: !Written(model, p, m)
  {
    forall p, m | Written(model, p, m) ensures SplitProviderModel(model) == Some((p, m)) {
      SplitOfWritten(p, m);
    }
    if SplitProviderModel(model).Some? {
      SplitWritesBack(model);
      var (p, m) := SplitProviderModel(model).value;
      assert Written(model, p, m);
    }
  }

  predicate Written(model: string, p: string, m: string) {
    model == p + "/" + m && p != "" && m != "" && '/' !in p
  }
}
