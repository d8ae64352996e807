/** The per-identity counters of the governor (internal/governance/governance.go) as values:
    one token bucket, one spend total and the checks applied to them.  Levels and clock
    readings (seconds) are exact reals. */
module Accounts {
  datatype Decision = Allow | DenyUnauthorized | DenyRateLimited | DenyBudget | DenyModel

  datatype VirtualKey = VirtualKey(key: string, name: string, rpm: int, maxTokens: int,
                                   allowedModels: seq<string>)

  datatype Account = Account(cfg: VirtualKey, tokens: real, lastFill: real, spent: int, requests: int)

  /** The account of a new identity: a full bucket and the spend loaded for its name. */
  function Open(cfg: VirtualKey, now: real, spent: int): Account {
    Account(cfg, cfg.rpm as real, now, spent, 0)
  }

  /** Seconds since `from`, counting a clock that stepped back as no time at all. */
  function Elapsed(from: real, now: real): real {
    if now < from then 0.0 else now - from
  }

  /** What a bucket of `rpm` requests a minute gains in `seconds`. */
  function Gain(rpm: int, seconds: real): real {
    seconds * (rpm as real / 60.0)
  }

  /** The bucket's content if it were refilled at `now`. */
  function Level(a: Account, now: real): real {
    var full := a.tokens + Gain(a.cfg.rpm, Elapsed(a.lastFill, now));
    if full > a.cfg.rpm as real then a.cfg.rpm as real else full
  }

  predicate ModelAllowed(a: Account, model: string) {
    a.cfg.allowedModels == [] || model in a.cfg.allowedModels
  }

  predicate OverBudget(a: Account) {
    a.cfg.maxTokens > 0 && a.spent >= a.cfg.maxTokens
  }

  /** One authenticated check: model, then budget, then rate. */
  function Check(a: Account, model: string, now: real): (Account, Decision) {
    if !ModelAllowed(a, model) then (a, DenyModel)
    else if OverBudget(a) then (a, DenyBudget)
    else if a.cfg.rpm <= 0 then (a.(requests := a.requests + 1), Allow)
    else
      var level := Level(a, now);
      if level < 1.0 then (a.(tokens := level, lastFill := now), DenyRateLimited)
      else (a.(tokens := level - 1.0, lastFill := now, requests := a.requests + 1), Allow)
  }

  /** What a decision says of the account, whatever the clock did: which models, how much spend, how full
      a bucket; and what the check did to the account. */
  ghost predicate Decided(a: Account, model: string, now: real, b: Account, d: Decision) {
    var modelRefused := a.cfg.allowedModels != [] && model !in a.cfg.allowedModels;
    var spentOut := a.cfg.maxTokens > 0 && a.cfg.maxTokens <= a.spent;
    && d != DenyUnauthorized
    && (d == DenyModel <==> modelRefused)
    && (d == DenyBudget <==> !modelRefused && spentOut)
    && (d == DenyModel || d == DenyBudget ==> b == a)
    && b.cfg == a.cfg && b.spent == a.spent && b.requests == a.requests + (if d == Allow then 1 else 0)
    && (d == DenyRateLimited ==> a.cfg.rpm > 0 && b.tokens < 1.0 && b.lastFill == now)
    && (d == Allow && a.cfg.rpm > 0 ==> b.tokens >= 0.0 && b.lastFill == now)
    && (a.cfg.rpm <= 0 ==> b.tokens == a.tokens && b.lastFill == a.lastFill)
  }

  /** The refill of a checked bucket: with the time since its last check, up to the limit. */
  ghost predicate Refilled(a: Account, now: real, b: Account, d: Decision) {
    var since := if now < a.lastFill then 0.0 else now - a.lastFill;
    var full := a.tokens + since * (a.cfg.rpm as real / 60.0);
    var paid := if d == Allow then 1.0 else 0.0;
    a.cfg.rpm > 0 && (d == Allow || d == DenyRateLimited) ==>
      && (full <= a.cfg.rpm as real ==> b.tokens + paid == full)
      && (full > a.cfg.rpm as real ==> b.tokens + paid == a.cfg.rpm as real)
  }

  lemma CheckDecides(a: Account, model: string, now: real)
    ensures Decided(a, model, now, Check(a, model, now).0, Check(a, model, now).1)
    ensures Refilled(a, now, Check(a, model, now).0, Check(a, model, now).1)
  {
  }

  /** Only positive amounts are added. */
  function Record(a: Account, amount: int): Account {
    if amount <= 0 then a else a.(spent := a.spent + amount)
  }

  /** What can happen to one account: a check at a clock reading, or a spend record. */
  datatype Event = Ask(model: string, now: real) | Spend(amount: int)

  function Step(a: Account, e: Event): Account {
    match e
    case Ask(model, now) => Check(a, model, now).0
    case Spend(amount) => Record(a, amount)
  }

  predicate Allows(a: Account, e: Event) {
    e.Ask? && Check(a, e.model, e.now).1 == Allow
  }

  function Run(a: Account, events: seq<Event>): Account
    decreases |events|
  {
    if events == [] then a else Run(Step(a, events[0]), events[1..])
  }

  /** The number of Allow decisions along a run. */
  function Allowed(a: Account, events: seq<Event>): nat
    decreases |events|
  {
    if events == [] then 0
    else (if Allows(a, events[0]) then 1 else 0) + Allowed(Step(a, events[0]), events[1..])
  }

  /** The decisions along a run, in order. */
  function Decisions(a: Account, events: seq<Event>): seq<Decision>
    decreases |events|
  {
    if events == [] then []
    else
      (match events[0]
       case Ask(model, now) => [Check(a, model, now).1]
       case Spend(_) => []) + Decisions(Step(a, events[0]), events[1..])
  }

  /** The last clock reading, starting from `clock`. */
  function LastReading(clock: real, events: seq<Event>): real
    decreases |events|
  {
    if events == [] then clock
    else LastReading(if events[0].Ask? then events[0].now else clock, events[1..])
  }

  /** The sum of the clock's forward movements along a run that starts at reading `clock`. */
  function Forward(clock: real, events: seq<Event>): real
    decreases |events|
  {
    if events == [] then 0.0
    else match events[0]
      case Ask(_, now) => Elapsed(clock, now) + Forward(now, events[1..])
      case Spend(_) => Forward(clock, events[1..])
  }

  /** The clock never steps back, starting from reading `clock`. */
  predicate Nondecreasing(clock: real, events: seq<Event>)
    decreases |events|
  {
    events == [] ||
    (match events[0]
     case Ask(_, now) => clock <= now && Nondecreasing(now, events[1..])
     case Spend(_) => Nondecreasing(clock, events[1..]))
  }

  /** Every account the governor can hold: the bucket is between empty and full. */
  predicate InRange(a: Account) {
    a.cfg.rpm > 0 ==> 0.0 <= a.tokens <= a.cfg.rpm as real
  }

  lemma {:induction false} RunSplit(a: Account, before: seq<Event>, after: seq<Event>)
    ensures Run(a, before + after) == Run(Run(a, before), after)
    ensures Allowed(a, before + after) == Allowed(a, before) + Allowed(Run(a, before), after)
    decreases |before|
  {
    if before == [] {
      assert before + after == after;
    } else {
      assert (before + after)[1..] == before[1..] + after;
      RunSplit(Step(a, before[0]), before[1..], after);
    }
  }
}

/** The token bucket's laws over whole traces. */
module RateLimit {
  import opened Accounts

  lemma GainLaws(rpm: int, x: real, y: real)
    requires rpm >= 0 && 0.0 <= x && 0.0 <= y
    ensures Gain(rpm, x + y) == Gain(rpm, x) + Gain(rpm, y)
    ensures 0.0 <= Gain(rpm, x)
    ensures x <= y ==> Gain(rpm, x) <= Gain(rpm, y)
  {
    var r := rpm as real / 60.0;
    assert (x + y) * r == x * r + y * r;
    assert 0.0 <= x * r;
    if x <= y {
      assert y * r == x * r + (y - x) * r && 0.0 <= (y - x) * r;
    }
  }

  /** Moving the clock changes what the bucket would hold by at most the gain of the movement. */
  lemma LevelMoves(a: Account, clock: real, now: real)
    requires a.cfg.rpm > 0 && InRange(a)
    ensures 0.0 <= Level(a, now) <= a.cfg.rpm as real
    ensures Level(a, now) <= Level(a, clock) + Gain(a.cfg.rpm, Elapsed(clock, now))
  {
    var p, q, s := Elapsed(a.lastFill, clock), Elapsed(clock, now), Elapsed(a.lastFill, now);
    GainLaws(a.cfg.rpm, p, q);
    GainLaws(a.cfg.rpm, s, p + q);
    GainLaws(a.cfg.rpm, q, s);
  }

  /** A check pays for what it takes: the level it leaves, plus one token if it said Allow. */
  lemma CheckPays(a: Account, model: string, clock: real, now: real)
    requires a.cfg.rpm > 0 && InRange(a)
    ensures var (b, d) := Check(a, model, now);
      && b.cfg == a.cfg && InRange(b)
      && Level(b, now) + (if d == Allow then 1.0 else 0.0)
         <= Level(a, clock) + Gain(a.cfg.rpm, Elapsed(clock, now))
  {
    LevelMoves(a, clock, now);
    var b := Check(a, model, now).0;
    GainLaws(a.cfg.rpm, 0.0, 0.0);
    assert b.lastFill == now ==> Gain(b.cfg.rpm, Elapsed(b.lastFill, now)) == 0.0;
  }

  /** Conservation along any trace, clock steps backwards included. */
  lemma {:induction false} TraceConservation(a: Account, clock: real, events: seq<Event>)
    requires a.cfg.rpm > 0 && InRange(a)
    ensures Run(a, events).cfg == a.cfg && InRange(Run(a, events))
    ensures 0.0 <= Forward(clock, events)
    ensures Allowed(a, events) as real + Level(Run(a, events), LastReading(clock, events))
         <= Level(a, clock) + Gain(a.cfg.rpm, Forward(clock, events))
    decreases |events|
  {
    if events == [] {
      GainLaws(a.cfg.rpm, 0.0, 0.0);
    } else {
      var b, rest := Step(a, events[0]), events[1..];
      match events[0]
      case Ask(model, now) =>
        CheckPays(a, model, clock, now);
        TraceConservation(b, now, rest);
        GainLaws(a.cfg.rpm, Elapsed(clock, now), Forward(now, rest));
      case Spend(amount) =>
        TraceConservation(b, clock, rest);
    }
  }

  /** The rate bound: whatever happened before, in any window of the trace at most
      rpm + rpm * D / 60 checks are allowed, D being the clock's forward movement in the window. */
  lemma WindowBound(a: Account, clock: real, before: seq<Event>, window: seq<Event>)
    requires a.cfg.rpm > 0 && InRange(a)
    ensures InRange(Run(a, before)) && InRange(Run(a, before + window))
    ensures Allowed(a, before + window) - Allowed(a, before) == Allowed(Run(a, before), window)
    ensures Allowed(Run(a, before), window) as real
         <= a.cfg.rpm as real + Gain(a.cfg.rpm, Forward(LastReading(clock, before), window))
  {
    var start, reading := Run(a, before), LastReading(clock, before);
    TraceConservation(a, clock, before);
    TraceConservation(start, reading, window);
    RunSplit(a, before, window);
    LevelMoves(start, reading, reading);
    var last := LastReading(reading, window);
    LevelMoves(Run(start, window), last, last);
  }

  /** `n` checks at one instant. */
  function Burst(model: string, now: real, n: nat): seq<Event> {
    seq(n, _ => Ask(model, now))
  }

  /** The bound is met: of `n` checks at one instant, a bucket allows exactly as many as it
      holds whole tokens. */
  lemma {:induction false} BurstIsExact(a: Account, model: string, now: real, n: nat)
    requires a.cfg.rpm > 0 && InRange(a) && ModelAllowed(a, model) && !OverBudget(a)
    ensures Allowed(a, Burst(model, now, n))
         == var whole := Level(a, now).Floor; if n < whole then n else whole
    decreases n
  {
    LevelMoves(a, now, now);
    if n > 0 {
      var b := Check(a, model, now).0;
      GainLaws(a.cfg.rpm, 0.0, 0.0);
      assert Gain(b.cfg.rpm, Elapsed(b.lastFill, now)) == 0.0;
      assert Burst(model, now, n)[1..] == Burst(model, now, n - 1);
      assert Step(a, Burst(model, now, n)[0]) == b;
      BurstIsExact(b, model, now, n - 1);
    }
  }

  /** Two accounts that differ at most in when their buckets were last filled. */
  ghost predicate SameFrom(a: Account, b: Account, clock: real) {
    && a.cfg == b.cfg && a.spent == b.spent && a.requests == b.requests
    && forall t :: clock <= t ==> Level(a, t) == Level(b, t)
  }

  /** Refilling at `t` and again at `u` equals refilling once at `u`, the cap included. */
  lemma RefillInTwoSteps(a: Account, t: real, u: real)
    requires a.cfg.rpm > 0 && InRange(a) && a.lastFill <= t <= u
    ensures Level(a.(tokens := Level(a, t), lastFill := t), u) == Level(a, u)
  {
    GainLaws(a.cfg.rpm, t - a.lastFill, u - t);
    assert (t - a.lastFill) + (u - t) == u - a.lastFill;
  }

  lemma SameFromAsk(a: Account, b: Account, clock: real, model: string, now: real)
    requires SameFrom(a, b, clock) && clock <= now
    ensures Check(a, model, now).1 == Check(b, model, now).1
    ensures SameFrom(Check(a, model, now).0, Check(b, model, now).0, now)
  {
    assert Level(a, now) == Level(b, now);
    if a.cfg.rpm <= 0 && ModelAllowed(a, model) && !OverBudget(a) {
      LevelIsBucketOnly(a, Check(a, model, now).0);
      LevelIsBucketOnly(b, Check(b, model, now).0);
    }
  }

  lemma SameFromSpend(a: Account, b: Account, clock: real, amount: int)
    requires SameFrom(a, b, clock)
    ensures SameFrom(Record(a, amount), Record(b, amount), clock)
  {
    LevelIsBucketOnly(a, Record(a, amount));
    LevelIsBucketOnly(b, Record(b, amount));
  }

  lemma LevelIsBucketOnly(a: Account, b: Account)
    requires a.cfg == b.cfg && a.tokens == b.tokens && a.lastFill == b.lastFill
    ensures forall t :: Level(a, t) == Level(b, t)
  {
  }

  lemma {:induction false} SameFromRuns(a: Account, b: Account, clock: real, events: seq<Event>)
    requires SameFrom(a, b, clock) && Nondecreasing(clock, events)
    ensures Decisions(a, events) == Decisions(b, events)
    ensures SameFrom(Run(a, events), Run(b, events), LastReading(clock, events))
    decreases |events|
  {
    if events != [] {
      match events[0]
      case Ask(model, now) =>
        SameFromAsk(a, b, clock, model, now);
        SameFromRuns(Check(a, model, now).0, Check(b, model, now).0, now, events[1..]);
      case Spend(amount) =>
        SameFromSpend(a, b, clock, amount);
        SameFromRuns(Record(a, amount), Record(b, amount), clock, events[1..]);
    }
  }

  lemma {:induction false} TraceSplit(a: Account, clock: real, before: seq<Event>, after: seq<Event>)
    ensures Decisions(a, before + after) == Decisions(a, before) + Decisions(Run(a, before), after)
    ensures LastReading(clock, before + after) == LastReading(LastReading(clock, before), after)
    ensures Nondecreasing(clock, before + after) ==>
        Nondecreasing(clock, before) && Nondecreasing(LastReading(clock, before), after)
    decreases |before|
  {
    if before == [] {
      assert before + after == after;
    } else {
      assert (before + after)[1..] == before[1..] + after;
      var next := if before[0].Ask? then before[0].now else clock;
      TraceSplit(Step(a, before[0]), next, before[1..], after);
    }
  }

  lemma {:induction false} FilledInThePast(a: Account, clock: real, events: seq<Event>)
    requires a.cfg.rpm > 0 && InRange(a) && a.lastFill <= clock && Nondecreasing(clock, events)
    ensures Run(a, events).cfg == a.cfg && InRange(Run(a, events))
    ensures Run(a, events).lastFill <= LastReading(clock, events)
    decreases |events|
  {
    if events != [] {
      match events[0]
      case Ask(model, now) =>
        LevelMoves(a, now, now);
        FilledInThePast(Check(a, model, now).0, now, events[1..]);
      case Spend(amount) =>
        FilledInThePast(Record(a, amount), clock, events[1..]);
    }
  }

  lemma DeniedOnlyRefills(a: Account, model: string, now: real)
    requires Check(a, model, now).1 == DenyRateLimited
    ensures Check(a, model, now).0 == a.(tokens := Level(a, now), lastFill := now)
  {
  }

  /** Under a clock that never steps back, inserting a check that is rate limited anywhere in a
      trace changes no other decision, and nothing any later check could observe. */
  lemma DeniedCheckIsTransparent(a: Account, clock: real, before: seq<Event>, model: string, now: real,
                                 after: seq<Event>)
    requires a.cfg.rpm > 0 && InRange(a) && a.lastFill <= clock
    requires Nondecreasing(clock, before + [Ask(model, now)] + after)
    requires Check(Run(a, before), model, now).1 == DenyRateLimited
    ensures var with, without := before + [Ask(model, now)] + after, before + after;
      && Decisions(a, with) == Decisions(a, before) + [DenyRateLimited] + Decisions(Run(a, before), after)
      && Decisions(a, without) == Decisions(a, before) + Decisions(Run(a, before), after)
      && SameFrom(Run(a, with), Run(a, without), LastReading(clock, with))
  {
    hide Check, Level, InRange, Allowed;
    var start, tail := Run(a, before), [Ask(model, now)] + after;
    assert before + [Ask(model, now)] + after == before + tail;
    TraceSplit(a, clock, before, tail);
    TraceSplit(a, clock, before, after);
    RunSplit(a, before, tail);
    RunSplit(a, before, after);
    FilledInThePast(a, clock, before);
    var denied := Check(start, model, now).0;
    DeniedOnlyRefills(start, model, now);
    assert tail[1..] == after && Step(start, tail[0]) == denied;
    forall t | now <= t ensures Level(denied, t) == Level(start, t) {
      RefillInTwoSteps(start, now, t);
    }
    SameFromRuns(denied, start, now, after);
  }

  /** Consecutive checks are at least 60 / rpm seconds apart. */
  predicate Spaced(rpm: int, clock: real, events: seq<Event>)
    requires rpm > 0
    decreases |events|
  {
    events == [] ||
    (match events[0]
     case Ask(_, now) => now - clock >= 60.0 / rpm as real && Spaced(rpm, now, events[1..])
     case Spend(_) => Spaced(rpm, clock, events[1..]))
  }

  /** A client that leaves 60 / rpm seconds between its checks is never rate limited: its only
      denials are about models and budget. */
  lemma {:induction false} SpacedClientIsServed(a: Account, clock: real, events: seq<Event>)
    requires a.cfg.rpm > 0 && InRange(a) && a.lastFill <= clock
    requires Spaced(a.cfg.rpm, clock, events)
    ensures DenyRateLimited !in Decisions(a, events)
    decreases |events|
  {
    if events != [] {
      var e, rest := events[0], events[1..];
      match e
      case Ask(model, now) =>
        var gap := 60.0 / a.cfg.rpm as real;
        assert Gain(a.cfg.rpm, gap) == 1.0 by {
          assert gap * (a.cfg.rpm as real / 60.0) == 1.0;
        }
        assert gap > 0.0;
        GainLaws(a.cfg.rpm, gap, Elapsed(a.lastFill, now));
        assert Level(a, now) >= 1.0;
        LevelMoves(a, now, now);
        SpacedClientIsServed(Step(a, e), now, rest);
      case Spend(amount) =>
        SpacedClientIsServed(Step(a, e), clock, rest);
    }
  }

  /** The first check comes at any time, the following ones are at least 60 / rpm seconds apart. */
  predicate SpacedFromFirst(rpm: int, clock: real, events: seq<Event>)
    requires rpm > 0
    decreases |events|
  {
    events == [] ||
    (match events[0]
     case Ask(_, now) => clock <= now && Spaced(rpm, now, events[1..])
     case Spend(_) => SpacedFromFirst(rpm, clock, events[1..]))
  }

  /** The same from the instant an account is opened: its first check may come at once. */
  lemma {:induction false} NewClientIsServed(cfg: VirtualKey, opening: real, spent: int, events: seq<Event>)
    requires cfg.rpm > 0 && SpacedFromFirst(cfg.rpm, opening, events)
    ensures DenyRateLimited !in Decisions(Open(cfg, opening, spent), events)
    decreases |events|
  {
    if events != [] {
      var a := Open(cfg, opening, spent);
      match events[0]
      case Ask(model, now) =>
        GainLaws(cfg.rpm, 0.0, Elapsed(opening, now));
        LevelMoves(a, now, now);
        SpacedClientIsServed(Step(a, events[0]), now, events[1..]);
      case Spend(amount) =>
        NewClientIsServed(cfg, opening, Record(a, amount).spent, events[1..]);
    }
  }
}

/** Spend: conservation, and how far concurrent requests can overshoot a budget. */
module Budget {
  import opened Common
  import opened Accounts

  function Positive(n: int): nat { if n > 0 then n else 0 }

  function Recorded(events: seq<Event>): nat {
    if events == [] then 0
    else (if events[0].Spend? then Positive(events[0].amount) else 0) + Recorded(events[1..])
  }

  /** Spend is the initial value plus exactly the positive amounts recorded; checks cost nothing. */
  lemma {:induction false} SpendConservation(a: Account, events: seq<Event>)
    ensures Run(a, events).spent == a.spent + Recorded(events)
    ensures Run(a, events).cfg == a.cfg
    decreases |events|
  {
    if events != [] {
      SpendConservation(Step(a, events[0]), events[1..]);
    }
  }

  /** An account together with the number of its requests that were allowed and have neither
      been recorded nor failed. */
  datatype Flight = Flight(account: Account, inFlight: nat)

  datatype Move =
    | Begin(model: string, now: real)  // Authorize
    | Finish(amount: int)              // RecordSpend
    | Fail                             // the request ended without a record

  predicate Possible(f: Flight, m: Move) {
    m.Begin? || f.inFlight > 0
  }

  function Next(f: Flight, m: Move): Flight
    requires Possible(f, m)
  {
    match m
    case Begin(model, now) =>
      var (b, d) := Check(f.account, model, now);
      Flight(b, if d == Allow then f.inFlight + 1 else f.inFlight)
    case Finish(amount) => Flight(Record(f.account, amount), f.inFlight - 1)
    case Fail => f.(inFlight := f.inFlight - 1)
  }

  /** A schedule with at most `k` requests in flight, each costing at most `c`. */
  ghost predicate Schedule(f: Flight, moves: seq<Move>, k: nat, c: nat)
    decreases |moves|
  {
    f.inFlight <= k &&
    (moves == [] ||
     (Possible(f, moves[0]) && (moves[0].Finish? ==> moves[0].amount <= c) &&
      Schedule(Next(f, moves[0]), moves[1..], k, c)))
  }

  ghost function Fly(f: Flight, moves: seq<Move>, k: nat, c: nat): Flight
    requires Schedule(f, moves, k, c)
    decreases |moves|
  {
    if moves == [] then f else Fly(Next(f, moves[0]), moves[1..], k, c)
  }

  /** What is spent or may still be spent by requests in flight stays below the overshoot limit. */
  lemma {:induction false} FlightBound(f: Flight, moves: seq<Move>, k: nat, c: nat, limit: int)
    requires f.account.cfg.maxTokens > 0 && Schedule(f, moves, k, c)
    requires limit >= f.account.cfg.maxTokens - 1 + k * c
    requires f.account.spent + f.inFlight * c <= limit
    ensures var g := Fly(f, moves, k, c); g.account.spent + g.inFlight * c <= limit
    decreases |moves|
  {
    if moves != [] {
      var g := Next(f, moves[0]);
      assert g.inFlight * c <= k * c;
      assert g.inFlight == f.inFlight - 1 ==> g.inFlight * c == f.inFlight * c - c;
      FlightBound(g, moves[1..], k, c, limit);
    }
  }

  /** With at most k allowed but unrecorded requests, each costing at most c, spend never
      exceeds max(initial spend, maxTokens - 1 + k * c). */
  lemma BudgetOvershoot(a: Account, moves: seq<Move>, k: nat, c: nat)
    requires a.cfg.maxTokens > 0 && Schedule(Flight(a, 0), moves, k, c)
    ensures Fly(Flight(a, 0), moves, k, c).account.spent <= Max(a.spent, a.cfg.maxTokens - 1 + k * c)
  {
    var limit := Max(a.spent, a.cfg.maxTokens - 1 + k * c);
    FlightBound(Flight(a, 0), moves, k, c, limit);
    var g := Fly(Flight(a, 0), moves, k, c);
    assert 0 <= g.inFlight * c;
  }

  function BeginsThenFinishes(model: string, now: real, begins: nat, c: nat, finishes: nat): seq<Move> {
    seq(begins, _ => Begin(model, now)) + seq(finishes, _ => Finish(c))
  }

  /** The overshoot limit is met: without a rate limit, k requests that all begin just below the
      budget and then all cost c bring the spend to exactly maxTokens - 1 + k * c. */
  lemma {:induction false} OvershootIsReached(f: Flight, model: string, now: real, begins: nat, k: nat, c: nat)
    requires f.account.cfg.rpm <= 0 && f.account.cfg.maxTokens > 0 && ModelAllowed(f.account, model)
    requires f.inFlight + begins == k && c > 0
    requires f.account.spent == f.account.cfg.maxTokens - 1
    ensures Schedule(f, BeginsThenFinishes(model, now, begins, c, k), k, c)
    ensures Fly(f, BeginsThenFinishes(model, now, begins, c, k), k, c).account.spent
         == f.account.cfg.maxTokens - 1 + k * c
    decreases begins
  {
    var moves := BeginsThenFinishes(model, now, begins, c, k);
    if begins > 0 {
      assert moves[1..] == BeginsThenFinishes(model, now, begins - 1, c, k);
      OvershootIsReached(Next(f, moves[0]), model, now, begins - 1, k, c);
    } else {
      assert moves == seq(k, _ => Finish(c));
      AllFinish(f, k, c, k);
    }
  }

  lemma {:induction false} AllFinish(f: Flight, k: nat, c: nat, n: nat)
    requires f.inFlight == n <= k && c > 0
    ensures Schedule(f, seq(n, _ => Finish(c)), k, c)
    ensures Fly(f, seq(n, _ => Finish(c)), k, c).account.spent == f.account.spent + n * c
    decreases n
  {
    if n > 0 {
      var moves := seq(n, _ => Finish(c));
      assert moves[1..] == seq(n - 1, _ => Finish(c));
      AllFinish(Next(f, moves[0]), k, c, n - 1);
    }
  }
}
