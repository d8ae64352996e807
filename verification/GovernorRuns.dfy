/** Whole runs of the governor: every identity lives as if it were alone, its rate bound holds
    under any interleaving, and its spend survives a restart. */
module GovernorRuns {
  import opened Common
  import opened Accounts
  import opened Governance
  import RateLimit
  import Budget
  import Store

  datatype Call =
    | Authorize(at: nat, token: string, model: string, now: real)
    | RecordSpend(billingID: string, amount: int)

  function Do(r: Rules, b: Books, c: Call): Books {
    match c
    case Authorize(at, token, model, now) => Admit(r, b, at, token, model, now).0
    case RecordSpend(billingID, amount) => Charge(r, b, billingID, amount)
  }

  function DoAll(r: Rules, b: Books, calls: seq<Call>): Books
    decreases |calls|
  {
    if calls == [] then b else DoAll(r, Do(r, b, calls[0]), calls[1..])
  }

  /** What a call means to one identity. */
  function Part(r: Rules, c: Call, id: Identity): seq<Event> {
    if !r.enabled then []
    else match c
      case Authorize(at, token, model, now) => if Speaker(r, at, token) == Some(id) then [Ask(model, now)] else []
      case RecordSpend(billingID, amount) =>
        if billingID != "" && BilledTo(billingID) == id then [Spend(amount)] else []
  }

  function Project(r: Rules, calls: seq<Call>, id: Identity): seq<Event> {
    if calls == [] then [] else Part(r, calls[0], id) + Project(r, calls[1..], id)
  }

  /** How many calls of a run were Authorize calls of this identity answered Allow. */
  function Grants(r: Rules, b: Books, calls: seq<Call>, id: Identity): nat
    decreases |calls|
  {
    if calls == [] then 0
    else
      var c := calls[0];
      (if c.Authorize? && Speaker(r, c.at, c.token) == Some(id)
          && Admit(r, b, c.at, c.token, c.model, c.now).1.decision == Allow
       then 1 else 0) + Grants(r, Do(r, b, c), calls[1..], id)
  }

  lemma DoOthers(r: Rules, b: Books, c: Call, id: Identity)
    requires r.enabled && Part(r, c, id) == []
    ensures Find(Do(r, b, c), id) == Find(b, id)
  {
  }

  /** One call acts on an existing account exactly as its projected event does. */
  lemma DoOne(r: Rules, b: Books, c: Call, id: Identity)
    requires r.enabled && Find(b, id).Some?
    ensures var a := Find(b, id).value; var part := Part(r, c, id);
      Find(Do(r, b, c), id) == Some(if part == [] then a else Step(a, part[0]))
  {
    if Part(r, c, id) == [] {
      DoOthers(r, b, c, id);
    }
  }

  /** Isolation: under any interleaving of calls, an account that exists evolves, and is granted
      requests, exactly as it would under its own calls alone. */
  lemma {:induction false} Isolation(r: Rules, b: Books, calls: seq<Call>, id: Identity)
    requires r.enabled && Find(b, id).Some?
    ensures Find(DoAll(r, b, calls), id) == Some(Run(Find(b, id).value, Project(r, calls, id)))
    ensures Grants(r, b, calls, id) == Allowed(Find(b, id).value, Project(r, calls, id))
    decreases |calls|
  {
    if calls != [] {
      var a, part := Find(b, id).value, Part(r, calls[0], id);
      DoOne(r, b, calls[0], id);
      Isolation(r, Do(r, b, calls[0]), calls[1..], id);
      if part != [] {
        var all := part + Project(r, calls[1..], id);
        assert all[0] == part[0] && all[1..] == Project(r, calls[1..], id);
      } else {
        assert part + Project(r, calls[1..], id) == Project(r, calls[1..], id);
      }
    }
  }

  /** The rate bound for one identity of a running governor, in any window and under any
      interleaving with other identities and with spend records. */
  lemma IdentityRateBound(r: Rules, b: Books, clock: real, before: seq<Call>, window: seq<Call>, id: Identity)
    requires r.enabled && Find(b, id).Some?
    requires var a := Find(b, id).value; a.cfg.rpm > 0 && InRange(a)
    ensures var rpm := Find(b, id).value.cfg.rpm;
      var reading := LastReading(clock, Project(r, before, id));
      Grants(r, DoAll(r, b, before), window, id) as real
        <= rpm as real + Gain(rpm, Forward(reading, Project(r, window, id)))
  {
    var a := Find(b, id).value;
    Isolation(r, b, before, id);
    Isolation(r, DoAll(r, b, before), window, id);
    RateLimit.WindowBound(a, clock, Project(r, before, id), Project(r, window, id));
  }

  /** A subject's first authenticated call opens its account with a full bucket; from that call on
      its rate bound holds with the configured default. */
  lemma SubjectRateBound(r: Rules, b: Books, calls: seq<Call>, sub: string)
    requires r.enabled && r.oidcRpm > 0 && sub !in b.dyn
    requires calls != [] && calls[0].Authorize? && Speaker(r, calls[0].at, calls[0].token) == Some(Subject(sub))
    ensures Grants(r, b, calls, Subject(sub)) as real
         <= r.oidcRpm as real + Gain(r.oidcRpm, Forward(calls[0].now, Project(r, calls, Subject(sub))))
  {
    var seeded := Put(b, Subject(sub), r.OpenSubject(sub, calls[0].now));
    assert Do(r, seeded, calls[0]).dyn == Do(r, b, calls[0]).dyn;
    assert Do(r, seeded, calls[0]) == Do(r, b, calls[0]);
    assert Grants(r, seeded, calls, Subject(sub)) == Grants(r, b, calls, Subject(sub));
    IdentityRateBound(r, seeded, calls[0].now, [], calls, Subject(sub));
  }

  /** Every account held is in range, and subjects have the configured default limit. */
  ghost predicate Bounded(r: Rules, b: Books) {
    && (forall id :: Find(b, id).Some? ==> InRange(Find(b, id).value))
    && (forall sub :: sub in b.dyn ==> b.dyn[sub].cfg.rpm == r.oidcRpm)
  }

  lemma StepKeepsLimits(a: Account, e: Event)
    requires InRange(a)
    ensures Step(a, e).cfg == a.cfg && InRange(Step(a, e))
  {
    if a.cfg.rpm > 0 && e.Ask? {
      RateLimit.CheckPays(a, e.model, e.now, e.now);
    }
  }

  lemma DoKeepsBounded(r: Rules, b: Books, c: Call)
    requires r.enabled && Bounded(r, b)
    ensures Bounded(r, Do(r, b, c))
  {
    var after := Do(r, b, c);
    forall id | Find(after, id).Some?
      ensures InRange(Find(after, id).value) && (id.Subject? ==> Find(after, id).value.cfg.rpm == r.oidcRpm)
    {
      if Find(b, id).Some? {
        DoOne(r, b, c, id);
        if Part(r, c, id) != [] {
          StepKeepsLimits(Find(b, id).value, Part(r, c, id)[0]);
        }
      } else {
        assert id.Subject? && c.Authorize? && Speaker(r, c.at, c.token) == Some(id);
        StepKeepsLimits(r.OpenSubject(id.sub, c.now), Ask(c.model, c.now));
      }
    }
    forall sub | sub in after.dyn ensures after.dyn[sub].cfg.rpm == r.oidcRpm {
      assert Find(after, Subject(sub)).Some?;
    }
  }

  lemma {:induction false} DoAllKeepsBounded(r: Rules, b: Books, calls: seq<Call>)
    requires r.enabled && Bounded(r, b)
    ensures Bounded(r, DoAll(r, b, calls))
    decreases |calls|
  {
    if calls != [] {
      DoKeepsBounded(r, b, calls[0]);
      DoAllKeepsBounded(r, Do(r, b, calls[0]), calls[1..]);
    }
  }

  /** A subject in any run, whether or not it has been seen before. */
  lemma {:induction false} AnySubjectBound(r: Rules, b: Books, clock: real, calls: seq<Call>, sub: string)
    requires r.enabled && r.oidcRpm > 0 && Bounded(r, b)
    ensures Grants(r, b, calls, Subject(sub)) as real
         <= r.oidcRpm as real + Gain(r.oidcRpm, Forward(clock, Project(r, calls, Subject(sub))))
    decreases |calls|
  {
    var id := Subject(sub);
    if sub in b.dyn {
      assert Find(b, id).Some?;
      IdentityRateBound(r, b, clock, [], calls, id);
    } else if calls == [] {
      RateLimit.GainLaws(r.oidcRpm, 0.0, 0.0);
    } else {
      var c, rest := calls[0], Project(r, calls[1..], id);
      if c.Authorize? && Speaker(r, c.at, c.token) == Some(id) {
        SubjectRateBound(r, b, calls, sub);
        var all := Project(r, calls, id);
        assert all == [Ask(c.model, c.now)] + rest && all[1..] == rest;
        ForwardIsPositive(c.now, rest);
        RateLimit.GainLaws(r.oidcRpm, Elapsed(clock, c.now), Forward(c.now, rest));
      } else {
        DoKeepsBounded(r, b, c);
        AnySubjectBound(r, Do(r, b, c), clock, calls[1..], sub);
        var part := Part(r, c, id);
        if part != [] {
          assert (part + rest)[0] == part[0] && (part + rest)[1..] == rest;
        } else {
          assert part + rest == rest;
        }
      }
    }
  }

  lemma {:induction false} ForwardIsPositive(clock: real, events: seq<Event>)
    ensures Forward(clock, events) >= 0.0
    decreases |events|
  {
    if events != [] {
      ForwardIsPositive(if events[0].Ask? then events[0].now else clock, events[1..]);
    }
  }

  /** The configured limit of an identity: its key's, or the default of all subjects. */
  function Limit(r: Rules, accts: map<string, Account>, id: Identity): int {
    match id
    case Static(secret) => if secret in accts then accts[secret].cfg.rpm else 0
    case Subject(_) => r.oidcRpm
  }

  /** The rate bound of every identity with a limit: a governor started from any configuration, any
      calls before, and any window of calls. */
  lemma EveryRateBound(r: Rules, vks: seq<VirtualKey>, t: real, clock: real, before: seq<Call>, window: seq<Call>,
                       id: Identity)
    requires r.enabled && Limit(r, OpenAll(vks, t, r), id) > 0
    ensures var start, rpm := Books(OpenAll(vks, t, r), map[]), Limit(r, OpenAll(vks, t, r), id);
      var reading := LastReading(clock, Project(r, before, id));
      Grants(r, DoAll(r, start, before), window, id) as real
        <= rpm as real + Gain(rpm, Forward(reading, Project(r, window, id)))
  {
    var start := Books(OpenAll(vks, t, r), map[]);
    OpenAllKeeps(vks, t, r, t, r);
    assert Bounded(r, start);
    match id
    case Static(secret) =>
      assert Find(start, id).Some?;
      IdentityRateBound(r, start, clock, before, window, id);
    case Subject(sub) =>
      DoAllKeepsBounded(r, start, before);
      AnySubjectBound(r, DoAll(r, start, before), LastReading(clock, Project(r, before, id)), window, sub);
  }

  /** Spend is per identity and exact: only this identity's positive records are added to it. */
  lemma IdentitySpend(r: Rules, b: Books, calls: seq<Call>, id: Identity)
    requires r.enabled && Find(b, id).Some?
    ensures var after := Find(DoAll(r, b, calls), id);
      after.Some? && after.value.spent == Find(b, id).value.spent + Budget.Recorded(Project(r, calls, id))
  {
    Isolation(r, b, calls, id);
    Budget.SpendConservation(Find(b, id).value, Project(r, calls, id));
  }

  // ---- overshoot ----

  /** What happens around a governor: a call of it, or a request of an identity that ends without a
      record. */
  datatype Happening = Called(call: Call) | Dropped(id: Identity)

  function CallsOf(hs: seq<Happening>): seq<Call> {
    if hs == [] then [] else (if hs[0].Called? then [hs[0].call] else []) + CallsOf(hs[1..])
  }

  /** What it all means to the requests of one identity. */
  function MovesOf(r: Rules, hs: seq<Happening>, id: Identity): seq<Budget.Move> {
    if hs == [] then [] else MovesFrom(r, hs[0], id) + MovesOf(r, hs[1..], id)
  }

  function MovesFrom(r: Rules, h: Happening, id: Identity): seq<Budget.Move> {
    if h.Called? then Moves(Part(r, h.call, id)) else if h.id == id then [Budget.Fail] else []
  }

  function Moves(part: seq<Event>): seq<Budget.Move> {
    if part == [] then []
    else match part[0]
      case Ask(model, now) => [Budget.Begin(model, now)]
      case Spend(amount) => [Budget.Finish(amount)]
  }

  lemma Unfolds(r: Rules, hs: seq<Happening>, id: Identity)
    requires hs != []
    ensures MovesOf(r, hs, id) == MovesFrom(r, hs[0], id) + MovesOf(r, hs[1..], id)
    ensures Project(r, CallsOf(hs), id)
         == (if hs[0].Called? then Part(r, hs[0].call, id) else []) + Project(r, CallsOf(hs[1..]), id)
  {
    hide Part, MovesFrom;
    var calls := CallsOf(hs[1..]);
    if hs[0].Called? {
      assert CallsOf(hs) == [hs[0].call] + calls && ([hs[0].call] + calls)[1..] == calls;
    } else {
      assert [] + calls == calls && [] + Project(r, calls, id) == Project(r, calls, id);
    }
  }

  lemma Nothing(r: Rules, id: Identity)
    ensures MovesOf(r, [], id) == [] && Project(r, CallsOf([]), id) == []
  {
  }

  lemma NextIsStep(f: Budget.Flight, part: seq<Event>)
    requires |part| == 1 && Budget.Possible(f, Moves(part)[0])
    ensures Budget.Next(f, Moves(part)[0]).account == Step(f.account, part[0])
  {
  }

  lemma AtMostOnePart(r: Rules, c: Call, id: Identity)
    ensures |Part(r, c, id)| <= 1
  {
  }

  lemma {:induction false} FlightFollows(r: Rules, hs: seq<Happening>, id: Identity, f: Budget.Flight, k: nat, c: nat)
    requires Budget.Schedule(f, MovesOf(r, hs, id), k, c)
    ensures Budget.Fly(f, MovesOf(r, hs, id), k, c).account == Run(f.account, Project(r, CallsOf(hs), id))
    decreases |hs|
  {
    hide Part, Check, Record, MovesOf, CallsOf, Project, Step;
    if hs == [] {
      Nothing(r, id);
    } else {
      Unfolds(r, hs, id);
      var moves, rest := MovesOf(r, hs, id), MovesOf(r, hs[1..], id);
      var part := if hs[0].Called? then Part(r, hs[0].call, id) else [];
      var events := Project(r, CallsOf(hs[1..]), id);
      if hs[0].Called? {
        AtMostOnePart(r, hs[0].call, id);
      }
      if MovesFrom(r, hs[0], id) == [] {
        assert [] + rest == rest && part + events == events;
        FlightFollows(r, hs[1..], id, f, k, c);
      } else {
        assert moves[1..] == rest;
        if part == [] {
          assert part + events == events;
        } else {
          assert (part + events)[0] == part[0] && (part + events)[1..] == events;
          NextIsStep(f, part);
        }
        FlightFollows(r, hs[1..], id, Budget.Next(f, moves[0]), k, c);
      }
    }
  }

  /** The overshoot bound for one identity of a running governor, under any interleaving with the
      others: with at most k of its requests allowed and unrecorded, each costing at most c. */
  lemma IdentityOvershoot(r: Rules, b: Books, hs: seq<Happening>, id: Identity, k: nat, c: nat)
    requires r.enabled && Find(b, id).Some? && Find(b, id).value.cfg.maxTokens > 0
    requires Budget.Schedule(Budget.Flight(Find(b, id).value, 0), MovesOf(r, hs, id), k, c)
    ensures var a, after := Find(b, id).value, Find(DoAll(r, b, CallsOf(hs)), id);
      after.Some? && after.value.spent <= Max(a.spent, a.cfg.maxTokens - 1 + k * c)
  {
    var a := Find(b, id).value;
    FlightFollows(r, hs, id, Budget.Flight(a, 0), k, c);
    Budget.BudgetOvershoot(a, MovesOf(r, hs, id), k, c);
    Isolation(r, b, CallsOf(hs), id);
  }

  /** The same for a subject from its first authenticated call on, with the configured default. */
  lemma SubjectOvershoot(r: Rules, b: Books, hs: seq<Happening>, sub: string, k: nat, c: nat)
    requires r.enabled && r.oidcMaxTokens > 0 && sub !in b.dyn
    requires hs != [] && hs[0].Called? && hs[0].call.Authorize?
    requires Speaker(r, hs[0].call.at, hs[0].call.token) == Some(Subject(sub))
    requires var a := r.OpenSubject(sub, hs[0].call.now);
      Budget.Schedule(Budget.Flight(a, 0), MovesOf(r, hs, Subject(sub)), k, c)
    ensures var after := Find(DoAll(r, b, CallsOf(hs)), Subject(sub));
      after.Some? && after.value.spent <= Max(r.Loaded(OIDC + sub), r.oidcMaxTokens - 1 + k * c)
  {
    var call := hs[0].call;
    var seeded := Put(b, Subject(sub), r.OpenSubject(sub, call.now));
    assert Do(r, seeded, call).dyn == Do(r, b, call).dyn;
    assert Do(r, seeded, call) == Do(r, b, call);
    assert CallsOf(hs)[0] == call;
    IdentityOvershoot(r, seeded, hs, Subject(sub), k, c);
  }

  // ---- restart ----

  /** Accounts that share a name have spent the same. */
  ghost predicate NamesAgree(b: Books) {
    forall i, j {:trigger Find(b, i), Find(b, j)} ::
      Find(b, i).Some? && Find(b, j).Some? && Find(b, i).value.cfg.name == Find(b, j).value.cfg.name
      ==> Find(b, i).value.spent == Find(b, j).value.spent
  }

  /** A restart over a flushed snapshot resumes the spend of every live identity if and only if
      accounts that share a name have spent the same. */
  lemma RestartResumes(r: Rules, b: Books, spend: map<string, int>)
    requires IsSnapshot(b, spend)
    ensures NamesAgree(b) <==>
      forall id :: Find(b, id).Some? ==>
        r.(loaded := spend).Loaded(Find(b, id).value.cfg.name) == Find(b, id).value.spent
  {
    if NamesAgree(b) {
      forall id | Find(b, id).Some?
        ensures r.(loaded := spend).Loaded(Find(b, id).value.cfg.name) == Find(b, id).value.spent
      {
        var name := Find(b, id).value.cfg.name;
        var other :| Holds(b, other, name, spend[name]);
        assert Find(b, other).Some?;
      }
    }
  }

  /** The configuration a set of static accounts was opened from. */
  lemma {:induction false} OpenAllKeeps(vks: seq<VirtualKey>, t: real, r: Rules, u: real, s: Rules)
    ensures OpenAll(vks, t, r).Keys == OpenAll(vks, u, s).Keys
    ensures forall k :: k in OpenAll(vks, t, r) ==> OpenAll(vks, t, r)[k].cfg == OpenAll(vks, u, s)[k].cfg
    ensures forall k :: k in OpenAll(vks, t, r) ==>
      OpenAll(vks, t, r)[k].spent == r.Loaded(OpenAll(vks, t, r)[k].cfg.name) && InRange(OpenAll(vks, t, r)[k])
    decreases |vks|
  {
    if vks != [] {
      OpenAllKeeps(vks[..|vks| - 1], t, r, u, s);
    }
  }

  // ---- which configurations keep names apart ----

  /** Names in a configuration that lead to one account each: different secrets have different names,
      and no key bears the name of a subject that some token can speak for. */
  ghost predicate Careful(r: Rules, accts: map<string, Account>) {
    && (forall k, l :: k in accts && l in accts && accts[k].cfg.name == accts[l].cfg.name ==> k == l)
    && (forall k, at, token {:trigger accts[k], Speaker(r, at, token)} ::
          k in accts && Speaker(r, at, token).Some? && Speaker(r, at, token).value.Subject? ==>
          accts[k].cfg.name != OIDC + Speaker(r, at, token).value.sub)
  }

  /** What is held after any run: the configured keys with their entries, and subjects that spoke. */
  ghost predicate Configured(r: Rules, accts: map<string, Account>, b: Books) {
    && b.keys.Keys == accts.Keys && (forall k :: k in accts ==> b.keys[k].cfg == accts[k].cfg)
    && (forall sub :: sub in b.dyn ==>
          b.dyn[sub].cfg.name == OIDC + sub && exists at, token :: Speaker(r, at, token) == Some(Subject(sub)))
  }

  lemma CheckKeepsEntry(a: Account, model: string, now: real)
    ensures Check(a, model, now).0.cfg == a.cfg
  {
  }

  lemma DoKeepsConfigured(r: Rules, accts: map<string, Account>, b: Books, c: Call)
    requires r.enabled && Configured(r, accts, b)
    ensures Configured(r, accts, Do(r, b, c))
  {
    hide Check;
    forall a, model, now ensures Check(a, model, now).0.cfg == a.cfg {
      CheckKeepsEntry(a, model, now);
    }
  }

  lemma {:induction false} DoAllKeepsConfigured(r: Rules, accts: map<string, Account>, b: Books, calls: seq<Call>)
    requires r.enabled && Configured(r, accts, b)
    ensures Configured(r, accts, DoAll(r, b, calls))
    decreases |calls|
  {
    if calls != [] {
      DoKeepsConfigured(r, accts, b, calls[0]);
      DoAllKeepsConfigured(r, accts, Do(r, b, calls[0]), calls[1..]);
    }
  }

  /** Careful names stay apart in every run. */
  lemma CarefulNamesAgree(r: Rules, accts: map<string, Account>, b: Books)
    requires Careful(r, accts) && Configured(r, accts, b)
    ensures NamesAgree(b)
  {
    forall k, sub | k in b.keys && sub in b.dyn ensures b.keys[k].cfg.name != b.dyn[sub].cfg.name {
      var at, token :| Speaker(r, at, token) == Some(Subject(sub));
      assert accts[k].cfg.name != OIDC + sub;
    }
    forall i, j | Find(b, i).Some? && Find(b, j).Some? && Find(b, i).value.cfg.name == Find(b, j).value.cfg.name
      ensures i == j
    {
      if i.Subject? && j.Subject? {
        assert (OIDC + i.sub)[|OIDC|..] == i.sub;
        assert (OIDC + j.sub)[|OIDC|..] == j.sub;
      }
    }
  }

  /** Pairwise distinct names, none beginning with "oidc:", as written in a configuration. */
  predicate DistinctNames(vks: seq<VirtualKey>) {
    && (forall i, j :: 0 <= i < j < |vks| ==> vks[i].name != vks[j].name)
    && (forall i :: 0 <= i < |vks| ==> !(OIDC <= vks[i].name))
  }

  /** The accounts of a fresh governor: one for each configured secret, from the last entry that has it,
      with a full bucket, the spend loaded for its name and no requests yet. */
  lemma {:induction false} OpenAllEntry(vks: seq<VirtualKey>, t: real, r: Rules, k: string) returns (i: nat)
    requires exists j :: 0 <= j < |vks| && vks[j].key == k
    ensures i < |vks| && vks[i].key == k && forall j :: i < j < |vks| ==> vks[j].key != k
    ensures k in OpenAll(vks, t, r)
    ensures OpenAll(vks, t, r)[k]
         == Account(vks[i], vks[i].rpm as real, t, if vks[i].name in r.loaded then r.loaded[vks[i].name] else 0, 0)
    decreases |vks|
  {
    var n := |vks| - 1;
    if vks[n].key == k {
      i := n;
    } else {
      var j :| 0 <= j < |vks| && vks[j].key == k;
      assert vks[..n][j].key == k;
      i := OpenAllEntry(vks[..n], t, r, k);
    }
  }

  lemma {:induction false} OpenAllKeys(vks: seq<VirtualKey>, t: real, r: Rules, k: string)
    ensures k in OpenAll(vks, t, r) <==> exists j :: 0 <= j < |vks| && vks[j].key == k
    decreases |vks|
  {
    if vks != [] {
      var n := |vks| - 1;
      OpenAllKeys(vks[..n], t, r, k);
      if j :| 0 <= j < n && vks[j].key == k {
        assert vks[..n][j].key == k;
      }
    }
  }

  lemma DistinctNamesAreCareful(r: Rules, vks: seq<VirtualKey>, t: real)
    requires DistinctNames(vks)
    ensures Careful(r, OpenAll(vks, t, r))
  {
    var accts := OpenAll(vks, t, r);
    forall k, l | k in accts && l in accts && accts[k].cfg.name == accts[l].cfg.name ensures k == l {
      OpenAllKeys(vks, t, r, k);
      OpenAllKeys(vks, t, r, l);
      var i := OpenAllEntry(vks, t, r, k);
      var j := OpenAllEntry(vks, t, r, l);
    }
    forall k, at, token | k in accts && Speaker(r, at, token).Some? && Speaker(r, at, token).value.Subject?
      ensures accts[k].cfg.name != OIDC + Speaker(r, at, token).value.sub
    {
      OpenAllKeys(vks, t, r, k);
      var i := OpenAllEntry(vks, t, r, k);
      assert OIDC <= OIDC + Speaker(r, at, token).value.sub;
    }
  }

  /** Two secrets of one name come apart as soon as one of them is charged. */
  lemma SharedNameDiverges(r: Rules, b: Books, k: string, l: string)
    requires r.enabled && k in b.keys && l in b.keys && k != l && b.keys[k].cfg.name == b.keys[l].cfg.name
    requires k != "" && !(OIDC <= k) && b.keys[k].spent == b.keys[l].spent
    ensures !NamesAgree(DoAll(r, b, [RecordSpend(k, 1)]))
  {
    var calls := [RecordSpend(k, 1)];
    assert calls[1..] == [] && DoAll(r, b, calls) == Do(r, b, calls[0]);
    var after := DoAll(r, b, calls);
    assert Find(after, Static(k)).Some? && Find(after, Static(l)).Some?;
  }

  /** So do a secret that bears a subject's name and that subject. */
  lemma SubjectNameDiverges(r: Rules, b: Books, k: string, at: nat, token: string, sub: string)
    requires r.enabled && k in b.keys && b.keys[k].cfg.name == OIDC + sub && b.keys[k].spent == r.Loaded(OIDC + sub)
    requires b.dyn == map[] && Speaker(r, at, token) == Some(Subject(sub))
    ensures !NamesAgree(DoAll(r, b, [Authorize(at, token, "", 0.0), RecordSpend(OIDC + sub, 1)]))
  {
    var calls := [Authorize(at, token, "", 0.0), RecordSpend(OIDC + sub, 1)];
    var b1 := Do(r, b, calls[0]);
    assert calls[1..] == [calls[1]] && calls[1..][1..] == [];
    assert (OIDC + sub)[|OIDC|..] == sub && OIDC <= OIDC + sub;
    var after := Do(r, b1, calls[1]);
    assert DoAll(r, b, calls) == DoAll(r, b1, calls[1..]) == DoAll(r, after, calls[1..][1..]) == after;
    assert Find(after, Static(k)).Some? && Find(after, Subject(sub)).Some?;
  }

  /** Exactly which configurations keep accounts of one name in agreement whatever happens: the
      careful ones, provided secrets can be charged (they are not empty and not taken for subjects). */
  lemma NamesAgreeExactly(r: Rules, vks: seq<VirtualKey>, t: real)
    requires r.enabled && forall k :: k in OpenAll(vks, t, r) ==> k != "" && !(OIDC <= k)
    ensures Careful(r, OpenAll(vks, t, r)) <==>
      forall calls :: NamesAgree(DoAll(r, Books(OpenAll(vks, t, r), map[]), calls))
  {
    var accts := OpenAll(vks, t, r);
    var start := Books(accts, map[]);
    OpenAllKeeps(vks, t, r, t, r);
    if Careful(r, accts) {
      forall calls ensures NamesAgree(DoAll(r, start, calls)) {
        DoAllKeepsConfigured(r, accts, start, calls);
        CarefulNamesAgree(r, accts, DoAll(r, start, calls));
      }
    } else if k, l :| k in accts && l in accts && accts[k].cfg.name == accts[l].cfg.name && k != l {
      SharedNameDiverges(r, start, k, l);
    } else {
      var k, at, token :| k in accts && Speaker(r, at, token).Some? && Speaker(r, at, token).value.Subject?
        && accts[k].cfg.name == OIDC + Speaker(r, at, token).value.sub;
      SubjectNameDiverges(r, start, k, at, token, Speaker(r, at, token).value.sub);
    }
  }

  /** A concrete configuration that fails: two keys named "n", one of them charged one token. */
  lemma SharedNameExample(r: Rules, t: real)
    requires r.enabled
    ensures var vks := [VirtualKey("a", "n", 0, 0, []), VirtualKey("b", "n", 0, 0, [])];
      !NamesAgree(DoAll(r, Books(OpenAll(vks, t, r), map[]), [RecordSpend("a", 1)]))
  {
    var vks := [VirtualKey("a", "n", 0, 0, []), VirtualKey("b", "n", 0, 0, [])];
    var one := vks[..1];
    assert one == [vks[0]] && one[..0] == [];
    assert OpenAll(one, t, r) == map["a" := Open(vks[0], t, r.Loaded("n"))];
    var accts := OpenAll(vks, t, r);
    assert accts == OpenAll(one, t, r)["b" := Open(vks[1], t, r.Loaded("n"))];
    SharedNameDiverges(r, Books(accts, map[]), "a", "b");
  }

  // ---- durability ----

  /** Every identity held in `b` starts with the spend it has there: the configured keys and the
      subjects that authenticated. */
  ghost predicate Resumes(r: Rules, vks: seq<VirtualKey>, u: real, b: Books) {
    && (forall k :: k in OpenAll(vks, u, r) ==> k in b.keys && OpenAll(vks, u, r)[k].spent == b.keys[k].spent)
    && (forall sub :: sub in b.dyn ==> r.OpenSubject(sub, u).spent == b.dyn[sub].spent)
  }

  /** Durability, end to end: start a governor from a configuration with careful names, run any calls,
      flush, and start again from the same configuration over the snapshot.  Every identity held
      starts with the spend it had at the flush. */
  lemma SpendSurvivesRestart(r: Rules, vks: seq<VirtualKey>, t: real, calls: seq<Call>,
                             spend: map<string, int>, u: real)
    requires r.enabled && Careful(r, OpenAll(vks, t, r))
    requires IsSnapshot(DoAll(r, Books(OpenAll(vks, t, r), map[]), calls), spend)
    ensures Resumes(r.(loaded := spend), vks, u, DoAll(r, Books(OpenAll(vks, t, r), map[]), calls))
  {
    var accts := OpenAll(vks, t, r);
    OpenAllKeeps(vks, t, r, t, r);
    DoAllKeepsConfigured(r, accts, Books(accts, map[]), calls);
    CarefulNamesAgree(r, accts, DoAll(r, Books(accts, map[]), calls));
    AgreementResumes(r, vks, t, calls, spend, u);
  }

  /** The same for any configuration after a run in which accounts of one name have spent the same. */
  lemma AgreementResumes(r: Rules, vks: seq<VirtualKey>, t: real, calls: seq<Call>, spend: map<string, int>, u: real)
    requires r.enabled
    requires var b := DoAll(r, Books(OpenAll(vks, t, r), map[]), calls);
      IsSnapshot(b, spend) && NamesAgree(b)
    ensures Resumes(r.(loaded := spend), vks, u, DoAll(r, Books(OpenAll(vks, t, r), map[]), calls))
  {
    var accts := OpenAll(vks, t, r);
    var start := Books(accts, map[]);
    var b, s := DoAll(r, start, calls), r.(loaded := spend);
    OpenAllKeeps(vks, t, r, t, r);
    OpenAllKeeps(vks, u, s, t, r);
    DoAllKeepsConfigured(r, accts, start, calls);
    RestartResumes(r, b, spend);
    forall k | k in OpenAll(vks, u, s)
      ensures k in b.keys && OpenAll(vks, u, s)[k].spent == b.keys[k].spent
    {
      assert Find(b, Static(k)).Some?;
    }
    forall sub | sub in b.dyn ensures s.OpenSubject(sub, u).spent == b.dyn[sub].spent {
      assert Find(b, Subject(sub)).Some?;
    }
  }

  /** The rules of a start over a state file; a load error counts as an empty file. */
  function Boot(r: Rules, c: Store.Codec, files: Files, path: string): Rules {
    r.(loaded := Store.LoadFrom(c, files, path).spend)
  }

  /** Restart after a crash anywhere in the save of a flush: when the rename was reached, every
      identity held resumes the flushed spend; before that the start is that over the old file, to
      the last account. */
  lemma CrashThenRestart(r: Rules, vks: seq<VirtualKey>, t: real, calls: seq<Call>, spend: map<string, int>,
                         c: Store.Codec, files: Files, path: string, i: nat, u: real)
    requires r.enabled && Careful(r, OpenAll(vks, t, r)) && Store.Lawful(c)
    requires IsSnapshot(DoAll(r, Books(OpenAll(vks, t, r), map[]), calls), spend)
    requires i < |Store.SaveStates(files, path, c.marshal(spend))|
    ensures var states := Store.SaveStates(files, path, c.marshal(spend));
      if i == |states| - 1
      then Resumes(Boot(r, c, states[i], path), vks, u, DoAll(r, Books(OpenAll(vks, t, r), map[]), calls))
      else Boot(r, c, states[i], path) == Boot(r, c, files, path)
  {
    Store.CrashLeavesOldOrNew(c, files, path, spend, i);
    SpendSurvivesRestart(r, vks, t, calls, spend, u);
  }

  /** What a flush does not keep: a name loaded from the store whose subject has not authenticated
      since is missing from the next snapshot, so its spend restarts from zero. */
  lemma UnseenNameIsForgotten(r: Rules, b: Books, spend: map<string, int>, name: string)
    requires IsSnapshot(b, spend)
    ensures name in spend <==> exists id :: Find(b, id).Some? && Find(b, id).value.cfg.name == name
    ensures (forall id :: Find(b, id).Some? ==> Find(b, id).value.cfg.name != name) ==>
      r.(loaded := spend).Loaded(name) == 0
  {
    if name in spend {
      var id :| Holds(b, id, name, spend[name]);
      assert Find(b, id).Some?;
    }
  }
}
