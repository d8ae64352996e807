/** The governor (internal/governance/governance.go): static virtual keys and OIDC subjects, each
    with its own account. */
module Governance {
  import opened Common
  import opened Accounts
  import Store
  import Text

  const OIDC := "oidc:"

  /** What is fixed when the governor is built.  `verifier` maps a call's number and a JWT to
      the JWT's subject then, or to None when verification fails (the token may have expired, or the
      key set changed, since an earlier call); it is absent when OIDC is off. */
  datatype Rules = Rules(enabled: bool, verifier: Option<(nat, string) -> Option<string>>,
                         oidcRpm: int, oidcMaxTokens: int, loaded: map<string, int>)
  {
    /** Spend loaded from the store for a name; a name never stored has spent nothing. */
    function Loaded(name: string): int { if name in loaded then loaded[name] else 0 }

    function OpenSubject(sub: string, now: real): Account {
      Open(VirtualKey("", OIDC + sub, oidcRpm, oidcMaxTokens, []), now, Loaded(OIDC + sub))
    }
  }

  /** Every account the governor holds: by virtual-key secret, and by OIDC subject. */
  datatype Books = Books(keys: map<string, Account>, dyn: map<string, Account>)

  datatype CheckResult = CheckResult(decision: Decision, keyName: string, billingID: string)

  datatype Identity = Static(secret: string) | Subject(sub: string)

  function Find(b: Books, id: Identity): Option<Account> {
    match id
    case Static(secret) => if secret in b.keys then Some(b.keys[secret]) else None
    case Subject(sub) => if sub in b.dyn then Some(b.dyn[sub]) else None
  }

  function Put(b: Books, id: Identity, a: Account): Books {
    match id
    case Static(secret) => b.(keys := b.keys[secret := a])
    case Subject(sub) => b.(dyn := b.dyn[sub := a])
  }

  /** Whom a bearer token speaks for in a call, if anyone: with OIDC on, a token of exactly two dots is a
      JWT and nothing else. */
  function Speaker(r: Rules, at: nat, token: string): Option<Identity> {
    if r.verifier.Some? && Text.Count(token, ".") == 2 then
      match r.verifier.value(at, token)
      case None => None
      case Some(sub) => Some(Subject(sub))
    else if token == "" then None
    else Some(Static(token))
  }

  function BillingOf(id: Identity): string {
    match id
    case Static(secret) => secret
    case Subject(sub) => OIDC + sub
  }

  function BilledTo(billingID: string): Identity {
    if OIDC <= billingID then Subject(billingID[|OIDC|..]) else Static(billingID)
  }

  /** A billing id leads RecordSpend back to the account that was checked, except for a static
      secret that itself begins with "oidc:". */
  lemma BillingRoundTrip(id: Identity)
    ensures BilledTo(BillingOf(id)) == id <==> !(id.Static? && OIDC <= id.secret)
  {
    if id.Subject? {
      assert (OIDC + id.sub)[|OIDC|..] == id.sub;
    }
  }

  /** The checks on a known identity; a subject's account is opened on first use. */
  function AdmitAs(r: Rules, b: Books, id: Identity, model: string, now: real): (Books, CheckResult)
    requires Find(b, id).Some? || id.Subject?
  {
    var held := Find(b, id);
    var a := if held.Some? then held.value else r.OpenSubject(id.sub, now);
    var (a', d) := Check(a, model, now);
    (Put(b, id, a'), CheckResult(d, a.cfg.name, BillingOf(id)))
  }

  function Admit(r: Rules, b: Books, at: nat, token: string, model: string, now: real): (Books, CheckResult) {
    if !r.enabled then (b, CheckResult(Allow, "anonymous", ""))
    else match Speaker(r, at, token)
      case None => (b, CheckResult(DenyUnauthorized, "", ""))
      case Some(id) =>
        if Find(b, id).None? && id.Static? then (b, CheckResult(DenyUnauthorized, "", ""))
        else AdmitAs(r, b, id, model, now)
  }

  /** A compact JWT, when OIDC is on: exactly two dots. */
  predicate IsJWT(r: Rules, token: string) {
    r.verifier.Some? && multiset(token)['.'] == 2
  }

  /** The call is authenticated: by the verifier if the token is a JWT, else as a configured secret. */
  predicate Authenticated(r: Rules, b: Books, at: nat, token: string) {
    if IsJWT(r, token) then r.verifier.value(at, token).Some? else token != "" && token in b.keys
  }

  /** The account a call is billed to before and after it, and nothing else changed. */
  ghost predicate Accounted(r: Rules, b: Books, b': Books, at: nat, token: string, model: string, now: real,
                            res: CheckResult)
    requires Authenticated(r, b, at, token)
  {
    if IsJWT(r, token) then
      var sub := r.verifier.value(at, token).value;
      var newcomer := Account(VirtualKey("", "oidc:" + sub, r.oidcRpm, r.oidcMaxTokens, []), r.oidcRpm as real, now,
                            if "oidc:" + sub in r.loaded then r.loaded["oidc:" + sub] else 0, 0);
      var a := if sub in b.dyn then b.dyn[sub] else newcomer;
      && b'.keys == b.keys && sub in b'.dyn && b'.dyn == b.dyn[sub := b'.dyn[sub]]
      && res.billingID == "oidc:" + sub && res.keyName == a.cfg.name
      && Decided(a, model, now, b'.dyn[sub], res.decision) && Refilled(a, now, b'.dyn[sub], res.decision)
    else
      var a := b.keys[token];
      && b'.dyn == b.dyn && token in b'.keys && b'.keys == b.keys[token := b'.keys[token]]
      && res.billingID == token && res.keyName == a.cfg.name
      && Decided(a, model, now, b'.keys[token], res.decision) && Refilled(a, now, b'.keys[token], res.decision)
  }

  /** What an answer means: a disabled governor lets everybody in, unbilled; otherwise a caller is turned
      away as unauthorized exactly if it is not authenticated, and nothing changes then; and an
      authenticated caller gets the decision of its own account. */
  ghost predicate Justified(r: Rules, b: Books, b': Books, at: nat, token: string, model: string, now: real,
                            res: CheckResult)
  {
    if !r.enabled then res == CheckResult(Allow, "anonymous", "") && b' == b
    else
      && (res.decision == DenyUnauthorized <==> !Authenticated(r, b, at, token))
      && (res.decision == DenyUnauthorized ==> b' == b && res.keyName == "" && res.billingID == "")
      && (Authenticated(r, b, at, token) ==> Accounted(r, b, b', at, token, model, now, res))
  }

  lemma AdmitIsJustified(r: Rules, b: Books, at: nat, token: string, model: string, now: real)
    ensures var (b', res) := Admit(r, b, at, token, model, now);
      Justified(r, b, b', at, token, model, now, res)
  {
    hide Check, Accounted, AdmitAs;
    Text.CountChar(token, '.');
    if r.enabled && Authenticated(r, b, at, token) {
      if IsJWT(r, token) {
        SubjectIsAccounted(r, b, at, token, model, now);
      } else {
        KeyIsAccounted(r, b, at, token, model, now);
      }
    }
  }

  lemma SubjectIsAccounted(r: Rules, b: Books, at: nat, token: string, model: string, now: real)
    requires Authenticated(r, b, at, token) && IsJWT(r, token)
    ensures var (b', res) := AdmitAs(r, b, Subject(r.verifier.value(at, token).value), model, now);
      Accounted(r, b, b', at, token, model, now, res) && res.decision != DenyUnauthorized
  {
    hide Check, Refilled;
    var sub := r.verifier.value(at, token).value;
    CheckDecides(if sub in b.dyn then b.dyn[sub] else r.OpenSubject(sub, now), model, now);
  }

  lemma KeyIsAccounted(r: Rules, b: Books, at: nat, token: string, model: string, now: real)
    requires Authenticated(r, b, at, token) && !IsJWT(r, token)
    ensures var (b', res) := AdmitAs(r, b, Static(token), model, now);
      Accounted(r, b, b', at, token, model, now, res) && res.decision != DenyUnauthorized
  {
    hide Check, Refilled;
    CheckDecides(b.keys[token], model, now);
  }

  function Charge(r: Rules, b: Books, billingID: string, amount: int): Books {
    if !r.enabled || amount <= 0 || billingID == "" then b
    else
      var id := BilledTo(billingID);
      match Find(b, id)
      case None => b
      case Some(a) => Put(b, id, Record(a, amount))
  }

  /** What a spend record did: a positive amount is added to the account its billing id names, a subject's
      if it begins with "oidc:" and a key's otherwise, and nothing else changes; no account, no change. */
  ghost predicate Charged(r: Rules, b: Books, b': Books, billingID: string, amount: int) {
    if !r.enabled || amount <= 0 || billingID == "" then b' == b
    else if "oidc:" <= billingID then
      var sub := billingID[5..];
      if sub !in b.dyn then b' == b
      else b' == b.(dyn := b.dyn[sub := b.dyn[sub].(spent := b.dyn[sub].spent + amount)])
    else if billingID !in b.keys then b' == b
    else b' == b.(keys := b.keys[billingID := b.keys[billingID].(spent := b.keys[billingID].spent + amount)])
  }

  lemma ChargeIsCharged(r: Rules, b: Books, billingID: string, amount: int)
    ensures Charged(r, b, Charge(r, b, billingID, amount), billingID, amount)
  {
  }

  /** The state of one identity (keyState of governance.go), updated in place. */
  class KeyState {
    const cfg: VirtualKey
    var tokens: real
    var lastFill: real
    var spentTokens: int
    var requests: int

    ghost function View(): Account
      reads this
    {
      Account(cfg, tokens, lastFill, spentTokens, requests)
    }

    constructor (cfg: VirtualKey, now: real, spent: int)
      ensures View() == Open(cfg, now, spent)
    {
      this.cfg := cfg;
      tokens, lastFill, spentTokens, requests := cfg.rpm as real, now, spent, 0;
    }

    method CheckState(model: string, now: real) returns (d: Decision)
      modifies this
      ensures (View(), d) == Check(old(View()), model, now)
    {
      if |cfg.allowedModels| > 0 && model !in cfg.allowedModels {
        return DenyModel;
      }
      if cfg.maxTokens > 0 && spentTokens >= cfg.maxTokens {
        return DenyBudget;
      }
      if cfg.rpm > 0 {
        var elapsed := now - lastFill;
        if elapsed < 0.0 {
          elapsed := 0.0;
        }
        assert elapsed == Elapsed(lastFill, now);
        lastFill := now;
        tokens := tokens + elapsed * (cfg.rpm as real / 60.0);
        assert tokens == old(tokens) + Gain(cfg.rpm, elapsed);
        if tokens > cfg.rpm as real {
          tokens := cfg.rpm as real;
        }
        assert tokens == Level(old(View()), now);
        if tokens < 1.0 {
          return DenyRateLimited;
        }
        tokens := tokens - 1.0;
      }
      requests := requests + 1;
      return Allow;
    }

    method Add(amount: int)
      requires amount > 0
      modifies this
      ensures View() == Record(old(View()), amount)
    {
      spentTokens := spentTokens + amount;
    }
  }

  ghost function Accts(m: map<string, KeyState>): map<string, Account>
    reads m.Values
  {
    map k | k in m :: m[k].View()
  }

  lemma AcctsKeys(m: map<string, KeyState>)
    ensures Accts(m).Keys == m.Keys
  {
  }

  lemma NoAccts()
    ensures Accts(map[]) == map[]
  {
  }

  lemma AcctsAdd(m: map<string, KeyState>, k: string, st: KeyState)
    ensures Accts(m[k := st]) == Accts(m)[k := st.View()]
  {
  }

  /** The accounts a fresh governor holds: one per configured secret, the last entry winning. */
  function OpenAll(vks: seq<VirtualKey>, now: real, r: Rules): map<string, Account> {
    if vks == [] then map[]
    else
      var vk := vks[|vks| - 1];
      OpenAll(vks[..|vks| - 1], now, r)[vk.key := Open(vk, now, r.Loaded(vk.name))]
  }

  class Governor {
    const rules: Rules
    var keys: map<string, KeyState>
    var dyn: map<string, KeyState>

    /** Every account has its own state object. */
    ghost predicate Valid()
      reads this
    {
      && (forall k, l :: k in keys && l in keys && keys[k] == keys[l] ==> k == l)
      && (forall k, l :: k in dyn && l in dyn && dyn[k] == dyn[l] ==> k == l)
      && keys.Values !! dyn.Values
    }

    ghost function View(): Books
      reads this, keys.Values, dyn.Values
    {
      Books(Accts(keys), Accts(dyn))
    }

    constructor (rules: Rules, vks: seq<VirtualKey>, now: real)
      ensures Valid() && this.rules == rules
      ensures fresh(keys.Values) && dyn == map[]
      ensures View() == Books(OpenAll(vks, now, rules), map[])
    {
      hide Open, Rules.Loaded, Accts;
      this.rules := rules;
      keys, dyn := map[], map[];
      new;
      NoAccts();
      for i := 0 to |vks|
        invariant Valid() && this.rules == rules && dyn == map[] && fresh(keys.Values)
        invariant Accts(keys) == OpenAll(vks[..i], now, rules)
      {
        var vk := vks[i];
        var st := new KeyState(vk, now, rules.Loaded(vk.name));
        assert vks[..i + 1][..i] == vks[..i];
        AcctsAdd(keys, vk.key, st);
        ghost var held := keys.Values;
        keys := keys[vk.key := st];
        assert keys.Values <= held + {st};
      }
      assert vks[..|vks|] == vks;
    }

    /** The state of a subject, created on first use. */
    method OidcState(sub: string, now: real) returns (st: KeyState)
      requires Valid()
      modifies this`dyn
      ensures Valid() && sub in dyn && dyn[sub] == st
      ensures dyn == old(dyn)[sub := st]
      ensures sub in old(dyn) ==> dyn == old(dyn)
      ensures sub !in old(dyn) ==> fresh(st)
      ensures st.View() == if sub in old(Accts(dyn)) then old(Accts(dyn))[sub] else rules.OpenSubject(sub, now)
      ensures Accts(keys) == old(Accts(keys)) && Accts(dyn) == old(Accts(dyn))[sub := st.View()]
    {
      if sub in dyn {
        st := dyn[sub];
        assert dyn == dyn[sub := st];
        return;
      }
      var name := OIDC + sub;
      st := new KeyState(VirtualKey("", name, rules.oidcRpm, rules.oidcMaxTokens, []), now, rules.Loaded(name));
      dyn := dyn[sub := st];
    }

    method Authorize(at: nat, token: string, model: string, now: real) returns (res: CheckResult)
      requires Valid()
      modifies this`dyn, keys.Values, dyn.Values
      ensures Valid() && keys == old(keys) && fresh(dyn.Values - old(dyn.Values))
      ensures (View(), res) == Admit(rules, old(View()), at, token, model, now)
      ensures Justified(rules, old(View()), View(), at, token, model, now, res)
    {
      hide Justified;
      AdmitIsJustified(rules, View(), at, token, model, now);
      if !rules.enabled {
        return CheckResult(Allow, "anonymous", "");
      }
      if rules.verifier.Some? && Text.Count(token, ".") == 2 {
        var claims := rules.verifier.value(at, token);
        if claims.None? {
          return CheckResult(DenyUnauthorized, "", "");
        }
        res := AuthorizeSubject(claims.value, model, now);
      } else {
        if token !in keys || token == "" {
          return CheckResult(DenyUnauthorized, "", "");
        }
        res := AuthorizeKey(token, model, now);
      }
    }

    method AuthorizeSubject(sub: string, model: string, now: real) returns (res: CheckResult)
      requires Valid()
      modifies this`dyn, dyn.Values
      ensures Valid() && keys == old(keys) && fresh(dyn.Values - old(dyn.Values))
      ensures (View(), res) == AdmitAs(rules, old(View()), Subject(sub), model, now)
    {
      hide Check, Rules.OpenSubject, Accts;
      var st := OidcState(sub, now);
      assert dyn.Values <= old(dyn.Values) + {st};
      var d := CheckSubject(sub, st, model, now);
      assert Accts(dyn) == old(Accts(dyn))[sub := st.View()];
      res := CheckResult(d, st.cfg.name, OIDC + sub);
    }

    method CheckSubject(sub: string, st: KeyState, model: string, now: real) returns (d: Decision)
      requires Valid() && sub in dyn && dyn[sub] == st
      modifies st
      ensures (st.View(), d) == Check(old(st.View()), model, now)
      ensures Accts(keys) == old(Accts(keys)) && Accts(dyn) == old(Accts(dyn))[sub := st.View()]
    {
      d := st.CheckState(model, now);
    }

    method AuthorizeKey(token: string, model: string, now: real) returns (res: CheckResult)
      requires Valid() && token in keys
      modifies keys.Values
      ensures Valid() && keys == old(keys) && dyn == old(dyn)
      ensures (View(), res) == AdmitAs(rules, old(View()), Static(token), model, now)
    {
      var st := keys[token];
      var d := st.CheckState(model, now);
      assert Accts(dyn) == old(Accts(dyn));
      assert Accts(keys) == old(Accts(keys))[token := st.View()];
      res := CheckResult(d, st.cfg.name, token);
    }

    method RecordSpend(billingID: string, totalTokens: int)
      requires Valid()
      modifies keys.Values, dyn.Values
      ensures Valid() && keys == old(keys) && dyn == old(dyn)
      ensures View() == Charge(rules, old(View()), billingID, totalTokens)
      ensures Charged(rules, old(View()), View(), billingID, totalTokens)
    {
      hide Charged, Accts;
      AcctsKeys(keys);
      AcctsKeys(dyn);
      ChargeIsCharged(rules, View(), billingID, totalTokens);
      if !rules.enabled || totalTokens <= 0 || billingID == "" {
        return;
      }
      if OIDC <= billingID {
        var sub := billingID[|OIDC|..];
        if sub in dyn {
          ChargeSubject(sub, totalTokens);
        }
      } else if billingID in keys {
        ChargeKey(billingID, totalTokens);
      }
    }

    method ChargeSubject(sub: string, amount: int)
      requires Valid() && sub in dyn && amount > 0
      modifies dyn.Values
      ensures Valid() && keys == old(keys) && dyn == old(dyn) && Accts(keys) == old(Accts(keys))
      ensures Accts(dyn) == old(Accts(dyn))[sub := Record(old(Accts(dyn))[sub], amount)]
    {
      dyn[sub].Add(amount);
    }

    method ChargeKey(key: string, amount: int)
      requires Valid() && key in keys && amount > 0
      modifies keys.Values
      ensures Valid() && keys == old(keys) && dyn == old(dyn) && Accts(dyn) == old(Accts(dyn))
      ensures Accts(keys) == old(Accts(keys))[key := Record(old(Accts(keys))[key], amount)]
    {
      keys[key].Add(amount);
    }

    /** Hands the spends to the store: after success a snapshot of the accounts is what loads, after an
        error what loaded before. */
    method Flush(file: Store.File, fault: Store.Fault) returns (ok: bool, ghost spend: Store.Spend)
      requires Valid() && Store.Lawful(file.codec)
      modifies file.disk
      ensures IsSnapshot(View(), spend) && ok == fault.NoFault?
      ensures Store.LoadFrom(file.codec, file.disk.files, file.path)
           == if ok then Store.Loaded(spend, false)
              else Store.LoadFrom(file.codec, old(file.disk.files), file.path)
    {
      var snap := SpendByName();
      ok := file.Save(snap, fault);
      spend := snap;
    }

    /** The snapshot: the maps are ranged over in an arbitrary order. */
    method SpendByName() returns (spend: Store.Spend)
      requires Valid()
      ensures IsSnapshot(View(), spend)
    {
      spend := map[];
      var todo := keys.Keys;
      while todo != {}
        invariant todo <= keys.Keys
        invariant forall k :: k in keys.Keys - todo ==> keys[k].cfg.name in spend
        invariant forall n :: n in spend ==>
          exists k :: k in keys && keys[k].cfg.name == n && keys[k].spentTokens == spend[n]
      {
        var k :| k in todo;
        todo := todo - {k};
        spend := spend[keys[k].cfg.name := keys[k].spentTokens];
      }
      todo := dyn.Keys;
      while todo != {}
        invariant todo <= dyn.Keys
        invariant forall k :: k in keys ==> keys[k].cfg.name in spend
        invariant forall k :: k in dyn.Keys - todo ==> dyn[k].cfg.name in spend
        invariant forall n :: n in spend ==>
          || (exists k :: k in keys && keys[k].cfg.name == n && keys[k].spentTokens == spend[n])
          || (exists k :: k in dyn && dyn[k].cfg.name == n && dyn[k].spentTokens == spend[n])
      {
        var k :| k in todo;
        todo := todo - {k};
        spend := spend[dyn[k].cfg.name := dyn[k].spentTokens];
      }
      Snapshots(spend);
    }

    lemma Snapshots(spend: Store.Spend)
      requires Valid()
      requires forall k :: k in keys ==> keys[k].cfg.name in spend
      requires forall k :: k in dyn ==> dyn[k].cfg.name in spend
      requires forall n :: n in spend ==>
        || (exists k :: k in keys && keys[k].cfg.name == n && keys[k].spentTokens == spend[n])
        || (exists k :: k in dyn && dyn[k].cfg.name == n && dyn[k].spentTokens == spend[n])
      ensures IsSnapshot(View(), spend)
    {
      var b := View();
      forall n | n in spend ensures exists id :: Holds(b, id, n, spend[n]) {
        if k :| k in keys && keys[k].cfg.name == n && keys[k].spentTokens == spend[n] {
          assert Holds(b, Static(k), n, spend[n]);
        } else {
          var k :| k in dyn && dyn[k].cfg.name == n && dyn[k].spentTokens == spend[n];
          assert Holds(b, Subject(k), n, spend[n]);
        }
      }
    }
  }

  /** The books hold an account of this name that has spent this much. */
  ghost predicate Holds(b: Books, id: Identity, name: string, spent: int) {
    var held := Find(b, id);
    held.Some? && held.value.cfg.name == name && held.value.spent == spent
  }

  /** A snapshot has an entry for exactly the names of the accounts held, each the spend of an
      account of that name. */
  ghost predicate IsSnapshot(b: Books, spend: map<string, int>) {
    && (forall id :: Find(b, id).Some? ==> Find(b, id).value.cfg.name in spend)
    && (forall n :: n in spend ==> exists id :: Holds(b, id, n, spend[n]))
  }
}
