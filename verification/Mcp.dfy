/** The MCP manager (internal/mcp/manager.go): who owns which tool, and the advertised catalog. */
module Mcp {
  import opened Common

  datatype Tool = Tool(name: string, description: string, schema: string)

  /** One configured server, with its transport if it is connected.  A transport is known by the number
      of the dial that opened it. */
  datatype Client = Client(name: string, transport: Option<nat>, tools: seq<Tool>)

  /** What dialing a server comes to: no transport, one on which the handshake or the listing failed,
      or the tools it advertises. */
  datatype Dial = Unreachable | Rejected | Up(tools: seq<Tool>)

  // ---- order of names ----

  /** Go's string order. */
  predicate Less(a: string, b: string) {
    b != "" && (a == "" || a[0] < b[0] || (a[0] == b[0] && Less(a[1..], b[1..])))
  }

  lemma {:induction false} LessTotal(a: string, b: string)
    ensures Less(a, b) || Less(b, a) || a == b
    ensures !(Less(a, b) && Less(b, a)) && !Less(a, a)
    decreases |a|
  {
    if a != "" && b != "" && a[0] == b[0] {
      LessTotal(a[1..], b[1..]);
      assert a == [a[0]] + a[1..] && b == [b[0]] + b[1..];
    }
    if a != "" {
      LessTotal(a[1..], a[1..]);
    }
  }

  lemma {:induction false} LessTransitive(a: string, b: string, c: string)
    requires Less(a, b) && Less(b, c)
    ensures Less(a, c)
    decreases |a|
  {
    if a != "" && a[0] == b[0] && b[0] == c[0] {
      LessTransitive(a[1..], b[1..], c[1..]);
    }
  }

  /** Strictly increasing names. */
  ghost predicate Sorted(ts: seq<Tool>) {
    forall i, j :: 0 <= i < j < |ts| ==> Less(ts[i].name, ts[j].name)
  }

  /** sort.Slice by name, as insertion. */
  function Insert(t: Tool, ts: seq<Tool>): seq<Tool> {
    if ts == [] || Less(t.name, ts[0].name) then [t] + ts else [ts[0]] + Insert(t, ts[1..])
  }

  function Sort(ts: seq<Tool>): seq<Tool> {
    if ts == [] then [] else Insert(ts[|ts| - 1], Sort(ts[..|ts| - 1]))
  }

  lemma {:induction false} InsertSorts(t: Tool, ts: seq<Tool>)
    requires Sorted(ts) && forall i :: 0 <= i < |ts| ==> ts[i].name != t.name
    ensures Sorted(Insert(t, ts)) && multiset(Insert(t, ts)) == multiset(ts) + multiset{t}
    decreases |ts|
  {
    if ts == [] {
    } else if Less(t.name, ts[0].name) {
      forall j | 0 <= j < |ts| ensures Less(t.name, ts[j].name) {
        if j > 0 {
          LessTransitive(t.name, ts[0].name, ts[j].name);
        }
      }
    } else {
      LessTotal(t.name, ts[0].name);
      InsertSorts(t, ts[1..]);
      var rest := Insert(t, ts[1..]);
      assert ts == [ts[0]] + ts[1..];
      assert multiset(rest) == multiset(ts[1..]) + multiset{t};
      forall j | 0 <= j < |rest| ensures Less(ts[0].name, rest[j].name) {
        assert rest[j] in multiset(rest);
        if rest[j] != t {
          assert rest[j] in ts[1..];
        }
      }
    }
  }

  /** No name occurs twice. */
  ghost predicate UniqueNames(ts: seq<Tool>) {
    forall i, j :: 0 <= i < j < |ts| ==> ts[i].name != ts[j].name
  }

  lemma {:induction false} SortSorts(ts: seq<Tool>)
    requires UniqueNames(ts)
    ensures Sorted(Sort(ts)) && multiset(Sort(ts)) == multiset(ts)
    decreases |ts|
  {
    if ts != [] {
      var init, last := ts[..|ts| - 1], ts[|ts| - 1];
      SortSorts(init);
      assert ts == init + [last];
      forall i | 0 <= i < |Sort(init)| ensures Sort(init)[i].name != last.name {
        assert Sort(init)[i] in multiset(Sort(init));
        assert Sort(init)[i] in init;
      }
      InsertSorts(last, Sort(init));
    }
  }

  // ---- ownership ----

  /** Place k of a server's list holds a tool, and no earlier place one of its name. */
  predicate Defines(tools: seq<Tool>, t: Tool, k: nat) {
    k < |tools| && tools[k] == t && forall j :: 0 <= j < k ==> tools[j].name != t.name
  }

  /** The server is connected, and this is its first tool of that name. */
  ghost predicate Serves(clients: map<string, Client>, server: string, tool: Tool) {
    server in clients && clients[server].transport.Some? && exists k: nat :: Defines(clients[server].tools, tool, k)
  }

  predicate Advertises(clients: map<string, Client>, server: string, name: string) {
    server in clients && clients[server].transport.Some? && exists t :: t in clients[server].tools && t.name == name
  }

  /** The server at place i of the configuration is the first connected one to advertise a name. */
  predicate FirstAt(order: seq<string>, clients: map<string, Client>, name: string, i: nat) {
    && i < |order| && Advertises(clients, order[i], name)
    && forall j :: 0 <= j < i ==> !Advertises(clients, order[j], name)
  }

  /** The index is right: a name is owned exactly if some connected server advertises it, and then by
      the first one in configuration order. */
  ghost predicate Owned(order: seq<string>, clients: map<string, Client>, home: map<string, string>) {
    && (forall n, i: nat {:trigger FirstAt(order, clients, n, i)} ::
          FirstAt(order, clients, n, i) ==> n in home && home[n] == order[i])
    && (forall n :: n in home ==> exists i: nat :: FirstAt(order, clients, n, i))
  }

  /** The catalog lists exactly the owned names, each with a definition of its owner. */
  ghost predicate Listed(clients: map<string, Client>, home: map<string, string>, catalog: seq<Tool>) {
    && (forall i :: 0 <= i < |catalog| ==>
          catalog[i].name in home && Serves(clients, home[catalog[i].name], catalog[i]))
    && (forall n :: n in home ==> exists i :: 0 <= i < |catalog| && catalog[i].name == n)
  }

  /** The transports that clients hold. */
  ghost function Live(clients: map<string, Client>): set<nat> {
    set n | n in clients && clients[n].transport.Some? :: clients[n].transport.value
  }

  /** Every client has a transport of its own, which is open. */
  ghost predicate Wired(clients: map<string, Client>, open: set<nat>, dials: nat) {
    && Live(clients) <= open && (forall t :: t in open ==> t < dials)
    && (forall n, m :: n in clients && m in clients && n != m && clients[n].transport.Some? ==>
          clients[n].transport != clients[m].transport)
  }

  class Manager {
    var order: seq<string>
    var clients: map<string, Client>
    var toolHome: map<string, string>
    var catalog: seq<Tool>
    /** The number of dials so far. */
    var dials: nat
    /** The transports that were opened and not closed. */
    ghost var open: set<nat>

    /** Right after every construction and every reconnect. */
    ghost predicate Valid()
      reads this
    {
      && (forall i :: 0 <= i < |order| ==> order[i] in clients)
      && Wired(clients, open, dials)
      && Owned(order, clients, toolHome)
      && Listed(clients, toolHome, catalog)
      && Sorted(catalog)
    }

    /** Open transports that no client holds any more. */
    ghost function Leaked(): set<nat>
      reads this
    {
      open - Live(clients)
    }

    /** Dials every configured server in order; failures are kept as disconnected servers.  A name
        configured twice is one server, dialed again; the transport of an earlier dial is then lost,
        and nothing else is. */
    constructor (servers: seq<string>, dial: (nat, string) -> Dial)
      ensures Valid() && order == servers && clients == Dialed(servers, dial, |servers|)
      ensures forall i :: i in Leaked() <==>
        0 <= i < |servers| && dial(i, servers[i]).Up? && servers[i] in servers[i + 1..]
    {
      hide Live, Owned, Listed, Sorted, Wired, Connect, Dialed;
      DialedNone(servers, dial);
      WireNone();
      order, clients, toolHome, catalog, dials, open := [], map[], map[], [], 0, {};
      new;
      for i := 0 to |servers|
        invariant order == servers[..i] && dials == i && Wired(clients, open, dials)
        invariant clients == Dialed(servers, dial, i) && forall j :: 0 <= j < i ==> servers[j] in clients
        invariant forall j :: j in open <==> 0 <= j < i && dial(j, servers[j]).Up?
      {
        order := order + [servers[i]];
        ghost var before := open;
        var c := Dial(servers[i], dial(i, servers[i]));
        WireOne(clients, before, i, servers[i], c);
        DialedStep(servers, dial, i);
        clients := clients[servers[i] := c];
      }
      assert servers[..|servers|] == servers;
      RebuildCatalog();
      LiveDials(servers, dial, |servers|);
    }

    /** dial: opens a transport, and closes it again if the server cannot be used. */
    method Dial(name: string, outcome: Dial) returns (c: Client)
      requires dials !in open
      modifies this`dials, this`open
      ensures c == Connect(name, outcome, old(dials)) && dials == old(dials) + 1
      ensures c == if outcome.Up? then Client(name, Some(old(dials)), outcome.tools) else Client(name, None, [])
      ensures open == old(open) + (if outcome.Up? then {old(dials)} else {})
    {
      var t := dials;
      dials := dials + 1;
      match outcome
      case Unreachable =>
        c := Client(name, None, []);
      case Rejected =>
        open := open + {t};
        c := Client(name, None, []);
        open := open - {t};
      case Up(tools) =>
        open := open + {t};
        c := Client(name, Some(t), tools);
    }

    /** Closes one server's transport, re-dials it and rebuilds the index; an unknown name changes
        nothing.  No transport is lost. */
    method Reconnect(name: string, dialed: Dial) returns (ok: bool)
      requires Valid()
      modifies this
      ensures Valid() && order == old(order) && ok == (name in old(clients) && dialed.Up?)
      ensures name in old(clients) ==>
        && clients == old(clients)[name := if dialed.Up? then Client(name, Some(old(dials)), dialed.tools)
                                           else Client(name, None, [])]
        && open == old(open) - (if old(clients)[name].transport.Some? then {old(clients)[name].transport.value} else {})
                 + (if dialed.Up? then {old(dials)} else {})
      ensures name !in old(clients) ==>
        clients == old(clients) && toolHome == old(toolHome) && catalog == old(catalog) && open == old(open)
      ensures Leaked() == old(Leaked())
    {
      if name !in clients {
        return false;
      }
      hide Live, Owned, Listed, Sorted, Wired;
      Unplug(clients, open, dials, name);
      WireOne(clients, open, dials, name, Client(name, None, []));
      var before := clients[name];
      if before.transport.Some? {
        open := open - {before.transport.value};
      }
      ghost var unplugged := open;
      var c := Dial(name, dialed);
      ghost var off := clients[name := Client(name, None, [])];
      assert off[name := c] == clients[name := c];
      WireOne(off, unplugged, old(dials), name, c);
      Plug(off, unplugged, old(dials), name, c);
      clients := clients[name := c];
      RebuildCatalog();
      return dialed.Up?;
    }

    /** Closes the transports of all clients: what stays open is what was lost before. */
    method Close()
      requires Valid()
      modifies this`open
      ensures open == old(Leaked())
    {
      var todo := clients.Keys;
      while todo != {}
        invariant todo <= clients.Keys
        invariant open == old(open) - (set n | n in clients.Keys - todo && clients[n].transport.Some?
                                             :: clients[n].transport.value)
      {
        var n :| n in todo;
        todo := todo - {n};
        if clients[n].transport.Some? {
          open := open - {clients[n].transport.value};
        }
      }
    }

    /** The server is connected and has a tool of this name. */
    predicate Offers(server: string, name: string)
      reads this
    {
      server in clients && clients[server].transport.Some? &&
      exists k :: 0 <= k < |clients[server].tools| && clients[server].tools[k].name == name
    }

    lemma OffersIsAdvertises(server: string, name: string)
      ensures Offers(server, name) <==> Advertises(clients, server, name)
    {
      if Offers(server, name) {
        var k :| 0 <= k < |clients[server].tools| && clients[server].tools[k].name == name;
        assert clients[server].tools[k] in clients[server].tools;
      }
    }

    /** The catalog, told from the servers: every entry is the first tool of its name at the first server
        in configuration order that offers the name, and the entries after it have later names. */
    lemma CatalogEntry(c: nat) returns (i: nat, k: nat)
      requires Valid() && c < |catalog|
      ensures i < |order| && Offers(order[i], catalog[c].name)
      ensures forall j :: 0 <= j < i ==> !Offers(order[j], catalog[c].name)
      ensures Defines(clients[order[i]].tools, catalog[c], k)
      ensures forall d :: c < d < |catalog| ==> Less(catalog[c].name, catalog[d].name)
    {
      hide Offers, Advertises, Defines, Less;
      var name := catalog[c].name;
      forall s ensures Offers(s, name) <==> Advertises(clients, s, name) {
        OffersIsAdvertises(s, name);
      }
      assert name in toolHome && Serves(clients, toolHome[name], catalog[c]);
      i :| FirstAt(order, clients, name, i);
      assert toolHome[name] == order[i];
      k :| Defines(clients[order[i]].tools, catalog[c], k);
    }

    /** And every name that some configured server offers has an entry. */
    lemma OfferedIsListed(i: nat, name: string) returns (c: nat)
      requires Valid() && i < |order| && Offers(order[i], name)
      ensures c < |catalog| && catalog[c].name == name
    {
      hide Offers, Advertises, Less;
      OffersIsAdvertises(order[i], name);
      FirstExists(order, clients, name);
      var j: nat :| FirstAt(order, clients, name, j);
      c :| 0 <= c < |catalog| && catalog[c].name == name;
    }

    /** The server a call of this tool goes to: the first connected one that advertises it. */
    method Route(name: string) returns (server: Option<string>)
      requires Valid()
      ensures server.Some? ==> exists i: nat :: FirstAt(order, clients, name, i) && server.value == order[i]
      ensures server.None? ==> forall i :: 0 <= i < |order| ==> !Advertises(clients, order[i], name)
      ensures server.Some? ==> exists i: nat ::
        && i < |order| && order[i] == server.value && Offers(order[i], name)
        && forall j :: 0 <= j < i ==> !Offers(order[j], name)
      ensures server.None? ==> forall i :: 0 <= i < |order| ==> !Offers(order[i], name)
    {
      forall s ensures Offers(s, name) <==> Advertises(clients, s, name) {
        OffersIsAdvertises(s, name);
      }
      if name in toolHome {
        var i: nat :| FirstAt(order, clients, name, i);
        return Some(toolHome[name]);
      }
      FirstExists(order, clients, name);
      return None;
    }

    method RebuildCatalog()
      requires (forall i :: 0 <= i < |order| ==> order[i] in clients) && Wired(clients, open, dials)
      modifies this`toolHome, this`catalog
      ensures Valid()
    {
      hide Owned, Listed, UniqueNames, Sorted, Sort, FirstAt;
      NothingYet(clients);
      var found: seq<Tool> := [];
      toolHome := map[];
      for i := 0 to |order|
        invariant Owned(order[..i], clients, toolHome) && Listed(clients, toolHome, found) && UniqueNames(found)
      {
        var name := order[i];
        ghost var before := toolHome;
        var c := clients[name];
        if c.transport.Some? {
          toolHome, found := Claim(name, c.tools, toolHome, found);
        }
        Extend(order[..i], name, clients, before, toolHome);
        assert order[..i] + [name] == order[..i + 1];
      }
      assert order[..|order|] == order;
      catalog := Sort(found);
      SortSorts(found);
      SortLists(clients, toolHome, found);
    }

    /** One connected server claims the names nobody has claimed before. */
    method Claim(name: string, tools: seq<Tool>, home: map<string, string>, found: seq<Tool>)
      returns (home': map<string, string>, found': seq<Tool>)
      requires name in clients && clients[name].transport.Some? && tools == clients[name].tools
      requires Listed(clients, home, found) && UniqueNames(found)
      ensures forall n :: n in home' <==> n in home || Advertises(clients, name, n)
      ensures forall n :: n in home' ==> home'[n] == if n in home then home[n] else name
      ensures Listed(clients, home', found') && UniqueNames(found')
    {
      hide Listed, UniqueNames, Serves;
      home', found' := home, found;
      for k := 0 to |tools|
        invariant forall n :: n in home' <==> n in home || exists t :: t in tools[..k] && t.name == n
        invariant forall n :: n in home' ==> home'[n] == if n in home then home[n] else name
        invariant Listed(clients, home', found') && UniqueNames(found')
      {
        var t := tools[k];
        assert tools[..k + 1] == tools[..k] + [t];
        if t.name !in home' {
          assert forall j :: 0 <= j < k ==> tools[j] in tools[..k];
          ServesAt(clients, name, t, k);
          ListOne(clients, home', found', name, t);
          home' := home'[t.name := name];
          found' := found' + [t];
        }
      }
      assert tools[..|tools|] == tools;
    }
  }

  lemma ServesAt(clients: map<string, Client>, server: string, t: Tool, k: nat)
    requires server in clients && clients[server].transport.Some? && Defines(clients[server].tools, t, k)
    ensures Serves(clients, server, t)
  {
  }

  /** Listing one more name, by the server that claims it. */
  lemma ListOne(clients: map<string, Client>, home: map<string, string>, found: seq<Tool>, server: string, t: Tool)
    requires Listed(clients, home, found) && UniqueNames(found)
    requires t.name !in home && Serves(clients, server, t)
    ensures Listed(clients, home[t.name := server], found + [t]) && UniqueNames(found + [t])
  {
    var longer, wider := found + [t], home[t.name := server];
    forall n | n in wider ensures exists i :: 0 <= i < |longer| && longer[i].name == n {
      if n == t.name {
        assert longer[|found|].name == n;
      } else {
        var i :| 0 <= i < |found| && found[i].name == n;
        assert longer[i].name == n;
      }
    }
  }

  /** The clients after dialing the first n servers: the last dial of a name counts. */
  function Dialed(servers: seq<string>, dial: (nat, string) -> Dial, n: nat): map<string, Client>
    requires n <= |servers|
  {
    if n == 0 then map[]
    else Dialed(servers, dial, n - 1)[servers[n - 1] := Connect(servers[n - 1], dial(n - 1, servers[n - 1]), n - 1)]
  }

  lemma DialedNone(servers: seq<string>, dial: (nat, string) -> Dial)
    ensures Dialed(servers, dial, 0) == map[]
  {
  }

  lemma DialedStep(servers: seq<string>, dial: (nat, string) -> Dial, i: nat)
    requires i < |servers|
    ensures Dialed(servers, dial, i + 1)
         == Dialed(servers, dial, i)[servers[i] := Connect(servers[i], dial(i, servers[i]), i)]
  {
  }

  /** A server is connected after construction exactly if its last dial succeeded, and then it
      advertises what that dial gave. */
  lemma {:induction false} DialedLast(servers: seq<string>, dial: (nat, string) -> Dial, n: nat, i: nat)
    requires i < n <= |servers| && servers[i] !in servers[i + 1..n]
    ensures servers[i] in Dialed(servers, dial, n)
    ensures Dialed(servers, dial, n)[servers[i]] == Connect(servers[i], dial(i, servers[i]), i)
    ensures match dial(i, servers[i])
      case Up(tools) => Dialed(servers, dial, n)[servers[i]] == Client(servers[i], Some(i), tools)
      case _ => Dialed(servers, dial, n)[servers[i]] == Client(servers[i], None, [])
    decreases n
  {
    if i < n - 1 {
      assert servers[i + 1..n] == servers[i + 1..n - 1] + [servers[n - 1]];
      DialedLast(servers, dial, n - 1, i);
    }
  }

  /** The live transports are those of the last dials that succeeded. */
  lemma {:induction false} LiveDials(servers: seq<string>, dial: (nat, string) -> Dial, n: nat)
    requires n <= |servers|
    ensures forall i :: i in Live(Dialed(servers, dial, n)) <==>
      0 <= i < n && dial(i, servers[i]).Up? && servers[i] !in servers[i + 1..n]
    decreases n
  {
    var clients := Dialed(servers, dial, n);
    forall i: nat | i < n && dial(i, servers[i]).Up? && servers[i] !in servers[i + 1..n] ensures i in Live(clients) {
      DialedLast(servers, dial, n, i);
    }
    forall i | i in Live(clients)
      ensures 0 <= i < n && dial(i, servers[i]).Up? && servers[i] !in servers[i + 1..n]
    {
      var name :| name in clients && clients[name].transport == Some(i);
      var j := LastDial(servers, dial, n, name);
      DialedLast(servers, dial, n, j);
    }
  }

  /** Every client comes from the last dial of its name. */
  lemma {:induction false} LastDial(servers: seq<string>, dial: (nat, string) -> Dial, n: nat, name: string)
    returns (i: nat)
    requires n <= |servers| && name in Dialed(servers, dial, n)
    ensures i < n && servers[i] == name && name !in servers[i + 1..n]
    decreases n
  {
    if servers[n - 1] == name {
      i := n - 1;
    } else {
      i := LastDial(servers, dial, n - 1, name);
      assert servers[i + 1..n] == servers[i + 1..n - 1] + [servers[n - 1]];
    }
  }

  function Connect(name: string, outcome: Dial, number: nat): Client {
    if outcome.Up? then Client(name, Some(number), outcome.tools) else Client(name, None, [])
  }

  lemma WireNone()
    ensures Wired(map[], {}, 0)
  {
  }

  /** One more dial, whose transport, if it gave one, goes to a client. */
  lemma WireOne(clients: map<string, Client>, open: set<nat>, dials: nat, name: string, c: Client)
    requires Wired(clients, open, dials) && (c.transport.Some? ==> c.transport.value == dials)
    ensures dials !in open
    ensures Wired(clients[name := c], open + (if c.transport.Some? then {dials} else {}), dials + 1)
  {
    var after := clients[name := c];
    forall t | t in Live(after) ensures t in open || (c.transport.Some? && t == dials) {
      var n :| n in after && after[n].transport == Some(t);
      if n != name {
        assert t in Live(clients);
      }
    }
    forall n | n in clients && clients[n].transport.Some? ensures clients[n].transport.value < dials {
      assert clients[n].transport.value in Live(clients);
    }
  }

  /** Closing one client's transport. */
  lemma Unplug(clients: map<string, Client>, open: set<nat>, dials: nat, name: string)
    requires Wired(clients, open, dials) && name in clients
    ensures var off := clients[name := Client(name, None, [])];
      var gone := if clients[name].transport.Some? then {clients[name].transport.value} else {};
      && Live(off) == Live(clients) - gone && gone <= Live(clients)
      && Wired(off, open - gone, dials) && (open - gone) - Live(off) == open - Live(clients)
  {
    var off := clients[name := Client(name, None, [])];
    forall t | t in Live(off) ensures t in Live(clients) && Some(t) != clients[name].transport {
      var n :| n in off && off[n].transport == Some(t);
      assert n != name && clients[n].transport == Some(t);
    }
    forall t | t in Live(clients) && Some(t) != clients[name].transport ensures t in Live(off) {
      var n :| n in clients && clients[n].transport == Some(t);
      assert off[n].transport == Some(t);
    }
  }

  /** A disconnected client plugged in again, or not. */
  lemma Plug(clients: map<string, Client>, open: set<nat>, dials: nat, name: string, c: Client)
    requires Wired(clients, open, dials) && name in clients && clients[name].transport.None?
    requires c.transport.Some? ==> c.transport.value == dials
    ensures var added := if c.transport.Some? then {dials} else {};
      && Live(clients[name := c]) == Live(clients) + added
      && (open + added) - Live(clients[name := c]) == open - Live(clients)
  {
    var after := clients[name := c];
    forall t | t in Live(after) ensures t in Live(clients) || Some(t) == c.transport {
      var n :| n in after && after[n].transport == Some(t);
      if n != name {
        assert clients[n].transport == Some(t);
      }
    }
    forall t | t in Live(clients) ensures t in Live(after) {
      var n :| n in clients && clients[n].transport == Some(t);
      assert after[n].transport == Some(t);
    }
    if c.transport.Some? {
      assert after[name].transport == Some(dials);
    }
  }

  lemma {:induction false} FirstExists(order: seq<string>, clients: map<string, Client>, name: string)
    ensures (exists i: nat :: FirstAt(order, clients, name, i)) <==>
            (exists i :: 0 <= i < |order| && Advertises(clients, order[i], name))
    decreases |order|
  {
    if order != [] {
      var init := order[..|order| - 1];
      FirstExists(init, clients, name);
      if i :| 0 <= i < |order| && Advertises(clients, order[i], name) {
        if exists j :: 0 <= j < |init| && Advertises(clients, init[j], name) {
          var j: nat :| FirstAt(init, clients, name, j);
          assert FirstAt(order, clients, name, j);
        } else {
          assert FirstAt(order, clients, name, |order| - 1) by {
            assert forall j :: 0 <= j < |order| - 1 ==> order[j] == init[j];
          }
        }
      }
    }
  }

  lemma NothingYet(clients: map<string, Client>)
    ensures Owned([], clients, map[]) && Listed(clients, map[], []) && UniqueNames([])
  {
  }

  /** One more server in the configuration order. */
  lemma Extend(order: seq<string>, name: string, clients: map<string, Client>, before: map<string, string>,
               home: map<string, string>)
    requires name in clients && Owned(order, clients, before)
    requires forall n :: n in home <==> n in before || Advertises(clients, name, n)
    requires forall n :: n in home ==> home[n] == if n in before then before[n] else name
    ensures Owned(order + [name], clients, home)
  {
    var longer := order + [name];
    forall n, i: nat | FirstAt(longer, clients, n, i) ensures n in home && home[n] == longer[i] {
      if i < |order| {
        assert FirstAt(order, clients, n, i) by {
          assert forall j :: 0 <= j < i ==> longer[j] == order[j];
        }
      } else {
        forall k | 0 <= k < |order| ensures !Advertises(clients, order[k], n) {
          assert longer[k] == order[k];
        }
      }
    }
    forall n | n in home ensures exists i: nat :: FirstAt(longer, clients, n, i) {
      if n in before {
        var k: nat :| FirstAt(order, clients, n, k);
        assert FirstAt(longer, clients, n, k) by {
          assert forall j :: 0 <= j <= k ==> longer[j] == order[j];
        }
      } else {
        FirstExists(order, clients, n);
        assert FirstAt(longer, clients, n, |order|) by {
          assert forall j :: 0 <= j < |order| ==> longer[j] == order[j];
        }
      }
    }
  }

  lemma SortLists(clients: map<string, Client>, home: map<string, string>, found: seq<Tool>)
    requires Listed(clients, home, found) && UniqueNames(found)
    ensures Listed(clients, home, Sort(found))
  {
    SortSorts(found);
    var sorted := Sort(found);
    forall i | 0 <= i < |sorted|
      ensures sorted[i].name in home && Serves(clients, home[sorted[i].name], sorted[i])
    {
      assert sorted[i] in multiset(sorted);
      assert sorted[i] in found;
    }
    forall n | n in home ensures exists i :: 0 <= i < |sorted| && sorted[i].name == n {
      var i :| 0 <= i < |found| && found[i].name == n;
      assert found[i] in multiset(sorted);
      assert found[i] in sorted;
    }
  }

  lemma HasElement(a: seq<Tool>)
    ensures a != [] ==> exists t :: t in a
  {
    if a != [] {
      assert a[0] in a;
    }
  }

  /** A strictly sorted catalog is determined by its elements. */
  lemma {:induction false} SortedIsDetermined(a: seq<Tool>, b: seq<Tool>)
    requires Sorted(a) && Sorted(b) && forall t :: t in a <==> t in b
    ensures a == b
    decreases |a|
  {
    if a == [] {
      HasElement(b);
    } else {
      assert a[0] in b && b != [] && b[0] in a;
      SameHead(a, b);
      forall t ensures t in a[1..] <==> t in b[1..] {
        TailMembers(a, t);
        TailMembers(b, t);
      }
      SortedIsDetermined(a[1..], b[1..]);
      assert a == [a[0]] + a[1..] && b == [b[0]] + b[1..];
    }
  }

  lemma SameHead(a: seq<Tool>, b: seq<Tool>)
    requires Sorted(a) && Sorted(b) && a != [] && b != [] && a[0] in b && b[0] in a
    ensures a[0] == b[0]
  {
    var i :| 0 <= i < |b| && b[i] == a[0];
    var j :| 0 <= j < |a| && a[j] == b[0];
    LessTotal(a[0].name, b[0].name);
  }

  lemma TailMembers(a: seq<Tool>, t: Tool)
    requires Sorted(a) && a != []
    ensures t in a[1..] <==> t in a && t != a[0]
  {
    LessTotal(a[0].name, a[0].name);
    assert a == [a[0]] + a[1..];
  }

  /** The index and the catalog depend on the configuration order and the live servers only: however
      the servers got connected, two well-formed states over them agree. */
  lemma IndexIsDetermined(order: seq<string>, clients: map<string, Client>, home: map<string, string>,
                          catalog: seq<Tool>, home': map<string, string>, catalog': seq<Tool>)
    requires Owned(order, clients, home) && Listed(clients, home, catalog) && Sorted(catalog)
    requires Owned(order, clients, home') && Listed(clients, home', catalog') && Sorted(catalog')
    ensures home == home' && catalog == catalog'
  {
    forall n ensures n in home <==> n in home' {
    }
    forall n | n in home ensures home[n] == home'[n] {
      var i: nat :| FirstAt(order, clients, n, i);
    }
    assert home == home';
    forall t ensures t in catalog <==> t in catalog' {
      if t in catalog {
        SameListing(clients, home, catalog, catalog', t);
      }
      if t in catalog' {
        SameListing(clients, home, catalog', catalog, t);
      }
    }
    SortedIsDetermined(catalog, catalog');
  }

  lemma SameListing(clients: map<string, Client>, home: map<string, string>, a: seq<Tool>, b: seq<Tool>, t: Tool)
    requires Listed(clients, home, a) && Listed(clients, home, b) && t in a
    ensures t in b
  {
    var i :| 0 <= i < |a| && a[i] == t;
    assert Serves(clients, home[t.name], t);
    var j :| 0 <= j < |b| && b[j].name == t.name;
    assert Serves(clients, home[t.name], b[j]);
    var tools := clients[home[t.name]].tools;
    var k: nat :| Defines(tools, t, k);
    var l: nat :| Defines(tools, b[j], l);
    assert k == l;
  }

  /** The order of names is that of their first difference, a name coming before its continuations. */
  lemma {:induction false} LessIsLexicographic(a: string, b: string, n: nat)
    requires n <= |a| && n <= |b| && a[..n] == b[..n]
    ensures n == |a| < |b| ==> Less(a, b) && !Less(b, a)
    ensures n < |a| && n < |b| && a[n] < b[n] ==> Less(a, b) && !Less(b, a)
    decreases n
  {
    if n > 0 {
      assert a[0] == a[..n][0] && b[0] == b[..n][0];
      assert a[1..][..n - 1] == a[..n][1..] && b[1..][..n - 1] == b[..n][1..];
      LessIsLexicographic(a[1..], b[1..], n - 1);
    }
  }
}
