/** The registry object: the host index and the per-route alias index always agree with the simple model. */
module PreviewRegistries {
  import opened SessionTypes
  import opened CarrierIdentities
  import opened Previews
  import opened PreviewTheorems

  predicate NamesRoutes(p: Table, hosts: map<string, Entry>) {
    forall k :: k in p.routes ==>
        p.routes[k].route.hostname in hosts && hosts[p.routes[k].route.hostname] == p.routes[k]
  }

  predicate NamesAliases(p: Table, hosts: map<string, Entry>) {
    forall d :: d in p.active ==>
        p.active[d].route in p.routes && p.active[d].hostname in hosts
        && hosts[p.active[d].hostname] == p.routes[p.active[d].route]
  }

  predicate Owned(p: Table, h: string, e: Entry) {
    e.route.id in p.routes && e == p.routes[e.route.id] && Owns(p, h, e.route.id)
  }

  /** The host index holds exactly the owned names, each with its owner's entry. */
  predicate HostsExact(p: Table, hosts: map<string, Entry>) {
    NamesRoutes(p, hosts) && NamesAliases(p, hosts) && forall h :: h in hosts ==> Owned(p, h, hosts[h])
  }

  /** The alias index is the exact inverse of the active aliases. */
  predicate IndexExact(p: Table, index: map<string, set<string>>) {
    && (forall id :: id in index ==> index[id] == AliasesOf(p, id) && index[id] != {})
    && (forall d :: d in p.active ==> p.active[d].route in index)
  }

  ghost predicate Exact(p: Table, hosts: map<string, Entry>, index: map<string, set<string>>) {
    Inv(p) && HostsExact(p, hosts) && IndexExact(p, index)
  }

  lemma IndexNames(p: Table, index: map<string, set<string>>, id: string)
    requires IndexExact(p, index)
    ensures id in index ==> index[id] == AliasesOf(p, id)
    ensures id !in index ==> AliasesOf(p, id) == {}
    ensures AliasesOf(p, id) == {} ==> index - {id} == index
  {
    if id !in index { assert forall d :: d in p.active ==> p.active[d].route != id; }
  }

  /** Lookup through the index is the plain scan. */
  lemma HostsDecide(p: Table, hosts: map<string, Entry>, h: string)
    requires Inv(p) && HostsExact(p, hosts)
    ensures h in hosts ==> Owns(p, h, hosts[h].route.id) && forall k :: Owns(p, h, k) ==> k == hosts[h].route.id
    ensures h !in hosts ==> forall k :: !Owns(p, h, k)
  {
    if h in hosts {
      assert Owned(p, h, hosts[h]);
      forall k | Owns(p, h, k) ensures k == hosts[h].route.id { OneOwner(p, h, k, hosts[h].route.id); }
    }
  }

  lemma FreeByIndex(p: Table, hosts: map<string, Entry>, h: string, id: string)
    requires Inv(p) && HostsExact(p, hosts)
    ensures Free(p, h, id) <==> (h in hosts ==> hosts[h].route.id == id)
  {
    HostsDecide(p, hosts, h);
  }

  // ---------------------------------------------------------------- removing aliases

  function Unlisted(index: map<string, set<string>>, a: Alias): map<string, set<string>> {
    if a.route !in index then index
    else if index[a.route] - {a.domain} == {} then index - {a.route}
    else index[a.route := index[a.route] - {a.domain}]
  }

  lemma UnlistedExact(p: Table, index: map<string, set<string>>, d: string)
    requires d in p.active && p.active[d].domain == d && IndexExact(p, index)
    ensures IndexExact(p.(active := p.active - {d}), Unlisted(index, p.active[d]))
  {
    var after, q := Unlisted(index, p.active[d]), p.(active := p.active - {d});
    forall id | id in after ensures after[id] == AliasesOf(q, id) && after[id] != {} {
      assert AliasesOf(q, id) == AliasesOf(p, id) - {d};
    }
    forall e | e in q.active ensures q.active[e].route in after {
      assert e in AliasesOf(p, q.active[e].route);
    }
  }

  /** Removing the alias of another name leaves an owner in place. */
  lemma OwnedWithout(p: Table, h: string, e: Entry, d: string)
    requires Owned(p, h, e) && d in p.active && p.active[d].hostname != h
    ensures Owned(p.(active := p.active - {d}), h, e)
  {
    var q := p.(active := p.active - {d});
    if p.routes[e.route.id].route.hostname != h {
      var c :| c in p.active && p.active[c].route == e.route.id && p.active[c].hostname == h;
      assert c in q.active && q.active[c] == p.active[c];
    }
  }

  lemma AliasNamesDiffer(p: Table, d: string, e: string)
    requires Inv(p) && d in p.active && e in p.active && d != e
    ensures p.active[d].hostname != p.active[e].hostname && forall k :: k in p.routes ==>
            p.routes[k].route.hostname != p.active[d].hostname
  {
    assert Sound(p, d) && Sound(p, e) && AliasesApart(p.desired, d, e);
  }

  lemma AliasNamesApart(p: Table, d: string)
    requires Inv(p) && d in p.active
    ensures forall e :: e in p.active && e != d ==> p.active[e].hostname != p.active[d].hostname
    ensures forall k :: k in p.routes ==> p.routes[k].route.hostname != p.active[d].hostname
  {
    assert Sound(p, d);
    forall e | e in p.active && e != d ensures p.active[e].hostname != p.active[d].hostname {
      AliasNamesDiffer(p, d, e);
    }
  }

  lemma UnhostedNames(p: Table, hosts: map<string, Entry>, d: string)
    requires NamesRoutes(p, hosts) && NamesAliases(p, hosts) && d in p.active
    requires forall e :: e in p.active && e != d ==> p.active[e].hostname != p.active[d].hostname
    requires forall k :: k in p.routes ==> p.routes[k].route.hostname != p.active[d].hostname
    ensures NamesRoutes(p.(active := p.active - {d}), hosts - {p.active[d].hostname})
    ensures NamesAliases(p.(active := p.active - {d}), hosts - {p.active[d].hostname})
  {
  }

  lemma UnhostedExact(p: Table, hosts: map<string, Entry>, d: string)
    requires Inv(p) && HostsExact(p, hosts) && d in p.active
    ensures HostsExact(p.(active := p.active - {d}), hosts - {p.active[d].hostname})
  {
    AliasNamesApart(p, d);
    UnhostedNames(p, hosts, d);
    var after := hosts - {p.active[d].hostname};
    forall h | h in after ensures Owned(p.(active := p.active - {d}), h, after[h]) { OwnedWithout(p, h, hosts[h], d); }
  }

  lemma RemovedExact(p: Table, hosts: map<string, Entry>, index: map<string, set<string>>, d: string)
    requires Exact(p, hosts, index) && d in p.active
    ensures p.active[d].domain == d
    ensures Exact(p.(active := p.active - {d}), hosts - {p.active[d].hostname}, Unlisted(index, p.active[d]))
  {
    assert Sound(p, d);
    UnlistedExact(p, index, d);
    UnhostedExact(p, hosts, d);
    SmallerKeeps(p, p.active - {d});
  }

  // ---------------------------------------------------------------- publishing aliases

  function Published(p: Table, a: Alias): Table { p.(active := p.active[a.domain := a]) }

  lemma ActiveFits(p: Table, d: string)
    requires Inv(p) && d in p.active
    ensures Fits(p, p.active[d]) && p.active[d].domain == d && Published(p, p.active[d]) == p
  {
    var a := p.active[d];
    assert Sound(p, d);
    assert Owns(p, a.hostname, a.route);
    forall j | j in p.routes && j != a.route ensures !Owns(p, a.hostname, j) {
      if Owns(p, a.hostname, j) { OneOwner(p, a.hostname, j, a.route); }
    }
    assert p.active[d := a] == p.active;
  }

  lemma PublishedKeeps(p: Table, a: Alias)
    requires Inv(p) && Fits(p, a) && a.domain in p.desired && p.desired[a.domain] == a
    ensures Inv(Published(p, a))
  {
    var q := Published(p, a);
    forall j, k ensures RoutesApart(q, j, k) { assert RoutesApart(p, j, k); }
    forall k | k in p.routes ensures p.routes[k].route.hostname != a.hostname {
      assert k != a.route ==> !Owns(p, a.hostname, k);
    }
    forall d | d in q.active ensures Sound(q, d) { if d != a.domain { assert Sound(p, d); } }
  }

  lemma OwnedWith(p: Table, h: string, e: Entry, a: Alias)
    requires Owned(p, h, e) && a.domain !in p.active
    ensures Owned(Published(p, a), h, e)
  {
    if p.routes[e.route.id].route.hostname != h {
      var c :| c in p.active && p.active[c].route == e.route.id && p.active[c].hostname == h;
      assert Published(p, a).active[c] == p.active[c];
    }
  }

  lemma NewNameOwned(p: Table, a: Alias)
    requires a.route in p.routes && p.routes[a.route].route.id == a.route
    ensures Owned(Published(p, a), a.hostname, p.routes[a.route])
  {
    assert Published(p, a).active[a.domain] == a;
  }

  lemma PublishedNames(p: Table, hosts: map<string, Entry>, a: Alias)
    requires NamesRoutes(p, hosts) && NamesAliases(p, hosts) && a.route in p.routes
             && (a.hostname in hosts ==> hosts[a.hostname] == p.routes[a.route])
    ensures NamesRoutes(Published(p, a), hosts[a.hostname := p.routes[a.route]])
    ensures NamesAliases(Published(p, a), hosts[a.hostname := p.routes[a.route]])
  {
  }

  lemma PublishedHosts(p: Table, hosts: map<string, Entry>, a: Alias)
    requires Inv(p) && HostsExact(p, hosts) && Fits(p, a) && a.domain !in p.active
    ensures HostsExact(Published(p, a), hosts[a.hostname := p.routes[a.route]])
  {
    assert a.hostname in hosts ==> hosts[a.hostname] == p.routes[a.route] by {
      FreeByIndex(p, hosts, a.hostname, a.route);
      assert a.hostname in hosts ==> Owned(p, a.hostname, hosts[a.hostname]);
    }
    PublishedNames(p, hosts, a);
    var after := hosts[a.hostname := p.routes[a.route]];
    forall h | h in after ensures Owned(Published(p, a), h, after[h]) {
      if h == a.hostname { NewNameOwned(p, a); } else { OwnedWith(p, h, hosts[h], a); }
    }
  }

  function Listed(index: map<string, set<string>>, a: Alias): map<string, set<string>> {
    index[a.route := (if a.route in index then index[a.route] else {}) + {a.domain}]
  }

  lemma ListedExact(p: Table, index: map<string, set<string>>, a: Alias)
    requires IndexExact(p, index) && a.domain !in p.active
    ensures IndexExact(Published(p, a), Listed(index, a))
  {
    var after, q := Listed(index, a), Published(p, a);
    forall id | id in after ensures after[id] == AliasesOf(q, id) {
      IndexNames(p, index, id);
      assert AliasesOf(q, id) == AliasesOf(p, id) + if id == a.route then {a.domain} else {};
    }
  }

  lemma PublishedExact(p: Table, hosts: map<string, Entry>, index: map<string, set<string>>, a: Alias)
    requires Exact(p, hosts, index) && a.domain !in p.active && a.domain in p.desired && p.desired[a.domain] == a
             && Fits(p, a)
    ensures Exact(Published(p, a), hosts[a.hostname := p.routes[a.route]], Listed(index, a))
  {
    PublishedKeeps(p, a);
    PublishedHosts(p, hosts, a);
    ListedExact(p, index, a);
  }

  /** What the registry tests before publishing is what the model asks. */
  lemma FitsByIndex(p: Table, hosts: map<string, Entry>, a: Alias)
    requires Inv(p) && HostsExact(p, hosts)
    ensures Fits(p, a) <==>
      && a.route in p.routes && p.routes[a.route].route.lease == a.preview
         && a.hostname != p.routes[a.route].route.hostname
      && (a.hostname in hosts ==> hosts[a.hostname] == p.routes[a.route])
  {
    FreeByIndex(p, hosts, a.hostname, a.route);
    assert a.hostname in hosts ==> Owned(p, a.hostname, hosts[a.hostname]);
  }

  // ---------------------------------------------------------------- routes

  lemma OwnedAmong(p: Table, q: Table, h: string, e: Entry)
    requires Owned(p, h, e) && e.route.id in q.routes && q.routes[e.route.id] == e && q.active == p.active
    ensures Owned(q, h, e)
  {
    if p.routes[e.route.id].route.hostname != h {
      var c :| c in p.active && p.active[c].route == e.route.id && p.active[c].hostname == h;
      assert q.active[c] == p.active[c];
    }
  }

  lemma UnroutedNames(p: Table, hosts: map<string, Entry>, id: string)
    requires Inv(p) && NamesRoutes(p, hosts) && NamesAliases(p, hosts) && id in p.routes && forall d ::
             d in p.active ==> p.active[d].route != id
    ensures NamesRoutes(p.(routes := p.routes - {id}), hosts - {p.routes[id].route.hostname})
    ensures NamesAliases(p.(routes := p.routes - {id}), hosts - {p.routes[id].route.hostname})
  {
    forall k | k in p.routes && k != id ensures p.routes[k].route.hostname != p.routes[id].route.hostname {
      assert RoutesApart(p, k, id);
    }
    forall d | d in p.active ensures p.active[d].hostname != p.routes[id].route.hostname { assert Sound(p, d); }
  }

  lemma UnroutedOwned(p: Table, hosts: map<string, Entry>, id: string, h: string)
    requires HostsExact(p, hosts) && id in p.routes && h in hosts && h != p.routes[id].route.hostname && forall d ::
             d in p.active ==> p.active[d].route != id
    ensures Owned(p.(routes := p.routes - {id}), h, hosts[h])
  {
    assert Owned(p, h, hosts[h]) && hosts[h].route.id != id;
    OwnedAmong(p, p.(routes := p.routes - {id}), h, hosts[h]);
  }

  lemma UnroutedKeeps(p: Table, id: string)
    requires Inv(p) && forall d :: d in p.active ==> p.active[d].route != id
    ensures Inv(p.(routes := p.routes - {id}))
  {
    WithoutRouteKeeps(p, id);
    assert p.active - AliasesOf(p, id) == p.active;
  }

  lemma SameAliases(p: Table, q: Table, index: map<string, set<string>>)
    requires IndexExact(p, index) && q.active == p.active
    ensures IndexExact(q, index)
  {
    assert forall k :: AliasesOf(q, k) == AliasesOf(p, k);
  }

  lemma UnroutedExact(p: Table, hosts: map<string, Entry>, index: map<string, set<string>>, id: string)
    requires Exact(p, hosts, index) && id in p.routes && forall d :: d in p.active ==> p.active[d].route != id
    ensures Exact(p.(routes := p.routes - {id}), hosts - {p.routes[id].route.hostname}, index)
  {
    UnroutedKeeps(p, id);
    UnroutedNames(p, hosts, id);
    forall h | h in hosts && h != p.routes[id].route.hostname
        ensures Owned(p.(routes := p.routes - {id}), h, hosts[h]) {
      UnroutedOwned(p, hosts, id, h);
    }
    SameAliases(p, p.(routes := p.routes - {id}), index);
  }

  lemma PlacedNames(p: Table, hosts: map<string, Entry>, route: Route)
    requires Inv(p) && NamesRoutes(p, hosts) && NamesAliases(p, hosts) && Free(p, route.hostname, route.id)
    requires forall d :: d in p.active ==> p.active[d].route != route.id
    ensures NamesRoutes(Placed(p, route), hosts[route.hostname := Entry(p.next, route)])
    ensures NamesAliases(Placed(p, route), hosts[route.hostname := Entry(p.next, route)])
  {
    forall k | k in p.routes && k != route.id ensures p.routes[k].route.hostname != route.hostname {
      assert !Owns(p, route.hostname, k);
    }
    forall d | d in p.active ensures p.active[d].hostname != route.hostname {
      assert Sound(p, d) && !Owns(p, route.hostname, p.active[d].route);
    }
  }

  lemma PlacedOwned(p: Table, hosts: map<string, Entry>, route: Route, h: string)
    requires HostsExact(p, hosts) && h in hosts && h != route.hostname && forall d :: d in p.active ==>
             p.active[d].route != route.id
    requires route.id in p.routes ==> p.routes[route.id].route.hostname == route.hostname
    ensures Owned(Placed(p, route), h, hosts[h])
  {
    assert Owned(p, h, hosts[h]) && hosts[h].route.id != route.id;
    OwnedAmong(p, Placed(p, route), h, hosts[h]);
  }

  lemma PlacedExact(p: Table, hosts: map<string, Entry>, index: map<string, set<string>>, route: Route)
    requires Exact(p, hosts, index) && !p.closed && Free(p, route.hostname, route.id) && forall d :: d in p.active ==>
             p.active[d].route != route.id
    requires route.id in p.routes ==> p.routes[route.id].route.hostname == route.hostname
    ensures Exact(Placed(p, route), hosts[route.hostname := Entry(p.next, route)], index)
  {
    PlacedKeeps(p, route);
    PlacedNames(p, hosts, route);
    forall h | h in hosts && h != route.hostname ensures Owned(Placed(p, route), h, hosts[h]) {
      PlacedOwned(p, hosts, route, h);
    }
    SameAliases(p, Placed(p, route), index);
  }

  // ---------------------------------------------------------------- publishing in any order

  lemma RemovedOneMore(active: map<string, Alias>, all: set<string>, ids: set<string>, d: string)
    requires d in ids && ids <= all
    ensures active - (all - ids) - {d} == active - (all - (ids - {d}))
  {
  }

  lemma WithOneMore(p: Table, ds: set<string>, d: string)
    requires ds + {d} <= p.desired.Keys && p.desired[d].domain == d
    ensures WithAliases(p, ds + {d}) == Published(WithAliases(p, ds), p.desired[d])
  {
    assert WithAliases(p, ds + {d}).active == WithAliases(p, ds).active[d := p.desired[d]];
  }

  lemma WithNone(p: Table)
    ensures WithAliases(p, {}) == p
  {
    assert WithAliases(p, {}).active == p.active;
  }

  lemma OwnsWith(p: Table, ds: set<string>, h: string, j: string)
    requires Inv(p) && ds <= p.desired.Keys && forall d :: d in ds ==>
             p.desired[d].route != j || p.desired[d].hostname != h
    ensures Owns(WithAliases(p, ds), h, j) == Owns(p, h, j)
  {
    var q := WithAliases(p, ds);
    forall d | d in p.active ensures d in q.active && q.active[d] == p.active[d] { assert Sound(p, d); }
    assert forall d :: d in q.active && d !in p.active ==> d in ds && q.active[d] == p.desired[d];
  }

  /** Publishing other aliases never changes whether an alias fits: they have other names or its own route. */
  lemma FitsWith(p: Table, ds: set<string>, a: Alias)
    requires Inv(p) && ds <= p.desired.Keys && forall d :: d in ds ==>
             p.desired[d].route == a.route || p.desired[d].hostname != a.hostname
    ensures Fits(WithAliases(p, ds), a) == Fits(p, a)
  {
    var q := WithAliases(p, ds);
    forall j | j in p.routes && j != a.route ensures Owns(q, a.hostname, j) == Owns(p, a.hostname, j) {
      OwnsWith(p, ds, a.hostname, j);
    }
    assert Free(q, a.hostname, a.route) == Free(p, a.hostname, a.route);
  }

  lemma EligibleStep(p: Table, id: string, d: string, left: set<string>)
    requires d in left && left <= p.desired.Keys
    ensures Eligible(p, {id}) - (left - {d})
         == if p.desired[d].route == id && Fits(p, p.desired[d]) then Eligible(p, {id}) - left + {d}
             else Eligible(p, {id}) - left
    ensures forall e :: e in Eligible(p, {id}) - left ==> p.desired[e].route == id
  {
    assert d in Eligible(p, {id}) <==> p.desired[d].route == id && Fits(p, p.desired[d]);
  }

  lemma WithBoth(p: Table, a: set<string>, b: set<string>)
    requires a <= p.desired.Keys && b <= p.desired.Keys
    ensures WithAliases(WithAliases(p, a), b) == WithAliases(p, a + b)
  {
    assert WithAliases(WithAliases(p, a), b).active == WithAliases(p, a + b).active;
  }

  /** Publishing for some routes leaves the eligible aliases of another route as they were. */
  lemma EligibleApart(p: Table, ids: set<string>, id: string)
    requires Inv(p) && id !in ids
    ensures Eligible(Activated(p, ids), {id}) == Eligible(p, {id})
  {
    forall d | d in p.desired && p.desired[d].route == id
        ensures Fits(Activated(p, ids), p.desired[d]) == Fits(p, p.desired[d]) {
      forall e | e in Eligible(p, ids) ensures p.desired[e].hostname != p.desired[d].hostname {
        assert AliasesApart(p.desired, e, d);
      }
      FitsWith(p, Eligible(p, ids), p.desired[d]);
    }
  }

  lemma ActivatedMore(p: Table, ids: set<string>, id: string)
    requires Inv(p) && id !in ids
    ensures Activated(Activated(p, ids), {id}) == Activated(p, ids + {id})
  {
    EligibleApart(p, ids, id);
    assert Eligible(p, ids) + Eligible(p, {id}) == Eligible(p, ids + {id});
    WithBoth(p, Eligible(p, ids), Eligible(p, {id}));
  }

  lemma ActivatedNone(p: Table)
    ensures Activated(p, {}) == p
  {
    assert Eligible(p, {}) == {};
    WithNone(p);
  }

  /** Aliases that a snapshot does not list unchanged. */
  function Dropped(active: map<string, Alias>, next: map<string, Alias>): set<string> {
    set d | d in active && !(d in next && next[d] == active[d])
  }

  lemma ReplacedExact(p: Table, hosts: map<string, Entry>, index: map<string, set<string>>, next: map<string, Alias>)
    requires Exact(p, hosts, index) && !p.closed && DesiredKeyed(next) && forall d :: d in p.active ==>
             d in next && next[d] == p.active[d]
    ensures Exact(p.(desired := next), hosts, index)
  {
    var q := p.(desired := next);
    forall j, k ensures RoutesApart(q, j, k) { assert RoutesApart(p, j, k); }
    forall d | d in q.active ensures Sound(q, d) { assert Sound(p, d); }
    forall h | h in hosts ensures Owned(q, h, hosts[h]) { OwnedAmong(p, q, h, hosts[h]); }
    SameAliases(p, q, index);
  }

  lemma KeptIs(active: map<string, Alias>, next: map<string, Alias>)
    ensures active - Dropped(active, next) == Kept(active, next)
  {
  }

  function Domains(xs: seq<Option<Alias>>): set<string> {
    if xs == [] then {} else Domains(xs[..|xs| - 1]) + if xs[|xs| - 1].Some? then {xs[|xs| - 1].value.domain} else {}
  }

  function Names(xs: seq<Option<Alias>>): set<string> {
    if xs == [] then {} else Names(xs[..|xs| - 1]) + if xs[|xs| - 1].Some? then {xs[|xs| - 1].value.hostname} else {}
  }

  lemma {:induction false} ClashesMean(xs: seq<Option<Alias>>, a: Alias)
    ensures (exists i :: 0 <= i < |xs| && xs[i].Some? && Clashes(xs[i].value, a))
            <==> a.domain in Domains(xs) || a.hostname in Names(xs)
  {
    if xs != [] {
      var n := |xs| - 1;
      ClashesMean(xs[..n], a);
      if exists i :: 0 <= i < n && xs[..n][i].Some? && Clashes(xs[..n][i].value, a) {
        var i :| 0 <= i < n && xs[..n][i].Some? && Clashes(xs[..n][i].value, a);
        assert xs[i].Some? && Clashes(xs[i].value, a);
      } else {
        assert forall i :: 0 <= i < n && xs[i].Some? ==> xs[..n][i] == xs[i] && !Clashes(xs[i].value, a);
      }
    }
  }

  /** What one more alias does to the verdict and the keyed snapshot. */
  lemma ScreenNext(xs: seq<Option<Alias>>, i: nat)
    requires i < |xs| && Screen(xs[..i]) == Done
    ensures Screen(xs[..i + 1]) == if xs[i].None? then Invalid
                                   else if xs[i].value.domain in Domains(xs[..i])
                                           || xs[i].value.hostname in Names(xs[..i]) then Conflict
                                   else Done
    ensures xs[i].Some? ==> ByDomain(xs[..i + 1]) == ByDomain(xs[..i])[xs[i].value.domain := xs[i].value]
    ensures xs[i].Some? ==>
            && Domains(xs[..i + 1]) == Domains(xs[..i]) + {xs[i].value.domain}
            && Names(xs[..i + 1]) == Names(xs[..i]) + {xs[i].value.hostname}
  {
    var ys := xs[..i + 1];
    assert ys[..i] == xs[..i];
    if xs[i].Some? {
      ClashesMean(xs[..i], xs[i].value);
      assert forall j :: 0 <= j < i ==> ys[j] == xs[..i][j];
    }
  }

  lemma {:induction false} ScreenStops(xs: seq<Option<Alias>>, i: nat)
    requires i <= |xs| && Screen(xs[..i]) != Done
    ensures Screen(xs) == Screen(xs[..i])
    decreases |xs|
  {
    if i < |xs| {
      assert xs[..|xs| - 1][..i] == xs[..i];
      ScreenStops(xs[..|xs| - 1], i);
    } else {
      assert xs[..i] == xs;
    }
  }

  class PreviewRegistry {
    const maximum: nat
    var closed: bool
    var next: nat
    var routes: map<string, Entry>
    var hosts: map<string, Entry>
    var active: map<string, Alias>
    var index: map<string, set<string>>
    var desired: map<string, Alias>

    ghost function View(): Table
      reads this
    {
      Table(maximum, closed, next, routes, active, desired)
    }

    ghost predicate Valid()
      reads this
    {
      Exact(View(), hosts, index)
    }

    constructor (maximum: nat)
      ensures Valid() && View() == Empty(maximum)
    {
      this.maximum := maximum;
      closed, next, routes, hosts, active, index, desired := false, 0, map[], map[], map[], map[], map[];
    }

    /** Delete an alias from the three maps. */
    method DropAlias(a: Alias)
      modifies `active, `hosts, `index
      ensures active == old(active) - {a.domain} && hosts == old(hosts) - {a.hostname}
              && index == Unlisted(old(index), a)
    {
      active := active - {a.domain};
      hosts := hosts - {a.hostname};
      if a.route in index {
        var ids := index[a.route] - {a.domain};
        if ids == {} { index := index - {a.route}; } else { index := index[a.route := ids]; }
      }
    }

    method RemoveAlias(a: Alias)
      requires Valid() && a.domain in active && active[a.domain] == a
      modifies `active, `hosts, `index
      ensures Valid() && View() == old(View()).(active := old(active) - {a.domain})
    {
      RemovedExact(View(), hosts, index, a.domain);
      DropAlias(a);
    }

    /** Enter an alias into the three maps. */
    method EnterAlias(a: Alias, entry: Entry)
      modifies `active, `hosts, `index
      ensures active == old(active)[a.domain := a] && hosts == old(hosts)[a.hostname := entry]
              && index == Listed(old(index), a)
    {
      active := active[a.domain := a];
      var ids := if a.route in index then index[a.route] else {};
      index := index[a.route := ids + {a.domain}];
      hosts := hosts[a.hostname := entry];
    }

    method PublishAlias(a: Alias)
      requires Valid() && a.domain in desired && desired[a.domain] == a
      modifies `active, `hosts, `index
      ensures Valid() && View() == if Fits(old(View()), a) then Published(old(View()), a) else old(View())
    {
      if a.domain in active {
        assert Sound(View(), a.domain);
        ActiveFits(View(), a.domain);
        return;
      }
      FitsByIndex(View(), hosts, a);
      if a.route !in routes || routes[a.route].route.lease != a.preview
         || a.hostname == routes[a.route].route.hostname {
        return;
      }
      if a.hostname in hosts && hosts[a.hostname] != routes[a.route] { return; }
      PublishedExact(View(), hosts, index, a);
      EnterAlias(a, routes[a.route]);
    }

    /** Remove one of the aliases still listed. */
    method RemoveListed(ghost p: Table, ghost all: set<string>, d: string, ids: set<string>)
      requires Valid() && d in ids && ids <= all <= p.active.Keys && View() == p.(active := p.active - (all - ids))
      modifies `active, `hosts, `index
      ensures Valid() && View() == p.(active := p.active - (all - (ids - {d})))
    {
      RemovedOneMore(p.active, all, ids, d);
      RemovedExact(View(), hosts, index, d);
      DropAlias(active[d]);
    }

    method RemoveAliasesForRoute(id: string)
      requires Valid()
      modifies `active, `hosts, `index
      ensures Valid() && View() == WithoutAliases(old(View()), id)
    {
      ghost var p := View();
      IndexNames(p, index, id);
      RemoveAll(if id in index then index[id] else {});
      Unlist(id);
    }

    method RemoveAll(listed: set<string>)
      requires Valid() && listed <= active.Keys
      modifies `active, `hosts, `index
      ensures Valid() && View() == old(View()).(active := old(active) - listed)
    {
      var ids := listed;
      while ids != {}
        invariant Valid() && ids <= listed && View() == old(View()).(active := old(active) - (listed - ids))
        decreases ids
      {
        var d :| d in ids;
        RemoveListed(old(View()), listed, d, ids);
        ids := ids - {d};
      }
      assert listed - {} == listed;
    }

    /** The per-route set is already gone when its last alias is. */
    method Unlist(id: string)
      requires Valid() && AliasesOf(View(), id) == {}
      modifies `index
      ensures index == old(index)
    {
      IndexNames(View(), index, id);
      index := index - {id};
    }

    /** Publish one more desired alias of a route, if it fits. */
    method PublishNext(ghost p: Table, ghost done: set<string>, d: string)
      requires Valid() && Inv(p) && done <= p.desired.Keys && View() == WithAliases(p, done) && d in p.desired
      requires forall e :: e in done ==>
               p.desired[e].route == p.desired[d].route || p.desired[e].hostname != p.desired[d].hostname
      modifies `active, `hosts, `index
      ensures Valid() && View() == WithAliases(p, if Fits(p, p.desired[d]) then done + {d} else done)
    {
      FitsWith(p, done, p.desired[d]);
      WithOneMore(p, done, d);
      PublishAlias(desired[d]);
    }

    /** One round of the loop below. */
    method Consider(ghost p: Table, id: string, d: string, left: set<string>)
      requires Valid() && Inv(p) && d in left && left <= p.desired.Keys
               && View() == WithAliases(p, Eligible(p, {id}) - left)
      modifies `active, `hosts, `index
      ensures Valid() && View() == WithAliases(p, Eligible(p, {id}) - (left - {d}))
    {
      EligibleStep(p, id, d, left);
      if desired[d].route == id { PublishNext(p, Eligible(p, {id}) - left, d); }
    }

    method ActivateDesired(id: string)
      requires Valid()
      modifies `active, `hosts, `index
      ensures Valid() && View() == Activated(old(View()), {id})
    {
      ghost var p := View();
      WithNone(p);
      var left := desired.Keys;
      assert Eligible(p, {id}) - left == {};
      while left != {}
        invariant Valid() && left <= p.desired.Keys && View() == WithAliases(p, Eligible(p, {id}) - left)
        decreases left
      {
        var d :| d in left;
        Consider(p, id, d, left);
        left := left - {d};
      }
      assert Eligible(p, {id}) - {} == Eligible(p, {id});
    }

    method RemoveRoute(id: string)
      requires Valid() && id in routes
      modifies `routes, `active, `hosts, `index
      ensures Valid() && View() == WithoutRoute(old(View()), id)
    {
      RemoveAliasesForRoute(id);
      UnroutedExact(View(), hosts, index, id);
      hosts := hosts - {routes[id].route.hostname};
      routes := routes - {id};
    }

    method PlaceRoute(route: Route)
      requires Exact(Placed(View(), route), hosts[route.hostname := Entry(next, route)], index)
      modifies `routes, `hosts, `next
      ensures Valid() && View() == Placed(old(View()), route)
    {
      var entry := Entry(next, route);
      next := next + 1;
      routes := routes[route.id := entry];
      hosts := hosts[route.hostname := entry];
    }

    method Attach(route: Route, valid: bool) returns (v: Verdict)
      requires Valid()
      modifies `routes, `active, `hosts, `index, `next
      ensures Valid() && (View(), v) == Previews.Attach(old(View()), route, valid)
    {
      if !valid { return Invalid; }
      if closed { return IsClosed; }
      if route.id in routes {
        if Same(routes[route.id].route, route) { return Done; }
        if !Newer(routes[route.id].route, route) { return Stale; }
      }
      FreeByIndex(View(), hosts, route.hostname, route.id);
      if route.hostname in hosts && hosts[route.hostname].route.id != route.id { return Conflict; }
      if route.id !in routes && |routes| >= maximum { return Conflict; }
      FewerAliasesFreer(View(), route.id, route.hostname);
      RemoveAliasesForRoute(route.id);
      PlacedExact(View(), hosts, index, route);
      PlaceRoute(route);
      ActivateDesired(route.id);
      return Done;
    }

    method CarrierDone(e: Entry)
      requires Valid()
      modifies `routes, `active, `hosts, `index
      ensures Valid() && View() == Previews.CarrierDone(old(View()), e)
    {
      if e.route.id in routes && routes[e.route.id] == e { RemoveRoute(e.route.id); }
    }

    method Detach(id: string, identity: Identity, revision: nat, valid: bool) returns (v: Verdict)
      requires Valid()
      modifies `routes, `active, `hosts, `index
      ensures Valid() && (View(), v) == Previews.Detach(old(View()), id, identity, revision, valid)
    {
      if !valid || revision == 0 { return Invalid; }
      if closed || id !in routes { return Done; }
      if routes[id].route.revision != revision || routes[id].route.identity != identity { return Stale; }
      RemoveRoute(id);
      return Done;
    }

    method DetachAdmission(a: Admission, valid: bool) returns (v: Verdict)
      requires Valid()
      modifies `routes, `active, `hosts, `index
      ensures Valid() && (View(), v) == Previews.DetachAdmission(old(View()), a, valid)
    {
      if !valid || a.attachment == 0 { return Invalid; }
      if closed || a.route !in routes { return Done; }
      var r := routes[a.route].route;
      if r.lineage.operation != a.operation || r.attachment != a.attachment || r.identity != a.identity
         || r.revision != a.revision || r.epoch != a.epoch {
        return Stale;
      }
      RemoveRoute(a.route);
      return Done;
    }

    /** Check a snapshot in list order and key it by domain. */
    method ScreenSnapshot(xs: seq<Option<Alias>>) returns (v: Verdict, next: map<string, Alias>)
      ensures v == Screen(xs) && (v == Done ==> next == ByDomain(xs))
    {
      next := map[];
      var owners: map<string, string> := map[];
      for i := 0 to |xs|
        invariant Screen(xs[..i]) == Done && next == ByDomain(xs[..i])
        invariant next.Keys == Domains(xs[..i]) && owners.Keys == Names(xs[..i]) && forall h :: h in owners ==>
                  owners[h] in next
      {
        ScreenNext(xs, i);
        if xs[i].None? { ScreenStops(xs, i + 1); return Invalid, next; }
        var a := xs[i].value;
        if a.domain in next || (a.hostname in owners && owners[a.hostname] != a.domain) {
          ScreenStops(xs, i + 1);
          return Conflict, next;
        }
        next := next[a.domain := a];
        owners := owners[a.hostname := a.domain];
      }
      assert xs[..|xs|] == xs;
      v := Done;
    }

    method CheckStale(next: map<string, Alias>) returns (ok: bool)
      ensures ok == NoneStale(desired, next)
    {
      var left := desired.Keys;
      while left != {}
        invariant left <= desired.Keys && forall d :: d in desired && d !in left && d in next ==>
                  Advances(desired[d], next[d])
        decreases left
      {
        var d :| d in left;
        if d in next && !Advances(desired[d], next[d]) { return false; }
        left := left - {d};
      }
      return true;
    }

    method SetDesired(next: map<string, Alias>)
      requires Valid() && !closed && DesiredKeyed(next)
      modifies `desired, `active, `hosts, `index
      ensures Valid() && View() == old(View()).(active := Kept(old(active), next), desired := next)
    {
      KeptIs(active, next);
      RemoveAll(Dropped(active, next));
      ReplacedExact(View(), hosts, index, next);
      desired := next;
    }

    method ActivateAll()
      requires Valid()
      modifies `active, `hosts, `index
      ensures Valid() && View() == Activated(old(View()), routes.Keys)
    {
      ghost var p := View();
      var left := routes.Keys;
      ActivatedNone(p);
      assert routes.Keys - left == {};
      while left != {}
        invariant Valid() && left <= routes.Keys && View() == Activated(p, routes.Keys - left)
        decreases left
      {
        var id :| id in left;
        ActivatedMore(p, routes.Keys - left, id);
        ActivateDesired(id);
        assert routes.Keys - left + {id} == routes.Keys - (left - {id});
        left := left - {id};
      }
      assert routes.Keys - {} == routes.Keys;
    }

    method Reconcile(xs: seq<Option<Alias>>) returns (v: Verdict)
      requires Valid()
      modifies `desired, `active, `hosts, `index
      ensures Valid() && (View(), v) == Previews.Reconcile(old(View()), xs)
    {
      var next;
      v, next := ScreenSnapshot(xs);
      if v != Done { return; }
      if closed { return IsClosed; }
      var ok := CheckStale(next);
      if !ok { return Stale; }
      ScreenedIsKeyed(xs);
      SetDesired(next);
      ActivateAll();
    }

    method DetachAlias(a: Alias, valid: bool) returns (v: Verdict)
      requires Valid()
      modifies `active, `hosts, `index
      ensures Valid() && (View(), v) == Previews.DetachAlias(old(View()), a, valid)
    {
      if !valid { return Invalid; }
      if a.domain !in active { return Done; }
      if active[a.domain] != a { return Stale; }
      RemoveAlias(a);
      return Done;
    }

    method Close()
      requires Valid()
      modifies this
      ensures Valid() && View() == Shut(old(View()))
    {
      closed, routes, hosts, active, index, desired := true, map[], map[], map[], map[], map[];
    }

    /** Exact name first, then the one-label wildcard. */
    method Lookup(h: string) returns (r: Option<Entry>)
      requires Valid()
      ensures r.Some? ==> r.value.route.id in routes && r.value == routes[r.value.route.id] && forall k ::
              Finds(View(), h, k) <==> k == r.value.route.id
      ensures r.None? ==> forall k :: !Finds(View(), h, k)
    {
      HostsDecide(View(), hosts, h);
      if h in hosts { return Some(hosts[h]); }
      var w := Wildcard(h);
      if w.None? { return None; }
      HostsDecide(View(), hosts, w.value);
      if w.value in hosts { return Some(hosts[w.value]); }
      return None;
    }
  }
}
