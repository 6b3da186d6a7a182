/** Publishing an alias directly, without a snapshot: exactly when the index stays exact. */
module PreviewAliases {
  import opened Previews
  import opened PreviewTheorems
  import opened PreviewRegistries

  datatype Indexed = Indexed(p: Table, hosts: map<string, Entry>)

  /** A strictly later projection of the alias that is active. */
  predicate Supersedes(current: Alias, next: Alias) {
    Advances(current, next) && current.domainGeneration < next.domainGeneration
  }

  function AttachAlias(x: Indexed, a: Alias, valid: bool): (Indexed, Verdict) {
    var p := x.p;
    if !valid then (x, Invalid)
    else if p.closed then (x, IsClosed)
    else if a.route !in p.routes || p.routes[a.route].route.lease != a.preview then (x, Stale)
    else if a.hostname == p.routes[a.route].route.hostname then (x, Conflict)
    else if a.domain in p.active && p.active[a.domain] == a then (x, Done)
    else if a.domain in p.active && !Supersedes(p.active[a.domain], a) then (x, Stale)
    else
      var hosts := if a.domain in p.active then x.hosts - {a.hostname} else x.hosts;
      if a.hostname in hosts && hosts[a.hostname] != p.routes[a.route] then (x.(hosts := hosts), Conflict)
      else (Indexed(Published(p, a), hosts[a.hostname := p.routes[a.route]]), Done)
  }

  function RemoveAlias(x: Indexed, d: string): Indexed
    requires d in x.p.active
  {
    Indexed(x.p.(active := x.p.active - {d}), x.hosts - {x.p.active[d].hostname})
  }

  /** The registry apart from desired state: no name is claimed twice and the host index is exact. */
  ghost predicate Clear(x: Indexed) {
    && RoutesKeyed(x.p) && HostsExact(x.p, x.hosts)
    && (forall d :: d in x.p.active ==> x.p.active[d].domain == d && forall k :: k in x.p.routes ==>
       x.p.routes[k].route.hostname != x.p.active[d].hostname)
    && (forall d, e :: AliasesApart(x.p.active, d, e))
  }

  /** Another active alias already has the name. */
  predicate Taken(p: Table, a: Alias) {
    exists d :: d in p.active && d != a.domain && p.active[d].hostname == a.hostname
  }

  /** The attach goes through under a name that another active alias of the same route already has. */
  predicate Doubles(p: Table, a: Alias, valid: bool) {
    && valid && !p.closed && a.route in p.routes && p.routes[a.route].route.lease == a.preview
       && a.hostname != p.routes[a.route].route.hostname
    && (a.domain !in p.active || Supersedes(p.active[a.domain], a))
    && exists d :: d in p.active && d != a.domain && p.active[d].hostname == a.hostname && p.active[d].route == a.route
  }

  lemma DoublesIsTaken(x: Indexed, a: Alias, valid: bool)
    requires Clear(x)
    ensures Doubles(x.p, a, valid) <==> AttachAlias(x, a, valid).0.p != x.p && Taken(x.p, a)
  {
    if Doubles(x.p, a, valid) {
      var d :| d in x.p.active && d != a.domain && x.p.active[d].hostname == a.hostname
          && x.p.active[d].route == a.route;
      assert a.domain in x.p.active ==> !AliasesApart(x.p.active, d, a.domain);
      assert AttachAlias(x, a, valid).0.p.active[a.domain] == a;
    }
  }

  /** A direct attach keeps the registry clear if and only if it does not double a name within its route. */
  lemma AttachAliasExactly(x: Indexed, a: Alias, valid: bool)
    requires Clear(x)
    ensures Clear(AttachAlias(x, a, valid).0) <==> !Doubles(x.p, a, valid)
  {
    DoublesIsTaken(x, a, valid);
    AttachAliasClear(x, a, valid);
  }

  lemma TakenIsDoubled(p: Table, q: Table, a: Alias)
    requires Taken(p, a) && q == Published(p, a)
    ensures exists d, e :: !AliasesApart(q.active, d, e)
  {
    var d :| d in p.active && d != a.domain && p.active[d].hostname == a.hostname;
    assert !AliasesApart(q.active, d, a.domain);
  }

  lemma AttachAliasClear(x: Indexed, a: Alias, valid: bool)
    requires Clear(x)
    ensures var (y, v) := AttachAlias(x, a, valid); Clear(y) <==> !(y.p != x.p && Taken(x.p, a))
  {
    var (y, v) := AttachAlias(x, a, valid);
    if y.p != x.p {
      if Taken(x.p, a) {
        TakenIsDoubled(x.p, y.p, a);
      } else {
        AttachClear(x, a);
      }
    } else {
      assert y.hosts == x.hosts by { NoConflictAfterDelete(x, a, valid); }
    }
  }

  /** The conflict test after deleting the old name never fires. */
  lemma NoConflictAfterDelete(x: Indexed, a: Alias, valid: bool)
    requires Clear(x) && AttachAlias(x, a, valid).0.p == x.p
    ensures AttachAlias(x, a, valid).0.hosts == x.hosts
  {
    if a.domain in x.p.active && Supersedes(x.p.active[a.domain], a) {
      assert x.p.active[a.domain].hostname == a.hostname;
    }
  }

  lemma OwnedAfter(p: Table, h: string, e: Entry, a: Alias)
    requires Owned(p, h, e) && h != a.hostname && (a.domain in p.active ==> p.active[a.domain].hostname == a.hostname)
    ensures Owned(Published(p, a), h, e)
  {
    if p.routes[e.route.id].route.hostname != h {
      var c :| c in p.active && p.active[c].route == e.route.id && p.active[c].hostname == h;
      assert Published(p, a).active[c] == p.active[c];
    }
  }

  lemma NamesAfter(x: Indexed, a: Alias)
    requires Clear(x) && a.route in x.p.routes && !Taken(x.p, a)
    requires forall k :: k in x.p.routes ==> x.p.routes[k].route.hostname != a.hostname
    ensures var hosts := x.hosts[a.hostname := x.p.routes[a.route]];
            NamesRoutes(Published(x.p, a), hosts) && NamesAliases(Published(x.p, a), hosts)
  {
  }

  /** No route has the name of an alias that passes the conflict test. */
  lemma NameIsFree(x: Indexed, a: Alias)
    requires Clear(x) && AttachAlias(x, a, true).0.p != x.p
    ensures a.route in x.p.routes && forall k :: k in x.p.routes ==> x.p.routes[k].route.hostname != a.hostname
  {
    if a.domain !in x.p.active {
      forall k | k in x.p.routes ensures x.p.routes[k].route.hostname != a.hostname {
        assert x.p.routes[k].route.id == k && x.p.routes[k].route.hostname in x.hosts;
      }
    }
  }

  lemma HostsAfter(x: Indexed, a: Alias)
    requires Clear(x) && a.route in x.p.routes && !Taken(x.p, a) && forall k :: k in x.p.routes ==>
             x.p.routes[k].route.hostname != a.hostname
    requires a.domain in x.p.active ==> x.p.active[a.domain].hostname == a.hostname
    ensures HostsExact(Published(x.p, a), x.hosts[a.hostname := x.p.routes[a.route]])
  {
    var hosts := x.hosts[a.hostname := x.p.routes[a.route]];
    NamesAfter(x, a);
    NewNameOwned(x.p, a);
    forall h | h in hosts && h != a.hostname ensures Owned(Published(x.p, a), h, hosts[h]) {
      OwnedAfter(x.p, h, x.hosts[h], a);
    }
  }

  lemma ApartAfter(p: Table, a: Alias)
    requires RoutesKeyed(p) && !Taken(p, a) && forall d, e :: AliasesApart(p.active, d, e)
    ensures RoutesKeyed(Published(p, a)) && forall d, e :: AliasesApart(Published(p, a).active, d, e)
  {
    var q := Published(p, a);
    forall j, k ensures RoutesApart(q, j, k) { assert RoutesApart(p, j, k); }
    forall d, e ensures AliasesApart(q.active, d, e) { assert AliasesApart(p.active, d, e); }
  }

  lemma PublishedClear(x: Indexed, a: Alias)
    requires Clear(x) && a.route in x.p.routes && !Taken(x.p, a) && forall k :: k in x.p.routes ==>
             x.p.routes[k].route.hostname != a.hostname
    requires a.domain in x.p.active ==> x.p.active[a.domain].hostname == a.hostname
    ensures Clear(Indexed(Published(x.p, a), x.hosts[a.hostname := x.p.routes[a.route]]))
  {
    HostsAfter(x, a);
    ApartAfter(x.p, a);
  }

  lemma AttachPublishes(x: Indexed, a: Alias)
    requires AttachAlias(x, a, true).0.p != x.p
    ensures a.route in x.p.routes
    ensures AttachAlias(x, a, true).0 == Indexed(Published(x.p, a), x.hosts[a.hostname := x.p.routes[a.route]])
    ensures a.domain in x.p.active ==> x.p.active[a.domain].hostname == a.hostname
  {
    assert a.route in x.p.routes;
    assert (x.hosts - {a.hostname})[a.hostname := x.p.routes[a.route]] == x.hosts[a.hostname := x.p.routes[a.route]];
  }

  lemma AttachClear(x: Indexed, a: Alias)
    requires Clear(x) && AttachAlias(x, a, true).0.p != x.p && !Taken(x.p, a)
    ensures Clear(AttachAlias(x, a, true).0)
  {
    NameIsFree(x, a);
    AttachPublishes(x, a);
    PublishedClear(x, a);
  }

  /** Two domains under one name of one route: removing either makes the other unreachable while still active. */
  lemma SharedNameIsLost(x: Indexed, d: string, domain: string)
    requires Clear(x) && !x.p.closed && d in x.p.active && domain !in x.p.active
    requires x.p.routes[x.p.active[d].route].route.lease == x.p.active[d].preview
    ensures var b := x.p.active[d].(domain := domain); var (y, v) := AttachAlias(x, b, true);
            && v == Done && d in y.p.active && domain in y.p.active
            && domain in RemoveAlias(y, d).p.active && b.hostname !in RemoveAlias(y, d).hosts
            && d in RemoveAlias(y, domain).p.active && b.hostname !in RemoveAlias(y, domain).hosts
  {
  }
}
