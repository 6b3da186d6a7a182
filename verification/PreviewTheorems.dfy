/** What every run of the preview registry keeps, and why a replaced route never comes back. */
module PreviewTheorems {
  import opened SessionTypes
  import opened Previews

  // ---------------------------------------------------------------- the invariant

  /** Two routes never share their primary name. */
  predicate RoutesApart(p: Table, j: string, k: string) {
    j in p.routes && k in p.routes && j != k ==> p.routes[j].route.hostname != p.routes[k].route.hostname
  }

  ghost predicate RoutesKeyed(p: Table) {
    && (forall k :: k in p.routes ==> p.routes[k].route.id == k && p.routes[k].stamp < p.next)
    && (forall j, k :: RoutesApart(p, j, k))
  }

  predicate AliasesApart(desired: map<string, Alias>, d: string, e: string) {
    d in desired && e in desired && d != e ==> desired[d].hostname != desired[e].hostname
  }

  ghost predicate DesiredKeyed(desired: map<string, Alias>) {
    && (forall d :: d in desired ==> desired[d].domain == d)
    && (forall d, e :: AliasesApart(desired, d, e))
  }

  /** An active alias: the desired one, at the exact lease of its route, under a name no route has. */
  predicate Sound(p: Table, d: string)
    requires d in p.active
  {
    var a := p.active[d];
    && d in p.desired && p.desired[d] == a
    && a.route in p.routes && p.routes[a.route].route.lease == a.preview
    && forall k :: k in p.routes ==> p.routes[k].route.hostname != a.hostname
  }

  ghost predicate Inv(p: Table) {
    && RoutesKeyed(p) && DesiredKeyed(p.desired)
    && (forall d :: d in p.active ==> Sound(p, d))
    && (p.closed ==> p.routes == map[] && p.active == map[] && p.desired == map[])
  }

  /** A host name has at most one owner. */
  lemma OneOwner(p: Table, h: string, j: string, k: string)
    requires Inv(p) && Owns(p, h, j) && Owns(p, h, k)
    ensures j == k
  {
    assert forall d :: d in p.active ==> Sound(p, d);
    assert RoutesApart(p, j, k);
    if p.routes[j].route.hostname != h && p.routes[k].route.hostname != h {
      var d :| d in p.active && p.active[d].route == j && p.active[d].hostname == h;
      var e :| e in p.active && p.active[e].route == k && p.active[e].hostname == h;
      assert Sound(p, d) && Sound(p, e) && AliasesApart(p.desired, d, e);
    }
  }

  lemma SmallerKeeps(p: Table, active: map<string, Alias>)
    requires Inv(p) && forall d :: d in active ==> d in p.active && active[d] == p.active[d]
    ensures Inv(p.(active := active))
  {
    forall j, k ensures RoutesApart(p.(active := active), j, k) { assert RoutesApart(p, j, k); }
    forall d | d in active ensures Sound(p.(active := active), d) { assert Sound(p, d); }
  }

  lemma WithoutRouteKeeps(p: Table, id: string)
    requires Inv(p)
    ensures Inv(WithoutRoute(p, id)) && Inv(WithoutAliases(p, id))
  {
    var q := WithoutRoute(p, id);
    forall j, k ensures RoutesApart(q, j, k) { assert RoutesApart(p, j, k); }
    SmallerKeeps(p, WithoutAliases(p, id).active);
    forall d | d in q.active ensures Sound(q, d) { assert Sound(p, d); }
  }

  lemma ActivatedKeeps(p: Table, ids: set<string>)
    requires Inv(p)
    ensures Inv(Activated(p, ids))
  {
    var q := Activated(p, ids);
    forall j, k ensures RoutesApart(q, j, k) { assert RoutesApart(p, j, k); }
    forall d | d in q.active ensures Sound(q, d) {
      if d in Eligible(p, ids) { EligibleSound(p, ids, d); } else { assert Sound(p, d); }
    }
  }

  lemma EligibleSound(p: Table, ids: set<string>, d: string)
    requires d in Eligible(p, ids)
    ensures d in Activated(p, ids).active && Sound(Activated(p, ids), d)
  {
    forall k | k in p.routes ensures p.routes[k].route.hostname != p.desired[d].hostname {
      assert k != p.desired[d].route ==> !Owns(p, p.desired[d].hostname, k);
    }
  }

  /** Putting a route in place once its aliases are gone. */
  lemma PlacedKeeps(p: Table, route: Route)
    requires Inv(p) && !p.closed && Free(p, route.hostname, route.id) && forall d :: d in p.active ==>
             p.active[d].route != route.id
    ensures Inv(Placed(p, route))
  {
    var r := Placed(p, route);
    forall k | k in p.routes && k != route.id ensures p.routes[k].route.hostname != route.hostname {
      assert !Owns(p, route.hostname, k);
    }
    forall j, k ensures RoutesApart(r, j, k) { assert RoutesApart(p, j, k); }
    forall d | d in r.active ensures Sound(r, d) {
      assert Sound(p, d);
      assert !Owns(p, route.hostname, p.active[d].route);
    }
  }

  lemma FewerAliasesFreer(p: Table, id: string, h: string)
    requires Free(p, h, id)
    ensures Free(WithoutAliases(p, id), h, id)
  {
    var q := WithoutAliases(p, id);
    forall j | j in q.routes && j != id ensures !Owns(q, h, j) { assert !Owns(p, h, j); }
  }

  lemma InstalledKeeps(p: Table, route: Route)
    requires Inv(p) && !p.closed && Free(p, route.hostname, route.id)
    ensures Inv(Installed(p, route))
  {
    WithoutRouteKeeps(p, route.id);
    FewerAliasesFreer(p, route.id, route.hostname);
    PlacedKeeps(WithoutAliases(p, route.id), route);
    ActivatedKeeps(Placed(WithoutAliases(p, route.id), route), {route.id});
  }

  // ---------------------------------------------------------------- snapshots

  lemma {:induction false} ScreenMeans(xs: seq<Option<Alias>>)
    ensures Screen(xs) == Done <==>
      (forall i :: 0 <= i < |xs| ==> xs[i].Some?)
          && (forall i, j :: 0 <= i < j < |xs| ==> !Clashes(xs[i].value, xs[j].value))
  {
    if xs != [] {
      var n := |xs| - 1;
      ScreenMeans(xs[..n]);
      if Screen(xs) == Done {
        forall i, j | 0 <= i < j < |xs| ensures !Clashes(xs[i].value, xs[j].value) {
          if j < n { assert !Clashes(xs[..n][i].value, xs[..n][j].value); }
        }
      } else if Screen(xs[..n]) == Done {
        if xs[n].Some? {
          var i :| 0 <= i < n && xs[i].Some? && Clashes(xs[i].value, xs[n].value);
        }
      } else if forall i :: 0 <= i < |xs| ==> xs[i].Some? {
        assert forall i :: 0 <= i < n ==> xs[..n][i].Some?;
        var i, j :| 0 <= i < j < n && Clashes(xs[..n][i].value, xs[..n][j].value);
        assert Clashes(xs[i].value, xs[j].value);
      }
    }
  }

  lemma {:induction false} ByDomainIn(xs: seq<Option<Alias>>, d: string)
    requires d in ByDomain(xs)
    ensures ByDomain(xs)[d].domain == d && exists i :: 0 <= i < |xs| && xs[i] == Some(ByDomain(xs)[d])
  {
    var n := |xs| - 1;
    if xs[n].Some? && xs[n].value.domain == d {
      assert xs[n] == Some(ByDomain(xs)[d]);
    } else {
      ByDomainIn(xs[..n], d);
      var i :| 0 <= i < n && xs[..n][i] == Some(ByDomain(xs[..n])[d]);
      assert xs[i] == xs[..n][i];
    }
  }

  /** An accepted snapshot is keyed by domain, and each name is used once. */
  lemma ScreenedIsKeyed(xs: seq<Option<Alias>>)
    requires Screen(xs) == Done
    ensures DesiredKeyed(ByDomain(xs))
  {
    var m := ByDomain(xs);
    ScreenMeans(xs);
    forall d | d in m ensures m[d].domain == d { ByDomainIn(xs, d); }
    forall d, e ensures AliasesApart(m, d, e) {
      if d in m && e in m && d != e {
        ByDomainIn(xs, d);
        ByDomainIn(xs, e);
        var i :| 0 <= i < |xs| && xs[i] == Some(m[d]);
        var j :| 0 <= j < |xs| && xs[j] == Some(m[e]);
        assert i < j ==> !Clashes(xs[i].value, xs[j].value);
        assert j < i ==> !Clashes(xs[j].value, xs[i].value);
      }
    }
  }

  /** Nothing of an accepted snapshot is lost. */
  lemma {:induction false} ScreenedIsWhole(xs: seq<Option<Alias>>, i: nat)
    requires Screen(xs) == Done && i < |xs|
    ensures xs[i].Some? && xs[i].value.domain in ByDomain(xs) && ByDomain(xs)[xs[i].value.domain] == xs[i].value
    decreases |xs|
  {
    var n := |xs| - 1;
    ScreenMeans(xs);
    if i < n {
      ScreenedIsWhole(xs[..n], i);
      assert !Clashes(xs[i].value, xs[n].value);
    }
  }

  // ---------------------------------------------------------------- every run

  lemma AttachKeeps(p: Table, route: Route, valid: bool)
    requires Inv(p)
    ensures Inv(Attach(p, route, valid).0)
  {
    var (q, v) := Attach(p, route, valid);
    if q != p { InstalledKeeps(p, route); }
  }

  lemma ReconcileKeeps(p: Table, xs: seq<Option<Alias>>)
    requires Inv(p)
    ensures Inv(Reconcile(p, xs).0)
  {
    if Reconcile(p, xs).1 == Done {
      ScreenedIsKeyed(xs);
      var next := ByDomain(xs);
      var q := p.(active := Kept(p.active, next), desired := next);
      forall j, k ensures RoutesApart(q, j, k) { assert RoutesApart(p, j, k); }
      forall d | d in q.active ensures Sound(q, d) { assert Sound(p, d); }
      assert Inv(q);
      ActivatedKeeps(q, p.routes.Keys);
    }
  }

  lemma StepKeeps(p: Table, e: Event)
    requires Inv(p)
    ensures Inv(Next(p, e))
  {
    match e {
      case DoAttach(route, valid) => AttachKeeps(p, route, valid);
      case DoCarrierDone(entry) => WithoutRouteKeeps(p, entry.route.id);
      case DoDetach(id, _, _, _) => WithoutRouteKeeps(p, id);
      case DoDetachAdmission(a, _) => WithoutRouteKeeps(p, a.route);
      case DoReconcile(xs) => ReconcileKeeps(p, xs);
      case DoDetachAlias(a, _) => SmallerKeeps(p, p.active - {a.domain});
      case DoClose =>
    }
  }

  /** Every reachable registry: active aliases are desired ones at the exact lease, and no name is claimed twice. */
  lemma {:induction false} RunKeeps(p: Table, events: seq<Event>)
    requires Inv(p)
    ensures Inv(Run(p, events))
    decreases |events|
  {
    if events != [] {
      StepKeeps(p, events[0]);
      RunKeeps(Next(p, events[0]), events[1..]);
    }
  }

  // ---------------------------------------------------------------- no resurrection

  /** Attachment generations are all absent or all present. */
  predicate Alike(a: Route, b: Route) { a.attachment == 0 <==> b.attachment == 0 }

  /** Where attachment generations are all absent or all present, newer-than is a strict partial order. */
  lemma NewerIsStrictOrder(a: Route, b: Route, c: Route)
    requires Alike(a, b) && Alike(b, c)
    ensures !Newer(a, a)
    ensures Newer(a, b) ==> !Newer(b, a) && !Same(a, b) && !Same(b, a)
    ensures Newer(a, b) && Newer(b, c) ==> Newer(a, c)
  {
  }

  predicate SameLease(a: Route, b: Route) {
    a.identity.process == b.identity.process && a.identity.generation == b.identity.generation
        && a.identity.session == b.identity.session
  }

  /** `b` has no attachment generation, and only its revision is above the attached `a`. */
  predicate Crossed(a: Route, b: Route) {
    a.attachment != 0 && b.attachment == 0 && SameLease(a, b) && a.revision < b.revision
  }

  /**
   Two related routes are each newer than the other exactly when the one without an attachment
   generation has the larger revision.
   */
  lemma MutuallyNewerExactly(a: Route, b: Route)
    requires Related(a, b)
    ensures Newer(a, b) && Newer(b, a) <==> Crossed(a, b) || Crossed(b, a)
  {
  }

  /**
   The step from `a` to `b` and `c` drops an attachment generation on the way, and with it what
   made it a step forward.
   */
  predicate Broken(a: Route, b: Route, c: Route) {
    || (a.attachment != 0 && b.attachment == 0 && c.attachment != 0
        && (a.attachment > c.attachment || (a.attachment == c.attachment && SameLease(a, c)
           && c.revision <= a.revision)))
    || (b.attachment != 0 && c.attachment == 0 && SameLease(a, c) && c.revision <= a.revision)
  }

  /** Two steps forward are one exactly when no attachment generation is lost on the way. */
  lemma TransitiveExactly(a: Route, b: Route, c: Route)
    requires Newer(a, b) && Newer(b, c)
    ensures Newer(a, c) <==> !Broken(a, b, c)
  {
  }

  /**
   The route stays registered through the whole run, and every offer for it has an attachment
   generation, or none has.
   */
  predicate Uninterrupted(p: Table, events: seq<Event>, id: string)
    decreases |events|
  {
    && id in p.routes
    && (events != [] ==>
          && (events[0].DoAttach? && events[0].route.id == id ==> Alike(p.routes[id].route, events[0].route))
          && Uninterrupted(Next(p, events[0]), events[1..], id))
  }

  lemma InstalledEntry(p: Table, route: Route, valid: bool, id: string)
    requires id in p.routes && RoutesKeyed(p)
    ensures var q := Attach(p, route, valid).0;
            id in q.routes && (q.routes[id] == p.routes[id]
                || (route.id == id && q.routes[id].route == route && Newer(p.routes[id].route, route)))
  {
  }

  lemma StepClimbs(p: Table, e: Event, id: string)
    requires Inv(p) && id in p.routes && id in Next(p, e).routes
    ensures var f := Next(p, e).routes[id];
            f == p.routes[id] || (e.DoAttach? && e.route.id == id && f.route == e.route
                && Newer(p.routes[id].route, f.route))
  {
    match e {
      case DoAttach(route, valid) => InstalledEntry(p, route, valid, id);
      case _ =>
    }
  }

  /** While a route stays registered its entry only climbs in the order. */
  lemma {:induction false} RegistrationClimbs(p: Table, events: seq<Event>, id: string)
    requires Inv(p) && Uninterrupted(p, events, id)
    ensures var q := Run(p, events);
            && id in q.routes && Alike(p.routes[id].route, q.routes[id].route)
            && (q.routes[id] == p.routes[id] || Newer(p.routes[id].route, q.routes[id].route))
    decreases |events|
  {
    if events != [] {
      var n := Next(p, events[0]);
      assert id in n.routes;
      StepKeeps(p, events[0]);
      StepClimbs(p, events[0], id);
      RegistrationClimbs(n, events[1..], id);
      NewerIsStrictOrder(p.routes[id].route, n.routes[id].route, Run(p, events).routes[id].route);
    }
  }

  /** A route that was replaced during an uninterrupted registration is refused for the rest of it. */
  lemma NoResurrection(p: Table, events: seq<Event>, id: string, valid: bool)
    requires Inv(p) && Uninterrupted(p, events, id)
    requires id in Run(p, events).routes && Run(p, events).routes[id] != p.routes[id]
    ensures var q := Run(p, events); Attach(q, p.routes[id].route, valid).0 == q
    ensures var q := Run(p, events); valid && !q.closed ==> Attach(q, p.routes[id].route, valid).1 == Stale
  {
    RegistrationClimbs(p, events, id);
    RunKeeps(p, events);
    var q := Run(p, events);
    NewerIsStrictOrder(p.routes[id].route, q.routes[id].route, q.routes[id].route);
  }

  // ---------------------------------------------------------------- resurrection, exactly

  predicate Registered(p: Table, events: seq<Event>, id: string)
    decreases |events|
  {
    id in p.routes && (events != [] ==> Registered(Next(p, events[0]), events[1..], id))
  }

  /** What every replacement keeps, with or without attachment generations. */
  predicate Descends(a: Route, b: Route) {
    && Related(a, b) && a.identity.process <= b.identity.process && a.identity.generation <= b.identity.generation
    && (a.identity.process == b.identity.process ==> a.identity.session == b.identity.session)
  }

  lemma {:induction false} RegistrationDescends(p: Table, events: seq<Event>, id: string)
    requires Inv(p) && Registered(p, events, id)
    ensures id in Run(p, events).routes && Descends(p.routes[id].route, Run(p, events).routes[id].route)
    decreases |events|
  {
    if events != [] {
      assert id in Next(p, events[0]).routes;
      StepKeeps(p, events[0]);
      StepClimbs(p, events[0], id);
      RegistrationDescends(Next(p, events[0]), events[1..], id);
    }
  }

  /** `a` has an attachment generation or a revision above `b`, and is not behind it in attachment generations. */
  predicate Overhangs(a: Route, b: Route) {
    && (a.attachment != 0 && b.attachment != 0 ==> b.attachment <= a.attachment)
    && (b.attachment < a.attachment || b.revision < a.revision)
  }

  lemma NewerBackExactly(a: Route, b: Route)
    requires Descends(a, b)
    ensures Newer(b, a) <==> SameLease(a, b) && Overhangs(a, b)
  {
  }

  lemma OwnNameIsFree(p: Table, id: string)
    requires Inv(p) && id in p.routes
    ensures Free(p, p.routes[id].route.hostname, id)
  {
    var h := p.routes[id].route.hostname;
    forall k | k in p.routes && k != id ensures !Owns(p, h, k) {
      if Owns(p, h, k) { OneOwner(p, h, id, k); }
    }
  }

  /**
   After any run through which a route stayed registered, its first entry can be attached
   again over the current one if and only if the two share process, generation and session
   while the old one still overhangs in attachment or revision.
   */
  lemma ResurrectsExactly(p: Table, events: seq<Event>, id: string)
    requires Inv(p) && Registered(p, events, id)
    ensures var a, q := p.routes[id].route, Run(p, events);
            && id in q.routes
            && (Attach(q, a, true).0 != q <==> SameLease(a, q.routes[id].route) && Overhangs(a, q.routes[id].route))
  {
    RunKeeps(p, events);
    RegistrationDescends(p, events, id);
    var a, q := p.routes[id].route, Run(p, events);
    NewerBackExactly(a, q.routes[id].route);
    OwnNameIsFree(q, id);
    assert q.routes[id].route.id == id && a.id == id;
    if Attach(q, a, true).1 == Done && Newer(q.routes[id].route, a) { assert Installed(q, a).next == q.next + 1; }
  }

  /** One such run: a later revision without an attachment generation, and then the old route again. */
  lemma OldRouteReturns(p: Table, id: string, revision: nat)
    requires Inv(p) && !p.closed && id in p.routes && p.routes[id].route.attachment != 0
    requires p.routes[id].route.revision < revision
    ensures var a := p.routes[id].route; var b := a.(attachment := 0, revision := revision);
            var q := Next(p, DoAttach(b, true)); var r := Next(q, DoAttach(a, true));
            id in q.routes && q.routes[id].route == b && id in r.routes && r.routes[id].route == a
  {
    var a := p.routes[id].route;
    var b := a.(attachment := 0, revision := revision);
    var q := Next(p, DoAttach(b, true));
    assert a.id == id;
    OwnNameIsFree(p, id);
    assert q == Installed(p, b);
    StepKeeps(p, DoAttach(b, true));
    OwnNameIsFree(q, id);
  }

  // ---------------------------------------------------------------- late callbacks

  /** An entry that was made and is no longer current. */
  predicate Gone(p: Table, e: Entry) { e.stamp < p.next && forall k :: k in p.routes ==> p.routes[k] != e }

  lemma StepStaysGone(p: Table, event: Event, e: Entry)
    requires Gone(p, e)
    ensures Gone(Next(p, event), e)
  {
  }

  /** Once an entry is replaced or detached its carrier's callback never removes anything, in any later state. */
  lemma {:induction false} LateCallbackIsHarmless(p: Table, events: seq<Event>, e: Entry)
    requires Gone(p, e)
    ensures CarrierDone(Run(p, events), e) == Run(p, events)
    decreases |events|
  {
    if events != [] {
      StepStaysGone(p, events[0], e);
      LateCallbackIsHarmless(Next(p, events[0]), events[1..], e);
    }
  }

  /** Whatever leaves the table was made by it: a current entry that a step removes or replaces is gone. */
  lemma RemovedIsGone(p: Table, event: Event, id: string)
    requires Inv(p) && id in p.routes
    requires id in Next(p, event).routes ==> Next(p, event).routes[id] != p.routes[id]
    ensures Gone(Next(p, event), p.routes[id])
  {
  }
}
