/**
 The preview registry as a simple model: current routes, active aliases, desired
 aliases. The host index and the per-route alias index of the real registry are
 functions of these; PreviewRegistry.dfy keeps them. `valid` carries the verdict of
 route and alias validation; host names are already in normal form.
 */
module Previews {
  import opened SessionTypes
  import opened CarrierIdentities

  /** What a replacement must share with the route it replaces. */
  datatype Lineage = Lineage(kind: string, operation: string, preview: string, ownerDevice: string,
      ownerSession: string, accessMode: string, edgeNode: string)

  /** `details` stands for the fields only compared for equality, `carrier` for the ones not compared at all. */
  datatype Route = Route(id: string, hostname: string, lineage: Lineage, epoch: string, identity: Identity, server: nat,
                         lease: nat, attachment: nat, revision: nat, details: string, carrier: string)

  predicate Same(a: Route, b: Route) { a.(carrier := b.carrier) == b }

  /** Part of a route that no replacement changes. */
  predicate Related(prior: Route, next: Route) {
    && next.id == prior.id && next.hostname == prior.hostname && next.lineage == prior.lineage
       && next.epoch == prior.epoch
    && next.identity.account == prior.identity.account && next.identity.host == prior.identity.host
    && next.identity.tunnel == prior.identity.tunnel && next.identity.connector == prior.identity.connector
  }

  predicate Newer(prior: Route, next: Route) {
    && Related(prior, next)
    && (next.attachment != 0 && prior.attachment != 0 ==> prior.attachment <= next.attachment)
    && prior.identity.process <= next.identity.process && prior.identity.generation <= next.identity.generation
    && (next.identity.process == prior.identity.process ==> next.identity.session == prior.identity.session)
    && (next.attachment > prior.attachment || next.identity.process > prior.identity.process
        || next.identity.generation > prior.identity.generation || next.revision > prior.revision)
  }

  /** One registration of a route; `stamp` is the identity of the entry object. */
  datatype Entry = Entry(stamp: nat, route: Route)

  datatype Alias = Alias(domain: string, route: string, hostname: string, match_: string, preview: nat,
      domainGeneration: nat, certificate: nat)

  datatype Table = Table(maximum: nat, closed: bool, next: nat, routes: map<string, Entry>, active: map<string, Alias>,
      desired: map<string, Alias>)

  datatype Verdict = Done | Invalid | IsClosed | Stale | Conflict

  // ---------------------------------------------------------------- who owns a host name

  /** The host belongs to route `id`, as its own name or through an active alias. */
  predicate Owns(p: Table, h: string, id: string) {
    id in p.routes && (p.routes[id].route.hostname == h || exists d ::
        d in p.active && p.active[d].route == id && p.active[d].hostname == h)
  }

  /** No route but `id` owns the host. */
  predicate Free(p: Table, h: string, id: string) { forall j :: j in p.routes && j != id ==> !Owns(p, h, j) }

  // ---------------------------------------------------------------- operations

  /** An alias that may be published now. */
  predicate Fits(p: Table, a: Alias) {
    && a.route in p.routes && p.routes[a.route].route.lease == a.preview
    && a.hostname != p.routes[a.route].route.hostname && Free(p, a.hostname, a.route)
  }

  /** Desired aliases of the given routes that may be published now. */
  function Eligible(p: Table, ids: set<string>): set<string> {
    set d | d in p.desired && p.desired[d].route in ids && Fits(p, p.desired[d])
  }

  function WithAliases(p: Table, ds: set<string>): Table
    requires ds <= p.desired.Keys
  {
    p.(active := p.active + map d | d in ds :: p.desired[d])
  }

  /** All of them are published at once. */
  function Activated(p: Table, ids: set<string>): Table { WithAliases(p, Eligible(p, ids)) }

  function AliasesOf(p: Table, id: string): set<string> { set d | d in p.active && p.active[d].route == id }

  function WithoutAliases(p: Table, id: string): Table { p.(active := p.active - AliasesOf(p, id)) }

  function WithoutRoute(p: Table, id: string): Table {
    WithoutAliases(p, id).(routes := p.routes - {id})
  }

  function Placed(p: Table, route: Route): Table {
    p.(routes := p.routes[route.id := Entry(p.next, route)], next := p.next + 1)
  }

  function Installed(p: Table, route: Route): Table {
    Activated(Placed(WithoutAliases(p, route.id), route), {route.id})
  }

  function Attach(p: Table, route: Route, valid: bool): (Table, Verdict) {
    if !valid then (p, Invalid)
    else if p.closed then (p, IsClosed)
    else if route.id in p.routes && Same(p.routes[route.id].route, route) then (p, Done)
    else if route.id in p.routes && !Newer(p.routes[route.id].route, route) then (p, Stale)
    else if !Free(p, route.hostname, route.id) then (p, Conflict)
    else if route.id !in p.routes && |p.routes| >= p.maximum then (p, Conflict)
    else (Installed(p, route), Done)
  }

  /** The carrier of an entry is gone: only that very entry is removed. */
  function CarrierDone(p: Table, e: Entry): Table {
    if e.route.id in p.routes && p.routes[e.route.id] == e then WithoutRoute(p, e.route.id) else p
  }

  function Detach(p: Table, id: string, identity: Identity, revision: nat, valid: bool): (Table, Verdict) {
    if !valid || revision == 0 then (p, Invalid)
    else if p.closed || id !in p.routes then (p, Done)
    else if p.routes[id].route.revision != revision || p.routes[id].route.identity != identity then (p, Stale)
    else (WithoutRoute(p, id), Done)
  }

  datatype Admission = Admission(route: string, operation: string, attachment: nat, identity: Identity, revision: nat,
      epoch: string)

  function DetachAdmission(p: Table, a: Admission, valid: bool): (Table, Verdict) {
    if !valid || a.attachment == 0 then (p, Invalid)
    else if p.closed || a.route !in p.routes then (p, Done)
    else
      var r := p.routes[a.route].route;
      if r.lineage.operation != a.operation || r.attachment != a.attachment || r.identity != a.identity
         || r.revision != a.revision || r.epoch != a.epoch then (p, Stale)
      else (WithoutRoute(p, a.route), Done)
  }

  /** The first fault of a snapshot in list order; None marks an alias that fails validation. */
  function Screen(xs: seq<Option<Alias>>): Verdict {
    if xs == [] then Done
    else
      var n := |xs| - 1;
      if Screen(xs[..n]) != Done then Screen(xs[..n])
      else if xs[n].None? then Invalid
      else if exists i :: 0 <= i < n && xs[i].Some? && Clashes(xs[i].value, xs[n].value) then Conflict
      else Done
  }

  predicate Clashes(a: Alias, b: Alias) { a.domain == b.domain || a.hostname == b.hostname }

  function ByDomain(xs: seq<Option<Alias>>): map<string, Alias> {
    if xs == [] then map[]
    else
      var x := xs[|xs| - 1];
      if x.None? then ByDomain(xs[..|xs| - 1]) else ByDomain(xs[..|xs| - 1])[x.value.domain := x.value]
  }

  /** A later projection of the same alias. */
  predicate Advances(prior: Alias, next: Alias) {
    && next.route == prior.route && next.hostname == prior.hostname && next.match_ == prior.match_
    && prior.preview <= next.preview && prior.domainGeneration <= next.domainGeneration
       && prior.certificate <= next.certificate
  }

  predicate NoneStale(desired: map<string, Alias>, next: map<string, Alias>) {
    forall d :: d in desired && d in next ==> Advances(desired[d], next[d])
  }

  function Kept(active: map<string, Alias>, next: map<string, Alias>): map<string, Alias> {
    map d | d in active && d in next && next[d] == active[d] :: active[d]
  }

  function Reconcile(p: Table, xs: seq<Option<Alias>>): (Table, Verdict) {
    if Screen(xs) != Done then (p, Screen(xs))
    else if p.closed then (p, IsClosed)
    else if !NoneStale(p.desired, ByDomain(xs)) then (p, Stale)
    else (Activated(p.(active := Kept(p.active, ByDomain(xs)), desired := ByDomain(xs)), p.routes.Keys), Done)
  }

  function DetachAlias(p: Table, a: Alias, valid: bool): (Table, Verdict) {
    if !valid then (p, Invalid)
    else if a.domain !in p.active then (p, Done)
    else if p.active[a.domain] != a then (p, Stale)
    else (p.(active := p.active - {a.domain}), Done)
  }

  function Shut(p: Table): Table { p.(closed := true, routes := map[], active := map[], desired := map[]) }

  // ---------------------------------------------------------------- lookup

  function Dot(h: string): nat { if h == "" || h[0] == '.' then 0 else 1 + Dot(h[1..]) }

  /** The one-label wildcard that covers a host, if it has a first label and something after it. */
  function Wildcard(h: string): Option<string> {
    var dot := Dot(h);
    if dot == 0 || dot + 1 >= |h| then None else Some("*." + h[dot + 1..])
  }

  /** A plain scan: the owner of the exact name, else the owner of its wildcard. */
  predicate Finds(p: Table, h: string, id: string) {
    || Owns(p, h, id)
    || ((forall j :: j in p.routes ==> !Owns(p, h, j)) && Wildcard(h).Some? && Owns(p, Wildcard(h).value, id))
  }

  // ---------------------------------------------------------------- runs

  datatype Event =
    | DoAttach(route: Route, valid: bool)
    | DoCarrierDone(entry: Entry)
    | DoDetach(id: string, identity: Identity, revision: nat, valid: bool)
    | DoDetachAdmission(admission: Admission, valid: bool)
    | DoReconcile(aliases: seq<Option<Alias>>)
    | DoDetachAlias(alias: Alias, valid: bool)
    | DoClose

  function Next(p: Table, e: Event): Table {
    match e
    case DoAttach(route, valid) => Attach(p, route, valid).0
    case DoCarrierDone(entry) => CarrierDone(p, entry)
    case DoDetach(id, identity, revision, valid) => Detach(p, id, identity, revision, valid).0
    case DoDetachAdmission(a, valid) => DetachAdmission(p, a, valid).0
    case DoReconcile(xs) => Reconcile(p, xs).0
    case DoDetachAlias(a, valid) => DetachAlias(p, a, valid).0
    case DoClose => Shut(p)
  }

  function Run(p: Table, events: seq<Event>): Table
    decreases |events|
  {
    if events == [] then p else Run(Next(p, events[0]), events[1..])
  }

  function Empty(maximum: nat): Table { Table(maximum, false, 0, map[], map[], map[]) }
}
