/** Durable admissions: one list replaced at a time, stored by carrier identity and route. */
module DurableAdmissions {
  import opened SessionTypes
  import opened CarrierIdentities
  import Strings

  datatype DurableState = Staged | Active | Draining | Detached

  /** `verifier` stands for the machine key and its thumbprint; `expires` 0 means never. */
  datatype Durable = Durable(identity: Identity, route: string, generation: nat, verifier: string, epoch: string,
      state: DurableState, expires: int)

  datatype Offered = Offered(d: Durable, valid: bool)

  datatype Entry = Entry(identity: Identity, epoch: string, verifier: string, byRoute: map<string, Durable>)

  datatype Registry = Registry(maximum: nat, closed: bool, byID: map<string, Entry>)

  datatype Outcome = Accepted | Invalid | Conflict | IsShut

  function RouteKey(d: Durable): string { Strings.Join([d.identity.account, d.identity.host, d.route]) }

  // ---------------------------------------------------------------- replacing the list

  /** No stored assignment of the same account, host and route is newer. */
  predicate NotLower(byID: map<string, Entry>, d: Durable) {
    forall k :: k in byID ==> forall t :: t in byID[k].byRoute ==> RouteKey(byID[k].byRoute[t]) == RouteKey(d) ==>
        byID[k].byRoute[t].generation <= d.generation
  }

  function EntryFor(m: map<string, Entry>, d: Durable): Entry {
    if Key(d.identity) in m then m[Key(d.identity)] else Entry(d.identity, d.epoch, d.verifier, map[])
  }

  function Added(m: map<string, Entry>, d: Durable): map<string, Entry> {
    m[Key(d.identity) := EntryFor(m, d).(byRoute := EntryFor(m, d).byRoute[d.route := d])]
  }

  function Built(xs: seq<Offered>): map<string, Entry> {
    if xs == [] then map[] else Added(Built(xs[..|xs| - 1]), xs[|xs| - 1].d)
  }

  /** The verifier of an identity may not change within a list, nor a route be assigned twice. */
  predicate Agrees(m: map<string, Entry>, d: Durable) {
    EntryFor(m, d).verifier == d.verifier && EntryFor(m, d).epoch == d.epoch && d.route !in EntryFor(m, d).byRoute
  }

  /** The first fault of a list, in order. */
  function Screen(byID: map<string, Entry>, xs: seq<Offered>): Outcome {
    if xs == [] then Accepted
    else
      var n := |xs| - 1;
      if Screen(byID, xs[..n]) != Accepted then Screen(byID, xs[..n])
      else if !xs[n].valid then Invalid
      else if !NotLower(byID, xs[n].d) || !Agrees(Built(xs[..n]), xs[n].d) then Conflict
      else Accepted
  }

  function Replace(r: Registry, xs: seq<Offered>): (Registry, Outcome) {
    if |xs| > r.maximum then (r, Conflict)
    else if Screen(r.byID, xs) != Accepted then (r, Screen(r.byID, xs))
    else if |Built(xs)| > r.maximum then (r, Conflict)
    else if r.closed then (r, IsShut)
    else (r.(byID := Built(xs)), Accepted)
  }

  function Shut(r: Registry): Registry { r.(closed := true, byID := map[]) }

  // ---------------------------------------------------------------- authorization

  datatype Verdict = Allowed | NotFound | Expired | NotServing

  function Find(byID: map<string, Entry>, key: string, route: string): Option<Durable> {
    if key in byID && route in byID[key].byRoute then Some(byID[key].byRoute[route]) else None
  }

  function Judge(d: Option<Durable>, now: int): Verdict {
    if d.None? || (d.value.state != Staged && d.value.state != Active) then NotFound
    else if d.value.expires != 0 && d.value.expires <= now then Expired
    else Allowed
  }

  function Authorize(r: Registry, identity: Identity, route: string, now: int): Verdict {
    if r.closed then NotServing else Judge(Find(r.byID, Key(identity), route), now)
  }

  /** The reference: the first admission of the list for exactly this identity and route. */
  function Scan(xs: seq<Offered>, identity: Identity, route: string): Option<Durable> {
    if xs == [] then None
    else
      var d := xs[|xs| - 1].d;
      var earlier := Scan(xs[..|xs| - 1], identity, route);
      if earlier.Some? then earlier else if d.identity == identity && d.route == route then Some(d) else None
  }

  // ---------------------------------------------------------------- the index is the list

  predicate AllValid(xs: seq<Offered>) { forall i :: 0 <= i < |xs| ==> xs[i].d.identity.Valid() }

  /** Looking an admission up in the index is scanning the list, because keys determine identities. */
  lemma {:induction false} IndexIsScan(byID: map<string, Entry>, xs: seq<Offered>, identity: Identity, route: string)
    requires Screen(byID, xs) == Accepted && AllValid(xs) && identity.Valid()
    ensures Find(Built(xs), Key(identity), route) == Scan(xs, identity, route)
  {
    if xs != [] {
      var n := |xs| - 1;
      var d := xs[n].d;
      IndexIsScan(byID, xs[..n], identity, route);
      if Key(d.identity) == Key(identity) { KeyInjective(d.identity, identity); }
    }
  }

  /** The registry holds the index of an accepted list. */
  ghost predicate Holds(r: Registry, xs: seq<Offered>) {
    !r.closed && r.byID == Built(xs) && AllValid(xs) && exists m :: Screen(m, xs) == Accepted
  }

  lemma ReplaceHolds(r: Registry, xs: seq<Offered>)
    requires Replace(r, xs).1 == Accepted && AllValid(xs)
    ensures Holds(Replace(r, xs).0, xs)
  {
  }

  /** A stream is authorized exactly as a scan of the last accepted list decides, error cases included. */
  lemma AuthorizeIsScan(r: Registry, xs: seq<Offered>, identity: Identity, route: string, now: int)
    requires Holds(r, xs) && identity.Valid()
    ensures Authorize(r, identity, route, now) == Judge(Scan(xs, identity, route), now)
  {
    var m :| Screen(m, xs) == Accepted;
    IndexIsScan(m, xs, identity, route);
  }

  /** The scan finds a listed admission, and finds one whenever there is one. */
  lemma {:induction false} ScanFinds(xs: seq<Offered>, identity: Identity, route: string)
    ensures var s := Scan(xs, identity, route);
            if s.Some?
            then s.value.identity == identity && s.value.route == route
                 && exists i :: 0 <= i < |xs| && xs[i].d == s.value
            else forall i :: 0 <= i < |xs| ==> !(xs[i].d.identity == identity && xs[i].d.route == route)
  {
    if xs != [] {
      var n := |xs| - 1;
      ScanFinds(xs[..n], identity, route);
      var s := Scan(xs, identity, route);
      if Scan(xs[..n], identity, route).Some? {
        var i :| 0 <= i < n && xs[..n][i].d == s.value;
        assert xs[i].d == s.value;
      } else {
        assert forall i :: 0 <= i < n ==> xs[..n][i] == xs[i];
        if s.Some? { assert xs[n].d == s.value; }
      }
    }
  }

  // ---------------------------------------------------------------- calls over time

  datatype Call = DoReplace(xs: seq<Offered>) | DoClose

  function Next(r: Registry, c: Call): Registry { if c.DoClose? then Shut(r) else Replace(r, c.xs).0 }

  function Run(r: Registry, calls: seq<Call>): Registry
    decreases |calls|
  {
    if calls == [] then r else Run(Next(r, calls[0]), calls[1..])
  }

  /** The last list a run accepted, if it was not closed since. */
  function LastAccepted(r: Registry, before: Option<seq<Offered>>, calls: seq<Call>): Option<seq<Offered>>
    decreases |calls|
  {
    if calls == [] then before
    else
      var c := calls[0];
      LastAccepted(Next(r, c), if c.DoClose? then None else if Replace(r, c.xs).1 == Accepted then Some(c.xs)
          else before, calls[1..])
  }

  predicate CallsValid(calls: seq<Call>) {
    forall i :: 0 <= i < |calls| && calls[i].DoReplace? ==> AllValid(calls[i].xs)
  }

  lemma {:induction false} RunHoldsLast(r: Registry, before: Option<seq<Offered>>, calls: seq<Call>)
    requires CallsValid(calls) && (before.Some? ==> Holds(r, before.value)) && (before.None? ==> r.byID == map[])
    ensures var last, q := LastAccepted(r, before, calls), Run(r, calls);
            (last.Some? ==> Holds(q, last.value)) && (last.None? ==> q.byID == map[])
    decreases |calls|
  {
    if calls != [] {
      var c := calls[0];
      if c.DoReplace? && Replace(r, c.xs).1 == Accepted { ReplaceHolds(r, c.xs); }
      RunHoldsLast(Next(r, c), if c.DoClose? then None else if Replace(r, c.xs).1 == Accepted then Some(c.xs)
          else before, calls[1..]);
    }
  }

  /** After any calls, whatever was refused, authorization is the scan of the last accepted list. */
  lemma AuthorizeIsScanOfLast(maximum: nat, calls: seq<Call>, identity: Identity, route: string, now: int)
    requires CallsValid(calls) && identity.Valid()
    ensures var r := Registry(maximum, false, map[]); var q, last := Run(r, calls), LastAccepted(r, None, calls);
            Authorize(q, identity, route, now) == if q.closed then NotServing
                else if last.Some? then Judge(Scan(last.value, identity, route), now) else NotFound
  {
    var r := Registry(maximum, false, map[]);
    RunHoldsLast(r, None, calls);
    var q, last := Run(r, calls), LastAccepted(r, None, calls);
    if last.Some? { AuthorizeIsScan(q, last.value, identity, route, now); }
  }

  // ---------------------------------------------------------------- generations

  ghost predicate Stored(r: Registry, d: Durable) {
    exists k, t :: k in r.byID && t in r.byID[k].byRoute && r.byID[k].byRoute[t] == d
  }

  predicate SameRoute(a: Durable, b: Durable) {
    a.identity.account == b.identity.account && a.identity.host == b.identity.host && a.route == b.route
  }

  lemma {:induction false} BuiltFrom(xs: seq<Offered>, k: string, t: string)
    requires k in Built(xs) && t in Built(xs)[k].byRoute
    ensures exists i :: 0 <= i < |xs| && xs[i].d == Built(xs)[k].byRoute[t]
  {
    var n := |xs| - 1;
    var m, d := Built(xs[..n]), xs[n].d;
    if k == Key(d.identity) && t == d.route {
      assert xs[n].d == Built(xs)[k].byRoute[t];
    } else {
      BuiltFrom(xs[..n], k, t);
      var i :| 0 <= i < n && xs[..n][i].d == m[k].byRoute[t];
      assert xs[i].d == Built(xs)[k].byRoute[t];
    }
  }

  lemma {:induction false} ScreenedNotLower(byID: map<string, Entry>, xs: seq<Offered>, i: nat)
    requires Screen(byID, xs) == Accepted && i < |xs|
    ensures NotLower(byID, xs[i].d)
    decreases |xs|
  {
    if i < |xs| - 1 { ScreenedNotLower(byID, xs[..|xs| - 1], i); }
  }

  /** A replacement never lowers the assignment generation of a route it keeps. */
  lemma ReplaceNeverLowers(r: Registry, xs: seq<Offered>, a: Durable, b: Durable)
    requires Stored(r, a) && Replace(r, xs).1 == Accepted && Stored(Replace(r, xs).0, b) && SameRoute(a, b)
    ensures a.generation <= b.generation
  {
    var q := Replace(r, xs).0;
    var k, t :| k in q.byID && t in q.byID[k].byRoute && q.byID[k].byRoute[t] == b;
    BuiltFrom(xs, k, t);
    var i :| 0 <= i < |xs| && xs[i].d == b;
    ScreenedNotLower(r.byID, xs, i);
    var j, u :| j in r.byID && u in r.byID[j].byRoute && r.byID[j].byRoute[u] == a;
    assert RouteKey(a) == RouteKey(b);
  }

  /** Some admission of the route of `a` is stored. */
  ghost predicate Assigned(r: Registry, a: Durable) { exists b :: Stored(r, b) && SameRoute(a, b) }

  ghost predicate AtLeast(r: Registry, a: Durable, g: nat) {
    forall b :: Stored(r, b) && SameRoute(a, b) ==> g <= b.generation
  }

  ghost predicate KeptThroughout(r: Registry, calls: seq<Call>, a: Durable)
    decreases |calls|
  {
    Assigned(r, a) && (calls != [] ==> KeptThroughout(Next(r, calls[0]), calls[1..], a))
  }

  lemma ReplaceAtLeast(r: Registry, xs: seq<Offered>, a: Durable, g: nat)
    requires Assigned(r, a) && AtLeast(r, a, g) && Replace(r, xs).1 == Accepted
    ensures AtLeast(Replace(r, xs).0, a, g)
  {
    var b :| Stored(r, b) && SameRoute(a, b);
    forall c | Stored(Replace(r, xs).0, c) && SameRoute(a, c) ensures g <= c.generation {
      ReplaceNeverLowers(r, xs, b, c);
    }
  }

  lemma StepAtLeast(r: Registry, c: Call, a: Durable, g: nat)
    requires Assigned(r, a) && AtLeast(r, a, g)
    ensures AtLeast(Next(r, c), a, g)
  {
    if c.DoClose? {
      NoneStored(Shut(r));
    } else if Replace(r, c.xs).1 == Accepted {
      ReplaceAtLeast(r, c.xs, a, g);
    } else {
      assert Next(r, c) == r;
    }
  }

  lemma NoneStored(r: Registry)
    requires r.byID == map[]
    ensures forall d :: !Stored(r, d)
  {
  }

  /** A lower bound on the generations of a route holds for as long as the route stays assigned. */
  lemma {:induction false} GenerationsNeverFall(r: Registry, calls: seq<Call>, a: Durable, g: nat)
    requires KeptThroughout(r, calls, a) && AtLeast(r, a, g)
    ensures AtLeast(Run(r, calls), a, g)
    decreases |calls|
  {
    if calls != [] {
      StepAtLeast(r, calls[0], a, g);
      GenerationsNeverFall(Next(r, calls[0]), calls[1..], a, g);
    }
  }
}
