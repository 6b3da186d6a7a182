/** The durable admission registry as an object. */
module DurableRegistries {
  import opened SessionTypes
  import opened CarrierIdentities
  import opened DurableAdmissions
  import opened Sequences

  /** The highest generation recorded for a route key, 0 when none is. */
  function Cap(gens: map<string, nat>, key: string): nat { if key in gens then gens[key] else 0 }

  function Raised(gens: map<string, nat>, d: Durable): map<string, nat> {
    if d.generation > Cap(gens, RouteKey(d)) then gens[RouteKey(d) := d.generation] else gens
  }

  /** `gens` covers the admissions of the entries outside `left`, and claims nothing more. */
  ghost predicate Covers(gens: map<string, nat>, byID: map<string, Entry>, left: set<string>) {
    && (forall k :: k in byID && k !in left ==> forall t :: t in byID[k].byRoute ==>
       byID[k].byRoute[t].generation <= Cap(gens, RouteKey(byID[k].byRoute[t])))
    && (forall key :: key in gens ==> Reached(byID, key, gens[key]))
  }

  predicate Reached(byID: map<string, Entry>, key: string, g: nat) {
    exists k :: k in byID && exists t ::
        t in byID[k].byRoute && RouteKey(byID[k].byRoute[t]) == key && byID[k].byRoute[t].generation == g
  }

  lemma CoversDecides(gens: map<string, nat>, byID: map<string, Entry>, d: Durable)
    requires Covers(gens, byID, {})
    ensures NotLower(byID, d) <==> Cap(gens, RouteKey(d)) <= d.generation
  {
    if RouteKey(d) in gens { assert Reached(byID, RouteKey(d), gens[RouteKey(d)]); }
  }

  predicate HasAt(e: Entry, key: string, g: nat) {
    exists t :: t in e.byRoute && RouteKey(e.byRoute[t]) == key && e.byRoute[t].generation == g
  }

  /** After one entry: its admissions are covered, and what was known stays. */
  predicate RaisedBy(before: map<string, nat>, gens: map<string, nat>, e: Entry, left: set<string>) {
    && (forall key :: key in before ==> key in gens && before[key] <= gens[key])
    && (forall t :: t in e.byRoute && t !in left ==> e.byRoute[t].generation <= Cap(gens, RouteKey(e.byRoute[t])))
    && (forall key :: key in gens ==> (key in before && gens[key] == before[key]) || HasAt(e, key, gens[key]))
  }

  lemma CoversStep(before: map<string, nat>, gens: map<string, nat>, byID: map<string, Entry>, left: set<string>,
      k: string)
    requires Covers(before, byID, left) && k in byID && k in left && RaisedBy(before, gens, byID[k], {})
    ensures Covers(gens, byID, left - {k})
  {
    forall key | key in gens ensures Reached(byID, key, gens[key]) {
      if key in before && gens[key] == before[key] { assert Reached(byID, key, before[key]); }
    }
    forall j | j in byID && j !in left - {k} ensures forall t :: t in byID[j].byRoute ==>
        byID[j].byRoute[t].generation <= Cap(gens, RouteKey(byID[j].byRoute[t])) {
      forall t | t in byID[j].byRoute ensures byID[j].byRoute[t].generation <= Cap(gens, RouteKey(byID[j].byRoute[t])) {
        if j != k { assert byID[j].byRoute[t].generation <= Cap(before, RouteKey(byID[j].byRoute[t])); }
      }
    }
  }

  lemma {:induction false} ScreenStops(byID: map<string, Entry>, xs: seq<Offered>, i: nat)
    requires i <= |xs| && Screen(byID, xs[..i]) != Accepted
    ensures Screen(byID, xs) == Screen(byID, xs[..i])
    decreases |xs|
  {
    if i < |xs| {
      assert xs[..|xs| - 1][..i] == xs[..i];
      ScreenStops(byID, xs[..|xs| - 1], i);
    } else {
      assert xs[..i] == xs;
    }
  }

  /** What one more admission does to the verdict and the index. */
  lemma ScreenNext(byID: map<string, Entry>, xs: seq<Offered>, i: nat, gens: map<string, nat>)
    requires i < |xs| && Screen(byID, xs[..i]) == Accepted && Covers(gens, byID, {})
    ensures Screen(byID, xs[..i + 1]) == if !xs[i].valid then Invalid
              else if xs[i].d.generation < Cap(gens, RouteKey(xs[i].d)) then Conflict
              else if !Agrees(Built(xs[..i]), xs[i].d) then Conflict else Accepted
    ensures Built(xs[..i + 1]) == Added(Built(xs[..i]), xs[i].d)
  {
    Prefix(xs, i);
    CoversDecides(gens, byID, xs[i].d);
  }

  class DurableAdmissionRegistry {
    const maximum: nat
    var closed: bool
    var byID: map<string, Entry>

    ghost function View(): Registry
      reads this
    {
      Registry(maximum, closed, byID)
    }

    constructor (maximum: nat)
      ensures View() == Registry(maximum, false, map[])
    {
      this.maximum := maximum;
      closed, byID := false, map[];
    }

    method RaiseEntry(before: map<string, nat>, e: Entry) returns (gens: map<string, nat>)
      ensures RaisedBy(before, gens, e, {})
    {
      gens := before;
      var left := e.byRoute.Keys;
      while left != {}
        invariant left <= e.byRoute.Keys && RaisedBy(before, gens, e, left)
        decreases left
      {
        var t :| t in left;
        gens := Raised(gens, e.byRoute[t]);
        left := left - {t};
      }
    }

    method CurrentGenerations() returns (gens: map<string, nat>)
      ensures Covers(gens, byID, {})
    {
      gens := map[];
      var left := byID.Keys;
      while left != {}
        invariant left <= byID.Keys && Covers(gens, byID, left)
        decreases left
      {
        var k :| k in left;
        var next := RaiseEntry(gens, byID[k]);
        CoversStep(gens, next, byID, left, k);
        gens := next;
        left := left - {k};
      }
    }

    /** Check a list in order and build its index. */
    method Build(xs: seq<Offered>) returns (v: Outcome, next: map<string, Entry>)
      ensures v == Screen(byID, xs) && (v == Accepted ==> next == Built(xs))
    {
      var gens := CurrentGenerations();
      next := map[];
      for i := 0 to |xs|
        invariant Screen(byID, xs[..i]) == Accepted && next == Built(xs[..i])
      {
        ScreenNext(byID, xs, i, gens);
        var d := xs[i].d;
        if !xs[i].valid { ScreenStops(byID, xs, i + 1); return Invalid, next; }
        if d.generation < Cap(gens, RouteKey(d)) { ScreenStops(byID, xs, i + 1); return Conflict, next; }
        var entry := EntryFor(next, d);
        if entry.verifier != d.verifier || entry.epoch != d.epoch || d.route in entry.byRoute {
          ScreenStops(byID, xs, i + 1); return Conflict, next;
        }
        next := next[Key(d.identity) := entry.(byRoute := entry.byRoute[d.route := d])];
      }
      assert xs[..|xs|] == xs;
      v := Accepted;
    }

    method Replace(xs: seq<Offered>) returns (v: Outcome)
      modifies `byID
      ensures (View(), v) == DurableAdmissions.Replace(old(View()), xs)
    {
      if |xs| > maximum { return Conflict; }
      var next;
      v, next := Build(xs);
      if v != Accepted { return; }
      if |next| > maximum { return Conflict; }
      if closed { return IsShut; }
      byID := next;
    }

    method AuthorizeStream(identity: Identity, route: string, now: int) returns (v: Verdict)
      ensures v == Authorize(View(), identity, route, now)
    {
      if closed { return NotServing; }
      var key := Key(identity);
      if key !in byID || route !in byID[key].byRoute { return NotFound; }
      var d := byID[key].byRoute[route];
      if d.state != Staged && d.state != Active { return NotFound; }
      if d.expires != 0 && d.expires <= now { return Expired; }
      return Allowed;
    }

    /** Whether some route of exactly this identity is usable now. */
    method HasIdentity(identity: Identity, now: int) returns (found: bool)
      ensures found <==> !closed && Key(identity) in byID && byID[Key(identity)].identity == identity
                         && exists t :: t in byID[Key(identity)].byRoute
                                        && Authorize(View(), identity, t, now) == Allowed
    {
      var key := Key(identity);
      if closed || key !in byID || byID[key].identity != identity { return false; }
      var left := byID[key].byRoute.Keys;
      while left != {}
        invariant left <= byID[key].byRoute.Keys
        invariant forall t :: t in byID[key].byRoute && t !in left ==> Authorize(View(), identity, t, now) != Allowed
        decreases left
      {
        var t :| t in left;
        var v := AuthorizeStream(identity, t, now);
        if v == Allowed { return true; }
        left := left - {t};
      }
      return false;
    }

    method Close()
      modifies `closed, `byID
      ensures View() == Shut(old(View()))
    {
      closed, byID := true, map[];
    }
  }
}
