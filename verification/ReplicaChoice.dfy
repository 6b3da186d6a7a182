/** Sorted observations, their binary searches, and the choice over a map visited in any order. */
module ReplicaChoices {
  import opened SessionTypes
  import opened CarrierIdentities
  import opened Replicas
  import Strings

  // ---------------------------------------------------------------- sorting by a string key

  predicate SortedBy<T>(xs: seq<T>, key: T -> string) {
    forall i, j :: 0 <= i < j < |xs| ==> Strings.AtMost(key(xs[i]), key(xs[j]))
  }

  function Insert<T>(x: T, xs: seq<T>, key: T -> string): seq<T> {
    if xs == [] then [x] else if Strings.Less(key(xs[0]), key(x)) then [xs[0]] + Insert(x, xs[1..], key) else [x] + xs
  }

  function Sort<T>(xs: seq<T>, key: T -> string): seq<T> {
    if xs == [] then [] else Insert(xs[0], Sort(xs[1..], key), key)
  }

  lemma {:induction false} InsertMembers<T>(x: T, xs: seq<T>, key: T -> string)
    ensures multiset(Insert(x, xs, key)) == multiset{x} + multiset(xs)
  {
    if xs != [] {
      assert xs == [xs[0]] + xs[1..];
      InsertMembers(x, xs[1..], key);
    }
  }

  lemma AtMostTransitive(a: string, b: string, c: string)
    requires Strings.AtMost(a, b) && Strings.AtMost(b, c)
    ensures Strings.AtMost(a, c)
  {
    Strings.LessIsTotal(a, b);
    Strings.LessIsTotal(b, c);
    if Strings.Less(a, b) && Strings.Less(b, c) {
      Strings.LessIsTransitive(a, b, c);
      Strings.LessIsStrict(a, c);
    }
  }

  lemma {:induction false} InsertSorted<T>(x: T, xs: seq<T>, key: T -> string)
    requires SortedBy(xs, key)
    ensures SortedBy(Insert(x, xs, key), key)
  {
    if xs != [] {
      var rest := xs[1..];
      if Strings.Less(key(xs[0]), key(x)) {
        InsertSorted(x, rest, key);
        InsertMembers(x, rest, key);
        Strings.LessIsStrict(key(xs[0]), key(x));
        var ys := Insert(x, rest, key);
        forall j | 0 <= j < |ys| ensures Strings.AtMost(key(xs[0]), key(ys[j])) {
          assert ys[j] in multiset(ys);
          assert ys[j] == x || ys[j] in rest;
        }
      } else {
        forall j | 0 <= j < |xs| ensures Strings.AtMost(key(x), key(xs[j])) {
          if j > 0 { AtMostTransitive(key(x), key(xs[0]), key(xs[j])); }
        }
      }
    }
  }

  /** Sorting gives an ordered permutation. */
  lemma {:induction false} SortIsSorted<T>(xs: seq<T>, key: T -> string)
    ensures SortedBy(Sort(xs, key), key) && multiset(Sort(xs, key)) == multiset(xs)
  {
    if xs != [] {
      SortIsSorted(xs[1..], key);
      InsertSorted(xs[0], Sort(xs[1..], key), key);
      InsertMembers(xs[0], Sort(xs[1..], key), key);
      assert xs == [xs[0]] + xs[1..];
    }
  }

  lemma SortKeepsMembers<T>(xs: seq<T>, key: T -> string, x: T)
    ensures x in Sort(xs, key) <==> x in xs
  {
    SortIsSorted(xs, key);
    assert x in Sort(xs, key) <==> x in multiset(Sort(xs, key));
    assert x in xs <==> x in multiset(xs);
  }

  /** The first index whose key is not below the wanted one. */
  method Search<T>(xs: seq<T>, key: T -> string, wanted: string) returns (i: nat)
    requires SortedBy(xs, key)
    ensures i <= |xs|
    ensures forall j :: 0 <= j < i ==> Strings.Less(key(xs[j]), wanted)
    ensures forall j :: i <= j < |xs| ==> Strings.AtMost(wanted, key(xs[j]))
  {
    i := 0;
    var hi := |xs|;
    while i < hi
      invariant 0 <= i <= hi <= |xs|
      invariant forall j :: 0 <= j < i ==> Strings.Less(key(xs[j]), wanted)
      invariant forall j :: hi <= j < |xs| ==> Strings.AtMost(wanted, key(xs[j]))
    {
      var h := (i + hi) / 2;
      if Strings.Less(key(xs[h]), wanted) {
        forall j | 0 <= j < h ensures Strings.Less(key(xs[j]), wanted) { BelowToo(key(xs[j]), key(xs[h]), wanted); }
        i := h + 1;
      } else {
        forall j | h < j < |xs| ensures Strings.AtMost(wanted, key(xs[j])) {
          AtMostTransitive(wanted, key(xs[h]), key(xs[j]));
        }
        hi := h;
      }
    }
  }

  lemma BelowToo(a: string, b: string, c: string)
    requires Strings.AtMost(a, b) && Strings.Less(b, c)
    ensures Strings.Less(a, c)
  {
    Strings.LessIsTotal(a, b);
    if Strings.Less(a, b) { Strings.LessIsTransitive(a, b, c); }
  }

  function Itself(s: string): string { s }
  function RouteOf(b: RouteBinding): string { b.route }

  /** Binary search on the sorted list is membership. */
  method SortedContains(values: seq<string>, wanted: string) returns (found: bool)
    requires SortedBy(values, Itself)
    ensures found <==> wanted in values
  {
    var i := Search(values, Itself, wanted);
    found := i < |values| && values[i] == wanted;
    if wanted in values {
      var j :| 0 <= j < |values| && values[j] == wanted;
      NotBelowItself(wanted);
      assert i <= j && Strings.AtMost(wanted, values[i]) && Strings.AtMost(Itself(values[i]), Itself(values[j]));
      Strings.LessIsTotal(wanted, values[i]);
    }
  }

  lemma NotBelowItself(a: string)
    ensures !Strings.Less(a, a)
  {
    if Strings.Less(a, a) { Strings.LessIsStrict(a, a); }
  }

  method FindBinding(bindings: seq<RouteBinding>, route: string) returns (r: Option<RouteBinding>)
    requires SortedBy(bindings, RouteOf)
    ensures r.Some? ==> r.value in bindings && r.value.route == route
    ensures r.None? ==> forall b :: b in bindings ==> b.route != route
  {
    var i := Search(bindings, RouteOf, route);
    if i < |bindings| && bindings[i].route == route { return Some(bindings[i]); }
    forall j | 0 <= j < |bindings| ensures bindings[j].route != route {
      NotBelowItself(route);
      if i < j {
        assert Strings.AtMost(route, RouteOf(bindings[i]))
            && Strings.AtMost(RouteOf(bindings[i]), RouteOf(bindings[j]));
        Strings.LessIsTotal(route, bindings[i].route);
      }
    }
    return None;
  }

  // ---------------------------------------------------------------- observations

  function Normalize(s: ReplicaState): ReplicaState {
    s.(routes := Sort(s.routes, Itself), healthy := Sort(s.healthy, Itself), bindings := Sort(s.bindings, RouteOf))
  }

  /** Each route is bound at most once, as a validated observation guarantees. */
  predicate BoundOnce(bs: seq<RouteBinding>) {
    forall i, j :: 0 <= i < |bs| && 0 <= j < |bs| && bs[i].route == bs[j].route ==> bs[i] == bs[j]
  }

  predicate Normal(s: ReplicaState) {
    SortedBy(s.routes, Itself) && SortedBy(s.healthy, Itself) && SortedBy(s.bindings, RouteOf) && BoundOnce(s.bindings)
  }

  datatype Rule = Rule(identity: Identity, publicKey: string, thumbprint: string, route: string, routeGeneration: nat,
      hash: string)

  predicate Legacy(e: Replica) { e.state.routes == [] }

  /** Whether a replica may serve the rule, in terms of membership only. */
  predicate Eligible(e: Replica, rule: Rule) {
    && e.identity.account == rule.identity.account && e.identity.tunnel == rule.identity.tunnel && !e.done
    && if Legacy(e) then
         && e.identity == rule.identity
         && (rule.publicKey == "" || (e.publicKey == rule.publicKey && e.thumbprint == rule.thumbprint))
       else
         && e.state.ready && e.state.generation == rule.identity.generation
            && e.identity.generation == rule.identity.generation
         && rule.route in e.state.routes && rule.route in e.state.healthy
         && (exists i :: 0 <= i < |e.state.bindings| && e.state.bindings[i].route == rule.route
                && e.state.bindings[i].routeGeneration == rule.routeGeneration && e.state.bindings[i].hash == rule.hash)
         && e.active < e.state.capacity
  }

  lemma {:induction false} SortLength<T>(xs: seq<T>, key: T -> string)
    ensures |Sort(xs, key)| == |xs|
  {
    SortIsSorted(xs, key);
    assert |multiset(Sort(xs, key))| == |Sort(xs, key)| && |multiset(xs)| == |xs|;
  }

  /** Sorting an observation changes neither eligibility nor the order. */
  lemma NormalizeKeepsEligible(e: Replica, rule: Rule)
    requires BoundOnce(e.state.bindings)
    ensures Normal(Normalize(e.state))
    ensures Eligible(e.(state := Normalize(e.state)), rule) <==> Eligible(e, rule)
  {
    var s, n := e.state, Normalize(e.state);
    SortIsSorted(s.routes, Itself);
    SortIsSorted(s.healthy, Itself);
    SortIsSorted(s.bindings, RouteOf);
    SortLength(s.routes, Itself);
    SortKeepsMembers(s.routes, Itself, rule.route);
    SortKeepsMembers(s.healthy, Itself, rule.route);
    forall b ensures b in n.bindings <==> b in s.bindings { SortKeepsMembers(s.bindings, RouteOf, b); }
    StillBoundOnce(s.bindings, n.bindings);
    SameBound(s.bindings, n.bindings, rule);
  }

  lemma StillBoundOnce(bs: seq<RouteBinding>, cs: seq<RouteBinding>)
    requires BoundOnce(bs) && forall b :: b in cs ==> b in bs
    ensures BoundOnce(cs)
  {
    forall i, j | 0 <= i < |cs| && 0 <= j < |cs| && cs[i].route == cs[j].route ensures cs[i] == cs[j] {
      assert cs[i] in bs && cs[j] in bs;
    }
  }

  lemma SameBound(bs: seq<RouteBinding>, cs: seq<RouteBinding>, rule: Rule)
    requires forall b :: b in bs <==> b in cs
    ensures (exists i :: 0 <= i < |bs| && bs[i].route == rule.route && bs[i].routeGeneration == rule.routeGeneration
                         && bs[i].hash == rule.hash)
       <==> (exists i :: 0 <= i < |cs| && cs[i].route == rule.route && cs[i].routeGeneration == rule.routeGeneration
                         && cs[i].hash == rule.hash)
  {
    forall i | 0 <= i < |bs| ensures exists j :: 0 <= j < |cs| && cs[j] == bs[i] { assert bs[i] in cs; }
    forall i | 0 <= i < |cs| ensures exists j :: 0 <= j < |bs| && bs[j] == cs[i] { assert cs[i] in bs; }
  }

  method IsEligible(e: Replica, rule: Rule) returns (ok: bool)
    requires Normal(e.state)
    ensures ok == Eligible(e, rule)
  {
    if e.identity.account != rule.identity.account || e.identity.tunnel != rule.identity.tunnel || e.done {
      return false;
    }
    if |e.state.routes| == 0 {
      return e.identity == rule.identity && (rule.publicKey == ""
          || (e.publicKey == rule.publicKey && e.thumbprint == rule.thumbprint));
    }
    var binding := FindBinding(e.state.bindings, rule.route);
    var routed := SortedContains(e.state.routes, rule.route);
    var healthy := SortedContains(e.state.healthy, rule.route);
    if binding.None? || !routed || !healthy { return false; }
    var i :| 0 <= i < |e.state.bindings| && e.state.bindings[i] == binding.value;
    return e.state.ready && e.state.generation == rule.identity.generation
        && e.identity.generation == rule.identity.generation
        && binding.value.routeGeneration == rule.routeGeneration && binding.value.hash == rule.hash
           && e.active < e.state.capacity;
  }

  // ---------------------------------------------------------------- the choice

  /** Strictly before every other eligible replica. */
  predicate Least(entries: map<string, Replica>, k: string, rule: Rule, score: string -> nat) {
    && k in entries && Eligible(entries[k], rule)
    && forall j :: j in entries && j != k && Eligible(entries[j], rule) ==> Less(entries[k], entries[j], score)
  }

  /** Entries are stored under the keys of their identities. */
  predicate Keyed(entries: map<string, Replica>) {
    forall k :: k in entries ==>
        entries[k].identity.Valid() && Key(entries[k].identity) == k && Normal(entries[k].state)
  }

  /** There is at most one least replica, so the choice does not depend on the order of the visit. */
  lemma LeastIsUnique(entries: map<string, Replica>, j: string, k: string, rule: Rule, score: string -> nat)
    requires Keyed(entries) && Least(entries, j, rule, score) && Least(entries, k, rule, score)
    ensures j == k
  {
    LessIsStrictTotal(entries[j], entries[k], entries[k], score);
  }

  /** An eligible entry whose load cannot be compared. */
  predicate Unranked(entries: map<string, Replica>, k: string, rule: Rule) {
    k in entries && Eligible(entries[k], rule) && !Ranked(entries[k])
  }

  /** Only the entry of the rule's own assignment can be one, so there is at most one. */
  lemma OneUnranked(entries: map<string, Replica>, k: string, rule: Rule)
    requires Keyed(entries) && Unranked(entries, k, rule)
    ensures k == Key(rule.identity)
  {
  }

  function RankedKeys(entries: map<string, Replica>, rule: Rule): set<string> {
    set k | k in entries && Eligible(entries[k], rule) && Ranked(entries[k])
  }

  /** Before every other eligible entry whose load can be compared. */
  predicate LeastRanked(entries: map<string, Replica>, keys: set<string>, k: string, score: string -> nat)
    requires keys <= entries.Keys
  {
    k in keys && forall j :: j in keys && j != k ==> Less(entries[k], entries[j], score)
  }

  lemma {:induction false} LeastRankedExists(entries: map<string, Replica>, keys: set<string>, score: string -> nat)
      returns (k: string)
    requires Keyed(entries) && keys != {} && keys <= entries.Keys && forall j :: j in keys ==> Ranked(entries[j])
    ensures LeastRanked(entries, keys, k, score)
    decreases keys
  {
    var i :| i in keys;
    if keys == {i} {
      k := i;
    } else {
      k := LeastRankedExists(entries, keys - {i}, score);
      LessIsStrictTotal(entries[i], entries[k], entries[k], score);
      if Less(entries[i], entries[k], score) {
        forall j | j in keys && j != i ensures Less(entries[i], entries[j], score) {
          LessIsStrictTotal(entries[i], entries[k], entries[j], score);
        }
        k := i;
      }
    }
  }

  /** The unranked entry `z` stands between the least ranked entry `x` and another ranked one, the wrong way round. */
  predicate JammedBy(entries: map<string, Replica>, rule: Rule, score: string -> nat, x: string, y: string, z: string) {
    && LeastRanked(entries, RankedKeys(entries, rule), x, score)
    && y in RankedKeys(entries, rule) && Unranked(entries, z, rule)
       && Twisted(entries[x], entries[y], entries[z], score)
  }

  ghost predicate Jammed(entries: map<string, Replica>, rule: Rule, score: string -> nat) {
    exists x, y, z :: JammedBy(entries, rule, score, x, y, z)
  }

  predicate AnyEligible(entries: map<string, Replica>, rule: Rule) {
    exists k :: k in entries && Eligible(entries[k], rule)
  }

  ghost predicate AnyLeast(entries: map<string, Replica>, rule: Rule, score: string -> nat) {
    exists k :: Least(entries, k, rule, score)
  }

  /** In a jam no entry is least: each of the three has another before it. */
  lemma JamHasNoLeast(entries: map<string, Replica>, rule: Rule, score: string -> nat, x: string, y: string, z: string,
      k: string)
    requires Keyed(entries) && JammedBy(entries, rule, score, x, y, z)
    ensures !Least(entries, k, rule, score)
  {
    CycleThrough(entries[x], entries[y], entries[z], score);
    if k == x {
      LessIsStrictTotal(entries[z], entries[x], entries[x], score);
    } else if k in RankedKeys(entries, rule) {
      LessIsStrictTotal(entries[x], entries[k], entries[k], score);
    } else if Unranked(entries, k, rule) {
      OneUnranked(entries, k, rule);
      OneUnranked(entries, z, rule);
      LessIsStrictTotal(entries[y], entries[z], entries[z], score);
    }
  }

  /** Where a ranked entry comes before the unranked one, either the least ranked one does too or there is a jam. */
  lemma LeastOrJammed(entries: map<string, Replica>, rule: Rule, score: string -> nat, x: string, z: string)
    requires Keyed(entries) && LeastRanked(entries, RankedKeys(entries, rule), x, score) && Unranked(entries, z, rule)
    requires !Jammed(entries, rule, score)
    ensures Least(entries, x, rule, score) || Least(entries, z, rule, score)
  {
    LessIsStrictTotal(entries[x], entries[z], entries[z], score);
    forall j | j in entries && Eligible(entries[j], rule) && j != z ensures j in RankedKeys(entries, rule) {
      if Unranked(entries, j, rule) {
        OneUnranked(entries, j, rule);
        OneUnranked(entries, z, rule);
        assert false;
      }
    }
    if Less(entries[z], entries[x], score) {
      forall j | j in entries && Eligible(entries[j], rule) && j != z ensures Less(entries[z], entries[j], score) {
        if Less(entries[j], entries[z], score) {
          CycleThrough(entries[x], entries[j], entries[z], score);
          LessIsStrictTotal(entries[x], entries[z], entries[z], score);
          assert JammedBy(entries, rule, score, x, j, z);
        }
        LessIsStrictTotal(entries[j], entries[z], entries[z], score);
      }
    }
  }

  lemma LoneUnranked(entries: map<string, Replica>, rule: Rule, score: string -> nat, k: string)
    requires Keyed(entries) && RankedKeys(entries, rule) == {} && k in entries && Eligible(entries[k], rule)
    ensures Least(entries, k, rule, score)
  {
    forall j | j in entries && Eligible(entries[j], rule) ensures j == Key(rule.identity) {
      assert j !in RankedKeys(entries, rule);
      OneUnranked(entries, j, rule);
    }
  }

  lemma AllRanked(entries: map<string, Replica>, rule: Rule, score: string -> nat, x: string)
    requires LeastRanked(entries, RankedKeys(entries, rule), x, score) && forall z :: !Unranked(entries, z, rule)
    ensures Least(entries, x, rule, score)
  {
    forall j | j in entries && Eligible(entries[j], rule) ensures j in RankedKeys(entries, rule) {
      assert !Unranked(entries, j, rule);
    }
  }

  lemma LeastUnlessJammed(entries: map<string, Replica>, rule: Rule, score: string -> nat, k: string)
    requires Keyed(entries) && k in entries && Eligible(entries[k], rule) && !Jammed(entries, rule, score)
    ensures AnyLeast(entries, rule, score)
  {
    if RankedKeys(entries, rule) == {} {
      LoneUnranked(entries, rule, score, k);
    } else {
      var x := LeastRankedExists(entries, RankedKeys(entries, rule), score);
      if z :| Unranked(entries, z, rule) {
        LeastOrJammed(entries, rule, score, x, z);
      } else {
        AllRanked(entries, rule, score, x);
      }
    }
  }

  /** A replica strictly before every other eligible one exists if and only if one is eligible and there is no jam. */
  lemma LeastExistsExactly(entries: map<string, Replica>, rule: Rule, score: string -> nat)
    requires Keyed(entries)
    ensures AnyLeast(entries, rule, score) <==> AnyEligible(entries, rule) && !Jammed(entries, rule, score)
  {
    if Jammed(entries, rule, score) {
      var x, y, z :| JammedBy(entries, rule, score, x, y, z);
      forall k ensures !Least(entries, k, rule, score) { JamHasNoLeast(entries, rule, score, x, y, z, k); }
    } else if k :| k in entries && Eligible(entries[k], rule) {
      LeastUnlessJammed(entries, rule, score, k);
    }
  }

  /** Once the least replica has been visited it is the chosen one. */
  ghost predicate Chosen(entries: map<string, Replica>, visited: set<string>, r: Option<Replica>, rule: Rule,
      score: string -> nat) {
    forall k :: k in visited && Least(entries, k, rule, score) ==> r == Some(entries[k])
  }

  function Better(e: Replica, r: Option<Replica>, score: string -> nat): Option<Replica> {
    if r.None? || Less(e, r.value, score) then Some(e) else r
  }

  /** An entry that is stored and may serve the rule. */
  predicate Candidate(entries: map<string, Replica>, e: Replica, rule: Rule) {
    Key(e.identity) in entries && entries[Key(e.identity)] == e && Eligible(e, rule)
  }

  /** What the visit of the entries under `visited` has found. */
  ghost predicate Found(entries: map<string, Replica>, visited: set<string>, r: Option<Replica>, rule: Rule,
      score: string -> nat) {
    && (r.None? ==> forall k :: k in visited && k in entries ==> !Eligible(entries[k], rule))
    && (r.Some? ==> Candidate(entries, r.value, rule) && Key(r.value.identity) in visited)
    && Chosen(entries, visited, r, rule, score)
  }

  lemma FoundMore(entries: map<string, Replica>, visited: set<string>, r: Option<Replica>, k: string, rule: Rule,
      score: string -> nat)
    requires Keyed(entries) && Found(entries, visited, r, rule, score) && k in entries && k !in visited
    ensures Found(entries, visited + {k}, if Eligible(entries[k], rule) then Better(entries[k], r, score)
            else r, rule, score)
  {
    if r.Some? { LessIsStrictTotal(entries[k], r.value, r.value, score); }
  }

  lemma ChosenIsLeast(entries: map<string, Replica>, e: Replica, rule: Rule, score: string -> nat)
    requires Keyed(entries) && Chosen(entries, entries.Keys, Some(e), rule, score) && Candidate(entries, e, rule)
    ensures Least(entries, Key(e.identity), rule, score) <==> !Jammed(entries, rule, score)
  {
    LeastExistsExactly(entries, rule, score);
    if k :| Least(entries, k, rule, score) { assert entries[k] == e; }
  }

  /**
   The replica that a sort of the eligible entries puts first: the least one, whatever the
   order of the visit, whenever there is a least one.
   */
  method EntryFor(entries: map<string, Replica>, rule: Rule, score: string -> nat) returns (r: Option<Replica>)
    requires Keyed(entries)
    ensures r.None? <==> !AnyEligible(entries, rule)
    ensures r.Some? ==> Candidate(entries, r.value, rule)
    ensures r.Some? ==> (Least(entries, Key(r.value.identity), rule, score) <==> !Jammed(entries, rule, score))
  {
    r := None;
    var left := entries.Keys;
    while left != {}
      invariant left <= entries.Keys && Found(entries, entries.Keys - left, r, rule, score)
      decreases left
    {
      var k :| k in left;
      var ok := IsEligible(entries[k], rule);
      FoundMore(entries, entries.Keys - left, r, k, rule, score);
      assert entries.Keys - (left - {k}) == entries.Keys - left + {k};
      if ok { r := Better(entries[k], r, score); }
      left := left - {k};
    }
    assert entries.Keys - left == entries.Keys;
    if r.Some? { ChosenIsLeast(entries, r.value, rule, score); }
  }
}
