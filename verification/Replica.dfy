/** Choosing one replica of a route: the order, its least element, and the sorted lookups. */
module Replicas {
  import opened SessionTypes
  import opened CarrierIdentities
  import Strings

  datatype RouteBinding = RouteBinding(route: string, assignment: string, assignmentGeneration: nat,
      routeGeneration: nat, hash: string)

  datatype ReplicaState = ReplicaState(ready: bool, generation: nat, routes: seq<string>, healthy: seq<string>,
      bindings: seq<RouteBinding>,
                                       domain: string, latency: nat, capacity: nat)

  /** A registered carrier, with what its server reports at the moment of the choice. */
  datatype Replica = Replica(identity: Identity, publicKey: string, thumbprint: string, done: bool, active: nat,
      state: ReplicaState)

  // ---------------------------------------------------------------- the order

  /** How a tie is broken; `score` is the tie score of a failure domain for the request at hand. */
  predicate Before(a: Replica, b: Replica, score: string -> nat) {
    if score(a.state.domain) != score(b.state.domain) then score(a.state.domain) > score(b.state.domain)
    else Strings.Less(Key(a.identity), Key(b.identity))
  }

  predicate Less(a: Replica, b: Replica, score: string -> nat) {
    if a.state.latency != b.state.latency then a.state.latency < b.state.latency
    else if a.active * b.state.capacity != b.active * a.state.capacity
        then a.active * b.state.capacity < b.active * a.state.capacity
    else Before(a, b, score)
  }

  /** Its load can be compared: it has capacity, or it is visibly busy without any. */
  predicate Ranked(a: Replica) { a.state.capacity > 0 || a.active > 0 }

  lemma Scale(p: nat, q: nat, d: nat)
    requires p <= q
    ensures p * d <= q * d
  {
    assert q * d == p * d + (q - p) * d;
  }

  lemma ScaleStrict(p: nat, q: nat, d: nat)
    requires p < q && d > 0
    ensures p * d < q * d
  {
    Scale(p + 1, q, d);
    assert (p + 1) * d == p * d + d;
  }

  lemma Cancel(p: nat, q: nat, d: nat)
    ensures d > 0 && p * d <= q * d ==> p <= q
    ensures p * d < q * d ==> p < q
  {
    if q < p && d > 0 { ScaleStrict(q, p, d); }
    if q <= p { Scale(q, p, d); }
  }

  lemma Swap(a: nat, b: nat, c: nat)
    ensures a * b * c == a * c * b
  {
    Reassociate(a, b, c);
    Reassociate(a, c, b);
    assert b * c == c * b;
  }

  lemma Reassociate(a: nat, b: nat, c: nat)
    ensures a * b * c == a * (b * c)
  {
  }

  lemma ProductPositive(x: nat, y: nat)
    ensures x > 0 && y > 0 ==> x * y > 0
  {
  }

  /** The three products of a comparison across `y / d`, on a common denominator. */
  lemma Common(x: nat, c: nat, y: nat, d: nat, z: nat, e: nat)
    ensures x * e * d == x * d * e && y * c * e == y * e * c && z * d * c == z * c * d
  {
    Swap(x, e, d);
    Swap(y, c, e);
    Swap(z, d, c);
  }

  lemma CrossAtMost(x: nat, c: nat, y: nat, d: nat, z: nat, e: nat)
    requires d > 0 && x * d <= y * c && y * e <= z * d
    ensures x * e <= z * c
  {
    Common(x, c, y, d, z, e);
    Scale(x * d, y * c, e);
    Scale(y * e, z * d, c);
    Cancel(x * e, z * c, d);
  }

  lemma CrossFirst(x: nat, c: nat, y: nat, d: nat, z: nat, e: nat)
    requires x * d < y * c && y * e <= z * d && e > 0
    ensures x * e < z * c
  {
    Common(x, c, y, d, z, e);
    ScaleStrict(x * d, y * c, e);
    Scale(y * e, z * d, c);
    Cancel(x * e, z * c, d);
  }

  lemma CrossSecond(x: nat, c: nat, y: nat, d: nat, z: nat, e: nat)
    requires x * d <= y * c && y * e < z * d && c > 0
    ensures x * e < z * c
  {
    Common(x, c, y, d, z, e);
    Scale(x * d, y * c, e);
    ScaleStrict(y * e, z * d, c);
    Cancel(x * e, z * c, d);
  }

  lemma CrossTransitive(x: nat, c: nat, y: nat, d: nat, z: nat, e: nat)
    requires d > 0 && x * d <= y * c && y * e <= z * d
    ensures x * e <= z * c
    ensures x * d < y * c && e > 0 ==> x * e < z * c
    ensures y * e < z * d && c > 0 ==> x * e < z * c
  {
    CrossAtMost(x, c, y, d, z, e);
    if x * d < y * c && e > 0 { CrossFirst(x, c, y, d, z, e); }
    if y * e < z * d && c > 0 { CrossSecond(x, c, y, d, z, e); }
  }

  /** Load order: a pair with capacity is compared by ratio, and one without capacity is the most loaded. */
  lemma LoadTransitive(a: Replica, b: Replica, c: Replica)
    requires Ranked(a) && Ranked(b) && Ranked(c)
    requires a.active * b.state.capacity <= b.active * a.state.capacity
             && b.active * c.state.capacity <= c.active * b.state.capacity
    ensures a.active * c.state.capacity <= c.active * a.state.capacity
    ensures a.active * b.state.capacity < b.active * a.state.capacity
            || b.active * c.state.capacity < c.active * b.state.capacity
            ==> a.active * c.state.capacity < c.active * a.state.capacity
  {
    if b.state.capacity > 0 {
      CrossTransitive(a.active, a.state.capacity, b.active, b.state.capacity, c.active, c.state.capacity);
      ProductPositive(a.active, b.state.capacity);
      if c.state.capacity == 0 { assert c.active * a.state.capacity >= a.state.capacity; }
    } else {
      assert b.active * c.state.capacity <= 0;
      ProductPositive(b.active, c.state.capacity);
      if a.state.capacity > 0 { assert c.active * a.state.capacity >= c.active; }
    }
  }

  lemma BeforeIsStrict(a: Replica, b: Replica, c: Replica, score: string -> nat)
    ensures Before(a, b, score) ==> !Before(b, a, score)
    ensures Before(a, b, score) && Before(b, c, score) ==> Before(a, c, score)
  {
    if Strings.Less(Key(a.identity), Key(b.identity)) {
      Strings.LessIsStrict(Key(a.identity), Key(b.identity));
      if Strings.Less(Key(b.identity), Key(c.identity)) {
        Strings.LessIsTransitive(Key(a.identity), Key(b.identity), Key(c.identity));
      }
    }
  }

  /** Strictness and totality for any two replicas, transitivity for those whose load can be compared. */
  lemma LessIsStrictTotal(a: Replica, b: Replica, c: Replica, score: string -> nat)
    requires a.identity.Valid() && b.identity.Valid()
    ensures Less(a, b, score) ==> !Less(b, a, score)
    ensures a.identity != b.identity ==> Less(a, b, score) || Less(b, a, score)
    ensures Ranked(a) && Ranked(b) && Ranked(c) && Less(a, b, score) && Less(b, c, score) ==> Less(a, c, score)
  {
    BeforeIsStrict(a, b, c, score);
    if a.identity != b.identity {
      if Key(a.identity) == Key(b.identity) { KeyInjective(a.identity, b.identity); }
      Strings.LessIsTotal(Key(a.identity), Key(b.identity));
    }
    if Ranked(a) && Ranked(b) && Ranked(c) && Less(a, b, score) && Less(b, c, score) { LessTransitive(a, b, c, score); }
  }

  lemma LessTransitive(a: Replica, b: Replica, c: Replica, score: string -> nat)
    requires Ranked(a) && Ranked(b) && Ranked(c) && Less(a, b, score) && Less(b, c, score)
    ensures Less(a, c, score)
  {
    if a.state.latency == b.state.latency == c.state.latency {
      LoadTransitive(a, b, c);
      LoadTies(a, b, c);
      BeforeIsStrict(a, b, c, score);
    }
  }

  /** Equal loads on both sides give an equal load across. */
  lemma LoadTies(a: Replica, b: Replica, c: Replica)
    requires Ranked(a) && Ranked(b) && Ranked(c)
    ensures a.active * b.state.capacity == b.active * a.state.capacity
            && b.active * c.state.capacity == c.active * b.state.capacity
            ==> a.active * c.state.capacity == c.active * a.state.capacity
  {
    if a.active * b.state.capacity == b.active * a.state.capacity
       && b.active * c.state.capacity == c.active * b.state.capacity {
      LoadTransitive(a, b, c);
      LoadTransitive(c, b, a);
    }
  }

  /** An idle replica without capacity ties with every load. */
  lemma UnrankedTies(a: Replica, b: Replica, score: string -> nat)
    requires (!Ranked(a) || !Ranked(b)) && a.state.latency == b.state.latency
    ensures Less(a, b, score) <==> Before(a, b, score)
  {
    assert a.active * b.state.capacity == 0 && b.active * a.state.capacity == 0;
  }

  /**
   `x` is less loaded than `y`, and the idle `z`, which has no capacity, stands between `y` and `x`
   by score and key.
   */
  predicate Twisted(x: Replica, y: Replica, z: Replica, score: string -> nat) {
    && Ranked(x) && Ranked(y) && !Ranked(z) && x.state.latency == y.state.latency == z.state.latency
    && x.active * y.state.capacity < y.active * x.state.capacity
    && Before(y, z, score) && Before(z, x, score)
  }

  predicate Cycle(a: Replica, b: Replica, c: Replica, score: string -> nat) {
    Less(a, b, score) && Less(b, c, score) && Less(c, a, score)
  }

  lemma CycleThrough(x: Replica, y: Replica, z: Replica, score: string -> nat)
    requires !Ranked(z)
    ensures Cycle(x, y, z, score) <==> Twisted(x, y, z, score)
  {
    if x.state.latency == y.state.latency == z.state.latency {
      UnrankedTies(y, z, score);
      UnrankedTies(z, x, score);
      BeforeIsStrict(y, z, x, score);
      BeforeIsStrict(y, x, x, score);
      if !Ranked(x) || !Ranked(y) { UnrankedTies(x, y, score); }
    }
  }

  /**
   The order has a cycle of three exactly where an idle replica without capacity stands between two
   others the wrong way round.
   */
  lemma CyclesExactly(a: Replica, b: Replica, c: Replica, score: string -> nat)
    ensures Cycle(a, b, c, score) <==> Twisted(a, b, c, score) || Twisted(b, c, a, score) || Twisted(c, a, b, score)
  {
    if !Ranked(c) { CycleThrough(a, b, c, score); }
    if !Ranked(a) { CycleThrough(b, c, a, score); }
    if !Ranked(b) { CycleThrough(c, a, b, score); }
    if Ranked(a) && Ranked(b) && Ranked(c) && Cycle(a, b, c, score) {
      LessTransitive(a, b, c, score);
      BeforeIsStrict(a, c, c, score);
      assert false;
    }
  }
}
