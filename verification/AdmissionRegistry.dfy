/** The preview admission registry as an object. */
module AdmissionRegistries {
  import opened Admissions
  import Strings
  import opened Sequences

  /** Pairs of identifiers never collide as keys. */
  lemma KeyInjective(a: Expected, b: Expected)
    requires Strings.NUL !in a.operation && Strings.NUL !in b.operation && Key(a) == Key(b)
    ensures a.operation == b.operation && a.route == b.route
  {
    assert Strings.Join([a.operation, a.route]) == a.operation + [Strings.NUL] + a.route
        && Strings.Join([b.operation, b.route]) == b.operation + [Strings.NUL] + b.route by {
      assert [a.operation, a.route][1..] == [a.route] && [b.operation, b.route][1..] == [b.route];
    }
    Strings.HeadUnique(a.operation, b.operation, a.route, b.route);
  }

  lemma {:induction false} ScreenStops(epoch: string, xs: seq<Pulled>, i: nat)
    requires i <= |xs| && Screen(epoch, xs[..i]) != Taken
    ensures Screen(epoch, xs) == Screen(epoch, xs[..i])
    decreases |xs|
  {
    if i < |xs| {
      assert xs[..|xs| - 1][..i] == xs[..i];
      ScreenStops(epoch, xs[..|xs| - 1], i);
    } else {
      assert xs[..i] == xs;
    }
  }

  /** Staged values written so far: those outside `left`. */
  function PartlyOverlaid(byKey: map<string, Expected>, next: map<string, Expected>,
      left: set<string>): map<string, Expected> {
    Overlaid(byKey, next - left)
  }

  lemma OverlayStep(byKey: map<string, Expected>, next: map<string, Expected>, left: set<string>, k: string)
    requires k in left && left <= next.Keys
    ensures var b := PartlyOverlaid(byKey, next, left);
            PartlyOverlaid(byKey, next, left - {k}) == if !(k in b && b[k].admitted) then b[k := next[k]] else b
  {
    var b, c := PartlyOverlaid(byKey, next, left), PartlyOverlaid(byKey, next, left - {k});
    assert k !in next - left && (k in b <==> k in byKey) && (k in byKey ==> b[k] == byKey[k]);
    assert next - (left - {k}) == (next - left)[k := next[k]];
  }

  class ExpectedAdmissionRegistry {
    const epoch: string
    const maximum: nat
    var closed: bool
    var byKey: map<string, Expected>
    var pending: map<string, Expected>

    ghost function View(): Registry
      reads this
    {
      Registry(epoch, maximum, closed, byKey, pending)
    }

    constructor (epoch: string, maximum: nat)
      ensures View() == Registry(epoch, maximum, false, map[], map[])
    {
      this.epoch, this.maximum := epoch, maximum;
      closed, byKey, pending := false, map[], map[];
    }

    method Stage(xs: seq<Pulled>) returns (v: Outcome, next: map<string, Expected>)
      ensures v == Screen(epoch, xs) && (v == Taken ==> next == Staged(xs))
    {
      next := map[];
      for i := 0 to |xs|
        invariant Screen(epoch, xs[..i]) == Taken && next == Staged(xs[..i])
      {
        Prefix(xs, i);
        var a := xs[i].a;
        if !xs[i].valid { ScreenStops(epoch, xs, i + 1); return BadInput, next; }
        if a.epoch != epoch || Key(a) in next { ScreenStops(epoch, xs, i + 1); return Clash, next; }
        next := next[Key(a) := a.(admitted := false)];
      }
      assert xs[..|xs|] == xs;
      v := Taken;
    }

    method InstallPending(xs: seq<Pulled>) returns (v: Outcome)
      modifies `byKey, `pending
      ensures (View(), v) == Admissions.InstallPending(old(View()), xs)
    {
      if |xs| > maximum { return Clash; }
      var next;
      v, next := Stage(xs);
      if v != Taken { return; }
      if closed { return IsShut; }
      pending := next;
      var left := next.Keys;
      assert next - left == map[];
      assert byKey == PartlyOverlaid(byKey, next, left);
      while left != {}
        invariant left <= next.Keys && pending == next && byKey == PartlyOverlaid(old(byKey), next, left)
        decreases left
      {
        var k :| k in left;
        OverlayStep(old(byKey), next, left, k);
        if !(k in byKey && byKey[k].admitted) { byKey := byKey[k := next[k]]; }
        left := left - {k};
      }
      assert next - {} == next;
    }

    method MarkAdmitted(xs: seq<Expected>) returns (v: Outcome)
      modifies `byKey, `pending
      ensures (View(), v) == Admissions.MarkAdmitted(old(View()), xs)
    {
      if closed { return IsShut; }
      for i := 0 to |xs|
        invariant forall j :: 0 <= j < i ==> Matches(pending, xs[j])
      {
        if !Matches(pending, xs[i]) { return Clash; }
      }
      for i := 0 to |xs|
        invariant View() == MarkAll(old(View()), xs[..i])
      {
        Prefix(xs, i);
        var k := Key(xs[i]);
        var value := if k in pending then pending[k] else ZERO;
        byKey := byKey[k := value.(admitted := true)];
        pending := pending - {k};
      }
      assert xs[..|xs|] == xs;
      return Taken;
    }

    method Commit(xs: seq<Expected>) returns (v: Outcome)
      modifies `byKey, `pending
      ensures (View(), v) == Admissions.Commit(old(View()), xs)
    {
      var next: map<string, Expected> := map[];
      for i := 0 to |xs|
        invariant View() == old(View()) && next == ByKey(xs[..i]) && forall j :: 0 <= j < i ==> xs[j].admitted
      {
        Prefix(xs, i);
        if !xs[i].admitted { return Clash; }
        next := next[Key(xs[i]) := xs[i]];
      }
      assert xs[..|xs|] == xs;
      if closed { return IsShut; }
      var left := next.Keys;
      while left != {}
        invariant View() == old(View()) && left <= next.Keys && forall k :: k in next && k !in left ==>
                  Ready(byKey, k, next[k])
        decreases left
      {
        var k :| k in left;
        if !Ready(byKey, k, next[k]) { return Clash; }
        left := left - {k};
      }
      byKey, pending := next, map[];
      return Taken;
    }

    method Remove(a: Expected) returns (v: Outcome)
      modifies `byKey
      ensures (View(), v) == Admissions.Remove(old(View()), a)
    {
      if Key(a) !in byKey { return Taken; }
      if !ExactEqual(byKey[Key(a)], a) { return Clash; }
      byKey := byKey - {Key(a)};
      return Taken;
    }
  }
}
