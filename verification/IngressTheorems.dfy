/** Connection counts, token bounds over any window, and eviction that changes no decision. */
module IngressTheorems {
  import opened Ingress

  // ---------------------------------------------------------------- counts

  function Publishers(leases: map<nat, Lease>, k: string): set<nat> {
    set i | i in leases && leases[i].publication == k
  }
  function Holders(leases: map<nat, Lease>, a: string): set<nat> { set i | i in leases && leases[i].account == a }

  predicate Counted(x: Side, k: string, n: nat) { k in x.states ==> x.states[k].active == n && n <= x.cfg.connections }

  /** Every entry counts exactly its outstanding leases, within its cap, and every outstanding lease has its entries. */
  ghost predicate Balanced(l: Limits) {
    && (forall i :: i in l.leases ==>
       i < l.next && l.leases[i].publication in l.publications.states && l.leases[i].account in l.accounts.states)
    && (forall k :: Counted(l.publications, k, |Publishers(l.leases, k)|))
    && (forall a :: Counted(l.accounts, a, |Holders(l.leases, a)|))
  }

  lemma LeaseIsLive(l: Limits, id: nat)
    requires Balanced(l) && id in l.leases
    ensures Live(l, id)
  {
    var lease := l.leases[id];
    assert id in Publishers(l.leases, lease.publication) && id in Holders(l.leases, lease.account);
    assert Counted(l.publications, lease.publication, |Publishers(l.leases, lease.publication)|);
    assert Counted(l.accounts, lease.account, |Holders(l.leases, lease.account)|);
  }

  /** Eviction removes only entries without leases. */
  lemma SweepBalanced(l: Limits, now: real)
    requires Balanced(l)
    ensures Balanced(Sweep(l, now))
  {
    var s := Sweep(l, now);
    forall i | i in l.leases ensures l.leases[i].publication in s.publications.states
        && l.leases[i].account in s.accounts.states {
      LeaseIsLive(l, i);
    }
    forall k ensures Counted(s.publications, k, |Publishers(s.leases, k)|) {
      assert Counted(l.publications, k, |Publishers(l.leases, k)|);
    }
    forall a ensures Counted(s.accounts, a, |Holders(s.leases, a)|) {
      assert Counted(l.accounts, a, |Holders(l.leases, a)|);
    }
  }

  lemma AddPublisher(leases: map<nat, Lease>, i: nat, lease: Lease, k: string)
    requires i !in leases
    ensures |Publishers(leases[i := lease], k)| == |Publishers(leases, k)| + if k == lease.publication then 1 else 0
  {
    if k == lease.publication {
      assert Publishers(leases[i := lease], k) == Publishers(leases, k) + {i};
    } else {
      assert Publishers(leases[i := lease], k) == Publishers(leases, k);
    }
  }

  lemma AddHolder(leases: map<nat, Lease>, i: nat, lease: Lease, k: string)
    requires i !in leases
    ensures |Holders(leases[i := lease], k)| == |Holders(leases, k)| + if k == lease.account then 1 else 0
  {
    if k == lease.account {
      assert Holders(leases[i := lease], k) == Holders(leases, k) + {i};
    } else {
      assert Holders(leases[i := lease], k) == Holders(leases, k);
    }
  }

  lemma DropPublisher(leases: map<nat, Lease>, i: nat, k: string)
    requires i in leases
    ensures |Publishers(leases - {i}, k)| == |Publishers(leases, k)| - if k == leases[i].publication then 1 else 0
  {
    if k == leases[i].publication {
      assert Publishers(leases, k) == Publishers(leases - {i}, k) + {i};
    } else {
      assert Publishers(leases, k) == Publishers(leases - {i}, k);
    }
  }

  lemma DropHolder(leases: map<nat, Lease>, i: nat, k: string)
    requires i in leases
    ensures |Holders(leases - {i}, k)| == |Holders(leases, k)| - if k == leases[i].account then 1 else 0
  {
    if k == leases[i].account {
      assert Holders(leases, k) == Holders(leases - {i}, k) + {i};
    } else {
      assert Holders(leases, k) == Holders(leases - {i}, k);
    }
  }

  lemma NoneWithoutEntry(l: Limits, k: string)
    requires Balanced(l)
    ensures k !in l.publications.states ==> Publishers(l.leases, k) == {}
    ensures k !in l.accounts.states ==> Holders(l.leases, k) == {}
  {
  }

  lemma GrantBalanced(l: Limits, now: real, k: string, a: string)
    requires Balanced(l) && Admits(l, now, k, a)
    ensures Balanced(Granted(l, now, k, a))
  {
    var g := Granted(l, now, k, a);
    NoneWithoutEntry(l, k);
    NoneWithoutEntry(l, a);
    forall j ensures Counted(g.publications, j, |Publishers(g.leases, j)|) {
      AddPublisher(l.leases, l.next, Lease(k, a), j);
      assert Counted(l.publications, j, |Publishers(l.leases, j)|);
    }
    forall j ensures Counted(g.accounts, j, |Holders(g.leases, j)|) {
      AddHolder(l.leases, l.next, Lease(k, a), j);
      assert Counted(l.accounts, j, |Holders(l.leases, j)|);
    }
  }

  lemma ReleaseBalanced(l: Limits, now: real, id: nat)
    requires Balanced(l)
    ensures Balanced(Release(l, now, id))
  {
    if Live(l, id) {
      var r := Release(l, now, id);
      forall j ensures Counted(r.publications, j, |Publishers(r.leases, j)|) {
        DropPublisher(l.leases, id, j);
        assert Counted(l.publications, j, |Publishers(l.leases, j)|);
      }
      forall j ensures Counted(r.accounts, j, |Holders(r.leases, j)|) {
        DropHolder(l.leases, id, j);
        assert Counted(l.accounts, j, |Holders(l.leases, j)|);
      }
    }
  }

  lemma SpendBalanced(l: Limits, now: real, id: nat, n: nat)
    requires Balanced(l)
    ensures Balanced(Spend(l, now, id, n))
  {
    var r := Spend(l, now, id, n);
    forall j ensures Counted(r.publications, j, |Publishers(r.leases, j)|) {
      assert Counted(l.publications, j, |Publishers(l.leases, j)|);
    }
    forall j ensures Counted(r.accounts, j, |Holders(r.leases, j)|) {
      assert Counted(l.accounts, j, |Holders(l.leases, j)|);
    }
  }

  lemma StepBalanced(l: Limits, e: Event)
    requires Balanced(l)
    ensures Balanced(Next(l, e))
  {
    match e {
      case DoAcquire(now, account, publication) =>
        SweepBalanced(l, now);
        if Acquire(l, now, account, publication).1 {
          GrantBalanced(Sweep(l, now), now, Key(account, publication), account);
        }
      case DoRelease(now, id) => ReleaseBalanced(l, now, id);
      case DoSpend(now, id, n) => SpendBalanced(l, now, id, n);
    }
  }

  /** In every run the active counts are the outstanding leases, per publication and per account, within both caps. */
  lemma {:induction false} RunBalanced(l: Limits, events: seq<Event>)
    requires Balanced(l)
    ensures Balanced(Run(l, events))
    decreases |events|
  {
    if events != [] {
      StepBalanced(l, events[0]);
      RunBalanced(Next(l, events[0]), events[1..]);
    }
  }

  /** A refused acquire takes no token and no connection: it only evicts. */
  lemma RefusalTakesNothing(l: Limits, now: real, account: string, publication: string)
    requires !Acquire(l, now, account, publication).1
    ensures Acquire(l, now, account, publication).0 == Sweep(l, now)
    ensures forall k :: k in Sweep(l, now).accounts.states ==>
            k in l.accounts.states && Sweep(l, now).accounts.states[k] == l.accounts.states[k]
    ensures forall k :: k in Sweep(l, now).publications.states ==>
            k in l.publications.states && Sweep(l, now).publications.states[k] == l.publications.states[k]
  {
  }

  // ---------------------------------------------------------------- buckets over time

  lemma DripGrows(rate: real, t: real, u: real)
    requires rate > 0.0 && t <= u
    ensures Drip(rate, t) <= Drip(rate, u)
  {
  }

  /** Refilling in two stages is refilling at once. */
  lemma LevelComposes(b: Bucket, rate: real, burst: nat, t: real, u: real)
    requires rate > 0.0 && b.last <= t <= u
    ensures Level(b, rate, burst, u) == Min(burst as real, Level(b, rate, burst, t) + (Drip(rate, u) - Drip(rate, t)))
    ensures Level(b, rate, burst, t) <= Level(b, rate, burst, u)
            <= Level(b, rate, burst, t) + (Drip(rate, u) - Drip(rate, t))
  {
    DripGrows(rate, t, u);
    DripGrows(rate, b.last, t);
  }

  // ---------------------------------------------------------------- opens in a window

  predicate Settled(x: Side, t: real) {
    forall k :: k in x.states ==> x.states[k].opens.last <= t && x.states[k].bytes.last <= t
  }

  /** Both sides are configured, and no bucket was touched after `t`. */
  predicate Timely(l: Limits, t: real) {
    l.publications.cfg.Valid() && l.accounts.cfg.Valid() && Settled(l.publications, t) && Settled(l.accounts, t)
  }

  lemma StepTimely(l: Limits, e: Event, t: real)
    requires Timely(l, t) && t <= e.now
    ensures Timely(Next(l, e), e.now) && Next(l, e).accounts.cfg == l.accounts.cfg
            && Next(l, e).publications.cfg == l.publications.cfg
  {
  }

  /** Open tokens of an account: those of its entry, or a full bucket when it has none. */
  function Tokens(x: Side, k: string, t: real): real {
    if k in x.states then Opens(x.cfg, x.states[k], t) else x.cfg.openBurst as real
  }

  /** Eviction never changes the tokens. */
  lemma SweepKeepsTokens(x: Side, k: string, now: real)
    ensures Tokens(Swept(x, now), k, now) == Tokens(x, k, now)
  {
  }

  /** What a bucket gains while the clock goes from `t` to `u`: nothing when it goes back. */
  function Gain(rate: real, t: real, u: real): real { if t < u then Drip(rate, u) - Drip(rate, t) else 0.0 }

  lemma LevelGains(b: Bucket, rate: real, burst: nat, t: real, u: real)
    requires rate > 0.0
    ensures Level(b, rate, burst, u) <= Level(b, rate, burst, t) + Gain(rate, t, u)
  {
    if t <= u { DripGrows(rate, t, u); } else { DripGrows(rate, u, t); }
    if b.last <= t { DripGrows(rate, b.last, t); } else { DripGrows(rate, t, b.last); }
  }

  lemma TokensRefill(x: Side, k: string, t: real, u: real)
    requires x.cfg.Valid()
    ensures Tokens(x, k, u) <= Tokens(x, k, t) + Gain(x.cfg.openRate, t, u)
    ensures Tokens(x, k, t) <= x.cfg.openBurst as real
  {
    if t < u { DripGrows(x.cfg.openRate, t, u); }
    if k in x.states { LevelGains(x.states[k].opens, x.cfg.openRate, x.cfg.openBurst, t, u); }
  }

  /** 1 when the event is a successful open of the account. */
  function OpensAccount(l: Limits, e: Event, a: string): nat {
    if e.DoAcquire? && e.account == a && Acquire(l, e.now, e.account, e.publication).1 then 1 else 0
  }

  function CountOpens(l: Limits, events: seq<Event>, a: string): nat
    decreases |events|
  {
    if events == [] then 0 else OpensAccount(l, events[0], a) + CountOpens(Next(l, events[0]), events[1..], a)
  }

  /** An open takes exactly one token and leaves the bucket nonnegative; nothing else takes any. */
  lemma StepTokens(l: Limits, e: Event, a: string)
    requires l.accounts.cfg.Valid()
    ensures Tokens(Next(l, e).accounts, a, e.now) == Tokens(l.accounts, a, e.now) - OpensAccount(l, e, a) as real
    ensures OpensAccount(l, e, a) == 1 ==> Tokens(Next(l, e).accounts, a, e.now) >= 0.0
  {
    if e.DoAcquire? { SweepKeepsTokens(l.accounts, a, e.now); }
  }

  function End(start: real, events: seq<Event>): real { if events == [] then start else events[|events| - 1].now }

  /** Tokens never go below zero. */
  ghost predicate Funded(x: Side, t: real) { forall k :: 0.0 <= Tokens(x, k, t) }

  lemma StepFunded(l: Limits, e: Event, t: real)
    requires Timely(l, t) && t <= e.now && Funded(l.accounts, t)
    ensures Funded(Next(l, e).accounts, e.now)
  {
    forall k ensures 0.0 <= Tokens(Next(l, e).accounts, k, e.now) {
      StepTokens(l, e, k);
      assert 0.0 <= Tokens(l.accounts, k, t);
      if k in l.accounts.states {
        LevelComposes(l.accounts.states[k].opens, l.accounts.cfg.openRate, l.accounts.cfg.openBurst, t, e.now);
      }
    }
  }

  lemma StepPays(l: Limits, e: Event, a: string, t: real)
    requires l.accounts.cfg.Valid()
    ensures Tokens(Next(l, e).accounts, a, e.now) + OpensAccount(l, e, a) as real
            <= Tokens(l.accounts, a, t) + Gain(l.accounts.cfg.openRate, t, e.now)
  {
    StepTokens(l, e, a);
    TokensRefill(l.accounts, a, t, e.now);
  }

  /** The refill of every forward step of the clock, in the order in which the calls take the lock. */
  function Refill(rate: real, t: real, events: seq<Event>): real
    decreases |events|
  {
    if events == [] then 0.0 else Gain(rate, t, events[0].now) + Refill(rate, events[0].now, events[1..])
  }

  lemma StepKeepsConfig(l: Limits, e: Event)
    ensures Next(l, e).accounts.cfg == l.accounts.cfg
  {
  }

  /** Whatever the clock does: tokens at the end are at most those at the start, plus the refill, minus the opens. */
  lemma {:induction false} TokensPayForOpens(l: Limits, events: seq<Event>, a: string, t: real)
    requires l.accounts.cfg.Valid()
    ensures Tokens(Run(l, events).accounts, a, End(t, events)) + CountOpens(l, events, a) as real
            <= Tokens(l.accounts, a, t) + Refill(l.accounts.cfg.openRate, t, events)
    decreases |events|
  {
    if events != [] {
      var e := events[0];
      assert End(t, events) == End(e.now, events[1..]);
      StepKeepsConfig(l, e);
      StepPays(l, e, a, t);
      TokensPayForOpens(Next(l, e), events[1..], a, e.now);
    }
  }

  /** No bucket is overdrawn. */
  predicate Solvent(x: Side) { forall k :: k in x.states ==> 0.0 <= x.states[k].opens.tokens }

  lemma StepSolvent(l: Limits, e: Event)
    requires l.accounts.cfg.Valid() && Solvent(l.accounts)
    ensures Solvent(Next(l, e).accounts)
  {
  }

  lemma {:induction false} RunSolvent(l: Limits, events: seq<Event>)
    requires l.accounts.cfg.Valid() && Solvent(l.accounts)
    ensures Solvent(Run(l, events).accounts) && Run(l, events).accounts.cfg == l.accounts.cfg
    decreases |events|
  {
    if events != [] {
      StepSolvent(l, events[0]);
      StepKeepsConfig(l, events[0]);
      RunSolvent(Next(l, events[0]), events[1..]);
    }
  }

  lemma SolventHasTokens(x: Side, k: string, t: real)
    requires x.cfg.Valid() && Solvent(x)
    ensures 0.0 <= Tokens(x, k, t)
  {
    if k in x.states && x.states[k].opens.last <= t { DripGrows(x.cfg.openRate, x.states[k].opens.last, t); }
  }

  /**
   The clock is read before the lock is taken, so it may go back from one call to the next.
   In every window of every run that starts without accounts, and for any clock, the opens
   of an account are at most its burst plus the refill of every forward step of the clock.
   */
  lemma OpensArePaidFor(l: Limits, before: seq<Event>, window: seq<Event>, a: string, t: real)
    requires l.accounts.cfg.Valid() && l.accounts.states == map[]
    ensures CountOpens(Run(l, before), window, a) as real
            <= l.accounts.cfg.openBurst as real + Refill(l.accounts.cfg.openRate, t, window)
  {
    RunSolvent(l, before);
    var r := Run(l, before);
    RunSolvent(r, window);
    TokensPayForOpens(r, window, a, t);
    SolventHasTokens(Run(r, window).accounts, a, End(t, window));
    TokensRefill(r.accounts, a, t, t);
  }

  /** Where the clock never goes back the refill is that of the whole window. */
  lemma {:induction false} OrderedRefill(rate: real, t: real, events: seq<Event>)
    requires rate > 0.0 && Ordered(t, events)
    ensures Refill(rate, t, events) == Drip(rate, End(t, events)) - Drip(rate, t)
    decreases |events|
  {
    if events != [] {
      assert End(t, events) == End(events[0].now, events[1..]);
      OrderedRefill(rate, events[0].now, events[1..]);
    }
  }

  lemma {:induction false} RunFunded(l: Limits, events: seq<Event>, t: real)
    requires Timely(l, t) && Ordered(t, events) && Funded(l.accounts, t)
    ensures Funded(Run(l, events).accounts, End(t, events))
    decreases |events|
  {
    if events != [] {
      StepTimely(l, events[0], t);
      StepFunded(l, events[0], t);
      assert End(t, events) == End(events[0].now, events[1..]);
      RunFunded(Next(l, events[0]), events[1..], events[0].now);
    }
  }

  /** Burst plus rate times the length of the window. */
  function Allowance(cfg: Config, dt: real): real { cfg.openBurst as real + cfg.openRate * dt }

  lemma OpensWithinDrip(l: Limits, events: seq<Event>, a: string, t: real)
    requires Timely(l, t) && Ordered(t, events) && Funded(l.accounts, t)
    ensures CountOpens(l, events, a) as real
            <= l.accounts.cfg.openBurst as real
               + (Drip(l.accounts.cfg.openRate, End(t, events)) - Drip(l.accounts.cfg.openRate, t))
  {
    TokensPayForOpens(l, events, a, t);
    OrderedRefill(l.accounts.cfg.openRate, t, events);
    RunFunded(l, events, t);
    TokensRefill(l.accounts, a, t, t);
    assert 0.0 <= Tokens(Run(l, events).accounts, a, End(t, events));
  }

  /**
   From any reachable state, and with a clock that never goes back, the successful opens of
   an account in any window are at most its burst plus its rate times the window, whatever
   is evicted meanwhile.
   */
  lemma OpensAreBounded(l: Limits, events: seq<Event>, a: string, t: real)
    requires Timely(l, t) && Ordered(t, events) && Funded(l.accounts, t)
    ensures CountOpens(l, events, a) as real <= Allowance(l.accounts.cfg, End(t, events) - t)
  {
    OpensWithinDrip(l, events, a, t);
    DripSplits(l.accounts.cfg.openRate, t, End(t, events));
  }

  lemma {:induction false} RunTimely(l: Limits, events: seq<Event>, t: real)
    requires Timely(l, t) && Ordered(t, events)
    ensures Timely(Run(l, events), End(t, events)) && Run(l, events).accounts.cfg == l.accounts.cfg
    decreases |events|
  {
    if events != [] {
      StepTimely(l, events[0], t);
      assert End(t, events) == End(events[0].now, events[1..]);
      RunTimely(Next(l, events[0]), events[1..], events[0].now);
    }
  }

  lemma ReachedIsFunded(l: Limits, before: seq<Event>, t: real)
    requires Timely(l, t) && Ordered(t, before) && l.accounts.states == map[]
    ensures var r, u := Run(l, before), End(t, before);
            Timely(r, u) && Funded(r.accounts, u) && r.accounts.cfg == l.accounts.cfg
  {
    assert Funded(l.accounts, t);
    RunTimely(l, before, t);
    RunFunded(l, before, t);
  }

  /** The bound holds in every window of every run that starts without accounts. */
  lemma OpensAreBoundedInEveryWindow(l: Limits, before: seq<Event>, window: seq<Event>, a: string, t: real, r: Limits,
      u: real)
    requires Timely(l, t) && l.accounts.states == map[] && Ordered(t, before) && r == Run(l, before)
             && u == End(t, before) && Ordered(u, window)
    ensures CountOpens(r, window, a) as real <= Allowance(l.accounts.cfg, End(u, window) - u)
  {
    assert Timely(r, u) && Funded(r.accounts, u) && r.accounts.cfg == l.accounts.cfg by {
      ReachedIsFunded(l, before, t);
    }
    OpensAreBounded(r, window, a, u);
  }

  lemma DripSplits(rate: real, t: real, u: real)
    ensures Drip(rate, u) - Drip(rate, t) == rate * (u - t)
  {
  }

  // ---------------------------------------------------------------- a clock that goes back

  const TWO := Config(3, 1.0, 2, 1.0, PACING_CHUNK)

  /** Three calls of one account: the second one read the clock before the first and took the lock after it. */
  const BACK_AND_FORTH := [DoAcquire(1.0, "a", "p"), DoAcquire(0.0, "a", "p"), DoAcquire(1.0, "a", "p")]

  /** The table of one account and one publication with `n` connections and the given bucket of opens. */
  predicate Holds(l: Limits, n: nat, b: Bucket) {
    && l.publications.cfg == TWO && l.accounts.cfg == TWO
    && l.publications.states.Keys == {Key("a", "p")} && l.accounts.states.Keys == {"a"}
    && l.publications.states[Key("a", "p")].active == n && l.publications.states[Key("a", "p")].opens == b
    && l.accounts.states["a"].active == n && l.accounts.states["a"].opens == b
  }

  lemma FirstOpen()
    ensures var (l, ok) := Acquire(Empty(TWO, TWO), 1.0, "a", "p"); ok && Holds(l, 1, Bucket(1.0, 1.0))
  {
    var e := Empty(TWO, TWO);
    assert Sweep(e, 1.0) == e;
  }

  lemma OpenAgain(l: Limits, n: nat, b: Bucket, now: real)
    requires Holds(l, n, b) && 0 < n < 3 && Level(b, 1.0, 2, now) >= 1.0
    ensures var (r, ok) := Acquire(l, now, "a", "p"); ok && Holds(r, n + 1, Taken(b, 1.0, 2, now, 1))
  {
    assert Swept(l.publications, now) == l.publications && Swept(l.accounts, now) == l.accounts;
    assert |l.publications.states| == |{Key("a", "p")}| && |l.accounts.states| == |{"a"}|;
  }

  /**
   The bound by the length of the window needs a clock that never goes back: these three opens
   come in no time at all, from a burst of two.
   */
  lemma ClockBackPaysTwice()
    ensures var l := Empty(TWO, TWO);
            && CountOpens(l, BACK_AND_FORTH, "a") == 3
            && Allowance(TWO, End(1.0, BACK_AND_FORTH) - 1.0) == 2.0
            && Refill(TWO.openRate, 1.0, BACK_AND_FORTH) == 1.0
  {
    var l0, e := Empty(TWO, TWO), BACK_AND_FORTH;
    var l1, l2 := Next(l0, e[0]), Next(Next(l0, e[0]), e[1]);
    FirstOpen();
    OpenAgain(l1, 1, Bucket(1.0, 1.0), 0.0);
    OpenAgain(l2, 2, Bucket(0.0, 0.0), 1.0);
    assert e[1..][1..] == e[2..] && e[2..][1..] == [];
    assert CountOpens(l0, e, "a") == 1 + CountOpens(l1, e[1..], "a");
    assert CountOpens(l1, e[1..], "a") == 1 + CountOpens(l2, e[2..], "a");
    assert Refill(1.0, 1.0, e) == 0.0 + Refill(1.0, 1.0, e[1..]);
    assert Refill(1.0, 1.0, e[1..]) == 0.0 + Refill(1.0, 0.0, e[2..]);
  }
}
