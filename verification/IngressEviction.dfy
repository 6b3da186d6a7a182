/** Idle eviction is invisible: a table that evicts decides like one that keeps every entry for ever. */
module IngressEviction {
  import opened Ingress
  import opened IngressTheorems

  // ---------------------------------------------------------------- the table that never evicts

  function KeepAcquire(l: Limits, now: real, account: string, publication: string): (Limits, bool) {
    var k := Key(account, publication);
    if Admits(l, now, k, account) then (Granted(l, now, k, account), true) else (l, false)
  }

  function KeepNext(l: Limits, e: Event): Limits {
    match e
    case DoAcquire(now, account, publication) => KeepAcquire(l, now, account, publication).0
    case DoRelease(now, id) => Release(l, now, id)
    case DoSpend(now, id, n) => Spend(l, now, id, n)
  }

  /** The answers to the acquires of a run. */
  function Decisions(l: Limits, events: seq<Event>): seq<bool>
    decreases |events|
  {
    if events == [] then []
    else (if events[0].DoAcquire? then [Acquire(l, events[0].now, events[0].account, events[0].publication).1]
        else []) + Decisions(Next(l, events[0]), events[1..])
  }

  function KeepDecisions(l: Limits, events: seq<Event>): seq<bool>
    decreases |events|
  {
    if events == [] then []
    else (if events[0].DoAcquire? then [KeepAcquire(l, events[0].now, events[0].account, events[0].publication).1]
        else []) + KeepDecisions(KeepNext(l, events[0]), events[1..])
  }

  /** No acquire of the run meets a full table. */
  predicate NeverFull(l: Limits, events: seq<Event>)
    decreases |events|
  {
    events != [] ==>
      && (events[0].DoAcquire? ==> !Full(Sweep(l, events[0].now), Key(events[0].account, events[0].publication),
         events[0].account))
      && NeverFull(Next(l, events[0]), events[1..])
  }

  // ---------------------------------------------------------------- the simulation

  predicate Alike(cfg: Config, s: State, r: State, t: real) {
    s.active == r.active && Opens(cfg, s, t) == Opens(cfg, r, t) && Bytes(cfg, s, t) == Bytes(cfg, r, t)
  }

  /** As good as new. */
  predicate Quiet(cfg: Config, s: State, t: real) { Alike(cfg, s, New(cfg, t), t) }

  /** The kept entry `k` matches the evicting table's entry, or is as good as new where that has none. */
  predicate Mirrors(x: Side, y: Side, k: string, t: real) {
    && (k in x.states ==> k in y.states && Alike(x.cfg, x.states[k], y.states[k], t))
    && (k !in x.states && k in y.states ==> Quiet(x.cfg, y.states[k], t))
  }

  ghost predicate Shadows(x: Side, y: Side, t: real) {
    x.cfg == y.cfg && x.cfg.Valid() && forall k :: Mirrors(x, y, k, t)
  }

  ghost predicate Simulates(l: Limits, r: Limits, t: real) {
    && Balanced(l) && Timely(l, t) && Timely(r, t) && l.leases == r.leases && l.next == r.next
    && Shadows(l.publications, r.publications, t) && Shadows(l.accounts, r.accounts, t)
  }

  lemma AlikeLater(cfg: Config, s: State, r: State, t: real, u: real)
    requires cfg.Valid() && Alike(cfg, s, r, t) && s.opens.last <= t && s.bytes.last <= t && r.opens.last <= t
             && r.bytes.last <= t <= u
    ensures Alike(cfg, s, r, u)
  {
    LevelComposes(s.opens, cfg.openRate, cfg.openBurst, t, u);
    LevelComposes(r.opens, cfg.openRate, cfg.openBurst, t, u);
    LevelComposes(s.bytes, cfg.byteRate, cfg.byteBurst, t, u);
    LevelComposes(r.bytes, cfg.byteRate, cfg.byteBurst, t, u);
  }

  lemma NewStaysNew(cfg: Config, t: real, u: real)
    requires cfg.Valid() && t <= u
    ensures Alike(cfg, New(cfg, t), New(cfg, u), u)
  {
    DripGrows(cfg.openRate, t, u);
    DripGrows(cfg.byteRate, t, u);
  }

  lemma ShadowsLater(x: Side, y: Side, t: real, u: real)
    requires Shadows(x, y, t) && IngressTheorems.Settled(x, t) && IngressTheorems.Settled(y, t) && t <= u
    ensures Shadows(x, y, u)
  {
    forall k ensures Mirrors(x, y, k, u) {
      assert Mirrors(x, y, k, t);
      if k in x.states {
        AlikeLater(x.cfg, x.states[k], y.states[k], t, u);
      } else if k in y.states {
        AlikeLater(x.cfg, y.states[k], New(x.cfg, t), t, u);
        NewStaysNew(x.cfg, t, u);
      }
    }
  }

  /** Evicting an idle entry leaves a kept entry that is as good as new. */
  lemma SweptShadows(x: Side, y: Side, now: real)
    requires Shadows(x, y, now)
    ensures Shadows(Swept(x, now), y, now)
  {
    forall k ensures Mirrors(Swept(x, now), y, k, now) { assert Mirrors(x, y, k, now); }
  }

  lemma StatesAlike(x: Side, y: Side, k: string, now: real)
    requires Shadows(x, y, now)
    ensures Alike(x.cfg, StateOf(x, k, now), StateOf(y, k, now), now)
  {
    assert Mirrors(x, y, k, now);
  }

  lemma OpenedShadows(x: Side, y: Side, k: string, now: real)
    requires Shadows(x, y, now)
    ensures Shadows(Put(x, k, Opened(x.cfg, StateOf(x, k, now), now)),
            Put(y, k, Opened(y.cfg, StateOf(y, k, now), now)), now)
  {
    StatesAlike(x, y, k, now);
    var x', y' := Put(x, k, Opened(x.cfg, StateOf(x, k, now), now)), Put(y, k, Opened(y.cfg, StateOf(y, k, now), now));
    forall j ensures Mirrors(x', y', j, now) { assert Mirrors(x, y, j, now); }
  }

  lemma ReleasedShadows(x: Side, y: Side, k: string, now: real)
    requires Shadows(x, y, now) && k in x.states && x.states[k].active > 0
    ensures k in y.states && y.states[k].active > 0 && Shadows(Released(x, k, now), Released(y, k, now), now)
  {
    assert Mirrors(x, y, k, now);
    forall j ensures Mirrors(Released(x, k, now), Released(y, k, now), j, now) { assert Mirrors(x, y, j, now); }
  }

  lemma SpentShadows(x: Side, y: Side, k: string, now: real, n: nat)
    requires Shadows(x, y, now) && k in x.states
    ensures k in y.states && Shadows(Spent(x, k, now, n), Spent(y, k, now, n), now)
  {
    assert Mirrors(x, y, k, now);
    forall j ensures Mirrors(Spent(x, k, now, n), Spent(y, k, now, n), j, now) { assert Mirrors(x, y, j, now); }
  }

  lemma KeepTimely(r: Limits, e: Event, t: real)
    requires Timely(r, t) && t <= e.now
    ensures Timely(KeepNext(r, e), e.now)
  {
    if !e.DoAcquire? { StepTimely(r, e, t); }
  }

  lemma AcquireAgrees(l: Limits, r: Limits, e: Event)
    requires e.DoAcquire? && Shadows(l.publications, r.publications, e.now) && Shadows(l.accounts, r.accounts, e.now)
    requires !Full(Sweep(l, e.now), Key(e.account, e.publication), e.account)
    ensures Acquire(l, e.now, e.account, e.publication).1 == KeepAcquire(r, e.now, e.account, e.publication).1
    ensures Shadows(Next(l, e).publications, KeepNext(r, e).publications, e.now)
            && Shadows(Next(l, e).accounts, KeepNext(r, e).accounts, e.now)
  {
    var s, k := Sweep(l, e.now), Key(e.account, e.publication);
    SweptShadows(l.publications, r.publications, e.now);
    SweptShadows(l.accounts, r.accounts, e.now);
    StatesAlike(s.publications, r.publications, k, e.now);
    StatesAlike(s.accounts, r.accounts, e.account, e.now);
    OpenedShadows(s.publications, r.publications, k, e.now);
    OpenedShadows(s.accounts, r.accounts, e.account, e.now);
  }

  lemma OtherAgrees(l: Limits, r: Limits, e: Event)
    requires !e.DoAcquire? && Balanced(l) && l.leases == r.leases
    requires Shadows(l.publications, r.publications, e.now) && Shadows(l.accounts, r.accounts, e.now)
    ensures Shadows(Next(l, e).publications, KeepNext(r, e).publications, e.now)
            && Shadows(Next(l, e).accounts, KeepNext(r, e).accounts, e.now)
    ensures Next(l, e).leases == KeepNext(r, e).leases && Next(l, e).next == l.next && KeepNext(r, e).next == r.next
  {
    if e.id in l.leases {
      var lease := l.leases[e.id];
      LeaseIsLive(l, e.id);
      ReleasedShadows(l.publications, r.publications, lease.publication, e.now);
      ReleasedShadows(l.accounts, r.accounts, lease.account, e.now);
      if e.DoSpend? {
        SpentShadows(l.publications, r.publications, lease.publication, e.now, e.n);
        SpentShadows(l.accounts, r.accounts, lease.account, e.now, e.n);
      }
    }
  }

  lemma StepSimulates(l: Limits, r: Limits, e: Event, t: real)
    requires Simulates(l, r, t) && t <= e.now
    requires e.DoAcquire? ==> !Full(Sweep(l, e.now), Key(e.account, e.publication), e.account)
    ensures Simulates(Next(l, e), KeepNext(r, e), e.now)
    ensures e.DoAcquire? ==>
            Acquire(l, e.now, e.account, e.publication).1 == KeepAcquire(r, e.now, e.account, e.publication).1
  {
    StepBalanced(l, e);
    StepTimely(l, e, t);
    KeepTimely(r, e, t);
    ShadowsLater(l.publications, r.publications, t, e.now);
    ShadowsLater(l.accounts, r.accounts, t, e.now);
    if e.DoAcquire? { AcquireAgrees(l, r, e); } else { OtherAgrees(l, r, e); }
  }

  /** As long as no acquire meets a full table, evicting changes no decision of the run. */
  lemma {:induction false} EvictionIsInvisible(l: Limits, r: Limits, events: seq<Event>, t: real)
    requires Simulates(l, r, t) && Ordered(t, events) && NeverFull(l, events)
    ensures Decisions(l, events) == KeepDecisions(r, events)
    decreases |events|
  {
    if events != [] {
      StepSimulates(l, r, events[0], t);
      EvictionIsInvisible(Next(l, events[0]), KeepNext(r, events[0]), events[1..], events[0].now);
    }
  }

  /** From the empty table. */
  lemma EvictionIsInvisibleFromEmpty(publications: Config, accounts: Config, events: seq<Event>, t: real)
    requires publications.Valid() && accounts.Valid() && Ordered(t, events)
             && NeverFull(Empty(publications, accounts), events)
    ensures Decisions(Empty(publications, accounts), events) == KeepDecisions(Empty(publications, accounts), events)
  {
    var l := Empty(publications, accounts);
    EmptyBalanced(publications, accounts);
    assert Shadows(l.publications, l.publications, t) by {
        forall k ensures Mirrors(l.publications, l.publications, k, t) {} }
    assert Shadows(l.accounts, l.accounts, t) by { forall k ensures Mirrors(l.accounts, l.accounts, k, t) {} }
    EvictionIsInvisible(l, l, events, t);
  }

  lemma EmptyBalanced(publications: Config, accounts: Config)
    ensures Balanced(Empty(publications, accounts))
  {
    var l := Empty(publications, accounts);
    forall k ensures Counted(l.publications, k, |Publishers(l.leases, k)|)
        && Counted(l.accounts, k, |Holders(l.leases, k)|) {}
  }
}
