/** The ingress limit table as an object; each lease is named by a number instead of a reference. */
module IngressObjects {
  import SessionTypes
  import opened Ingress
  import opened IngressTheorems

  /** The entries still to be looked at, and those kept so far. */
  lemma SweptStep(x: Side, now: real, left: set<string>, k: string, kept: map<string, State>)
    requires k in left && left <= x.states.Keys && kept == Part(x, now, left)
    ensures Part(x, now, left - {k}) == if IsIdle(x.cfg, x.states[k], now) then kept - {k} else kept
  {
  }

  /** The states after the entries outside `left` have been swept. */
  function Part(x: Side, now: real, left: set<string>): map<string, State> {
    map k | k in x.states && (k in left || !IsIdle(x.cfg, x.states[k], now)) :: x.states[k]
  }

  class IngressLimits {
    const publication: Config
    const account: Config
    var publications: map<string, State>
    var accounts: map<string, State>
    var leases: map<nat, Lease>
    var next: nat

    ghost function View(): Limits
      reads this
    {
      Limits(Side(publication, publications), Side(account, accounts), leases, next)
    }

    constructor (publication: Config, account: Config)
      ensures View() == Empty(publication, account)
    {
      this.publication, this.account := publication, account;
      publications, accounts, leases, next := map[], map[], map[], 0;
    }

    /** Delete the idle entries of one side, in any order. */
    method ExpireSide(cfg: Config, states: map<string, State>, now: real) returns (kept: map<string, State>)
      ensures kept == Swept(Side(cfg, states), now).states
    {
      ghost var x := Side(cfg, states);
      kept := states;
      var left := states.Keys;
      assert kept == Part(x, now, left);
      while left != {}
        invariant left <= states.Keys && kept == Part(x, now, left)
        decreases left
      {
        var k :| k in left;
        SweptStep(x, now, left, k, kept);
        if IsIdle(cfg, states[k], now) { kept := kept - {k}; }
        left := left - {k};
      }
      assert Part(x, now, {}) == Swept(x, now).states;
    }

    method ExpireIdle(now: real)
      modifies `publications, `accounts
      ensures View() == Sweep(old(View()), now)
    {
      publications := ExpireSide(publication, publications, now);
      accounts := ExpireSide(account, accounts, now);
    }

    method Acquire(now: real, accountID: string, publicationID: string) returns (lease: SessionTypes.Option<nat>)
      modifies this
      ensures (View(), lease.Some?) == Ingress.Acquire(old(View()), now, accountID, publicationID)
      ensures lease.Some? ==> lease.value == old(next)
    {
      var key := Key(accountID, publicationID);
      ExpireIdle(now);
      var missing := 0;
      if key !in publications { missing := missing + 1; }
      if accountID !in accounts { missing := missing + 1; }
      if |publications| + |accounts| + missing > MAX_ENTRIES { return SessionTypes.None; }
      lease := Open(now, key, accountID);
    }

    method Open(now: real, key: string, accountID: string) returns (lease: SessionTypes.Option<nat>)
      modifies this
      ensures lease.Some? == Admits(old(View()), now, key, accountID)
      ensures View() == if lease.Some? then Granted(old(View()), now, key, accountID) else old(View())
      ensures lease.Some? ==> lease.value == old(next)
    {
      var p := if key in publications then publications[key] else New(publication, now);
      var a := if accountID in accounts then accounts[accountID] else New(account, now);
      if p.active >= publication.connections || a.active >= account.connections { return SessionTypes.None; }
      if Opens(publication, p, now) < 1.0 || Opens(account, a, now) < 1.0 { return SessionTypes.None; }
      publications := publications[key := Opened(publication, p, now)];
      accounts := accounts[accountID := Opened(account, a, now)];
      leases := leases[next := Lease(key, accountID)];
      next := next + 1;
      return SessionTypes.Some(next - 1);
    }

    method Release(now: real, id: nat)
      requires Balanced(View())
      modifies this
      ensures View() == Ingress.Release(old(View()), now, id) && Balanced(View())
    {
      ReleaseBalanced(View(), now, id);
      if id !in leases { return; }
      LeaseIsLive(View(), id);
      var l := leases[id];
      publications := publications[l.publication :=
          publications[l.publication].(active := publications[l.publication].active - 1, lastUsed := now)];
      accounts := accounts[l.account := accounts[l.account].(active := accounts[l.account].active - 1,
          lastUsed := now)];
      leases := leases - {id};
    }

    /** Pace `n` bytes of a lease on both sides. */
    method Charge(now: real, id: nat, n: nat)
      requires Balanced(View())
      modifies `publications, `accounts
      ensures View() == Ingress.Spend(old(View()), now, id, n) && Balanced(View())
    {
      SpendBalanced(View(), now, id, n);
      if id !in leases { return; }
      LeaseIsLive(View(), id);
      var l := leases[id];
      var p, a := publications[l.publication], accounts[l.account];
      publications := publications[l.publication :=
          p.(bytes := Taken(p.bytes, publication.byteRate, publication.byteBurst, now, n))];
      accounts := accounts[l.account := a.(bytes := Taken(a.bytes, account.byteRate, account.byteBurst, now, n))];
    }
  }
}
