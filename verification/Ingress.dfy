/** Ingress limits: connection caps and token buckets per publication and per account. Time and tokens are reals. */
module Ingress {
  import Strings

  const MAX_ENTRIES := 4096
  const PACING_CHUNK := 32768
  const IDLE: real := 60.0

  datatype Config = Config(connections: nat, openRate: real, openBurst: nat, byteRate: real, byteBurst: nat) {
    predicate Valid() {
      connections > 0 && openRate > 0.0 && openBurst > 0 && byteRate > 0.0 && byteBurst >= PACING_CHUNK
    }
  }

  // ---------------------------------------------------------------- token bucket

  datatype Bucket = Bucket(tokens: real, last: real)

  /** Tokens a rate yields up to a time. */
  function Drip(rate: real, t: real): real { rate * t }

  function Min(a: real, b: real): real { if a < b then a else b }

  /** Tokens at a time: what was left, refilled at the rate, up to the burst. */
  function Level(b: Bucket, rate: real, burst: nat, now: real): real {
    Min(burst as real, b.tokens + if now < b.last then 0.0 else Drip(rate, now) - Drip(rate, b.last))
  }

  function Taken(b: Bucket, rate: real, burst: nat, now: real, n: nat): Bucket {
    Bucket(Level(b, rate, burst, now) - n as real, now)
  }

  // ---------------------------------------------------------------- one side: publications or accounts

  datatype State = State(active: nat, opens: Bucket, bytes: Bucket, lastUsed: real)

  datatype Side = Side(cfg: Config, states: map<string, State>)

  function Opens(cfg: Config, s: State, now: real): real { Level(s.opens, cfg.openRate, cfg.openBurst, now) }
  function Bytes(cfg: Config, s: State, now: real): real { Level(s.bytes, cfg.byteRate, cfg.byteBurst, now) }

  function New(cfg: Config, now: real): State {
    State(0, Bucket(cfg.openBurst as real, now), Bucket(cfg.byteBurst as real, now), now)
  }

  predicate IsIdle(cfg: Config, s: State, now: real) {
    s.active == 0 && now - s.lastUsed >= IDLE && Opens(cfg, s, now) >= cfg.openBurst as real
        && Bytes(cfg, s, now) >= cfg.byteBurst as real
  }

  function Swept(x: Side, now: real): Side {
    x.(states := map k | k in x.states && !IsIdle(x.cfg, x.states[k], now) :: x.states[k])
  }

  function StateOf(x: Side, k: string, now: real): State { if k in x.states then x.states[k] else New(x.cfg, now) }

  predicate Room(cfg: Config, s: State, now: real) { s.active < cfg.connections && Opens(cfg, s, now) >= 1.0 }

  function Opened(cfg: Config, s: State, now: real): State {
    s.(active := s.active + 1, opens := Taken(s.opens, cfg.openRate, cfg.openBurst, now, 1), lastUsed := now)
  }

  function Put(x: Side, k: string, s: State): Side { x.(states := x.states[k := s]) }

  function Released(x: Side, k: string, now: real): Side
    requires k in x.states && x.states[k].active > 0
  {
    Put(x, k, x.states[k].(active := x.states[k].active - 1, lastUsed := now))
  }

  function Spent(x: Side, k: string, now: real, n: nat): Side
    requires k in x.states
  {
    Put(x, k, x.states[k].(bytes := Taken(x.states[k].bytes, x.cfg.byteRate, x.cfg.byteBurst, now, n)))
  }

  // ---------------------------------------------------------------- the table

  datatype Lease = Lease(publication: string, account: string)

  datatype Limits = Limits(publications: Side, accounts: Side, leases: map<nat, Lease>, next: nat)

  function Key(account: string, publication: string): string { Strings.Join([account, publication]) }

  /** Publications of different accounts never share an entry. */
  lemma KeyInjective(a: string, p: string, b: string, q: string)
    requires Strings.NUL !in a && Strings.NUL !in b && Key(a, p) == Key(b, q)
    ensures a == b && p == q
  {
    assert Strings.Join([a, p]) == a + [Strings.NUL] + p && Strings.Join([b, q]) == b + [Strings.NUL] + q by {
      assert [a, p][1..] == [p] && [b, q][1..] == [q];
    }
    Strings.HeadUnique(a, b, p, q);
  }

  function Sweep(l: Limits, now: real): Limits {
    l.(publications := Swept(l.publications, now), accounts := Swept(l.accounts, now))
  }

  function Missing(x: Side, k: string): nat { if k in x.states then 0 else 1 }

  predicate Full(l: Limits, k: string, account: string) {
    |l.publications.states| + |l.accounts.states| + Missing(l.publications, k) + Missing(l.accounts, account)
    > MAX_ENTRIES
  }

  predicate Admits(l: Limits, now: real, k: string, account: string) {
    Room(l.publications.cfg, StateOf(l.publications, k, now), now)
        && Room(l.accounts.cfg, StateOf(l.accounts, account, now), now)
  }

  /** Both sides take one connection and one token. */
  function Granted(l: Limits, now: real, k: string, account: string): Limits {
    l.(publications := Put(l.publications, k, Opened(l.publications.cfg, StateOf(l.publications, k, now), now)),
       accounts := Put(l.accounts, account, Opened(l.accounts.cfg, StateOf(l.accounts, account, now), now)),
       leases := l.leases[l.next := Lease(k, account)], next := l.next + 1)
  }

  function Acquire(l: Limits, now: real, account: string, publication: string): (Limits, bool) {
    var s, k := Sweep(l, now), Key(account, publication);
    if Full(s, k, account) || !Admits(s, now, k, account) then (s, false) else (Granted(s, now, k, account), true)
  }

  /** The lease is outstanding and its entries are in the table. */
  predicate Live(l: Limits, id: nat) {
    && id in l.leases && l.leases[id].publication in l.publications.states && l.leases[id].account in l.accounts.states
    && l.publications.states[l.leases[id].publication].active > 0 && l.accounts.states[l.leases[id].account].active > 0
  }

  /** A second release of a lease does nothing. */
  function Release(l: Limits, now: real, id: nat): Limits {
    if !Live(l, id) then l
    else l.(publications := Released(l.publications, l.leases[id].publication, now),
        accounts := Released(l.accounts, l.leases[id].account, now),
            leases := l.leases - {id})
  }

  /** A chunk of `n` bytes is paced on both sides. */
  function Spend(l: Limits, now: real, id: nat, n: nat): Limits {
    if !Live(l, id) then l
    else l.(publications := Spent(l.publications, l.leases[id].publication, now, n),
        accounts := Spent(l.accounts, l.leases[id].account, now, n))
  }

  datatype Event = DoAcquire(now: real, account: string, publication: string)
                 | DoRelease(now: real, id: nat) | DoSpend(now: real, id: nat, n: nat)

  function Next(l: Limits, e: Event): Limits {
    match e
    case DoAcquire(now, account, publication) => Acquire(l, now, account, publication).0
    case DoRelease(now, id) => Release(l, now, id)
    case DoSpend(now, id, n) => Spend(l, now, id, n)
  }

  function Run(l: Limits, events: seq<Event>): Limits
    decreases |events|
  {
    if events == [] then l else Run(Next(l, events[0]), events[1..])
  }

  /** Event times never go back. */
  predicate Ordered(start: real, events: seq<Event>)
    decreases |events|
  {
    events != [] ==> start <= events[0].now && Ordered(events[0].now, events[1..])
  }

  function Empty(publications: Config, accounts: Config): Limits {
    Limits(Side(publications, map[]), Side(accounts, map[]), map[], 0)
  }
}
