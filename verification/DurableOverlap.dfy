/**
 Replacements of the durable list that overlap. The code reads the current generations
 under one lock and installs the new list under another; here these are two steps of a
 call, and other calls may come between them.
 */
module DurableOverlaps {
  import CarrierIdentities
  import opened DurableAdmissions

  /** A replacement between its two locks: the offered list and the table it read. */
  datatype Pending = Pending(xs: seq<Offered>, seen: map<string, Entry>)

  datatype Shared = Shared(r: Registry, pending: map<nat, Pending>)

  datatype Event = Read(id: nat, xs: seq<Offered>) | Install(id: nat) | Stop

  /** The list passed its checks against the table that was read. */
  predicate Passes(w: Shared, id: nat) {
    && id in w.pending && Screen(w.pending[id].seen, w.pending[id].xs) == Accepted
    && |Built(w.pending[id].xs)| <= w.r.maximum && !w.r.closed
  }

  function Next(w: Shared, e: Event): Shared {
    match e
    case Read(id, xs) => if id in w.pending || |xs| > w.r.maximum then w
        else w.(pending := w.pending[id := Pending(xs, w.r.byID)])
    case Install(id) =>
      Shared(if Passes(w, id) then w.r.(byID := Built(w.pending[id].xs)) else w.r, w.pending - {id})
    case Stop => w.(r := Shut(w.r))
  }

  function Run(w: Shared, events: seq<Event>): Shared
    decreases |events|
  {
    if events == [] then w else Run(Next(w, events[0]), events[1..])
  }

  // ---------------------------------------------------------------- without overlap

  /** The table is the one the call read: nothing was installed in between, or it changed nothing. */
  predicate Undisturbed(w: Shared, id: nat) {
    id in w.pending && |w.pending[id].xs| <= w.r.maximum && w.pending[id].seen == w.r.byID
  }

  /** Then the two steps are the one step of a replacement. */
  lemma UndisturbedIsReplace(w: Shared, id: nat)
    requires Undisturbed(w, id)
    ensures Next(w, Install(id)).r == Replace(w.r, w.pending[id].xs).0
  {
  }

  predicate NeverDisturbed(w: Shared, events: seq<Event>)
    decreases |events|
  {
    events != [] ==>
      && (events[0].Install? && events[0].id in w.pending ==> Undisturbed(w, events[0].id))
      && NeverDisturbed(Next(w, events[0]), events[1..])
  }

  /** The replacements of the run, in the order of their installs. */
  function Installs(w: Shared, events: seq<Event>): seq<Call>
    decreases |events|
  {
    if events == [] then []
    else (if events[0].Stop? then [DoClose]
          else if events[0].Install? && events[0].id in w.pending then [DoReplace(w.pending[events[0].id].xs)]
          else []) + Installs(Next(w, events[0]), events[1..])
  }

  lemma RunOne(r: Registry, c: Call, cs: seq<Call>)
    ensures DurableAdmissions.Run(r, [c] + cs) == DurableAdmissions.Run(DurableAdmissions.Next(r, c), cs)
  {
    assert ([c] + cs)[1..] == cs;
  }

  /** An interleaving in which no call is disturbed is a sequence of atomic replacements. */
  lemma {:induction false} UndisturbedIsSequential(w: Shared, events: seq<Event>)
    requires NeverDisturbed(w, events)
    ensures Run(w, events).r == DurableAdmissions.Run(w.r, Installs(w, events))
    decreases |events|
  {
    if events != [] {
      var e, rest := events[0], Installs(Next(w, events[0]), events[1..]);
      UndisturbedIsSequential(Next(w, e), events[1..]);
      if e.Stop? {
        RunOne(w.r, DoClose, rest);
      } else if e.Install? && e.id in w.pending {
        UndisturbedIsReplace(w, e.id);
        RunOne(w.r, DoReplace(w.pending[e.id].xs), rest);
      } else {
        assert Installs(w, events) == rest;
      }
    }
  }

  // ---------------------------------------------------------------- with overlap

  predicate In(m: map<string, Entry>, k: string, t: string) { k in m && t in m[k].byRoute }

  predicate LowerAt(m: map<string, Entry>, n: map<string, Entry>, k: string, t: string, j: string, u: string) {
    && In(m, k, t) && In(n, j, u) && RouteKey(m[k].byRoute[t]) == RouteKey(n[j].byRoute[u])
    && n[j].byRoute[u].generation < m[k].byRoute[t].generation
  }

  /** Some route stands lower in `n` than in `m`. */
  ghost predicate Lowered(m: map<string, Entry>, n: map<string, Entry>) {
    exists k, t, j, u :: LowerAt(m, n, k, t, j, u)
  }

  function CarrierKey(d: Durable): string { CarrierIdentities.Key(d.identity) }

  lemma {:induction false} BuiltHolds(seen: map<string, Entry>, xs: seq<Offered>, i: nat)
    requires Screen(seen, xs) == Accepted && i < |xs|
    ensures var d := xs[i].d; In(Built(xs), CarrierKey(d), d.route) && Built(xs)[CarrierKey(d)].byRoute[d.route] == d
    decreases |xs|
  {
    var n := |xs| - 1;
    if i < n {
      BuiltHolds(seen, xs[..n], i);
      assert xs[..n][i] == xs[i];
      assert Agrees(Built(xs[..n]), xs[n].d);
    }
  }

  lemma LowerIsLowered(m: map<string, Entry>, seen: map<string, Entry>, xs: seq<Offered>, i: nat)
    requires Screen(seen, xs) == Accepted && i < |xs| && !NotLower(m, xs[i].d)
    ensures Lowered(m, Built(xs))
  {
    var d := xs[i].d;
    BuiltHolds(seen, xs, i);
    var k :| k in m && !(forall t :: t in m[k].byRoute ==> RouteKey(m[k].byRoute[t]) == RouteKey(d) ==>
        m[k].byRoute[t].generation <= d.generation);
    var t :| t in m[k].byRoute && RouteKey(m[k].byRoute[t]) == RouteKey(d) && m[k].byRoute[t].generation > d.generation;
    assert LowerAt(m, Built(xs), k, t, CarrierKey(d), d.route);
  }

  lemma LowerAtIsLower(m: map<string, Entry>, n: map<string, Entry>, k: string, t: string, j: string, u: string)
    requires LowerAt(m, n, k, t, j, u)
    ensures !NotLower(m, n[j].byRoute[u])
  {
  }

  predicate AnyLower(m: map<string, Entry>, xs: seq<Offered>) { exists i :: 0 <= i < |xs| && !NotLower(m, xs[i].d) }

  lemma ListedLower(m: map<string, Entry>, n: map<string, Entry>, xs: seq<Offered>, k: string, t: string, j: string,
      u: string)
    requires LowerAt(m, n, k, t, j, u) && exists i :: 0 <= i < |xs| && xs[i].d == n[j].byRoute[u]
    ensures AnyLower(m, xs)
  {
    LowerAtIsLower(m, n, k, t, j, u);
  }

  lemma LoweredIsLower(m: map<string, Entry>, xs: seq<Offered>, n: map<string, Entry>)
    requires n == Built(xs) && Lowered(m, n)
    ensures AnyLower(m, xs)
  {
    var k, t, j, u :| LowerAt(m, n, k, t, j, u);
    assert exists i :: 0 <= i < |xs| && xs[i].d == n[j].byRoute[u] by { BuiltFrom(xs, j, u); }
    ListedLower(m, n, xs, k, t, j, u);
  }

  /** Some offered admission is below what the table holds for its route now. */
  predicate Behind(w: Shared, id: nat) {
    id in w.pending && AnyLower(w.r.byID, w.pending[id].xs)
  }

  /**
   An install that passes lowers the generation of some route if and only if its list is
   behind what the table holds now, and that needs another install since its own read.
   */
  lemma LowersExactly(w: Shared, id: nat)
    requires Passes(w, id)
    ensures Lowered(w.r.byID, Next(w, Install(id)).r.byID) <==> Behind(w, id)
    ensures Behind(w, id) ==> w.pending[id].seen != w.r.byID
  {
    var p := w.pending[id];
    if Behind(w, id) {
      var i :| 0 <= i < |p.xs| && !NotLower(w.r.byID, p.xs[i].d);
      LowerIsLowered(w.r.byID, p.seen, p.xs, i);
      ScreenedNotLower(p.seen, p.xs, i);
    }
    if Lowered(w.r.byID, Built(p.xs)) { LoweredIsLower(w.r.byID, p.xs, Built(p.xs)); }
  }

  lemma BuiltOne(x: Offered)
    ensures Built([x]) == Added(map[], x.d) && |Built([x])| == 1
    ensures x.valid ==> Screen(map[], [x]) == Accepted
  {
    assert [x][..0] == [];
  }

  /** Two calls that both read before either installs: the older list, installed last, wins. */
  function Overtaking(older: Offered, newer: Offered): seq<Event> {
    [Read(0, [older]), Read(1, [newer]), Install(1), Install(0)]
  }

  lemma RunOf4(w: Shared, e: seq<Event>)
    requires |e| == 4
    ensures Run(w, e[..3]) == Next(Next(Next(w, e[0]), e[1]), e[2])
    ensures Run(w, e) == Next(Next(Next(Next(w, e[0]), e[1]), e[2]), e[3])
  {
    RunOf3(w, e[..3]);
    RunSplits(w, e[..3], e[3..]);
    assert e[..3] + e[3..] == e && e[3..][1..] == [];
  }

  lemma {:induction false} RunSplits(w: Shared, a: seq<Event>, b: seq<Event>)
    ensures Run(w, a + b) == Run(Run(w, a), b)
    decreases |a|
  {
    if a == [] {
      assert a + b == b;
    } else {
      assert (a + b)[1..] == a[1..] + b;
      RunSplits(Next(w, a[0]), a[1..], b);
    }
  }

  lemma RunOf3(w: Shared, e: seq<Event>)
    requires |e| == 3
    ensures Run(w, e) == Next(Next(Next(w, e[0]), e[1]), e[2])
  {
    var u, v := e[1..], e[2..];
    assert u[1..] == v && v[1..] == [] && u[0] == e[1] && v[0] == e[2];
    assert Run(w, e) == Run(Next(w, e[0]), u);
    assert Run(Next(w, e[0]), u) == Run(Next(Next(w, e[0]), u[0]), v);
  }

  /** Any two valid lists for one route can be installed the wrong way round. */
  lemma OverlapLowers(maximum: nat, older: Offered, newer: Offered)
    requires maximum > 0 && older.valid && newer.valid && RouteKey(older.d) == RouteKey(newer.d)
             && older.d.generation < newer.d.generation
    ensures var w := Shared(Registry(maximum, false, map[]), map[]);
            Run(w, Overtaking(older, newer)[..3]).r.byID == Built([newer])
                && Run(w, Overtaking(older, newer)).r.byID == Built([older])
    ensures Lowered(Built([newer]), Built([older]))
  {
    var w, e := Shared(Registry(maximum, false, map[]), map[]), Overtaking(older, newer);
    BuiltOne(older);
    BuiltOne(newer);
    RunOf4(w, e);
    assert LowerAt(Built([newer]), Built([older]), CarrierKey(newer.d), newer.d.route, CarrierKey(older.d),
        older.d.route);
  }
}
