/**
 Lives with any number of restarts. A new process opens with Resume and serves only if
 that succeeds; calls that reach a process which could not resume do nothing.
 */
module RotationRestarts {
  import opened SessionTypes
  import opened Rotations
  import opened RotationTheorems
  import opened RotationProgress
  import opened RotationRecovery
  import RotationGap

  datatype Event = Serve(t: Timed) | Restart(now: int, stored: bool)

  /** The last coordinator that served, the store, and whether one is serving. */
  datatype Site = Site(c: Coordinator, s: Store, up: bool)

  function Next(w: Site, e: Event): Site
    requires w.c.Tracks()
  {
    match e
    case Serve(t) => if w.up then var o := Perform(w.c, w.s, t.now, t.call); Site(o.c, o.s, true) else w
    case Restart(now, stored) =>
      var o := DoResume(NewCoordinator(w.c.plan), w.s, now, stored);
      if o.ok then Site(o.c, o.s, true) else w.(up := false)
  }

  // ---------------------------------------------------------------- memory and store stay in step

  lemma CallRecorded(c: Coordinator, s: Store, now: int, call: Call)
    requires Recorded(c, s)
    ensures var o := Perform(c, s, now, call); Recorded(o.c, o.s) && o.c.plan == c.plan
  {
    if call.Start? {
      StartRecorded(c, s, call.stored);
    } else if call.Resume? {
      ResumeStays(c, s, now, call.stored);
    } else {
      PerformIs(c, s, now, call);
      if Addressee(call) in c.targets && Admitted(c, call) { MoveRecorded(c, s, now, call, Addressee(call)); }
    }
  }

  lemma MoveRecorded(c: Coordinator, s: Store, now: int, call: Call, k: string)
    requires Recorded(c, s) && !call.Start? && !call.Resume? && k in c.targets
    ensures var o := Commit(c, s, now, MoveOf(c.plan, c.targets[k], now, call));
            Recorded(o.c, o.s) && o.c.plan == c.plan
  {
    assert Held(c.plan, c.targets[k], s);
    MoveTidy(c.plan, c.targets[k], now, call);
    CommitRecorded(c, s, now, k, MoveOf(c.plan, c.targets[k], now, call));
  }

  lemma {:induction false} InstallBeside(ps: seq<Proof>, ins: seq<Install>, op: string, k: string)
    requires |ps| <= |ins|
    ensures var p := LastProof(ps, ins, op, k); p.Some? ==> p.value.1.Some?
  {
    if ps != [] { InstallBeside(ps[..|ps| - 1], ins, op, k); }
  }

  /** What is read from the store is traced in it. */
  lemma LoadedTraced(s: Store, op: string, t: Target)
    requires Aligned(s)
    ensures Traced(op, LoadTarget(s, op, t).t, s)
  {
    InstallBeside(s.proofs, s.installs, op, t.connector);
  }

  /** Every target of a resumed coordinator is what the store shows. */
  predicate Mirrors(c: Coordinator, s: Store) {
    forall k :: k in c.targets ==> c.targets[k] == LoadTarget(s, c.plan.operation, c.targets[k].target).t
  }

  lemma MirrorsRecorded(c: Coordinator, s: Store)
    requires Evident(c, s) && Aligned(s) && c.started && PlanFor(s.started, c.plan.operation) == Some(c.plan)
             && Mirrors(c, s)
    ensures Recorded(c, s) && AllReproduced(c, s)
  {
    forall k | k in c.targets ensures Traced(c.plan.operation, c.targets[k], s) && Reproduced(c, s, k) {
      LoadedTraced(s, c.plan.operation, c.targets[k].target);
      LoadedIsDurable(s, c.plan.operation, c.targets[k].target);
    }
  }

  lemma ResumedMirrors(plan: Plan, s: Store, now: int, stored: bool)
    requires plan.Valid() && PlanFor(s.started, plan.operation) == Some(plan)
    requires DoResume(NewCoordinator(plan), s, now, stored).ok
    ensures var d := DoResume(NewCoordinator(plan), s, now, stored).c;
            Evident(d, s) && d.plan == plan && d.started && Mirrors(d, s)
                && d.finished == FinishedAt(s.results, plan.operation)
  {
    NewTracks(plan);
    NewIsEvident(plan, s);
    ResumeKept(NewCoordinator(plan), s, now, stored);
    var d := DoResume(NewCoordinator(plan), s, now, stored).c;
    forall k | k in d.targets ensures d.targets[k] == LoadTarget(s, plan.operation, d.targets[k].target).t {
      var i := PlannedAt(d, k);
      ResumeDiscards(NewCoordinator(plan), s, now, i);
    }
  }

  lemma RestartRecorded(c: Coordinator, s: Store, now: int, stored: bool)
    requires Recorded(c, s) && DoResume(NewCoordinator(c.plan), s, now, stored).ok
    ensures var d := DoResume(NewCoordinator(c.plan), s, now, stored).c;
            Recorded(d, s) && d.plan == c.plan && d.started && AllReproduced(d, s)
                && d.finished == FinishedAt(s.results, c.plan.operation)
  {
    assert c.started;
    ResumedMirrors(c.plan, s, now, stored);
    MirrorsRecorded(DoResume(NewCoordinator(c.plan), s, now, stored).c, s);
  }

  lemma NextRecorded(w: Site, e: Event)
    requires Recorded(w.c, w.s)
    ensures Recorded(Next(w, e).c, Next(w, e).s) && Next(w, e).c.plan == w.c.plan
  {
    match e {
      case Serve(t) => CallRecorded(w.c, w.s, t.now, t.call);
      case Restart(now, stored) =>
        if DoResume(NewCoordinator(w.c.plan), w.s, now, stored).ok { RestartRecorded(w.c, w.s, now, stored); }
    }
  }

  ghost function Run(w: Site, events: seq<Event>): (r: Site)
    requires Recorded(w.c, w.s)
    ensures Recorded(r.c, r.s) && r.c.plan == w.c.plan
    decreases |events|
  {
    if events == [] then w
    else
      NextRecorded(w, events[0]);
      Run(Next(w, events[0]), events[1..])
  }

  ghost function Site0(plan: Plan, s: Store): (w: Site)
    requires plan.Valid() && Unused(s, plan.operation)
    ensures Recorded(w.c, w.s) && w.c.plan == plan
  {
    NewSynced(plan, s);
    Site(NewCoordinator(plan), s, true)
  }

  // ---------------------------------------------------------------- restarting again

  lemma FinishCarries(d: Coordinator, xs: seq<Recovered>)
    requires d.Tracks() && |xs| == |d.plan.targets|
    requires forall i :: 0 <= i < |xs| ==> d.targets[d.plan.targets[i].connector] == xs[i].t
    requires (exists i :: 0 <= i < |xs| && xs[i].t.phase == Failed)
             || (forall i :: 0 <= i < |xs| ==> xs[i].t.phase == Revoked)
    ensures d.AllRevoked() || d.AnyFailed()
  {
    if i :| 0 <= i < |xs| && xs[i].t.phase == Failed {
      assert d.targets[d.plan.targets[i].connector].phase == Failed;
    } else {
      forall k | k in d.targets ensures d.targets[k].phase == Revoked {
        var j := PlannedAt(d, k);
        assert d.targets[k] == xs[j].t;
      }
    }
  }

  lemma MirrorsLoad(d: Coordinator, s: Store, l: Resumed)
    requires d.Tracks() && Mirrors(d, s) && PlanFor(s.started, d.plan.operation) == Some(d.plan)
             && Load(s, d.plan) == Some(l)
    ensures |l.targets| == |d.plan.targets| && forall i :: 0 <= i < |l.targets| ==>
            d.targets[d.plan.targets[i].connector] == l.targets[i].t
  {
  }

  lemma ResumableFinish(plan: Plan, s: Store, now: int, o: Outcome)
    requires plan.Valid() && PlanFor(s.started, plan.operation) == Some(plan)
             && o == DoResume(NewCoordinator(plan), s, now, true) && o.ok
    ensures InTime(o.c, now) && (o.c.finished != 0 ==> o.c.AllRevoked() || o.c.AnyFailed())
  {
    ResumedMirrors(plan, s, now, true);
    var l := Load(s, plan).value;
    assert Resumable(NewCoordinator(plan), l, now) && l.finishedAt == o.c.finished;
    MirrorsLoad(o.c, s, l);
    if l.finishedAt != 0 { FinishCarries(o.c, l.targets); }
  }

  lemma StableOver(c: Coordinator, s: Store, now: int, later: int, o: Outcome)
    requires Recorded(c, s) && now <= later && o == DoResume(NewCoordinator(c.plan), s, now, true) && o.ok
    ensures DoResume(NewCoordinator(c.plan), s, later, true) == o
  {
    RestartRecorded(c, s, now, true);
    ResumableFinish(c.plan, s, now, o);
    ReproducedResumes(o.c, s, later);
    ResumeReplies(NewCoordinator(c.plan), s, now);
  }

  lemma ResumeReplies(c: Coordinator, s: Store, now: int)
    ensures var o := DoResume(c, s, now, true); o.s == s && o.reply == NoReply
  {
  }

  /** After any run, restarting again at any later time changes nothing: recovery is idempotent. */
  lemma RestartIsStable(plan: Plan, s: Store, events: seq<Event>, now: int, later: int)
    requires plan.Valid() && Unused(s, plan.operation) && now <= later
    ensures var w := Run(Site0(plan, s), events);
            var o := DoResume(NewCoordinator(plan), w.s, now, true);
            o.ok ==> DoResume(NewCoordinator(plan), w.s, later, true) == o
  {
    var w := Run(Site0(plan, s), events);
    var o := DoResume(NewCoordinator(plan), w.s, now, true);
    if o.ok { StableOver(w.c, w.s, now, later, o); }
  }

  // ---------------------------------------------------------------- a failure that comes back

  lemma RunOne(w: Site, e: Event)
    requires Recorded(w.c, w.s)
    ensures Run(w, [e]) == Next(w, e)
  {
    RunFirst(w, [e]);
    assert [e][1..] == [];
  }

  lemma RunFirst(w: Site, events: seq<Event>)
    requires Recorded(w.c, w.s) && events != []
    ensures var v := Next(w, events[0]); Recorded(v.c, v.s) && Run(w, events) == Run(v, events[1..])
  {
    NextRecorded(w, events[0]);
  }

  lemma {:induction false} RunSplits(w: Site, a: seq<Event>, b: seq<Event>)
    requires Recorded(w.c, w.s)
    ensures Run(w, a + b) == Run(Run(w, a), b)
    decreases |a|
  {
    if a == [] {
      assert a + b == b;
    } else {
      RunFirst(w, a);
      RunFirst(w, a + b);
      assert (a + b)[1..] == a[1..] + b;
      RunSplits(Next(w, a[0]), a[1..], b);
    }
  }

  lemma RunMore(w: Site, events: seq<Event>, e: Event)
    requires Recorded(w.c, w.s)
    ensures Run(w, events + [e]) == Next(Run(w, events), e)
  {
    RunSplits(w, events, [e]);
    RunOne(Run(w, events), e);
  }

  /** A serving site of a plan with one target, which is in state `t`. */
  predicate Sole(w: Site, plan: Plan, t: TargetState) {
    w.up && w.c.plan == plan && w.c.started && w.c.targets == map[t.target.connector := t]
  }

  lemma SoleMoves(w: Site, plan: Plan, a: TargetState, tm: Timed, m: Move)
    requires w.c.Tracks() && Sole(w, plan, a) && !tm.call.Start? && !tm.call.Resume?
             && Addressee(tm.call) == a.target.connector
    requires Admitted(w.c, tm.call) && m == MoveOf(plan, a, tm.now, tm.call)
    ensures var v := Next(w, Serve(tm)); v.c.Tracks() && Sole(v, plan, m.t)
    ensures var v := Next(w, Serve(tm));
            if m.write.WriteResult? then v.s == w.s.(results := w.s.results + [SummaryOf(v.c)])
            else v.s.results == w.s.results
  {
    PerformIs(w.c, w.s, tm.now, tm.call);
    CommitSole(w.c, w.s, tm.now, a, m);
    assert a.target.connector in w.c.targets && w.c.targets[a.target.connector] == a;
  }

  lemma CommitSole(c: Coordinator, s: Store, now: int, a: TargetState, m: Move)
    requires c.Tracks() && c.targets == map[a.target.connector := a] && m.t.target == a.target
    ensures var o := Commit(c, s, now, m);
            && o.c.Tracks() && o.c.plan == c.plan && o.c.started == c.started
               && o.c.targets == map[a.target.connector := m.t]
            && o.s == Written(s, m.write, o.c)
  {
    assert c.targets[a.target.connector := m.t] == map[a.target.connector := m.t];
  }

  /** The site after a failure of the sole target, reached by two calls and a restart. */
  function Failing(x: Target): seq<Event> {
    [Serve(Timed(RotationGap.T, Start(true))), Serve(Timed(RotationGap.T, Fail(x.connector, RotationFailed, true))),
        Restart(RotationGap.T, true)]
  }

  /** From there the rotation goes on as if nothing had happened. */
  function GoingOn(plan: Plan, x: Target): seq<Event> {
    [Serve(RotationGap.ToChallenge(x)), Serve(RotationGap.ToProve(plan, x)), Serve(RotationGap.ToReady(plan, x)),
        Serve(RotationGap.ToRevoke(x))]
  }

  lemma OneTracked(plan: Plan)
    requires plan.Valid() && |plan.targets| == 1
    ensures NewCoordinator(plan).targets == map[plan.targets[0].connector := Idle(plan.targets[0])]
  {
    var x := plan.targets[0];
    assert Tracked(plan.targets[..0]) == map[];
    assert Tracked(plan.targets) == Tracked(plan.targets[..0])[x.connector := Idle(x)];
  }

  lemma FailedStore(plan: Plan, s: Store, c: Coordinator, s1: Store, s2: Store)
    requires Unused(s, plan.operation) && c.Tracks() && c.plan == plan && c.AnyFailed()
    requires s1 == s.(started := s.started + [plan]) && s2 == s1.(results := s.results + [SummaryOf(c)])
    ensures NoEvidence(s2, plan.operation) && PlanFor(s2.started, plan.operation) == Some(plan)
            && FinishedAt(s2.results, plan.operation) == 0
  {
    PlanForAppended(s.started, plan);
    NoResultNoOverlay(s.results, plan.operation, "");
    assert s2.results[..|s.results|] == s.results;
  }

  /** The failure is in the store's last result, and nothing else of the operation is in the store. */
  predicate OnlyFailed(s: Store, plan: Plan, k: string) {
    && NoEvidence(s, plan.operation) && PlanFor(s.started, plan.operation) == Some(plan)
       && FinishedAt(s.results, plan.operation) == 0
    && Overlay(s.results, plan.operation, k) == Some(SummaryLine(k, Failed, RotationFailed))
  }

  lemma FailCommits(w: Site, plan: Plan, x: Target, e: Event)
    requires w.c.Tracks() && Sole(w, plan, Idle(x))
             && e == Serve(Timed(RotationGap.T, Fail(x.connector, RotationFailed, true)))
    ensures var v := Next(w, e);
            && v.c.Tracks() && v.c.plan == plan && v.s == w.s.(results := w.s.results + [SummaryOf(v.c)])
            && v.c.targets == map[x.connector := Idle(x).(phase := Failed, code := RotationFailed)]
  {
    SoleMoves(w, plan, Idle(x), e.t, FailMove(Idle(x), RotationFailed, true));
  }

  lemma FailedOnly(s: Store, plan: Plan, x: Target, c: Coordinator, s1: Store, s2: Store)
    requires Unused(s, plan.operation) && c.Tracks() && c.plan == plan
    requires c.targets == map[x.connector := Idle(x).(phase := Failed, code := RotationFailed)]
    requires s1 == s.(started := s.started + [plan]) && s2 == s1.(results := s1.results + [SummaryOf(c)])
    ensures OnlyFailed(s2, plan, x.connector)
  {
    assert c.targets[x.connector].phase == Failed;
    FailedStore(plan, s, c, s1, s2);
    OverlayOf(s.results, c, x.connector);
  }

  /** A site of a plan with one target before its first call. */
  predicate Untouched(w: Site, plan: Plan, s: Store) {
    && |plan.targets| == 1 && w.up && w.s == s && w.c.plan == plan && !w.c.started
    && w.c.targets == map[plan.targets[0].connector := Idle(plan.targets[0])]
  }

  lemma FailsOnce(w0: Site, plan: Plan, s: Store) returns (w: Site)
    requires Recorded(w0.c, w0.s) && Unused(s, plan.operation) && Untouched(w0, plan, s)
    ensures w == Run(w0, Failing(plan.targets[0])[..2]) && w.c.plan == plan
            && OnlyFailed(w.s, plan, plan.targets[0].connector)
  {
    var x, e := plan.targets[0], Failing(plan.targets[0]);
    var w1 := Starts(w0, plan, s);
    FailCommits(w1, plan, x, e[1]);
    w := Next(w1, e[1]);
    FailedOnly(s, plan, x, w.c, w1.s, w.s);
    RunOne(w0, e[0]);
    RunMore(w0, [e[0]], e[1]);
    assert [e[0]] + [e[1]] == e[..2];
  }

  lemma Starts(w0: Site, plan: Plan, s: Store) returns (w: Site)
    requires w0.c.Tracks() && PlanFor(s.started, plan.operation).None? && Untouched(w0, plan, s)
    ensures w == Next(w0, Serve(Timed(RotationGap.T, Start(true)))) && w.c.Tracks()
            && Sole(w, plan, Idle(plan.targets[0]))
    ensures w.s == s.(started := s.started + [plan])
  {
    w := Next(w0, Serve(Timed(RotationGap.T, Start(true))));
  }

  lemma Forgets(v: Site, plan: Plan, e: Event) returns (w: Site)
    requires plan.Valid() && |plan.targets| == 1 && v.c.Tracks() && v.c.plan == plan
             && OnlyFailed(v.s, plan, plan.targets[0].connector)
    requires e == Restart(RotationGap.T, true)
    ensures w == Next(v, e) && Sole(w, plan, Idle(plan.targets[0])) && w.s == v.s
  {
    NewTracks(plan);
    ResumeForgets(NewCoordinator(plan), v.s, RotationGap.T);
    OneTracked(plan);
    w := Next(v, e);
  }

  lemma ThenForgets(w0: Site, es: seq<Event>, v: Site, plan: Plan, e: Event) returns (w: Site)
    requires Recorded(w0.c, w0.s) && v == Run(w0, es) && plan.Valid() && |plan.targets| == 1 && v.c.plan == plan
    requires OnlyFailed(v.s, plan, plan.targets[0].connector) && e == Restart(RotationGap.T, true)
    ensures w == Run(w0, es + [e]) && Sole(w, plan, Idle(plan.targets[0])) && w.s == v.s
  {
    w := Forgets(v, plan, e);
    RunMore(w0, es, e);
  }

  lemma FailsAndRestarts(w0: Site, plan: Plan, s: Store) returns (w: Site)
    requires Recorded(w0.c, w0.s) && Unused(s, plan.operation) && Untouched(w0, plan, s)
    ensures w == Run(w0, Failing(plan.targets[0])) && Sole(w, plan, Idle(plan.targets[0]))
    ensures OnlyFailed(w.s, plan, plan.targets[0].connector)
  {
    var e := Failing(plan.targets[0]);
    var v := FailsOnce(w0, plan, s);
    w := ThenForgets(w0, e[..2], v, plan, e[2]);
    assert e[..2] + [e[2]] == e;
  }

  /** `v` is reached from `w` by the calls `es`, with its sole target in state `t` and no further result. */
  ghost predicate Climbed(w: Site, es: seq<Event>, v: Site, plan: Plan, t: TargetState) {
    Recorded(w.c, w.s) && v == Run(w, es) && Recorded(v.c, v.s) && Sole(v, plan, t) && v.s.results == w.s.results
  }

  lemma Climbs(w: Site, es: seq<Event>, v: Site, plan: Plan, a: TargetState, tm: Timed, u: TargetState)
      returns (r: Site)
    requires Climbed(w, es, v, plan, a) && !tm.call.Start? && !tm.call.Resume?
             && Addressee(tm.call) == a.target.connector
    requires tm.call.RequestRevoke? ==> a.phase == IsReady
    requires var m := MoveOf(plan, a, tm.now, tm.call); m.t == u && !m.write.WriteResult?
    ensures Climbed(w, es + [Serve(tm)], r, plan, u)
  {
    SoleMoves(v, plan, a, tm, MoveOf(plan, a, tm.now, tm.call));
    NextRecorded(v, Serve(tm));
    r := Next(v, Serve(tm));
    RunMore(w, es, Serve(tm));
  }

  lemma Unresulted(plan: Plan, a: TargetState, tm: Timed)
    requires tm.call.IssueChallenge? || tm.call.AcceptProof? || tm.call.MarkReady? || tm.call.RequestRevoke?
    ensures !MoveOf(plan, a, tm.now, tm.call).write.WriteResult?
  {
  }

  lemma GoesChallenged(w: Site, plan: Plan, x: Target) returns (v: Site)
    requires Recorded(w.c, w.s) && x.Valid() && Sole(w, plan, Idle(x))
    ensures Climbed(w, GoingOn(plan, x)[..1], v, plan, RotationGap.AtChallenged(plan, x))
  {
    RotationGap.MovesUp(plan, x);
    Unresulted(plan, Idle(x), RotationGap.ToChallenge(x));
    v := Climbs(w, [], w, plan, Idle(x), RotationGap.ToChallenge(x), RotationGap.AtChallenged(plan, x));
    assert [] + [Serve(RotationGap.ToChallenge(x))] == GoingOn(plan, x)[..1];
  }

  lemma GoesInstalled(w: Site, v: Site, plan: Plan, x: Target) returns (r: Site)
    requires x.Valid() && Climbed(w, GoingOn(plan, x)[..1], v, plan, RotationGap.AtChallenged(plan, x))
    ensures Climbed(w, GoingOn(plan, x)[..2], r, plan, RotationGap.AtInstalled(plan, x))
  {
    RotationGap.MovesUp(plan, x);
    Unresulted(plan, RotationGap.AtChallenged(plan, x), RotationGap.ToProve(plan, x));
    r := Climbs(w, GoingOn(plan, x)[..1], v, plan, RotationGap.AtChallenged(plan, x), RotationGap.ToProve(plan, x),
        RotationGap.AtInstalled(plan, x));
    assert GoingOn(plan, x)[..1] + [Serve(RotationGap.ToProve(plan, x))] == GoingOn(plan, x)[..2];
  }

  lemma GoesReady(w: Site, v: Site, plan: Plan, x: Target) returns (r: Site)
    requires x.Valid() && Climbed(w, GoingOn(plan, x)[..2], v, plan, RotationGap.AtInstalled(plan, x))
    ensures Climbed(w, GoingOn(plan, x)[..3], r, plan, RotationGap.AtReady(plan, x))
  {
    RotationGap.MovesUp(plan, x);
    Unresulted(plan, RotationGap.AtInstalled(plan, x), RotationGap.ToReady(plan, x));
    r := Climbs(w, GoingOn(plan, x)[..2], v, plan, RotationGap.AtInstalled(plan, x), RotationGap.ToReady(plan, x),
        RotationGap.AtReady(plan, x));
    assert GoingOn(plan, x)[..2] + [Serve(RotationGap.ToReady(plan, x))] == GoingOn(plan, x)[..3];
  }

  lemma GoesRevoking(w: Site, v: Site, plan: Plan, x: Target) returns (r: Site)
    requires x.Valid() && Climbed(w, GoingOn(plan, x)[..3], v, plan, RotationGap.AtReady(plan, x))
    ensures Climbed(w, GoingOn(plan, x), r, plan, RotationGap.AtRevoking(plan, x))
  {
    RotationGap.MovesToRevoking(plan, x);
    Unresulted(plan, RotationGap.AtReady(plan, x), RotationGap.ToRevoke(x));
    r := Climbs(w, GoingOn(plan, x)[..3], v, plan, RotationGap.AtReady(plan, x), RotationGap.ToRevoke(x),
        RotationGap.AtRevoking(plan, x));
    assert GoingOn(plan, x)[..3] + [Serve(RotationGap.ToRevoke(x))] == GoingOn(plan, x);
  }

  lemma ReadsFailed(w: Site, plan: Plan, x: Target, t: TargetState)
    requires Recorded(w.c, w.s) && Sole(w, plan, t) && t.target == x && t.revoke.Some?
    requires Overlay(w.s.results, plan.operation, x.connector) == Some(SummaryLine(x.connector, Failed, RotationFailed))
    ensures LoadTarget(w.s, plan.operation, x).t == t.(phase := Failed, code := RotationFailed)
  {
    assert w.c.targets[x.connector] == t;
    assert Traced(plan.operation, w.c.targets[x.connector], w.s);
  }

  /**
   A failure that a restart has forgotten comes back. In this life of any plan with one target
   the target fails, a restart brings it back as pending, it goes on until it is being revoked,
   and then the store shows it as failed again.
   */
  lemma ForgottenFailureReturns(plan: Plan, s: Store)
    requires plan.Valid() && |plan.targets| == 1 && Unused(s, plan.operation)
    ensures var x := plan.targets[0];
            var w := Run(Run(Site0(plan, s), Failing(x)), GoingOn(plan, x));
            && Sole(w, plan, RotationGap.AtRevoking(plan, x))
            && LoadTarget(w.s, plan.operation, x).t
               == RotationGap.AtRevoking(plan, x).(phase := Failed, code := RotationFailed)
  {
    var x := plan.targets[0];
    OneTracked(plan);
    var w := FailsAndRestarts(Site0(plan, s), plan, s);
    var v := GoesChallenged(w, plan, x);
    v := GoesInstalled(w, v, plan, x);
    v := GoesReady(w, v, plan, x);
    v := GoesRevoking(w, v, plan, x);
    ReadsFailed(v, plan, x, RotationGap.AtRevoking(plan, x));
  }
}
