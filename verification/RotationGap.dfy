/** A reachable state from which recovery is refused: two targets, the second revoked after the first one's result. */
module RotationGap {
  import opened SessionTypes
  import opened Rotations
  import opened RotationTheorems
  import opened RotationProgress
  import opened RotationRecovery

  // ---------------------------------------------------------------- reachable ledgers

  lemma {:induction false} LivedSplit(l: Ledger, xs: seq<Timed>, ys: seq<Timed>)
    requires Evident(l.w.c, l.w.s)
    ensures Lived(l, xs + ys) == Lived(Lived(l, xs), ys)
    decreases |xs|
  {
    if xs == [] {
      assert xs + ys == ys;
    } else {
      LivedFirst(l, xs);
      LivedFirst(l, xs + ys);
      assert (xs + ys)[1..] == xs[1..] + ys;
      LivedSplit(NextLedger(l, xs[0]), xs[1..], ys);
    }
  }

  lemma LivedFirst(l: Ledger, calls: seq<Timed>)
    requires Evident(l.w.c, l.w.s) && calls != []
    ensures var r := NextLedger(l, calls[0]); Evident(r.w.c, r.w.s) && Lived(l, calls) == Lived(r, calls[1..])
  {
    CallKept(l.w.c, l.w.s, calls[0].now, calls[0].call);
  }

  ghost predicate Reached(plan: Plan, s: Store, l: Ledger)
    requires plan.Valid() && Unused(s, plan.operation)
  {
    exists calls :: l == LifeOf(plan, s, calls)
  }

  lemma LifeSplit(plan: Plan, s: Store, xs: seq<Timed>, ys: seq<Timed>)
    requires plan.Valid() && Unused(s, plan.operation)
    ensures LifeOf(plan, s, xs + ys) == Lived(LifeOf(plan, s, xs), ys)
  {
    NewIsEvident(plan, s);
    LivedSplit(Fresh(plan, s), xs, ys);
  }

  /** One more call reaches one more ledger. */
  lemma ReachedMore(plan: Plan, s: Store, l: Ledger, t: Timed)
    requires plan.Valid() && Unused(s, plan.operation) && Reached(plan, s, l)
    ensures l.w.c.Tracks() && Reached(plan, s, NextLedger(l, t))
  {
    var xs :| l == LifeOf(plan, s, xs);
    LifeSplit(plan, s, xs, [t]);
    LivedOne(l, t);
    assert NextLedger(l, t) == LifeOf(plan, s, xs + [t]);
  }

  lemma LivedOne(l: Ledger, t: Timed)
    requires Evident(l.w.c, l.w.s)
    ensures Lived(l, [t]) == NextLedger(l, t)
  {
    LivedFirst(l, [t]);
    assert [t][1..] == [];
  }

  // ---------------------------------------------------------------- two targets

  /** A started ledger that tracks exactly `a` and `b`. */
  predicate At(l: Ledger, a: TargetState, b: TargetState) {
    && l.w.c.started && l.w.c.targets.Keys == {a.target.connector, b.target.connector}
       && a.target.connector != b.target.connector
    && l.w.c.targets[a.target.connector] == a && l.w.c.targets[b.target.connector] == b
  }

  lemma CommitAt(c: Coordinator, s: Store, now: int, a: TargetState, b: TargetState, m: Move)
    requires c.Tracks() && c.targets.Keys == {a.target.connector, b.target.connector}
             && a.target.connector != b.target.connector
    requires c.targets[a.target.connector] == a && c.targets[b.target.connector] == b && m.t.target == a.target
    ensures var o := Commit(c, s, now, m);
            && o.c.targets.Keys == c.targets.Keys && o.c.targets[a.target.connector] == m.t
               && o.c.targets[b.target.connector] == b
            && o.c.started == c.started && o.c.plan == c.plan && o.s == Written(s, m.write, o.c)
  {
  }

  /** One call to `a` makes the move `m`: only `a` changes. */
  lemma Advance(plan: Plan, s: Store, l: Ledger, a: TargetState, b: TargetState, t: Timed, m: Move) returns (r: Ledger)
    requires plan.Valid() && Unused(s, plan.operation) && Reached(plan, s, l) && l.w.c.plan == plan && At(l, a, b)
    requires !t.call.Start? && !t.call.Resume? && Addressee(t.call) == a.target.connector && Admitted(l.w.c, t.call)
    requires m == MoveOf(plan, a, t.now, t.call)
    ensures Reached(plan, s, r) && r.w.c.plan == plan && At(r, m.t, b)
            && r.since == SinceBy(l.since, a.target.connector, a, m)
    ensures r.w.c.Tracks() && r.w.s == Written(l.w.s, m.write, r.w.c)
  {
    ReachedMore(plan, s, l, t);
    r := NextLedger(l, t);
    CommitAt(l.w.c, l.w.s, t.now, a, b, m);
    PerformIs(l.w.c, l.w.s, t.now, t.call);
    SinceMatches(l.w.c, l.w.s, l.since, t.now, t.call, a.target.connector, m);
  }

  // ---------------------------------------------------------------- one target, from pending to revoked

  const T := 1000 * SECOND
  const OLD := KeyRef("old", "")
  const FRESH := NewKey("new", "", "", "")

  function Here(plan: Plan, t: Target): Binding { BindingOf(plan, t, "before", 1) }
  function There(plan: Plan, t: Target): Binding { BindingOf(plan, t, "after", 2) }

  function TheChallenge(plan: Plan, t: Target): Challenge {
    Challenge(Here(plan, t), t, OLD, "nonce", T, T + SECOND, T + 2 * SECOND, T + 3 * SECOND, true)
  }
  function TheProof(plan: Plan, t: Target): Proof { Proof(Here(plan, t), OLD, FRESH, "nonce", T, T + 3 * SECOND, true) }
  function TheInstall(plan: Plan, t: Target): Install {
    Install(Here(plan, t), FRESH, "nonce", T + 2 * SECOND, T + 3 * SECOND, 2, true)
  }
  function TheReady(plan: Plan, t: Target): Ready {
    Ready.Ready(There(plan, t), "before", FRESH, T + 3 * SECOND, Config(1, ""), true, true, true, T, true)
  }
  function TheRevoke(plan: Plan, t: Target): Revoke { Revoke(There(plan, t), "nonce", T, T + ABORT_TIMEOUT, true) }

  function ToChallenge(t: Target): Timed {
    Timed(T, IssueChallenge(t.connector, "before", 1, OLD, "nonce", T, T + SECOND, T + 2 * SECOND, T + 3 * SECOND, true,
        true, true))
  }
  function ToProve(plan: Plan, t: Target): Timed { Timed(T, AcceptProof(TheProof(plan, t), true, true)) }
  function ToReady(plan: Plan, t: Target): Timed { Timed(T, MarkReady(TheReady(plan, t), true)) }
  function ToRevoke(t: Target): Timed { Timed(T, RequestRevoke(t.connector, "nonce", true, true)) }
  function ToRevoked(plan: Plan, t: Target): Timed {
    Timed(T, HandleAck(RotationAck(There(plan, t), SaysRevoked, NoCode, true), true))
  }

  function AtChallenged(plan: Plan, t: Target): TargetState {
    Idle(t).(phase := Challenged, challenge := Some(TheChallenge(plan, t)))
  }
  function AtInstalled(plan: Plan, t: Target): TargetState {
    AtChallenged(plan, t).(phase := Installed, proof := Some(TheProof(plan, t)), install := Some(TheInstall(plan, t)))
  }
  function AtReady(plan: Plan, t: Target): TargetState {
    AtInstalled(plan, t).(phase := IsReady, ready := Some(TheReady(plan, t)))
  }
  function AtRevoking(plan: Plan, t: Target): TargetState {
    AtReady(plan, t).(phase := Revoking, revoke := Some(TheRevoke(plan, t)))
  }
  function AtRevoked(plan: Plan, t: Target): TargetState { AtRevoking(plan, t).(phase := Revoked) }

  lemma MovesUp(plan: Plan, t: Target)
    requires t.Valid()
    ensures MoveOf(plan, Idle(t), T, ToChallenge(t).call).t == AtChallenged(plan, t)
    ensures MoveOf(plan, AtChallenged(plan, t), T, ToProve(plan, t).call).t == AtInstalled(plan, t)
    ensures MoveOf(plan, AtInstalled(plan, t), T, ToReady(plan, t).call).t == AtReady(plan, t)
  {
    assert TheChallenge(plan, t).Valid() && TheProof(plan, t).Matches(TheChallenge(plan, t), t);
    assert InstallFor(plan, TheProof(plan, t), TheChallenge(plan, t)) == TheInstall(plan, t);
    assert Answers(plan, AtInstalled(plan, t), TheReady(plan, t));
  }

  lemma MovesToRevoking(plan: Plan, t: Target)
    requires t.Valid()
    ensures var m := MoveOf(plan, AtReady(plan, t), T, ToRevoke(t).call);
            m.t == AtRevoking(plan, t) && m.write.WriteRevoke?
  {
  }

  lemma MovesToRevoked(plan: Plan, t: Target)
    requires t.Valid()
    ensures var m := MoveOf(plan, AtRevoking(plan, t), T, ToRevoked(plan, t).call);
            m.t == AtRevoked(plan, t) && m.write.WriteResult?
  {
  }

  /** A reached ledger of this plan that tracks exactly `a` and `b`. */
  ghost predicate Stands(plan: Plan, s: Store, l: Ledger, a: TargetState, b: TargetState)
    requires plan.Valid() && Unused(s, plan.operation)
  {
    Reached(plan, s, l) && l.w.c.plan == plan && At(l, a, b)
  }

  lemma Climb(plan: Plan, s: Store, l: Ledger, a: TargetState, b: TargetState, t: Timed, u: TargetState)
      returns (r: Ledger)
    requires plan.Valid() && Unused(s, plan.operation) && Stands(plan, s, l, a, b)
    requires !t.call.Start? && !t.call.Resume? && !t.call.RequestRevoke? && Addressee(t.call) == a.target.connector
    requires MoveOf(plan, a, t.now, t.call).t == u
    ensures Stands(plan, s, r, u, b)
  {
    r := Advance(plan, s, l, a, b, t, MoveOf(plan, a, t.now, t.call));
  }

  lemma GoChallenged(plan: Plan, s: Store, l: Ledger, t: Target, b: TargetState) returns (r: Ledger)
    requires plan.Valid() && Unused(s, plan.operation) && Stands(plan, s, l, Idle(t), b) && t.Valid()
    ensures Stands(plan, s, r, AtChallenged(plan, t), b)
  {
    MovesUp(plan, t);
    r := Climb(plan, s, l, Idle(t), b, ToChallenge(t), AtChallenged(plan, t));
  }

  lemma GoInstalled(plan: Plan, s: Store, l: Ledger, t: Target, b: TargetState) returns (r: Ledger)
    requires plan.Valid() && Unused(s, plan.operation) && Stands(plan, s, l, AtChallenged(plan, t), b) && t.Valid()
    ensures Stands(plan, s, r, AtInstalled(plan, t), b)
  {
    MovesUp(plan, t);
    r := Climb(plan, s, l, AtChallenged(plan, t), b, ToProve(plan, t), AtInstalled(plan, t));
  }

  lemma GoReady(plan: Plan, s: Store, l: Ledger, t: Target, b: TargetState) returns (r: Ledger)
    requires plan.Valid() && Unused(s, plan.operation) && Stands(plan, s, l, AtInstalled(plan, t), b) && t.Valid()
    ensures Stands(plan, s, r, AtReady(plan, t), b)
  {
    MovesUp(plan, t);
    r := Climb(plan, s, l, AtInstalled(plan, t), b, ToReady(plan, t), AtReady(plan, t));
  }

  lemma MakeReady(plan: Plan, s: Store, l: Ledger, t: Target, b: TargetState) returns (r: Ledger)
    requires plan.Valid() && Unused(s, plan.operation) && Stands(plan, s, l, Idle(t), b) && t.Valid()
    ensures Stands(plan, s, r, AtReady(plan, t), b)
  {
    r := GoChallenged(plan, s, l, t, b);
    r := GoInstalled(plan, s, r, t, b);
    r := GoReady(plan, s, r, t, b);
  }

  // ---------------------------------------------------------------- the run

  lemma TwoTracked(plan: Plan)
    requires plan.Valid() && |plan.targets| == 2
    ensures var c := NewCoordinator(plan);
            && plan.targets[0].connector != plan.targets[1].connector
            && c.targets.Keys == {plan.targets[0].connector, plan.targets[1].connector}
            && c.targets[plan.targets[0].connector] == Idle(plan.targets[0])
               && c.targets[plan.targets[1].connector] == Idle(plan.targets[1])
  {
    NewTracks(plan);
    ConnectorsDistinct(plan);
    var c := NewCoordinator(plan);
    assert c.targets[plan.targets[0].connector].target == plan.targets[0]
        && c.targets[plan.targets[1].connector].target == plan.targets[1];
  }

  lemma Begun(plan: Plan, s: Store) returns (l: Ledger)
    requires plan.Valid() && |plan.targets| == 2 && Unused(s, plan.operation)
    ensures Stands(plan, s, l, Idle(plan.targets[0]), Idle(plan.targets[1]))
  {
    TwoTracked(plan);
    NewIsEvident(plan, s);
    var l0 := Fresh(plan, s);
    assert l0 == LifeOf(plan, s, []);
    ReachedMore(plan, s, l0, Timed(T, Start(true)));
    l := NextLedger(l0, Timed(T, Start(true)));
  }

  lemma WriteKeepsResult(s: Store, w: Write, c: Coordinator, op: string)
    requires c.Tracks()
    ensures HasResult(s.results, op) ==> HasResult(Written(s, w, c).results, op)
    ensures w.WriteResult? && c.plan.operation == op ==> HasResult(Written(s, w, c).results, op)
  {
    var after := Written(s, w, c).results;
    if w.WriteResult? { assert after[|s.results|].operation == c.plan.operation; }
    if HasResult(s.results, op) {
      var i :| 0 <= i < |s.results| && s.results[i].operation == op;
      assert after[i].operation == op;
    }
  }

  lemma RevokeAdmitted(l: Ledger, a: TargetState, b: TargetState, call: Call)
    requires call.RequestRevoke? && At(l, a, b) && a.phase == IsReady && (b.phase == IsReady || b.phase == Revoked)
    ensures Admitted(l.w.c, call)
  {
    assert forall j :: j in l.w.c.targets ==> j == a.target.connector || j == b.target.connector;
  }

  /** One call that makes the move `m`, whose write is a revoke or a result. */
  lemma Push(plan: Plan, s: Store, l: Ledger, a: TargetState, b: TargetState, t: Timed, m: Move) returns (r: Ledger)
    requires plan.Valid() && Unused(s, plan.operation) && Stands(plan, s, l, a, b)
    requires !t.call.Start? && !t.call.Resume? && Addressee(t.call) == a.target.connector && Admitted(l.w.c, t.call)
    requires m == MoveOf(plan, a, t.now, t.call)
    ensures Stands(plan, s, r, m.t, b) && (m.write.WriteRevoke? ==> a.target.connector in r.since.revoked)
    ensures m.write.WriteResult? || HasResult(l.w.s.results, plan.operation) ==>
            HasResult(r.w.s.results, plan.operation)
  {
    r := Advance(plan, s, l, a, b, t, m);
    WriteKeepsResult(l.w.s, m.write, r.w.c, plan.operation);
  }

  lemma Drop(plan: Plan, s: Store, l: Ledger, a: TargetState, b: TargetState, t: Timed, u: TargetState)
      returns (r: Ledger)
    requires plan.Valid() && Unused(s, plan.operation) && Stands(plan, s, l, a, b)
    requires a.phase == IsReady && (b.phase == IsReady || b.phase == Revoked)
    requires t.call.RequestRevoke? && Addressee(t.call) == a.target.connector
    requires var m := MoveOf(plan, a, t.now, t.call); m.t == u && m.write.WriteRevoke?
    ensures Stands(plan, s, r, u, b) && a.target.connector in r.since.revoked
    ensures HasResult(l.w.s.results, plan.operation) ==> HasResult(r.w.s.results, plan.operation)
  {
    RevokeAdmitted(l, a, b, t.call);
    r := Push(plan, s, l, a, b, t, MoveOf(plan, a, t.now, t.call));
  }

  lemma Settle(plan: Plan, s: Store, l: Ledger, a: TargetState, b: TargetState, t: Timed, u: TargetState)
      returns (r: Ledger)
    requires plan.Valid() && Unused(s, plan.operation) && Stands(plan, s, l, a, b) && t.call.HandleAck?
             && Addressee(t.call) == a.target.connector
    requires var m := MoveOf(plan, a, t.now, t.call); m.t == u && m.write.WriteResult?
    ensures Stands(plan, s, r, u, b) && HasResult(r.w.s.results, plan.operation)
  {
    r := Push(plan, s, l, a, b, t, MoveOf(plan, a, t.now, t.call));
  }

  lemma GoRevoking(plan: Plan, s: Store, l: Ledger, t: Target, b: TargetState) returns (r: Ledger)
    requires plan.Valid() && Unused(s, plan.operation) && Stands(plan, s, l, AtReady(plan, t), b) && t.Valid()
    requires b.phase == IsReady || b.phase == Revoked
    ensures Stands(plan, s, r, AtRevoking(plan, t), b) && t.connector in r.since.revoked
    ensures HasResult(l.w.s.results, plan.operation) ==> HasResult(r.w.s.results, plan.operation)
  {
    MovesToRevoking(plan, t);
    r := Drop(plan, s, l, AtReady(plan, t), b, ToRevoke(t), AtRevoking(plan, t));
  }

  lemma GoRevoked(plan: Plan, s: Store, l: Ledger, t: Target, b: TargetState) returns (r: Ledger)
    requires plan.Valid() && Unused(s, plan.operation) && Stands(plan, s, l, AtRevoking(plan, t), b) && t.Valid()
    ensures Stands(plan, s, r, AtRevoked(plan, t), b) && HasResult(r.w.s.results, plan.operation)
  {
    MovesToRevoked(plan, t);
    r := Settle(plan, s, l, AtRevoking(plan, t), b, ToRevoked(plan, t), AtRevoked(plan, t));
  }

  lemma Swap(plan: Plan, s: Store, l: Ledger, a: TargetState, b: TargetState)
    requires plan.Valid() && Unused(s, plan.operation) && Stands(plan, s, l, a, b)
    ensures Stands(plan, s, l, b, a)
  {
    assert {a.target.connector, b.target.connector} == {b.target.connector, a.target.connector};
  }

  lemma BothReady(plan: Plan, s: Store) returns (l: Ledger)
    requires plan.Valid() && |plan.targets| == 2 && Unused(s, plan.operation)
    ensures Stands(plan, s, l, AtReady(plan, plan.targets[1]), AtReady(plan, plan.targets[0]))
  {
    var x, y := plan.targets[0], plan.targets[1];
    l := Begun(plan, s);
    l := MakeReady(plan, s, l, x, Idle(y));
    Swap(plan, s, l, AtReady(plan, x), Idle(y));
    l := MakeReady(plan, s, l, y, AtReady(plan, x));
  }

  /** First target revoked and acknowledged, second one revoked after that. */
  lemma OneLate(plan: Plan, s: Store, l: Ledger, x: Target, y: Target) returns (r: Ledger)
    requires plan.Valid() && Unused(s, plan.operation) && x.Valid() && y.Valid()
             && Stands(plan, s, l, AtReady(plan, x), AtReady(plan, y))
    ensures Stands(plan, s, r, AtRevoking(plan, y), AtRevoked(plan, x)) && y.connector in r.since.revoked
            && HasResult(r.w.s.results, plan.operation)
  {
    r := GoRevoking(plan, s, l, x, AtReady(plan, y));
    r := GoRevoked(plan, s, r, x, AtReady(plan, y));
    Swap(plan, s, r, AtRevoked(plan, x), AtReady(plan, y));
    r := GoRevoking(plan, s, r, y, AtRevoked(plan, x));
  }

  lemma LateIsUnsettled(l: Ledger, a: TargetState, b: TargetState, op: string)
    requires At(l, a, b) && a.phase == Revoking && b.phase == Revoked && a.target.connector in l.since.revoked
    requires l.w.c.plan.operation == op && HasResult(l.w.s.results, op)
    ensures !l.w.c.AnyFailed() && AnyOvertaken(l.w.c, l.w.s, l.since)
  {
    assert forall j :: j in l.w.c.targets ==> j == a.target.connector || j == b.target.connector;
    assert Overtaken(l.w.c, l.w.s, l.since, a.target.connector);
  }

  lemma LateIsRefused(plan: Plan, s: Store, l: Ledger, a: TargetState, b: TargetState) returns (calls: seq<Timed>)
    requires plan.Valid() && Unused(s, plan.operation) && Stands(plan, s, l, a, b) && a.phase == Revoking
             && b.phase == Revoked
    requires a.target.connector in l.since.revoked && HasResult(l.w.s.results, plan.operation)
    ensures l == LifeOf(plan, s, calls) && l.w.c.started && !l.w.c.AnyFailed()
    ensures !DoResume(NewCoordinator(plan), l.w.s, T, true).ok
  {
    LateIsUnsettled(l, a, b, plan.operation);
    calls :| l == LifeOf(plan, s, calls);
    LifeSynced(plan, s, calls);
    OvertakenRefused(l.w.c, l.w.s, l.since, T);
  }

  /** Every plan of two targets has a run without any failure after which recovery is refused. */
  lemma RefusedAfterLateRevoke(plan: Plan, s: Store) returns (calls: seq<Timed>)
    requires plan.Valid() && |plan.targets| == 2 && Unused(s, plan.operation)
    ensures var l := LifeOf(plan, s, calls);
            l.w.c.started && !l.w.c.AnyFailed() && !DoResume(NewCoordinator(plan), l.w.s, T, true).ok
  {
    var l := BothReady(plan, s);
    var x, y := plan.targets[1], plan.targets[0];
    l := OneLate(plan, s, l, x, y);
    calls := LateIsRefused(plan, s, l, AtRevoking(plan, y), AtRevoked(plan, x));
  }
}
