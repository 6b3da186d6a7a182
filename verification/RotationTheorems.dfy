/**
 Rotation safety over every run, with any number of crashes and recoveries: the
 evidence each target holds, and the barrier in front of the first revoke.
 */
module RotationTheorems {
  import opened SessionTypes
  import opened Rotations
  import Strings

  // ---------------------------------------------------------------- the plan's targets

  lemma {:induction false} ConnectorsClimb(plan: Plan, i: nat, j: nat)
    requires plan.Valid() && i < j < |plan.targets|
    ensures Strings.Less(plan.targets[i].connector, plan.targets[j].connector)
    decreases j - i
  {
    if i + 1 < j {
      ConnectorsClimb(plan, i, j - 1);
      Strings.LessIsTransitive(plan.targets[i].connector, plan.targets[j - 1].connector, plan.targets[j].connector);
    }
  }

  lemma ConnectorsDistinct(plan: Plan)
    requires plan.Valid()
    ensures forall i, j :: 0 <= i < j < |plan.targets| ==> plan.targets[i].connector != plan.targets[j].connector
  {
    forall i, j | 0 <= i < j < |plan.targets| ensures plan.targets[i].connector != plan.targets[j].connector {
      ConnectorsClimb(plan, i, j);
      Strings.LessIsStrict(plan.targets[i].connector, plan.targets[j].connector);
    }
  }

  lemma {:induction false} TrackedAt(targets: seq<Target>, i: nat)
    requires i < |targets| && forall i, j :: 0 <= i < j < |targets| ==> targets[i].connector != targets[j].connector
    ensures targets[i].connector in Tracked(targets) && Tracked(targets)[targets[i].connector] == Idle(targets[i])
    decreases |targets|
  {
    if i < |targets| - 1 { TrackedAt(targets[..|targets| - 1], i); }
  }

  lemma {:induction false} TrackedFrom(targets: seq<Target>, k: string)
    requires k in Tracked(targets)
    ensures exists i :: 0 <= i < |targets| && targets[i].connector == k && Tracked(targets)[k] == Idle(targets[i])
  {
    var n := |targets| - 1;
    if k == targets[n].connector {
      assert Tracked(targets)[k] == Idle(targets[n]);
    } else {
      TrackedFrom(targets[..n], k);
      var i :| 0 <= i < n && targets[..n][i].connector == k && Tracked(targets[..n])[k] == Idle(targets[..n][i]);
      assert targets[i].connector == k;
    }
  }

  lemma {:induction false} TrackedSize(targets: seq<Target>)
    requires forall i, j :: 0 <= i < j < |targets| ==> targets[i].connector != targets[j].connector
    ensures |Tracked(targets)| == |targets|
  {
    if targets != [] {
      var n := |targets| - 1;
      TrackedSize(targets[..n]);
      if targets[n].connector in Tracked(targets[..n]) {
        TrackedFrom(targets[..n], targets[n].connector);
        assert false;
      }
    }
  }

  lemma TrackedHolds(targets: seq<Target>)
    requires forall i, j :: 0 <= i < j < |targets| ==> targets[i].connector != targets[j].connector
    ensures forall i :: 0 <= i < |targets| ==>
            targets[i].connector in Tracked(targets) && Tracked(targets)[targets[i].connector] == Idle(targets[i])
    ensures forall k :: k in Tracked(targets) ==> exists i ::
            0 <= i < |targets| && targets[i].connector == k && Tracked(targets)[k] == Idle(targets[i])
    ensures |Tracked(targets)| == |targets|
  {
    forall i | 0 <= i < |targets| ensures targets[i].connector in Tracked(targets)
        && Tracked(targets)[targets[i].connector] == Idle(targets[i]) {
      TrackedAt(targets, i);
    }
    forall k | k in Tracked(targets) ensures exists i ::
        0 <= i < |targets| && targets[i].connector == k && Tracked(targets)[k] == Idle(targets[i]) {
      TrackedFrom(targets, k);
    }
    TrackedSize(targets);
  }

  lemma NewTracks(plan: Plan)
    requires plan.Valid()
    ensures NewCoordinator(plan).Tracks() && |NewCoordinator(plan).targets| == |plan.targets|
    ensures forall k :: k in NewCoordinator(plan).targets ==>
            NewCoordinator(plan).targets[k] == Idle(NewCoordinator(plan).targets[k].target)
  {
    ConnectorsDistinct(plan);
    TrackedHolds(plan.targets);
  }

  // ---------------------------------------------------------------- evidence

  function AsRecovered(t: TargetState): Recovered {
    Recovered(t, if t.challenge.Some? then t.challenge.value.overlapUntil
        else 0, if t.challenge.Some? then t.challenge.value.validUntil else 0)
  }

  /** Whatever a target holds in memory is in the durable store. */
  predicate Durable(t: TargetState, s: Store) {
    && (t.challenge.Some? ==> t.challenge.value in s.challenges)
    && (t.proof.Some? ==> t.proof.value in s.proofs)
    && (t.install.Some? ==> t.install.value in s.installs)
    && (t.ready.Some? ==> t.ready.value in s.readiness)
    && (t.revoke.Some? ==> t.revoke.value in s.revocations)
  }

  predicate Held(plan: Plan, t: TargetState, s: Store) { Acceptable(plan, AsRecovered(t)) && Durable(t, s) }

  predicate AllHeld(plan: Plan, targets: map<string, TargetState>, s: Store) {
    forall k :: k in targets ==> Held(plan, targets[k], s)
  }

  predicate Evident(c: Coordinator, s: Store) { c.Tracks() && AllHeld(c.plan, c.targets, s) }

  /** Only appending happens to the store. */
  predicate Grows(s: Store, s': Store) {
    s.started <= s'.started && s.challenges <= s'.challenges && s.proofs <= s'.proofs && s.installs <= s'.installs
    && s.readiness <= s'.readiness && s.revocations <= s'.revocations && s.results <= s'.results
  }

  lemma UpdateKeepsHeld(plan: Plan, targets: map<string, TargetState>, s: Store, s': Store, k: string, t: TargetState)
    requires AllHeld(plan, targets, s) && Grows(s, s') && Held(plan, t, s')
    ensures AllHeld(plan, targets[k := t], s')
  {
    forall j | j in targets ensures Held(plan, targets[j], s') { GrowKeepsDurable(targets[j], s, s'); }
  }

  lemma GrowKeepsDurable(t: TargetState, s: Store, s': Store)
    requires Durable(t, s) && Grows(s, s')
    ensures Durable(t, s')
  {
  }

  /** One call leaves the plan alone, only appends to the store, and keeps the evidence in order. */
  predicate Kept(c: Coordinator, s: Store, o: Outcome) {
    Evident(o.c, o.s) && Grows(s, o.s) && o.c.plan == c.plan && o.c.targets.Keys == c.targets.Keys
  }

  /** Failing a target keeps whatever evidence it already has. */
  lemma FailedIsAcceptable(plan: Plan, t: TargetState, code: Code)
    requires Acceptable(plan, AsRecovered(t)) && ValidCode(code)
    ensures Acceptable(plan, AsRecovered(t.(phase := Failed, code := code)))
  {
  }

  /** What a move writes is in the store it is committed to. */
  predicate WritesEvidence(t: TargetState, m: Move) {
    && (m.t.challenge == t.challenge || (m.write.WriteChallenge? && m.t.challenge == Some(m.write.challenge)))
    && (m.t.proof == t.proof || (m.write.WriteProof? && m.t.proof == Some(m.write.proof)))
    && (m.t.install == t.install || (m.write.WriteProof? && m.t.install == Some(m.write.install)))
    && (m.t.ready == t.ready || (m.write.WriteReady? && m.t.ready == Some(m.write.ready)))
    && (m.t.revoke == t.revoke || (m.write.WriteRevoke? && m.t.revoke == Some(m.write.revoke)))
  }

  lemma InstalledIsAcceptable(plan: Plan, t: TargetState, p: Proof, i: Install)
    requires Acceptable(plan, AsRecovered(t)) && t.phase == Challenged && t.challenge.Some?
             && p.Matches(t.challenge.value, t.target) && i.Valid()
    requires i.b == p.b.(account := plan.account, tunnel := plan.tunnel, operation := plan.operation,
             targetSetHash := plan.targetSetHash) && i.nonce == p.nonce
    ensures Acceptable(plan, AsRecovered(t.(proof := Some(p), install := Some(i), phase := Installed)))
  {
    assert p.b.connector == t.challenge.value.b.connector && p.b.host == t.challenge.value.b.host;
  }

  lemma ReadyIsAcceptable(plan: Plan, t: TargetState, r: Ready)
    requires Acceptable(plan, AsRecovered(t)) && t.phase == Installed && r.Valid() && Answers(plan, t, r)
    ensures Acceptable(plan, AsRecovered(t.(ready := Some(r), phase := IsReady)))
  {
  }

  lemma RevokingIsAcceptable(plan: Plan, t: TargetState, v: Revoke)
    requires Acceptable(plan, AsRecovered(t)) && t.phase == IsReady && t.ready.Some? && v.Valid()
    requires v.b == BindingOf(plan, t.target, t.ready.value.b.session, t.ready.value.b.process)
    ensures Acceptable(plan, AsRecovered(t.(revoke := Some(v), phase := Revoking)))
  {
  }

  predicate Lawful(plan: Plan, t: TargetState, m: Move) { Acceptable(plan, AsRecovered(m.t)) && WritesEvidence(t, m) }

  lemma BrokenLawful(plan: Plan, t: TargetState)
    requires Acceptable(plan, AsRecovered(t))
    ensures Lawful(plan, t, Broken(t)) && Lawful(plan, t, Stay(t))
  {
    FailedIsAcceptable(plan, t, RotationFailed);
  }

  lemma ChallengeLawful(plan: Plan, t: TargetState, now: int, call: Call)
    requires Acceptable(plan, AsRecovered(t)) && call.IssueChallenge?
    ensures Lawful(plan, t, ChallengeMove(plan, t, now, call))
  {
  }

  lemma ProofLawful(plan: Plan, t: TargetState, now: int, p: Proof, verified: bool, stored: bool)
    requires Acceptable(plan, AsRecovered(t))
    ensures Lawful(plan, t, ProofMove(plan, t, now, p, verified, stored))
  {
    var m := ProofMove(plan, t, now, p, verified, stored);
    BrokenLawful(plan, t);
    if m.ok { InstalledIsAcceptable(plan, t, p, m.write.install); }
  }

  lemma ReadyLawful(plan: Plan, t: TargetState, now: int, r: Ready, stored: bool)
    requires Acceptable(plan, AsRecovered(t))
    ensures Lawful(plan, t, ReadyMove(plan, t, now, r, stored))
  {
    BrokenLawful(plan, t);
    if ReadyMove(plan, t, now, r, stored).ok { ReadyIsAcceptable(plan, t, r); }
  }

  lemma RevokeLawful(plan: Plan, t: TargetState, now: int, nonce: string, nonceOk: bool, stored: bool)
    requires Acceptable(plan, AsRecovered(t))
    ensures Lawful(plan, t, RevokeMove(plan, t, now, nonce, nonceOk, stored))
  {
    var m := RevokeMove(plan, t, now, nonce, nonceOk, stored);
    BrokenLawful(plan, t);
    if m.write.WriteRevoke? { RevokingIsAcceptable(plan, t, m.write.revoke); }
  }

  lemma AckLawful(plan: Plan, t: TargetState, a: RotationAck, code: Code, stored: bool)
    requires Acceptable(plan, AsRecovered(t))
    ensures Lawful(plan, t, FailMove(t, code, stored)) && Lawful(plan, t, AckMove(plan, t, a, stored))
  {
    BrokenLawful(plan, t);
    if ValidCode(code) { FailedIsAcceptable(plan, t, code); }
    if ValidCode(a.code) { FailedIsAcceptable(plan, t, a.code); }
  }

  /**
   Every move of every target, store failures and negative acknowledgements included, ends in a
   state recovery accepts.
   */
  lemma MoveLawful(plan: Plan, t: TargetState, now: int, call: Call)
    requires Acceptable(plan, AsRecovered(t)) && !call.Start? && !call.Resume?
    ensures Lawful(plan, t, MoveOf(plan, t, now, call))
  {
    match call {
      case IssueChallenge(_, _, _, _, _, _, _, _, _, _, _, _) => ChallengeLawful(plan, t, now, call);
      case AcceptProof(p, verified, stored) => ProofLawful(plan, t, now, p, verified, stored);
      case MarkReady(r, stored) => ReadyLawful(plan, t, now, r, stored);
      case RequestRevoke(_, nonce, nonceOk, stored) => RevokeLawful(plan, t, now, nonce, nonceOk, stored);
      case HandleAck(a, stored) => AckLawful(plan, t, a, NoCode, stored);
      case Fail(_, code, stored) => if FailMove(t, code, stored) != Stay(t) { FailedIsAcceptable(plan, t, code); }
    }
  }

  lemma WriteGrows(s: Store, w: Write, c: Coordinator)
    requires c.Tracks()
    ensures var s' := Written(s, w, c);
            && Grows(s, s')
            && (w.WriteChallenge? ==> w.challenge in s'.challenges)
            && (w.WriteProof? ==> w.proof in s'.proofs && w.install in s'.installs)
            && (w.WriteReady? ==> w.ready in s'.readiness)
            && (w.WriteRevoke? ==> w.revoke in s'.revocations)
  {
  }

  lemma MoveDurable(t: TargetState, m: Move, s: Store, s': Store)
    requires Durable(t, s) && Grows(s, s') && WritesEvidence(t, m)
    requires m.write.WriteChallenge? ==> m.write.challenge in s'.challenges
    requires m.write.WriteProof? ==> m.write.proof in s'.proofs && m.write.install in s'.installs
    requires m.write.WriteReady? ==> m.write.ready in s'.readiness
    requires m.write.WriteRevoke? ==> m.write.revoke in s'.revocations
    ensures Durable(m.t, s')
  {
    GrowKeepsDurable(t, s, s');
  }

  lemma CommitKept(c: Coordinator, s: Store, now: int, k: string, m: Move)
    requires Evident(c, s) && k in c.targets && m.t.target == c.targets[k].target
    requires Lawful(c.plan, c.targets[k], m)
    ensures Kept(c, s, Commit(c, s, now, m))
  {
    PutKeepsTracks(c, m.t);
    var c' := Moved(c, now, m);
    assert c'.Tracks();
    var s' := Written(s, m.write, c');
    WriteGrows(s, m.write, c');
    MoveDurable(c.targets[k], m, s, s');
    UpdateKeepsHeld(c.plan, c.targets, s, s', k, m.t);
    assert Commit(c, s, now, m) == Outcome(c', s', m.ok, m.reply);
  }

  // ---------------------------------------------------------------- recovery reads only what was recorded

  lemma {:induction false} LastChallengeIn(xs: seq<Challenge>, op: string, k: string)
    ensures LastChallenge(xs, op, k).Some? ==> LastChallenge(xs, op, k).value in xs
  {
    if xs != [] { LastChallengeIn(xs[..|xs| - 1], op, k); }
  }

  lemma {:induction false} LastProofIn(ps: seq<Proof>, ins: seq<Install>, op: string, k: string)
    ensures var x := LastProof(ps, ins, op, k);
            x.Some? ==> x.value.0 in ps && (x.value.1.Some? ==> x.value.1.value in ins)
  {
    if ps != [] { LastProofIn(ps[..|ps| - 1], ins, op, k); }
  }

  lemma {:induction false} LastReadyIn(xs: seq<Ready>, op: string, k: string)
    ensures LastReady(xs, op, k).Some? ==> LastReady(xs, op, k).value in xs
  {
    if xs != [] { LastReadyIn(xs[..|xs| - 1], op, k); }
  }

  lemma {:induction false} LastRevokeIn(xs: seq<Revoke>, op: string, k: string)
    ensures LastRevoke(xs, op, k).Some? ==> LastRevoke(xs, op, k).value in xs
  {
    if xs != [] { LastRevokeIn(xs[..|xs| - 1], op, k); }
  }

  lemma LoadedIsDurable(s: Store, op: string, t: Target)
    ensures Durable(LoadTarget(s, op, t).t, s) && AsRecovered(LoadTarget(s, op, t).t) == LoadTarget(s, op, t)
  {
    LastChallengeIn(s.challenges, op, t.connector);
    LastProofIn(s.proofs, s.installs, op, t.connector);
    LastReadyIn(s.readiness, op, t.connector);
    LastRevokeIn(s.revocations, op, t.connector);
  }

  lemma {:induction false} AdoptKeepsHeld(plan: Plan, targets: map<string, TargetState>, s: Store, xs: seq<Recovered>)
    requires AllHeld(plan, targets, s) && forall i :: 0 <= i < |xs| ==> Held(plan, xs[i].t, s)
    ensures AllHeld(plan, Adopt(targets, xs), s)
    decreases |xs|
  {
    if xs != [] {
      var front, x := xs[..|xs| - 1], xs[|xs| - 1];
      AdoptKeepsHeld(plan, targets, s, front);
      UpdateKeepsHeld(plan, Adopt(targets, front), s, s, x.t.target.connector, x.t);
    }
  }

  predicate SameTargets(a: map<string, TargetState>, b: map<string, TargetState>) {
    a.Keys == b.Keys && forall k :: k in a ==> a[k].target == b[k].target
  }

  /** Adopting never changes which target stands under a connector. */
  lemma {:induction false} AdoptSameTargets(targets: map<string, TargetState>, xs: seq<Recovered>)
    requires forall i :: 0 <= i < |xs| ==>
             xs[i].t.target.connector in targets && targets[xs[i].t.target.connector].target == xs[i].t.target
    ensures SameTargets(targets, Adopt(targets, xs))
    decreases |xs|
  {
    if xs != [] { AdoptSameTargets(targets, xs[..|xs| - 1]); }
  }

  lemma ResumeKept(c: Coordinator, s: Store, now: int, stored: bool)
    requires Evident(c, s)
    ensures Kept(c, s, DoResume(c, s, now, stored))
  {
    var o := DoResume(c, s, now, stored);
    if o.c != c {
      var l := Load(s, c.plan).value;
      forall i | 0 <= i < |l.targets| ensures Held(c.plan, l.targets[i].t, s) {
        LoadedIsDurable(s, c.plan.operation, l.plan.targets[i]);
      }
      AdoptKeepsHeld(c.plan, c.targets, s, l.targets);
      AdoptSameTargets(c.targets, l.targets);
    }
  }

  lemma MoveCallKept(c: Coordinator, s: Store, now: int, k: string, call: Call)
    requires Evident(c, s) && !call.Start? && !call.Resume? && k in c.targets
    ensures Kept(c, s, Commit(c, s, now, MoveOf(c.plan, c.targets[k], now, call)))
  {
    var m := MoveOf(c.plan, c.targets[k], now, call);
    assert Lawful(c.plan, c.targets[k], m) by { MoveLawful(c.plan, c.targets[k], now, call); }
    CommitKept(c, s, now, k, m);
  }

  lemma StartKept(c: Coordinator, s: Store, stored: bool)
    requires Evident(c, s)
    ensures Kept(c, s, DoStart(c, s, stored))
  {
    var o := DoStart(c, s, stored);
    forall k | k in c.targets ensures Held(c.plan, c.targets[k], o.s) { GrowKeepsDurable(c.targets[k], s, o.s); }
  }

  lemma CallKept(c: Coordinator, s: Store, now: int, call: Call)
    requires Evident(c, s)
    ensures Kept(c, s, Perform(c, s, now, call))
  {
    if call.Start? {
      StartKept(c, s, call.stored);
    } else if call.Resume? {
      ResumeKept(c, s, now, call.stored);
    } else if Addressee(call) in c.targets && Admitted(c, call) {
      MoveCallKept(c, s, now, Addressee(call), call);
    }
  }

  // ---------------------------------------------------------------- runs with crashes

  /** A crash loses the coordinator; a new one for the same plan takes its place over the surviving store. */
  datatype Event = Do(now: int, call: Call) | Crash

  datatype World = World(c: Coordinator, s: Store)

  function Step(w: World, e: Event): World
    requires w.c.Tracks()
  {
    match e
    case Do(now, call) => var o := Perform(w.c, w.s, now, call); World(o.c, o.s)
    case Crash => World(NewCoordinator(w.c.plan), w.s)
  }

  lemma StepEvident(w: World, e: Event)
    requires Evident(w.c, w.s)
    ensures Evident(Step(w, e).c, Step(w, e).s) && Grows(w.s, Step(w, e).s) && Step(w, e).c.plan == w.c.plan
  {
    match e {
      case Do(now, call) => CallKept(w.c, w.s, now, call);
      case Crash => NewIsEvident(w.c.plan, w.s);
    }
  }

  lemma NewIsEvident(plan: Plan, s: Store)
    requires plan.Valid()
    ensures Evident(NewCoordinator(plan), s)
  {
    NewTracks(plan);
    var c := NewCoordinator(plan);
    forall k | k in c.targets ensures Held(plan, c.targets[k], s) {
      var i :| 0 <= i < |plan.targets| && plan.targets[i].connector == k;
      assert c.targets[k] == Idle(plan.targets[i]);
    }
  }

  ghost function Run(w: World, events: seq<Event>): (r: World)
    requires Evident(w.c, w.s)
    ensures Evident(r.c, r.s) && Grows(w.s, r.s) && r.c.plan == w.c.plan
    decreases |events|
  {
    if events == [] then w
    else
      StepEvident(w, events[0]);
      Run(Step(w, events[0]), events[1..])
  }

  /** A readiness report recorded for this target, answering an install recorded for this target. */
  predicate ReadyPair(plan: Plan, t: Target, r: Ready, i: Install) { r.b.For(plan, t) && i.b.For(plan, t) && r.Of(i) }

  ghost predicate Readied(s: Store, plan: Plan, t: Target) {
    exists r, i :: r in s.readiness && i in s.installs && ReadyPair(plan, t, r, i)
  }

  ghost predicate AllReadied(s: Store, plan: Plan) {
    forall i :: 0 <= i < |plan.targets| ==> Readied(s, plan, plan.targets[i])
  }

  predicate RevokedBy(s: Store, plan: Plan) {
    exists j :: 0 <= j < |s.revocations| && s.revocations[j].b.operation == plan.operation
  }

  lemma ReadyMeansRecorded(c: Coordinator, s: Store)
    requires Evident(c, s) && c.AllReady()
    ensures AllReadied(s, c.plan)
  {
    forall i | 0 <= i < |c.plan.targets| ensures Readied(s, c.plan, c.plan.targets[i]) {
      var t := c.targets[c.plan.targets[i].connector];
      assert Held(c.plan, t, s);
      assert ReadyPair(c.plan, t.target, t.ready.value, t.install.value);
    }
  }

  lemma CommitRevocations(c: Coordinator, s: Store, now: int, m: Move)
    requires c.Tracks() && m.t.target.connector in c.targets && m.t.target == c.targets[m.t.target.connector].target
             && !m.write.WriteRevoke?
    ensures Commit(c, s, now, m).s.revocations == s.revocations
  {
  }

  /** A revoke is recorded only when readiness for every target of the plan was recorded before it. */
  lemma RevokeNeedsBarrier(w: World, e: Event)
    requires Evident(w.c, w.s)
    ensures Step(w, e).s.revocations != w.s.revocations ==> AllReadied(w.s, w.c.plan)
  {
    if e.Do? && !e.call.Start? && !e.call.Resume? && Addressee(e.call) in w.c.targets && Admitted(w.c, e.call) {
      if e.call.RequestRevoke? {
        ReadyMeansRecorded(w.c, w.s);
      } else {
        CommitRevocations(w.c, w.s, e.now, MoveOf(w.c.plan, w.c.targets[Addressee(e.call)], e.now, e.call));
      }
    }
  }

  lemma ReadiedGrows(s: Store, s': Store, plan: Plan)
    requires Grows(s, s') && AllReadied(s, plan)
    ensures AllReadied(s', plan)
  {
    forall i | 0 <= i < |plan.targets| ensures Readied(s', plan, plan.targets[i]) {
      var r, x :| r in s.readiness && x in s.installs && ReadyPair(plan, plan.targets[i], r, x);
      assert r in s'.readiness && x in s'.installs;
    }
  }

  lemma {:induction false} BarrierHolds(w: World, events: seq<Event>)
    requires Evident(w.c, w.s) && (RevokedBy(w.s, w.c.plan) ==> AllReadied(w.s, w.c.plan))
    ensures var v := Run(w, events); RevokedBy(v.s, v.c.plan) ==> AllReadied(v.s, v.c.plan)
    decreases |events|
  {
    if events != [] {
      StepEvident(w, events[0]);
      var v := Step(w, events[0]);
      if RevokedBy(v.s, v.c.plan) {
        RevokeNeedsBarrier(w, events[0]);
        ReadiedGrows(w.s, v.s, w.c.plan);
      }
      BarrierHolds(v, events[1..]);
    }
  }

  /**
   The revoke barrier across crashes: in every run of an operation, whatever calls fail
   and however often the coordinator crashes and is resumed or restarted, the store holds
   a revoke of the operation only if it holds, for every target, a readiness report bound
   to an install of that same target.
   */
  lemma RevokeBarrier(plan: Plan, s: Store, events: seq<Event>)
    requires plan.Valid() && !RevokedBy(s, plan)
    ensures Evident(NewCoordinator(plan), s)
    ensures var v := Run(World(NewCoordinator(plan), s), events); RevokedBy(v.s, plan) ==> AllReadied(v.s, plan)
  {
    NewIsEvident(plan, s);
    BarrierHolds(World(NewCoordinator(plan), s), events);
  }

  /** Every target of every reachable coordinator is one recovery accepts, and its evidence is durable. */
  lemma EveryStateIsRecoverable(plan: Plan, s: Store, events: seq<Event>, k: string)
    requires plan.Valid()
    ensures Evident(NewCoordinator(plan), s)
    ensures var v := Run(World(NewCoordinator(plan), s), events);
            k in v.c.targets ==> Acceptable(plan, AsRecovered(v.c.targets[k])) && Durable(v.c.targets[k], v.s)
  {
    NewIsEvident(plan, s);
    var v := Run(World(NewCoordinator(plan), s), events);
    if k in v.c.targets { assert Held(plan, v.c.targets[k], v.s); }
  }
}
