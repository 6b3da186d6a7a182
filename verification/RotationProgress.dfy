/** The life of one started coordinator: phases only move forward, terminal phases stay, replies are durable. */
module RotationProgress {
  import opened SessionTypes
  import opened Rotations
  import opened RotationTheorems

  function Rank(p: Phase): nat {
    match p
    case Pending => 0 case Challenged => 1 case Installed => 2 case IsReady => 3
    case Revoking => 4 case Revoked => 5 case Failed => 6
  }

  /**
   `u` is a later state of the target `t`: further on, the same once terminal, with the same
   evidence once recorded.
   */
  predicate Later(t: TargetState, u: TargetState) {
    && u.target == t.target && Rank(t.phase) <= Rank(u.phase)
    && (t.phase == Revoked || t.phase == Failed ==> u == t)
    && (t.install.Some? ==> u.install == t.install) && (t.ready.Some? ==> u.ready == t.ready)
       && (t.revoke.Some? ==> u.revoke == t.revoke)
  }

  predicate AllLater(c: Coordinator, d: Coordinator) {
    c.targets.Keys == d.targets.Keys && forall k :: k in c.targets ==> Later(c.targets[k], d.targets[k])
  }

  lemma MoveLater(plan: Plan, t: TargetState, now: int, call: Call)
    requires Acceptable(plan, AsRecovered(t)) && !call.Start? && !call.Resume?
    ensures Later(t, MoveOf(plan, t, now, call).t)
  {
  }

  lemma CommitLater(c: Coordinator, s: Store, now: int, k: string, m: Move)
    requires c.Tracks() && k in c.targets && Later(c.targets[k], m.t)
    ensures AllLater(c, Commit(c, s, now, m).c) && Commit(c, s, now, m).c.started == c.started
  {
    var d := Commit(c, s, now, m).c;
    assert d.targets == c.targets[k := m.t];
  }

  /** A call to a target is refused, or commits that target's move. */
  lemma PerformIs(c: Coordinator, s: Store, now: int, call: Call)
    requires c.Tracks() && !call.Start? && !call.Resume?
    ensures var k := Addressee(call);
            Perform(c, s, now, call) ==
              if k in c.targets && Admitted(c, call) then Commit(c, s, now, MoveOf(c.plan, c.targets[k], now, call))
              else Outcome(c, s, false, NoReply)
  {
  }

  lemma MoveCallLater(c: Coordinator, s: Store, now: int, call: Call, k: string)
    requires Evident(c, s) && !call.Start? && !call.Resume? && k in c.targets
    ensures AllLater(c, Commit(c, s, now, MoveOf(c.plan, c.targets[k], now, call)).c)
    ensures Commit(c, s, now, MoveOf(c.plan, c.targets[k], now, call)).c.started == c.started
  {
    var t := c.targets[k];
    assert Later(t, MoveOf(c.plan, t, now, call).t) by {
      assert Held(c.plan, t, s);
      MoveLater(c.plan, t, now, call);
    }
    CommitLater(c, s, now, k, MoveOf(c.plan, t, now, call));
  }

  /** Outside of recovery, no call moves any target backwards. */
  lemma CallLater(c: Coordinator, s: Store, now: int, call: Call)
    requires Evident(c, s) && (c.started || !call.Resume?)
    ensures var d := Perform(c, s, now, call).c; AllLater(c, d) && (c.started ==> d.started)
  {
    if !call.Start? && !call.Resume? {
      PerformIs(c, s, now, call);
      if Addressee(call) in c.targets && Admitted(c, call) { MoveCallLater(c, s, now, call, Addressee(call)); }
    }
  }

  datatype Timed = Timed(now: int, call: Call)

  /** Calls on one coordinator, without a crash. */
  ghost function Life(w: World, calls: seq<Timed>): (v: World)
    requires Evident(w.c, w.s)
    ensures Evident(v.c, v.s) && Grows(w.s, v.s) && v.c.plan == w.c.plan
    decreases |calls|
  {
    if calls == [] then w
    else
      CallKept(w.c, w.s, calls[0].now, calls[0].call);
      Life(Step(w, Do(calls[0].now, calls[0].call)), calls[1..])
  }

  lemma StepLater(w: World, t: Timed)
    requires Evident(w.c, w.s) && w.c.started
    ensures var v := Step(w, Do(t.now, t.call)); Evident(v.c, v.s) && AllLater(w.c, v.c) && v.c.started
  {
    CallKept(w.c, w.s, t.now, t.call);
    CallLater(w.c, w.s, t.now, t.call);
  }

  lemma LaterStill(a: Coordinator, b: Coordinator, c: Coordinator)
    requires AllLater(a, b) && AllLater(b, c)
    ensures AllLater(a, c)
  {
    forall k | k in a.targets ensures Later(a.targets[k], c.targets[k]) {
      assert Later(a.targets[k], b.targets[k]) && Later(b.targets[k], c.targets[k]);
    }
  }

  /** Over the life of a started coordinator every target only moves forward, and failed and revoked are final. */
  lemma {:induction false} LifeMovesForward(w: World, calls: seq<Timed>)
    requires Evident(w.c, w.s) && w.c.started
    ensures AllLater(w.c, Life(w, calls).c) && Life(w, calls).c.started
    decreases |calls|
  {
    if calls != [] {
      StepLater(w, calls[0]);
      var v := Step(w, Do(calls[0].now, calls[0].call));
      LifeMovesForward(v, calls[1..]);
      LaterStill(w.c, v.c, Life(v, calls[1..]).c);
    }
  }

  lemma FailedStays(c: Coordinator, d: Coordinator)
    requires AllLater(c, d) && c.AnyFailed()
    ensures d.AnyFailed()
  {
    var k :| k in c.targets && c.targets[k].phase == Failed;
    assert Later(c.targets[k], d.targets[k]);
  }

  lemma RevokedStays(c: Coordinator, d: Coordinator)
    requires AllLater(c, d) && c.AllRevoked()
    ensures d.AllRevoked() && !d.AnyFailed()
  {
    forall k | k in d.targets ensures d.targets[k].phase == Revoked { assert Later(c.targets[k], d.targets[k]); }
  }

  /** A failed operation stays failed and a succeeded one succeeded. */
  lemma OutcomeIsFinal(w: World, calls: seq<Timed>)
    requires Evident(w.c, w.s) && w.c.started && StatusOf(w.c) != StatusPending
    ensures StatusOf(Life(w, calls).c) == StatusOf(w.c)
  {
    var d := Life(w, calls).c;
    assert AllLater(w.c, d) by { LifeMovesForward(w, calls); }
    if w.c.AnyFailed() { FailedStays(w.c, d); } else { RevokedStays(w.c, d); }
  }

  lemma RevokeRepeats(plan: Plan, t: TargetState, now: int, nonce: string, nonceOk: bool, stored: bool)
    requires Acceptable(plan, AsRecovered(t)) && t.revoke.Some?
    ensures var m := RevokeMove(plan, t, now, nonce, nonceOk, stored);
            m.write == WriteNothing && (m.ok ==> m.reply == RevokeReply(t.revoke.value))
  {
  }

  lemma CommitSame(c: Coordinator, s: Store, now: int, k: string, m: Move)
    requires c.Tracks() && k in c.targets && m.t.target == c.targets[k].target && m.write == WriteNothing
    ensures var o := Commit(c, s, now, m); o.s == s && o.ok == m.ok && o.reply == m.reply
  {
  }

  lemma NothingWritten(c: Coordinator, s: Store, now: int, call: Call, k: string, m: Move)
    requires c.Tracks() && !call.Start? && !call.Resume? && k == Addressee(call) && k in c.targets
    requires m == MoveOf(c.plan, c.targets[k], now, call) && m.write == WriteNothing
    ensures var o := Perform(c, s, now, call); o.s == s && (o.ok ==> m.ok && o.reply == m.reply)
  {
    PerformIs(c, s, now, call);
    CommitSame(c, s, now, k, m);
  }

  /** Once a target is being revoked, every later revoke call that answers returns that same request. */
  lemma SameRevokeAgain(w: World, calls: seq<Timed>, k: string, now: int, nonce: string, nonceOk: bool, stored: bool)
    requires Evident(w.c, w.s) && w.c.started && k in w.c.targets && w.c.targets[k].revoke.Some?
    ensures var v := Life(w, calls);
            var o := Perform(v.c, v.s, now, RequestRevoke(k, nonce, nonceOk, stored));
            o.s == v.s && (o.ok ==> o.reply == RevokeReply(w.c.targets[k].revoke.value))
  {
    LifeMovesForward(w, calls);
    var v, call := Life(w, calls), RequestRevoke(k, nonce, nonceOk, stored);
    assert Later(w.c.targets[k], v.c.targets[k]);
    assert Held(v.c.plan, v.c.targets[k], v.s);
    RevokeRepeats(v.c.plan, v.c.targets[k], now, nonce, nonceOk, stored);
    NothingWritten(v.c, v.s, now, call, k, MoveOf(v.c.plan, v.c.targets[k], now, call));
  }

  /** What a call hands out is already in the store. */
  predicate Backed(s: Store, r: Reply) {
    match r
    case ChallengeReply(c) => c in s.challenges
    case InstallReply(i) => i in s.installs
    case ReadyReply(x) => x in s.readiness
    case RevokeReply(v) => v in s.revocations
    case _ => true
  }

  predicate RepliesWithWrite(t: TargetState, m: Move) {
    match m.reply
    case ChallengeReply(c) => m.write == WriteChallenge(c)
    case InstallReply(i) => m.write.WriteProof? && m.write.install == i
    case ReadyReply(r) => m.write == WriteReady(r)
    case RevokeReply(v) => m.write == WriteRevoke(v) || t.revoke == Some(v)
    case _ => true
  }

  lemma MoveReplies(plan: Plan, t: TargetState, now: int, call: Call)
    requires !call.Start? && !call.Resume?
    ensures RepliesWithWrite(t, MoveOf(plan, t, now, call))
  {
  }

  lemma CommitBacked(c: Coordinator, s: Store, now: int, k: string, m: Move)
    requires Evident(c, s) && k in c.targets && m.t.target == c.targets[k].target && RepliesWithWrite(c.targets[k], m)
    ensures Backed(Commit(c, s, now, m).s, m.reply)
  {
    assert Held(c.plan, c.targets[k], s);
  }

  /** No challenge, install, readiness or revoke is returned before its durable record. */
  lemma NothingBeforeItsRecord(c: Coordinator, s: Store, now: int, call: Call)
    requires Evident(c, s)
    ensures Backed(Perform(c, s, now, call).s, Perform(c, s, now, call).reply)
  {
    if !call.Start? && !call.Resume? { PerformIs(c, s, now, call); }
    if !call.Start? && !call.Resume? && Addressee(call) in c.targets && Admitted(c, call) {
      var k := Addressee(call);
      MoveReplies(c.plan, c.targets[k], now, call);
      CommitBacked(c, s, now, k, MoveOf(c.plan, c.targets[k], now, call));
    }
  }
}
