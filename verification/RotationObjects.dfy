/** The in-memory rotation store and the coordinator object, against the value model. */
module RotationObjects {
  import opened SessionTypes
  import opened Rotations
  import opened RotationTheorems
  import opened Sequences

  class MemoryPersistence {
    var failing: bool
    var started: seq<Plan>
    var challenges: seq<Challenge>
    var proofs: seq<Proof>
    var installs: seq<Install>
    var readiness: seq<Ready>
    var revocations: seq<Revoke>
    var results: seq<Summary>

    constructor ()
      ensures !failing && View() == Store([], [], [], [], [], [], [])
    {
      failing, started, challenges, proofs, installs, readiness, revocations, results := false, [], [], [], [], [], [],
          [];
    }

    ghost function View(): Store
      reads this
    {
      Store(started, challenges, proofs, installs, readiness, revocations, results)
    }

    /** The plan first begun under an operation. */
    method FindPlan(operation: string) returns (r: Option<Plan>)
      ensures r == PlanFor(started, operation)
    {
      var i := 0;
      while i < |started|
        invariant 0 <= i <= |started| && PlanFor(started, operation) == PlanFor(started[i..], operation)
      {
        if started[i].operation == operation { return Some(started[i]); }
        assert started[i..][1..] == started[i + 1..];
        i := i + 1;
      }
      return None;
    }

    method Begin(plan: Plan) returns (ok: bool)
      modifies `started
      ensures (View(), ok) == if failing then (old(View()), false) else Rotations.Begin(old(View()), plan)
    {
      if failing { return false; }
      var begun := FindPlan(plan.operation);
      if begun.Some? { return SamePlan(begun.value, plan); }
      started := started + [plan];
      return true;
    }

    method RecordChallenge(c: Challenge) returns (ok: bool)
      modifies `challenges
      ensures ok == !failing && challenges == old(challenges) + if ok then [c] else []
    {
      ok := !failing;
      if ok { challenges := challenges + [c]; }
    }

    method RecordProof(p: Proof, i: Install) returns (ok: bool)
      modifies `proofs, `installs
      ensures ok == !failing && proofs == old(proofs) + (if ok then [p] else [])
              && installs == old(installs) + if ok then [i] else []
    {
      ok := !failing;
      if ok { proofs, installs := proofs + [p], installs + [i]; }
    }

    method RecordReady(r: Ready) returns (ok: bool)
      modifies `readiness
      ensures ok == !failing && readiness == old(readiness) + if ok then [r] else []
    {
      ok := !failing;
      if ok { readiness := readiness + [r]; }
    }

    method RecordRevoke(v: Revoke) returns (ok: bool)
      modifies `revocations
      ensures ok == !failing && revocations == old(revocations) + if ok then [v] else []
    {
      ok := !failing;
      if ok { revocations := revocations + [v]; }
    }

    method RecordResult(s: Summary) returns (ok: bool)
      modifies `results
      ensures ok == !failing && results == old(results) + if ok then [s] else []
    {
      ok := !failing;
      if ok { results := results + [s]; }
    }

    method ScanChallenges(op: string, k: string) returns (r: Option<Challenge>)
      ensures r == LastChallenge(challenges, op, k)
    {
      r := None;
      for i := 0 to |challenges|
        invariant r == LastChallenge(challenges[..i], op, k)
      {
        Prefix(challenges, i);
        if challenges[i].b.operation == op && challenges[i].b.connector == k { r := Some(challenges[i]); }
      }
      assert challenges[..|challenges|] == challenges;
    }

    method ScanProofs(op: string, k: string) returns (r: Option<(Proof, Option<Install>)>)
      ensures r == LastProof(proofs, installs, op, k)
    {
      r := None;
      for i := 0 to |proofs|
        invariant r == LastProof(proofs[..i], installs, op, k)
      {
        Prefix(proofs, i);
        if proofs[i].b.operation == op && proofs[i].b.connector == k {
          r := Some((proofs[i], if i < |installs| then Some(installs[i]) else None));
        }
      }
      assert proofs[..|proofs|] == proofs;
    }

    method ScanReadiness(op: string, k: string) returns (r: Option<Ready>)
      ensures r == LastReady(readiness, op, k)
    {
      r := None;
      for i := 0 to |readiness|
        invariant r == LastReady(readiness[..i], op, k)
      {
        Prefix(readiness, i);
        if readiness[i].b.operation == op && readiness[i].b.connector == k { r := Some(readiness[i]); }
      }
      assert readiness[..|readiness|] == readiness;
    }

    method ScanLines(lines: seq<SummaryLine>, k: string, before: Option<SummaryLine>) returns (r: Option<SummaryLine>)
      ensures r == if LineFor(lines, k).Some? then LineFor(lines, k) else before
    {
      r := before;
      for i := 0 to |lines|
        invariant r == if LineFor(lines[..i], k).Some? then LineFor(lines[..i], k) else before
      {
        Prefix(lines, i);
        if lines[i].connector == k { r := Some(lines[i]); }
      }
      assert lines[..|lines|] == lines;
    }

    method ScanResults(op: string, k: string) returns (r: Option<SummaryLine>)
      ensures r == Overlay(results, op, k)
    {
      r := None;
      for i := 0 to |results|
        invariant r == Overlay(results[..i], op, k)
      {
        Prefix(results, i);
        if results[i].operation == op { r := ScanLines(results[i].lines, k, r); }
      }
      assert results[..|results|] == results;
    }

    /** Each matching revoke is overlaid by the results as they stand. */
    method ScanRevocations(op: string, k: string) returns (r: Option<Revoke>, line: Option<SummaryLine>)
      ensures r == LastRevoke(revocations, op, k) && line == if r.Some? then Overlay(results, op, k) else None
    {
      r, line := None, None;
      for i := 0 to |revocations|
        invariant r == LastRevoke(revocations[..i], op, k) && line == if r.Some? then Overlay(results, op, k) else None
      {
        Prefix(revocations, i);
        if revocations[i].b.operation == op && revocations[i].b.connector == k {
          r := Some(revocations[i]);
          line := ScanResults(op, k);
        }
      }
      assert revocations[..|revocations|] == revocations;
    }

    method ScanFinished(op: string) returns (at: int)
      ensures at == FinishedAt(results, op)
    {
      at := 0;
      for i := 0 to |results|
        invariant at == FinishedAt(results[..i], op)
      {
        Prefix(results, i);
        if results[i].operation == op && results[i].status == StatusSucceeded { at := results[i].completedAt; }
      }
      assert results[..|results|] == results;
    }

    method LoadOne(op: string, t: Target) returns (x: Recovered)
      ensures x == LoadTarget(View(), op, t)
    {
      var state := Idle(t);
      var overlap, valid := 0, 0;
      var c := ScanChallenges(op, t.connector);
      if c.Some? {
        state := state.(challenge := c, phase := Challenged);
        overlap, valid := c.value.overlapUntil, c.value.validUntil;
      }
      var p := ScanProofs(op, t.connector);
      if p.Some? { state := state.(proof := Some(p.value.0), install := p.value.1, phase := Installed); }
      var r := ScanReadiness(op, t.connector);
      if r.Some? { state := state.(ready := r, phase := IsReady); }
      var v, line := ScanRevocations(op, t.connector);
      if v.Some? {
        state := state.(revoke := v, phase := Revoking);
        if line.Some? { state := state.(phase := line.value.phase, code := line.value.code); }
      }
      x := Recovered(state, overlap, valid);
    }

    method Load(plan: Plan) returns (r: Option<Resumed>)
      ensures r == if failing then None else Rotations.Load(View(), plan)
    {
      if failing { return None; }
      var begun := FindPlan(plan.operation);
      if begun.None? || !SamePlan(begun.value, plan) { return None; }
      var xs: seq<Recovered> := [];
      for i := 0 to |begun.value.targets|
        invariant |xs| == i
        invariant forall j :: 0 <= j < i ==> xs[j] == LoadTarget(View(), plan.operation, begun.value.targets[j])
      {
        var x := LoadOne(plan.operation, begun.value.targets[i]);
        xs := xs + [x];
      }
      var at := ScanFinished(plan.operation);
      assert xs == Rotations.Load(View(), plan).value.targets;
      r := Some(Resumed(begun.value, at, xs));
    }
  }

  class RotationCoordinator {
    const plan: Plan
    const store: MemoryPersistence
    var started: bool
    var finished: int
    var targets: map<string, TargetState>

    ghost function View(): Coordinator
      reads this
    {
      Coordinator(plan, started, finished, targets)
    }

    ghost predicate Valid()
      reads this
    {
      View().Tracks()
    }

    constructor (plan: Plan, store: MemoryPersistence)
      requires plan.Valid()
      ensures Valid() && View() == NewCoordinator(plan) && this.store == store
    {
      this.plan, this.store := plan, store;
      started, finished, targets := false, 0, map[];
      new;
      for i := 0 to |plan.targets|
        invariant targets == Tracked(plan.targets[..i]) && !started && finished == 0
      {
        Prefix(plan.targets, i);
        targets := targets[plan.targets[i].connector := Idle(plan.targets[i])];
      }
      assert plan.targets[..|plan.targets|] == plan.targets;
      NewTracks(plan);
    }

    method Start() returns (ok: bool)
      requires Valid()
      modifies `started, store`started
      ensures Outcome(View(), store.View(), ok, NoReply) == DoStart(old(View()), old(store.View()), !store.failing)
    {
      if started { return true; }
      ok := store.Begin(plan);
      if ok { started := true; }
    }

    /** The aggregate, with one line per target in plan order. */
    method Summarise() returns (r: Summary)
      requires Valid()
      ensures r == SummaryOf(View())
    {
      var lines: seq<SummaryLine> := [];
      var failed, succeeded := false, true;
      for i := 0 to |plan.targets|
        invariant lines == Lines(View(), i) && failed == FailedBefore(View(), i)
                  && succeeded == RevokedBefore(View(), i)
      {
        var t := targets[plan.targets[i].connector];
        lines := lines + [SummaryLine(t.target.connector, t.phase, t.code)];
        if t.phase == Failed { failed := true; }
        if t.phase != Revoked { succeeded := false; }
      }
      StatusByPlan(View());
      var status := if failed then StatusFailed else if succeeded then StatusSucceeded else StatusPending;
      r := Summary(plan.operation, status, lines, if !failed && succeeded then finished else 0);
    }

    method AllReady() returns (r: bool)
      ensures r == View().AllReady()
    {
      var left := targets.Keys;
      while left != {}
        invariant left <= targets.Keys
        invariant forall k :: k in targets && k !in left ==>
                  targets[k].phase == IsReady || targets[k].phase == Revoking || targets[k].phase == Revoked
        decreases |left|
      {
        var k :| k in left;
        if targets[k].phase != IsReady && targets[k].phase != Revoking && targets[k].phase != Revoked { return false; }
        left := left - {k};
      }
      return true;
    }

    /** Replace the record of one target. */
    method Set(t: TargetState)
      requires Valid() && t.target.connector in targets && t.target == targets[t.target.connector].target
      modifies `targets
      ensures Valid() && View() == Put(old(View()), t)
    {
      PutKeepsTracks(View(), t);
      targets := targets[t.target.connector := t];
    }

    method IssueChallenge(now: int, call: Call) returns (ok: bool, reply: Reply)
      requires Valid() && call.IssueChallenge? && call.stored == !store.failing
      modifies `targets, store`challenges
      ensures Valid() && Outcome(View(), store.View(), ok, reply) == Perform(old(View()), old(store.View()), now, call)
    {
      if !started || call.connector !in targets { return false, NoReply; }
      var t := targets[call.connector];
      StayChangesNothing(View(), store.View(), now, t);
      if t.phase != Pending {
        if t.phase != Challenged || t.challenge.None? || t.challenge.value.expiresAt == 0
           || now < t.challenge.value.expiresAt {
          return false, NoReply;
        }
      }
      var c := Challenge(BindingOf(plan, t.target, call.session, call.process), t.target, call.oldKey, call.nonce,
          call.issuedAt,
                         call.expiresAt, call.overlapUntil, call.validUntil, call.wellFormed);
      if !c.Valid() || !c.Fresh(now) || !call.authorized { return false, NoReply; }
      var stored := store.RecordChallenge(c);
      if !stored { return false, NoReply; }
      Set(t.(challenge := Some(c), phase := Challenged));
      return true, ChallengeReply(c);
    }

    method AcceptProof(now: int, p: Proof, verified: bool) returns (ok: bool, reply: Reply)
      requires Valid()
      modifies `targets, store`proofs, store`installs
      ensures Valid()
      ensures Outcome(View(), store.View(), ok, reply)
              == Perform(old(View()), old(store.View()), now, Call.AcceptProof(p, verified, !store.failing))
    {
      ProofIs(View(), store.View(), now, p, verified, !store.failing);
      if p.b.connector !in targets { return false, NoReply; }
      var t := targets[p.b.connector];
      StayChangesNothing(View(), store.View(), now, t);
      if !p.Valid(now) || t.phase != Challenged || t.challenge.None? { return false, NoReply; }
      if !p.Matches(t.challenge.value, t.target) || !verified { return false, NoReply; }
      var i := InstallFor(plan, p, t.challenge.value);
      if !i.Valid() || i.overlapUntil <= now { return false, NoReply; }
      ok, reply := CommitProof(now, t, p, i);
    }

    /** Recording the proof is committing its move. */
    method CommitProof(now: int, t: TargetState, p: Proof, i: Install) returns (ok: bool, reply: Reply)
      requires Valid() && t.target.connector in targets && targets[t.target.connector] == t
      modifies `targets, store`proofs, store`installs
      ensures Valid()
      ensures Outcome(View(), store.View(), ok, reply)
              == Commit(old(View()), old(store.View()), now, Proved(t, p, i, !store.failing))
    {
      ok := RecordProof(t, p, i);
      reply := if ok then InstallReply(i) else NoReply;
    }

    /** The proof and its install are recorded before the target moves; a store failure fails the target. */
    method RecordProof(t: TargetState, p: Proof, i: Install) returns (stored: bool)
      requires Valid() && t.target.connector in targets && targets[t.target.connector] == t
      modifies `targets, store`proofs, store`installs
      ensures Valid() && stored == !store.failing
      ensures View() == Put(old(View()), if stored then t.(proof := Some(p), install := Some(i), phase := Installed)
              else t.(phase := Failed, code := RotationFailed))
      ensures store.proofs == old(store.proofs) + (if stored then [p] else [])
              && store.installs == old(store.installs) + if stored then [i] else []
    {
      stored := store.RecordProof(p, i);
      if !stored {
        Set(t.(phase := Failed, code := RotationFailed));
        return;
      }
      Set(t.(proof := Some(p), install := Some(i), phase := Installed));
    }

    method MarkReady(now: int, r: Ready) returns (ok: bool, reply: Reply)
      requires Valid()
      modifies `targets, store`readiness
      ensures Valid() && Outcome(View(), store.View(), ok, reply)
              == Perform(old(View()), old(store.View()), now, Call.MarkReady(r, !store.failing))
    {
      if r.b.connector !in targets { return false, NoReply; }
      var t := targets[r.b.connector];
      StayChangesNothing(View(), store.View(), now, t);
      if !r.Valid() || !r.Fresh(now) || t.phase != Installed || !Answers(plan, t, r) { return false, NoReply; }
      var stored := store.RecordReady(r);
      if !stored {
        Set(t.(phase := Failed, code := RotationFailed));
        return false, NoReply;
      }
      Set(t.(ready := Some(r), phase := IsReady));
      return true, ReadyReply(r);
    }

    method Revoke(now: int, connector: string, nonce: string, nonceOk: bool) returns (ok: bool, reply: Reply)
      requires Valid()
      modifies `targets, store`revocations
      ensures Valid()
      ensures Outcome(View(), store.View(), ok, reply)
              == Perform(old(View()), old(store.View()), now, RequestRevoke(connector, nonce, nonceOk, !store.failing))
    {
      RevokeIs(View(), store.View(), now, connector, nonce, nonceOk, !store.failing);
      if connector !in targets { return false, NoReply; }
      var admitted := MayRevoke();
      if !admitted { return false, NoReply; }
      ok, reply := RevokeReady(now, connector, nonce, nonceOk);
    }

    /** The barrier: nothing failed and every target is ready or further. */
    method MayRevoke() returns (r: bool)
      requires Valid()
      ensures r == (StatusOf(View()) != StatusFailed && View().AllReady())
    {
      var summary := Summarise();
      if summary.status == StatusFailed { return false; }
      r := AllReady();
    }

    method RevokeReady(now: int, connector: string, nonce: string, nonceOk: bool) returns (ok: bool, reply: Reply)
      requires Valid() && connector in targets
      modifies `targets, store`revocations
      ensures Valid()
      ensures Outcome(View(), store.View(), ok, reply)
           == Commit(old(View()), old(store.View()), now,
               RevokeMove(plan, old(targets)[connector], now, nonce, nonceOk, !store.failing))
    {
      var t := targets[connector];
      StayChangesNothing(View(), store.View(), now, t);
      if t.phase == Revoking && t.revoke.Some? {
        Set(t);
        return true, RevokeReply(t.revoke.value);
      }
      if t.phase != IsReady || t.ready.None? || !nonceOk { return false, NoReply; }
      var v := Rotations.Revoke.Revoke(BindingOf(plan, t.target, t.ready.value.b.session, t.ready.value.b.process),
          nonce, now, now + ABORT_TIMEOUT, true);
      if !v.Valid() { return false, NoReply; }
      var stored := store.RecordRevoke(v);
      if !stored {
        Set(t.(phase := Failed, code := RotationFailed));
        return false, NoReply;
      }
      Set(t.(revoke := Some(v), phase := Revoking));
      return true, RevokeReply(v);
    }

    /** Mark a target failed, record the result, and undo the mark when it cannot be recorded. */
    method FailTarget(now: int, connector: string, code: Code)
      requires Valid() && connector in targets
      modifies `targets, store`results
      ensures Valid()
      ensures Outcome(View(), store.View(), false, NoReply)
              == Commit(old(View()), old(store.View()), now, FailMove(old(targets)[connector], code, !store.failing))
    {
      var t := targets[connector];
      StayChangesNothing(View(), store.View(), now, t);
      if t.phase == Revoked || t.phase == Failed || !ValidCode(code) { return; }
      MarkFailed(now, t, code);
    }

    method MarkFailed(now: int, t: TargetState, code: Code)
      requires Valid() && t.target.connector in targets && targets[t.target.connector] == t
      modifies `targets, store`results
      ensures Valid() && View() == if store.failing then old(View())
              else Put(old(View()), t.(phase := Failed, code := code))
      ensures store.results == old(store.results) + if store.failing then [] else [SummaryOf(View())]
    {
      Set(t.(phase := Failed, code := code));
      var summary := Summarise();
      var stored := store.RecordResult(summary);
      if !stored {
        Refuse(old(View()), t.(phase := Failed, code := code), t);
        SameRecord(old(View()), t);
      }
    }

    method HandleAck(now: int, a: RotationAck) returns (ok: bool)
      requires Valid()
      modifies `targets, `finished, store`results
      ensures Valid()
      ensures Outcome(View(), store.View(), ok, NoReply)
              == Perform(old(View()), old(store.View()), now, Call.HandleAck(a, !store.failing))
    {
      AckIs(View(), store.View(), now, a, !store.failing);
      if a.b.connector !in targets { return false; }
      ok := AckTarget(now, a, targets[a.b.connector]);
    }

    method AckTarget(now: int, a: RotationAck, t: TargetState) returns (ok: bool)
      requires Valid() && t.target.connector == a.b.connector && a.b.connector in targets && targets[a.b.connector] == t
      modifies `targets, `finished, store`results
      ensures Valid()
      ensures Outcome(View(), store.View(), ok, NoReply)
              == Commit(old(View()), old(store.View()), now, AckMove(plan, t, a, !store.failing))
    {
      StayChangesNothing(View(), store.View(), now, t);
      if !a.Valid() || !a.b.For(plan, t.target) || t.phase == Revoked || t.phase == Failed { return false; }
      var from := Some((a.b.session, a.b.process));
      if a.Negative() {
        if Speaker(t) == from { FailTarget(now, a.b.connector, a.code); }
        return false;
      }
      if a.status == SaysInstalled {
        return t.phase == Installed && t.install.Some?
            && from == Some((t.install.value.b.session, t.install.value.b.process));
      }
      if a.status == SaysReady { return t.phase == IsReady && Speaker(t) == from; }
      if a.status != SaysRevoked || t.phase != Revoking || Speaker(t) != from { return false; }
      FinishOutcome(View(), store.View(), now, t);
      ok := FinishTarget(now, t);
    }

    /** The last step of a target, and of the operation when it was the last target. */
    method FinishTarget(now: int, t: TargetState) returns (ok: bool)
      requires Valid() && t.target.connector in targets && targets[t.target.connector] == t
      modifies `targets, `finished, store`results
      ensures Outcome(View(), store.View(), ok, NoReply)
              == Finish(old(View()), old(store.View()), now, t, !store.failing)
    {
      Set(t.(phase := Revoked));
      var summary := Complete(now);
      ok := store.RecordResult(summary);
      if !ok { Refuse(old(View()), t.(phase := Revoked), t.(phase := Failed, code := RotationFailed)); }
    }

    /** The result could not be recorded: the target's record `u` becomes `v` instead. */
    method Refuse(ghost before: Coordinator, u: TargetState, v: TargetState)
      requires View() == Put(before, u).(finished := finished) && u.target == v.target
      modifies `targets
      ensures View() == Put(before, v).(finished := finished)
    {
      targets := targets[v.target.connector := v];
      assert targets == before.targets[v.target.connector := v];
    }

    /** Stamp the completion time once every target is revoked. */
    method Complete(now: int) returns (summary: Summary)
      requires Valid()
      modifies `finished
      ensures Valid() && View() == Stamped(old(View()), now) && summary == SummaryOf(View())
    {
      SummaryAt(View(), now);
      summary := Summarise();
      if summary.status == StatusSucceeded {
        finished := now;
        summary := summary.(completedAt := finished);
      }
    }

    method Resume(now: int) returns (ok: bool)
      requires Valid()
      modifies `started, `finished, `targets
      ensures Outcome(View(), store.View(), ok, NoReply)
              == DoResume(old(View()), old(store.View()), now, !store.failing)
    {
      var loaded := store.Load(plan);
      if loaded.None? { return false; }
      var l := loaded.value;
      if !l.plan.Valid() || !SamePlan(l.plan, plan) || l.plan.operation != plan.operation { return false; }
      if started { return true; }
      var fits := CheckRecovered(l, now);
      if !fits { return false; }
      AdoptTargets(l.targets);
      started, finished := true, l.finishedAt;
      return true;
    }

    /** Every recovered target is tracked, acceptable and named once. */
    method CheckTargets(xs: seq<Recovered>) returns (fits: bool)
      ensures fits == (Distinct(xs) && forall i :: 0 <= i < |xs| ==> Fits(View(), xs[i]))
    {
      var seen: set<string> := {};
      for i := 0 to |xs|
        invariant forall j :: 0 <= j < i ==> xs[j].t.target.connector in seen
        invariant forall k :: k in seen ==> exists j :: 0 <= j < i && xs[j].t.target.connector == k
        invariant forall a, b :: 0 <= a < b < i ==> xs[a].t.target.connector != xs[b].t.target.connector
        invariant forall j :: 0 <= j < i ==> Fits(View(), xs[j])
      {
        var x := xs[i];
        if x.t.target.connector in seen { return false; }
        seen := seen + {x.t.target.connector};
        if x.t.target.connector !in targets || targets[x.t.target.connector].target != x.t.target
           || !Acceptable(plan, x) {
          return false;
        }
      }
      return true;
    }

    method CheckRecovered(l: Resumed, now: int) returns (fits: bool)
      requires Valid() && l.plan.Valid() && SamePlan(l.plan, plan) && l.plan.operation == plan.operation
      ensures fits == Resumable(View(), l, now)
    {
      if |l.targets| != |targets| { return false; }
      fits := CheckTargets(l.targets);
      if !fits || l.finishedAt == 0 { return; }
      fits := CheckFinished(l.targets);
      fits := fits && l.finishedAt <= now + MAX_CLOCK_SKEW;
    }

    method CheckFinished(xs: seq<Recovered>) returns (fits: bool)
      ensures fits == Over(xs)
    {
      var failed, revoked := false, true;
      for i := 0 to |xs|
        invariant failed <==> exists j :: 0 <= j < i && xs[j].t.phase == Failed
        invariant revoked <==> forall j :: 0 <= j < i ==> xs[j].t.phase == Revoked
      {
        if xs[i].t.phase == Failed { failed := true; }
        if xs[i].t.phase != Revoked { revoked := false; }
      }
      return failed || revoked;
    }

    method AdoptTargets(xs: seq<Recovered>)
      modifies `targets
      ensures targets == Adopt(old(targets), xs)
    {
      for i := 0 to |xs|
        invariant targets == Adopt(old(targets), xs[..i])
      {
        Prefix(xs, i);
        targets := targets[xs[i].t.target.connector := xs[i].t];
      }
      assert xs[..|xs|] == xs;
    }

    method Fail(now: int, connector: string, code: Code)
      requires Valid()
      modifies `targets, store`results
      ensures Valid()
      ensures Outcome(View(), store.View(), false, NoReply)
              == Perform(old(View()), old(store.View()), now, Call.Fail(connector, code, !store.failing))
    {
      if connector in targets { FailTarget(now, connector, code); }
    }
  }

  lemma RevokeIs(c: Coordinator, s: Store, now: int, k: string, nonce: string, nonceOk: bool, stored: bool)
    requires c.Tracks()
    ensures Perform(c, s, now, RequestRevoke(k, nonce, nonceOk, stored))
         == if k !in c.targets || StatusOf(c) == StatusFailed || !c.AllReady() then Outcome(c, s, false, NoReply)
            else Commit(c, s, now, RevokeMove(c.plan, c.targets[k], now, nonce, nonceOk, stored))
  {
  }

  lemma ProofIs(c: Coordinator, s: Store, now: int, p: Proof, verified: bool, stored: bool)
    requires c.Tracks()
    ensures Perform(c, s, now, Call.AcceptProof(p, verified, stored))
         == if p.b.connector !in c.targets then Outcome(c, s, false, NoReply)
            else Commit(c, s, now, ProofMove(c.plan, c.targets[p.b.connector], now, p, verified, stored))
  {
  }

  lemma AckIs(c: Coordinator, s: Store, now: int, a: RotationAck, stored: bool)
    requires c.Tracks()
    ensures Perform(c, s, now, Call.HandleAck(a, stored))
         == if a.b.connector !in c.targets then Outcome(c, s, false, NoReply)
            else Commit(c, s, now, AckMove(c.plan, c.targets[a.b.connector], a, stored))
  {
  }

  lemma SameRecord(c: Coordinator, t: TargetState)
    requires t.target.connector in c.targets && c.targets[t.target.connector] == t
    ensures Put(c, t) == c
  {
    assert c.targets[t.target.connector := t] == c.targets;
  }

  lemma StayChangesNothing(c: Coordinator, s: Store, now: int, t: TargetState)
    requires c.Tracks() && t.target.connector in c.targets && c.targets[t.target.connector] == t
    ensures Commit(c, s, now, Stay(t)) == Outcome(c, s, false, NoReply)
  {
    assert c.targets[t.target.connector := t] == c.targets;
  }

  /** Recovered phases of a finished operation. */
  predicate Over(xs: seq<Recovered>) {
    (exists i :: 0 <= i < |xs| && xs[i].t.phase == Failed) || (forall i :: 0 <= i < |xs| ==> xs[i].t.phase == Revoked)
  }

  /** A target's last acknowledgement, with the store up or down. */
  function Stamped(d: Coordinator, now: int): Coordinator { d.(finished := if d.AllRevoked() then now else d.finished) }

  function Finish(c: Coordinator, s: Store, now: int, t: TargetState, stored: bool): Outcome
    requires c.Tracks() && t.target.connector in c.targets && c.targets[t.target.connector] == t
  {
    PutKeepsTracks(c, t.(phase := Revoked));
    var e := Stamped(Put(c, t.(phase := Revoked)), now);
    assert e.Tracks();
    if stored then Outcome(e, s.(results := s.results + [SummaryOf(e)]), true, NoReply)
    else Outcome(Put(c, t.(phase := Failed, code := RotationFailed)).(finished := e.finished), s, false, NoReply)
  }

  lemma FinishOutcome(c: Coordinator, s: Store, now: int, t: TargetState)
    requires c.Tracks() && t.target.connector in c.targets && c.targets[t.target.connector] == t
    ensures Finish(c, s, now, t, false).c.Tracks() && Finish(c, s, now, t, true).c.Tracks()
    ensures Finish(c, s, now, t, false) == Commit(c, s, now, Broken(t).(last := true))
    ensures Finish(c, s, now, t, true) == Commit(c, s, now,
            Move(t.(phase := Revoked), WriteResult, true, NoReply, true))
  {
    FinishStored(c, s, now, t);
    PutKeepsTracks(c, t.(phase := Failed, code := RotationFailed));
    AllRevokedIgnoresCode(c, t.(phase := Revoked), t.(phase := Failed, code := RotationFailed).(phase := Revoked));
  }

  lemma FinishStored(c: Coordinator, s: Store, now: int, t: TargetState)
    requires c.Tracks() && t.target.connector in c.targets && c.targets[t.target.connector] == t
    ensures Finish(c, s, now, t, true).c.Tracks()
    ensures Finish(c, s, now, t, true) == Commit(c, s, now,
            Move(t.(phase := Revoked), WriteResult, true, NoReply, true))
  {
    PutKeepsTracks(c, t.(phase := Revoked));
    assert t.(phase := Revoked).(phase := Revoked) == t.(phase := Revoked);
  }

  /** Setting the completion time changes a summary only there. */
  lemma SummaryAt(c: Coordinator, now: int)
    requires c.Tracks()
    ensures c.(finished := now).Tracks()
    ensures SummaryOf(c.(finished := now)) == SummaryOf(c).(completedAt := if StatusOf(c) == StatusSucceeded then now
            else 0)
    ensures StatusOf(c) == StatusSucceeded <==> c.AllRevoked()
  {
    assert SummaryOf(c.(finished := now)).lines == SummaryOf(c).lines;
    var j := 0;
    assert c.plan.targets[j].connector in c.targets;
  }

  lemma AllRevokedIgnoresCode(c: Coordinator, t: TargetState, u: TargetState)
    requires t.target == u.target && t.phase == u.phase == Revoked
    ensures Put(c, t).AllRevoked() == Put(c, u).AllRevoked()
  {
    var k := t.target.connector;
    assert forall j :: j in c.targets && j != k ==> Put(c, t).targets[j] == c.targets[j] == Put(c, u).targets[j];
    assert Put(c, t).targets[k] == t && Put(c, u).targets[k] == u;
    assert forall j :: j in Put(c, t).targets <==> j in Put(c, u).targets;
  }

  function Lines(c: Coordinator, n: nat): seq<SummaryLine>
    requires c.Tracks() && n <= |c.plan.targets|
  {
    if n == 0 then [] else var t := c.targets[c.plan.targets[n - 1].connector];
        Lines(c, n - 1) + [SummaryLine(t.target.connector, t.phase, t.code)]
  }

  predicate FailedBefore(c: Coordinator, n: nat)
    requires c.Tracks() && n <= |c.plan.targets|
  {
    n != 0 && (FailedBefore(c, n - 1) || c.targets[c.plan.targets[n - 1].connector].phase == Failed)
  }

  predicate RevokedBefore(c: Coordinator, n: nat)
    requires c.Tracks() && n <= |c.plan.targets|
  {
    n != 0 ==> RevokedBefore(c, n - 1) && c.targets[c.plan.targets[n - 1].connector].phase == Revoked
  }

  lemma {:induction false} FailedMeans(c: Coordinator, n: nat)
    requires c.Tracks() && n <= |c.plan.targets|
    ensures FailedBefore(c, n) <==> exists j :: 0 <= j < n && c.targets[c.plan.targets[j].connector].phase == Failed
  {
    if n != 0 { FailedMeans(c, n - 1); }
  }

  lemma {:induction false} RevokedMeans(c: Coordinator, n: nat)
    requires c.Tracks() && n <= |c.plan.targets|
    ensures RevokedBefore(c, n) <==> forall j :: 0 <= j < n ==> c.targets[c.plan.targets[j].connector].phase == Revoked
  {
    if n != 0 { RevokedMeans(c, n - 1); }
  }

  lemma {:induction false} LinesMean(c: Coordinator, n: nat)
    requires c.Tracks() && n <= |c.plan.targets|
    ensures |Lines(c, n)| == n && forall j :: 0 <= j < n ==> Lines(c, n)[j] == SummaryOf(c).lines[j]
  {
    if n != 0 { LinesMean(c, n - 1); }
  }

  lemma InPlan(c: Coordinator, k: string) returns (j: nat)
    requires c.Tracks() && k in c.targets
    ensures j < |c.plan.targets| && c.plan.targets[j].connector == k
  {
    assert c.plan.Has(k);
    j :| 0 <= j < |c.plan.targets| && c.plan.targets[j].connector == k;
  }

  lemma FailedByPlan(c: Coordinator)
    requires c.Tracks()
    ensures c.AnyFailed() == FailedBefore(c, |c.plan.targets|)
  {
    FailedMeans(c, |c.plan.targets|);
    if c.AnyFailed() {
      var k :| k in c.targets && c.targets[k].phase == Failed;
      var j := InPlan(c, k);
    }
  }

  lemma RevokedByPlan(c: Coordinator)
    requires c.Tracks()
    ensures c.AllRevoked() == RevokedBefore(c, |c.plan.targets|)
  {
    RevokedMeans(c, |c.plan.targets|);
    if !c.AllRevoked() {
      var k :| k in c.targets && c.targets[k].phase != Revoked;
      var j := InPlan(c, k);
    }
  }

  /** The loop over the plan sees every tracked target. */
  lemma StatusByPlan(c: Coordinator)
    requires c.Tracks()
    ensures c.AnyFailed() == FailedBefore(c, |c.plan.targets|) && c.AllRevoked() == RevokedBefore(c, |c.plan.targets|)
    ensures SummaryOf(c).lines == Lines(c, |c.plan.targets|)
  {
    FailedByPlan(c);
    RevokedByPlan(c);
    LinesMean(c, |c.plan.targets|);
  }
}
