/**
 Exactly what reading the store back gives. The store keeps one summary per
 result; a revoke recorded after the last result is overlaid by
 that older summary, and a failure no result was written for is not read at all.
 */
module RotationRecovery {
  import opened SessionTypes
  import opened Rotations
  import opened RotationTheorems
  import opened RotationProgress

  // ---------------------------------------------------------------- reading appended records

  lemma LastChallengeOf(xs: seq<Challenge>, x: Challenge, op: string, k: string)
    ensures LastChallenge(xs + [x], op, k) == if x.b.operation == op && x.b.connector == k then Some(x)
            else LastChallenge(xs, op, k)
  {
    assert (xs + [x])[..|xs|] == xs;
  }

  lemma LastReadyOf(xs: seq<Ready>, x: Ready, op: string, k: string)
    ensures LastReady(xs + [x], op, k) == if x.b.operation == op && x.b.connector == k then Some(x)
            else LastReady(xs, op, k)
  {
    assert (xs + [x])[..|xs|] == xs;
  }

  lemma LastRevokeOf(xs: seq<Revoke>, x: Revoke, op: string, k: string)
    ensures LastRevoke(xs + [x], op, k) == if x.b.operation == op && x.b.connector == k then Some(x)
            else LastRevoke(xs, op, k)
  {
    assert (xs + [x])[..|xs|] == xs;
  }

  lemma {:induction false} LastProofIgnores(ps: seq<Proof>, ins: seq<Install>, i: Install, op: string, k: string)
    requires |ps| <= |ins|
    ensures LastProof(ps, ins + [i], op, k) == LastProof(ps, ins, op, k)
  {
    if ps != [] { LastProofIgnores(ps[..|ps| - 1], ins, i, op, k); }
  }

  lemma LastProofOf(ps: seq<Proof>, ins: seq<Install>, p: Proof, i: Install, op: string, k: string)
    requires |ps| == |ins|
    ensures LastProof(ps + [p], ins + [i], op, k)
            == if p.b.operation == op && p.b.connector == k then Some((p, Some(i))) else LastProof(ps, ins, op, k)
  {
    assert (ps + [p])[..|ps|] == ps;
    LastProofIgnores(ps, ins, i, op, k);
  }

  predicate HasResult(results: seq<Summary>, op: string) {
    exists i :: 0 <= i < |results| && results[i].operation == op
  }

  lemma {:induction false} NoResultNoOverlay(results: seq<Summary>, op: string, k: string)
    requires !HasResult(results, op)
    ensures Overlay(results, op, k) == None && FinishedAt(results, op) == 0
  {
    if results != [] {
      assert results[|results| - 1].operation != op;
      assert !HasResult(results[..|results| - 1], op);
      NoResultNoOverlay(results[..|results| - 1], op, k);
    }
  }

  lemma {:induction false} LineOf(lines: seq<SummaryLine>, i: nat)
    requires i < |lines| && forall a, b :: 0 <= a < b < |lines| ==> lines[a].connector != lines[b].connector
    ensures LineFor(lines, lines[i].connector) == Some(lines[i])
    decreases |lines|
  {
    if i < |lines| - 1 { LineOf(lines[..|lines| - 1], i); }
  }

  /** A summary just recorded speaks for every target. */
  lemma OverlayOf(results: seq<Summary>, c: Coordinator, k: string)
    requires c.Tracks() && k in c.targets
    ensures Overlay(results + [SummaryOf(c)], c.plan.operation, k)
            == Some(SummaryLine(k, c.targets[k].phase, c.targets[k].code))
  {
    var lines := SummaryOf(c).lines;
    var i :| 0 <= i < |c.plan.targets| && c.plan.targets[i].connector == k;
    ConnectorsDistinct(c.plan);
    forall a, b | 0 <= a < b < |lines| ensures lines[a].connector != lines[b].connector {
      assert lines[a].connector == c.plan.targets[a].connector && lines[b].connector == c.plan.targets[b].connector;
    }
    LineOf(lines, i);
    assert lines[i] == SummaryLine(k, c.targets[k].phase, c.targets[k].code);
    assert (results + [SummaryOf(c)])[..|results|] == results;
  }

  // ---------------------------------------------------------------- memory and store in step

  function ProofPair(t: TargetState): Option<(Proof, Option<Install>)> {
    if t.proof.Some? then Some((t.proof.value, t.install)) else None
  }

  /** The last record of each kind for a target is the one in memory. */
  predicate Traced(op: string, t: TargetState, s: Store) {
    && LastChallenge(s.challenges, op, t.target.connector) == t.challenge
    && LastProof(s.proofs, s.installs, op, t.target.connector) == ProofPair(t)
    && LastReady(s.readiness, op, t.target.connector) == t.ready
    && LastRevoke(s.revocations, op, t.target.connector) == t.revoke
    && t.proof.Some? == t.install.Some?
  }

  predicate Aligned(s: Store) { |s.proofs| == |s.installs| }

  /** A write made for connector `k` of operation `op`. */
  predicate WrittenFor(op: string, k: string, w: Write) {
    match w
    case WriteChallenge(c) => c.b.operation == op && c.b.connector == k
    case WriteProof(p, i) => p.b.operation == op && p.b.connector == k
    case WriteReady(r) => r.b.operation == op && r.b.connector == k
    case WriteRevoke(v) => v.b.operation == op && v.b.connector == k
    case _ => true
  }

  /** Every record a move adds to a target is exactly what it writes. */
  predicate Exact(t: TargetState, m: Move) {
    && m.t.challenge == (if m.write.WriteChallenge? then Some(m.write.challenge) else t.challenge)
    && m.t.proof == (if m.write.WriteProof? then Some(m.write.proof) else t.proof)
    && m.t.install == (if m.write.WriteProof? then Some(m.write.install) else t.install)
    && m.t.ready == (if m.write.WriteReady? then Some(m.write.ready) else t.ready)
    && m.t.revoke == (if m.write.WriteRevoke? then Some(m.write.revoke) else t.revoke)
  }

  predicate Precise(plan: Plan, t: TargetState, m: Move) {
    Exact(t, m) && WrittenFor(plan.operation, t.target.connector, m.write)
  }

  lemma ProofPrecise(plan: Plan, t: TargetState, now: int, p: Proof, verified: bool, stored: bool)
    requires Acceptable(plan, AsRecovered(t))
    ensures Precise(plan, t, ProofMove(plan, t, now, p, verified, stored))
  {
    if t.challenge.Some? && p.Matches(t.challenge.value, t.target) {
      assert p.b.connector == t.challenge.value.b.connector && p.b.operation == t.challenge.value.b.operation;
    }
  }

  lemma ReadyPrecise(plan: Plan, t: TargetState, now: int, r: Ready, stored: bool)
    requires Acceptable(plan, AsRecovered(t))
    ensures Precise(plan, t, ReadyMove(plan, t, now, r, stored))
  {
    if t.install.Some? { assert t.install.value.b.For(plan, t.target); }
  }

  lemma AckPrecise(plan: Plan, t: TargetState, a: RotationAck, code: Code, stored: bool)
    ensures Precise(plan, t, FailMove(t, code, stored)) && Precise(plan, t, AckMove(plan, t, a, stored))
  {
    assert Precise(plan, t, Stay(t)) && Precise(plan, t, Broken(t));
    assert Precise(plan, t, FailMove(t, a.code, stored));
  }

  lemma MovePrecise(plan: Plan, t: TargetState, now: int, call: Call)
    requires Acceptable(plan, AsRecovered(t)) && !call.Start? && !call.Resume?
    ensures Precise(plan, t, MoveOf(plan, t, now, call))
  {
    match call {
      case AcceptProof(p, verified, stored) => ProofPrecise(plan, t, now, p, verified, stored);
      case MarkReady(r, stored) => ReadyPrecise(plan, t, now, r, stored);
      case HandleAck(a, stored) => AckPrecise(plan, t, a, NoCode, stored);
      case Fail(_, code, stored) => AckPrecise(plan, t,
          RotationAck(BindingOf(plan, t.target, "", 0), SaysFailed, code, true), code, stored);
      case _ =>
    }
  }

  lemma WriteTraced(op: string, k: string, u: TargetState, s: Store, w: Write, c: Coordinator)
    requires c.Tracks() && Aligned(s) && Traced(op, u, s) && WrittenFor(op, k, w)
    ensures Aligned(Written(s, w, c))
    ensures u.target.connector != k ==> Traced(op, u, Written(s, w, c))
  {
    match w {
      case WriteChallenge(x) => LastChallengeOf(s.challenges, x, op, u.target.connector);
      case WriteProof(p, i) => LastProofOf(s.proofs, s.installs, p, i, op, u.target.connector);
      case WriteReady(r) => LastReadyOf(s.readiness, r, op, u.target.connector);
      case WriteRevoke(v) => LastRevokeOf(s.revocations, v, op, u.target.connector);
      case _ =>
    }
  }

  lemma MoveTraced(op: string, t: TargetState, s: Store, m: Move, c: Coordinator)
    requires c.Tracks() && Aligned(s) && Traced(op, t, s) && m.t.target == t.target
             && WrittenFor(op, t.target.connector, m.write) && Exact(t, m)
    ensures Traced(op, m.t, Written(s, m.write, c))
  {
    var k := t.target.connector;
    match m.write {
      case WriteChallenge(x) => LastChallengeOf(s.challenges, x, op, k);
      case WriteProof(p, i) => LastProofOf(s.proofs, s.installs, p, i, op, k);
      case WriteReady(r) => LastReadyOf(s.readiness, r, op, k);
      case WriteRevoke(v) => LastRevokeOf(s.revocations, v, op, k);
      case _ =>
    }
  }

  // ---------------------------------------------------------------- what a move does to the phase

  predicate Final(t: TargetState) { t.phase == Revoked || t.phase == Failed }

  /** A store call failed, and that alone made the target a failed one: nothing is written. */
  predicate Breaks(t: TargetState, m: Move) {
    !Final(t) && m.t == t.(phase := Failed, code := RotationFailed) && (m.last ==> t.phase == Revoking)
  }

  /** The target comes to its end, and a result is written. */
  predicate Resolves(t: TargetState, m: Move) {
    && !Final(t)
    && (if m.last then t.phase == Revoking && m.t == t.(phase := Revoked)
       else m.t == t.(phase := Failed, code := m.t.code))
  }

  /** A challenge, an install or a readiness report is written; nothing later exists yet. */
  predicate Builds(t: TargetState, m: Move) {
    Rank(t.phase) < 3 && t.revoke.None? && m.t.revoke.None? && Rank(m.t.phase) <= 3 && m.t.code == t.code && !m.last
  }

  /** Every move is one of these. */
  predicate Shape(t: TargetState, m: Move) {
    match m.write
    case WriteNothing => (m.t == t && !m.last) || Breaks(t, m)
    case WriteRevoke(v) => t.phase == IsReady && m.t == t.(revoke := Some(v), phase := Revoking) && !m.last
    case WriteResult => Resolves(t, m)
    case _ => Builds(t, m)
  }

  lemma AckShape(plan: Plan, t: TargetState, a: RotationAck, code: Code, stored: bool)
    ensures Shape(t, AckMove(plan, t, a, stored)) && Shape(t, FailMove(t, code, stored))
  {
  }

  lemma EarlyShape(plan: Plan, t: TargetState, now: int, call: Call)
    requires Acceptable(plan, AsRecovered(t)) && (call.IssueChallenge? || call.AcceptProof? || call.MarkReady?)
    ensures Shape(t, MoveOf(plan, t, now, call))
  {
  }

  lemma MoveShape(plan: Plan, t: TargetState, now: int, call: Call)
    requires Acceptable(plan, AsRecovered(t)) && !call.Start? && !call.Resume?
    ensures Shape(t, MoveOf(plan, t, now, call))
  {
    match call {
      case HandleAck(a, stored) => AckShape(plan, t, a, NoCode, stored);
      case Fail(_, code, stored) =>
      case RequestRevoke(_, _, _, _) =>
      case _ => EarlyShape(plan, t, now, call);
    }
  }

  // ---------------------------------------------------------------- the invariant of a life

  predicate AllTraced(c: Coordinator, s: Store) {
    forall k :: k in c.targets ==> Traced(c.plan.operation, c.targets[k], s)
  }

  /** Records and memory agree, and the plan is recorded exactly when the coordinator has started. */
  predicate Recorded(c: Coordinator, s: Store) {
    && Evident(c, s) && Aligned(s) && AllTraced(c, s)
    && PlanFor(s.started, c.plan.operation) == (if c.started then Some(c.plan) else None)
  }

  /** Connectors revoked, and connectors failed without a record, since the last result. */
  datatype Since = Since(revoked: set<string>, broken: set<string>)

  const NOTHING := Since({}, {})

  /** What the last result says of a target with a revoke: ready if revoked since, revoking if broken since. */
  function Line(t: TargetState, x: Since, k: string): SummaryLine {
    if k in x.revoked then SummaryLine(k, IsReady, NoCode)
    else if k in x.broken then SummaryLine(k, Revoking, NoCode)
    else SummaryLine(k, t.phase, t.code)
  }

  predicate Noted(c: Coordinator, s: Store, x: Since, k: string)
    requires k in c.targets
  {
    var t, had := c.targets[k], HasResult(s.results, c.plan.operation);
    && (t.phase == Revoked ==> had)
    && (t.phase == Failed ==> had || k in x.broken)
    && (k in x.revoked ==> t.revoke.Some? && (t.phase == Failed ==> k in x.broken))
    && (k in x.broken ==> t.phase == Failed)
    && (had && (t.revoke.Some? || !c.AnyFailed()) ==> Overlay(s.results, c.plan.operation, k) == Some(Line(t, x, k)))
  }

  predicate AllFinal(c: Coordinator) { forall k :: k in c.targets ==> Final(c.targets[k]) }

  predicate AnyRevoke(c: Coordinator) { exists k :: k in c.targets && c.targets[k].revoke.Some? }

  predicate AnyBroken(c: Coordinator, x: Since) { exists k :: k in c.targets && k in x.broken }

  predicate Counted(c: Coordinator, s: Store, x: Since) {
    && FinishedAt(s.results, c.plan.operation) == (if c.AllRevoked() then c.finished else 0)
    && (c.finished != 0 ==> AllFinal(c) && (c.AllRevoked() || AnyBroken(c, x)))
    && (!c.AnyFailed() && (HasResult(s.results, c.plan.operation) || AnyRevoke(c)) ==> c.AllReady())
  }

  predicate Summarised(c: Coordinator, s: Store, x: Since) {
    Counted(c, s, x) && forall k :: k in c.targets ==> Noted(c, s, x, k)
  }

  predicate Synced(c: Coordinator, s: Store, x: Since) { Recorded(c, s) && Summarised(c, s, x) }

  /** What happened since the last result, after a move of `k`. */
  function SinceBy(x: Since, k: string, t: TargetState, m: Move): Since {
    if m.write.WriteResult? then NOTHING
    else Since(if m.write.WriteRevoke? then x.revoked + {k} else x.revoked,
               if t.phase != Failed && m.t.phase == Failed then x.broken + {k} else x.broken)
  }

  lemma TracedAfter(op: string, t: TargetState, m: Move, u: TargetState, s: Store, d: Coordinator)
    requires d.Tracks() && Aligned(s) && Traced(op, t, s) && Traced(op, u, s) && m.t.target == t.target
    requires Exact(t, m) && WrittenFor(op, t.target.connector, m.write)
    ensures Aligned(Written(s, m.write, d)) && Traced(op, if u.target.connector == t.target.connector then m.t
            else u, Written(s, m.write, d))
  {
    WriteTraced(op, t.target.connector, u, s, m.write, d);
    MoveTraced(op, t, s, m, d);
  }

  lemma CommitTraced(c: Coordinator, s: Store, now: int, k: string, m: Move)
    requires c.Tracks() && Aligned(s) && AllTraced(c, s) && k in c.targets && m.t.target == c.targets[k].target
             && Precise(c.plan, c.targets[k], m)
    ensures var o := Commit(c, s, now, m); Aligned(o.s) && AllTraced(o.c, o.s) && o.s.started == s.started
  {
    var d := Moved(c, now, m);
    PutKeepsTracks(c, m.t);
    forall j | j in d.targets ensures Traced(c.plan.operation, d.targets[j], Written(s, m.write, d)) {
      TracedAfter(c.plan.operation, c.targets[k], m, c.targets[j], s, d);
    }
    TracedAfter(c.plan.operation, c.targets[k], m, c.targets[k], s, d);
  }

  lemma CommitRecorded(c: Coordinator, s: Store, now: int, k: string, m: Move)
    requires Recorded(c, s) && k in c.targets && m.t.target == c.targets[k].target && Lawful(c.plan, c.targets[k], m)
             && Precise(c.plan, c.targets[k], m)
    ensures var o := Commit(c, s, now, m); Recorded(o.c, o.s)
  {
    assert Evident(Commit(c, s, now, m).c, Commit(c, s, now, m).s) by { CommitKept(c, s, now, k, m); }
    CommitTraced(c, s, now, k, m);
  }

  // ---------------------------------------------------------------- each kind of move keeps the summaries

  lemma IdleMove(c: Coordinator, s: Store, now: int, k: string, m: Move)
    requires c.Tracks() && k in c.targets && m.t == c.targets[k] && m.write == WriteNothing && !m.last
    ensures var o := Commit(c, s, now, m); o.c == c && o.s == s
  {
    assert c.targets[k := m.t] == c.targets;
  }

  /** Only target `k` differs. */
  predicate Differs(c: Coordinator, d: Coordinator, k: string) {
    && k in c.targets && d.plan == c.plan && d.targets.Keys == c.targets.Keys
    && forall j :: j in c.targets && j != k ==> d.targets[j] == c.targets[j]
  }

  lemma CommitDiffers(c: Coordinator, s: Store, now: int, k: string, m: Move)
    requires c.Tracks() && k in c.targets && m.t.target == c.targets[k].target
    ensures var o := Commit(c, s, now, m);
            && Differs(c, o.c, k) && o.c.targets[k] == m.t && o.c.Tracks() && o.s == Written(s, m.write, o.c)
            && o.c.finished == (if Finishes(c, m) then now else c.finished)
  {
    assert k == m.t.target.connector;
  }

  lemma BuildNoted(c: Coordinator, d: Coordinator, s: Store, s': Store, x: Since, k: string, m: Move, j: string)
    requires Summarised(c, s, x) && Differs(c, d, k) && d.targets[k] == m.t && Builds(c.targets[k], m)
             && s'.results == s.results && j in c.targets
    ensures Noted(d, s', x, j)
  {
    assert Noted(c, s, x, j) && Noted(c, s, x, k);
    if c.AnyFailed() {
      var f :| f in c.targets && c.targets[f].phase == Failed;
      assert d.targets[f].phase == Failed;
    }
  }

  lemma BuildSummarised(c: Coordinator, d: Coordinator, s: Store, s': Store, x: Since, k: string, m: Move)
    requires Summarised(c, s, x) && Differs(c, d, k) && d.targets[k] == m.t && Builds(c.targets[k], m)
    requires s'.results == s.results && d.finished == c.finished
    ensures Summarised(d, s', x)
  {
    forall j | j in d.targets ensures Noted(d, s', x, j) { BuildNoted(c, d, s, s', x, k, m, j); }
    assert !c.AllRevoked() && !d.AllRevoked() && !c.AllReady() && !Final(c.targets[k]);
    if !d.AnyFailed() {
      assert !c.AnyFailed() by { assert forall j :: j in c.targets ==> d.targets[j].phase != Failed; }
    }
  }

  lemma RevokeSummarised(c: Coordinator, d: Coordinator, s: Store, s': Store, x: Since, k: string, m: Move)
    requires Summarised(c, s, x) && Differs(c, d, k) && d.targets[k] == m.t && s'.results == s.results
             && d.finished == c.finished
    requires Shape(c.targets[k], m) && m.write.WriteRevoke? && c.AllReady() && c.targets[k].code == NoCode
             && c.targets[k].revoke.None?
    ensures Summarised(d, s', x.(revoked := x.revoked + {k}))
  {
    assert !c.AllRevoked() && !d.AllRevoked() && d.AllReady() && !Final(c.targets[k]);
    forall j | j in d.targets ensures Noted(d, s', x.(revoked := x.revoked + {k}), j) { assert Noted(c, s, x, j); }
  }

  lemma BreakNoted(c: Coordinator, d: Coordinator, s: Store, x: Since, k: string, m: Move, j: string)
    requires Summarised(c, s, x) && Differs(c, d, k) && d.targets[k] == m.t && Breaks(c.targets[k], m) && j in c.targets
    requires c.targets[k].code == NoCode && (c.targets[k].revoke.Some? ==> c.targets[k].phase == Revoking)
    ensures Noted(d, s, x.(broken := x.broken + {k}), j)
  {
    assert Noted(c, s, x, j);
    assert d.AnyFailed();
  }

  lemma BreakSummarised(c: Coordinator, d: Coordinator, s: Store, x: Since, k: string, m: Move)
    requires Summarised(c, s, x) && Differs(c, d, k) && d.targets[k] == m.t && Breaks(c.targets[k], m)
    requires c.targets[k].code == NoCode && (c.targets[k].revoke.Some? ==> c.targets[k].phase == Revoking)
    requires d.finished == c.finished || forall j :: j in c.targets && j != k ==> c.targets[j].phase == Revoked
    ensures Summarised(d, s, x.(broken := x.broken + {k}))
  {
    forall j | j in d.targets ensures Noted(d, s, x.(broken := x.broken + {k}), j) { BreakNoted(c, d, s, x, k, m, j); }
    assert d.targets[k].phase == Failed && !Final(c.targets[k]);
  }

  lemma ResultNoted(c: Coordinator, s: Store, s': Store, j: string)
    requires c.Tracks() && s'.results == s.results + [SummaryOf(c)] && j in c.targets
    ensures Noted(c, s', NOTHING, j)
  {
    assert s'.results[|s.results|].operation == c.plan.operation;
    OverlayOf(s.results, c, j);
  }

  lemma ResultFinished(c: Coordinator, s: Store, s': Store)
    requires c.Tracks() && s'.results == s.results + [SummaryOf(c)] && FinishedAt(s.results, c.plan.operation) == 0
    ensures FinishedAt(s'.results, c.plan.operation) == (if c.AllRevoked() then c.finished else 0)
  {
    assert s'.results[..|s.results|] == s.results;
    assert c.AllRevoked() ==> !c.AnyFailed();
  }

  lemma ReadyAfterResult(c: Coordinator, d: Coordinator, s: Store, x: Since, k: string, m: Move)
    requires Counted(c, s, x) && Differs(c, d, k) && d.targets[k] == m.t && Resolves(c.targets[k], m) && !d.AnyFailed()
    requires c.targets[k].phase == Revoking ==> c.targets[k].revoke.Some?
    ensures d.AllReady()
  {
    assert m.t.phase != Failed;
    assert !c.AnyFailed() by { assert forall j :: j in c.targets ==> d.targets[j].phase != Failed; }
    assert AnyRevoke(c);
  }

  lemma ResultSummarised(c: Coordinator, d: Coordinator, s: Store, s': Store, x: Since, k: string, m: Move)
    requires Summarised(c, s, x) && Differs(c, d, k) && d.Tracks() && d.targets[k] == m.t && Resolves(c.targets[k], m)
    requires s'.results == s.results + [SummaryOf(d)] && (c.targets[k].phase == Revoking ==> c.targets[k].revoke.Some?)
    requires d.finished == c.finished || d.AllRevoked()
    ensures Summarised(d, s', NOTHING)
  {
    assert !Final(c.targets[k]) && !c.AllRevoked();
    ResultFinished(d, s, s');
    forall j | j in d.targets ensures Noted(d, s', NOTHING, j) { ResultNoted(d, s, s', j); }
    if !d.AnyFailed() { ReadyAfterResult(c, d, s, x, k, m); }
  }

  // ---------------------------------------------------------------- every call keeps them

  /** What `Acceptable` says of a target that is not at its end. */
  predicate Proper(t: TargetState) {
    && (t.phase != Failed ==> t.code == NoCode)
    && (t.phase == Revoking ==> t.revoke.Some?)
    && (t.revoke.Some? && !Final(t) ==> t.phase == Revoking)
  }

  lemma HeldIsProper(plan: Plan, t: TargetState, s: Store)
    requires Held(plan, t, s)
    ensures Proper(t)
  {
  }

  lemma FinishesMeans(c: Coordinator, d: Coordinator, k: string, m: Move)
    requires Differs(c, d, k) && d.targets[k] == m.t && m.t.target.connector == k && Finishes(c, m)
    ensures forall j :: j in c.targets && j != k ==> c.targets[j].phase == Revoked
    ensures m.t.phase == Revoked ==> d.AllRevoked()
  {
    var p := Put(c, m.t.(phase := Revoked));
    forall j | j in c.targets && j != k ensures c.targets[j].phase == Revoked { assert p.targets[j].phase == Revoked; }
  }

  lemma NothingSummarised(c: Coordinator, s: Store, x: Since, now: int, k: string, m: Move)
    requires c.Tracks() && k in c.targets && m.t.target == c.targets[k].target && Summarised(c, s, x)
    requires Shape(c.targets[k], m) && Proper(c.targets[k]) && m.write.WriteNothing?
    ensures var o := Commit(c, s, now, m); Summarised(o.c, o.s, SinceBy(x, k, c.targets[k], m))
  {
    var o := Commit(c, s, now, m);
    if Breaks(c.targets[k], m) {
      CommitDiffers(c, s, now, k, m);
      assert o.c.finished == c.finished || forall j :: j in c.targets && j != k ==> c.targets[j].phase == Revoked by {
        if Finishes(c, m) { FinishesMeans(c, o.c, k, m); }
      }
      assert SinceBy(x, k, c.targets[k], m) == x.(broken := x.broken + {k});
      BreakSummarised(c, o.c, s, x, k, m);
    } else {
      IdleMove(c, s, now, k, m);
    }
  }

  lemma WritingSummarised(c: Coordinator, s: Store, x: Since, k: string, m: Move, d: Coordinator, s': Store)
    requires k in c.targets && Summarised(c, s, x) && Differs(c, d, k) && d.Tracks() && d.targets[k] == m.t
             && s' == Written(s, m.write, d)
    requires Shape(c.targets[k], m) && Proper(c.targets[k]) && !m.write.WriteNothing?
             && (m.write.WriteRevoke? ==> c.AllReady())
    requires d.finished == c.finished || (m.last && (m.t.phase == Revoked ==> d.AllRevoked()))
    ensures Summarised(d, s', SinceBy(x, k, c.targets[k], m))
  {
    if m.write.WriteRevoke? {
      assert s'.results == s.results && SinceBy(x, k, c.targets[k], m) == x.(revoked := x.revoked + {k});
      RevokeSummarised(c, d, s, s', x, k, m);
    } else if m.write.WriteResult? {
      assert SinceBy(x, k, c.targets[k], m) == NOTHING;
      ResultSummarised(c, d, s, s', x, k, m);
    } else {
      assert s'.results == s.results && SinceBy(x, k, c.targets[k], m) == x;
      BuildSummarised(c, d, s, s', x, k, m);
    }
  }

  lemma CommitSummarised(c: Coordinator, s: Store, x: Since, now: int, k: string, m: Move)
    requires c.Tracks() && k in c.targets && m.t.target == c.targets[k].target && Summarised(c, s, x)
    requires Shape(c.targets[k], m) && Proper(c.targets[k]) && (m.write.WriteRevoke? ==> c.AllReady())
    ensures var o := Commit(c, s, now, m); Summarised(o.c, o.s, SinceBy(x, k, c.targets[k], m))
  {
    if m.write.WriteNothing? {
      NothingSummarised(c, s, x, now, k, m);
    } else {
      var o := Commit(c, s, now, m);
      CommitDiffers(c, s, now, k, m);
      if Finishes(c, m) { FinishesMeans(c, o.c, k, m); }
      WritingSummarised(c, s, x, k, m, o.c, o.s);
    }
  }

  predicate Tidy(plan: Plan, t: TargetState, m: Move) {
    Lawful(plan, t, m) && Precise(plan, t, m) && m.t.target == t.target && Shape(t, m)
  }

  lemma MoveTidy(plan: Plan, t: TargetState, now: int, call: Call)
    requires Acceptable(plan, AsRecovered(t)) && !call.Start? && !call.Resume?
    ensures Tidy(plan, t, MoveOf(plan, t, now, call))
  {
    MoveLawful(plan, t, now, call);
    MovePrecise(plan, t, now, call);
    MoveShape(plan, t, now, call);
  }

  lemma CommitSynced(c: Coordinator, s: Store, x: Since, now: int, k: string, m: Move)
    requires Synced(c, s, x) && k in c.targets && m.t.target == c.targets[k].target
    requires Tidy(c.plan, c.targets[k], m) && (m.write.WriteRevoke? ==> c.AllReady())
    ensures var o := Commit(c, s, now, m); Synced(o.c, o.s, SinceBy(x, k, c.targets[k], m))
  {
    var o := Commit(c, s, now, m);
    assert Recorded(o.c, o.s) by { CommitRecorded(c, s, now, k, m); }
    assert Proper(c.targets[k]) by { HeldIsProper(c.plan, c.targets[k], s); }
    CommitSummarised(c, s, x, now, k, m);
  }

  /** What happened since the last result, after a call. */
  function SinceAfter(w: World, o: Outcome, x: Since, call: Call): Since {
    if o.s.results != w.s.results then NOTHING
    else if call.Start? || call.Resume? then x
    else
      var k := Addressee(call);
      Since(if o.s.revocations != w.s.revocations then x.revoked + {k} else x.revoked,
            if k in w.c.targets && k in o.c.targets && w.c.targets[k].phase != Failed && o.c.targets[k].phase == Failed
            then x.broken + {k} else x.broken)
  }

  lemma SinceMatches(c: Coordinator, s: Store, x: Since, now: int, call: Call, k: string, m: Move)
    requires c.Tracks() && !call.Start? && !call.Resume? && k == Addressee(call) && k in c.targets
             && m.t.target == c.targets[k].target
    ensures SinceAfter(World(c, s), Commit(c, s, now, m), x, call) == SinceBy(x, k, c.targets[k], m)
  {
    var o := Commit(c, s, now, m);
    CommitDiffers(c, s, now, k, m);
    assert m.write.WriteResult? ==> |o.s.results| != |s.results|;
    assert m.write.WriteRevoke? ==> |o.s.revocations| != |s.revocations|;
  }

  lemma MoveCallSynced(c: Coordinator, s: Store, x: Since, now: int, call: Call, k: string, m: Move)
    requires Synced(c, s, x) && !call.Start? && !call.Resume? && k == Addressee(call) && k in c.targets
    requires m == MoveOf(c.plan, c.targets[k], now, call) && (m.write.WriteRevoke? ==> c.AllReady())
    ensures var o := Commit(c, s, now, m); Synced(o.c, o.s, SinceAfter(World(c, s), o, x, call))
  {
    assert Tidy(c.plan, c.targets[k], m) by {
      assert Held(c.plan, c.targets[k], s);
      MoveTidy(c.plan, c.targets[k], now, call);
    }
    CommitSynced(c, s, x, now, k, m);
    SinceMatches(c, s, x, now, call, k, m);
  }

  lemma ResumeStays(c: Coordinator, s: Store, now: int, stored: bool)
    requires PlanFor(s.started, c.plan.operation) == (if c.started then Some(c.plan) else None)
    ensures DoResume(c, s, now, stored).c == c && DoResume(c, s, now, stored).s == s
  {
  }

  lemma RefusedSynced(c: Coordinator, s: Store, x: Since, call: Call)
    requires Synced(c, s, x)
    ensures var o := Outcome(c, s, false, NoReply); Synced(o.c, o.s, SinceAfter(World(c, s), o, x, call))
  {
    assert SinceAfter(World(c, s), Outcome(c, s, false, NoReply), x, call) == x;
  }

  lemma TargetCallSynced(c: Coordinator, s: Store, x: Since, now: int, call: Call, o: Outcome)
    requires Synced(c, s, x) && !call.Start? && !call.Resume? && o == Perform(c, s, now, call)
    ensures Synced(o.c, o.s, SinceAfter(World(c, s), o, x, call))
  {
    PerformIs(c, s, now, call);
    var k := Addressee(call);
    if k in c.targets && Admitted(c, call) {
      MoveCallSynced(c, s, x, now, call, k, MoveOf(c.plan, c.targets[k], now, call));
    } else {
      RefusedSynced(c, s, x, call);
    }
  }

  lemma CallSynced(c: Coordinator, s: Store, x: Since, now: int, call: Call)
    requires Synced(c, s, x)
    ensures var o := Perform(c, s, now, call); Synced(o.c, o.s, SinceAfter(World(c, s), o, x, call))
  {
    if call.Start? {
      StartSynced(c, s, x, call.stored);
    } else if call.Resume? {
      ResumeStays(c, s, now, call.stored);
    } else {
      TargetCallSynced(c, s, x, now, call, Perform(c, s, now, call));
    }
  }

  lemma {:induction false} PlanForAppended(plans: seq<Plan>, plan: Plan)
    requires PlanFor(plans, plan.operation).None?
    ensures PlanFor(plans + [plan], plan.operation) == Some(plan)
  {
    if plans != [] {
      assert (plans + [plan])[1..] == plans[1..] + [plan];
      PlanForAppended(plans[1..], plan);
    }
  }

  /** The summaries depend only on the plan, the targets, the finishing time and the results. */
  lemma SameSummaries(c: Coordinator, s: Store, x: Since, d: Coordinator, s': Store)
    requires Summarised(c, s, x) && d.plan == c.plan && d.targets == c.targets && d.finished == c.finished
             && s'.results == s.results
    ensures Summarised(d, s', x)
  {
    assert d.AllRevoked() == c.AllRevoked() && d.AnyFailed() == c.AnyFailed() && AllFinal(d) == AllFinal(c);
    assert d.AllReady() == c.AllReady() && AnyRevoke(d) == AnyRevoke(c) && AnyBroken(d, x) == AnyBroken(c, x);
    forall k | k in d.targets ensures Noted(d, s', x, k) { assert Noted(c, s, x, k); }
  }

  lemma StartRecorded(c: Coordinator, s: Store, stored: bool)
    requires Recorded(c, s)
    ensures var o := DoStart(c, s, stored); Recorded(o.c, o.s)
  {
    var o := DoStart(c, s, stored);
    StartKept(c, s, stored);
    if !c.started { PlanForAppended(s.started, c.plan); }
    forall k | k in o.c.targets ensures Traced(c.plan.operation, o.c.targets[k], o.s) {
      assert Traced(c.plan.operation, c.targets[k], s);
    }
  }

  lemma StartSynced(c: Coordinator, s: Store, x: Since, stored: bool)
    requires Synced(c, s, x)
    ensures var o := DoStart(c, s, stored);
            Synced(o.c, o.s, x) && o.s.results == s.results && o.s.revocations == s.revocations
  {
    var o := DoStart(c, s, stored);
    StartRecorded(c, s, stored);
    SameSummaries(c, s, x, o.c, o.s);
  }

  // ---------------------------------------------------------------- whole lives

  datatype Ledger = Ledger(w: World, since: Since)

  predicate Consistent(l: Ledger) { Synced(l.w.c, l.w.s, l.since) }

  /** The calls of one process, from one coordinator and store. */
  ghost function Lived(l: Ledger, calls: seq<Timed>): (r: Ledger)
    requires Evident(l.w.c, l.w.s)
    ensures Evident(r.w.c, r.w.s) && r.w.c.plan == l.w.c.plan
    decreases |calls|
  {
    if calls == [] then l
    else
      CallKept(l.w.c, l.w.s, calls[0].now, calls[0].call);
      Lived(NextLedger(l, calls[0]), calls[1..])
  }

  function NextLedger(l: Ledger, t: Timed): Ledger
    requires l.w.c.Tracks()
  {
    var o := Perform(l.w.c, l.w.s, t.now, t.call);
    Ledger(World(o.c, o.s), SinceAfter(l.w, o, l.since, t.call))
  }

  lemma {:induction false} LivedSynced(l: Ledger, calls: seq<Timed>)
    requires Consistent(l)
    ensures Consistent(Lived(l, calls))
    decreases |calls|
  {
    if calls != [] {
      CallSynced(l.w.c, l.w.s, l.since, calls[0].now, calls[0].call);
      LivedSynced(NextLedger(l, calls[0]), calls[1..]);
    }
  }

  /** No record of this operation in the store. */
  predicate Unused(s: Store, op: string) {
    PlanFor(s.started, op).None? && !HasResult(s.results, op) && NoEvidence(s, op)
  }

  predicate NoEvidence(s: Store, op: string) {
    && Aligned(s)
    && (forall i :: 0 <= i < |s.challenges| ==> s.challenges[i].b.operation != op)
    && (forall i :: 0 <= i < |s.proofs| ==> s.proofs[i].b.operation != op)
    && (forall i :: 0 <= i < |s.readiness| ==> s.readiness[i].b.operation != op)
    && (forall i :: 0 <= i < |s.revocations| ==> s.revocations[i].b.operation != op)
  }

  lemma NothingUnused(s: Store, op: string, k: string)
    requires NoEvidence(s, op)
    ensures LastChallenge(s.challenges, op, k).None? && LastProof(s.proofs, s.installs, op, k).None?
    ensures LastReady(s.readiness, op, k).None? && LastRevoke(s.revocations, op, k).None?
  {
    NoChallenge(s.challenges, op, k);
    NoProof(s.proofs, s.installs, op, k);
    NoReady(s.readiness, op, k);
    NoRevoke(s.revocations, op, k);
  }

  lemma {:induction false} NoChallenge(xs: seq<Challenge>, op: string, k: string)
    requires forall i :: 0 <= i < |xs| ==> xs[i].b.operation != op
    ensures LastChallenge(xs, op, k).None?
  {
    if xs != [] { NoChallenge(xs[..|xs| - 1], op, k); }
  }

  lemma {:induction false} NoProof(xs: seq<Proof>, ins: seq<Install>, op: string, k: string)
    requires forall i :: 0 <= i < |xs| ==> xs[i].b.operation != op
    ensures LastProof(xs, ins, op, k).None?
  {
    if xs != [] { NoProof(xs[..|xs| - 1], ins, op, k); }
  }

  lemma {:induction false} NoReady(xs: seq<Ready>, op: string, k: string)
    requires forall i :: 0 <= i < |xs| ==> xs[i].b.operation != op
    ensures LastReady(xs, op, k).None?
  {
    if xs != [] { NoReady(xs[..|xs| - 1], op, k); }
  }

  lemma {:induction false} NoRevoke(xs: seq<Revoke>, op: string, k: string)
    requires forall i :: 0 <= i < |xs| ==> xs[i].b.operation != op
    ensures LastRevoke(xs, op, k).None?
  {
    if xs != [] { NoRevoke(xs[..|xs| - 1], op, k); }
  }

  lemma IdleSummarised(c: Coordinator, s: Store)
    requires c.Tracks() && c.finished == 0 && !HasResult(s.results, c.plan.operation)
    requires forall k :: k in c.targets ==> c.targets[k] == Idle(c.targets[k].target)
    ensures Summarised(c, s, NOTHING)
  {
    NoResultNoOverlay(s.results, c.plan.operation, "");
    assert c.plan.targets[0].connector in c.targets;
  }

  lemma NewSynced(plan: Plan, s: Store)
    requires plan.Valid() && Unused(s, plan.operation)
    ensures Synced(NewCoordinator(plan), s, NOTHING)
  {
    NewTracks(plan);
    var c := NewCoordinator(plan);
    NewIsEvident(plan, s);
    forall k | k in c.targets ensures Traced(plan.operation, c.targets[k], s) { NothingUnused(s, plan.operation, k); }
    IdleSummarised(c, s);
  }

  function Fresh(plan: Plan, s: Store): Ledger
    requires plan.Valid()
  {
    Ledger(World(NewCoordinator(plan), s), NOTHING)
  }

  ghost function LifeOf(plan: Plan, s: Store, calls: seq<Timed>): Ledger
    requires plan.Valid() && Unused(s, plan.operation)
  {
    NewIsEvident(plan, s);
    Lived(Fresh(plan, s), calls)
  }

  /** Memory and store stay in step through every life. */
  lemma LifeSynced(plan: Plan, s: Store, calls: seq<Timed>)
    requires plan.Valid() && Unused(s, plan.operation)
    ensures Consistent(LifeOf(plan, s, calls)) && LifeOf(plan, s, calls).w.c.plan == plan
  {
    NewSynced(plan, s);
    LivedSynced(Fresh(plan, s), calls);
  }

  // ---------------------------------------------------------------- the round trip

  predicate Reproduced(c: Coordinator, s: Store, k: string)
    requires k in c.targets
  {
    LoadTarget(s, c.plan.operation, c.targets[k].target) == AsRecovered(c.targets[k])
  }

  predicate AllReproduced(c: Coordinator, s: Store) { forall k :: k in c.targets ==> Reproduced(c, s, k) }

  /** Revoked after the last result, which therefore calls it ready. */
  predicate Overtaken(c: Coordinator, s: Store, x: Since, k: string) {
    HasResult(s.results, c.plan.operation) && k in x.revoked
  }

  predicate AnyOvertaken(c: Coordinator, s: Store, x: Since) { exists k :: k in c.targets && Overtaken(c, s, x, k) }

  /** Not failed, or failed with a revoke and written in a result since. */
  predicate Survives(t: TargetState, x: Since, k: string) { t.phase != Failed || (t.revoke.Some? && k !in x.broken) }

  predicate AllSurvive(c: Coordinator, x: Since) { forall k :: k in c.targets ==> Survives(c.targets[k], x, k) }

  /** The phase a target's own records stand for. */
  function EvidencePhase(t: TargetState): Phase {
    if t.revoke.Some? then Revoking else if t.ready.Some? then IsReady else if t.proof.Some? then Installed
    else if t.challenge.Some? then Challenged else Pending
  }

  /** What is left of a target: itself, or itself as if it had not failed. */
  function Remembered(t: TargetState, x: Since, k: string): TargetState {
    if Survives(t, x, k) then t else t.(phase := EvidencePhase(t), code := NoCode)
  }

  /** The facts about one target that reading it back depends on. */
  predicate Told(c: Coordinator, s: Store, x: Since, k: string) {
    && k in c.targets && c.targets[k].target.connector == k && Traced(c.plan.operation, c.targets[k], s)
    && Acceptable(c.plan, AsRecovered(c.targets[k])) && Noted(c, s, x, k)
    && (!HasResult(s.results, c.plan.operation) ==> Overlay(s.results, c.plan.operation, k) == None)
  }

  lemma SyncedTells(c: Coordinator, s: Store, x: Since, k: string)
    requires Synced(c, s, x) && k in c.targets
    ensures Told(c, s, x, k)
  {
    assert Held(c.plan, c.targets[k], s);
    if !HasResult(s.results, c.plan.operation) { NoResultNoOverlay(s.results, c.plan.operation, k); }
  }

  lemma ReadsBack(c: Coordinator, s: Store, x: Since, k: string)
    requires Told(c, s, x, k) && !Overtaken(c, s, x, k)
    ensures LoadTarget(s, c.plan.operation, c.targets[k].target) == AsRecovered(Remembered(c.targets[k], x, k))
  {
  }

  lemma OvertakenReadsReady(c: Coordinator, s: Store, x: Since, k: string)
    requires Told(c, s, x, k) && Overtaken(c, s, x, k)
    ensures var r := LoadTarget(s, c.plan.operation, c.targets[k].target);
            r.t.phase == IsReady && r.t.revoke.Some? && r.t != c.targets[k]
  {
  }

  lemma TargetReproduced(c: Coordinator, s: Store, x: Since, k: string)
    requires Synced(c, s, x) && k in c.targets
    ensures Reproduced(c, s, k) <==> !Overtaken(c, s, x, k) && Survives(c.targets[k], x, k)
  {
    SyncedTells(c, s, x, k);
    if Overtaken(c, s, x, k) { OvertakenReadsReady(c, s, x, k); } else { ReadsBack(c, s, x, k); }
  }

  /** No revoke since the last result, and every failure has a revoke and is written in a result. */
  predicate Settled(c: Coordinator, s: Store, x: Since) { !AnyOvertaken(c, s, x) && AllSurvive(c, x) }

  lemma ReproducedExactly(c: Coordinator, s: Store, x: Since)
    requires Synced(c, s, x)
    ensures AllReproduced(c, s) <==> Settled(c, s, x)
  {
    forall k | k in c.targets ensures Reproduced(c, s, k) <==> !Overtaken(c, s, x, k) && Survives(c.targets[k], x, k) {
      TargetReproduced(c, s, x, k);
    }
  }

  /**
   Recovery round trip. In every life of an operation, reading the store back gives exactly
   the coordinator's targets if and only if no revoke was issued after the last recorded
   result, and every failed target had a revoke and stands in a result recorded since.
   */
  lemma RoundTripExactly(plan: Plan, s: Store, calls: seq<Timed>)
    requires plan.Valid() && Unused(s, plan.operation)
    ensures var l := LifeOf(plan, s, calls); AllReproduced(l.w.c, l.w.s) <==> Settled(l.w.c, l.w.s, l.since)
  {
    LifeSynced(plan, s, calls);
    var l := LifeOf(plan, s, calls);
    ReproducedExactly(l.w.c, l.w.s, l.since);
  }

  /**
   Which failures last. In every life a failed target is read back as failed, with its code,
   if and only if it has a revoke and a result was recorded after it failed; a failure
   that the coordinator made of a failed store call waits for the next result.
   */
  lemma FailureSurvivesExactly(plan: Plan, s: Store, calls: seq<Timed>, k: string)
    requires plan.Valid() && Unused(s, plan.operation)
    requires var c := LifeOf(plan, s, calls).w.c; k in c.targets && c.targets[k].phase == Failed
    ensures var l := LifeOf(plan, s, calls); var t := l.w.c.targets[k];
            var r := LoadTarget(l.w.s, plan.operation, t.target).t;
            (r.phase == Failed && r.code == t.code) <==> t.revoke.Some? && k !in l.since.broken
  {
    LifeSynced(plan, s, calls);
    var l := LifeOf(plan, s, calls);
    SyncedTells(l.w.c, l.w.s, l.since, k);
    if Overtaken(l.w.c, l.w.s, l.since, k) {
      OvertakenReadsReady(l.w.c, l.w.s, l.since, k);
    } else {
      ReadsBack(l.w.c, l.w.s, l.since, k);
    }
  }

  /** A failure before the revoke is never read back: the target returns as if it had not failed. */
  lemma EarlyFailureIsForgotten(plan: Plan, s: Store, calls: seq<Timed>, k: string)
    requires plan.Valid() && Unused(s, plan.operation)
    requires var c := LifeOf(plan, s, calls).w.c;
             k in c.targets && c.targets[k].phase == Failed && c.targets[k].revoke.None?
    ensures var l := LifeOf(plan, s, calls); var t := l.w.c.targets[k];
            LoadTarget(l.w.s, plan.operation, t.target) == AsRecovered(t.(phase := EvidencePhase(t), code := NoCode))
  {
    LifeSynced(plan, s, calls);
    var l := LifeOf(plan, s, calls);
    SyncedTells(l.w.c, l.w.s, l.since, k);
    ReadsBack(l.w.c, l.w.s, l.since, k);
  }

  lemma LivedTwo(l: Ledger, a: Timed, b: Timed)
    requires Evident(l.w.c, l.w.s)
    ensures NextLedger(l, a).w.c.Tracks() && Lived(l, [a, b]) == NextLedger(NextLedger(l, a), b)
  {
    CallKept(l.w.c, l.w.s, a.now, a.call);
    var l1 := NextLedger(l, a);
    CallKept(l1.w.c, l1.w.s, b.now, b.call);
    assert [a, b][1..] == [b] && [b][1..] == [];
    assert Lived(l, [a, b]) == Lived(l1, [b]);
    assert Lived(l1, [b]) == Lived(NextLedger(l1, b), []);
  }

  lemma FailOf(c: Coordinator, s: Store, now: int, k: string, code: Code)
    requires c.Tracks() && k in c.targets && !Final(c.targets[k]) && ValidCode(code)
    ensures var d := Perform(c, s, now, Fail(k, code, true)).c;
            k in d.targets && d.targets[k] == c.targets[k].(phase := Failed, code := code)
  {
    PerformIs(c, s, now, Fail(k, code, true));
    CommitDiffers(c, s, now, k, FailMove(c.targets[k], code, true));
  }

  /** Such a failure needs no more than one call: failing any target of any started operation. */
  lemma FailureIsLost(plan: Plan, s: Store, now: int, i: nat)
    requires plan.Valid() && Unused(s, plan.operation) && i < |plan.targets|
    ensures var l := LifeOf(plan, s, [Timed(now, Start(true)),
            Timed(now, Fail(plan.targets[i].connector, RotationFailed, true))]);
            var k := plan.targets[i].connector;
            && k in l.w.c.targets && l.w.c.targets[k].phase == Failed && l.w.c.targets[k].code == RotationFailed
            && LoadTarget(l.w.s, plan.operation, plan.targets[i]) == AsRecovered(Idle(plan.targets[i]))
  {
    var k := plan.targets[i].connector;
    var a, b := Timed(now, Start(true)), Timed(now, Fail(k, RotationFailed, true));
    NewTracks(plan);
    NewIsEvident(plan, s);
    LivedTwo(Fresh(plan, s), a, b);
    var l := NextLedger(Fresh(plan, s), a);
    assert l.w.c.targets == NewCoordinator(plan).targets;
    FailOf(l.w.c, l.w.s, now, k, RotationFailed);
    EarlyFailureIsForgotten(plan, s, [a, b], k);
  }

  // ---------------------------------------------------------------- resuming in a new process

  lemma {:induction false} AdoptAt(targets: map<string, TargetState>, xs: seq<Recovered>, i: nat)
    requires Distinct(xs) && i < |xs|
    ensures xs[i].t.target.connector in Adopt(targets, xs) && Adopt(targets, xs)[xs[i].t.target.connector] == xs[i].t
    decreases |xs|
  {
    if i < |xs| - 1 { AdoptAt(targets, xs[..|xs| - 1], i); }
  }

  function Recoveries(c: Coordinator): seq<Recovered>
    requires c.Tracks()
  {
    seq(|c.plan.targets|, i requires 0 <= i < |c.plan.targets| => AsRecovered(c.targets[c.plan.targets[i].connector]))
  }

  lemma RecoveriesDistinct(c: Coordinator)
    requires c.Tracks()
    ensures Distinct(Recoveries(c))
  {
    ConnectorsDistinct(c.plan);
    var xs := Recoveries(c);
    forall i, j | 0 <= i < j < |xs| ensures xs[i].t.target.connector != xs[j].t.target.connector {
      assert xs[i].t.target == c.plan.targets[i] && xs[j].t.target == c.plan.targets[j];
    }
  }

  lemma SameKeys(c: Coordinator, d: Coordinator)
    requires c.Tracks() && d.Tracks() && c.plan == d.plan
    ensures c.targets.Keys == d.targets.Keys
  {
    forall k | k in c.targets ensures k in d.targets { assert c.plan.Has(k); }
    forall k | k in d.targets ensures k in c.targets { assert c.plan.Has(k); }
  }

  lemma AdoptKeys(c: Coordinator, idle: Coordinator)
    requires c.Tracks() && idle.Tracks() && idle.plan == c.plan
    ensures Adopt(idle.targets, Recoveries(c)).Keys == c.targets.Keys
  {
    var xs := Recoveries(c);
    forall i | 0 <= i < |xs| ensures xs[i].t.target.connector in idle.targets
        && idle.targets[xs[i].t.target.connector].target == xs[i].t.target {
      assert xs[i].t.target == c.plan.targets[i];
    }
    AdoptSameTargets(idle.targets, xs);
    SameKeys(c, idle);
  }

  /** A coordinator that adopts every recovered target has the old one's targets. */
  lemma AdoptAll(c: Coordinator, idle: Coordinator)
    requires c.Tracks() && idle.Tracks() && idle.plan == c.plan
    ensures Adopt(idle.targets, Recoveries(c)) == c.targets
  {
    var xs, after := Recoveries(c), Adopt(idle.targets, Recoveries(c));
    RecoveriesDistinct(c);
    AdoptKeys(c, idle);
    forall k | k in c.targets ensures k in after && after[k] == c.targets[k] {
      assert c.plan.Has(k);
      var i :| 0 <= i < |c.plan.targets| && c.plan.targets[i].connector == k;
      assert xs[i].t == c.targets[k];
      AdoptAt(idle.targets, xs, i);
    }
  }

  lemma LoadReproduces(c: Coordinator, s: Store)
    requires Recorded(c, s) && c.started && AllReproduced(c, s)
    ensures Load(s, c.plan) == Some(Resumed(c.plan, FinishedAt(s.results, c.plan.operation), Recoveries(c)))
  {
    var l := Load(s, c.plan).value;
    forall i | 0 <= i < |c.plan.targets| ensures l.targets[i] == Recoveries(c)[i] {
      assert Reproduced(c, s, c.plan.targets[i].connector);
    }
    assert l.targets == Recoveries(c);
  }

  lemma RecoveryFits(c: Coordinator, s: Store, idle: Coordinator, i: nat)
    requires Evident(c, s) && idle.Tracks() && idle.plan == c.plan && i < |c.plan.targets|
    ensures Fits(idle, Recoveries(c)[i]) && (c.AllRevoked() ==> Recoveries(c)[i].t.phase == Revoked)
  {
    assert Held(c.plan, c.targets[c.plan.targets[i].connector], s);
    assert Recoveries(c)[i].t.target == c.plan.targets[i];
  }

  lemma PlannedAt(c: Coordinator, k: string) returns (i: nat)
    requires c.Tracks() && k in c.targets
    ensures i < |c.plan.targets| && c.plan.targets[i] == c.targets[k].target
  {
    assert c.plan.Has(k);
    i :| 0 <= i < |c.plan.targets| && c.plan.targets[i].connector == k;
  }

  predicate InTime(c: Coordinator, now: int) { c.finished != 0 ==> c.finished <= now + MAX_CLOCK_SKEW }

  lemma ReproducedResumable(c: Coordinator, s: Store, now: int, idle: Coordinator)
    requires Evident(c, s) && InTime(c, now) && (c.finished != 0 ==> c.AllRevoked() || c.AnyFailed())
    requires idle.Tracks() && idle.plan == c.plan && |idle.targets| == |c.plan.targets|
    ensures Resumable(idle, Resumed(c.plan, c.finished, Recoveries(c)), now)
  {
    RecoveriesDistinct(c);
    forall i | 0 <= i < |c.plan.targets| ensures Fits(idle, Recoveries(c)[i])
        && (c.AllRevoked() ==> Recoveries(c)[i].t.phase == Revoked) {
      RecoveryFits(c, s, idle, i);
    }
    if c.AnyFailed() {
      var k :| k in c.targets && c.targets[k].phase == Failed;
      var i := PlannedAt(c, k);
      assert Recoveries(c)[i].t.phase == Failed;
    }
  }

  // ---------------------------------------------------------------- what a resumed process holds

  /** What is left of a coordinator once its process is gone. */
  function Remains(c: Coordinator, x: Since): Coordinator {
    c.(finished := if c.AllRevoked() then c.finished else 0,
       targets := map k | k in c.targets :: Remembered(c.targets[k], x, k))
  }

  lemma RememberedHeld(plan: Plan, t: TargetState, x: Since, k: string, s: Store)
    requires Held(plan, t, s) && Traced(plan.operation, t, s)
    ensures Held(plan, Remembered(t, x, k), s) && Traced(plan.operation, Remembered(t, x, k), s)
  {
  }

  lemma RemainsTracks(c: Coordinator, x: Since)
    requires c.Tracks()
    ensures Remains(c, x).Tracks() && Remains(c, x).targets.Keys == c.targets.Keys
  {
    var r := Remains(c, x);
    assert forall k :: k in c.targets ==> r.targets[k].target == c.targets[k].target;
  }

  lemma RemainsRecorded(c: Coordinator, s: Store, x: Since)
    requires Recorded(c, s)
    ensures Recorded(Remains(c, x), s)
  {
    var r := Remains(c, x);
    RemainsTracks(c, x);
    forall k | k in r.targets ensures Held(c.plan, r.targets[k], s) && Traced(c.plan.operation, r.targets[k], s) {
      assert Held(c.plan, c.targets[k], s) && Traced(c.plan.operation, c.targets[k], s);
      RememberedHeld(c.plan, c.targets[k], x, k, s);
    }
  }

  lemma RemainsReproduced(c: Coordinator, s: Store, x: Since)
    requires Synced(c, s, x) && !AnyOvertaken(c, s, x)
    ensures AllReproduced(Remains(c, x), s)
  {
    forall k | k in c.targets ensures Reproduced(Remains(c, x), s, k) {
      assert !Overtaken(c, s, x, k);
      SyncedTells(c, s, x, k);
      ReadsBack(c, s, x, k);
    }
  }

  lemma RemainsFinished(c: Coordinator, s: Store, x: Since)
    requires Synced(c, s, x)
    ensures Remains(c, x).finished == FinishedAt(s.results, c.plan.operation)
    ensures Remains(c, x).finished != 0 ==> Remains(c, x).AllRevoked()
  {
  }

  lemma NoneBroken(c: Coordinator, s: Store, x: Since)
    requires Summarised(c, s, x) && AllSurvive(c, x)
    ensures !AnyBroken(c, x)
  {
    forall k | k in c.targets ensures k !in x.broken { assert Noted(c, s, x, k) && Survives(c.targets[k], x, k); }
  }

  lemma WholeTargets(c: Coordinator, x: Since)
    ensures Remains(c, x).targets == c.targets <==> AllSurvive(c, x)
  {
    var r := Remains(c, x);
    forall k | k in c.targets ensures r.targets[k] == c.targets[k] <==> Survives(c.targets[k], x, k) {
      assert r.targets[k] == Remembered(c.targets[k], x, k);
    }
    if r.targets == c.targets {
      forall k | k in c.targets ensures Survives(c.targets[k], x, k) { assert r.targets[k] == c.targets[k]; }
    }
  }

  /** The coordinator itself is what is left of it if and only if no failure is lost. */
  lemma RemainsWhole(c: Coordinator, s: Store, x: Since)
    requires Summarised(c, s, x)
    ensures Remains(c, x) == c <==> AllSurvive(c, x)
  {
    WholeTargets(c, x);
    if AllSurvive(c, x) { NoneBroken(c, s, x); }
  }

  /** A coordinator that its store reproduces is what a new process resumes. */
  lemma ReproducedResumes(r: Coordinator, s: Store, now: int)
    requires Recorded(r, s) && r.started && AllReproduced(r, s) && r.finished == FinishedAt(s.results, r.plan.operation)
    requires InTime(r, now) && (r.finished != 0 ==> r.AllRevoked() || r.AnyFailed())
    ensures DoResume(NewCoordinator(r.plan), s, now, true) == Outcome(r, s, true, NoReply)
  {
    LoadReproduces(r, s);
    NewTracks(r.plan);
    ReproducedResumable(r, s, now, NewCoordinator(r.plan));
    AdoptAll(r, NewCoordinator(r.plan));
  }

  lemma ResumesRemains(c: Coordinator, s: Store, x: Since, now: int)
    requires Synced(c, s, x) && c.started && InTime(Remains(c, x), now) && !AnyOvertaken(c, s, x)
    ensures DoResume(NewCoordinator(c.plan), s, now, true) == Outcome(Remains(c, x), s, true, NoReply)
  {
    var r := Remains(c, x);
    RemainsRecorded(c, s, x);
    RemainsReproduced(c, s, x);
    RemainsFinished(c, s, x);
    ReproducedResumes(r, s, now);
  }

  lemma NotResumable(idle: Coordinator, l: Resumed, now: int, i: nat)
    requires i < |l.targets| && !Acceptable(idle.plan, l.targets[i])
    ensures !Resumable(idle, l, now)
  {
  }

  lemma LoadAt(s: Store, plan: Plan, i: nat)
    requires PlanFor(s.started, plan.operation) == Some(plan) && i < |plan.targets|
    ensures Load(s, plan).Some? && i < |Load(s, plan).value.targets|
    ensures Load(s, plan).value.targets[i] == LoadTarget(s, plan.operation, plan.targets[i])
  {
  }

  lemma UnacceptableRefused(c: Coordinator, s: Store, i: nat, now: int)
    requires Recorded(c, s) && c.started && i < |c.plan.targets|
             && !Acceptable(c.plan, LoadTarget(s, c.plan.operation, c.plan.targets[i]))
    ensures !DoResume(NewCoordinator(c.plan), s, now, true).ok
  {
    LoadAt(s, c.plan, i);
    NotResumable(NewCoordinator(c.plan), Load(s, c.plan).value, now, i);
  }

  lemma OvertakenUnacceptable(c: Coordinator, s: Store, x: Since, k: string)
    requires Told(c, s, x, k) && Overtaken(c, s, x, k)
    ensures !Acceptable(c.plan, LoadTarget(s, c.plan.operation, c.targets[k].target))
  {
    OvertakenReadsReady(c, s, x, k);
  }

  lemma OvertakenRefused(c: Coordinator, s: Store, x: Since, now: int)
    requires Synced(c, s, x) && c.started && AnyOvertaken(c, s, x)
    ensures !DoResume(NewCoordinator(c.plan), s, now, true).ok
  {
    var k :| k in c.targets && Overtaken(c, s, x, k);
    var i := PlannedAt(c, k);
    SyncedTells(c, s, x, k);
    OvertakenUnacceptable(c, s, x, k);
    UnacceptableRefused(c, s, i, now);
  }

  lemma LateRefused(c: Coordinator, s: Store, x: Since, now: int)
    requires Synced(c, s, x) && c.started && !InTime(Remains(c, x), now)
    ensures !DoResume(NewCoordinator(c.plan), s, now, true).ok
  {
    RemainsFinished(c, s, x);
    assert Load(s, c.plan).value.finishedAt == Remains(c, x).finished;
  }

  /**
   A new process that resumes a started operation is refused exactly when a revoke was issued
   after the last recorded result or the recorded finishing time lies in the future. Otherwise
   it holds what is left of the lost coordinator, which is the whole of it exactly when no
   failure is lost.
   */
  lemma ResumeExactly(plan: Plan, s: Store, calls: seq<Timed>, now: int)
    requires plan.Valid() && Unused(s, plan.operation) && LifeOf(plan, s, calls).w.c.started
    ensures var l := LifeOf(plan, s, calls); var o := DoResume(NewCoordinator(plan), l.w.s, now, true);
            && (o.ok <==> !AnyOvertaken(l.w.c, l.w.s, l.since) && InTime(Remains(l.w.c, l.since), now))
            && (o.ok ==> o.c == Remains(l.w.c, l.since) && o.s == l.w.s)
            && (o.ok ==> (o.c == l.w.c <==> AllSurvive(l.w.c, l.since)))
  {
    LifeSynced(plan, s, calls);
    var l := LifeOf(plan, s, calls);
    RemainsWhole(l.w.c, l.w.s, l.since);
    if AnyOvertaken(l.w.c, l.w.s, l.since) {
      OvertakenRefused(l.w.c, l.w.s, l.since, now);
    } else if !InTime(Remains(l.w.c, l.since), now) {
      LateRefused(l.w.c, l.w.s, l.since, now);
    } else {
      ResumesRemains(l.w.c, l.w.s, l.since, now);
    }
  }

  // ---------------------------------------------------------------- resuming over what is in memory

  lemma LoadedDistinct(plan: Plan, s: Store, op: string)
    requires plan.Valid()
    ensures Distinct(seq(|plan.targets|, i requires 0 <= i < |plan.targets| => LoadTarget(s, op, plan.targets[i])))
  {
    ConnectorsDistinct(plan);
    var xs := seq(|plan.targets|, i requires 0 <= i < |plan.targets| => LoadTarget(s, op, plan.targets[i]));
    forall i, j | 0 <= i < j < |xs| ensures xs[i].t.target.connector != xs[j].t.target.connector {
      assert xs[i].t.target == plan.targets[i] && xs[j].t.target == plan.targets[j];
    }
  }

  /**
   The one call that can move a target backwards is Resume on a coordinator that has not
   started: if it succeeds, whatever each target held, failures included, is replaced by
   what the store shows for it.
   */
  lemma ResumeDiscards(c: Coordinator, s: Store, now: int, i: nat)
    requires c.Tracks() && !c.started && PlanFor(s.started, c.plan.operation) == Some(c.plan) && i < |c.plan.targets|
    ensures var o := DoResume(c, s, now, true); var t := c.plan.targets[i];
            o.ok ==> t.connector in o.c.targets && o.c.targets[t.connector] == LoadTarget(s, c.plan.operation, t).t
  {
    if DoResume(c, s, now, true).ok {
      LoadedDistinct(c.plan, s, c.plan.operation);
      AdoptAt(c.targets, Load(s, c.plan).value.targets, i);
    }
  }

  // ---------------------------------------------------------------- failing before starting

  lemma IdleReproduced(plan: Plan, s: Store)
    requires plan.Valid() && NoEvidence(s, plan.operation) && PlanFor(s.started, plan.operation) == Some(plan)
    ensures NewCoordinator(plan).Tracks()
    ensures Load(s, plan) == Some(Resumed(plan, FinishedAt(s.results, plan.operation),
            Recoveries(NewCoordinator(plan))))
  {
    var c := NewCoordinator(plan);
    NewTracks(plan);
    var l := Load(s, plan).value;
    forall i | 0 <= i < |plan.targets| ensures l.targets[i] == Recoveries(c)[i] {
      NothingUnused(s, plan.operation, plan.targets[i].connector);
      assert c.targets[plan.targets[i].connector] == Idle(plan.targets[i]);
    }
    assert l.targets == Recoveries(c);
  }

  /** Over a store without a record of its own, such a coordinator is all idle again. */
  lemma ResumeForgets(c: Coordinator, s: Store, now: int)
    requires c.Tracks() && !c.started && |c.targets| == |c.plan.targets|
    requires NoEvidence(s, c.plan.operation) && PlanFor(s.started, c.plan.operation) == Some(c.plan)
    requires FinishedAt(s.results, c.plan.operation) == 0
    ensures var o := DoResume(c, s, now, true); o.ok && o.c.targets == NewCoordinator(c.plan).targets
  {
    IdleReproduced(c.plan, s);
    NewIsEvident(c.plan, s);
    ReproducedResumable(NewCoordinator(c.plan), s, now, c);
    AdoptAll(NewCoordinator(c.plan), c);
  }
}
