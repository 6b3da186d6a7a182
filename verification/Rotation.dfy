/**
 Credential rotation: plan, messages, coordinator and durable store, as values.
 `wellFormed` carries the verdict of the pattern, key and signature checks; 0 is
 the zero time. A store call that fails (`stored == false`) writes nothing.
 */
module Rotations {
  import opened SessionTypes
  import Strings

  const YEAR: int := 365 * 24 * 3600 * SECOND
  const MAX_ROTATION_LIFETIME: int := 5 * YEAR
  const ABORT_TIMEOUT: int := 5 * SECOND
  const MAX_TARGETS: int := 256

  // ---------------------------------------------------------------- plan

  datatype Target = Target(connector: string, host: string, oldGeneration: nat, newGeneration: nat) {
    predicate Valid() {
      ValidIdentifier(connector) && ValidIdentifier(host) && oldGeneration != 0 && newGeneration == oldGeneration + 1
    }
  }

  /** `sealed`: the target-set hash is the digest of the other fields. */
  datatype Plan = Plan(account: string, tunnel: string, operation: string, targetSetHash: string, targets: seq<Target>,
      sealed: bool) {
    predicate Valid() {
      && ValidIdentifier(account) && ValidIdentifier(tunnel) && ValidIdentifier(operation) && sealed
      && 0 < |targets| <= MAX_TARGETS
      && (forall i :: 0 <= i < |targets| ==> targets[i].Valid())
      && (forall i :: 0 < i < |targets| ==> Strings.Less(targets[i - 1].connector, targets[i].connector))
    }
    predicate Has(connector: string) { exists i :: 0 <= i < |targets| && targets[i].connector == connector }
  }

  // ---------------------------------------------------------------- messages

  /** The identity every rotation message repeats. */
  datatype Binding = Binding(account: string, tunnel: string, operation: string, connector: string, host: string,
                             session: string, process: nat, targetSetHash: string, oldGeneration: nat,
                                 newGeneration: nat) {
    predicate Valid() { process != 0 && oldGeneration != 0 && newGeneration == oldGeneration + 1 }
    /** Everything but the session is fixed by the plan and the target. */
    predicate For(p: Plan, t: Target) {
      && account == p.account && tunnel == p.tunnel && operation == p.operation && targetSetHash == p.targetSetHash
      && connector == t.connector && host == t.host && oldGeneration == t.oldGeneration
         && newGeneration == t.newGeneration
    }
  }

  function BindingOf(p: Plan, t: Target, session: string, process: nat): Binding {
    Binding(p.account, p.tunnel, p.operation, t.connector, t.host, session, process, p.targetSetHash, t.oldGeneration,
        t.newGeneration)
  }

  datatype KeyRef = KeyRef(id: string, thumbprint: string)
  datatype NewKey = NewKey(id: string, thumbprint: string, publicKey: string, reference: string)

  datatype Challenge = Challenge(b: Binding, target: Target, oldKey: KeyRef, nonce: string, issuedAt: int,
      expiresAt: int,
                                 overlapUntil: int, validUntil: int, wellFormed: bool) {
    predicate Valid() {
      && wellFormed && b.Valid() && target.Valid()
      && issuedAt != 0 && expiresAt != 0 && overlapUntil != 0 && validUntil != 0
      && issuedAt < expiresAt < overlapUntil < validUntil
      && expiresAt - issuedAt <= 900 * SECOND && overlapUntil - issuedAt <= MAX_LEASE
         && validUntil - issuedAt <= MAX_ROTATION_LIFETIME
      && target == Target(b.connector, b.host, b.oldGeneration, b.newGeneration)
    }
    predicate Fresh(now: int) {
      now - MAX_CLOCK_SKEW <= issuedAt <= now + MAX_CLOCK_SKEW && now < expiresAt && now < overlapUntil
    }
  }

  datatype Proof = Proof(b: Binding, oldKey: KeyRef, key: NewKey, nonce: string, issuedAt: int, validUntil: int,
      wellFormed: bool) {
    predicate Valid(now: int) {
      && wellFormed && b.Valid() && oldKey.id != key.id && issuedAt != 0 && validUntil != 0
      && issuedAt < validUntil <= issuedAt + MAX_ROTATION_LIFETIME
      && now - MAX_CLOCK_SKEW <= issuedAt <= now + MAX_CLOCK_SKEW
    }
    predicate Matches(c: Challenge, t: Target) {
      && b.(oldGeneration := t.oldGeneration, newGeneration := t.newGeneration)
         == c.b.(oldGeneration := t.oldGeneration, newGeneration := t.newGeneration)
      && b.oldGeneration == t.oldGeneration && b.newGeneration == t.newGeneration
      && oldKey == c.oldKey && nonce == c.nonce && validUntil == c.validUntil
      && c.issuedAt <= issuedAt <= c.expiresAt
    }
  }

  datatype Install = Install(b: Binding, key: NewKey, nonce: string, overlapUntil: int, validUntil: int,
      replacement: nat, wellFormed: bool) {
    predicate Valid() {
      && wellFormed && b.Valid() && b.process < replacement && overlapUntil != 0 && validUntil != 0
      && overlapUntil < validUntil <= overlapUntil + MAX_ROTATION_LIFETIME
    }
  }

  datatype Ready = Ready(b: Binding, previousSession: string, key: NewKey, validUntil: int, config: Config,
                         edge: bool, route: bool, origin: bool, readyAt: int, wellFormed: bool) {
    predicate Valid() {
      && wellFormed && b.Valid() && validUntil != 0 && config.generation != 0 && readyAt != 0 && edge && route && origin
    }
    predicate Fresh(now: int) { now < validUntil && now - MAX_CLOCK_SKEW <= readyAt <= now + MAX_CLOCK_SKEW }
    /** The replacement session reports the very key that was installed. */
    predicate Of(i: Install) {
      && previousSession == i.b.session && b.session != i.b.session && b.process >= i.replacement
      && key == i.key && validUntil == i.validUntil
    }
  }

  datatype Revoke = Revoke(b: Binding, nonce: string, issuedAt: int, deadline: int, wellFormed: bool) {
    predicate Valid() {
      && wellFormed && b.Valid() && issuedAt != 0 && deadline != 0
      && issuedAt < deadline <= issuedAt + 2 * ABORT_TIMEOUT
    }
    predicate Of(r: Ready) {
      || (b.process == r.b.process && b.session == r.b.session)
      || (b.process > r.b.process && b.session != r.b.session)
    }
  }

  datatype RotationStatus = SaysProofAccepted | SaysInstalled | SaysReady | SaysRevoked | SaysRejected | SaysFailed

  /** Failure codes: absent, one of the protocol's, or something else. */
  datatype Code = NoCode | RotationFailed | Other(name: string) | Unknown

  predicate ValidCode(c: Code) { c != NoCode && c != Unknown }

  datatype RotationAck = RotationAck(b: Binding, status: RotationStatus, code: Code, wellFormed: bool) {
    predicate Negative() { status == SaysRejected || status == SaysFailed }
    predicate Valid() { wellFormed && b.Valid() && (if Negative() then ValidCode(code) else code == NoCode) }
  }

  // ---------------------------------------------------------------- coordinator state

  datatype Phase = Pending | Challenged | Installed | IsReady | Revoking | Revoked | Failed

  datatype TargetState = TargetState(target: Target, phase: Phase, code: Code, challenge: Option<Challenge>,
      proof: Option<Proof>,
                                     install: Option<Install>, ready: Option<Ready>, revoke: Option<Revoke>)

  datatype Status = StatusPending | StatusSucceeded | StatusFailed

  datatype SummaryLine = SummaryLine(connector: string, phase: Phase, code: Code)

  datatype Summary = Summary(operation: string, status: Status, lines: seq<SummaryLine>, completedAt: int)

  datatype Coordinator = Coordinator(plan: Plan, started: bool, finished: int, targets: map<string, TargetState>) {
    /** Exactly the plan's targets are tracked, under their own connectors. */
    predicate Tracks() {
      && plan.Valid()
      && (forall i :: 0 <= i < |plan.targets| ==>
            plan.targets[i].connector in targets && targets[plan.targets[i].connector].target == plan.targets[i])
      && (forall k :: k in targets ==> targets[k].target.connector == k && plan.Has(k))
    }
    predicate AnyFailed() { exists k :: k in targets && targets[k].phase == Failed }
    predicate AllRevoked() { forall k :: k in targets ==> targets[k].phase == Revoked }
    predicate AllReady() {
      forall k :: k in targets ==>
          targets[k].phase == IsReady || targets[k].phase == Revoking || targets[k].phase == Revoked
    }
  }

  function Idle(t: Target): TargetState { TargetState(t, Pending, NoCode, None, None, None, None, None) }

  function NewCoordinator(plan: Plan): Coordinator
    requires plan.Valid()
  {
    Coordinator(plan, false, 0, Tracked(plan.targets))
  }

  function Tracked(targets: seq<Target>): map<string, TargetState> {
    if targets == [] then map[]
    else var t := targets[|targets| - 1]; Tracked(targets[..|targets| - 1])[t.connector := Idle(t)]
  }

  function StatusOf(c: Coordinator): Status {
    if c.AnyFailed() then StatusFailed else if c.AllRevoked() then StatusSucceeded else StatusPending
  }

  function SummaryOf(c: Coordinator): Summary
    requires c.Tracks()
  {
    Summary(c.plan.operation, StatusOf(c),
            seq(|c.plan.targets|, i requires 0 <= i < |c.plan.targets| =>
                  var t := c.targets[c.plan.targets[i].connector]; SummaryLine(t.target.connector, t.phase, t.code)),
            if StatusOf(c) == StatusSucceeded then c.finished else 0)
  }

  // ---------------------------------------------------------------- durable store

  datatype Store = Store(started: seq<Plan>, challenges: seq<Challenge>, proofs: seq<Proof>, installs: seq<Install>,
                         readiness: seq<Ready>, revocations: seq<Revoke>, results: seq<Summary>)

  predicate SamePlan(a: Plan, b: Plan) {
    a.account == b.account && a.tunnel == b.tunnel && a.targetSetHash == b.targetSetHash && |a.targets| == |b.targets|
  }

  /** The first plan begun under an operation. */
  function PlanFor(plans: seq<Plan>, operation: string): Option<Plan> {
    if plans == [] then None else if plans[0].operation == operation then Some(plans[0])
        else PlanFor(plans[1..], operation)
  }

  function Begin(s: Store, plan: Plan): (Store, bool) {
    match PlanFor(s.started, plan.operation)
    case Some(begun) => (s, SamePlan(begun, plan))
    case None => (s.(started := s.started + [plan]), true)
  }

  // ---------------------------------------------------------------- recovery

  datatype Recovered = Recovered(t: TargetState, overlapUntil: int, validUntil: int)

  datatype Resumed = Resumed(plan: Plan, finishedAt: int, targets: seq<Recovered>)

  function LastChallenge(cs: seq<Challenge>, op: string, connector: string): Option<Challenge> {
    if cs == [] then None
    else var c := cs[|cs| - 1]; if c.b.operation == op && c.b.connector == connector then Some(c)
        else LastChallenge(cs[..|cs| - 1], op, connector)
  }

  /** The last proof of a connector, with the install recorded beside it. */
  function LastProof(ps: seq<Proof>, ins: seq<Install>, op: string,
      connector: string): Option<(Proof, Option<Install>)> {
    if ps == [] then None
    else
      var n := |ps| - 1;
      if ps[n].b.operation == op && ps[n].b.connector == connector
          then Some((ps[n], if n < |ins| then Some(ins[n]) else None))
      else LastProof(ps[..n], ins, op, connector)
  }

  function LastReady(rs: seq<Ready>, op: string, connector: string): Option<Ready> {
    if rs == [] then None
    else var r := rs[|rs| - 1]; if r.b.operation == op && r.b.connector == connector then Some(r)
        else LastReady(rs[..|rs| - 1], op, connector)
  }

  function LastRevoke(vs: seq<Revoke>, op: string, connector: string): Option<Revoke> {
    if vs == [] then None
    else var v := vs[|vs| - 1]; if v.b.operation == op && v.b.connector == connector then Some(v)
        else LastRevoke(vs[..|vs| - 1], op, connector)
  }

  function LineFor(lines: seq<SummaryLine>, connector: string): Option<SummaryLine> {
    if lines == [] then None
    else var l := lines[|lines| - 1]; if l.connector == connector then Some(l)
        else LineFor(lines[..|lines| - 1], connector)
  }

  /** The last thing any recorded result says about a connector. */
  function Overlay(results: seq<Summary>, op: string, connector: string): Option<SummaryLine> {
    if results == [] then None
    else
      var r := results[|results| - 1];
      var line := if r.operation == op then LineFor(r.lines, connector) else None;
      if line.Some? then line else Overlay(results[..|results| - 1], op, connector)
  }

  function FinishedAt(results: seq<Summary>, op: string): int {
    if results == [] then 0
    else
      var r := results[|results| - 1];
      if r.operation == op && r.status == StatusSucceeded then r.completedAt
          else FinishedAt(results[..|results| - 1], op)
  }

  /** What Load reconstructs for one target. */
  function LoadTarget(s: Store, op: string, t: Target): Recovered {
    var c := LastChallenge(s.challenges, op, t.connector);
    var p := LastProof(s.proofs, s.installs, op, t.connector);
    var r := LastReady(s.readiness, op, t.connector);
    var v := LastRevoke(s.revocations, op, t.connector);
    var o := if v.Some? then Overlay(s.results, op, t.connector) else None;
    var phase := if o.Some? then o.value.phase else if v.Some? then Revoking else if r.Some? then IsReady
                 else if p.Some? then Installed else if c.Some? then Challenged else Pending;
    Recovered(TargetState(t, phase, if o.Some? then o.value.code else NoCode, c,
                          if p.Some? then Some(p.value.0) else None, if p.Some? then p.value.1 else None, r, v),
              if c.Some? then c.value.overlapUntil else 0, if c.Some? then c.value.validUntil else 0)
  }

  function Load(s: Store, plan: Plan): Option<Resumed> {
    match PlanFor(s.started, plan.operation)
    case None => None
    case Some(begun) =>
      if !SamePlan(begun, plan) then None
      else Some(Resumed(begun, FinishedAt(s.results, plan.operation),
                        seq(|begun.targets|, i requires 0 <= i < |begun.targets| => LoadTarget(s, plan.operation,
                            begun.targets[i]))))
  }

  predicate Acceptable(plan: Plan, x: Recovered) {
    var t := x.t;
    && t.target.Valid() && t.target in plan.targets
    && (if t.phase == Failed then ValidCode(t.code) else t.code == NoCode)
    && (x.overlapUntil == 0 <==> x.validUntil == 0) && (x.overlapUntil != 0 ==> x.overlapUntil < x.validUntil)
    && (t.install.Some? ==> t.challenge.Some?) && (t.ready.Some? ==> t.install.Some?)
       && (t.revoke.Some? ==> t.ready.Some?)
    && (t.challenge.Some? ==>
       t.challenge.value.Valid() && t.challenge.value.b.For(plan, t.target) && t.challenge.value.target == t.target)
    && (t.install.Some? ==>
          var i, c := t.install.value, t.challenge.value;
          i.Valid() && i.b.For(plan, t.target) && i.b.session == c.b.session && i.b.process == c.b.process
              && i.nonce == c.nonce)
    && (t.ready.Some? ==>
          t.ready.value.Valid() && t.ready.value.b.For(plan, t.target) && t.ready.value.Of(t.install.value))
    && (t.revoke.Some? ==>
          t.revoke.value.Valid() && t.revoke.value.b.For(plan, t.target) && t.revoke.value.Of(t.ready.value))
    && match t.phase
       case Pending => t.challenge.None?
       case Challenged => t.challenge.Some? && t.install.None?
       case Installed => t.install.Some? && t.ready.None?
       case IsReady => t.ready.Some? && t.revoke.None?
       case Revoking => t.revoke.Some?
       case Revoked => t.revoke.Some?
       case Failed => true
  }

  predicate Distinct(xs: seq<Recovered>) {
    forall i, j :: 0 <= i < j < |xs| ==> xs[i].t.target.connector != xs[j].t.target.connector
  }

  /** A recovered target that a coordinator tracks and may adopt. */
  predicate Fits(c: Coordinator, x: Recovered) {
    x.t.target.connector in c.targets && c.targets[x.t.target.connector].target == x.t.target && Acceptable(c.plan, x)
  }

  predicate Resumable(c: Coordinator, l: Resumed, now: int) {
    && l.plan.Valid() && SamePlan(l.plan, c.plan) && l.plan.operation == c.plan.operation
    && |l.targets| == |c.targets| && Distinct(l.targets)
    && (forall i :: 0 <= i < |l.targets| ==> Fits(c, l.targets[i]))
    && (l.finishedAt != 0 ==>
          && ((exists i :: 0 <= i < |l.targets| && l.targets[i].t.phase == Failed)
             || (forall i :: 0 <= i < |l.targets| ==> l.targets[i].t.phase == Revoked))
          && l.finishedAt <= now + MAX_CLOCK_SKEW)
  }

  /** Overwrite the tracked targets with the recovered ones, in order. */
  function Adopt(targets: map<string, TargetState>, xs: seq<Recovered>): map<string, TargetState> {
    if xs == [] then targets
    else var x := xs[|xs| - 1]; Adopt(targets, xs[..|xs| - 1])[x.t.target.connector := x.t]
  }

  // ---------------------------------------------------------------- calls

  datatype Reply = NoReply | ChallengeReply(challenge: Challenge) | InstallReply(install: Install)
                 | ReadyReply(ready: Ready) | RevokeReply(revoke: Revoke) | SummaryReply(summary: Summary)

  datatype Outcome = Outcome(c: Coordinator, s: Store, ok: bool, reply: Reply)

  datatype Call =
    | Start(stored: bool)
    | Resume(stored: bool)
    | IssueChallenge(connector: string, session: string, process: nat, oldKey: KeyRef, nonce: string, issuedAt: int,
        expiresAt: int,
                     overlapUntil: int, validUntil: int, wellFormed: bool, authorized: bool, stored: bool)
    | AcceptProof(proof: Proof, verified: bool, stored: bool)
    | MarkReady(ready: Ready, stored: bool)
    | RequestRevoke(connector: string, nonce: string, nonceOk: bool, stored: bool)
    | HandleAck(ack: RotationAck, stored: bool)
    | Fail(connector: string, code: Code, stored: bool)

  datatype Write = WriteNothing | WriteChallenge(challenge: Challenge) | WriteProof(proof: Proof, install: Install)
                 | WriteReady(ready: Ready) | WriteRevoke(revoke: Revoke) | WriteResult

  /**
   What a call does to the one target it addresses; `last` marks the acknowledgement that may
   finish the operation.
   */
  datatype Move = Move(t: TargetState, write: Write, ok: bool, reply: Reply, last: bool)

  function Stay(t: TargetState): Move { Move(t, WriteNothing, false, NoReply, false) }

  /** A store failure that the coordinator turns into a failed target. */
  function Broken(t: TargetState): Move {
    Move(t.(phase := Failed, code := RotationFailed), WriteNothing, false, NoReply, false)
  }

  function ChallengeMove(plan: Plan, t: TargetState, now: int, call: Call): Move
    requires call.IssueChallenge?
  {
    var expired := t.phase == Challenged && t.challenge.Some? && t.challenge.value.expiresAt != 0
        && t.challenge.value.expiresAt <= now;
    var c := Challenge(BindingOf(plan, t.target, call.session, call.process), t.target, call.oldKey, call.nonce,
        call.issuedAt,
                       call.expiresAt, call.overlapUntil, call.validUntil, call.wellFormed);
    if (t.phase != Pending && !expired) || !c.Valid() || !c.Fresh(now) || !call.authorized || !call.stored then Stay(t)
    else Move(t.(challenge := Some(c), phase := Challenged), WriteChallenge(c), true, ChallengeReply(c), false)
  }

  function InstallFor(plan: Plan, p: Proof, c: Challenge): Install {
    Install(p.b.(account := plan.account, tunnel := plan.tunnel, operation := plan.operation,
        targetSetHash := plan.targetSetHash),
            p.key, p.nonce, c.overlapUntil, p.validUntil, p.b.process + 1, p.wellFormed)
  }

  function Proved(t: TargetState, p: Proof, i: Install, stored: bool): Move {
    if !stored then Broken(t)
    else
      var u := t.(proof := Some(p), install := Some(i), phase := Installed);
      Move(u, WriteProof(p, i), true, InstallReply(i), false)
  }

  function ProofMove(plan: Plan, t: TargetState, now: int, p: Proof, verified: bool, stored: bool): Move {
    if !p.Valid(now) || t.phase != Challenged || t.challenge.None? || !p.Matches(t.challenge.value, t.target)
       || !verified then Stay(t)
    else
      var i := InstallFor(plan, p, t.challenge.value);
      if !i.Valid() || i.overlapUntil <= now then Stay(t)
      else Proved(t, p, i, stored)
  }

  /** A readiness report that answers this target's own install. */
  predicate Answers(plan: Plan, t: TargetState, r: Ready) {
    && t.install.Some? && r.Of(t.install.value) && r.b.account == plan.account && r.b.tunnel == plan.tunnel
       && r.b.operation == plan.operation
    && r.b.targetSetHash == plan.targetSetHash && r.b.connector == t.install.value.b.connector
       && r.b.host == t.install.value.b.host
    && r.b.oldGeneration == t.install.value.b.oldGeneration && r.b.newGeneration == t.install.value.b.newGeneration
  }

  function ReadyMove(plan: Plan, t: TargetState, now: int, r: Ready, stored: bool): Move {
    if !r.Valid() || !r.Fresh(now) || t.phase != Installed || !Answers(plan, t, r) then Stay(t)
    else if !stored then Broken(t)
    else Move(t.(ready := Some(r), phase := IsReady), WriteReady(r), true, ReadyReply(r), false)
  }

  function RevokeMove(plan: Plan, t: TargetState, now: int, nonce: string, nonceOk: bool, stored: bool): Move {
    if t.phase == Revoking && t.revoke.Some? then Move(t, WriteNothing, true, RevokeReply(t.revoke.value), false)
    else if t.phase != IsReady || t.ready.None? || !nonceOk then Stay(t)
    else
      var v := Revoke(BindingOf(plan, t.target, t.ready.value.b.session, t.ready.value.b.process), nonce, now,
          now + ABORT_TIMEOUT, true);
      if !v.Valid() then Stay(t)
      else if !stored then Broken(t)
      else Move(t.(revoke := Some(v), phase := Revoking), WriteRevoke(v), true, RevokeReply(v), false)
  }

  /** The session a negative acknowledgement must come from. */
  function Speaker(t: TargetState): Option<(string, nat)> {
    if (t.phase == Challenged || t.phase == Installed) && t.challenge.Some? then
      Some((t.challenge.value.b.session, t.challenge.value.b.process))
    else if t.phase == IsReady && t.ready.Some? then Some((t.ready.value.b.session, t.ready.value.b.process))
    else if t.phase == Revoking && t.revoke.Some? then Some((t.revoke.value.b.session, t.revoke.value.b.process))
    else None
  }

  /** Fail a target and record the result; a store failure leaves it as it was. */
  function FailMove(t: TargetState, code: Code, stored: bool): Move {
    if t.phase == Revoked || t.phase == Failed || !ValidCode(code) || !stored then Stay(t)
    else Move(t.(phase := Failed, code := code), WriteResult, false, NoReply, false)
  }

  function AckMove(plan: Plan, t: TargetState, a: RotationAck, stored: bool): Move {
    var from := Some((a.b.session, a.b.process));
    if !a.Valid() || !a.b.For(plan, t.target) || t.phase == Revoked || t.phase == Failed then Stay(t)
    else if a.Negative() then (if Speaker(t) == from then FailMove(t, a.code, stored) else Stay(t))
    else
      match a.status
      case SaysInstalled => Stay(t).(ok := t.phase == Installed && t.install.Some?
          && from == Some((t.install.value.b.session, t.install.value.b.process)))
      case SaysReady => Stay(t).(ok := t.phase == IsReady && Speaker(t) == from)
      case SaysRevoked =>
        if t.phase != Revoking || Speaker(t) != from then Stay(t)
        else if stored then Move(t.(phase := Revoked), WriteResult, true, NoReply, true)
        else Broken(t).(last := true)
      case _ => Stay(t)
  }

  function Put(c: Coordinator, t: TargetState): Coordinator { c.(targets := c.targets[t.target.connector := t]) }

  predicate Finishes(c: Coordinator, m: Move) { m.last && Put(c, m.t.(phase := Revoked)).AllRevoked() }

  /** The coordinator after a move. */
  function Moved(c: Coordinator, now: int, m: Move): Coordinator {
    Put(c, m.t).(finished := if Finishes(c, m) then now else c.finished)
  }

  function Written(s: Store, w: Write, c: Coordinator): Store
    requires c.Tracks()
  {
    match w
    case WriteNothing => s
    case WriteChallenge(x) => s.(challenges := s.challenges + [x])
    case WriteProof(p, i) => s.(proofs := s.proofs + [p], installs := s.installs + [i])
    case WriteReady(r) => s.(readiness := s.readiness + [r])
    case WriteRevoke(v) => s.(revocations := s.revocations + [v])
    case WriteResult => s.(results := s.results + [SummaryOf(c)])
  }

  lemma PutKeepsTracks(c: Coordinator, t: TargetState)
    requires c.Tracks() && t.target.connector in c.targets && t.target == c.targets[t.target.connector].target
    ensures Put(c, t).Tracks() && Put(c, t).targets.Keys == c.targets.Keys
  {
  }

  function Commit(c: Coordinator, s: Store, now: int, m: Move): Outcome
    requires c.Tracks() && m.t.target.connector in c.targets && m.t.target == c.targets[m.t.target.connector].target
  {
    PutKeepsTracks(c, m.t);
    assert Moved(c, now, m).Tracks();
    Outcome(Moved(c, now, m), Written(s, m.write, Moved(c, now, m)), m.ok, m.reply)
  }

  function DoStart(c: Coordinator, s: Store, stored: bool): Outcome {
    if c.started then Outcome(c, s, true, NoReply)
    else if !stored || !Begin(s, c.plan).1 then Outcome(c, s, false, NoReply)
    else Outcome(c.(started := true), Begin(s, c.plan).0, true, NoReply)
  }

  function DoResume(c: Coordinator, s: Store, now: int, stored: bool): Outcome {
    if !stored || Load(s, c.plan).None? then Outcome(c, s, false, NoReply)
    else
      var l := Load(s, c.plan).value;
      if !l.plan.Valid() || !SamePlan(l.plan, c.plan) || l.plan.operation != c.plan.operation then
        Outcome(c, s, false, NoReply)
      else if c.started then Outcome(c, s, true, NoReply)
      else if !Resumable(c, l, now) then Outcome(c, s, false, NoReply)
      else Outcome(c.(started := true, finished := l.finishedAt, targets := Adopt(c.targets, l.targets)), s, true,
          NoReply)
  }

  function Addressee(call: Call): string
    requires !call.Start? && !call.Resume?
  {
    match call
    case IssueChallenge(connector, _, _, _, _, _, _, _, _, _, _, _) => connector
    case AcceptProof(p, _, _) => p.b.connector
    case MarkReady(r, _) => r.b.connector
    case RequestRevoke(connector, _, _, _) => connector
    case HandleAck(a, _) => a.b.connector
    case Fail(connector, _, _) => connector
  }

  /** What the whole operation must look like before the call is considered. */
  predicate Admitted(c: Coordinator, call: Call) {
    && (call.IssueChallenge? ==> c.started)
    && (call.RequestRevoke? ==> StatusOf(c) != StatusFailed && c.AllReady())
  }

  function MoveOf(plan: Plan, t: TargetState, now: int, call: Call): (m: Move)
    requires !call.Start? && !call.Resume?
    ensures m.t.target == t.target
    ensures m.write.WriteRevoke? ==> call.RequestRevoke?
  {
    match call
    case IssueChallenge(_, _, _, _, _, _, _, _, _, _, _, _) => ChallengeMove(plan, t, now, call)
    case AcceptProof(p, verified, stored) => ProofMove(plan, t, now, p, verified, stored)
    case MarkReady(r, stored) => ReadyMove(plan, t, now, r, stored)
    case RequestRevoke(_, nonce, nonceOk, stored) => RevokeMove(plan, t, now, nonce, nonceOk, stored)
    case HandleAck(a, stored) => AckMove(plan, t, a, stored)
    case Fail(_, code, stored) => FailMove(t, code, stored)
  }

  function Perform(c: Coordinator, s: Store, now: int, call: Call): Outcome
    requires c.Tracks()
  {
    if call.Start? then DoStart(c, s, call.stored)
    else if call.Resume? then DoResume(c, s, now, call.stored)
    else if Addressee(call) !in c.targets || !Admitted(c, call) then Outcome(c, s, false, NoReply)
    else Commit(c, s, now, MoveOf(c.plan, c.targets[Addressee(call)], now, call))
  }
}
