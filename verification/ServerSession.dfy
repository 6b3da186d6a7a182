/**
 The edge side of one connector-v1 control session. `ServerState` is the value of
 the session's fields and `Serve` the effect of one call on it and on the shared
 registry; the class `ServerSession` performs the same calls in place.

 A renewal releases the lock around its authenticator call, so it is two inputs:
 `RenewBegin` yields a ticket and `RenewFinish` redeems it.
 */
module ServerSessions {
  import opened SessionTypes
  import opened SessionRegistries

  datatype Settings = Settings(leaseDuration: int, heartbeatInterval: int) {
    predicate Valid() {
      && 0 < leaseDuration <= MAX_LEASE && 0 < heartbeatInterval
      && heartbeatInterval * 2 < leaseDuration
    }
  }

  /** How far the session has moved configurations, and its lifecycle state. */
  datatype Progress = Progress(
    pendingSnapshot: Option<Config>,
    pendingDelta: Option<Delta>,
    active: Option<Config>,
    candidate: Option<Config>,
    readyGeneration: nat,
    needsSnapshot: bool,
    state: SessionState)
  {
    /** The active configuration is the one the connector last reported ready. */
    predicate Serving() {
      active.Some? && readyGeneration == active.value.generation && !needsSnapshot
    }

    predicate ActiveIsReady() { active.Some? && readyGeneration == active.value.generation }
  }

  datatype LeaseClock = LeaseClock(expiresAt: int, lastHeartbeat: int, lastSentAt: Option<int>)

  datatype DrainRecord = DrainRecord(request: Option<Drain>, status: DrainStatus, code: bool, completed: bool)

  datatype ServerState = ServerState(
    ref: SessionRef,
    auth: Auth,
    heartbeatMS: nat,
    drainCapable: bool,
    lease: LeaseClock,
    p: Progress,
    drain: DrainRecord,
    reason: Reason)
  {
    function Env(): Envelope { Envelope(auth.account, ref.tunnel, ref.connector, ref.session, ref.process) }
  }

  /** An offered identity that is absent, or is the session's. */
  predicate Binds(session: Envelope, env: Envelope) {
    && (env.account == "" || env.account == session.account)
    && (env.connector == "" || env.connector == session.connector)
    && (env.session == "" || env.session == session.session)
    && (env.process == 0 || env.process == session.process)
  }

  /** What a renewal remembers while the lock is released. */
  datatype Ticket = Ticket(now: int, expected: Auth, ref: SessionRef)

  datatype ServerInput =
    | HandleAck(ack: Ack)
    | HandleReadiness(readiness: Readiness)
    | OfferSnapshot(snapshot: Snapshot)
    | OfferDelta(delta: Delta)
    | HandleHeartbeat(heartbeat: Heartbeat)
    | BeginDrain(id: string, deadline: int)
    | HandleDrainAck(drainAck: DrainAck)
    | RenewBegin(request: RenewalRequest)
    | RenewFinish(ticket: Ticket, result: Option<Auth>)
    | CheckLease
    | Close(reason: Reason)

  datatype Reply = NoReply | ReadyAck(config: Config) | LeaseExtended(until: int) | DrainRequest(drain: Drain)
                 | Renewing(ticket: Ticket) | Renewed(auth: Auth)

  datatype Served = Served(s: ServerState, refs: Refs, err: Error, reply: Reply)

  // ---------------------------------------------------------------- creation

  function Min(a: int, b: int): int { if a <= b then a else b }

  /** The session Accept builds once authentication and the first snapshot succeeded. */
  function Accepted(settings: Settings, now: int, ref: SessionRef, auth: Auth, first: Config,
      drainCapable: bool): ServerState
    requires settings.Valid()
  {
    ServerState(ref, auth, settings.heartbeatInterval / MILLISECOND, drainCapable,
                LeaseClock(Min(auth.leaseExpiresAt, now + settings.leaseDuration), now, None),
                Progress(Some(first), None, None, None, 0, false, AwaitingSnapshot),
                DrainRecord(None, DrainAccepted, false, false), NoReason)
  }

  /** Accept's own checks of what the authenticator and the snapshot source returned. */
  predicate Acceptable(settings: Settings, now: int, ref: SessionRef, auth: Auth, first: Config) {
    && settings.Valid() && ref.Valid() && auth.Valid(now) && first.generation != 0
    && auth.tunnel == ref.tunnel && auth.connector == ref.connector && auth.process == ref.process
    && var lease := Min(auth.leaseExpiresAt, now + settings.leaseDuration);
       settings.heartbeatInterval / MILLISECOND != 0 && lease <= now + MAX_LEASE
       && settings.heartbeatInterval / MILLISECOND * MILLISECOND < lease - now
  }

  // ---------------------------------------------------------------- guards

  function CloseWith(s: ServerState, refs: Refs, reason: Reason): (ServerState, Refs) {
    if s.p.state == Closed then (s, refs)
    else (s.(p := s.p.(state := Closed), reason := reason), DisconnectRef(refs, s.ref, reason).0)
  }

  /** Why the session can no longer act at `now`, if so. */
  function Fault(s: ServerState, refs: Refs, now: int): (Reason, Error) {
    if !ValidIdentifier(s.ref.connector) || !Current(refs, s.ref) then (ReasonSessionReplaced, ErrStaleSession)
    else if s.auth.credentialExpiresAt <= now then (ReasonCredentialExpired, ErrCredentialExpired)
    else if s.lease.expiresAt <= now then (ReasonLeaseExpired, ErrLeaseExpired)
    else if now - s.lease.lastHeartbeat > 2 * s.heartbeatMS * MILLISECOND
        then (ReasonHeartbeatTimeout, ErrHeartbeatTimeout)
    else (NoReason, Ok)
  }

  predicate Live(s: ServerState, refs: Refs, now: int) { s.p.state != Closed && Fault(s, refs, now).1 == Ok }

  function Expire(s: ServerState, refs: Refs, now: int): Served
    requires !Live(s, refs, now)
  {
    if s.p.state == Closed then Served(s, refs, ErrSessionClosed, NoReply)
    else
      var (reason, err) := Fault(s, refs, now);
      var (s', refs') := CloseWith(s, refs, reason);
      Served(s', refs', err, NoReply)
  }

  /** The checks a call makes before it takes the lock. */
  function Precheck(s: ServerState, now: int, input: ServerInput): Error {
    match input
    case HandleAck(a) => if a.Valid() then Ok else ErrInvalidInput
    case HandleReadiness(r) => if r.Valid() then Ok else ErrInvalidInput
    case OfferSnapshot(o) => if o.Valid() then Ok else ErrSnapshotRejected
    case OfferDelta(d) => if d.Valid() then Ok else ErrDeltaRejected
    case HandleHeartbeat(h) => if h.Valid() then Ok else ErrInvalidInput
    case BeginDrain(_, _) => Ok
    case HandleDrainAck(a) => if a.Valid() then Ok else ErrInvalidInput
    case RenewBegin(r) => if !r.Valid() then ErrInvalidInput else if !r.FreshAt(now) then ErrAuthenticationFailed
        else Ok
    case RenewFinish(t, r) =>
      if r.None? then ErrCredentialExpired
      else if RenewalMatches(t, r.value) then Ok else ErrAuthenticationFailed
    case CheckLease => Ok
    case Close(reason) => if ValidReason(reason) then Ok else ErrInvalidInput
  }

  predicate RenewalMatches(t: Ticket, r: Auth) {
    && r.Valid(t.now) && r.account == t.expected.account && r.tunnel == t.ref.tunnel && r.connector == t.ref.connector
    && (r.session == "" || r.session == t.ref.session) && r.host == t.expected.host && r.keyId == t.expected.keyId
    && r.thumbprint == t.expected.thumbprint && r.process == t.ref.process
    && r.credentialGeneration >= t.expected.credentialGeneration
  }

  // ---------------------------------------------------------------- calls

  function Restored(p: Progress): Progress {
    p.(state := if p.Serving() then Ready else AwaitingSnapshot)
  }

  function WithCandidate(p: Progress, c: Config): Progress {
    p.(candidate := Some(c), state := if p.ActiveIsReady() then p.state else AwaitingReady)
  }

  function Acknowledge(p: Progress, a: Ack): (Progress, Error) {
    if p.pendingSnapshot.Some? then
      if a.kind != AckSnapshot || a.config != p.pendingSnapshot.value then (p, ErrSnapshotRejected)
      else if a.status == AckSnapshotRequired then (Restored(p.(pendingSnapshot := None, needsSnapshot := true)),
          ErrSnapshotRequired)
      else if a.status == AckRejected then (Restored(p.(pendingSnapshot := None, needsSnapshot := true)),
          ErrSnapshotRejected)
      else (WithCandidate(p.(pendingSnapshot := None, needsSnapshot := false), a.config), Ok)
    else if p.pendingDelta.Some? then
      var d := p.pendingDelta.value;
      if a.kind != AckDelta || a.config != d.config then (p, ErrDeltaRejected)
      else if a.status == AckSnapshotRequired then (Restored(p.(pendingDelta := None, needsSnapshot := true)),
          ErrSnapshotRequired)
      else if a.status == AckRejected then (Restored(p.(pendingDelta := None, needsSnapshot := true)), ErrDeltaRejected)
      else if p.active.Some? && d.previous != p.active.value then (p.(pendingDelta := None), ErrGenerationGap)
      else (WithCandidate(p.(pendingDelta := None), d.config), Ok)
    else if a.status == AckDuplicate then
      var known := if p.candidate.Some? then p.candidate else p.active;
      (p, if known == Some(a.config) then Ok else ErrStaleGeneration)
    else (p, ErrInvalidInput)
  }

  function BecomeReady(p: Progress, r: Readiness): (Progress, Error) {
    var awaited := if p.candidate.Some? then p.candidate else p.active;
    if awaited != Some(r.config) then (p, ErrStaleGeneration)
    else if !r.edge || !r.route || !r.origin then (p, ErrNotReady)
    else (p.(active := awaited, candidate := None, needsSnapshot := false, readyGeneration := r.config.generation,
        state := Ready), Ok)
  }

  function Offer(p: Progress, c: Config): (Progress, Error) {
    if p.active.Some? && c.generation < p.active.value.generation then (p, ErrStaleGeneration)
    else
      var known := if p.candidate.Some? && p.candidate.value.generation == c.generation then p.candidate
                   else if p.active.Some? && p.active.value.generation == c.generation then p.active
                   else if p.pendingSnapshot.Some? && p.pendingSnapshot.value.generation == c.generation
                       then p.pendingSnapshot
                   else None;
      if known.Some? then (p, if known.value == c then Ok else ErrContentHashMismatch)
      else (p.(pendingDelta := None, pendingSnapshot := Some(c),
               state := if p.active.None? then AwaitingSnapshot else p.state), Ok)
  }

  function OfferNext(p: Progress, session: Envelope, d: Delta): (Progress, Error) {
    if !p.Serving() then (p, ErrNotReady)
    else if p.pendingSnapshot.Some? || p.pendingDelta.Some? || p.candidate.Some? then (p, ErrGenerationGap)
    else if d.env.tunnel != session.tunnel || !Binds(session, d.env) || d.previous != p.active.value then
      (p, ErrGenerationGap)
    else (p.(pendingDelta := Some(d.(env := session))), Ok)
  }

  /** The configuration a heartbeat must name. */
  function Expected(p: Progress): Option<Config> {
    if p.active.Some? then p.active else if p.candidate.Some? then p.candidate else p.pendingSnapshot
  }

  function Withdraw(p: Progress): Progress {
    if p.active.None? then p else p.(needsSnapshot := true, readyGeneration := 0, state := AwaitingSnapshot)
  }

  function Beat(settings: Settings, s: ServerState, now: int, h: Heartbeat): (ServerState, Error) {
    if h.env != s.Env() then (s, ErrIdentityMismatch)
    else if h.sentAt > now + MAX_CLOCK_SKEW then (s, ErrInvalidInput)
    else if h.sentAt < now - MAX_CLOCK_SKEW then (s, ErrHeartbeatTimeout)
    else if s.lease.lastSentAt.Some? && h.sentAt <= s.lease.lastSentAt.value then (s, ErrStaleSession)
    else if Expected(s.p) != Some(h.config) then (s.(p := Withdraw(s.p)), ErrSnapshotRequired)
    else (s.(lease := LeaseClock(Min(now + settings.leaseDuration, s.auth.credentialExpiresAt), now, Some(h.sentAt))),
        Ok)
  }

  function StartDrain(s: ServerState, now: int, id: string, deadline: int): (ServerState, Error) {
    if !s.drainCapable then (s, ErrCapabilityMissing)
    else if s.drain.request.Some? then (s, if s.drain.request.value.id == id then Ok else ErrSessionConflict)
    else if !s.p.Serving() || s.p.state != Ready then (s, ErrNotReady)
    else
      var request := Drain(s.Env(), id, s.p.active.value, deadline, true, true);
      if !request.Valid(now) then (s, ErrInvalidInput)
      else (s.(drain := DrainRecord(Some(request), DrainAccepted, false, false), p := s.p.(state := Draining)), Ok)
  }

  function AdvanceDrain(s: ServerState, a: DrainAck): (ServerState, Error) {
    if s.drain.request.None? || a.id != s.drain.request.value.id then (s, ErrStaleSession)
    else if a.config != s.drain.request.value.config then (s, ErrContentHashMismatch)
    else if s.drain.completed then (s, if a.status == s.drain.status && a.code == s.drain.code then Ok
        else ErrStaleGeneration)
    else
      var finished := a.status == DrainCompleted || a.status == DrainForced || a.status == DrainRejected;
      var s' := s.(drain := s.drain.(status := a.status, code := a.code, completed := finished));
      if a.status == DrainRejected then (s'.(p := Restored(s.p)), ErrDrainRejected) else (s', Ok)
  }

  predicate RequestMatches(s: ServerState, r: RenewalRequest) {
    && r.session == s.ref.session && r.account == s.auth.account && r.tunnel == s.ref.tunnel
       && r.connector == s.ref.connector
    && r.host == s.auth.host && r.keyId == s.auth.keyId && r.thumbprint == s.auth.thumbprint
       && r.process == s.ref.process
    && r.credentialGeneration == s.auth.credentialGeneration
  }

  function Redeem(settings: Settings, s: ServerState, t: Ticket, r: Auth): (ServerState, Error) {
    if s.auth != t.expected || s.ref != t.ref then (s, ErrSessionConflict)
    else (s.(auth := r.(session := t.ref.session),
             lease := s.lease.(expiresAt := Min(r.leaseExpiresAt, t.now + settings.leaseDuration),
                 lastHeartbeat := t.now)), Ok)
  }

  /** The effect of a call on a session that may act. */
  function Perform(settings: Settings, s: ServerState, now: int, input: ServerInput): (ServerState, Error, Reply)
    requires Precheck(s, now, input) == Ok
  {
    match input
    case HandleAck(a) =>
      if a.env != s.Env() then (s, ErrIdentityMismatch, NoReply)
      else var (p, e) := Acknowledge(s.p, a); (s.(p := p), e, NoReply)
    case HandleReadiness(r) =>
      if r.env != s.Env() then (s, ErrIdentityMismatch, NoReply)
      else var (p, e) := BecomeReady(s.p, r); (s.(p := p), e, if e == Ok then ReadyAck(r.config) else NoReply)
    case OfferSnapshot(o) =>
      if o.env.tunnel != s.ref.tunnel || !Binds(s.Env(), o.env) then (s, ErrIdentityMismatch, NoReply)
      else var (p, e) := Offer(s.p, o.config); (s.(p := p), e, NoReply)
    case OfferDelta(d) => var (p, e) := OfferNext(s.p, s.Env(), d); (s.(p := p), e, NoReply)
    case HandleHeartbeat(h) =>
      var (s', e) := Beat(settings, s, now, h); (s', e, if e == Ok then LeaseExtended(s'.lease.expiresAt) else NoReply)
    case BeginDrain(id, deadline) =>
      var (s', e) := StartDrain(s, now, id, deadline);
      (s', e, if e == Ok && s'.drain.request.Some? then DrainRequest(s'.drain.request.value) else NoReply)
    case HandleDrainAck(a) =>
      if a.env != s.Env() then (s, ErrIdentityMismatch, NoReply)
      else var (s', e) := AdvanceDrain(s, a); (s', e, NoReply)
    case RenewBegin(r) => if RequestMatches(s, r) then (s, Ok, Renewing(Ticket(now, s.auth, s.ref)))
        else (s, ErrIdentityMismatch, NoReply)
    case RenewFinish(t, r) =>
      var (s', e) := Redeem(settings, s, t, r.value); (s', e, if e == Ok then Renewed(s'.auth) else NoReply)
    case CheckLease => (s, Ok, NoReply)
    case Close(reason) => (s, Ok, NoReply)
  }

  function Serve(settings: Settings, s: ServerState, refs: Refs, now: int, input: ServerInput): Served {
    var pre := Precheck(s, now, input);
    if pre != Ok then Served(s, refs, pre, NoReply)
    else if input.Close? then var (s', refs') := CloseWith(s, refs, input.reason); Served(s', refs', Ok, NoReply)
    else if !Live(s, refs, now) then Expire(s, refs, now)
    else var (s', e, reply) := Perform(settings, s, now, input); Served(s', refs, e, reply)
  }

  // ---------------------------------------------------------------- the session object

  class ServerSession {
    const settings: Settings
    const registry: SessionRegistry
    const ref: SessionRef
    const heartbeatMS: nat
    const drainCapable: bool
    var auth: Auth
    var leaseExpiresAt: int
    var pendingSnapshot: Option<Config>
    var pendingDelta: Option<Delta>
    var active: Option<Config>
    var candidate: Option<Config>
    var readyGeneration: nat
    var needsSnapshot: bool
    var state: SessionState
    var lastHeartbeat: int
    var lastHeartbeatSentAt: Option<int>
    var drain: Option<Drain>
    var drainStatus: DrainStatus
    var drainCode: bool
    var drainCompleted: bool
    var reason: Reason

    function View(): ServerState
      reads this
    {
      ServerState(ref, auth, heartbeatMS, drainCapable, LeaseClock(leaseExpiresAt, lastHeartbeat, lastHeartbeatSentAt),
                  Moved(), DrainRecord(drain, drainStatus, drainCode, drainCompleted), reason)
    }

    function Moved(): Progress
      reads this
    {
      Progress(pendingSnapshot, pendingDelta, active, candidate, readyGeneration, needsSnapshot, state)
    }

    constructor (settings: Settings, registry: SessionRegistry, now: int, ref: SessionRef, auth: Auth, first: Config,
        drainCapable: bool)
      requires Acceptable(settings, now, ref, auth, first)
      ensures this.settings == settings && this.registry == registry
      ensures View() == Accepted(settings, now, ref, auth, first, drainCapable)
    {
      this.settings, this.registry, this.ref, this.auth := settings, registry, ref, auth;
      this.drainCapable, this.heartbeatMS := drainCapable, settings.heartbeatInterval / MILLISECOND;
      var expiry := auth.leaseExpiresAt;
      if now + settings.leaseDuration < expiry { expiry := now + settings.leaseDuration; }
      leaseExpiresAt := expiry;
      pendingSnapshot, pendingDelta, active, candidate := Some(first), None, None, None;
      readyGeneration, needsSnapshot, state := 0, false, AwaitingSnapshot;
      lastHeartbeat, lastHeartbeatSentAt := now, None;
      drain, drainStatus, drainCode, drainCompleted, reason := None, DrainAccepted, false, false, NoReason;
    }

    method CloseLocked(why: Reason)
      modifies this, registry
      ensures (View(), registry.current) == CloseWith(old(View()), old(registry.current), why)
    {
      if state == Closed { return; }
      state, reason := Closed, why;
      var _ := registry.Disconnect(ref, why);
    }

    method EnsureActive(now: int) returns (err: Error)
      modifies this, registry
      ensures old(Live(View(), registry.current, now)) ==>
              err == Ok && View() == old(View()) && registry.current == old(registry.current)
      ensures !old(Live(View(), registry.current, now)) ==>
              Served(View(), registry.current, err, NoReply) == Expire(old(View()), old(registry.current), now)
              && err != Ok
    {
      if state == Closed { return ErrSessionClosed; }
      var current := registry.Active(ref.connector);
      if current != Some(ref) { CloseLocked(ReasonSessionReplaced); return ErrStaleSession; }
      if auth.credentialExpiresAt <= now { CloseLocked(ReasonCredentialExpired); return ErrCredentialExpired; }
      if leaseExpiresAt <= now { CloseLocked(ReasonLeaseExpired); return ErrLeaseExpired; }
      if now - lastHeartbeat > 2 * heartbeatMS * MILLISECOND {
        CloseLocked(ReasonHeartbeatTimeout); return ErrHeartbeatTimeout;
      }
      err := Ok;
    }

    method RestoreState()
      modifies this`state
      ensures Moved() == Restored(old(Moved()))
    {
      if active.Some? && readyGeneration == active.value.generation && !needsSnapshot { state := Ready; return; }
      state := AwaitingSnapshot;
    }

    predicate MatchesIdentity(env: Envelope)
      reads this
    {
      env == Envelope(auth.account, ref.tunnel, ref.connector, ref.session, ref.process)
    }

    method AckLocked(ack: Ack) returns (err: Error)
      modifies this`pendingSnapshot, this`pendingDelta, this`candidate, this`needsSnapshot, this`state
      ensures (Moved(), err) == Acknowledge(old(Moved()), ack)
    {
      if pendingSnapshot.Some? {
        if ack.kind != AckSnapshot || ack.config != pendingSnapshot.value { return ErrSnapshotRejected; }
        if ack.status == AckSnapshotRequired || ack.status == AckRejected {
          pendingSnapshot, needsSnapshot := None, true;
          RestoreState();
          return if ack.status == AckSnapshotRequired then ErrSnapshotRequired else ErrSnapshotRejected;
        }
        candidate, pendingSnapshot, needsSnapshot := pendingSnapshot, None, false;
        if !(active.Some? && readyGeneration == active.value.generation) { state := AwaitingReady; }
        return Ok;
      }
      if pendingDelta.Some? {
        if ack.kind != AckDelta || ack.config != pendingDelta.value.config { return ErrDeltaRejected; }
        var pending := pendingDelta.value;
        pendingDelta := None;
        if ack.status == AckSnapshotRequired {
          needsSnapshot := true;
          RestoreState();
          return ErrSnapshotRequired;
        }
        if ack.status == AckRejected {
          needsSnapshot := true;
          RestoreState();
          return ErrDeltaRejected;
        }
        if active.Some? && pending.previous != active.value { return ErrGenerationGap; }
        candidate := Some(pending.config);
        if !(active.Some? && readyGeneration == active.value.generation) { state := AwaitingReady; }
        return Ok;
      }
      if ack.status == AckDuplicate {
        if candidate.None? && active.None? { return ErrStaleGeneration; }
        var current := active;
        if candidate.Some? { current := candidate; }
        return if ack.config != current.value then ErrStaleGeneration else Ok;
      }
      err := ErrInvalidInput;
    }

    method HandleAck(now: int, ack: Ack) returns (err: Error)
      modifies this, registry
      ensures var a := Serve(settings, old(View()), old(registry.current), now, ServerInput.HandleAck(ack));
              View() == a.s && registry.current == a.refs && err == a.err && a.reply == NoReply
    {
      if !ack.Valid() { return ErrInvalidInput; }
      err := EnsureActive(now);
      if err != Ok { return; }
      err := AckBound(ack);
    }

    /** The acknowledgement of the bound identity, on the whole state. */
    method AckBound(ack: Ack) returns (err: Error)
      modifies this`pendingSnapshot, this`pendingDelta, this`candidate, this`needsSnapshot, this`state
      ensures ack.env != old(View()).Env() ==> View() == old(View()) && err == ErrIdentityMismatch
      ensures ack.env == old(View()).Env() ==>
              var a := Acknowledge(old(View()).p, ack); View() == old(View()).(p := a.0) && err == a.1
    {
      if !MatchesIdentity(ack.env) { return ErrIdentityMismatch; }
      err := AckLocked(ack);
    }

    method HandleReadiness(now: int, readiness: Readiness) returns (err: Error, reply: Reply)
      modifies this, registry
      ensures var a := Serve(settings, old(View()), old(registry.current), now, ServerInput.HandleReadiness(readiness));
              View() == a.s && registry.current == a.refs && err == a.err && a.reply == reply
    {
      reply := NoReply;
      if !readiness.Valid() { return ErrInvalidInput, NoReply; }
      err := EnsureActive(now);
      if err != Ok { return; }
      err := ReadinessBound(readiness);
      if err == Ok { reply := ReadyAck(readiness.config); }
    }

    /** The readiness of the bound identity, on the whole state. */
    method ReadinessBound(readiness: Readiness) returns (err: Error)
      modifies this`active, this`candidate, this`needsSnapshot, this`readyGeneration, this`state
      ensures readiness.env != old(View()).Env() ==> View() == old(View()) && err == ErrIdentityMismatch
      ensures readiness.env == old(View()).Env() ==>
              var a := BecomeReady(old(View()).p, readiness); View() == old(View()).(p := a.0) && err == a.1
    {
      if !MatchesIdentity(readiness.env) { return ErrIdentityMismatch; }
      err := ReadinessLocked(readiness);
    }

    method ReadinessLocked(readiness: Readiness) returns (err: Error)
      modifies this`active, this`candidate, this`needsSnapshot, this`readyGeneration, this`state
      ensures (Moved(), err) == BecomeReady(old(Moved()), readiness)
    {
      if candidate.Some? {
        if readiness.config != candidate.value { return ErrStaleGeneration; }
      } else if active.None? || readiness.config != active.value {
        return ErrStaleGeneration;
      }
      if !readiness.edge || !readiness.route || !readiness.origin { return ErrNotReady; }
      if candidate.Some? { active, candidate := candidate, None; }
      needsSnapshot, readyGeneration, state := false, readiness.config.generation, Ready;
      err := Ok;
    }

    method OfferSnapshot(now: int, snapshot: Snapshot) returns (err: Error)
      modifies this, registry
      ensures var a := Serve(settings, old(View()), old(registry.current), now, ServerInput.OfferSnapshot(snapshot));
              View() == a.s && registry.current == a.refs && err == a.err && a.reply == NoReply
    {
      if !snapshot.Valid() { return ErrSnapshotRejected; }
      err := EnsureActive(now);
      if err != Ok { return; }
      err := OfferBound(snapshot);
    }

    /** The offer under the bound identity, on the whole state. */
    method OfferBound(snapshot: Snapshot) returns (err: Error)
      modifies this`pendingSnapshot, this`pendingDelta, this`state
      ensures var bound := snapshot.env.tunnel == ref.tunnel && Binds(old(View()).Env(), snapshot.env);
              && (!bound ==> View() == old(View()) && err == ErrIdentityMismatch)
              && (bound ==>
                    var a := Offer(old(View()).p, snapshot.config); View() == old(View()).(p := a.0) && err == a.1)
    {
      if snapshot.env.tunnel != ref.tunnel { return ErrIdentityMismatch; }
      if !Binds(View().Env(), snapshot.env) { return ErrIdentityMismatch; }
      err := OfferLocked(snapshot.config);
    }

    method OfferLocked(c: Config) returns (err: Error)
      modifies this`pendingSnapshot, this`pendingDelta, this`state
      ensures (Moved(), err) == Offer(old(Moved()), c)
    {
      if active.Some? && c.generation < active.value.generation { return ErrStaleGeneration; }
      if candidate.Some? && c.generation == candidate.value.generation {
        return if c.hash != candidate.value.hash then ErrContentHashMismatch else Ok;
      }
      if active.Some? && c.generation == active.value.generation {
        return if c.hash != active.value.hash then ErrContentHashMismatch else Ok;
      }
      if pendingSnapshot.Some? && c.generation == pendingSnapshot.value.generation {
        return if c.hash != pendingSnapshot.value.hash then ErrContentHashMismatch else Ok;
      }
      pendingDelta, pendingSnapshot := None, Some(c);
      if active.None? { state := AwaitingSnapshot; }
      err := Ok;
    }

    method OfferDelta(now: int, delta: Delta) returns (err: Error)
      modifies this, registry
      ensures var a := Serve(settings, old(View()), old(registry.current), now, ServerInput.OfferDelta(delta));
              View() == a.s && registry.current == a.refs && err == a.err && a.reply == NoReply
    {
      if !delta.Valid() { return ErrDeltaRejected; }
      err := EnsureActive(now);
      if err != Ok { return; }
      if active.None? || readyGeneration != active.value.generation || needsSnapshot { return ErrNotReady; }
      if pendingSnapshot.Some? || pendingDelta.Some? || candidate.Some? { return ErrGenerationGap; }
      if delta.env.tunnel != ref.tunnel || !Binds(View().Env(), delta.env) || delta.previous != active.value {
        return ErrGenerationGap;
      }
      pendingDelta := Some(delta.(env := Envelope(auth.account, ref.tunnel, ref.connector, ref.session, ref.process)));
    }

    method BeatLocked(now: int, heartbeat: Heartbeat) returns (err: Error, reply: Reply)
      modifies this
      ensures (View(), err) == Beat(settings, old(View()), now, heartbeat)
      ensures reply == if err == Ok then LeaseExtended(leaseExpiresAt) else NoReply
    {
      if !MatchesIdentity(heartbeat.env) { return ErrIdentityMismatch, NoReply; }
      if heartbeat.sentAt > now + MAX_CLOCK_SKEW { return ErrInvalidInput, NoReply; }
      if heartbeat.sentAt < now - MAX_CLOCK_SKEW { return ErrHeartbeatTimeout, NoReply; }
      if lastHeartbeatSentAt.Some? && heartbeat.sentAt <= lastHeartbeatSentAt.value { return ErrStaleSession, NoReply; }
      var expected;
      if active.Some? { expected := active.value; }
      else if candidate.Some? { expected := candidate.value; }
      else if pendingSnapshot.Some? { expected := pendingSnapshot.value; }
      else { return ErrSnapshotRequired, NoReply; }
      if heartbeat.config != expected {
        if active.Some? { needsSnapshot, readyGeneration, state := true, 0, AwaitingSnapshot; }
        return ErrSnapshotRequired, NoReply;
      }
      err := Ok;
      lastHeartbeatSentAt, lastHeartbeat := Some(heartbeat.sentAt), now;
      var expiry := now + settings.leaseDuration;
      if auth.credentialExpiresAt < expiry { expiry := auth.credentialExpiresAt; }
      leaseExpiresAt := expiry;
      reply := LeaseExtended(expiry);
    }

    method HandleHeartbeat(now: int, heartbeat: Heartbeat) returns (err: Error, reply: Reply)
      modifies this, registry
      ensures var a := Serve(settings, old(View()), old(registry.current), now, ServerInput.HandleHeartbeat(heartbeat));
              View() == a.s && registry.current == a.refs && err == a.err && a.reply == reply
    {
      reply := NoReply;
      if !heartbeat.Valid() { return ErrInvalidInput, NoReply; }
      err := EnsureActive(now);
      if err != Ok { return; }
      err, reply := BeatLocked(now, heartbeat);
    }

    method DrainLocked(now: int, id: string, deadline: int) returns (err: Error, reply: Reply)
      modifies this
      ensures (View(), err) == StartDrain(old(View()), now, id, deadline)
      ensures reply == if err == Ok && drain.Some? then DrainRequest(drain.value) else NoReply
    {
      if !drainCapable { return ErrCapabilityMissing, NoReply; }
      if drain.Some? {
        if drain.value.id == id { return Ok, DrainRequest(drain.value); }
        return ErrSessionConflict, NoReply;
      }
      if active.None? || needsSnapshot || readyGeneration != active.value.generation || state != Ready {
        return ErrNotReady, NoReply;
      }
      var request := Drain(Envelope(auth.account, ref.tunnel, ref.connector, ref.session, ref.process), id,
          active.value, deadline, true, true);
      if !request.Valid(now) { return ErrInvalidInput, NoReply; }
      drain, drainStatus, drainCode, drainCompleted := Some(request), DrainAccepted, false, false;
      state := Draining;
      err, reply := Ok, DrainRequest(request);
    }

    method BeginDrain(now: int, id: string, deadline: int) returns (err: Error, reply: Reply)
      modifies this, registry
      ensures var a := Serve(settings, old(View()), old(registry.current), now, ServerInput.BeginDrain(id, deadline));
              View() == a.s && registry.current == a.refs && err == a.err && a.reply == reply
    {
      reply := NoReply;
      err := EnsureActive(now);
      if err != Ok { return; }
      err, reply := DrainLocked(now, id, deadline);
    }

    method DrainAckLocked(ack: DrainAck) returns (err: Error)
      modifies this
      ensures (View(), err) == AdvanceDrain(old(View()), ack)
    {
      if drain.None? || ack.id != drain.value.id { return ErrStaleSession; }
      if ack.config != drain.value.config { return ErrContentHashMismatch; }
      if drainCompleted {
        return if ack.status == drainStatus && ack.code == drainCode then Ok else ErrStaleGeneration;
      }
      drainStatus, drainCode := ack.status, ack.code;
      err := Ok;
      match ack.status {
        case DrainAccepted =>
        case DrainProgress =>
        case DrainCompleted => drainCompleted := true;
        case DrainForced => drainCompleted := true;
        case DrainRejected =>
          drainCompleted := true;
          RestoreState();
          err := ErrDrainRejected;
      }
    }

    method HandleDrainAck(now: int, ack: DrainAck) returns (err: Error)
      modifies this, registry
      ensures var a := Serve(settings, old(View()), old(registry.current), now, ServerInput.HandleDrainAck(ack));
              View() == a.s && registry.current == a.refs && err == a.err && a.reply == NoReply
    {
      if !ack.Valid() { return ErrInvalidInput; }
      err := EnsureActive(now);
      if err != Ok { return; }
      if !MatchesIdentity(ack.env) { return ErrIdentityMismatch; }
      err := DrainAckLocked(ack);
    }

    method RenewBegin(now: int, request: RenewalRequest) returns (err: Error, reply: Reply)
      modifies this, registry
      ensures var a := Serve(settings, old(View()), old(registry.current), now, ServerInput.RenewBegin(request));
              View() == a.s && registry.current == a.refs && err == a.err && a.reply == reply
    {
      reply := NoReply;
      if !request.Valid() { return ErrInvalidInput, NoReply; }
      if !request.FreshAt(now) { return ErrAuthenticationFailed, NoReply; }
      err := EnsureActive(now);
      if err != Ok { return; }
      if !RequestMatches(View(), request) { return ErrIdentityMismatch, NoReply; }
      reply := Renewing(Ticket(now, auth, ref));
    }

    method RenewFinish(now: int, ticket: Ticket, result: Option<Auth>) returns (err: Error, reply: Reply)
      modifies this, registry
      ensures var input := ServerInput.RenewFinish(ticket, result);
              var a := Serve(settings, old(View()), old(registry.current), now, input);
              View() == a.s && registry.current == a.refs && err == a.err && a.reply == reply
    {
      reply := NoReply;
      if result.None? { return ErrCredentialExpired, NoReply; }
      if !RenewalMatches(ticket, result.value) { return ErrAuthenticationFailed, NoReply; }
      err := EnsureActive(now);
      if err != Ok { return; }
      err := RedeemLocked(ticket, result.value);
      if err == Ok { reply := Renewed(auth); }
    }

    method RedeemLocked(ticket: Ticket, result: Auth) returns (err: Error)
      modifies this`auth, this`leaseExpiresAt, this`lastHeartbeat
      ensures (View(), err) == Redeem(settings, old(View()), ticket, result)
    {
      if auth != ticket.expected || ref != ticket.ref { return ErrSessionConflict; }
      auth := result.(session := ticket.ref.session);
      leaseExpiresAt := result.leaseExpiresAt;
      if ticket.now + settings.leaseDuration < leaseExpiresAt { leaseExpiresAt := ticket.now + settings.leaseDuration; }
      lastHeartbeat := ticket.now;
      err := Ok;
    }

    method Close(why: Reason) returns (err: Error)
      modifies this, registry
      ensures forall now ::
              Served(View(), registry.current, err, NoReply)
              == Serve(settings, old(View()), old(registry.current), now, ServerInput.Close(why))
    {
      if !ValidReason(why) { return ErrInvalidInput; }
      CloseLocked(why);
      err := Ok;
    }
  }
}
