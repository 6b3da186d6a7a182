/**
 The connector side of a control session. Preparing, activating and draining call
 into the runtime with the lock released, so each is several inputs: the locked
 part before the call, then the locked part after it with the runtime's answer.
 `busy` is the apply mutex: while it is held, applying, readying and closing wait.

 `log[h]` records what the session did with the h-th configuration the runtime prepared.
 */
module ClientSessions {
  import opened SessionTypes

  datatype HandleEvent = ActivateOk | ActivateFail | Abort

  datatype Busy = Idle | Applying(kind: AckKind, config: Config) | Activating(handle: Option<nat>, config: Config)

  datatype DrainCall = NoDrainCall | Stopping(request: Drain) | Counting(request: Drain)

  /** The staged and active configurations, and the lifecycle state. */
  datatype Staging = Staging(
    active: Option<Config>,
    candidate: Option<Config>,
    prepared: Option<nat>,
    needsSnapshot: bool,
    readyGeneration: nat,
    state: SessionState)
  {
    predicate Serving() { active.Some? && readyGeneration == active.value.generation && !needsSnapshot }
    function Current(): Option<Config> { if candidate.Some? then candidate else active }
  }

  datatype ClientLease = ClientLease(expiresAt: int, heartbeatMS: nat, lastAck: int)

  datatype ClientDrain = ClientDrain(request: Option<Drain>, status: DrainStatus, code: bool, completed: bool,
      streams: nat)

  datatype ClientState = ClientState(
    me: Envelope,
    auth: Auth,
    drainCapable: bool,
    lease: ClientLease,
    g: Staging,
    drain: ClientDrain,
    drainCall: DrainCall,
    busy: Busy,
    log: seq<seq<HandleEvent>>,
    reason: Reason)

  datatype PrepareOutcome =
    | NeverPrepared                                  // canceled before the runtime was asked
    | PrepareFailed(returnedHandle: bool, canceled: bool)
    | PrepareTimedOut(returnedHandle: bool)
    | PreparedNothing
    | PreparedHandle

  datatype ActivateOutcome = NeverActivated | ActivationFailed(canceled: bool) | ActivationDone

  datatype ClientInput =
    | AcceptWelcome(session: string, expiresAt: int, heartbeatMS: nat, drainCapable: bool, acceptable: bool)
    | ApplySnapshot(snapshot: Snapshot)
    | ApplyDelta(delta: Delta)
    | Prepared(prepare: PrepareOutcome)
    | MarkReady(edge: bool, route: bool, origin: bool)
    | Activated(activate: ActivateOutcome)
    | SendHeartbeat
    | AcceptHeartbeatAck(heartbeatAck: HeartbeatAck)
    | HandleDrain(request: Drain)
    | StreamsStopped(stopped: bool)
    | StreamsCounted(count: Option<nat>)
    | DrainProgressed(streams: nat, forced: bool)
    | ApplyRenewal(result: Auth)
    | CheckLease
    | Close(reason: Reason)

  datatype Reply = NoReply | AckReply(ack: Ack) | ReadyReply(readiness: Readiness)
                 | HeartbeatReply(heartbeat: Heartbeat) | DrainReply(drainAck: DrainAck)

  datatype Acted = Acted(s: ClientState, err: Error, reply: Reply)

  /** The mutexes and the runtime calls in progress allow this input now. */
  predicate Enabled(s: ClientState, input: ClientInput) {
    match input
    case ApplySnapshot(_) => s.busy == Idle
    case ApplyDelta(_) => s.busy == Idle
    case MarkReady(_, _, _) => s.busy == Idle
    case Close(_) => s.busy == Idle
    case Prepared(_) => s.busy.Applying?
    case Activated(_) => s.busy.Activating?
    case StreamsStopped(_) => s.drainCall.Stopping?
    case StreamsCounted(_) => s.drainCall.Counting?
    case _ => true
  }

  function NewClient(me: Envelope, auth: Auth): ClientState {
    ClientState(me, auth, false, ClientLease(0, 0, 0), Staging(None, None, None, false, 0, New),
                ClientDrain(None, DrainAccepted, false, false, 0), NoDrainCall, Idle, [], NoReason)
  }

  // ---------------------------------------------------------------- guard

  predicate LeaseOver(l: ClientLease, now: int) { l.expiresAt <= now }
  predicate Silent(l: ClientLease, now: int) { now - l.lastAck > 2 * l.heartbeatMS * MILLISECOND }
  predicate Dead(l: ClientLease, now: int) { LeaseOver(l, now) || Silent(l, now) }

  function Guard(s: ClientState, now: int): Error {
    if s.g.state == Closed then ErrSessionClosed
    else if s.g.state == New then ErrSessionConflict
    else if LeaseOver(s.lease, now) then ErrLeaseExpired
    else if Silent(s.lease, now) then ErrHeartbeatTimeout
    else Ok
  }

  /** A guard that fails on the lease closes the session, leaving the staged configuration in place. */
  function Guarded(s: ClientState, now: int): ClientState {
    if Guard(s, now) == ErrLeaseExpired then s.(g := s.g.(state := Closed), reason := ReasonLeaseExpired)
    else if Guard(s, now) == ErrHeartbeatTimeout then s.(g := s.g.(state := Closed), reason := ReasonHeartbeatTimeout)
    else s
  }

  function Refuse(s: ClientState, err: Error): Acted { Acted(s, err, NoReply) }

  // ---------------------------------------------------------------- applying

  function MakeAck(s: ClientState, kind: AckKind, status: AckStatus, c: Config): Reply {
    AckReply(Ack(s.me, kind, status, c, true))
  }

  function BeginSnapshot(s: ClientState, o: Snapshot): Acted {
    if o.env != s.me then Refuse(s, ErrIdentityMismatch)
    else
      var current := s.g.Current();
      if current.None? || current.value.generation < o.config.generation then
        Acted(s.(busy := Applying(AckSnapshot, o.config)), Ok, NoReply)
      else if o.config == current.value then Acted(s, Ok, MakeAck(s, AckSnapshot, AckDuplicate, o.config))
      else Refuse(s, if o.config.generation < current.value.generation then ErrStaleGeneration
          else ErrContentHashMismatch)
  }

  function BeginDelta(s: ClientState, d: Delta): Acted {
    if d.env != s.me then Refuse(s, ErrIdentityMismatch)
    else if s.g.active.None? || s.g.needsSnapshot || s.g.candidate.Some? then
      Acted(s, ErrSnapshotRequired, MakeAck(s, AckDelta, AckSnapshotRequired, d.config))
    else if d.previous == s.g.active.value && d.config.generation == s.g.active.value.generation + 1 then
      Acted(s.(busy := Applying(AckDelta, d.config)), Ok, NoReply)
    else if d.previous != s.g.active.value && d.config.generation <= s.g.active.value.generation
        then Refuse(s, ErrStaleGeneration)
    else Acted(s.(g := s.g.(needsSnapshot := true)), ErrGenerationGap,
        MakeAck(s, AckDelta, AckSnapshotRequired, d.config))
  }

  function Happened(log: seq<seq<HandleEvent>>, h: nat, e: HandleEvent): seq<seq<HandleEvent>> {
    if h < |log| then log[h := log[h] + [e]] else log
  }

  function Aborted(log: seq<seq<HandleEvent>>, h: Option<nat>): seq<seq<HandleEvent>> {
    if h.Some? then Happened(log, h.value, Abort) else log
  }

  function RejectedAs(kind: AckKind): Error { if kind == AckDelta then ErrDeltaRejected else ErrSnapshotRejected }

  /** The part of ApplySnapshot and ApplyDelta after the runtime returned. */
  function EndApply(s: ClientState, now: int, outcome: PrepareOutcome): Acted
    requires s.busy.Applying?
  {
    var t := s.(busy := Idle);
    var kind, config := s.busy.kind, s.busy.config;
    match outcome
    case NeverPrepared => Refuse(t, ErrCanceled)
    case PrepareFailed(returned, canceled) =>
      Refuse(if returned then t.(log := s.log + [[Abort]]) else t, if canceled then ErrCanceled else RejectedAs(kind))
    case PrepareTimedOut(returned) => Refuse(if returned then t.(log := s.log + [[Abort]]) else t, ErrCanceled)
    case PreparedNothing => Refuse(t, RejectedAs(kind))
    case PreparedHandle => Stored(t, now, kind, config)
  }

  /** A prepared handle is stored, or aborted when the session ended or another one is stored. */
  function Stored(s: ClientState, now: int, kind: AckKind, config: Config): Acted {
    if Guard(s, now) != Ok then Refuse(Guarded(s, now).(log := s.log + [[Abort]]), Guard(s, now))
    else if s.g.candidate.Some? && s.g.prepared.Some? then Refuse(s.(log := s.log + [[Abort]]), ErrGenerationGap)
    else
      Acted(s.(log := s.log + [[]],
               g := s.g.(candidate := Some(config), prepared := Some(|s.log|), readyGeneration := 0,
                   state := AwaitingReady,
                         needsSnapshot := if kind == AckSnapshot then false else s.g.needsSnapshot)),
            Ok, MakeAck(s, kind, AckApplied, config))
  }

  // ---------------------------------------------------------------- readying

  function Restored(g: Staging): Staging {
    g.(state := if g.Serving() then Ready else if g.candidate.Some? then AwaitingReady else AwaitingSnapshot)
  }

  function BeginReady(s: ClientState, edge: bool, route: bool, origin: bool): Acted {
    if s.g.candidate.None? then Refuse(s, ErrSnapshotRequired)
    else if !edge || !route || !origin then Refuse(s, ErrNotReady)
    else Acted(s.(busy := Activating(s.g.prepared, s.g.candidate.value)), Ok, NoReply)
  }

  /** The part of MarkReadyContext after the runtime's Activate returned. */
  function EndReady(s: ClientState, now: int, outcome: ActivateOutcome): Acted
    requires s.busy.Activating?
  {
    var t := s.(busy := Idle);
    var handle, config := s.busy.handle, s.busy.config;
    if outcome.NeverActivated? then Refuse(t, ErrCanceled)
    else if handle.None? then Refuse(t, ErrSnapshotRejected)
    else if outcome.ActivationFailed? then
      var u := t.(log := Happened(Happened(s.log, handle.value, ActivateFail), handle.value, Abort));
      var err := if outcome.canceled then ErrCanceled else ErrSnapshotRejected;
      if s.g.candidate == Some(config) then
        Refuse(u.(g := Restored(s.g.(candidate := None, prepared := None, needsSnapshot := true))), err)
      else Refuse(u, err)
    else Promoted(t.(log := Happened(s.log, handle.value, ActivateOk)), now, config)
  }

  /** The activated candidate becomes active, unless the session ended or moved on meanwhile. */
  function Promoted(s: ClientState, now: int, config: Config): Acted {
    if Guard(s, now) != Ok then Refuse(Guarded(s, now), Guard(s, now))
    else if s.g.candidate != Some(config) then Refuse(s, ErrSessionConflict)
    else Acted(s.(g := Staging(Some(config), None, None, false, config.generation, Ready)), Ok,
               ReadyReply(Readiness(s.me, config, true, true, true, true)))
  }

  // ---------------------------------------------------------------- liveness, renewal, drain

  function MakeDrainAck(s: ClientState, r: Drain, status: DrainStatus, streams: nat, forced: bool, code: bool): Reply {
    DrainReply(DrainAck(s.me, r.id, r.config, status, streams, forced, code, true))
  }

  function BeginDrain(s: ClientState, r: Drain): Acted {
    if !s.drainCapable then Refuse(s, ErrCapabilityMissing)
    else if r.env != s.me then Acted(s, ErrIdentityMismatch, MakeDrainAck(s, r, DrainRejected, 0, false, true))
    else if s.drain.request.Some? then
      if r.id != s.drain.request.value.id then Acted(s, ErrSessionConflict,
          MakeDrainAck(s, r, DrainRejected, s.drain.streams, false, true))
      else if r.config != s.drain.request.value.config
          then Acted(s, ErrContentHashMismatch, MakeDrainAck(s, r, DrainRejected, s.drain.streams, false, true))
      else Acted(s, Ok, MakeDrainAck(s, r, s.drain.status, s.drain.streams, s.drain.status == DrainForced,
          s.drain.code))
    else if !s.g.Serving() then Acted(s, ErrNotReady, MakeDrainAck(s, r, DrainRejected, 0, false, true))
    else if Some(r.config) != s.g.active then Acted(s, ErrStaleGeneration,
        MakeDrainAck(s, r, DrainRejected, 0, false, true))
    else Acted(DrainBegun(s, r), Ok, NoReply)
  }

  function DrainBegun(s: ClientState, r: Drain): ClientState {
    s.(drain := ClientDrain(Some(r), DrainAccepted, false, false, 0), g := s.g.(state := Draining),
        drainCall := Stopping(r))
  }

  /** The reject tail of HandleDrain: it restores the lifecycle state without asking whether the session was closed. */
  function RejectDrain(s: ClientState, r: Drain): ClientState {
    var t := s.(drainCall := NoDrainCall);
    if s.drain.request.Some? && s.drain.request.value.id == r.id then
      t.(drain := s.drain.(status := DrainRejected, code := true, completed := true), g := Restored(s.g))
    else t
  }

  function EndStop(s: ClientState, stopped: bool): Acted
    requires s.drainCall.Stopping?
  {
    var r := s.drainCall.request;
    if stopped then Acted(s.(drainCall := Counting(r)), Ok, NoReply)
    else Acted(RejectDrain(s, r), ErrDrainRejected, MakeDrainAck(s, r, DrainRejected, s.drain.streams, false, true))
  }

  function EndCount(s: ClientState, count: Option<nat>): Acted
    requires s.drainCall.Counting?
  {
    var r := s.drainCall.request;
    if count.None? || count.value > MAX_ACTIVE_STREAMS
        then Acted(RejectDrain(s, r), ErrDrainRejected, MakeDrainAck(s, r, DrainRejected, 0, false, true))
    else if s.drain.request.None? || s.drain.request.value.id != r.id then
      Acted(s.(drainCall := NoDrainCall), ErrStaleSession, MakeDrainAck(s, r, DrainRejected, count.value, false, true))
    else
      Acted(s.(drainCall := NoDrainCall, drain := s.drain.(streams := count.value)), Ok,
          MakeDrainAck(s, r, DrainAccepted, count.value, false, false))
  }

  function Progress(s: ClientState, now: int, streams: nat, forced: bool): Acted {
    if s.drain.request.None? then Refuse(s, ErrSessionConflict)
    else
      var r := s.drain.request.value;
      var d := s.drain.(streams := streams);
      var t := s.(drain := d);
      if d.completed then Acted(t, Ok, MakeDrainAck(s, r, d.status, streams, d.status == DrainForced, d.code))
      else if forced && streams != 0 then Refuse(t, ErrInvalidInput)
      else if forced then Acted(s.(drain := d.(status := DrainForced, code := true, completed := true)), Ok,
          MakeDrainAck(s, r, DrainForced, 0, true, true))
      else if streams == 0 then Acted(s.(drain := d.(status := DrainCompleted, code := false, completed := true)), Ok,
          MakeDrainAck(s, r, DrainCompleted, 0, false, false))
      else if r.deadline <= now then Acted(t, ErrDrainTimeout, MakeDrainAck(s, r, DrainProgress, streams, false, false))
      else Acted(s.(drain := d.(status := DrainProgress, code := false)), Ok,
          MakeDrainAck(s, r, DrainProgress, streams, false, false))
  }

  function Renew(s: ClientState, now: int, r: Auth): Acted {
    if r.account != s.auth.account || r.tunnel != s.auth.tunnel || r.connector != s.auth.connector
       || r.session != s.me.session
       || r.host != s.auth.host || r.keyId != s.auth.keyId || r.thumbprint != s.auth.thumbprint
          || r.process != s.me.process
       || r.credentialGeneration < s.auth.credentialGeneration then Refuse(s, ErrIdentityMismatch)
    else if r.credentialExpiresAt < s.auth.credentialExpiresAt || r.leaseExpiresAt < s.lease.expiresAt then
      Refuse(s, ErrSessionConflict)
    else if r.credentialGeneration == s.auth.credentialGeneration
            && r.credentialExpiresAt == s.auth.credentialExpiresAt && r.leaseExpiresAt == s.lease.expiresAt then
      Refuse(s, Ok)
    else Refuse(s.(auth := r, lease := s.lease.(expiresAt := r.leaseExpiresAt, lastAck := now)), Ok)
  }

  function Shut(s: ClientState, reason: Reason): Acted {
    if s.g.state == Closed then Refuse(s, Ok)
    else Refuse(s.(g := s.g.(state := Closed, candidate := None, prepared := None), reason := reason,
        log := Aborted(s.log, s.g.prepared)), Ok)
  }

  // ---------------------------------------------------------------- one input

  /** The checks made before the lock is taken. */
  function Precheck(now: int, input: ClientInput): Error {
    match input
    case ApplySnapshot(o) => if o.Valid() then Ok else ErrSnapshotRejected
    case ApplyDelta(d) => if d.Valid() then Ok else ErrDeltaRejected
    case AcceptHeartbeatAck(a) => if a.wellFormed && now < a.leaseExpiresAt then Ok else ErrInvalidInput
    case HandleDrain(r) => if r.Valid(now) then Ok else ErrInvalidInput
    case DrainProgressed(streams, _) => if streams <= MAX_ACTIVE_STREAMS then Ok else ErrInvalidInput
    case ApplyRenewal(r) => if r.wellFormed && r.leaseExpiresAt <= r.credentialExpiresAt then Ok
        else ErrAuthenticationFailed
    case AcceptWelcome(_, _, _, _, acceptable) => if acceptable then Ok else ErrInvalidInput
    case Close(reason) => if ValidReason(reason) then Ok else ErrInvalidInput
    case _ => Ok
  }

  /** Inputs whose locked part does not begin with the liveness guard. */
  predicate Unguarded(input: ClientInput) {
    input.AcceptWelcome? || input.Prepared? || input.Activated? || input.StreamsStopped? || input.StreamsCounted?
        || input.Close?
  }

  function ActUnguarded(s: ClientState, now: int, input: ClientInput): Acted
    requires Enabled(s, input) && Unguarded(input)
  {
    match input
    case AcceptWelcome(session, expiresAt, heartbeatMS, drainCapable, _) =>
      if s.g.state != New then Refuse(s, ErrSessionConflict)
      else Refuse(s.(me := s.me.(session := session), lease := ClientLease(expiresAt, heartbeatMS, now),
          drainCapable := drainCapable,
                     g := s.g.(state := AwaitingSnapshot)), Ok)
    case Prepared(outcome) => EndApply(s, now, outcome)
    case Activated(outcome) => EndReady(s, now, outcome)
    case StreamsStopped(stopped) => EndStop(s, stopped)
    case StreamsCounted(count) => EndCount(s, count)
    case Close(reason) => Shut(s, reason)
  }

  function ActGuarded(s: ClientState, now: int, input: ClientInput): Acted
    requires Enabled(s, input) && !Unguarded(input)
  {
    match input
    case ApplySnapshot(o) => BeginSnapshot(s, o)
    case ApplyDelta(d) => BeginDelta(s, d)
    case MarkReady(edge, route, origin) => BeginReady(s, edge, route, origin)
    case SendHeartbeat =>
      var current := if s.g.active.Some? then s.g.active else s.g.candidate;
      if current.None? then Refuse(s, ErrSnapshotRequired)
          else Acted(s, Ok, HeartbeatReply(Heartbeat(s.me, current.value, now, true)))
    case AcceptHeartbeatAck(a) =>
      if a.env != s.me then Refuse(s, ErrIdentityMismatch)
      else Refuse(s.(lease := s.lease.(expiresAt := a.leaseExpiresAt, lastAck := now)), Ok)
    case HandleDrain(r) => BeginDrain(s, r)
    case DrainProgressed(streams, forced) => Progress(s, now, streams, forced)
    case ApplyRenewal(r) => Renew(s, now, r)
    case CheckLease => Refuse(s, Ok)
  }

  function Act(s: ClientState, now: int, input: ClientInput): Acted
    requires Enabled(s, input)
  {
    if Precheck(now, input) != Ok then Refuse(s, Precheck(now, input))
    else if Unguarded(input) then ActUnguarded(s, now, input)
    else if Guard(s, now) != Ok then Refuse(Guarded(s, now), Guard(s, now))
    else ActGuarded(s, now, input)
  }

  // ---------------------------------------------------------------- the session object

  class ClientSession {
    var me: Envelope
    var auth: Auth
    var drainCapable: bool
    var lease: ClientLease
    var active: Option<Config>
    var candidate: Option<Config>
    var prepared: Option<nat>
    var needsSnapshot: bool
    var readyGeneration: nat
    var state: SessionState
    var drain: Option<Drain>
    var drainStatus: DrainStatus
    var drainCode: bool
    var drainCompleted: bool
    var activeStreams: nat
    var drainCall: DrainCall
    var busy: Busy
    var log: seq<seq<HandleEvent>>
    var reason: Reason

    function Staged(): Staging
      reads this
    {
      Staging(active, candidate, prepared, needsSnapshot, readyGeneration, state)
    }

    function View(): ClientState
      reads this
    {
      ClientState(me, auth, drainCapable, lease, Staged(), Drained(), drainCall, busy, log, reason)
    }

    function Drained(): ClientDrain
      reads this
    {
      ClientDrain(drain, drainStatus, drainCode, drainCompleted, activeStreams)
    }

    constructor (me: Envelope, auth: Auth)
      ensures View() == NewClient(me, auth)
    {
      this.me, this.auth, drainCapable, lease := me, auth, false, ClientLease(0, 0, 0);
      active, candidate, prepared, needsSnapshot, readyGeneration, state := None, None, None, false, 0, New;
      drain, drainStatus, drainCode, drainCompleted, activeStreams := None, DrainAccepted, false, false, 0;
      drainCall, busy, log, reason := NoDrainCall, Idle, [], NoReason;
    }

    method EnsureActive(now: int) returns (err: Error)
      modifies this`state, this`reason
      ensures err == Guard(old(View()), now) && View() == Guarded(old(View()), now)
    {
      if state == Closed { return ErrSessionClosed; }
      if state == New { return ErrSessionConflict; }
      if lease.expiresAt <= now { state, reason := Closed, ReasonLeaseExpired; return ErrLeaseExpired; }
      if now - lease.lastAck > 2 * lease.heartbeatMS * MILLISECOND {
        state, reason := Closed, ReasonHeartbeatTimeout; return ErrHeartbeatTimeout;
      }
      err := Ok;
    }

    method RestoreState()
      modifies this`state
      ensures Staged() == Restored(old(Staged()))
    {
      if active.Some? && readyGeneration == active.value.generation && !needsSnapshot { state := Ready; return; }
      if candidate.Some? { state := AwaitingReady; return; }
      state := AwaitingSnapshot;
    }

    /** The runtime is told to abort a prepared configuration. */
    method AbortPrepared(handle: Option<nat>)
      modifies this`log
      ensures log == Aborted(old(log), handle)
    {
      if handle.Some? && handle.value < |log| { log := log[handle.value := log[handle.value] + [Abort]]; }
    }

    method AcceptWelcome(now: int, session: string, expiresAt: int, heartbeatMS: nat, capable: bool, acceptable: bool)
        returns (err: Error)
      modifies this
      ensures Acted(View(), err, NoReply) == Act(old(View()), now,
              ClientInput.AcceptWelcome(session, expiresAt, heartbeatMS, capable, acceptable))
    {
      if !acceptable { return ErrInvalidInput; }
      if state != New { return ErrSessionConflict; }
      Open(session, ClientLease(expiresAt, heartbeatMS, now), capable);
      err := Ok;
    }

    method Open(session: string, granted: ClientLease, capable: bool)
      modifies this`me, this`lease, this`drainCapable, this`state
      ensures View() == old(View()).(me := old(me).(session := session), lease := granted, drainCapable := capable,
                                     g := old(Staged()).(state := AwaitingSnapshot))
    {
      me, lease, drainCapable, state := me.(session := session), granted, capable, AwaitingSnapshot;
    }

    method ApplySnapshot(now: int, snapshot: Snapshot) returns (err: Error, reply: Reply)
      requires busy == Idle
      modifies this
      ensures Acted(View(), err, reply) == Act(old(View()), now, ClientInput.ApplySnapshot(snapshot))
    {
      reply := NoReply;
      if !snapshot.Valid() { return ErrSnapshotRejected, NoReply; }
      err := EnsureActive(now);
      if err != Ok { return; }
      if snapshot.env != me { return ErrIdentityMismatch, NoReply; }
      var current := active;
      if candidate.Some? { current := candidate; }
      if current.Some? {
        if snapshot.config.generation < current.value.generation { return ErrStaleGeneration, NoReply; }
        if snapshot.config.generation == current.value.generation {
          if snapshot.config.hash == current.value.hash {
            return Ok, AckReply(Ack(me, AckSnapshot, AckDuplicate, snapshot.config, true));
          }
          return ErrContentHashMismatch, NoReply;
        }
      }
      busy := Applying(AckSnapshot, snapshot.config);
    }

    method ApplyDelta(now: int, delta: Delta) returns (err: Error, reply: Reply)
      requires busy == Idle
      modifies this
      ensures Acted(View(), err, reply) == Act(old(View()), now, ClientInput.ApplyDelta(delta))
    {
      reply := NoReply;
      if !delta.Valid() { return ErrDeltaRejected, NoReply; }
      err := EnsureActive(now);
      if err != Ok { return; }
      if delta.env != me { return ErrIdentityMismatch, NoReply; }
      reply := AckReply(Ack(me, AckDelta, AckSnapshotRequired, delta.config, true));
      if active.None? || needsSnapshot || candidate.Some? { return ErrSnapshotRequired, reply; }
      if delta.previous != active.value {   // a valid delta on the active configuration has the next generation
        if delta.config.generation <= active.value.generation { return ErrStaleGeneration, NoReply; }
        needsSnapshot := true;
        return ErrGenerationGap, reply;
      }
      busy, reply := Applying(AckDelta, delta.config), NoReply;
    }

    /** Store a handle the runtime just prepared, or abort it when another is stored. */
    method StoreHandle(kind: AckKind, config: Config) returns (stored: bool)
      modifies this`log, this`candidate, this`prepared, this`readyGeneration, this`state, this`needsSnapshot
      ensures stored == !(old(candidate).Some? && old(prepared).Some?)
      ensures log == old(log) + (if stored then [[]] else [[Abort]])
      ensures Staged() == if !stored then old(Staged()) else
                old(Staged()).(candidate := Some(config), prepared := Some(|old(log)|), readyGeneration := 0,
                    state := AwaitingReady,
                               needsSnapshot := if kind == AckSnapshot then false else old(needsSnapshot))
    {
      if candidate.Some? && prepared.Some? { log := log + [[Abort]]; return false; }
      candidate, prepared, readyGeneration, state := Some(config), Some(|log|), 0, AwaitingReady;
      log := log + [[]];
      if kind == AckSnapshot { needsSnapshot := false; }
      stored := true;
    }

    method StageHandle(now: int, kind: AckKind, config: Config) returns (err: Error, reply: Reply)
      modifies this
      ensures Acted(View(), err, reply) == Stored(old(View()), now, kind, config)
    {
      err := EnsureActive(now);
      if err != Ok { log := log + [[Abort]]; return err, NoReply; }
      var stored := StoreHandle(kind, config);
      if !stored { return ErrGenerationGap, NoReply; }
      reply := AckReply(Ack(me, kind, AckApplied, config, true));
    }

    method FinishApply(now: int, outcome: PrepareOutcome) returns (err: Error, reply: Reply)
      requires busy.Applying?
      modifies this
      ensures Acted(View(), err, reply) == EndApply(old(View()), now, outcome)
    {
      if outcome.PreparedHandle? {
        var kind, config := busy.kind, busy.config;
        busy := Idle;
        err, reply := StageHandle(now, kind, config);
        return;
      }
      reply := NoReply;
      var canceled := outcome.NeverPrepared? || outcome.PrepareTimedOut?
                      || (outcome.PrepareFailed? && outcome.canceled);
      err := if canceled then ErrCanceled else RejectedAs(busy.kind);
      if (outcome.PrepareFailed? || outcome.PrepareTimedOut?) && outcome.returnedHandle { log := log + [[Abort]]; }
      busy := Idle;
    }

    method MarkReady(now: int, edge: bool, route: bool, origin: bool) returns (err: Error)
      requires busy == Idle
      modifies this
      ensures Acted(View(), err, NoReply) == Act(old(View()), now, ClientInput.MarkReady(edge, route, origin))
    {
      err := EnsureActive(now);
      if err != Ok { return; }
      if candidate.None? { return ErrSnapshotRequired; }
      if !edge || !route || !origin { return ErrNotReady; }
      busy := Activating(prepared, candidate.value);
    }

    method FailActivation(handle: nat, config: Config)
      modifies this`log, this`candidate, this`prepared, this`needsSnapshot, this`state
      ensures log == Happened(Happened(old(log), handle, ActivateFail), handle, Abort)
      ensures Staged() == if old(candidate) == Some(config)
              then Restored(old(Staged()).(candidate := None, prepared := None, needsSnapshot := true))
              else old(Staged())
    {
      log := Happened(log, handle, ActivateFail);
      AbortPrepared(Some(handle));
      if candidate == Some(config) {
        candidate, prepared, needsSnapshot := None, None, true;
        RestoreState();
      }
    }

    /** The same on the whole state. */
    method GiveUp(handle: nat, config: Config)
      modifies this`log, this`candidate, this`prepared, this`needsSnapshot, this`state
      ensures var dropped := old(Staged()).(candidate := None, prepared := None, needsSnapshot := true);
              View() == old(View()).(log := Happened(Happened(old(log), handle, ActivateFail), handle, Abort),
                                     g := if old(candidate) == Some(config) then Restored(dropped) else old(Staged()))
    {
      FailActivation(handle, config);
    }

    method FinishReady(now: int, outcome: ActivateOutcome) returns (err: Error, reply: Reply)
      requires busy.Activating?
      modifies this
      ensures Acted(View(), err, reply) == EndReady(old(View()), now, outcome)
    {
      reply := NoReply;
      var handle, config := busy.handle, busy.config;
      busy := Idle;
      if outcome.NeverActivated? { return ErrCanceled, NoReply; }
      if handle.None? { return ErrSnapshotRejected, NoReply; }
      if outcome.ActivationFailed? {
        GiveUp(handle.value, config);
        return if outcome.canceled then ErrCanceled else ErrSnapshotRejected, NoReply;
      }
      log := Happened(log, handle.value, ActivateOk);
      err, reply := Promote(now, config);
    }

    method Promote(now: int, config: Config) returns (err: Error, reply: Reply)
      modifies this
      ensures Acted(View(), err, reply) == Promoted(old(View()), now, config)
    {
      reply := NoReply;
      err := EnsureActive(now);
      if err != Ok { return; }
      if candidate != Some(config) { return ErrSessionConflict, NoReply; }
      active, candidate, prepared := candidate, None, None;
      needsSnapshot, readyGeneration, state := false, active.value.generation, Ready;
      reply := ReadyReply(Readiness(me, config, true, true, true, true));
    }

    method SendHeartbeat(now: int) returns (err: Error, reply: Reply)
      modifies this`state, this`reason
      ensures Acted(View(), err, reply) == Act(old(View()), now, ClientInput.SendHeartbeat)
    {
      reply := NoReply;
      err := EnsureActive(now);
      if err != Ok { return; }
      if active.Some? { return Ok, HeartbeatReply(Heartbeat(me, active.value, now, true)); }
      if candidate.Some? { return Ok, HeartbeatReply(Heartbeat(me, candidate.value, now, true)); }
      err := ErrSnapshotRequired;
    }

    method AcceptHeartbeatAck(now: int, ack: HeartbeatAck) returns (err: Error)
      modifies this`state, this`reason, this`lease
      ensures Acted(View(), err, NoReply) == Act(old(View()), now, ClientInput.AcceptHeartbeatAck(ack))
    {
      if !ack.wellFormed || ack.leaseExpiresAt <= now { return ErrInvalidInput; }
      err := EnsureActive(now);
      if err != Ok { return; }
      if ack.env != me { return ErrIdentityMismatch; }
      lease := lease.(expiresAt := ack.leaseExpiresAt, lastAck := now);
    }

    method HandleDrain(now: int, request: Drain) returns (err: Error, reply: Reply)
      modifies this
      ensures Acted(View(), err, reply) == Act(old(View()), now, ClientInput.HandleDrain(request))
    {
      reply := NoReply;
      if !request.Valid(now) { return ErrInvalidInput, NoReply; }
      err := EnsureActive(now);
      if err != Ok { return; }
      err, reply := DrainLocked(request);
    }

    /** Why a drain request is refused, or how a repeated one is answered; None when it starts a drain. */
    method DrainAnswer(request: Drain) returns (answered: bool, err: Error, reply: Reply)
      ensures answered ==> Acted(View(), err, reply) == BeginDrain(View(), request)
      ensures !answered ==> BeginDrain(View(), request) == Acted(DrainBegun(View(), request), Ok, NoReply)
    {
      answered, err, reply := true, Ok, NoReply;
      if !drainCapable { return true, ErrCapabilityMissing, NoReply; }
      var rejected := DrainAck(me, request.id, request.config, DrainRejected, 0, false, true, true);
      if request.env != me { return true, ErrIdentityMismatch, DrainReply(rejected); }
      if drain.Some? {
        if request.id != drain.value.id {
          return true, ErrSessionConflict, DrainReply(rejected.(streams := activeStreams));
        }
        if request.config != drain.value.config {
          return true, ErrContentHashMismatch, DrainReply(rejected.(streams := activeStreams));
        }
        return true, Ok, DrainReply(DrainAck(me, request.id, request.config, drainStatus, activeStreams,
            drainStatus == DrainForced, drainCode, true));
      }
      if active.None? || needsSnapshot || readyGeneration != active.value.generation {
        return true, ErrNotReady, DrainReply(rejected);
      }
      if request.config != active.value { return true, ErrStaleGeneration, DrainReply(rejected); }
      answered := false;
    }

    method DrainLocked(request: Drain) returns (err: Error, reply: Reply)
      modifies this
      ensures Acted(View(), err, reply) == BeginDrain(old(View()), request)
    {
      var answered;
      answered, err, reply := DrainAnswer(request);
      if answered { return; }
      drain, drainStatus, drainCode, drainCompleted, activeStreams := Some(request), DrainAccepted, false, false, 0;
      state, drainCall := Draining, Stopping(request);
      err, reply := Ok, NoReply;
    }

    method FailDrain(request: Drain)
      modifies this`drainCall, this`drainStatus, this`drainCode, this`drainCompleted, this`state
      ensures var t := RejectDrain(old(View()), request);
              drainCall == t.drainCall && Drained() == t.drain && Staged() == t.g
    {
      drainCall := NoDrainCall;
      if drain.Some? && drain.value.id == request.id {
        drainStatus, drainCode, drainCompleted := DrainRejected, true, true;
        RestoreState();
      }
    }

    /** The same on the whole state. */
    method RejectLocked(request: Drain)
      modifies this`drainCall, this`drainStatus, this`drainCode, this`drainCompleted, this`state
      ensures View() == RejectDrain(old(View()), request)
    {
      FailDrain(request);
    }

    method FinishStop(now: int, stopped: bool) returns (err: Error, reply: Reply)
      requires drainCall.Stopping?
      modifies this
      ensures Acted(View(), err, reply) == Act(old(View()), now, StreamsStopped(stopped))
    {
      var request := drainCall.request;
      if !stopped {
        RejectLocked(request);
        return ErrDrainRejected, MakeDrainAck(View(), request, DrainRejected, activeStreams, false, true);
      }
      drainCall := Counting(request);
      err, reply := Ok, NoReply;
    }

    method FinishCount(now: int, count: Option<nat>) returns (err: Error, reply: Reply)
      requires drainCall.Counting?
      modifies this
      ensures Acted(View(), err, reply) == Act(old(View()), now, StreamsCounted(count))
    {
      var request := drainCall.request;
      if count.None? || count.value > MAX_ACTIVE_STREAMS {
        RejectLocked(request);
        return ErrDrainRejected, MakeDrainAck(View(), request, DrainRejected, 0, false, true);
      }
      drainCall := NoDrainCall;
      if drain.None? || drain.value.id != request.id {
        return ErrStaleSession, MakeDrainAck(View(), request, DrainRejected, count.value, false, true);
      }
      activeStreams := count.value;
      err, reply := Ok, MakeDrainAck(View(), request, DrainAccepted, count.value, false, false);
    }

    method DrainProgress(now: int, streams: nat, forced: bool) returns (err: Error, reply: Reply)
      modifies this
      ensures Acted(View(), err, reply) == Act(old(View()), now, DrainProgressed(streams, forced))
    {
      reply := NoReply;
      if streams > MAX_ACTIVE_STREAMS { return ErrInvalidInput, NoReply; }
      err := EnsureActive(now);
      if err != Ok { return; }
      err, reply := ProgressLocked(now, streams, forced);
    }

    method ProgressLocked(now: int, streams: nat, forced: bool) returns (err: Error, reply: Reply)
      modifies this
      ensures Acted(View(), err, reply) == Progress(old(View()), now, streams, forced)
    {
      reply := NoReply;
      if drain.None? { return ErrSessionConflict, NoReply; }
      activeStreams := streams;
      if drainCompleted {
        return Ok, MakeDrainAck(View(), drain.value, drainStatus, streams, drainStatus == DrainForced, drainCode);
      }
      if forced {
        if streams != 0 { return ErrInvalidInput, NoReply; }
        drainStatus, drainCode, drainCompleted := DrainForced, true, true;
        return Ok, MakeDrainAck(View(), drain.value, DrainForced, 0, true, true);
      }
      if streams == 0 {
        drainStatus, drainCode, drainCompleted := DrainCompleted, false, true;
        return Ok, MakeDrainAck(View(), drain.value, DrainCompleted, 0, false, false);
      }
      reply := MakeDrainAck(View(), drain.value, DrainStatus.DrainProgress, streams, false, false);
      if drain.value.deadline <= now { return ErrDrainTimeout, reply; }
      drainStatus, drainCode := DrainStatus.DrainProgress, false;
      err := Ok;
    }

    method ApplyRenewal(now: int, result: Auth) returns (err: Error)
      modifies this
      ensures Acted(View(), err, NoReply) == Act(old(View()), now, ClientInput.ApplyRenewal(result))
    {
      if !result.wellFormed || result.credentialExpiresAt < result.leaseExpiresAt { return ErrAuthenticationFailed; }
      err := EnsureActive(now);
      if err != Ok { return; }
      err := RenewalLocked(now, result);
    }

    method RenewalLocked(now: int, result: Auth) returns (err: Error)
      modifies this
      ensures Acted(View(), err, NoReply) == Renew(old(View()), now, result)
    {
      if result.account != auth.account || result.tunnel != auth.tunnel || result.connector != auth.connector
         || result.session != me.session
         || result.host != auth.host || result.keyId != auth.keyId || result.thumbprint != auth.thumbprint
            || result.process != me.process
         || result.credentialGeneration < auth.credentialGeneration { return ErrIdentityMismatch; }
      if result.credentialExpiresAt < auth.credentialExpiresAt || result.leaseExpiresAt < lease.expiresAt {
        return ErrSessionConflict;
      }
      err := Ok;
      if result.credentialGeneration == auth.credentialGeneration
         && result.credentialExpiresAt == auth.credentialExpiresAt
         && result.leaseExpiresAt == lease.expiresAt { return; }
      auth, lease := result, lease.(expiresAt := result.leaseExpiresAt, lastAck := now);
    }

    method Close(now: int, why: Reason) returns (err: Error)
      requires busy == Idle
      modifies this
      ensures Acted(View(), err, NoReply) == Act(old(View()), now, ClientInput.Close(why))
    {
      if !ValidReason(why) { return ErrInvalidInput; }
      err := Ok;
      ShutLocked(why);
    }

    /** Closing, on the whole state. */
    method ShutLocked(why: Reason)
      modifies this`state, this`reason, this`prepared, this`candidate, this`log
      ensures View() == Shut(old(View()), why).s
    {
      CloseLocked(why);
    }

    method CloseLocked(why: Reason)
      modifies this`state, this`reason, this`prepared, this`candidate, this`log
      ensures var t := Shut(old(View()), why).s; Staged() == t.g && log == t.log && reason == t.reason
    {
      if state == Closed { return; }
      var handle := prepared;
      state, reason, prepared, candidate := Closed, why, None, None;
      AbortPrepared(handle);
    }
  }
}
