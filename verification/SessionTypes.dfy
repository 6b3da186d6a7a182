/**
 Messages and small types of the connector-v1 control protocol, shared by the
 server session, the client session and their composition.

 Time is an integer number of nanoseconds. A configuration is its generation and
 the hash of its payload. `wellFormed` is the verdict of the library checks
 (identifier patterns, canonical JSON, digest) that a message carries with it.
 */
module SessionTypes {

  datatype Option<+T> = None | Some(value: T)

  datatype SessionState = New | AwaitingSnapshot | AwaitingReady | Ready | Draining | Closed

  datatype Reason =
    | NoReason | UnknownReason
    | ReasonProtocolMismatch | ReasonCapabilityMissing | ReasonMalformed | ReasonAuthentication
    | ReasonCredentialExpired | ReasonLeaseExpired | ReasonHeartbeatTimeout | ReasonSessionReplaced
    | ReasonStaleGeneration | ReasonSnapshotRejected | ReasonGenerationGap | ReasonCredentialRotation
    | ReasonCanceled | ReasonServerShutdown | ReasonProtocolClosed

  predicate ValidReason(r: Reason) { r != NoReason && r != UnknownReason }

  datatype Error =
    | Ok
    | ErrInvalidInput | ErrIdentityMismatch | ErrAuthenticationFailed | ErrCapabilityMissing
    | ErrSessionClosed | ErrSessionConflict | ErrStaleSession
    | ErrCredentialExpired | ErrLeaseExpired | ErrHeartbeatTimeout
    | ErrSnapshotRejected | ErrSnapshotRequired | ErrDeltaRejected
    | ErrGenerationGap | ErrStaleGeneration | ErrContentHashMismatch
    | ErrNotReady | ErrCanceled | ErrDrainRejected | ErrDrainTimeout

  const MILLISECOND: int := 1_000_000
  const SECOND: int := 1000 * MILLISECOND
  const MAX_CLOCK_SKEW: int := 120 * SECOND
  const MAX_LEASE: int := 24 * 3600 * SECOND
  const MAX_ACTIVE_STREAMS: int := 1_048_576

  predicate Alphanumeric(c: char) { 'A' <= c <= 'Z' || 'a' <= c <= 'z' || '0' <= c <= '9' }

  predicate ValidIdentifier(s: string) {
    && 1 <= |s| <= 128
    && Alphanumeric(s[0])
    && forall i :: 0 <= i < |s| ==> Alphanumeric(s[i]) || s[i] in "._:-"
  }

  /** The identity every wire message repeats. */
  datatype Envelope = Envelope(account: string, tunnel: string, connector: string, session: string, process: nat)

  datatype SessionRef = SessionRef(tunnel: string, connector: string, session: string, process: nat) {
    predicate Valid() {
      ValidIdentifier(tunnel) && ValidIdentifier(connector) && ValidIdentifier(session) && process != 0
    }
  }

  datatype Config = Config(generation: nat, hash: string)

  /** `a` comes strictly before `b`, or is the very same configuration. */
  predicate AtMost(a: Config, b: Config) { a.generation < b.generation || a == b }

  datatype Snapshot = Snapshot(env: Envelope, config: Config, wellFormed: bool) {
    predicate Valid() { wellFormed && config.generation != 0 }
  }

  datatype Delta = Delta(env: Envelope, previous: Config, config: Config, wellFormed: bool) {
    predicate Valid() {
      wellFormed && previous.generation != 0 && config.generation == previous.generation + 1
    }
  }

  datatype AckKind = AckSnapshot | AckDelta | AckReady | AckRenewal
  datatype AckStatus = AckApplied | AckDuplicate | AckRejected | AckSnapshotRequired

  datatype Ack = Ack(env: Envelope, kind: AckKind, status: AckStatus, config: Config, wellFormed: bool) {
    predicate Valid() { wellFormed && config.generation != 0 }
    /** The statuses HandleAck turns into a candidate. */
    predicate Positive() { status == AckApplied || status == AckDuplicate }
  }

  datatype Readiness = Readiness(env: Envelope, config: Config, edge: bool, route: bool, origin: bool,
      wellFormed: bool) {
    predicate Valid() { wellFormed && config.generation != 0 }
  }

  datatype Heartbeat = Heartbeat(env: Envelope, config: Config, sentAt: int, wellFormed: bool) {
    predicate Valid() { wellFormed && config.generation != 0 }
  }

  datatype HeartbeatAck = HeartbeatAck(env: Envelope, leaseExpiresAt: int, wellFormed: bool)

  datatype Drain = Drain(env: Envelope, id: string, config: Config, deadline: int, stopNewStreams: bool,
      wellFormed: bool) {
    predicate Valid(now: int) {
      && wellFormed && ValidIdentifier(id) && config.generation != 0 && stopNewStreams
      && now < deadline <= now + MAX_LEASE
    }
  }

  datatype DrainStatus = DrainAccepted | DrainProgress | DrainCompleted | DrainForced | DrainRejected

  datatype DrainAck = DrainAck(env: Envelope, id: string, config: Config, status: DrainStatus,
                               streams: nat, forced: bool, code: bool, wellFormed: bool) {
    /** `code` says whether the one code allowed for the status is present. */
    predicate Valid() {
      && wellFormed && config.generation != 0 && streams <= MAX_ACTIVE_STREAMS
      && match status
         case DrainAccepted => !forced && !code
         case DrainProgress => !forced && !code
         case DrainCompleted => streams == 0 && !forced && !code
         case DrainForced => forced && code && streams == 0
         case DrainRejected => !forced && code
    }
  }

  datatype Auth = Auth(account: string, tunnel: string, connector: string, session: string, host: string,
                       keyId: string, thumbprint: string, process: nat, credentialGeneration: nat,
                       credentialExpiresAt: int, leaseExpiresAt: int, wellFormed: bool) {
    predicate Valid(now: int) {
      && wellFormed && process != 0 && credentialGeneration != 0
      && leaseExpiresAt <= credentialExpiresAt
      && now < credentialExpiresAt && now < leaseExpiresAt <= now + MAX_LEASE
    }
    /** The machine and connector a credential speaks for. */
    function Identity(): (string, string, string, string, string, string, nat) {
      (account, tunnel, connector, host, keyId, thumbprint, process)
    }
  }

  datatype RenewalRequest = RenewalRequest(session: string, account: string, tunnel: string, connector: string,
                                           host: string, keyId: string, thumbprint: string, process: nat,
                                           credentialGeneration: nat, requestedAt: int, wellFormed: bool) {
    predicate Valid() { wellFormed && process != 0 && credentialGeneration != 0 }
    predicate FreshAt(now: int) { now - MAX_CLOCK_SKEW <= requestedAt <= now + MAX_CLOCK_SKEW }
  }
}
