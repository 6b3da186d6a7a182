/**
 One server session and one client session joined by two FIFO channels, with the
 wire adapter that turns session results into messages. Offers, runtime answers,
 registry changes, lease expiry, drains and renewals interleave in any order.
 */
module ControlSessions {
  import opened SessionTypes
  import opened SessionRegistries
  import S = ServerSessions
  import C = ClientSessions
  import ST = ServerTheorems
  import CT = ClientTheorems

  datatype Down =
    | SnapshotFrame(snapshot: Snapshot) | DeltaFrame(delta: Delta) | HeartbeatAckFrame(heartbeatAck: HeartbeatAck)
    | RenewedFrame(auth: Auth) | DrainFrame(drain: Drain)

  datatype Up =
    | AckFrame(ack: Ack) | ReadyFrame(readiness: Readiness) | HeartbeatFrame(heartbeat: Heartbeat)
    | DrainAckFrame(drainAck: DrainAck) | RenewalFrame(request: RenewalRequest)

  /** `activated` is the history of configurations the client has promoted. */
  datatype System = System(
    settings: S.Settings,
    server: S.ServerState,
    refs: Refs,
    client: C.ClientState,
    down: seq<Down>,
    up: seq<Up>,
    clock: int,
    activated: seq<Config>)

  datatype Step =
    | Tick(elapsed: nat)
    | RegistryChanges(refs: Refs)
    | ServerActs(serverInput: S.ServerInput)      // offers, drains, renewal results, closing
    | ServerReceives
    | ClientActs(clientInput: C.ClientInput)      // runtime answers, readying, heartbeats, closing
    | ClientAsksRenewal(request: RenewalRequest)
    | ClientReceives

  // ---------------------------------------------------------------- the wire adapters

  /** The acknowledgement of a snapshot or delta: the session's own, or a synthesized rejection. */
  function ApplyAck(client: C.ClientState, kind: AckKind, config: Config, reply: C.Reply): Up {
    if reply.AckReply? then AckFrame(reply.ack) else AckFrame(Ack(client.me, kind, AckRejected, config, true))
  }

  function UpFrames(before: C.ClientState, input: C.ClientInput, acted: C.Acted): seq<Up> {
    match input
    case ApplySnapshot(o) => if acted.s.busy != C.Idle then []
        else [ApplyAck(before, AckSnapshot, o.config, acted.reply)]
    case ApplyDelta(d) => if acted.s.busy != C.Idle then [] else [ApplyAck(before, AckDelta, d.config, acted.reply)]
    case Prepared(_) => if before.busy.Applying?
        then [ApplyAck(before, before.busy.kind, before.busy.config, acted.reply)] else []
    case _ =>
      match acted.reply
      case ReadyReply(r) => [ReadyFrame(r)]
      case HeartbeatReply(h) => [HeartbeatFrame(h)]
      case DrainReply(a) => [DrainAckFrame(a)]
      case _ => []
  }

  function DownFrames(server: S.ServerState, input: S.ServerInput, served: S.Served): seq<Down> {
    if served.err != Ok then []
    else
      match input
      case OfferSnapshot(o) => [SnapshotFrame(Snapshot(server.Env(), o.config, true))]
      case OfferDelta(d) => [DeltaFrame(d.(env := server.Env()))]
      case HandleHeartbeat(_) => if served.reply.LeaseExtended?
          then [HeartbeatAckFrame(HeartbeatAck(server.Env(), served.reply.until, true))] else []
      case BeginDrain(_, _) => if served.reply.DrainRequest? then [DrainFrame(served.reply.drain)] else []
      case RenewFinish(_, _) => if served.reply.Renewed? then [RenewedFrame(served.reply.auth)] else []
      case _ => []
  }

  function Received(m: Up): S.ServerInput {
    match m
    case AckFrame(a) => S.HandleAck(a)
    case ReadyFrame(r) => S.HandleReadiness(r)
    case HeartbeatFrame(h) => S.HandleHeartbeat(h)
    case DrainAckFrame(a) => S.HandleDrainAck(a)
    case RenewalFrame(r) => S.RenewBegin(r)
  }

  function Delivered(m: Down): C.ClientInput {
    match m
    case SnapshotFrame(o) => C.ApplySnapshot(o)
    case DeltaFrame(d) => C.ApplyDelta(d)
    case HeartbeatAckFrame(a) => C.AcceptHeartbeatAck(a)
    case RenewedFrame(a) => C.ApplyRenewal(a)
    case DrainFrame(d) => C.HandleDrain(d)
  }

  // ---------------------------------------------------------------- steps

  predicate ServerInitiates(input: S.ServerInput) {
    input.OfferSnapshot? || input.OfferDelta? || input.BeginDrain? || input.RenewFinish? || input.CheckLease?
        || input.Close?
  }

  predicate ClientInitiates(input: C.ClientInput) {
    !(input.ApplySnapshot? || input.ApplyDelta? || input.AcceptHeartbeatAck? || input.ApplyRenewal?
        || input.HandleDrain?)
  }

  function ServerStep(x: System, input: S.ServerInput, up: seq<Up>): System {
    var r := S.Serve(x.settings, x.server, x.refs, x.clock, input);
    x.(server := r.s, refs := r.refs, up := up, down := x.down + DownFrames(x.server, input, r))
  }

  function ClientStep(x: System, input: C.ClientInput, down: seq<Down>): System
    requires C.Enabled(x.client, input)
  {
    var r := C.Act(x.client, x.clock, input);
    x.(client := r.s, down := down, up := x.up + UpFrames(x.client, input, r),
       activated := if r.s.g.active != x.client.g.active && r.s.g.active.Some? then x.activated + [r.s.g.active.value]
           else x.activated)
  }

  function Next(x: System, step: Step): System {
    match step
    case Tick(elapsed) => x.(clock := x.clock + elapsed)
    case RegistryChanges(refs) => x.(refs := refs)
    case ServerActs(input) => if ServerInitiates(input) then ServerStep(x, input, x.up) else x
    case ServerReceives => if x.up == [] then x else ServerStep(x, Received(x.up[0]), x.up[1..])
    case ClientActs(input) => if ClientInitiates(input) && C.Enabled(x.client, input) then ClientStep(x, input, x.down)
        else x
    case ClientAsksRenewal(r) => x.(up := x.up + [RenewalFrame(r)])
    case ClientReceives => if x.down == [] || !C.Enabled(x.client, Delivered(x.down[0])) then x
        else ClientStep(x, Delivered(x.down[0]), x.down[1..])
  }

  function Run(x: System, steps: seq<Step>): System
    decreases |steps|
  {
    if steps == [] then x else Run(Next(x, steps[0]), steps[1..])
  }

  /** A freshly accepted session: the first snapshot is on its way, the client has seen nothing. */
  predicate Initial(x: System) {
    && x.server.p.active.None? && x.server.p.candidate.None? && x.server.p.pendingDelta.None?
    && x.client == C.NewClient(x.client.me, x.client.auth)
    && (forall i :: 0 <= i < |x.down| ==> x.down[i].SnapshotFrame?)
    && x.up == [] && x.activated == []
  }

  // ---------------------------------------------------------------- what one session call can change

  /**
   A step of the server's configurations: none, a candidate it was told is applied, or the awaited
   one becoming active.
   */
  predicate Steps(p: S.Progress, q: S.Progress, input: S.ServerInput) {
    || (q.active == p.active && q.candidate == p.candidate)
    || (input.HandleAck? && input.ack.Positive() && q.active == p.active && q.candidate == Some(input.ack.config))
    || (input.HandleReadiness? && (if p.candidate.Some? then p.candidate else p.active) == Some(input.readiness.config)
        && q.active == Some(input.readiness.config) && q.candidate.None?)
  }

  lemma PerformMoves(settings: S.Settings, s: S.ServerState, now: int, input: S.ServerInput)
    requires S.Precheck(s, now, input) == Ok
    ensures Steps(s.p, S.Perform(settings, s, now, input).0.p, input)
  {
    match input {
      case HandleAck(a) => assert Steps(s.p, S.Acknowledge(s.p, a).0, input);
      case HandleReadiness(r) => assert Steps(s.p, S.BecomeReady(s.p, r).0, input);
      case OfferSnapshot(o) => assert Steps(s.p, S.Offer(s.p, o.config).0, input);
      case OfferDelta(d) => assert Steps(s.p, S.OfferNext(s.p, s.Env(), d).0, input);
      case _ =>
    }
  }

  /** The server's configurations move only on a positive acknowledgement or a readiness report. */
  lemma ServerMoves(settings: S.Settings, s: S.ServerState, refs: Refs, now: int, input: S.ServerInput)
    ensures Steps(s.p, S.Serve(settings, s, refs, now, input).s.p, input)
  {
    if S.Precheck(s, now, input) == Ok { PerformMoves(settings, s, now, input); }
  }

  /** A client result that keeps its active configuration or promotes to a newer one, and acknowledges nothing older. */
  predicate Faithful(s: C.ClientState, r: C.Acted) {
    && (r.s.g.active == s.g.active ||
        (r.s.g.active.Some? && (s.g.active.Some? ==> s.g.active.value.generation < r.s.g.active.value.generation)))
    && (r.reply.ReadyReply? ==> r.s.g.active == Some(r.reply.readiness.config))
    && (r.reply.AckReply? && r.reply.ack.Positive() ==>
          r.s.g.active == s.g.active && (s.g.active.Some? ==> AtMost(s.g.active.value, r.reply.ack.config)))
  }

  lemma UnguardedMoves(s: C.ClientState, clock: int, now: int, input: C.ClientInput)
    requires CT.Sound(s, clock) && clock <= now && C.Enabled(s, input) && C.Unguarded(input)
    ensures Faithful(s, C.ActUnguarded(s, now, input))
  {
    match input {
      case Prepared(o) => assert Faithful(s, C.EndApply(s, now, o));
      case Activated(o) => assert Faithful(s, C.EndReady(s, now, o));
      case _ =>
    }
  }

  lemma GuardedMoves(s: C.ClientState, clock: int, now: int, input: C.ClientInput)
    requires CT.Sound(s, clock) && clock <= now && C.Enabled(s, input) && !C.Unguarded(input)
    ensures Faithful(s, C.ActGuarded(s, now, input))
  {
  }

  lemma ClientMoves(s: C.ClientState, clock: int, now: int, input: C.ClientInput)
    requires CT.Sound(s, clock) && clock <= now && C.Enabled(s, input)
    ensures Faithful(s, C.Act(s, now, input))
  {
    if C.Unguarded(input) {
      UnguardedMoves(s, clock, now, input);
    } else {
      GuardedMoves(s, clock, now, input);
    }
  }

  // ---------------------------------------------------------------- the invariant

  predicate PositiveAck(m: Up) { m.AckFrame? && m.ack.Positive() }

  predicate Climbing(cs: seq<Config>) { forall i, j :: 0 <= i < j < |cs| ==> cs[i].generation < cs[j].generation }

  /** Everything the client reported or the server activated was activated by the client. */
  predicate Reported(x: System) {
    && Climbing(x.activated)
    && x.client.g.active == (if x.activated == [] then None else Some(x.activated[|x.activated| - 1]))
    && (forall i :: 0 <= i < |x.up| && x.up[i].ReadyFrame? ==> x.up[i].readiness.config in x.activated)
    && (x.server.p.active.Some? ==> x.server.p.active.value in x.activated)
  }

  /** No positive acknowledgement is behind a configuration readied before it. */
  predicate InOrder(x: System) {
    && (forall i, j :: 0 <= i < j < |x.up| && x.up[i].ReadyFrame? && PositiveAck(x.up[j]) ==>
       AtMost(x.up[i].readiness.config, x.up[j].ack.config))
    && (forall j :: 0 <= j < |x.up| && PositiveAck(x.up[j]) && x.server.p.active.Some? ==>
       AtMost(x.server.p.active.value, x.up[j].ack.config))
    && (x.server.p.active.Some? && x.server.p.candidate.Some? ==>
       AtMost(x.server.p.active.value, x.server.p.candidate.value))
  }

  predicate Inv(x: System) { CT.Sound(x.client, x.clock) && Reported(x) && InOrder(x) }

  /** The server's active configuration stays, or a strictly newer one takes its place. */
  predicate Advances(x: System, y: System) {
    x.server.p.active.Some? ==> y.server.p.active.Some? && AtMost(x.server.p.active.value, y.server.p.active.value)
  }

  lemma SoundLater(s: C.ClientState, clock: int, now: int)
    requires CT.Sound(s, clock) && clock <= now
    ensures CT.Sound(s, now)
  {
  }

  lemma ServerStepKeeps(x: System, input: S.ServerInput, up: seq<Up>)
    requires Inv(x)
    requires (up == x.up && !input.HandleAck? && !input.HandleReadiness?)
             || (x.up != [] && input == Received(x.up[0]) && up == x.up[1..])
    ensures Inv(ServerStep(x, input, up)) && Advances(x, ServerStep(x, input, up))
  {
    ServerMoves(x.settings, x.server, x.refs, x.clock, input);
  }

  /** Whatever the client has activated is at most what it acknowledges next. */
  lemma ActivatedAtMost(x: System, a: Config, c: Config)
    requires Inv(x) && a in x.activated && (x.client.g.active.Some? ==> AtMost(x.client.g.active.value, c))
    ensures AtMost(a, c)
  {
    var i :| 0 <= i < |x.activated| && x.activated[i] == a;
    assert i == |x.activated| - 1 || x.activated[i].generation < x.activated[|x.activated| - 1].generation;
  }

  lemma FramesOf(before: C.ClientState, input: C.ClientInput, r: C.Acted)
    ensures var f := UpFrames(before, input, r);
            && |f| <= 1
            && (f != [] && f[0].ReadyFrame? ==> r.reply == C.ReadyReply(f[0].readiness))
            && (f != [] && PositiveAck(f[0]) ==> r.reply == C.AckReply(f[0].ack))
  {
  }

  /** Sending at most one frame that reports an activated configuration, or acknowledges one not behind them. */
  lemma SendKeeps(x: System, y: System, frames: seq<Up>)
    requires Inv(x) && |frames| <= 1 && y.up == x.up + frames && y.server == x.server
    requires Climbing(y.activated) && (forall a :: a in x.activated ==> a in y.activated)
    requires y.client.g.active == (if y.activated == [] then None else Some(y.activated[|y.activated| - 1]))
    requires frames != [] && frames[0].ReadyFrame? ==> frames[0].readiness.config in y.activated
    requires frames != [] && PositiveAck(frames[0]) ==> forall a :: a in x.activated ==> AtMost(a, frames[0].ack.config)
    ensures Reported(y) && InOrder(y)
  {
  }

  lemma ClientStepKeeps(x: System, input: C.ClientInput, down: seq<Down>)
    requires Inv(x) && C.Enabled(x.client, input)
    ensures Inv(ClientStep(x, input, down)) && Advances(x, ClientStep(x, input, down))
  {
    var y := ClientStep(x, input, down);
    var r := C.Act(x.client, x.clock, input);
    var frames := UpFrames(x.client, input, r);
    CT.InputKeepsSound(x.client, x.clock, CT.Event(x.clock, input));
    ClientMoves(x.client, x.clock, x.clock, input);
    FramesOf(x.client, input, r);
    SendOf(x, y, r, frames);
  }

  lemma SendOf(x: System, y: System, r: C.Acted, frames: seq<Up>)
    requires Inv(x) && Faithful(x.client, r) && |frames| <= 1 && y.client == r.s && y.server == x.server
             && y.up == x.up + frames
    requires frames != [] && frames[0].ReadyFrame? ==> r.reply == C.ReadyReply(frames[0].readiness)
    requires frames != [] && PositiveAck(frames[0]) ==> r.reply == C.AckReply(frames[0].ack)
    requires y.activated == if r.s.g.active != x.client.g.active && r.s.g.active.Some?
                            then x.activated + [r.s.g.active.value] else x.activated
    ensures Reported(y) && InOrder(y)
  {
    if frames != [] && PositiveAck(frames[0]) {
      forall a | a in x.activated ensures AtMost(a, frames[0].ack.config) {
        ActivatedAtMost(x, a, frames[0].ack.config);
      }
    }
    SendKeeps(x, y, frames);
  }

  lemma StepKeeps(x: System, step: Step)
    requires Inv(x)
    ensures Inv(Next(x, step)) && Advances(x, Next(x, step))
  {
    match step {
      case Tick(elapsed) => SoundLater(x.client, x.clock, x.clock + elapsed);
      case RegistryChanges(_) =>
      case ServerActs(input) => if ServerInitiates(input) { ServerStepKeeps(x, input, x.up); }
      case ServerReceives => if x.up != [] { ServerStepKeeps(x, Received(x.up[0]), x.up[1..]); }
      case ClientActs(input) => if ClientInitiates(input) && C.Enabled(x.client, input) {
          ClientStepKeeps(x, input, x.down); }
      case ClientAsksRenewal(_) =>
      case ClientReceives => if x.down != [] && C.Enabled(x.client, Delivered(x.down[0])) {
          ClientStepKeeps(x, Delivered(x.down[0]), x.down[1..]); }
    }
  }

  lemma {:induction false} RunKeeps(x: System, steps: seq<Step>)
    requires Inv(x)
    ensures Inv(Run(x, steps)) && Advances(x, Run(x, steps))
    decreases |steps|
  {
    if steps != [] {
      StepKeeps(x, steps[0]);
      RunKeeps(Next(x, steps[0]), steps[1..]);
    }
  }

  // ---------------------------------------------------------------- the theorems

  /**
   Agreement: in every run the server's active configuration is one the client has activated, and
   never a newer one than the client's.
   */
  lemma Agreement(x: System, steps: seq<Step>)
    requires Initial(x)
    ensures var y := Run(x, steps);
            y.server.p.active.Some? ==>
              && y.server.p.active.value in y.activated
              && y.client.g.active.Some? && AtMost(y.server.p.active.value, y.client.g.active.value)
  {
    RunKeeps(x, steps);
    var y := Run(x, steps);
    if y.server.p.active.Some? {
      ActivatedAtMost(y, y.server.p.active.value, y.client.g.active.value);
    }
  }

  /**
   Monotonicity: at every point of every run, later steps never take the server or the client back
   to an older configuration.
   */
  lemma Monotonicity(x: System, before: seq<Step>, after: seq<Step>)
    requires Initial(x)
    ensures var y := Run(x, before); var z := Run(y, after);
            Advances(y, z) && Climbing(z.activated)
            && (z.client.g.active == if z.activated == [] then None else Some(z.activated[|z.activated| - 1]))
  {
    RunKeeps(x, before);
    RunKeeps(Run(x, before), after);
  }
}
