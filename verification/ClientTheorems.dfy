/**
 What every run of a client session keeps, for any messages, any runtime answers
 and a clock that does not run backwards.
 */
module ClientTheorems {
  import opened SessionTypes
  import opened ClientSessions

  datatype Event = Event(now: int, input: ClientInput)

  /** An input that must wait for a mutex leaves the session as it is. */
  function After(s: ClientState, e: Event): ClientState {
    if Enabled(s, e.input) then Act(s, e.now, e.input).s else s
  }

  function Final(s: ClientState, events: seq<Event>): ClientState
    decreases |events|
  {
    if events == [] then s else Final(After(s, events[0]), events[1..])
  }

  predicate Clocked(from: int, events: seq<Event>)
    decreases |events|
  {
    events != [] ==> from <= events[0].now && Clocked(events[0].now, events[1..])
  }

  function EndOf(from: int, events: seq<Event>): int { if events == [] then from else events[|events| - 1].now }

  // ---------------------------------------------------------------- two-phase handles

  /** What may have happened to a prepared configuration. */
  predicate Orderly(w: seq<HandleEvent>) {
    w == [] || w == [Abort] || w == [ActivateOk] || w == [ActivateFail, Abort]
  }

  /** An activated configuration that was nevertheless aborted. */
  predicate TornDown(w: seq<HandleEvent>) { w == [ActivateOk, Abort] }

  /** The stored handle has not been used, or its activation outlived the session. */
  predicate HandleSound(s: ClientState, clock: int) {
    && s.g.candidate.Some? == s.g.prepared.Some?
    && (s.g.prepared.Some? ==>
          && s.g.prepared.value < |s.log|
          && (s.log[s.g.prepared.value] == [] || (s.log[s.g.prepared.value] == [ActivateOk] && Dead(s.lease, clock))))
    && (s.busy.Activating? ==>
          && s.g.prepared == s.busy.handle && s.g.candidate == Some(s.busy.config) && s.log[s.g.prepared.value] == []
          && (s.g.state == Closed ==> Dead(s.lease, clock)))
    && (forall h :: 0 <= h < |s.log| ==> Orderly(s.log[h]) || TornDown(s.log[h]))
  }

  /** Generations move up: candidate above active, a configuration being applied above both. */
  predicate GenerationSound(s: ClientState) {
    && (s.g.candidate.Some? && s.g.active.Some? ==> s.g.active.value.generation < s.g.candidate.value.generation)
    && (s.busy.Applying? && s.g.Current().Some? ==> s.g.Current().value.generation < s.busy.config.generation)
    && (s.g.state == New ==>
       s.g.prepared.None? && s.g.candidate.None? && s.g.active.None? && s.busy == Idle && s.drainCall == NoDrainCall)
    && (s.drainCall != NoDrainCall ==> s.drain.request == Some(s.drainCall.request))
  }

  predicate Sound(s: ClientState, clock: int) { HandleSound(s, clock) && GenerationSound(s) }

  /** A stored handle that was activated belongs to a session that is closed. */
  predicate Retired(s: ClientState) {
    s.g.prepared.Some? && s.g.prepared.value < |s.log| && s.log[s.g.prepared.value] == [ActivateOk] ==>
        s.g.state == Closed
  }

  predicate AllOrderly(s: ClientState) { forall h :: 0 <= h < |s.log| ==> Orderly(s.log[h]) }

  /** The reject tail of a drain runs on a session that is already closed. */
  predicate LateReject(s: ClientState, input: ClientInput) {
    s.g.state == Closed && Enabled(s, input) && RejectsDrain(input)
  }

  predicate RejectsDrain(input: ClientInput) {
    || (input.StreamsStopped? && !input.stopped)
    || (input.StreamsCounted? && (input.count.None? || input.count.value > MAX_ACTIVE_STREAMS))
  }

  lemma ApplyHandles(s: ClientState, now: int, clock: int, outcome: PrepareOutcome)
    requires Sound(s, clock) && clock <= now && s.busy.Applying?
    ensures HandleSound(EndApply(s, now, outcome).s, now)
  {
  }

  lemma ApplyOrder(s: ClientState, now: int, outcome: PrepareOutcome)
    requires GenerationSound(s) && s.g.candidate.Some? == s.g.prepared.Some? && s.busy.Applying?
    ensures GenerationSound(EndApply(s, now, outcome).s)
  {
  }

  lemma ApplyRetires(s: ClientState, now: int, clock: int, outcome: PrepareOutcome)
    requires HandleSound(s, clock) && s.busy.Applying? && Retired(s) && AllOrderly(s)
    ensures Retired(EndApply(s, now, outcome).s) && AllOrderly(EndApply(s, now, outcome).s)
  {
  }

  lemma ReadyKeeps(s: ClientState, now: int, clock: int, outcome: ActivateOutcome)
    requires Sound(s, clock) && clock <= now && s.busy.Activating?
    ensures var t := EndReady(s, now, outcome).s;
            Sound(t, now) && (Retired(s) && AllOrderly(s) ==> Retired(t) && AllOrderly(t))
  {
  }

  lemma UnguardedKeeps(s: ClientState, now: int, clock: int, input: ClientInput)
    requires Sound(s, clock) && clock <= now && Enabled(s, input) && Unguarded(input)
    ensures var t := ActUnguarded(s, now, input).s;
            Sound(t, now) && (Retired(s) && AllOrderly(s) && !LateReject(s, input) ==> Retired(t) && AllOrderly(t))
  {
    match input {
      case Prepared(o) =>
        ApplyHandles(s, now, clock, o);
        ApplyOrder(s, now, o);
        if Retired(s) && AllOrderly(s) { ApplyRetires(s, now, clock, o); }
      case Activated(o) => ReadyKeeps(s, now, clock, o);
      case Close(reason) => ShutKeeps(s, now, clock, reason);
      case AcceptWelcome(_, _, _, _, _) =>
      case _ => DrainCallKeeps(s, now, clock, input);
    }
  }

  lemma ShutHandles(s: ClientState, now: int, clock: int, reason: Reason)
    requires HandleSound(s, clock) && clock <= now && s.busy == Idle
    ensures HandleSound(Shut(s, reason).s, now)
  {
    assert [] + [Abort] == [Abort] && [ActivateOk] + [Abort] == [ActivateOk, Abort];
  }

  lemma ShutKeeps(s: ClientState, now: int, clock: int, reason: Reason)
    requires Sound(s, clock) && clock <= now && s.busy == Idle
    ensures var t := Shut(s, reason).s; Sound(t, now) && (Retired(s) && AllOrderly(s) ==> Retired(t) && AllOrderly(t))
  {
    ShutHandles(s, now, clock, reason);
    assert GenerationSound(Shut(s, reason).s);
  }

  /** Only the lifecycle state and the drain record differ, and the session is not newly closed. */
  predicate OnlyDrains(s: ClientState, t: ClientState) {
    && t.log == s.log && t.busy == s.busy && t.lease == s.lease && t.g == s.g.(state := t.g.state)
    && (t.g.state == Closed ==> s.g.state == Closed)
  }

  lemma DrainedHandles(s: ClientState, t: ClientState, now: int, clock: int)
    requires HandleSound(s, clock) && clock <= now && OnlyDrains(s, t)
    ensures HandleSound(t, now) && (AllOrderly(s) ==> AllOrderly(t))
  {
  }

  lemma DrainCallMoves(s: ClientState, now: int, input: ClientInput)
    requires GenerationSound(s) && Enabled(s, input) && (input.StreamsStopped? || input.StreamsCounted?)
    ensures var t := ActUnguarded(s, now, input).s;
            OnlyDrains(s, t) && GenerationSound(t) && (t.g.state == s.g.state || RejectsDrain(input))
  {
  }

  lemma DrainCallKeeps(s: ClientState, now: int, clock: int, input: ClientInput)
    requires Sound(s, clock) && clock <= now && Enabled(s, input) && (input.StreamsStopped? || input.StreamsCounted?)
    ensures var t := ActUnguarded(s, now, input).s;
            Sound(t, now) && (Retired(s) && AllOrderly(s) && !LateReject(s, input) ==> Retired(t) && AllOrderly(t))
  {
    DrainCallMoves(s, now, input);
    DrainedHandles(s, ActUnguarded(s, now, input).s, now, clock);
  }

  predicate Keeps(s: ClientState, t: ClientState, now: int) {
    Sound(t, now) && (Retired(s) && AllOrderly(s) ==> Retired(t) && AllOrderly(t))
  }

  lemma BeginKeeps(s: ClientState, now: int, clock: int, input: ClientInput)
    requires Sound(s, clock) && clock <= now && Enabled(s, input) && Guard(s, now) == Ok
    requires input.ApplySnapshot? || input.ApplyDelta? || input.MarkReady?
    ensures Keeps(s, ActGuarded(s, now, input).s, now)
  {
  }

  lemma LeaseKeeps(s: ClientState, now: int, clock: int, input: ClientInput)
    requires Sound(s, clock) && clock <= now && Guard(s, now) == Ok
    requires input.SendHeartbeat? || input.AcceptHeartbeatAck? || input.ApplyRenewal? || input.CheckLease?
    ensures Keeps(s, ActGuarded(s, now, input).s, now)
  {
  }

  lemma DrainKeeps(s: ClientState, now: int, clock: int, r: Drain)
    requires Sound(s, clock) && clock <= now && Guard(s, now) == Ok
    ensures Keeps(s, BeginDrain(s, r).s, now)
  {
  }

  lemma ProgressKeeps(s: ClientState, now: int, clock: int, streams: nat, forced: bool)
    requires Sound(s, clock) && clock <= now && Guard(s, now) == Ok
    ensures Keeps(s, Progress(s, now, streams, forced).s, now)
  {
  }

  lemma GuardedKeeps(s: ClientState, now: int, clock: int, input: ClientInput)
    requires Sound(s, clock) && clock <= now && Enabled(s, input) && !Unguarded(input) && Guard(s, now) == Ok
    ensures Keeps(s, ActGuarded(s, now, input).s, now)
  {
    if input.HandleDrain? {
      DrainKeeps(s, now, clock, input.request);
    } else if input.DrainProgressed? {
      ProgressKeeps(s, now, clock, input.streams, input.forced);
    } else if input.ApplySnapshot? || input.ApplyDelta? || input.MarkReady? {
      BeginKeeps(s, now, clock, input);
    } else {
      LeaseKeeps(s, now, clock, input);
    }
  }

  lemma InputKeepsSound(s: ClientState, clock: int, e: Event)
    requires Sound(s, clock) && clock <= e.now
    ensures Sound(After(s, e), e.now)
    ensures Retired(s) && AllOrderly(s) && !LateReject(s, e.input) ==> Retired(After(s, e)) && AllOrderly(After(s, e))
  {
    if Enabled(s, e.input) && Precheck(e.now, e.input) == Ok {
      if Unguarded(e.input) {
        UnguardedKeeps(s, e.now, clock, e.input);
      } else if Guard(s, e.now) == Ok {
        GuardedKeeps(s, e.now, clock, e.input);
      }
    }
  }

  predicate NoLateReject(s: ClientState, events: seq<Event>)
    decreases |events|
  {
    events != [] ==> !LateReject(s, events[0].input) && NoLateReject(After(s, events[0]), events[1..])
  }

  lemma {:induction false} RunKeepsSound(s: ClientState, clock: int, events: seq<Event>)
    requires Sound(s, clock) && Clocked(clock, events)
    ensures Sound(Final(s, events), EndOf(clock, events))
    ensures Retired(s) && AllOrderly(s) && NoLateReject(s, events) ==> AllOrderly(Final(s, events))
    decreases |events|
  {
    if events != [] {
      InputKeepsSound(s, clock, events[0]);
      RunKeepsSound(After(s, events[0]), events[0].now, events[1..]);
    }
  }

  /**
   Over every run of a session each prepared configuration is left alone, aborted,
   activated, or activated in vain and then aborted, except that one whose activation
   outlived the lease may be aborted later; a handle is stored exactly when a candidate is staged.
   */
  lemma HandlesAreTwoPhase(me: Envelope, auth: Auth, start: int, events: seq<Event>)
    requires Clocked(start, events)
    ensures var t := Final(NewClient(me, auth), events);
            && t.g.candidate.Some? == t.g.prepared.Some?
            && forall h :: 0 <= h < |t.log| ==> Orderly(t.log[h]) || TornDown(t.log[h])
  {
    RunKeepsSound(NewClient(me, auth), start, events);
  }

  /** Without a drain rejected on a closed session the exception never arises. */
  lemma HandlesOrderlyWithoutLateReject(me: Envelope, auth: Auth, start: int, events: seq<Event>)
    requires Clocked(start, events) && NoLateReject(NewClient(me, auth), events)
    ensures AllOrderly(Final(NewClient(me, auth), events))
  {
    RunKeepsSound(NewClient(me, auth), start, events);
  }

  /** An activated configuration is torn down exactly by closing a session that stores it and was re-opened. */
  lemma TornDownExactly(s: ClientState, clock: int, e: Event, h: nat)
    requires Sound(s, clock) && clock <= e.now && h < |s.log| && !TornDown(s.log[h])
    ensures h < |After(s, e).log|
    ensures TornDown(After(s, e).log[h]) <==>
            (Enabled(s, e.input) && e.input.Close? && ValidReason(e.input.reason) && s.g.state != Closed
             && s.g.prepared == Some(h) && s.log[h] == [ActivateOk])
  {
    if Enabled(s, e.input) && Precheck(e.now, e.input) == Ok {
      match e.input {
        case Prepared(o) => assert EndApply(s, e.now, o).s.log[h] == s.log[h];
        case Activated(o) => ActivationLog(s, clock, e.now, o, h);
        case Close(_) => assert [] + [Abort] == [Abort] && [ActivateOk] + [Abort] == [ActivateOk, Abort];
        case _ => OtherLog(s, e.now, e.input);
      }
    }
  }

  lemma ActivationLog(s: ClientState, clock: int, now: int, outcome: ActivateOutcome, h: nat)
    requires Sound(s, clock) && clock <= now && h < |s.log| && s.busy.Activating?
    ensures h < |EndReady(s, now, outcome).s.log|
    ensures var w := EndReady(s, now, outcome).s.log[h];
            w == s.log[h] || w == [ActivateOk] || w == [ActivateFail, Abort]
  {
    assert [] + [ActivateOk] == [ActivateOk] && ([] + [ActivateFail]) + [Abort] == [ActivateFail, Abort];
  }

  lemma OtherLog(s: ClientState, now: int, input: ClientInput)
    requires Enabled(s, input) && !input.Prepared? && !input.Activated? && !input.Close?
    ensures Act(s, now, input).s.log == s.log
  {
  }

  lemma {:induction false} FinalAppend(s: ClientState, a: seq<Event>, b: seq<Event>)
    ensures Final(s, a + b) == Final(Final(s, a), b)
    decreases |a|
  {
    if a == [] {
      assert a + b == b;
    } else {
      assert (a + b)[1..] == a[1..] + b;
      FinalAppend(After(s, a[0]), a[1..], b);
    }
  }

  lemma FinalOf3(s: ClientState, e: seq<Event>)
    requires |e| == 3
    ensures Final(s, e) == After(After(After(s, e[0]), e[1]), e[2])
  {
    assert e == [e[0]] + ([e[1]] + [e[2]]);
    FinalAppend(s, [e[0]], [e[1]] + [e[2]]);
    FinalAppend(After(s, e[0]), [e[1]], [e[2]]);
    assert [e[0]][1..] == [] && [e[1]][1..] == [] && [e[2]][1..] == [];
  }

  /**
   The lease runs out during the activation, the drain is rejected on the closed session, the
   session is closed again.
   */
  function TearDown(now: int): seq<Event> {
    [Event(now, Activated(ActivationDone)), Event(now, StreamsStopped(false)), Event(now, Close(ReasonServerShutdown))]
  }

  /** Every session overtaken by its lease while a drain is being started tears its configuration down this way. */
  lemma LateRejectTearsDown(s: ClientState, clock: int, now: int)
    requires Sound(s, clock) && clock <= now && s.busy.Activating? && s.drainCall.Stopping? && LeaseOver(s.lease, now)
    ensures s.g.prepared.Some? && s.g.prepared.value < |Final(s, TearDown(now)).log|
    ensures TornDown(Final(s, TearDown(now)).log[s.g.prepared.value])
  {
    var e := TearDown(now);
    var h := s.g.prepared.value;
    OutlivedActivation(s, clock, now);
    var a := After(s, e[0]);
    var b := RejectDrain(a, a.drainCall.request);
    assert After(a, e[1]) == b;
    assert After(b, e[2]) == Shut(b, ReasonServerShutdown).s;
    assert [ActivateOk] + [Abort] == [ActivateOk, Abort];
    FinalOf3(s, e);
  }

  lemma OutlivedActivation(s: ClientState, clock: int, now: int)
    requires Sound(s, clock) && clock <= now && s.busy.Activating? && s.drainCall.Stopping? && LeaseOver(s.lease, now)
    ensures var a := After(s, Event(now, Activated(ActivationDone)));
            && GenerationSound(a) && a.g.state == Closed && a.g.prepared == s.g.prepared && a.g.prepared.Some?
               && a.g.candidate.Some?
            && a.busy == Idle && a.drainCall == s.drainCall && a.drain == s.drain
            && a.g.prepared.value < |a.log| && a.log[a.g.prepared.value] == [ActivateOk]
  {
    assert [] + [ActivateOk] == [ActivateOk];
  }

  // Such a session is reached from a new one: stage a configuration, ready it and be asked
  // to drain, stage and ready the next.

  function Opening(env: Envelope): seq<Event> {
    [Event(0, AcceptWelcome(env.session, 100, 1, true, true)),
     Event(1, ApplySnapshot(Snapshot(env, Config(1, "a"), true))), Event(1, Prepared(PreparedHandle))]
  }

  function Asked(env: Envelope): seq<Event> {
    [Event(2, MarkReady(true, true, true)), Event(2, Activated(ActivationDone)),
     Event(3, HandleDrain(Drain(env, "d", Config(1, "a"), 50, true, true)))]
  }

  function Restaged(env: Envelope): seq<Event> {
    [Event(4, ApplySnapshot(Snapshot(env, Config(2, "b"), true))), Event(4, Prepared(PreparedHandle)),
     Event(5, MarkReady(true, true, true))]
  }

  function Overtaken(env: Envelope): seq<Event> { Opening(env) + Asked(env) + Restaged(env) }

  /** Apply one configuration on an idle session. */
  lemma Staged(s: ClientState, now: int, c: Config)
    requires Guard(s, now) == Ok && s.busy == Idle && s.g.candidate.None? && s.g.prepared.None? && c.generation != 0
    requires s.g.active.Some? ==> s.g.active.value.generation < c.generation
    ensures After(After(s, Event(now, ApplySnapshot(Snapshot(s.me, c, true)))), Event(now, Prepared(PreparedHandle)))
         == s.(log := s.log + [[]], g := s.g.(candidate := Some(c), prepared := Some(|s.log|), readyGeneration := 0,
             state := AwaitingReady, needsSnapshot := false))
  {
    var a := After(s, Event(now, ApplySnapshot(Snapshot(s.me, c, true))));
    assert a == s.(busy := Applying(AckSnapshot, c));
  }

  /** Ready a staged configuration. */
  lemma Readied(s: ClientState, now: int)
    requires Guard(s, now) == Ok && s.busy == Idle && s.g.candidate.Some? && s.g.prepared.Some?
    ensures After(After(s, Event(now, MarkReady(true, true, true))), Event(now, Activated(ActivationDone)))
         == s.(log := Happened(s.log, s.g.prepared.value, ActivateOk),
             g := Staging(s.g.candidate, None, None, false, s.g.candidate.value.generation, Ready))
  {
    var a := After(s, Event(now, MarkReady(true, true, true)));
    assert a == s.(busy := Activating(s.g.prepared, s.g.candidate.value));
  }

  lemma DrainStarts(s: ClientState, now: int, r: Drain)
    requires Guard(s, now) == Ok && r.Valid(now) && s.drainCapable && r.env == s.me && s.drain.request.None?
    requires s.g.Serving() && s.g.active == Some(r.config)
    ensures After(s, Event(now, HandleDrain(r)))
         == s.(drain := ClientDrain(Some(r), DrainAccepted, false, false, 0), g := s.g.(state := Draining),
             drainCall := Stopping(r))
  {
  }

  lemma OpeningState(env: Envelope, auth: Auth) returns (s: ClientState)
    ensures s == Final(NewClient(env, auth), Opening(env))
    ensures s.g == Staging(None, Some(Config(1, "a")), Some(0), false, 0, AwaitingReady) && s.busy == Idle
            && s.log == [[]]
    ensures s.me == env && s.drainCapable && s.lease == ClientLease(100, 1, 0) && s.drain.request.None?
  {
    var e := Opening(env);
    var w := After(NewClient(env, auth), e[0]);
    Staged(w, 1, Config(1, "a"));
    FinalOf3(NewClient(env, auth), e);
    s := After(After(w, e[1]), e[2]);
  }

  lemma AskedState(s: ClientState) returns (t: ClientState)
    requires s.g == Staging(None, Some(Config(1, "a")), Some(0), false, 0, AwaitingReady) && s.busy == Idle
             && s.log == [[]]
    requires s.drainCapable && s.lease == ClientLease(100, 1, 0) && s.drain.request.None?
    ensures t == Final(s, Asked(s.me))
    ensures t.g == Staging(Some(Config(1, "a")), None, None, false, 1, Draining) && t.busy == Idle
            && t.drainCall.Stopping?
    ensures t.me == s.me && t.lease == s.lease
  {
    var e := Asked(s.me);
    Readied(s, 2);
    var r := After(After(s, e[0]), e[1]);
    DrainStarts(r, 3, e[2].input.request);
    FinalOf3(s, e);
    t := After(r, e[2]);
  }

  lemma RestagedState(s: ClientState) returns (t: ClientState)
    requires s.g == Staging(Some(Config(1, "a")), None, None, false, 1, Draining) && s.busy == Idle
             && s.lease == ClientLease(100, 1, 0)
    ensures t == Final(s, Restaged(s.me))
    ensures t.busy.Activating? && t.drainCall == s.drainCall && t.lease == s.lease
  {
    var e := Restaged(s.me);
    Staged(s, 4, Config(2, "b"));
    var r := After(After(s, e[0]), e[1]);
    FinalOf3(s, e);
    t := After(r, e[2]);
    assert t == r.(busy := Activating(r.g.prepared, r.g.candidate.value));
  }

  lemma OvertakenIsReached(env: Envelope, auth: Auth)
    ensures Clocked(0, Overtaken(env) + TearDown(200))
    ensures var s := Final(NewClient(env, auth), Overtaken(env));
            s.busy.Activating? && s.drainCall.Stopping? && LeaseOver(s.lease, 200) && Sound(s, 5)
  {
    var s0 := NewClient(env, auth);
    assert Clocked(0, Overtaken(env) + TearDown(200)) by { ClockedUp(0, Overtaken(env) + TearDown(200)); }
    assert Sound(Final(s0, Overtaken(env)), 5) by {
      ClockedUp(0, Overtaken(env));
      RunKeepsSound(s0, 0, Overtaken(env));
    }
    var s1 := OpeningState(env, auth);
    var s2 := AskedState(s1);
    var s3 := RestagedState(s2);
    assert Final(s0, Overtaken(env)) == s3 by {
      FinalAppend(s0, Opening(env), Asked(env));
      FinalAppend(s0, Opening(env) + Asked(env), Restaged(env));
    }
  }

  lemma {:induction false} ClockedUp(from: int, events: seq<Event>)
    requires forall i :: 0 <= i < |events| ==> from <= events[i].now
    requires forall i, j :: 0 <= i < j < |events| ==> events[i].now <= events[j].now
    ensures Clocked(from, events)
    decreases |events|
  {
    if events != [] { ClockedUp(events[0].now, events[1..]); }
  }

  // ---------------------------------------------------------------- closing

  /** A drain rejected, or an activation failed, with the runtime call still open. */
  predicate Reopens(s: ClientState, input: ClientInput) {
    Enabled(s, input) && (RejectsDrain(input) || (input.Activated? && input.activate.ActivationFailed?))
  }

  /**
   A closed session leaves the closed state exactly when a drain is rejected, or an
   activation fails, after the session was closed underneath the runtime call.
   */
  lemma ClosedIsLeftExactly(s: ClientState, clock: int, e: Event)
    requires Sound(s, clock) && clock <= e.now && s.g.state == Closed
    ensures After(s, e).g.state != Closed <==> Reopens(s, e.input)
  {
  }

  /**
   A step that closes a session with a staged handle takes the handle out and aborts it
   exactly when it is a call of Close; a lease or a heartbeat that ran out leaves it stored.
   */
  lemma StagedHandleAtClose(s: ClientState, clock: int, e: Event, h: nat)
    requires Sound(s, clock) && clock <= e.now && s.g.state != Closed && After(s, e).g.state == Closed
             && s.g.prepared == Some(h)
    ensures var t := After(s, e);
            && h < |t.log|
            && (e.input.Close? ==> t.g.prepared.None? && t.log[h] == s.log[h] + [Abort])
            && (!e.input.Close? ==> Dead(s.lease, e.now) && t.g.prepared == Some(h) && Abort !in t.log[h])
  {
    assert Precheck(e.now, e.input) == Ok;
    if Unguarded(e.input) {
      UnguardedClose(s, clock, e.now, e.input, h);
    } else if Guard(s, e.now) == Ok {
      GuardedStaysOpen(s, e.now, e.input);
      assert false;
    }
  }

  lemma GuardedStaysOpen(s: ClientState, now: int, input: ClientInput)
    requires Enabled(s, input) && !Unguarded(input)
    ensures ActGuarded(s, now, input).s.g.state == Closed ==> s.g.state == Closed
  {
  }

  lemma UnguardedClose(s: ClientState, clock: int, now: int, input: ClientInput, h: nat)
    requires Sound(s, clock) && clock <= now && Enabled(s, input) && Unguarded(input) && s.g.state != Closed
             && s.g.prepared == Some(h)
    requires ActUnguarded(s, now, input).s.g.state == Closed
    ensures var t := ActUnguarded(s, now, input).s;
            h < |t.log| && (if input.Close? then t.g.prepared.None? && t.log[h] == s.log[h] + [Abort]
                            else Dead(s.lease, now) && t.g.prepared == Some(h) && Abort !in t.log[h])
  {
    if input.Activated? { ActivationLog(s, clock, now, input.activate, h); }
  }

  lemma LeftBehindStep(s: ClientState, clock: int, e: Event, h: nat)
    requires Sound(s, clock) && clock <= e.now && s.g.state == Closed && s.g.prepared == Some(h) && !Reopens(s, e.input)
    ensures var t := After(s, e); t.g.state == Closed && t.g.prepared == Some(h) && h < |t.log| && Abort !in t.log[h]
  {
    if Enabled(s, e.input) && e.input.Activated? { ActivationLog(s, clock, e.now, e.input.activate, h); }
  }

  predicate NeverReopens(s: ClientState, events: seq<Event>)
    decreases |events|
  {
    events != [] ==> !Reopens(s, events[0].input) && NeverReopens(After(s, events[0]), events[1..])
  }

  /** A handle stored in a closed session is never aborted, however the run goes on, unless the session is reopened. */
  lemma {:induction false} HandleIsLeftBehind(s: ClientState, clock: int, events: seq<Event>, h: nat)
    requires Sound(s, clock) && Clocked(clock, events) && s.g.state == Closed && s.g.prepared == Some(h)
             && NeverReopens(s, events)
    ensures var t := Final(s, events);
            t.g.state == Closed && t.g.prepared == Some(h) && h < |t.log| && Abort !in t.log[h]
    decreases |events|
  {
    if events != [] {
      LeftBehindStep(s, clock, events[0], h);
      InputKeepsSound(s, clock, events[0]);
      HandleIsLeftBehind(After(s, events[0]), events[0].now, events[1..], h);
    }
  }

  /** A session that staged a configuration and outlived its lease. */
  function Outlived(env: Envelope): seq<Event> { Opening(env) + [Event(200, CheckLease)] }

  /** Such a session is reached: closed, with a handle that was neither activated nor aborted. */
  lemma OutlivedIsReached(env: Envelope, auth: Auth)
    ensures Clocked(0, Outlived(env))
    ensures var s := Final(NewClient(env, auth), Outlived(env));
            s.g.state == Closed && s.g.prepared == Some(0) && s.log == [[]] && Sound(s, 200)
  {
    ClockedUp(0, Outlived(env));
    RunKeepsSound(NewClient(env, auth), 0, Outlived(env));
    var s := OpeningState(env, auth);
    FinalAppend(NewClient(env, auth), Opening(env), [Event(200, CheckLease)]);
    LeaseRunsOut(s, 200);
  }

  lemma LeaseRunsOut(s: ClientState, now: int)
    requires LeaseOver(s.lease, now) && s.g.state == AwaitingReady
    ensures var t := Final(s, [Event(now, CheckLease)]); t.g == s.g.(state := Closed) && t.log == s.log
  {
    var e := Event(now, CheckLease);
    assert [e][1..] == [];
    assert Final(s, [e]) == Final(After(s, e), []);
  }

  /** No step of the run is a guarded call that succeeds. */
  predicate NoneSucceeds(s: ClientState, events: seq<Event>)
    decreases |events|
  {
    events != [] ==>
      && (Enabled(s, events[0].input) && !Unguarded(events[0].input) ==>
         Act(s, events[0].now, events[0].input).err != Ok)
      && NoneSucceeds(After(s, events[0]), events[1..])
  }

  /** Once the lease or the heartbeat has run out, no guarded call succeeds again and nothing is promoted. */
  lemma {:induction false} DeadStaysDead(s: ClientState, clock: int, events: seq<Event>)
    requires Dead(s.lease, clock) && s.g.state != New && Clocked(clock, events)
    ensures var t := Final(s, events); t.lease == s.lease && t.g.active == s.g.active
    ensures NoneSucceeds(s, events)
    decreases |events|
  {
    if events != [] {
      DeadStep(s, clock, events[0]);
      DeadStaysDead(After(s, events[0]), events[0].now, events[1..]);
    }
  }

  lemma DeadReady(s: ClientState, clock: int, now: int, outcome: ActivateOutcome)
    requires Dead(s.lease, clock) && s.g.state != New && clock <= now && s.busy.Activating?
    ensures var t := EndReady(s, now, outcome).s; t.lease == s.lease && t.g.state != New && t.g.active == s.g.active
  {
  }

  lemma DeadUnguarded(s: ClientState, clock: int, now: int, input: ClientInput)
    requires Dead(s.lease, clock) && s.g.state != New && clock <= now && Enabled(s, input) && Unguarded(input)
    ensures var t := ActUnguarded(s, now, input).s; t.lease == s.lease && t.g.state != New && t.g.active == s.g.active
  {
    match input {
      case Activated(o) => DeadReady(s, clock, now, o);
      case _ =>
    }
  }

  lemma DeadStep(s: ClientState, clock: int, e: Event)
    requires Dead(s.lease, clock) && s.g.state != New && clock <= e.now
    ensures var t := After(s, e); t.lease == s.lease && t.g.state != New && t.g.active == s.g.active
    ensures Enabled(s, e.input) && !Unguarded(e.input) ==> Act(s, e.now, e.input).err != Ok
  {
    if Enabled(s, e.input) && Unguarded(e.input) {
      DeadUnguarded(s, clock, e.now, e.input);
    } else {
      assert Guard(s, e.now) != Ok;
    }
  }
}
