/**
 What every call of a server session keeps, for any peer messages, any clock
 readings and any contents of the shared registry.
 */
module ServerTheorems {
  import opened SessionTypes
  import opened SessionRegistries
  import opened ServerSessions

  /** One call: what the clock read, what the registry held, what was asked. */
  datatype Call = Call(now: int, refs: Refs, input: ServerInput)

  function After(settings: Settings, s: ServerState, call: Call): Served {
    Serve(settings, s, call.refs, call.now, call.input)
  }

  function Final(settings: Settings, s: ServerState, calls: seq<Call>): ServerState
    decreases |calls|
  {
    if calls == [] then s else Final(settings, After(settings, s, calls[0]).s, calls[1..])
  }

  // ---------------------------------------------------------------- the session invariant

  predicate Consistent(p: Progress) {
    && (p.pendingSnapshot.None? || p.pendingDelta.None?)
    && (p.pendingDelta.Some? ==>
          p.pendingDelta.value.Valid() && p.active == Some(p.pendingDelta.value.previous) && p.candidate.None?)
    && (p.state == Ready ==> p.Serving())
  }

  predicate LeaseBounded(settings: Settings, s: ServerState) {
    && s.lease.expiresAt <= s.auth.credentialExpiresAt
    && s.lease.expiresAt <= s.lease.lastHeartbeat + settings.leaseDuration
    && s.auth.tunnel == s.ref.tunnel && s.auth.connector == s.ref.connector && s.auth.process == s.ref.process
  }

  predicate Sound(settings: Settings, s: ServerState) { Consistent(s.p) && LeaseBounded(settings, s) }

  /** What a later state of the same session may differ in. */
  predicate Later(s: ServerState, t: ServerState) {
    && t.ref == s.ref && t.auth.Identity() == s.auth.Identity()
    && t.auth.credentialGeneration >= s.auth.credentialGeneration
    && (s.p.state == Closed ==> t == s)
    && (s.lease.lastSentAt.Some? ==> t.lease.lastSentAt.Some? && t.lease.lastSentAt.value >= s.lease.lastSentAt.value)
  }

  lemma AcceptedIsSound(settings: Settings, now: int, ref: SessionRef, auth: Auth, first: Config, drainCapable: bool)
    requires Acceptable(settings, now, ref, auth, first)
    ensures Sound(settings, Accepted(settings, now, ref, auth, first, drainCapable))
  {
  }

  /** One step of the invariants on the configurations; the order of generations is kept from an ordered state. */
  predicate Good(p: Progress, q: Progress) {
    && Consistent(q)
    && (Ordered(p) ==> Ordered(q) && NoLower(p, q))
  }

  lemma AckGood(p: Progress, a: Ack)
    requires Consistent(p)
    ensures Good(p, Acknowledge(p, a).0)
  {
  }

  lemma OfferGood(p: Progress, c: Config)
    requires Consistent(p)
    ensures Consistent(Offer(p, c).0)
    ensures (p.candidate.Some? ==> c.generation >= p.candidate.value.generation) ==> Good(p, Offer(p, c).0)
  {
  }

  lemma BeatGood(settings: Settings, s: ServerState, now: int, h: Heartbeat)
    requires Sound(settings, s) && s.p.state != Closed
    ensures var (t, e) := Beat(settings, s, now, h);
            && Sound(settings, t) && Later(s, t) && Good(s.p, t.p)
            && (e == Ok ==>
                  && t.lease.lastSentAt == Some(h.sentAt)
                  && (s.lease.lastSentAt.Some? ==> s.lease.lastSentAt.value < h.sentAt))
  {
  }

  /** What one input does to the configurations of a live session. */
  lemma MoveGood(settings: Settings, s: ServerState, now: int, input: ServerInput)
    requires Sound(settings, s) && s.p.state != Closed && Precheck(s, now, input) == Ok
    ensures var q := Perform(settings, s, now, input).0.p;
            Consistent(q) && (CarefulOffer(s.p, input) ==> Good(s.p, q))
  {
    match input {
      case HandleAck(a) => AckGood(s.p, a);
      case OfferSnapshot(o) => OfferGood(s.p, o.config);
      case _ =>
    }
  }

  /** What one input does to the credential and the lease of a live session. */
  lemma LeaseGood(settings: Settings, s: ServerState, now: int, input: ServerInput)
    requires Sound(settings, s) && s.p.state != Closed && Precheck(s, now, input) == Ok
    ensures var t := Perform(settings, s, now, input).0;
            LeaseBounded(settings, t) && Later(s, t)
  {
  }

  lemma CallKeepsSound(settings: Settings, s: ServerState, call: Call)
    requires Sound(settings, s)
    ensures var t := After(settings, s, call).s;
            Sound(settings, t) && Later(s, t) && (CarefulOffer(s.p, call.input) ==> Good(s.p, t.p))
  {
    if Precheck(s, call.now, call.input) == Ok && Live(s, call.refs, call.now) {
      MoveGood(settings, s, call.now, call.input);
      LeaseGood(settings, s, call.now, call.input);
    }
  }

  /** The session invariant, the lease bound and the identity binding hold after every sequence of calls. */
  lemma {:induction false} EveryRunIsSound(settings: Settings, s: ServerState, calls: seq<Call>)
    requires Sound(settings, s)
    ensures Sound(settings, Final(settings, s, calls))
    ensures Later(s, Final(settings, s, calls))
    decreases |calls|
  {
    if calls != [] {
      CallKeepsSound(settings, s, calls[0]);
      EveryRunIsSound(settings, After(settings, s, calls[0]).s, calls[1..]);
    }
  }

  /** The gap branch for an acknowledged delta is dead: no reachable session takes it. */
  lemma DeltaGapUnreachable(settings: Settings, s: ServerState, calls: seq<Call>, a: Ack)
    requires Sound(settings, s)
    ensures var t := Final(settings, s, calls); Acknowledge(t.p, a).1 != ErrGenerationGap
  {
    EveryRunIsSound(settings, s, calls);
  }

  // ---------------------------------------------------------------- heartbeats

  /** The send times of the heartbeats a run accepts, in order. */
  function AcceptedBeats(settings: Settings, s: ServerState, calls: seq<Call>): seq<int>
    decreases |calls|
  {
    if calls == [] then []
    else
      var r := After(settings, s, calls[0]);
      (if calls[0].input.HandleHeartbeat? && r.err == Ok then [calls[0].input.heartbeat.sentAt] else [])
      + AcceptedBeats(settings, r.s, calls[1..])
  }

  predicate Increasing(b: seq<int>) { forall i, j :: 0 <= i < j < |b| ==> b[i] < b[j] }

  predicate Above(b: seq<int>, fence: Option<int>) { forall i :: 0 <= i < |b| ==> fence.None? || b[i] > fence.value }

  /** A replayed or reordered heartbeat is never accepted: accepted send times strictly increase over the run. */
  lemma {:induction false} BeatsIncrease(settings: Settings, s: ServerState, calls: seq<Call>)
    requires Sound(settings, s)
    ensures Increasing(AcceptedBeats(settings, s, calls))
            && Above(AcceptedBeats(settings, s, calls), s.lease.lastSentAt)
    decreases |calls|
  {
    if calls != [] {
      var call := calls[0];
      var r := After(settings, s, call);
      CallKeepsSound(settings, s, call);
      BeatsIncrease(settings, r.s, calls[1..]);
      if call.input.HandleHeartbeat? && r.err == Ok {
        BeatGood(settings, s, call.now, call.input.heartbeat);
        assert r.s.lease.lastSentAt == Some(call.input.heartbeat.sentAt);
      }
    }
  }

  // ---------------------------------------------------------------- generations, with an arbitrary peer

  /** An offer a careful caller makes: never older than the candidate still being readied. */
  predicate CarefulOffer(p: Progress, input: ServerInput) {
    input.OfferSnapshot? && p.candidate.Some? ==> input.snapshot.config.generation >= p.candidate.value.generation
  }

  predicate Careful(settings: Settings, s: ServerState, calls: seq<Call>)
    decreases |calls|
  {
    calls != [] ==> CarefulOffer(s.p, calls[0].input) && Careful(settings, After(settings, s, calls[0]).s, calls[1..])
  }

  predicate Ordered(p: Progress) {
    && (p.active.Some? && p.candidate.Some? ==> p.active.value.generation <= p.candidate.value.generation)
    && (p.active.Some? && p.pendingSnapshot.Some? ==> p.active.value.generation <= p.pendingSnapshot.value.generation)
    && (p.candidate.Some? && p.pendingSnapshot.Some? ==>
       p.candidate.value.generation <= p.pendingSnapshot.value.generation)
  }

  predicate NoLower(p: Progress, q: Progress) {
    p.active.Some? ==> q.active.Some? && p.active.value.generation <= q.active.value.generation
  }

  /**
   If no offer is older than the outstanding candidate, the active generation never falls, whatever
   the peer sends.
   */
  lemma {:induction false} CarefulRunNeverRegresses(settings: Settings, s: ServerState, calls: seq<Call>)
    requires Sound(settings, s) && Ordered(s.p) && Careful(settings, s, calls)
    ensures NoLower(s.p, Final(settings, s, calls).p)
    decreases |calls|
  {
    if calls != [] {
      CallKeepsSound(settings, s, calls[0]);
      CarefulRunNeverRegresses(settings, After(settings, s, calls[0]).s, calls[1..]);
    }
  }

  /** The careless offer, and the peer's part: ready the candidate, then accept and ready the older offer. */
  function Regression(s: ServerState, refs: Refs, now: int, older: Config): seq<Call>
    requires s.p.candidate.Some?
  {
    [Call(now, refs, OfferSnapshot(Snapshot(s.Env(), older, true))),
     Call(now, refs, HandleReadiness(Readiness(s.Env(), s.p.candidate.value, true, true, true, true))),
     Call(now, refs, HandleAck(Ack(s.Env(), AckSnapshot, AckApplied, older, true))),
     Call(now, refs, HandleReadiness(Readiness(s.Env(), older, true, true, true, true)))]
  }

  lemma {:induction false} FinalSplit(settings: Settings, s: ServerState, calls: seq<Call>, last: Call)
    ensures Final(settings, s, calls + [last]) == After(settings, Final(settings, s, calls), last).s
    decreases |calls|
  {
    if calls == [] {
      assert calls + [last] == [last];
      assert Final(settings, s, [last]) == Final(settings, After(settings, s, last).s, []);
    } else {
      assert (calls + [last])[1..] == calls[1..] + [last];
      FinalSplit(settings, After(settings, s, calls[0]).s, calls[1..], last);
    }
  }

  /** Conversely every careless offer that is taken lets a peer drive the active generation down. */
  lemma CarelessOfferRegresses(settings: Settings, s: ServerState, refs: Refs, now: int, older: Config)
    requires Live(s, refs, now) && s.p.candidate.Some? && 0 < older.generation < s.p.candidate.value.generation
    requires Offer(s.p, older).1 == Ok && Offer(s.p, older).0.pendingSnapshot == Some(older)
    ensures var calls := Regression(s, refs, now, older);
            && Final(settings, s, calls[..2]).p.active == s.p.candidate
            && Final(settings, s, calls).p.active == Some(older)
  {
    var calls := Regression(s, refs, now, older);
    var s1 := s.(p := Offer(s.p, older).0);
    assert After(settings, s, calls[0]).s == s1;
    var s2 := s1.(p := BecomeReady(s1.p, calls[1].input.readiness).0);
    assert After(settings, s1, calls[1]).s == s2 && s2.p.active == s.p.candidate;
    RegressionTail(settings, s2, refs, now, older);
    FinalSplit(settings, s, [], calls[0]);
    FinalSplit(settings, s, calls[..1], calls[1]);
    FinalSplit(settings, s, calls[..2], calls[2]);
    FinalSplit(settings, s, calls[..3], calls[3]);
    assert [] + [calls[0]] == calls[..1] && calls[..1] + [calls[1]] == calls[..2];
    assert calls[..2] + [calls[2]] == calls[..3] && calls[..3] + [calls[3]] == calls;
  }

  lemma RegressionTail(settings: Settings, s: ServerState, refs: Refs, now: int, older: Config)
    requires Live(s, refs, now) && older.generation != 0 && s.p.pendingSnapshot == Some(older)
    ensures var t := After(settings, s, Call(now, refs,
            HandleAck(Ack(s.Env(), AckSnapshot, AckApplied, older, true)))).s;
            After(settings, t, Call(now, refs, HandleReadiness(Readiness(s.Env(), older, true, true, true,
                true)))).s.p.active == Some(older)
  {
    var ack := Ack(s.Env(), AckSnapshot, AckApplied, older, true);
    assert After(settings, s, Call(now, refs, HandleAck(ack))).s == s.(p := Acknowledge(s.p, ack).0);
  }
}
