/**
 What the store gives back in lives with restarts, told from the events alone. Beside the
 run goes a history: what was revoked and what broke since the last result, and which
 recorded failures a restart has dropped.
 */
module RotationHistories {
  import opened SessionTypes
  import opened Rotations
  import opened RotationTheorems
  import opened RotationProgress
  import opened RotationRecovery
  import opened RotationRestarts

  /** `lost`: failures that stand in the last result and that a restart dropped, with their codes. */
  datatype Past = Past(since: Since, lost: map<string, Code>)

  const BLANK := Past(NOTHING, map[])

  /** The recorded failures that a restart drops: those of targets without a revoke. */
  function Dropped(c: Coordinator, x: Since): map<string, Code> {
    map k | k in c.targets && c.targets[k].phase == Failed && c.targets[k].revoke.None? && k !in x.broken
      :: c.targets[k].code
  }

  /** The history after a call with the given outcome. */
  function Called(c: Coordinator, s: Store, o: Outcome, p: Past, call: Call): Past {
    Past(SinceAfter(World(c, s), o, p.since, call), if o.s.results != s.results then map[] else p.lost)
  }

  function PastAfter(w: Site, e: RotationRestarts.Event, p: Past): Past
    requires w.c.Tracks()
  {
    match e
    case Serve(t) =>
      if !w.up then p
      else
        var o := Perform(w.c, w.s, t.now, t.call);
        Called(w.c, w.s, o, p, t.call)
    case Restart(now, stored) =>
      if !DoResume(NewCoordinator(w.c.plan), w.s, now, stored).ok then p
      else Past(p.since.(broken := {}), p.lost + Dropped(w.c, p.since))
  }

  /** The history of a run. */
  ghost function PastOf(w: Site, p: Past, events: seq<RotationRestarts.Event>): Past
    requires Recorded(w.c, w.s)
    decreases |events|
  {
    if events == [] then p
    else
      NextRecorded(w, events[0]);
      PastOf(Next(w, events[0]), PastAfter(w, events[0], p), events[1..])
  }

  // ---------------------------------------------------------------- what the last result says

  /** What the last result says of a target, given what happened since. */
  predicate Lined(t: TargetState, p: Past, k: string, line: SummaryLine) {
    if t.revoke.Some? && k !in p.since.revoked then
      (line.phase, line.code) == if k in p.since.broken then (Revoking, NoCode) else (t.phase, t.code)
    else if k in p.lost then (line.phase, line.code) == (Failed, p.lost[k])
    else if t.revoke.None? && t.phase == Failed && k !in p.since.broken then (line.phase, line.code) == (Failed, t.code)
    else Rank(line.phase) <= 3
  }

  predicate Chronicled(t: TargetState, results: seq<Summary>, op: string, p: Past, k: string) {
    var had, line := HasResult(results, op), Overlay(results, op, k);
    && (t.phase == Revoked ==> had)
    && (t.phase == Failed ==> had || k in p.since.broken)
    && (k in p.since.revoked ==> t.revoke.Some? && t.phase != Revoked)
    && (k in p.since.broken ==> t.phase == Failed)
    && (k in p.lost ==> had && ValidCode(p.lost[k]) && (t.revoke.Some? ==> k in p.since.revoked))
    && (k in p.lost && t.revoke.None? && t.phase == Failed ==> k in p.since.broken)
    && (if had then line.Some? && Lined(t, p, k, line.value) else line.None?)
  }

  predicate AllChronicled(c: Coordinator, s: Store, p: Past) {
    forall k :: k in c.targets ==> Chronicled(c.targets[k], s.results, c.plan.operation, p, k)
  }

  predicate Annotated(c: Coordinator, s: Store, p: Past) {
    AllChronicled(c, s, p) && (FinishedAt(s.results, c.plan.operation) != 0 ==> c.AllRevoked())
  }

  /** The history after a move of `k`. */
  function PastBy(p: Past, k: string, t: TargetState, m: Move): Past {
    Past(SinceBy(p.since, k, t, m), if m.write.WriteResult? then map[] else p.lost)
  }

  /** A move that writes no result leaves every target told. */
  lemma MoveChronicled(t: TargetState, m: Move, results: seq<Summary>, op: string, p: Past, k: string)
    requires Chronicled(t, results, op, p, k) && Shape(t, m) && Proper(t) && !m.write.WriteResult?
    requires m.write.WriteRevoke? ==> t.revoke.None?
    ensures Chronicled(m.t, results, op, PastBy(p, k, t, m), k)
  {
  }

  lemma OtherChronicled(u: TargetState, results: seq<Summary>, op: string, p: Past, q: Past, j: string)
    requires Chronicled(u, results, op, p, j) && q.lost == p.lost
    requires (j in q.since.revoked <==> j in p.since.revoked) && (j in q.since.broken <==> j in p.since.broken)
    ensures Chronicled(u, results, op, q, j)
  {
  }

  /** After a result, every target is told by that result alone. */
  lemma ResultChronicled(c: Coordinator, results: seq<Summary>, k: string)
    requires c.Tracks() && k in c.targets && Acceptable(c.plan, AsRecovered(c.targets[k]))
    ensures Chronicled(c.targets[k], results + [SummaryOf(c)], c.plan.operation, BLANK, k)
  {
    var after := results + [SummaryOf(c)];
    assert after[|results|].operation == c.plan.operation;
    OverlayOf(results, c, k);
  }

  lemma QuietAnnotated(c: Coordinator, d: Coordinator, s: Store, s': Store, p: Past, k: string, m: Move)
    requires Annotated(c, s, p) && Differs(c, d, k) && d.targets[k] == m.t && s'.results == s.results
    requires Shape(c.targets[k], m) && Proper(c.targets[k]) && !m.write.WriteResult?
    requires m.write.WriteRevoke? ==> c.targets[k].revoke.None?
    ensures Annotated(d, s', PastBy(p, k, c.targets[k], m))
  {
    var q := PastBy(p, k, c.targets[k], m);
    forall j | j in d.targets ensures Chronicled(d.targets[j], s'.results, d.plan.operation, q, j) {
      assert Chronicled(c.targets[j], s.results, c.plan.operation, p, j);
      if j == k {
        MoveChronicled(c.targets[k], m, s.results, c.plan.operation, p, k);
      } else {
        OtherChronicled(c.targets[j], s.results, c.plan.operation, p, q, j);
      }
    }
    assert c.AllRevoked() ==> m.t == c.targets[k];
    assert c.AllRevoked() ==> d.AllRevoked();
  }

  lemma ResultAnnotated(c: Coordinator, d: Coordinator, s: Store, s': Store, p: Past, k: string, m: Move)
    requires Annotated(c, s, p) && Differs(c, d, k) && d.targets[k] == m.t && Evident(d, s')
    requires Resolves(c.targets[k], m) && s'.results == s.results + [SummaryOf(d)]
    ensures Annotated(d, s', BLANK)
  {
    forall j | j in d.targets ensures Chronicled(d.targets[j], s'.results, d.plan.operation, BLANK, j) {
      assert Held(d.plan, d.targets[j], s');
      ResultChronicled(d, s.results, j);
    }
    assert !Final(c.targets[k]) && !c.AllRevoked();
    ResultFinished(d, s, s');
  }

  lemma CommitAnnotated(c: Coordinator, s: Store, p: Past, now: int, k: string, m: Move)
    requires Recorded(c, s) && Annotated(c, s, p) && k in c.targets && m.t.target == c.targets[k].target
    requires Tidy(c.plan, c.targets[k], m)
    ensures var o := Commit(c, s, now, m); Annotated(o.c, o.s, PastBy(p, k, c.targets[k], m))
  {
    var o := Commit(c, s, now, m);
    CommitDiffers(c, s, now, k, m);
    HeldIsProper(c.plan, c.targets[k], s);
    if m.write.WriteResult? {
      CommitRecorded(c, s, now, k, m);
      ResultAnnotated(c, o.c, s, o.s, p, k, m);
    } else {
      ReadyHasNoRevoke(c.plan, c.targets[k], s);
      QuietAnnotated(c, o.c, s, o.s, p, k, m);
    }
  }

  lemma ReadyHasNoRevoke(plan: Plan, t: TargetState, s: Store)
    requires Held(plan, t, s)
    ensures t.phase == IsReady ==> t.revoke.None?
  {
  }

  // ---------------------------------------------------------------- calls and restarts

  lemma MoveAnnotated(c: Coordinator, s: Store, p: Past, now: int, call: Call, k: string)
    requires Recorded(c, s) && Annotated(c, s, p) && !call.Start? && !call.Resume?
    requires k == Addressee(call) && k in c.targets
    ensures var o := Commit(c, s, now, MoveOf(c.plan, c.targets[k], now, call));
            Annotated(o.c, o.s, Called(c, s, o, p, call))
  {
    var m := MoveOf(c.plan, c.targets[k], now, call);
    assert Held(c.plan, c.targets[k], s);
    MoveTidy(c.plan, c.targets[k], now, call);
    CommitAnnotated(c, s, p, now, k, m);
    SinceMatches(c, s, p.since, now, call, k, m);
    CommitDiffers(c, s, now, k, m);
    assert m.write.WriteResult? ==> |Commit(c, s, now, m).s.results| != |s.results|;
  }

  lemma SameAnnotated(c: Coordinator, s: Store, p: Past, d: Coordinator, s': Store)
    requires Annotated(c, s, p) && d.plan == c.plan && d.targets == c.targets && s'.results == s.results
    ensures Annotated(d, s', p)
  {
    forall k | k in d.targets ensures Chronicled(d.targets[k], s'.results, d.plan.operation, p, k) {
      assert Chronicled(c.targets[k], s.results, c.plan.operation, p, k);
    }
    assert c.AllRevoked() ==> d.AllRevoked();
  }

  lemma CallAnnotated(c: Coordinator, s: Store, p: Past, now: int, call: Call, o: Outcome)
    requires Recorded(c, s) && Annotated(c, s, p) && o == Perform(c, s, now, call)
    ensures Annotated(o.c, o.s, Called(c, s, o, p, call))
  {
    if call.Start? {
      SameAnnotated(c, s, p, o.c, o.s);
    } else if call.Resume? {
      ResumeStays(c, s, now, call.stored);
    } else {
      PerformIs(c, s, now, call);
      if Addressee(call) in c.targets && Admitted(c, call) {
        MoveAnnotated(c, s, p, now, call, Addressee(call));
      } else {
        assert SinceAfter(World(c, s), o, p.since, call) == p.since;
      }
    }
  }

  /** One target over a restart. */
  lemma LoadedChronicled(t: TargetState, s: Store, plan: Plan, p: Past, q: Past, k: string)
    requires Chronicled(t, s.results, plan.operation, p, k) && Traced(plan.operation, t, s) && t.target.connector == k
    requires Acceptable(plan, AsRecovered(t))
    requires k !in q.since.broken && (k in q.since.revoked <==> k in p.since.revoked)
    requires if t.phase == Failed && t.revoke.None? && k !in p.since.broken then k in q.lost && q.lost[k] == t.code
             else (k in q.lost <==> k in p.lost) && (k in p.lost ==> q.lost[k] == p.lost[k])
    ensures Chronicled(LoadTarget(s, plan.operation, t.target).t, s.results, plan.operation, q, k)
  {
  }

  lemma RestartAnnotated(c: Coordinator, s: Store, p: Past, d: Coordinator)
    requires Recorded(c, s) && Annotated(c, s, p) && d.Tracks() && d.plan == c.plan && Mirrors(d, s)
    ensures Annotated(d, s, Past(p.since.(broken := {}), p.lost + Dropped(c, p.since)))
  {
    var q := Past(p.since.(broken := {}), p.lost + Dropped(c, p.since));
    SameKeys(c, d);
    forall k | k in d.targets ensures Chronicled(d.targets[k], s.results, d.plan.operation, q, k) {
      SameTarget(c, d, k);
      assert Held(c.plan, c.targets[k], s) && Traced(c.plan.operation, c.targets[k], s);
      LoadedChronicled(c.targets[k], s, c.plan, p, q, k);
    }
    if FinishedAt(s.results, c.plan.operation) != 0 { RevokedAgain(c, s, p, d); }
  }

  lemma SameTarget(c: Coordinator, d: Coordinator, k: string)
    requires c.Tracks() && d.Tracks() && d.plan == c.plan && k in c.targets && k in d.targets
    ensures d.targets[k].target == c.targets[k].target
  {
    var i := PlannedAt(c, k);
    assert c.plan.targets[i].connector == k;
  }

  lemma RevokedAgain(c: Coordinator, s: Store, p: Past, d: Coordinator)
    requires Recorded(c, s) && Annotated(c, s, p) && d.Tracks() && d.plan == c.plan && Mirrors(d, s) && c.AllRevoked()
    requires d.targets.Keys == c.targets.Keys
    ensures d.AllRevoked()
  {
  }

  lemma NextAnnotated(w: Site, e: RotationRestarts.Event, p: Past)
    requires Recorded(w.c, w.s) && Annotated(w.c, w.s, p)
    ensures Annotated(Next(w, e).c, Next(w, e).s, PastAfter(w, e, p))
  {
    match e {
      case Serve(t) => CallAnnotated(w.c, w.s, p, t.now, t.call, Perform(w.c, w.s, t.now, t.call));
      case Restart(now, stored) =>
        if DoResume(NewCoordinator(w.c.plan), w.s, now, stored).ok {
          ResumedMirrors(w.c.plan, w.s, now, stored);
          RestartAnnotated(w.c, w.s, p, DoResume(NewCoordinator(w.c.plan), w.s, now, stored).c);
        }
    }
  }

  lemma {:induction false} RunAnnotated(w: Site, p: Past, events: seq<RotationRestarts.Event>)
    requires Recorded(w.c, w.s) && Annotated(w.c, w.s, p)
    ensures var v := RotationRestarts.Run(w, events); Annotated(v.c, v.s, PastOf(w, p, events))
    decreases |events|
  {
    if events != [] {
      NextRecorded(w, events[0]);
      NextAnnotated(w, events[0], p);
      RunAnnotated(Next(w, events[0]), PastAfter(w, events[0], p), events[1..]);
    }
  }

  lemma NewAnnotated(plan: Plan, s: Store)
    requires plan.Valid() && Unused(s, plan.operation)
    ensures Annotated(NewCoordinator(plan), s, BLANK)
  {
    NewTracks(plan);
    forall k | k in NewCoordinator(plan).targets
      ensures Chronicled(NewCoordinator(plan).targets[k], s.results, plan.operation, BLANK, k)
    {
      NoResultNoOverlay(s.results, plan.operation, k);
    }
    NoResultNoOverlay(s.results, plan.operation, "");
  }

  /** A life with restarts, and its history. */
  ghost function Life0(plan: Plan, s: Store, events: seq<RotationRestarts.Event>): (Site, Past)
    requires plan.Valid() && Unused(s, plan.operation)
  {
    (RotationRestarts.Run(Site0(plan, s), events), PastOf(Site0(plan, s), BLANK, events))
  }

  lemma LifeAnnotated(plan: Plan, s: Store, events: seq<RotationRestarts.Event>)
    requires plan.Valid() && Unused(s, plan.operation)
    ensures var (w, p) := Life0(plan, s, events); Recorded(w.c, w.s) && w.c.plan == plan && Annotated(w.c, w.s, p)
  {
    NewAnnotated(plan, s);
    RunAnnotated(Site0(plan, s), BLANK, events);
  }

  // ---------------------------------------------------------------- reading back, exactly

  /** Revoked after the last result, which says something else of it. */
  predicate Late(results: seq<Summary>, op: string, p: Past, k: string) {
    HasResult(results, op) && k in p.since.revoked
  }

  /** When a target is read back as it is, from its own state and the history. */
  predicate Faithful(t: TargetState, results: seq<Summary>, op: string, p: Past, k: string) {
    if t.revoke.None? then t.phase != Failed
    else if Late(results, op, p, k) then k in p.lost && t.phase == Failed && t.code == p.lost[k]
    else k !in p.since.broken
  }

  /** What the store shows of a target, unless it is late and no dropped failure stands for it. */
  function Back(t: TargetState, results: seq<Summary>, op: string, p: Past, k: string): TargetState {
    if t.revoke.None? then (if t.phase == Failed then t.(phase := EvidencePhase(t), code := NoCode) else t)
    else if Late(results, op, p, k) && k in p.lost then t.(phase := Failed, code := p.lost[k])
    else if k in p.since.broken then t.(phase := Revoking, code := NoCode)
    else t
  }

  predicate Known(t: TargetState, s: Store, plan: Plan, p: Past, k: string) {
    && t.target.connector == k && Traced(plan.operation, t, s) && Acceptable(plan, AsRecovered(t))
    && Chronicled(t, s.results, plan.operation, p, k)
  }

  lemma LoadsBack(t: TargetState, s: Store, plan: Plan, p: Past, k: string)
    requires Known(t, s, plan, p, k) && (Late(s.results, plan.operation, p, k) ==> k in p.lost)
    ensures LoadTarget(s, plan.operation, t.target) == AsRecovered(Back(t, s.results, plan.operation, p, k))
    ensures Acceptable(plan, AsRecovered(Back(t, s.results, plan.operation, p, k)))
  {
  }

  lemma LateUnacceptable(t: TargetState, s: Store, plan: Plan, p: Past, k: string)
    requires Known(t, s, plan, p, k) && Late(s.results, plan.operation, p, k) && k !in p.lost
    ensures var x := LoadTarget(s, plan.operation, t.target); !Acceptable(plan, x) && x.t.phase != Failed && x.t != t
  {
  }

  lemma ReadExactly(t: TargetState, s: Store, plan: Plan, p: Past, k: string)
    requires Known(t, s, plan, p, k)
    ensures LoadTarget(s, plan.operation, t.target) == AsRecovered(t) <==> Faithful(t, s.results, plan.operation, p, k)
  {
    if Late(s.results, plan.operation, p, k) && k !in p.lost {
      LateUnacceptable(t, s, plan, p, k);
    } else {
      LoadsBack(t, s, plan, p, k);
    }
  }

  lemma SiteKnows(w: Site, plan: Plan, p: Past, k: string)
    requires Recorded(w.c, w.s) && w.c.plan == plan && Annotated(w.c, w.s, p) && k in w.c.targets
    ensures Known(w.c.targets[k], w.s, plan, p, k)
  {
    assert Held(w.c.plan, w.c.targets[k], w.s) && Traced(w.c.plan.operation, w.c.targets[k], w.s);
  }

  /**
   In every life with any number of restarts a target is read back exactly as it is if and
   only if: without a revoke, it has not failed; revoked after the last result, it has failed
   with the very code of a failure that a restart dropped; otherwise, it did not break since
   the last result or restart.
   */
  lemma RoundTripAcrossRestarts(plan: Plan, s: Store, events: seq<RotationRestarts.Event>, k: string)
    requires plan.Valid() && Unused(s, plan.operation) && k in Life0(plan, s, events).0.c.targets
    ensures var (w, p) := Life0(plan, s, events);
            Reproduced(w.c, w.s, k) <==> Faithful(w.c.targets[k], w.s.results, plan.operation, p, k)
  {
    LifeAnnotated(plan, s, events);
    var (w, p) := Life0(plan, s, events);
    SiteKnows(w, plan, p, k);
    ReadExactly(w.c.targets[k], w.s, plan, p, k);
  }

  /**
   A target that has not failed is shown as failed if and only if a restart dropped a failure of
   it, which still stands in the last result, and it was revoked since.
   */
  lemma FailureReturnsExactly(plan: Plan, s: Store, events: seq<RotationRestarts.Event>, k: string)
    requires plan.Valid() && Unused(s, plan.operation)
    requires var c := Life0(plan, s, events).0.c; k in c.targets && c.targets[k].phase != Failed
    ensures var (w, p) := Life0(plan, s, events);
            LoadTarget(w.s, plan.operation, w.c.targets[k].target).t.phase == Failed
            <==> k in p.lost && k in p.since.revoked
  {
    LifeAnnotated(plan, s, events);
    var (w, p) := Life0(plan, s, events);
    SiteKnows(w, plan, p, k);
    if Late(w.s.results, plan.operation, p, k) && k !in p.lost {
      LateUnacceptable(w.c.targets[k], w.s, plan, p, k);
    } else {
      LoadsBack(w.c.targets[k], w.s, plan, p, k);
    }
  }

  // ---------------------------------------------------------------- restarting, exactly

  /** Some target was revoked after the last result, and no dropped failure stands for it. */
  predicate Blocked(c: Coordinator, s: Store, p: Past) {
    exists k :: k in c.targets && Late(s.results, c.plan.operation, p, k) && k !in p.lost
  }

  /** What is left of a coordinator after a restart. */
  function Reloaded(c: Coordinator, s: Store, p: Past): Coordinator {
    c.(finished := FinishedAt(s.results, c.plan.operation),
       targets := map k | k in c.targets :: Back(c.targets[k], s.results, c.plan.operation, p, k))
  }

  lemma BackHeld(t: TargetState, s: Store, plan: Plan, p: Past, k: string)
    requires Known(t, s, plan, p, k) && Durable(t, s) && (Late(s.results, plan.operation, p, k) ==> k in p.lost)
    ensures var b := Back(t, s.results, plan.operation, p, k); Held(plan, b, s) && Traced(plan.operation, b, s)
    ensures LoadTarget(s, plan.operation, t.target) == AsRecovered(Back(t, s.results, plan.operation, p, k))
  {
    LoadsBack(t, s, plan, p, k);
  }

  lemma ReloadedTracks(c: Coordinator, s: Store, p: Past)
    requires c.Tracks()
    ensures Reloaded(c, s, p).Tracks() && Reloaded(c, s, p).targets.Keys == c.targets.Keys
  {
    var r := Reloaded(c, s, p);
    assert forall k :: k in c.targets ==> r.targets[k].target == c.targets[k].target;
  }

  lemma ReloadedRecorded(w: Site, p: Past, r: Coordinator)
    requires Recorded(w.c, w.s) && Annotated(w.c, w.s, p) && !Blocked(w.c, w.s, p) && r == Reloaded(w.c, w.s, p)
    ensures Recorded(r, w.s) && AllReproduced(r, w.s)
  {
    ReloadedTracks(w.c, w.s, p);
    forall k | k in r.targets
      ensures Held(r.plan, r.targets[k], w.s) && Traced(r.plan.operation, r.targets[k], w.s) && Reproduced(r, w.s, k)
    {
      SiteKnows(w, w.c.plan, p, k);
      assert Held(w.c.plan, w.c.targets[k], w.s);
      BackHeld(w.c.targets[k], w.s, w.c.plan, p, k);
    }
  }

  lemma ReloadedFinished(c: Coordinator, s: Store, p: Past, r: Coordinator)
    requires Annotated(c, s, p) && r == Reloaded(c, s, p) && r.finished != 0
    ensures r.AllRevoked()
  {
    forall k | k in c.targets ensures r.targets[k].phase == Revoked {
      assert Chronicled(c.targets[k], s.results, c.plan.operation, p, k) && c.targets[k].phase == Revoked;
    }
  }

  lemma BlockedRefused(w: Site, p: Past, now: int)
    requires Recorded(w.c, w.s) && w.c.started && Annotated(w.c, w.s, p) && Blocked(w.c, w.s, p)
    ensures !DoResume(NewCoordinator(w.c.plan), w.s, now, true).ok
  {
    var k :| k in w.c.targets && Late(w.s.results, w.c.plan.operation, p, k) && k !in p.lost;
    var i := PlannedAt(w.c, k);
    SiteKnows(w, w.c.plan, p, k);
    LateUnacceptable(w.c.targets[k], w.s, w.c.plan, p, k);
    UnacceptableRefused(w.c, w.s, i, now);
  }

  lemma FutureRefused(c: Coordinator, s: Store, now: int)
    requires PlanFor(s.started, c.plan.operation) == Some(c.plan) && c.plan.Valid()
    requires var at := FinishedAt(s.results, c.plan.operation); at != 0 && at > now + MAX_CLOCK_SKEW
    ensures !DoResume(NewCoordinator(c.plan), s, now, true).ok
  {
    assert Load(s, c.plan).value.finishedAt == FinishedAt(s.results, c.plan.operation);
  }

  lemma RestartOf(w: Site, p: Past, now: int, r: Coordinator)
    requires Recorded(w.c, w.s) && w.c.started && Annotated(w.c, w.s, p) && r == Reloaded(w.c, w.s, p)
    ensures var o := DoResume(NewCoordinator(w.c.plan), w.s, now, true);
            (o.ok <==> !Blocked(w.c, w.s, p) && InTime(r, now)) && (o.ok ==> o.c == r && o.s == w.s)
  {
    if Blocked(w.c, w.s, p) {
      BlockedRefused(w, p, now);
    } else if !InTime(r, now) {
      FutureRefused(w.c, w.s, now);
    } else {
      ReloadedRecorded(w, p, r);
      if r.finished != 0 { ReloadedFinished(w.c, w.s, p, r); }
      ReproducedResumes(r, w.s, now);
    }
  }

  /**
   In every life with restarts of a started operation, one more restart is refused exactly
   when some target was revoked after the last result with no dropped failure to stand for
   it, or the finishing time lies in the future; otherwise each target is what the history
   says it comes back as.
   */
  lemma RestartExactly(plan: Plan, s: Store, events: seq<RotationRestarts.Event>, now: int)
    requires plan.Valid() && Unused(s, plan.operation) && Life0(plan, s, events).0.c.started
    ensures var (w, p) := Life0(plan, s, events);
            var o, r := DoResume(NewCoordinator(plan), w.s, now, true), Reloaded(w.c, w.s, p);
            (o.ok <==> !Blocked(w.c, w.s, p) && InTime(r, now)) && (o.ok ==> o.c == r && o.s == w.s)
  {
    LifeAnnotated(plan, s, events);
    var (w, p) := Life0(plan, s, events);
    RestartOf(w, p, now, Reloaded(w.c, w.s, p));
  }
}
