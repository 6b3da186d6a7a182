/**
 Many server sessions over one registry: the process-generation fence. Session
 identifiers are fresh, as the identifier source promises; everything else about
 the connecting processes and their later calls is arbitrary.
 */
module Fleets {
  import opened SessionTypes
  import opened SessionRegistries
  import opened ServerSessions

  datatype Fleet = Fleet(refs: Refs, sessions: map<string, ServerState>)

  datatype Step =
    | Connect(now: int, ref: SessionRef, auth: Auth, first: Config, drainCapable: bool)
    | Call(id: string, now: int, input: ServerInput)

  predicate Connects(settings: Settings, f: Fleet, step: Step) {
    && step.Connect? && Acceptable(settings, step.now, step.ref, step.auth, step.first)
    && step.ref.session !in f.sessions && AttachRef(f.refs, step.ref).err == Ok
  }

  function Next(settings: Settings, f: Fleet, step: Step): Fleet {
    match step
    case Connect(now, ref, auth, first, drainCapable) =>
      if !Connects(settings, f, step) then f
      else Fleet(AttachRef(f.refs, ref).refs, f.sessions[ref.session := Accepted(settings, now, ref, auth, first,
          drainCapable)])
    case Call(id, now, input) =>
      if id !in f.sessions then f
      else var r := Serve(settings, f.sessions[id], f.refs, now, input); Fleet(r.refs, f.sessions[id := r.s])
  }

  function Run(settings: Settings, f: Fleet, steps: seq<Step>): Fleet
    decreases |steps|
  {
    if steps == [] then f else Run(settings, Next(settings, f, steps[0]), steps[1..])
  }

  /** The registry names sessions of the fleet, under their own connector. */
  predicate Coherent(f: Fleet) {
    && (forall id :: id in f.sessions ==> f.sessions[id].ref.session == id)
    && (forall c :: c in f.refs ==>
       f.refs[c].connector == c && f.refs[c].session in f.sessions && f.sessions[f.refs[c].session].ref == f.refs[c])
  }

  lemma CallOnRefs(settings: Settings, s: ServerState, refs: Refs, now: int, input: ServerInput)
    ensures var r := Serve(settings, s, refs, now, input);
            && r.s.ref == s.ref
            && (r.refs == refs || (Current(refs, s.ref) && r.refs == refs - {s.ref.connector}))
            && (!Current(refs, s.ref) ==> r.refs == refs && (input.Close? || r.err != Ok))
  {
  }

  /** What a step keeps: coherence, every session under its reference, and who is no longer current. */
  predicate Follows(f: Fleet, g: Fleet) {
    && Coherent(g)
    && (forall id :: id in f.sessions ==> id in g.sessions && g.sessions[id].ref == f.sessions[id].ref)
    && (forall id :: id in f.sessions && !Current(f.refs, f.sessions[id].ref) ==> !Current(g.refs, f.sessions[id].ref))
  }

  lemma CallCoherent(f: Fleet, id: string, s: ServerState, refs: Refs)
    requires Coherent(f) && id in f.sessions && s.ref == f.sessions[id].ref
    requires refs == f.refs || (Current(f.refs, s.ref) && refs == f.refs - {s.ref.connector})
    ensures Follows(f, Fleet(refs, f.sessions[id := s]))
  {
  }

  lemma ConnectCoherent(f: Fleet, ref: SessionRef, s: ServerState)
    requires Coherent(f) && ref.session !in f.sessions && s.ref == ref && AttachRef(f.refs, ref).err == Ok
    ensures Follows(f, Fleet(AttachRef(f.refs, ref).refs, f.sessions[ref.session := s]))
  {
  }

  lemma StepCoherent(settings: Settings, f: Fleet, step: Step)
    requires Coherent(f)
    ensures Coherent(Next(settings, f, step))
    ensures forall id :: id in f.sessions ==>
            id in Next(settings, f, step).sessions && Next(settings, f, step).sessions[id].ref == f.sessions[id].ref
    ensures forall id :: id in f.sessions && !Current(f.refs, f.sessions[id].ref) ==>
            !Current(Next(settings, f, step).refs, f.sessions[id].ref)
  {
    if step.Call? && step.id in f.sessions {
      CallOnRefs(settings, f.sessions[step.id], f.refs, step.now, step.input);
      var r := Serve(settings, f.sessions[step.id], f.refs, step.now, step.input);
      CallCoherent(f, step.id, r.s, r.refs);
    } else if Connects(settings, f, step) {
      var s := Accepted(settings, step.now, step.ref, step.auth, step.first, step.drainCapable);
      ConnectCoherent(f, step.ref, s);
    }
  }

  const NOBODY: Fleet := Fleet(map[], map[])

  lemma {:induction false} RunCoherent(settings: Settings, f: Fleet, steps: seq<Step>)
    requires Coherent(f)
    ensures Coherent(Run(settings, f, steps))
    decreases |steps|
  {
    if steps != [] {
      StepCoherent(settings, f, steps[0]);
      RunCoherent(settings, Next(settings, f, steps[0]), steps[1..]);
    }
  }

  /** A session that is not the registered one of its connector never is again, and never succeeds again. */
  lemma {:induction false} ReplacedStaysReplaced(settings: Settings, f: Fleet, steps: seq<Step>, id: string)
    requires Coherent(f) && id in f.sessions && !Current(f.refs, f.sessions[id].ref)
    ensures var g := Run(settings, f, steps);
            && Coherent(g) && id in g.sessions && g.sessions[id].ref == f.sessions[id].ref
            && !Current(g.refs, g.sessions[id].ref)
    decreases |steps|
  {
    if steps != [] {
      StepCoherent(settings, f, steps[0]);
      ReplacedStaysReplaced(settings, Next(settings, f, steps[0]), steps[1..], id);
    }
  }

  /**
   In every run: once another process has attached for a connector, no call of an
   older session of that connector succeeds any more (closing it excepted), and no
   call of it, closing included, touches the registry.
   */
  lemma NewerProcessFencesOlder(settings: Settings, before: seq<Step>, attach: Step, after: seq<Step>, older: string,
      now: int, input: ServerInput)
    requires var f := Run(settings, NOBODY, before);
             Connects(settings, f, attach) && older in f.sessions
                 && attach.ref.connector == f.sessions[older].ref.connector
    ensures var g := Run(settings, Next(settings, Run(settings, NOBODY, before), attach), after);
            && older in g.sessions
            && var r := Serve(settings, g.sessions[older], g.refs, now, input);
               r.refs == g.refs && (input.Close? || r.err != Ok)
  {
    var f := Run(settings, NOBODY, before);
    RunCoherent(settings, NOBODY, before);
    StepCoherent(settings, f, attach);
    ReplacedStaysReplaced(settings, Next(settings, f, attach), after, older);
    var g := Run(settings, Next(settings, f, attach), after);
    CallOnRefs(settings, g.sessions[older], g.refs, now, input);
  }

  predicate StaysAttached(settings: Settings, f: Fleet, steps: seq<Step>, connector: string)
    decreases |steps|
  {
    connector in f.refs && (steps != [] ==> StaysAttached(settings, Next(settings, f, steps[0]), steps[1..], connector))
  }

  predicate Succeeds(a: SessionRef, b: SessionRef) { a == b || (a.tunnel == b.tunnel && a.process < b.process) }

  /** While a connector stays attached its process generation only moves up, within one tunnel. */
  lemma {:induction false} GenerationsClimb(settings: Settings, f: Fleet, steps: seq<Step>, connector: string)
    requires Coherent(f) && StaysAttached(settings, f, steps, connector)
    ensures connector in Run(settings, f, steps).refs
    ensures Succeeds(f.refs[connector], Run(settings, f, steps).refs[connector])
    decreases |steps|
  {
    if steps != [] {
      var g := Next(settings, f, steps[0]);
      StepCoherent(settings, f, steps[0]);
      if steps[0].Call? && steps[0].id in f.sessions {
        CallOnRefs(settings, f.sessions[steps[0].id], f.refs, steps[0].now, steps[0].input);
      }
      GenerationsClimb(settings, g, steps[1..], connector);
    }
  }

  /** The fence lasts only as long as the registration: after a disconnect any generation may attach. */
  lemma FenceForgottenOnDisconnect(refs: Refs, ref: SessionRef, reason: Reason, lower: SessionRef)
    requires ref.Valid() && lower.Valid() && ValidReason(reason) && Current(refs, ref)
             && lower.connector == ref.connector
    ensures AttachRef(refs, lower).err == Ok <==> lower.tunnel == ref.tunnel && ref.process < lower.process
    ensures AttachRef(DisconnectRef(refs, ref, reason).0, lower).err == Ok
  {
  }
}
