/**
 Stream permits of one carrier server. Every open or accept is a call that moves
 through stages; each event is one atomic step of one goroutine, so a run is any
 interleaving of calls, results, cancellations, closes and the shutdown.
 */
module Carriers {
  import opened SessionTypes

  /** `Edge`: opened by this side. `Accepted`: the control stream opened by the host. */
  datatype Kind = Edge | Accepted

  /** The close-once flag of a stream: untouched, taken by a close or an abort, or run to its end. */
  datatype Once = Untouched | Running | Ran

  datatype Stage =
    | Claimed                                   // accept: the control slot is claimed, no permit yet
    | Waiting                                   // open: permit taken, no opening slot yet
    | Opening(result: Option<bool>)             // the session call is running or has answered
    | Canceled(result: Option<bool>)            // the caller is gone, a goroutine waits for the answer
    | Prefacing                                 // open: raw stream there, preface being written
    | Streaming                                 // open: handed to the caller
    | Closing                                   // open: first close or abort, permit not yet returned
    | Controlled(published: bool, once: Once)   // accept: a wrapped control stream, before or after it is published
    | Leaving                                   // failed, the caller has yet to return the permit
    | Dropped                                   // finished after a cancellation, the permit not yet returned
    | Gone                                      // over, without a permit

  datatype OpenCall = OpenCall(kind: Kind, stage: Stage) {
    predicate Holds() { stage != Gone && stage != Claimed }
    predicate Slotted() { kind == Edge && (stage.Opening? || stage.Canceled?) }
    /** About to return its permit. */
    predicate Returning() { stage == Leaving || stage == Dropped || stage == Closing }
  }

  /** `control` is the published control stream, `claim` the accept that may publish one. */
  datatype Carrier = Carrier(maximum: nat, depth: nat, permits: nat, openings: nat, active: int, closed: bool,
                             control: Option<nat>, claim: Option<nat>, calls: map<nat, OpenCall>, next: nat)

  function NewCarrier(maximum: nat, depth: nat): Carrier {
    Carrier(maximum, depth, 0, 0, 0, false, None, None, map[], 0)
  }

  datatype Event =
    | Begin(kind: Kind)
    | TakePermit(id: nat, refused: bool)
    | TakeSlot(id: nat)
    | GiveUp(id: nat)
    | Answer(id: nat, ok: bool)
    | Cancel(id: nat)
    | Receive(id: nat, expired: bool)
    | FinishCanceled(id: nat)
    | Preface(id: nat, ok: bool)
    | Publish(id: nat)
    | Unclaim(id: nat)
    | Close(id: nat)
    | Release(id: nat)
    | Shutdown

  function Moved(c: Carrier, id: nat, stage: Stage): Carrier
    requires id in c.calls
  {
    c.(calls := c.calls[id := c.calls[id].(stage := stage)])
  }

  /** Return an opening slot, for the calls that have one. */
  function Unslotted(c: Carrier, id: nat): Carrier
    requires id in c.calls
  {
    if c.calls[id].Slotted() && c.openings > 0 then c.(openings := c.openings - 1) else c
  }

  /** The counter drops, and a token leaves the channel if there is one. */
  function Returned(c: Carrier): Carrier {
    c.(active := c.active - 1, permits := if c.permits > 0 then c.permits - 1 else 0)
  }

  predicate Refuses(c: Carrier) { c.closed || c.permits >= c.maximum }

  /** An open takes its permit at once; an accept first claims the control slot. */
  function Started(c: Carrier, kind: Kind): Carrier {
    if kind == Edge then
      if Refuses(c) then c
      else c.(permits := c.permits + 1, active := c.active + 1, next := c.next + 1,
              calls := c.calls[c.next := OpenCall(Edge, Waiting)])
    else
      if c.control.Some? || c.claim.Some? then c
      else c.(claim := Some(c.next), next := c.next + 1, calls := c.calls[c.next := OpenCall(Accepted, Claimed)])
  }

  function Permitted(c: Carrier, id: nat, refused: bool): Carrier
    requires id in c.calls
  {
    if refused || Refuses(c) then Moved(c, id, Gone)
    else Moved(c.(permits := c.permits + 1, active := c.active + 1), id, Opening(None))
  }

  /** A wrapped control stream is published, unless the carrier closed meanwhile. */
  function Published(c: Carrier, id: nat): Carrier
    requires id in c.calls && c.calls[id].stage.Controlled?
  {
    var d := c.(claim := None, control := if c.closed || c.control.Some? then c.control else Some(id));
    Moved(d, id, Controlled(true, c.calls[id].stage.once))
  }

  /** The accept of an unpublished control stream is over. */
  predicate AcceptOver(call: OpenCall) { call.stage.Canceled? || call.stage == Dropped || call.stage == Gone }

  /** What the first close of a stream does when it runs. */
  function Ended(c: Carrier, id: nat): Carrier
    requires id in c.calls
  {
    var call := c.calls[id];
    if call.Returning() then Moved(Returned(c), id, Gone)
    else if call.stage.Controlled? && call.stage.once == Running
    then Moved(c.(control := None), id, Controlled(call.stage.published, Ran))
    else c
  }

  /** One step of the call `id`, in its current stage. */
  function Stepped(c: Carrier, e: Event, id: nat): Carrier
    requires id in c.calls && !e.Begin? && !e.Shutdown?
  {
    var stage := c.calls[id].stage;
    match e
    case TakePermit(_, refused) => if stage == Claimed then Permitted(c, id, refused) else c
    case TakeSlot(_) =>
      if stage == Waiting && c.openings < c.depth then Moved(c.(openings := c.openings + 1), id, Opening(None)) else c
    case GiveUp(_) => if stage == Waiting then Moved(c, id, Leaving) else c
    case Answer(_, ok) =>
      if stage == Opening(None) then Moved(c, id, Opening(Some(ok)))
      else if stage == Canceled(None) then Moved(c, id, Canceled(Some(ok))) else c
    case Cancel(_) => if stage.Opening? then Moved(c, id, Canceled(stage.result)) else c
    case Receive(_, expired) =>
      if !stage.Opening? || stage.result.None? then c
      else Moved(Unslotted(c, id), id,
                 if !stage.result.value || expired then Leaving
                 else if c.calls[id].kind == Edge then Prefacing else Controlled(false, Untouched))
    case FinishCanceled(_) => if stage.Canceled? && stage.result.Some? then Moved(Unslotted(c, id), id, Dropped) else c
    case Preface(_, ok) => if stage == Prefacing then Moved(c, id, if ok then Streaming else Leaving) else c
    case Publish(_) => if stage.Controlled? && !stage.published then Published(c, id) else c
    case Unclaim(_) => if c.claim == Some(id) && AcceptOver(c.calls[id]) then c.(claim := None) else c
    case Close(_) =>
      if stage == Streaming then Moved(c, id, Closing)
      else if stage.Controlled? && stage.once == Untouched then Moved(c, id, Controlled(stage.published, Running))
          else c
    case Release(_) => Ended(c, id)
  }

  function Next(c: Carrier, e: Event): Carrier {
    match e
    case Begin(kind) => Started(c, kind)
    case Shutdown => c.(closed := true)
    case _ => if e.id in c.calls then Stepped(c, e, e.id) else c
  }

  function Run(c: Carrier, events: seq<Event>): Carrier
    decreases |events|
  {
    if events == [] then c else Run(Next(c, events[0]), events[1..])
  }

  lemma {:induction false} RunSplits(c: Carrier, a: seq<Event>, b: seq<Event>)
    ensures Run(c, a + b) == Run(Run(c, a), b)
    decreases |a|
  {
    if a == [] {
      assert a + b == b;
    } else {
      assert (a + b)[1..] == a[1..] + b;
      RunSplits(Next(c, a[0]), a[1..], b);
    }
  }

  lemma FirstStep(c: Carrier, e: Event, rest: seq<Event>)
    ensures Run(c, [e] + rest) == Run(Next(c, e), rest)
  {
    assert ([e] + rest)[1..] == rest;
  }

  // ---------------------------------------------------------------- the balance

  function Holding(c: Carrier): set<nat> { set i | i in c.calls && c.calls[i].Holds() }
  function Slots(c: Carrier): set<nat> { set i | i in c.calls && c.calls[i].Slotted() }

  /** Stages that only one kind of call goes through. */
  predicate Fitting(call: OpenCall) {
    && (call.kind == Accepted ==>
       call.stage != Waiting && call.stage != Prefacing && call.stage != Streaming && call.stage != Closing)
    && (call.kind == Edge ==> call.stage != Claimed && !call.stage.Controlled?)
  }

  ghost predicate Balanced(c: Carrier) {
    && c.permits == |Holding(c)| <= c.maximum && c.active == c.permits
    && c.openings == |Slots(c)| <= c.depth
    && forall i :: i in c.calls ==> i < c.next && Fitting(c.calls[i])
  }

  lemma NewBalanced(maximum: nat, depth: nat)
    ensures Balanced(NewCarrier(maximum, depth))
  {
    assert Holding(NewCarrier(maximum, depth)) == {} && Slots(NewCarrier(maximum, depth)) == {};
  }

  /** The holders and the slots are those of the calls alone. */
  lemma SameCalls(c: Carrier, d: Carrier)
    requires c.calls == d.calls
    ensures Holding(c) == Holding(d) && Slots(c) == Slots(d)
  {
  }

  lemma HoldingMoves(c: Carrier, id: nat, stage: Stage)
    requires id in c.calls
    ensures Holding(Moved(c, id, stage)) == if stage == Gone || stage == Claimed then Holding(c) - {id}
            else Holding(c) + {id}
  {
  }

  lemma SlotsMove(c: Carrier, id: nat, stage: Stage)
    requires id in c.calls
    ensures Slots(Moved(c, id, stage))
         == if OpenCall(c.calls[id].kind, stage).Slotted() then Slots(c) + {id} else Slots(c) - {id}
  {
  }

  function One(b: bool): nat { if b then 1 else 0 }

  /** A move to `stage`, with permits and slots changed by exactly what the call gains or gives back. */
  lemma MoveBalanced(c: Carrier, d: Carrier, id: nat, stage: Stage)
    requires Balanced(c) && id in c.calls && d.calls == c.calls[id := c.calls[id].(stage := stage)]
    requires Fitting(OpenCall(c.calls[id].kind, stage)) && d.maximum == c.maximum && d.depth == c.depth
             && d.next == c.next
    requires var t := OpenCall(c.calls[id].kind, stage);
             && d.permits == c.permits + One(t.Holds()) - One(c.calls[id].Holds()) <= d.maximum && d.active == d.permits
             && d.openings == c.openings + One(t.Slotted()) - One(c.calls[id].Slotted()) <= d.depth
    ensures Balanced(d)
  {
    HoldingMoves(c, id, stage);
    SlotsMove(c, id, stage);
    SameCalls(d, Moved(c, id, stage));
    assert id in Slots(c) <==> c.calls[id].Slotted();
    assert id in Holding(c) <==> c.calls[id].Holds();
  }

  lemma AddedHolders(c: Carrier, id: nat, call: OpenCall)
    requires id !in c.calls && !call.Slotted()
    ensures var d := c.(calls := c.calls[id := call]);
            Slots(d) == Slots(c) && Holding(d) == if call.Holds() then Holding(c) + {id} else Holding(c)
  {
  }

  /** A new call, with its permit counted if it has one. */
  lemma AddBalanced(c: Carrier, d: Carrier, call: OpenCall)
    requires Balanced(c) && !call.Slotted() && Fitting(call) && d.calls == c.calls[c.next := call]
             && d.next == c.next + 1
    requires d.permits == c.permits + One(call.Holds()) <= c.maximum == d.maximum && d.active == d.permits
    requires d.openings == c.openings && d.depth == c.depth
    ensures Balanced(d)
  {
    AddedHolders(c, c.next, call);
    SameCalls(d, c.(calls := c.calls[c.next := call]));
  }

  lemma StartBalanced(c: Carrier, kind: Kind)
    requires Balanced(c)
    ensures Balanced(Started(c, kind))
  {
    var d := Started(c, kind);
    if d != c { AddBalanced(c, d, OpenCall(kind, if kind == Edge then Waiting else Claimed)); }
  }

  lemma PermitIsCounted(c: Carrier, id: nat)
    requires Balanced(c) && id in c.calls
    ensures c.calls[id].Slotted() ==> c.openings > 0
    ensures c.calls[id].Holds() ==> c.permits > 0
  {
    assert c.calls[id].Slotted() ==> id in Slots(c);
    assert c.calls[id].Holds() ==> id in Holding(c);
  }

  /** A step of a call moves only that call, and accounts for what it gains or gives back. */
  lemma CallAccounts(c: Carrier, e: Event, id: nat)
    requires id in c.calls && !e.Begin? && !e.Shutdown? && Fitting(c.calls[id]) && c.permits <= c.maximum
             && c.openings <= c.depth
    requires (c.calls[id].Slotted() ==> c.openings > 0) && (c.calls[id].Holds() ==> c.permits > 0)
             && c.active == c.permits
    ensures var d := Stepped(c, e, id);
            && id in d.calls && d.calls == c.calls[id := d.calls[id]] && d.calls[id].kind == c.calls[id].kind
            && Fitting(d.calls[id]) && d.maximum == c.maximum && d.depth == c.depth && d.next == c.next
            && d.permits == c.permits + One(d.calls[id].Holds()) - One(c.calls[id].Holds()) <= d.maximum
            && d.openings == c.openings + One(d.calls[id].Slotted()) - One(c.calls[id].Slotted()) <= d.depth
            && d.active == d.permits
  {
    assert c.calls[id := c.calls[id]] == c.calls;
  }

  lemma CallBalanced(c: Carrier, e: Event, id: nat)
    requires Balanced(c) && id in c.calls && !e.Begin? && !e.Shutdown?
    ensures Balanced(Stepped(c, e, id))
  {
    PermitIsCounted(c, id);
    CallAccounts(c, e, id);
    MoveBalanced(c, Stepped(c, e, id), id, Stepped(c, e, id).calls[id].stage);
  }

  lemma StepBalanced(c: Carrier, e: Event)
    requires Balanced(c)
    ensures Balanced(Next(c, e))
  {
    match e {
      case Begin(kind) => StartBalanced(c, kind);
      case Shutdown => SameCalls(c, c.(closed := true));
      case _ => if e.id in c.calls { CallBalanced(c, e, e.id); }
    }
  }

  lemma {:induction false} RunBalanced(c: Carrier, events: seq<Event>)
    requires Balanced(c)
    ensures Balanced(Run(c, events))
    decreases |events|
  {
    if events != [] {
      StepBalanced(c, events[0]);
      RunBalanced(Next(c, events[0]), events[1..]);
    }
  }

  // ---------------------------------------------------------------- who holds the permits

  predicate IsInProgress(s: Stage) { s.Waiting? || s.Opening? || s.Prefacing? || s.Leaving? }
  predicate IsUnfinished(s: Stage) { s.Canceled? || s.Dropped? }
  predicate IsUnreleased(s: Stage) { s.Streaming? || s.Closing? || (s.Controlled? && s.once != Ran) }
  predicate IsLeaked(s: Stage) { s.Controlled? && s.once == Ran }

  function InProgress(c: Carrier): set<nat> { set i | i in c.calls && IsInProgress(c.calls[i].stage) }
  function Unfinished(c: Carrier): set<nat> { set i | i in c.calls && IsUnfinished(c.calls[i].stage) }
  function Unreleased(c: Carrier): set<nat> { set i | i in c.calls && IsUnreleased(c.calls[i].stage) }

  /** Control streams that were closed: nothing is open, the permit is still taken. */
  function Leaked(c: Carrier): set<nat> { set i | i in c.calls && IsLeaked(c.calls[i].stage) }

  function InUse(c: Carrier): nat { |InProgress(c)| + |Unfinished(c)| + |Unreleased(c)| }

  /**
   Permit conservation. In every reachable state the permits held are the calls in
   progress, the cancelled calls not yet finished, the streams not yet released, and the
   control streams already closed; never more than the maximum. Slots likewise.
   */
  lemma PermitsAreConserved(maximum: nat, depth: nat, events: seq<Event>)
    ensures var c := Run(NewCarrier(maximum, depth), events);
            && c.permits == InUse(c) + |Leaked(c)| <= c.maximum && c.active == c.permits
            && c.openings == |Slots(c)| <= c.depth
  {
    NewBalanced(maximum, depth);
    RunBalanced(NewCarrier(maximum, depth), events);
    HoldersPartition(Run(NewCarrier(maximum, depth), events));
  }

  lemma DisjointSize(a: set<nat>, b: set<nat>)
    requires a !! b
    ensures |a + b| == |a| + |b|
  {
  }

  /** Every stage with a permit is of exactly one sort. */
  lemma SortOf(s: Stage)
    ensures s != Gone && s != Claimed <==> IsInProgress(s) || IsUnfinished(s) || IsUnreleased(s) || IsLeaked(s)
    ensures !(IsInProgress(s) && IsUnfinished(s)) && !(IsUnreleased(s) && IsLeaked(s))
    ensures !((IsInProgress(s) || IsUnfinished(s)) && (IsUnreleased(s) || IsLeaked(s)))
  {
  }

  lemma HoldersPartition(c: Carrier)
    ensures |Holding(c)| == InUse(c) + |Leaked(c)|
  {
    var p, q, r, l := InProgress(c), Unfinished(c), Unreleased(c), Leaked(c);
    forall i | i in c.calls
      ensures i in Holding(c) <==> i in p || i in q || i in r || i in l
      ensures !(i in p && i in q) && !(i in r && i in l) && !((i in p || i in q) && (i in r || i in l))
    {
      SortOf(c.calls[i].stage);
    }
    assert Holding(c) == (p + q) + (r + l);
    DisjointSize(p, q);
    DisjointSize(r, l);
    DisjointSize(p + q, r + l);
  }

  // ---------------------------------------------------------------- released at most once

  /** 1 when the event returns the permit of the call. */
  function Releases(c: Carrier, e: Event, id: nat): nat {
    One(e == Release(id) && id in c.calls && c.calls[id].Returning())
  }

  function CountReleases(c: Carrier, events: seq<Event>, id: nat): nat
    decreases |events|
  {
    if events == [] then 0 else Releases(c, events[0], id) + CountReleases(Next(c, events[0]), events[1..], id)
  }

  lemma GoneStaysGone(c: Carrier, e: Event, id: nat)
    requires id in c.calls && id < c.next && c.calls[id].stage == Gone
    ensures id in Next(c, e).calls && Next(c, e).calls[id].stage == Gone && id < Next(c, e).next
            && Releases(c, e, id) == 0
  {
  }

  lemma {:induction false} NoneAfterGone(c: Carrier, events: seq<Event>, id: nat)
    requires id in c.calls && id < c.next && c.calls[id].stage == Gone
    ensures CountReleases(c, events, id) == 0
    decreases |events|
  {
    if events != [] {
      GoneStaysGone(c, events[0], id);
      NoneAfterGone(Next(c, events[0]), events[1..], id);
    }
  }

  /** However often a stream is closed or aborted, and whatever is cancelled, its permit is returned at most once. */
  lemma {:induction false} ReleasedAtMostOnce(c: Carrier, events: seq<Event>, id: nat)
    requires Balanced(c)
    ensures CountReleases(c, events, id) <= 1
    decreases |events|
  {
    if events != [] {
      StepBalanced(c, events[0]);
      if Releases(c, events[0], id) == 1 {
        NoneAfterGone(Next(c, events[0]), events[1..], id);
      } else {
        ReleasedAtMostOnce(Next(c, events[0]), events[1..], id);
      }
    }
  }

  // ---------------------------------------------------------------- no permit is lost

  /** The steps that bring a call to its end, whatever stage it is in. */
  function ToEnd(id: nat, stage: Stage): seq<Event> {
    match stage
    case Waiting => [GiveUp(id), Release(id)]
    case Opening(r) => (if r.None? then [Answer(id, false)] else []) + [Cancel(id), FinishCanceled(id), Release(id)]
    case Canceled(r) => (if r.None? then [Answer(id, false)] else []) + [FinishCanceled(id), Release(id)]
    case Prefacing => [Preface(id, false), Release(id)]
    case Streaming => [Close(id), Release(id)]
    case Closing => [Release(id)]
    case Leaving => [Release(id)]
    case Dropped => [Release(id)]
    case _ => []
  }

  /** `d` is `c` with the call `id` over and its permit back, and nothing else changed but its slot. */
  ghost predicate Over(c: Carrier, d: Carrier, id: nat) {
    && id in c.calls && d.calls == c.calls[id := c.calls[id].(stage := Gone)]
    && d == c.(calls := d.calls, permits := d.permits, active := d.active, openings := d.openings)
    && d.permits == c.permits - 1 && d.active == c.active - 1 && d.openings == c.openings - One(c.calls[id].Slotted())
  }

  lemma LeavesNow(c: Carrier, id: nat)
    requires Balanced(c) && id in c.calls && c.calls[id].Returning()
    ensures Over(c, Run(c, [Release(id)]), id)
  {
    PermitIsCounted(c, id);
    FirstStep(c, Release(id), []);
    assert [Release(id)] + [] == [Release(id)];
  }

  /** One step towards the end that keeps everything but the stage and the slot. */
  lemma Nearer(c: Carrier, n: Carrier, d: Carrier, id: nat, stage: Stage)
    requires id in c.calls && n == Moved(c.(openings := n.openings), id, stage) && Over(n, d, id)
    requires n.openings == c.openings + One(OpenCall(c.calls[id].kind, stage).Slotted()) - One(c.calls[id].Slotted())
    ensures Over(c, d, id)
  {
    var gone := c.calls[id].(stage := Gone);
    assert c.calls[id := c.calls[id].(stage := stage)][id := gone] == c.calls[id := gone];
  }

  lemma CanceledEnds(c: Carrier, id: nat)
    requires Balanced(c) && id in c.calls && c.calls[id].stage.Canceled? && c.calls[id].stage.result.Some?
    ensures Over(c, Run(c, [FinishCanceled(id), Release(id)]), id)
  {
    var e := FinishCanceled(id);
    PermitIsCounted(c, id);
    StepBalanced(c, e);
    LeavesNow(Next(c, e), id);
    FirstStep(c, e, [Release(id)]);
    Nearer(c, Next(c, e), Run(Next(c, e), [Release(id)]), id, Dropped);
    assert [e] + [Release(id)] == [e, Release(id)];
  }

  lemma AnsweredEnds(c: Carrier, id: nat)
    requires Balanced(c) && id in c.calls && c.calls[id].stage.Opening? && c.calls[id].stage.result.Some?
    ensures Over(c, Run(c, [Cancel(id), FinishCanceled(id), Release(id)]), id)
  {
    var e := Cancel(id);
    StepBalanced(c, e);
    CanceledEnds(Next(c, e), id);
    FirstStep(c, e, [FinishCanceled(id), Release(id)]);
    Nearer(c, Next(c, e), Run(Next(c, e), [FinishCanceled(id), Release(id)]), id, Canceled(c.calls[id].stage.result));
    assert [e] + [FinishCanceled(id), Release(id)] == [e, FinishCanceled(id), Release(id)];
  }

  lemma UnansweredEnds(c: Carrier, id: nat)
    requires Balanced(c) && id in c.calls && (c.calls[id].stage == Opening(None) || c.calls[id].stage == Canceled(None))
    ensures Over(c, Run(c, ToEnd(id, c.calls[id].stage)), id)
  {
    var e := Answer(id, false);
    StepBalanced(c, e);
    if c.calls[id].stage.Opening? {
      AnsweredEnds(Next(c, e), id);
      FirstStep(c, e, [Cancel(id), FinishCanceled(id), Release(id)]);
      Nearer(c, Next(c, e), Run(Next(c, e), [Cancel(id), FinishCanceled(id), Release(id)]), id, Opening(Some(false)));
    } else {
      CanceledEnds(Next(c, e), id);
      FirstStep(c, e, [FinishCanceled(id), Release(id)]);
      Nearer(c, Next(c, e), Run(Next(c, e), [FinishCanceled(id), Release(id)]), id, Canceled(Some(false)));
    }
  }

  lemma ShortEnds(c: Carrier, id: nat)
    requires Balanced(c) && id in c.calls
    requires c.calls[id].stage.Waiting? || c.calls[id].stage.Prefacing? || c.calls[id].stage.Streaming?
    ensures Over(c, Run(c, ToEnd(id, c.calls[id].stage)), id)
  {
    var steps := ToEnd(id, c.calls[id].stage);
    StepBalanced(c, steps[0]);
    LeavesNow(Next(c, steps[0]), id);
    FirstStep(c, steps[0], [Release(id)]);
    Nearer(c, Next(c, steps[0]), Run(Next(c, steps[0]), [Release(id)]), id, Next(c, steps[0]).calls[id].stage);
    assert [steps[0]] + [Release(id)] == steps;
  }

  /** No permit is lost elsewhere: every call that holds one, but for a control stream, can still end and return it. */
  lemma EveryCallCanEnd(maximum: nat, depth: nat, events: seq<Event>, id: nat)
    requires var c := Run(NewCarrier(maximum, depth), events);
             id in c.calls && c.calls[id].Holds() && !c.calls[id].stage.Controlled?
    ensures var c := Run(NewCarrier(maximum, depth), events); Over(c, Run(c, ToEnd(id, c.calls[id].stage)), id)
  {
    var c := Run(NewCarrier(maximum, depth), events);
    NewBalanced(maximum, depth);
    RunBalanced(NewCarrier(maximum, depth), events);
    var steps := ToEnd(id, c.calls[id].stage);
    match c.calls[id].stage {
      case Opening(r) =>
        if r.None? {
          UnansweredEnds(c, id);
        } else {
          assert steps == [Cancel(id), FinishCanceled(id), Release(id)];
          AnsweredEnds(c, id);
        }
      case Canceled(r) =>
        if r.None? {
          UnansweredEnds(c, id);
        } else {
          assert steps == [FinishCanceled(id), Release(id)];
          CanceledEnds(c, id);
        }
      case Closing => LeavesNow(c, id);
      case Leaving => LeavesNow(c, id);
      case Dropped => LeavesNow(c, id);
      case _ => ShortEnds(c, id);
    }
  }
}
