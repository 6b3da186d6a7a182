/** The one control stream of a carrier: never two at once, and what each closed one costs. */
module CarrierControls {
  import opened SessionTypes
  import opened Carriers

  // ---------------------------------------------------------------- at most one

  /** A control stream that is being accepted or is not yet closed. */
  predicate IsLive(call: OpenCall) {
    call.kind == Accepted && (call.stage.Opening? || (call.stage.Controlled? && call.stage.once != Ran))
  }

  /** Before publication a call holds the claim; after it, the slot, unless the carrier closed first. */
  predicate Placed(c: Carrier, i: nat)
    requires i in c.calls
  {
    var call := c.calls[i];
    && (call.stage == Claimed ==> c.claim == Some(i))
    && (call.kind == Accepted && call.stage.Opening? ==> c.claim == Some(i))
    && (call.stage.Controlled? && !call.stage.published ==> c.claim == Some(i))
    && (call.stage.Controlled? && call.stage.published && call.stage.once != Ran ==>
          c.control == Some(i) || (c.closed && c.control.None?))
  }

  predicate Alone(c: Carrier, i: nat, j: nat) {
    i in c.calls && j in c.calls && IsLive(c.calls[i]) && IsLive(c.calls[j]) ==> i == j
  }

  ghost predicate Single(c: Carrier) {
    && (forall i :: i in c.calls ==> i < c.next && Fitting(c.calls[i]) && Placed(c, i))
    && (forall i, j :: Alone(c, i, j))
    && (c.claim.Some? ==> c.control.None? && c.claim.value in c.calls && c.calls[c.claim.value].kind == Accepted)
    && (c.control.Some? ==> c.control.value in c.calls && c.calls[c.control.value].stage.Controlled?)
  }

  /** A call becomes live only by taking a permit, and then no other one is. */
  lemma NoneLiveWhileClaimed(c: Carrier, id: nat, j: nat)
    requires Single(c) && !c.closed && id in c.calls && c.calls[id].stage == Claimed && j in c.calls
    ensures !IsLive(c.calls[j])
  {
    assert Placed(c, id) && Placed(c, j);
  }

  lemma BeginSingle(c: Carrier, kind: Kind)
    requires Single(c)
    ensures Single(Started(c, kind))
  {
    var d := Started(c, kind);
    forall i | i in d.calls ensures Placed(d, i) { assert i in c.calls ==> Placed(c, i); }
    forall i, j ensures Alone(d, i, j) { assert Alone(c, i, j); }
  }

  /** A step of one call touches no other. */
  lemma CallMoves(c: Carrier, e: Event, id: nat)
    requires id in c.calls && !e.Begin? && !e.Shutdown? && Fitting(c.calls[id])
    ensures var d := Stepped(c, e, id);
            && d.calls.Keys == c.calls.Keys && (forall j :: j in c.calls && j != id ==> d.calls[j] == c.calls[j])
            && d.calls[id].kind == c.calls[id].kind && Fitting(d.calls[id]) && d.next == c.next && d.closed == c.closed
            && (IsLive(d.calls[id]) && !IsLive(c.calls[id]) ==> c.calls[id].stage == Claimed && !c.closed)
            && (d.calls[id].Holds() && !c.calls[id].Holds() ==> !Refuses(c))
  {
  }

  /** What it does to the claim and the slot. */
  lemma CallPlaced(c: Carrier, e: Event, id: nat)
    requires id in c.calls && !e.Begin? && !e.Shutdown? && Fitting(c.calls[id]) && Placed(c, id)
    requires c.claim.Some? ==> c.control.None?
    ensures var d := Stepped(c, e, id);
            && id in d.calls && Placed(d, id)
            && (d.claim == c.claim || (d.claim.None? && c.claim == Some(id)))
            && (d.control == c.control || (d.control == Some(id) && !c.closed && c.control.None? && d.claim.None?)
                || (d.control.None? && IsLive(c.calls[id])))
            && (d.control == Some(id) ==> d.calls[id].stage.Controlled? || !c.calls[id].stage.Controlled?)
  {
  }

  lemma CallSingle(c: Carrier, e: Event, id: nat)
    requires Single(c) && id in c.calls && !e.Begin? && !e.Shutdown?
    ensures Single(Stepped(c, e, id))
  {
    var d := Stepped(c, e, id);
    assert Placed(c, id);
    CallMoves(c, e, id);
    CallPlaced(c, e, id);
    forall j | j in d.calls && j != id ensures Placed(d, j) {
      assert Placed(c, j) && Alone(c, id, j) && Placed(c, id);
    }
    forall i, j ensures Alone(d, i, j) {
      assert Alone(c, i, j);
      if i == id && j in c.calls && j != id && IsLive(d.calls[id]) && !IsLive(c.calls[id]) {
        NoneLiveWhileClaimed(c, id, j);
      }
      if j == id && i in c.calls && i != id && IsLive(d.calls[id]) && !IsLive(c.calls[id]) {
        NoneLiveWhileClaimed(c, id, i);
      }
    }
  }

  lemma StepSingle(c: Carrier, e: Event)
    requires Single(c)
    ensures Single(Next(c, e))
  {
    match e {
      case Begin(kind) => BeginSingle(c, kind);
      case Shutdown =>
        var d := c.(closed := true);
        forall i | i in d.calls ensures Placed(d, i) { assert Placed(c, i); }
        forall i, j ensures Alone(d, i, j) { assert Alone(c, i, j); }
      case _ => if e.id in c.calls { CallSingle(c, e, e.id); }
    }
  }

  lemma {:induction false} RunSingle(c: Carrier, events: seq<Event>)
    requires Single(c)
    ensures Single(Run(c, events))
    decreases |events|
  {
    if events != [] {
      StepSingle(c, events[0]);
      RunSingle(Next(c, events[0]), events[1..]);
    }
  }

  lemma NewSingle(maximum: nat, depth: nat)
    ensures Single(NewCarrier(maximum, depth))
  {
    var c := NewCarrier(maximum, depth);
    forall i, j ensures Alone(c, i, j) {}
  }

  /** In every interleaving at most one control stream is being accepted or open. */
  lemma OneControlStream(maximum: nat, depth: nat, events: seq<Event>, i: nat, j: nat)
    requires var c := Run(NewCarrier(maximum, depth), events);
             i in c.calls && j in c.calls && IsLive(c.calls[i]) && IsLive(c.calls[j])
    ensures i == j
  {
    NewSingle(maximum, depth);
    RunSingle(NewCarrier(maximum, depth), events);
    assert Alone(Run(NewCarrier(maximum, depth), events), i, j);
  }

  // ---------------------------------------------------------------- the price of a close

  /** 1 when the event runs the close of a control stream to its end. */
  function ControlCloses(c: Carrier, e: Event): nat {
    One(e.Release? && e.id in c.calls && c.calls[e.id].stage.Controlled? && c.calls[e.id].stage.once == Running)
  }

  function CountCloses(c: Carrier, events: seq<Event>): nat
    decreases |events|
  {
    if events == [] then 0 else ControlCloses(c, events[0]) + CountCloses(Next(c, events[0]), events[1..])
  }

  lemma LeakOfCall(c: Carrier, e: Event, id: nat)
    requires id in c.calls && !e.Begin? && !e.Shutdown? && id == e.id
    ensures var d := Stepped(c, e, id);
            id in d.calls && (IsLeaked(d.calls[id].stage) <==> IsLeaked(c.calls[id].stage) || ControlCloses(c, e) == 1)
    ensures ControlCloses(c, e) == 1 ==> !IsLeaked(c.calls[id].stage)
  {
  }

  lemma LeakedAfter(c: Carrier, e: Event)
    requires Balanced(c)
    ensures Leaked(Next(c, e)) == if ControlCloses(c, e) == 1 then Leaked(c) + {e.id} else Leaked(c)
    ensures ControlCloses(c, e) == 1 ==> e.id !in Leaked(c)
  {
    if !e.Begin? && !e.Shutdown? && e.id in c.calls {
      LeakOfCall(c, e, e.id);
      CallMoves(c, e, e.id);
      OneLeaks(c, Stepped(c, e, e.id), e.id);
    } else if e.Begin? {
      BeginLeaks(c, e.kind);
    }
  }

  lemma BeginLeaks(c: Carrier, kind: Kind)
    requires Balanced(c)
    ensures Leaked(Started(c, kind)) == Leaked(c)
  {
  }

  /** Where only `id` differs, so does only its leak. */
  lemma OneLeaks(c: Carrier, d: Carrier, id: nat)
    requires id in c.calls && d.calls.Keys == c.calls.Keys && forall j :: j in c.calls && j != id ==>
             d.calls[j] == c.calls[j]
    ensures Leaked(d) == if IsLeaked(d.calls[id].stage) then Leaked(c) + {id} else Leaked(c) - {id}
  {
  }

  /** The leaked permits are exactly the control streams closed so far. */
  lemma {:induction false} LeakIsCounted(c: Carrier, events: seq<Event>)
    requires Balanced(c)
    ensures |Leaked(Run(c, events))| == |Leaked(c)| + CountCloses(c, events) && Leaked(c) <= Leaked(Run(c, events))
    decreases |events|
  {
    if events != [] {
      StepBalanced(c, events[0]);
      LeakedAfter(c, events[0]);
      LeakIsCounted(Next(c, events[0]), events[1..]);
    }
  }

  /** In every run the permits held beyond those in use are the control streams closed in it. */
  lemma EachCloseCostsAPermit(maximum: nat, depth: nat, events: seq<Event>)
    ensures var c := Run(NewCarrier(maximum, depth), events);
            c.permits == InUse(c) + CountCloses(NewCarrier(maximum, depth), events)
  {
    var c := NewCarrier(maximum, depth);
    NewBalanced(maximum, depth);
    PermitsAreConserved(maximum, depth, events);
    LeakIsCounted(c, events);
    assert Leaked(c) == {};
  }

  /** Some step of the run closes a control stream. */
  predicate ClosesSome(c: Carrier, events: seq<Event>)
    decreases |events|
  {
    events != [] && (ControlCloses(c, events[0]) == 1 || ClosesSome(Next(c, events[0]), events[1..]))
  }

  lemma {:induction false} ClosesSomeMeans(c: Carrier, events: seq<Event>)
    ensures ClosesSome(c, events) <==> CountCloses(c, events) > 0
    decreases |events|
  {
    if events != [] { ClosesSomeMeans(Next(c, events[0]), events[1..]); }
  }

  /** The permits held are those in use if and only if no step of the run closed a control stream. */
  lemma BooksBalanceExactly(maximum: nat, depth: nat, events: seq<Event>)
    ensures var c := Run(NewCarrier(maximum, depth), events);
            c.permits == InUse(c) <==> !ClosesSome(NewCarrier(maximum, depth), events)
  {
    EachCloseCostsAPermit(maximum, depth, events);
    ClosesSomeMeans(NewCarrier(maximum, depth), events);
  }

  // ---------------------------------------------------------------- using up the permits

  /** One control stream accepted, published and closed. */
  function AcceptAndClose(id: nat): seq<Event> {
    [Begin(Accepted), TakePermit(id, false), Answer(id, true), Receive(id, false), Publish(id), Close(id), Release(id)]
  }

  function Cycles(n: nat): seq<Event> { if n == 0 then [] else Cycles(n - 1) + AcceptAndClose(n - 1) }

  function Step7(c: Carrier, e: seq<Event>): Carrier
    requires |e| == 7
  {
    Next(Next(Next(Next(Next(Next(Next(c, e[0]), e[1]), e[2]), e[3]), e[4]), e[5]), e[6])
  }

  lemma RunOf7(c: Carrier, e: seq<Event>)
    requires |e| == 7
    ensures Run(c, e) == Step7(c, e)
  {
    var c1 := Next(c, e[0]);
    var c2 := Next(c1, e[1]);
    var c3 := Next(c2, e[2]);
    var c4 := Next(c3, e[3]);
    var c5 := Next(c4, e[4]);
    var c6 := Next(c5, e[5]);
    assert e[1..][1..] == e[2..] && e[2..][1..] == e[3..] && e[3..][1..] == e[4..];
    assert e[4..][1..] == e[5..] && e[5..][1..] == e[6..] && e[6..][1..] == [];
    assert Run(c, e) == Run(c1, e[1..]);
    assert Run(c1, e[1..]) == Run(c2, e[2..]);
    assert Run(c2, e[2..]) == Run(c3, e[3..]);
    assert Run(c3, e[3..]) == Run(c4, e[4..]);
    assert Run(c4, e[4..]) == Run(c5, e[5..]);
    assert Run(c5, e[5..]) == Run(c6, e[6..]);
    assert Run(c6, e[6..]) == Run(Next(c6, e[6]), []);
  }

  /** A carrier that can accept a control stream. */
  predicate Vacant(c: Carrier) { !Refuses(c) && c.control.None? && c.claim.None? && c.next !in c.calls }

  function With(c: Carrier, stage: Stage): Carrier { c.(calls := c.calls[c.next := OpenCall(Accepted, stage)]) }

  /** One control stream wrapped and not yet published. */
  function Wrapped(c: Carrier): Carrier {
    With(c, Controlled(false, Untouched)).(permits := c.permits + 1, active := c.active + 1,
                                           next := c.next + 1, claim := Some(c.next))
  }

  lemma Wraps(c: Carrier)
    requires Vacant(c)
    ensures Next(Next(Next(Next(c, Begin(Accepted)), TakePermit(c.next, false)), Answer(c.next, true)),
            Receive(c.next, false))
         == Wrapped(c)
  {
    var a := Next(c, Begin(Accepted));
    assert a == With(c, Claimed).(next := c.next + 1, claim := Some(c.next));
    var p := Next(a, TakePermit(c.next, false));
    assert p.calls == With(c, Opening(None)).calls;
    var o := Next(p, Answer(c.next, true));
    assert o.calls == With(c, Opening(Some(true))).calls;
    var w := Next(o, Receive(c.next, false));
    assert w.calls == With(c, Controlled(false, Untouched)).calls;
  }

  lemma PublishOf(c: Carrier, id: nat, once: Once)
    requires id in c.calls && c.calls[id] == OpenCall(Accepted, Controlled(false, once)) && !c.closed && c.control.None?
    ensures Next(c, Publish(id)) == c.(claim := None, control := Some(id),
            calls := c.calls[id := OpenCall(Accepted, Controlled(true, once))])
  {
  }

  lemma CloseOf(c: Carrier, id: nat, published: bool)
    requires id in c.calls && c.calls[id] == OpenCall(Accepted, Controlled(published, Untouched))
    ensures Next(c, Close(id)) == c.(calls := c.calls[id := OpenCall(Accepted, Controlled(published, Running))])
  {
  }

  lemma ReleaseOf(c: Carrier, id: nat, published: bool)
    requires id in c.calls && c.calls[id] == OpenCall(Accepted, Controlled(published, Running))
    ensures Next(c, Release(id)) == c.(control := None,
            calls := c.calls[id := OpenCall(Accepted, Controlled(published, Ran))])
  {
  }

  lemma Overwritten(m: map<nat, OpenCall>, id: nat, a: OpenCall, b: OpenCall)
    ensures m[id := a][id := b] == m[id := b]
  {
  }

  function At(id: nat, published: bool, once: Once, m: map<nat, OpenCall>): map<nat, OpenCall> {
    m[id := OpenCall(Accepted, Controlled(published, once))]
  }

  lemma OneCycle(c: Carrier)
    requires Vacant(c)
    ensures Run(c, AcceptAndClose(c.next))
         == With(c, Controlled(true, Ran)).(permits := c.permits + 1, active := c.active + 1, next := c.next + 1)
  {
    Wraps(c);
    RunOf7(c, AcceptAndClose(c.next));
    CycleTail(Wrapped(c), c.next);
    Overwritten(c.calls, c.next, OpenCall(Accepted, Controlled(false, Untouched)),
        OpenCall(Accepted, Controlled(true, Ran)));
  }

  lemma CycleTail(w: Carrier, id: nat)
    requires id in w.calls && w.calls[id] == OpenCall(Accepted, Controlled(false, Untouched)) && !w.closed
             && w.control.None?
    ensures Next(Next(Next(w, Publish(id)), Close(id)), Release(id))
            == w.(claim := None, calls := At(id, true, Ran, w.calls))
  {
    PublishOf(w, id, Untouched);
    var p := w.(claim := None, control := Some(id), calls := At(id, true, Untouched, w.calls));
    CloseOf(p, id, true);
    ReleaseOf(p.(calls := At(id, true, Running, p.calls)), id, true);
    assert At(id, true, Ran, At(id, true, Running, At(id, true, Untouched, w.calls))) == At(id, true, Ran, w.calls);
  }

  lemma StickTail(w: Carrier, id: nat)
    requires id in w.calls && w.calls[id] == OpenCall(Accepted, Controlled(false, Untouched)) && !w.closed
             && w.control.None?
    ensures Stuck(Next(Next(Next(w, Close(id)), Release(id)), Publish(id)))
  {
    CloseOf(w, id, false);
    var q := w.(calls := At(id, false, Running, w.calls));
    ReleaseOf(q, id, false);
    PublishOf(q.(control := None, calls := At(id, false, Ran, q.calls)), id, Ran);
  }

  /** After `n` cycles `n` permits are taken, nothing is open and the slot is free. */
  lemma {:induction false} CyclesTakePermits(maximum: nat, depth: nat, n: nat)
    requires n <= maximum
    ensures var c := Run(NewCarrier(maximum, depth), Cycles(n));
            && c.permits == n && c.next == n && !c.closed && c.maximum == maximum && c.control.None? && c.claim.None?
            && (forall i :: i in c.calls <==> 0 <= i < n)
            && (forall i :: i in c.calls ==> c.calls[i] == OpenCall(Accepted, Controlled(true, Ran)))
  {
    if n > 0 {
      CyclesTakePermits(maximum, depth, n - 1);
      RunSplits(NewCarrier(maximum, depth), Cycles(n - 1), AcceptAndClose(n - 1));
      OneCycle(Run(NewCarrier(maximum, depth), Cycles(n - 1)));
    }
  }

  /** A carrier all of whose permits are leaked. */
  ghost predicate UsedUp(c: Carrier) { Balanced(c) && Holding(c) == Leaked(c) && c.permits == c.maximum }

  /** Without a free permit no call comes to hold one. */
  lemma NoNewHolder(c: Carrier, e: Event, i: nat)
    requires Balanced(c) && Refuses(c) && i in Next(c, e).calls && Next(c, e).calls[i].Holds()
    ensures i in c.calls && c.calls[i].Holds()
  {
    if !e.Begin? && !e.Shutdown? && e.id in c.calls { CallMoves(c, e, e.id); }
  }

  lemma MaximumStays(c: Carrier, e: Event)
    ensures Next(c, e).maximum == c.maximum
  {
  }

  lemma LeakedHold(c: Carrier)
    ensures Leaked(c) <= Holding(c)
  {
  }

  /** Where the holders lie between the leaked permits before and after, they have not changed. */
  lemma StillUsedUp(c: Carrier, d: Carrier)
    requires UsedUp(c) && Balanced(d) && d.maximum == c.maximum && Leaked(c) <= Leaked(d) && Holding(d) <= Holding(c)
    ensures UsedUp(d) && Holding(d) == Holding(c)
  {
    LeakedHold(d);
    assert Holding(d) == Holding(c);
  }

  lemma UsedUpStays(c: Carrier, e: Event)
    requires UsedUp(c)
    ensures UsedUp(Next(c, e)) && Holding(Next(c, e)) == Holding(c)
  {
    StepBalanced(c, e);
    LeakedAfter(c, e);
    MaximumStays(c, e);
    HoldersStay(c, e);
    StillUsedUp(c, Next(c, e));
  }

  lemma HoldersStay(c: Carrier, e: Event)
    requires Balanced(c) && Refuses(c)
    ensures Holding(Next(c, e)) <= Holding(c)
  {
    forall i | i in Holding(Next(c, e)) ensures i in Holding(c) { NoNewHolder(c, e, i); }
  }

  lemma {:induction false} UsedUpForEver(c: Carrier, events: seq<Event>)
    requires UsedUp(c)
    ensures UsedUp(Run(c, events)) && Holding(Run(c, events)) == Holding(c)
    decreases |events|
  {
    if events != [] {
      UsedUpStays(c, events[0]);
      UsedUpForEver(Next(c, events[0]), events[1..]);
    }
  }

  /**
   Accepting and closing a control stream as often as there are permits disables the
   carrier: nothing is open, and in no continuation does any call get a permit again.
   */
  lemma CyclesDisable(maximum: nat, depth: nat, after: seq<Event>)
    ensures var c := Run(NewCarrier(maximum, depth), Cycles(maximum)); var d := Run(c, after);
            InUse(c) == 0 && Refuses(d) && Holding(d) == Holding(c) && InUse(d) == 0
  {
    var c := Run(NewCarrier(maximum, depth), Cycles(maximum));
    CyclesTakePermits(maximum, depth, maximum);
    NewBalanced(maximum, depth);
    RunBalanced(NewCarrier(maximum, depth), Cycles(maximum));
    assert Holding(c) == Leaked(c);
    UsedUpForEver(c, after);
    HoldersPartition(c);
    HoldersPartition(Run(c, after));
  }

  // ---------------------------------------------------------------- the slot

  /** The published control stream is a closed one: nothing will clear the slot. */
  predicate Stuck(c: Carrier) {
    c.control.Some? && c.control.value in c.calls && c.calls[c.control.value].stage.Controlled?
    && c.calls[c.control.value].stage.once == Ran
  }

  /** The slot gets stuck by exactly one step: publishing a stream whose close already ran. */
  lemma StuckExactly(c: Carrier, e: Event)
    requires Single(c) && !Stuck(c)
    ensures Stuck(Next(c, e)) <==>
            e.Publish? && e.id in c.calls && c.calls[e.id].stage == Controlled(false, Ran) && !c.closed
  {
    if !e.Begin? && !e.Shutdown? && e.id in c.calls { CallSticks(c, e, e.id); }
  }

  lemma CallSticks(c: Carrier, e: Event, id: nat)
    requires Single(c) && !Stuck(c) && !e.Begin? && !e.Shutdown? && id in c.calls && id == e.id
    ensures Stuck(Stepped(c, e, id)) <==> e.Publish? && c.calls[id].stage == Controlled(false, Ran) && !c.closed
  {
    assert Placed(c, id);
    CallMoves(c, e, id);
    CallPlaced(c, e, id);
  }

  lemma StuckStep(c: Carrier, e: Event)
    requires Single(c) && Stuck(c)
    ensures Next(c, e).control == c.control && Stuck(Next(c, e)) && Next(c, Begin(Accepted)) == c
  {
    var k := c.control.value;
    if !e.Begin? && !e.Shutdown? && e.id in c.calls {
      assert Placed(c, e.id) && Placed(c, k);
      CallMoves(c, e, e.id);
      CallPlaced(c, e, e.id);
    }
  }

  /** Once the slot is stuck no control stream is ever accepted again. */
  lemma {:induction false} StuckForEver(c: Carrier, events: seq<Event>)
    requires Single(c) && Stuck(c)
    ensures var d := Run(c, events); Next(d, Begin(Accepted)) == d
    decreases |events|
  {
    StuckStep(c, Begin(Accepted));
    if events != [] {
      StepSingle(c, events[0]);
      StuckStep(c, events[0]);
      StuckForEver(Next(c, events[0]), events[1..]);
    }
  }

  /** Otherwise, with no accept under way and no control stream open, the next one is let in. */
  lemma VacantUnlessStuck(maximum: nat, depth: nat, events: seq<Event>)
    ensures var c := Run(NewCarrier(maximum, depth), events);
            c.claim.None? && !Stuck(c) && (forall i :: i in c.calls ==> !IsLive(c.calls[i])) ==>
                Next(c, Begin(Accepted)) != c
  {
    NewSingle(maximum, depth);
    RunSingle(NewCarrier(maximum, depth), events);
  }

  /** The accept's context ends between wrapping and publishing: the abort runs, then the dead stream is published. */
  function AbortedEarly(id: nat): seq<Event> {
    [Begin(Accepted), TakePermit(id, false), Answer(id, true), Receive(id, false), Close(id), Release(id), Publish(id)]
  }

  /** Every carrier that can accept a control stream can get stuck this way. */
  lemma EarlyAbortSticks(c: Carrier)
    requires Vacant(c)
    ensures Stuck(Run(c, AbortedEarly(c.next)))
  {
    Wraps(c);
    RunOf7(c, AbortedEarly(c.next));
    StickTail(Wrapped(c), c.next);
  }
}
