/**
 Waiting for an admission of one identity. The waiter looks under one lock and takes the
 channel to sleep on under another; every change of the registry closes the channel of
 its time and makes a new one. `available` is whether a look would find something.
 */
module AdmissionWaits {
  /** `seen` is the version the waiter looked at, `channel` the one whose end it waits for. */
  datatype Waiter = Looking | Missed(seen: nat) | Asleep(seen: nat, channel: nat) | Served | Refused | Canceled

  datatype State = State(version: nat, available: bool, closed: bool, waiter: Waiter)

  datatype Event = Look | Subscribe | Wake | Cancel | Change(available: bool, closes: bool)

  function Changed(s: State, available: bool, closes: bool): State {
    s.(version := s.version + 1, available := available, closed := s.closed || closes)
  }

  function Next(s: State, e: Event): State {
    match e
    case Look => if !s.waiter.Looking? then s else s.(waiter := if s.available then Served else Missed(s.version))
    case Subscribe =>
      if !s.waiter.Missed? then s else s.(waiter := if s.closed then Refused else Asleep(s.waiter.seen, s.version))
    case Wake => if s.waiter.Asleep? && s.waiter.channel < s.version then s.(waiter := Looking) else s
    case Cancel => if s.waiter.Asleep? then s.(waiter := Canceled) else s
    case Change(available, closes) => Changed(s, available, closes)
  }

  function Run(s: State, events: seq<Event>): State
    decreases |events|
  {
    if events == [] then s else Run(Next(s, events[0]), events[1..])
  }

  lemma {:induction false} RunSplits(s: State, a: seq<Event>, b: seq<Event>)
    ensures Run(s, a + b) == Run(Run(s, a), b)
    decreases |a|
  {
    if a == [] {
      assert a + b == b;
    } else {
      assert (a + b)[1..] == a[1..] + b;
      RunSplits(Next(s, a[0]), a[1..], b);
    }
  }

  // ---------------------------------------------------------------- what a sleeper knows

  /** What it looked at was empty, and is what there is unless a change came since. */
  predicate Honest(s: State) {
    match s.waiter
    case Missed(seen) => seen <= s.version && (seen == s.version ==> !s.available)
    case Asleep(seen, channel) => seen <= channel <= s.version && (seen == s.version ==> !s.available)
    case _ => true
  }

  /** Asleep although there is something to find, and nothing to wake it. */
  predicate Stranded(s: State) { s.waiter.Asleep? && s.waiter.channel == s.version && s.available }

  lemma {:induction false} RunHonest(s: State, events: seq<Event>)
    requires Honest(s)
    ensures Honest(Run(s, events))
    decreases |events|
  {
    if events != [] { RunHonest(Next(s, events[0]), events[1..]); }
  }

  /** In every run a waiter is stranded only by a change between its look and its subscription, with none since. */
  lemma StrandedNeedsGap(s: State, events: seq<Event>)
    requires s.waiter == Looking && Stranded(Run(s, events))
    ensures var w := Run(s, events).waiter; w.seen < w.channel == Run(s, events).version
  {
    RunHonest(s, events);
  }

  // ---------------------------------------------------------------- exactly when

  predicate OnlyChanges(events: seq<Event>) { forall i :: 0 <= i < |events| ==> events[i].Change? }

  predicate NoneCloses(events: seq<Event>) {
    forall i :: 0 <= i < |events| ==> !(events[i].Change? && events[i].closes)
  }

  lemma {:induction false} ChangesOnly(s: State, events: seq<Event>)
    requires OnlyChanges(events)
    ensures var t := Run(s, events);
            && t.version == s.version + |events| && t.waiter == s.waiter
               && (t.closed <==> s.closed || !NoneCloses(events))
            && t.available == if events == [] then s.available else events[|events| - 1].available
    decreases |events|
  {
    if events != [] {
      ChangesOnly(Next(s, events[0]), events[1..]);
      assert events == [events[0]] + events[1..];
    }
  }

  lemma RunOne(s: State, e: Event)
    ensures Run(s, [e]) == Next(s, e)
  {
    assert [e][1..] == [];
  }

  /**
   One wait, with any changes while it has looked and not subscribed and any after: it is
   stranded if and only if nothing changed after, something changed in between, the last
   of these left an admission to find, and none of them closed the registry.
   */
  lemma MissedExactly(s: State, gap: seq<Event>, after: seq<Event>)
    requires s.waiter == Looking && !s.available && !s.closed && OnlyChanges(gap) && OnlyChanges(after)
    ensures Stranded(Run(s, [Look] + gap + [Subscribe] + after)) <==>
            after == [] && gap != [] && gap[|gap| - 1].available && NoneCloses(gap)
  {
    var looked := Next(s, Look);
    var missed := Run(looked, gap);
    var asleep := Next(missed, Subscribe);
    RunOne(s, Look);
    RunOne(missed, Subscribe);
    RunSplits(s, [Look], gap);
    RunSplits(s, [Look] + gap, [Subscribe]);
    RunSplits(s, [Look] + gap + [Subscribe], after);
    ChangesOnly(looked, gap);
    ChangesOnly(asleep, after);
  }

  predicate Quiet(events: seq<Event>) { forall i :: 0 <= i < |events| ==> !events[i].Change? && !events[i].Cancel? }

  /** A stranded waiter stays so until the next change or its own cancellation. */
  lemma {:induction false} StrandedStays(s: State, events: seq<Event>)
    requires Stranded(s) && Quiet(events)
    ensures Run(s, events) == s
    decreases |events|
  {
    if events != [] {
      assert Next(s, events[0]) == s;
      StrandedStays(s, events[1..]);
    }
  }

  /** The next change that leaves something to find ends the wait. */
  lemma NextChangeServes(s: State, closes: bool)
    requires Stranded(s)
    ensures Run(s, [Change(true, closes), Wake, Look]).waiter == Served
  {
    var e := [Change(true, closes), Wake, Look];
    assert e[1..] == [Wake, Look] && [Wake, Look][1..] == [Look];
    RunOne(Next(Next(s, e[0]), Wake), Look);
  }
}
