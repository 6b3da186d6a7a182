/** Two-phase preview admissions: stage a pull, mark it admitted on the acknowledgement, then commit it. */
module Admissions {
  import Strings

  /** `body` stands for every durable field besides the key and the process epoch. */
  datatype Expected = Expected(operation: string, route: string, epoch: string, body: string, admitted: bool)

  /** The value a map yields for an absent key. */
  const ZERO := Expected("", "", "", "", false)

  function Key(a: Expected): string { Strings.Join([a.operation, a.route]) }

  predicate ExactEqual(a: Expected, b: Expected) { a.(admitted := b.admitted) == b }

  /** An admission of a pull, with the verdict of its field checks at that time. */
  datatype Pulled = Pulled(a: Expected, valid: bool)

  datatype Outcome = Taken | BadInput | Clash | IsShut

  datatype Registry = Registry(epoch: string, maximum: nat, closed: bool, byKey: map<string, Expected>,
      pending: map<string, Expected>)

  /** The first fault of a pull in list order. */
  function Screen(epoch: string, xs: seq<Pulled>): Outcome {
    if xs == [] then Taken
    else
      var n := |xs| - 1;
      if Screen(epoch, xs[..n]) != Taken then Screen(epoch, xs[..n])
      else if !xs[n].valid then BadInput
      else if xs[n].a.epoch != epoch then Clash
      else if Key(xs[n].a) in Staged(xs[..n]) then Clash
      else Taken
  }

  function Staged(xs: seq<Pulled>): map<string, Expected> {
    if xs == [] then map[] else var a := xs[|xs| - 1].a; Staged(xs[..|xs| - 1])[Key(a) := a.(admitted := false)]
  }

  /** Staged values go in wherever nothing admitted stands. */
  function Overlaid(byKey: map<string, Expected>, next: map<string, Expected>): map<string, Expected> {
    map k | k in byKey.Keys + next.Keys :: if k in next && !(k in byKey && byKey[k].admitted) then next[k] else byKey[k]
  }

  function InstallPending(r: Registry, xs: seq<Pulled>): (Registry, Outcome) {
    if |xs| > r.maximum then (r, Clash)
    else if Screen(r.epoch, xs) != Taken then (r, Screen(r.epoch, xs))
    else if r.closed then (r, IsShut)
    else (r.(pending := Staged(xs), byKey := Overlaid(r.byKey, Staged(xs))), Taken)
  }

  predicate Matches(m: map<string, Expected>, a: Expected) { Key(a) in m && ExactEqual(m[Key(a)], a) }

  /** Move one admission from the pending set; an absent one reads as the zero value. */
  function MarkOne(r: Registry, a: Expected): Registry {
    var v := if Key(a) in r.pending then r.pending[Key(a)] else ZERO;
    r.(byKey := r.byKey[Key(a) := v.(admitted := true)], pending := r.pending - {Key(a)})
  }

  function MarkAll(r: Registry, xs: seq<Expected>): Registry {
    if xs == [] then r else MarkOne(MarkAll(r, xs[..|xs| - 1]), xs[|xs| - 1])
  }

  function MarkAdmitted(r: Registry, xs: seq<Expected>): (Registry, Outcome) {
    if r.closed then (r, IsShut)
    else if exists i :: 0 <= i < |xs| && !Matches(r.pending, xs[i]) then (r, Clash)
    else (MarkAll(r, xs), Taken)
  }

  function ByKey(xs: seq<Expected>): map<string, Expected> {
    if xs == [] then map[] else ByKey(xs[..|xs| - 1])[Key(xs[|xs| - 1]) := xs[|xs| - 1]]
  }

  predicate Ready(byKey: map<string, Expected>, k: string, a: Expected) {
    k in byKey && byKey[k].admitted && ExactEqual(byKey[k], a)
  }

  function Commit(r: Registry, xs: seq<Expected>): (Registry, Outcome) {
    if exists i :: 0 <= i < |xs| && !xs[i].admitted then (r, Clash)
    else if r.closed then (r, IsShut)
    else if exists k :: k in ByKey(xs) && !Ready(r.byKey, k, ByKey(xs)[k]) then (r, Clash)
    else (r.(byKey := ByKey(xs), pending := map[]), Taken)
  }

  function Remove(r: Registry, a: Expected): (Registry, Outcome) {
    if Key(a) !in r.byKey then (r, Taken)
    else if !ExactEqual(r.byKey[Key(a)], a) then (r, Clash)
    else (r.(byKey := r.byKey - {Key(a)}), Taken)
  }

  // ---------------------------------------------------------------- what a carrier may use

  /** The admissions that authorize a carrier. */
  function Usable(r: Registry): map<string, Expected> { map k | k in r.byKey && r.byKey[k].admitted :: r.byKey[k] }

  /** Staging a pull never changes what is usable, whatever the pull holds. */
  lemma StagingChangesNothingUsable(r: Registry, xs: seq<Pulled>)
    ensures Usable(InstallPending(r, xs).0) == Usable(r)
  {
    var q := InstallPending(r, xs).0;
    if q != r { StagedNotAdmitted(xs); }
    assert forall k :: k in Usable(q) <==> k in Usable(r);
  }

  lemma {:induction false} StagedNotAdmitted(xs: seq<Pulled>)
    ensures forall k :: k in Staged(xs) ==> !Staged(xs)[k].admitted
  {
    if xs != [] { StagedNotAdmitted(xs[..|xs| - 1]); }
  }

  // ---------------------------------------------------------------- keys of a pull

  predicate Distinct(xs: seq<Expected>) { forall i, j :: 0 <= i < j < |xs| ==> Key(xs[i]) != Key(xs[j]) }

  /** The admissions of a pull as the acknowledgement lists them. */
  function Listed(xs: seq<Pulled>): seq<Expected> { seq(|xs|, i requires 0 <= i < |xs| => xs[i].a) }

  /** The same, as they are committed. */
  function Marked(xs: seq<Expected>): seq<Expected> { seq(|xs|, i requires 0 <= i < |xs| => xs[i].(admitted := true)) }

  lemma {:induction false} StagedHolds(xs: seq<Pulled>, i: nat)
    requires i < |xs|
    ensures Key(xs[i].a) in Staged(xs)
  {
    if i < |xs| - 1 { StagedHolds(xs[..|xs| - 1], i); }
  }

  lemma {:induction false} StagedFrom(xs: seq<Pulled>, k: string)
    requires k in Staged(xs)
    ensures exists i :: 0 <= i < |xs| && Key(xs[i].a) == k
  {
    var n := |xs| - 1;
    if k != Key(xs[n].a) {
      StagedFrom(xs[..n], k);
      var i :| 0 <= i < n && Key(xs[..n][i].a) == k;
      assert Key(xs[i].a) == k;
    }
  }

  /** A screened pull has distinct keys, and stages each admission under its own. */
  lemma {:induction false} ScreenedIsDistinct(epoch: string, xs: seq<Pulled>)
    requires Screen(epoch, xs) == Taken
    ensures Distinct(Listed(xs))
    ensures forall i :: 0 <= i < |xs| ==>
            Key(xs[i].a) in Staged(xs) && Staged(xs)[Key(xs[i].a)] == xs[i].a.(admitted := false)
  {
    if xs != [] {
      var n := |xs| - 1;
      var ys := xs[..n];
      ScreenedIsDistinct(epoch, ys);
      forall i | 0 <= i < n ensures Key(xs[i].a) != Key(xs[n].a) {
        StagedHolds(ys, i);
        assert ys[i] == xs[i];
      }
      forall i, j | 0 <= i < j < |xs| ensures Key(Listed(xs)[i]) != Key(Listed(xs)[j]) {
        if j < n { assert Listed(ys)[i] == Listed(xs)[i] && Listed(ys)[j] == Listed(xs)[j]; }
      }
      forall i | 0 <= i < |xs| ensures Key(xs[i].a) in Staged(xs)
          && Staged(xs)[Key(xs[i].a)] == xs[i].a.(admitted := false) {
        if i < n { assert ys[i] == xs[i]; }
      }
    }
  }

  // ---------------------------------------------------------------- marking

  predicate AllMatch(pending: map<string, Expected>, xs: seq<Expected>) {
    forall i :: 0 <= i < |xs| ==> Matches(pending, xs[i])
  }

  lemma {:induction false} MarkAllKeys(r: Registry, xs: seq<Expected>, k: string)
    requires forall i :: 0 <= i < |xs| ==> Key(xs[i]) != k
    ensures (k in MarkAll(r, xs).byKey <==> k in r.byKey) && (k in r.byKey ==> MarkAll(r, xs).byKey[k] == r.byKey[k])
    ensures (k in MarkAll(r, xs).pending <==> k in r.pending)
            && (k in r.pending ==> MarkAll(r, xs).pending[k] == r.pending[k])
  {
    if xs != [] { MarkAllKeys(r, xs[..|xs| - 1], k); }
  }

  /** With distinct keys every listed admission ends up admitted with its own content. */
  lemma {:induction false} MarkAllDistinct(r: Registry, xs: seq<Expected>, i: nat)
    requires AllMatch(r.pending, xs) && Distinct(xs) && i < |xs|
    ensures var b := MarkAll(r, xs).byKey; Key(xs[i]) in b && b[Key(xs[i])] == xs[i].(admitted := true)
    decreases |xs|
  {
    var n := |xs| - 1;
    if i < n {
      MarkAllDistinct(r, xs[..n], i);
      assert Key(xs[i]) != Key(xs[n]);
    } else {
      MarkAllKeys(r, xs[..n], Key(xs[n]));
      assert Matches(r.pending, xs[n]);
    }
  }

  lemma {:induction false} MarkedIsNotPending(r: Registry, xs: seq<Expected>, i: nat)
    requires i < |xs|
    ensures Key(xs[i]) !in MarkAll(r, xs).pending
    decreases |xs|
  {
    if i < |xs| - 1 { MarkedIsNotPending(r, xs[..|xs| - 1], i); }
  }

  /** A repeated key overwrites its admission with the zero value, marked admitted. */
  lemma {:induction false} RepeatedKeyIsLost(r: Registry, xs: seq<Expected>, i: nat, j: nat)
    requires i < j < |xs| && Key(xs[i]) == Key(xs[j])
    ensures var b := MarkAll(r, xs).byKey; Key(xs[j]) in b && b[Key(xs[j])] == ZERO.(admitted := true)
    decreases |xs|
  {
    var n := |xs| - 1;
    if Key(xs[n]) == Key(xs[j]) {
      MarkedIsNotPending(r, xs[..n], i);
    } else {
      RepeatedKeyIsLost(r, xs[..n], i, j);
    }
  }

  /** An accepted acknowledgement admits exactly what it lists if and only if its keys are distinct. */
  lemma MarkAdmittedExactly(r: Registry, xs: seq<Expected>)
    requires MarkAdmitted(r, xs).1 == Taken && forall i :: 0 <= i < |xs| ==> xs[i].operation != ""
    ensures var b := MarkAdmitted(r, xs).0.byKey;
            (forall i :: 0 <= i < |xs| ==> Key(xs[i]) in b && b[Key(xs[i])] == xs[i].(admitted := true))
                <==> Distinct(xs)
  {
    var b := MarkAll(r, xs).byKey;
    if Distinct(xs) {
      forall i | 0 <= i < |xs| ensures Key(xs[i]) in b && b[Key(xs[i])] == xs[i].(admitted := true) {
        MarkAllDistinct(r, xs, i);
      }
    } else {
      var i, j :| 0 <= i < j < |xs| && Key(xs[i]) == Key(xs[j]);
      RepeatedKeyIsLost(r, xs, i, j);
    }
  }

  // ---------------------------------------------------------------- one whole pull

  lemma {:induction false} ByKeyHolds(xs: seq<Expected>, i: nat)
    requires Distinct(xs) && i < |xs|
    ensures Key(xs[i]) in ByKey(xs) && ByKey(xs)[Key(xs[i])] == xs[i]
    decreases |xs|
  {
    if i < |xs| - 1 { ByKeyHolds(xs[..|xs| - 1], i); }
  }

  lemma {:induction false} ByKeyFrom(xs: seq<Expected>, k: string)
    requires k in ByKey(xs)
    ensures exists i :: 0 <= i < |xs| && Key(xs[i]) == k && ByKey(xs)[k] == xs[i]
  {
    var n := |xs| - 1;
    if k != Key(xs[n]) {
      ByKeyFrom(xs[..n], k);
      var i :| 0 <= i < n && Key(xs[..n][i]) == k && ByKey(xs[..n])[k] == xs[..n][i];
      assert Key(xs[i]) == k && ByKey(xs)[k] == xs[i];
    } else {
      assert ByKey(xs)[k] == xs[n];
    }
  }

  /** The acknowledgement of a staged pull is accepted. */
  lemma MarkAccepted(r: Registry, xs: seq<Pulled>)
    requires InstallPending(r, xs).1 == Taken
    ensures MarkAdmitted(InstallPending(r, xs).0, Listed(xs)).1 == Taken
  {
    ScreenedIsDistinct(r.epoch, xs);
    var p := InstallPending(r, xs).0.pending;
    forall i | 0 <= i < |xs| ensures Matches(p, Listed(xs)[i]) { assert Listed(xs)[i] == xs[i].a; }
  }

  lemma MarkedDistinct(xs: seq<Expected>)
    requires Distinct(xs)
    ensures Distinct(Marked(xs))
  {
    forall i, j | 0 <= i < j < |xs| ensures Key(Marked(xs)[i]) != Key(Marked(xs)[j]) {
      assert Key(xs[i]) != Key(xs[j]);
    }
  }

  /** Committing what was marked is accepted, and leaves exactly the pull, all admitted. */
  lemma CommitAccepted(r: Registry, xs: seq<Expected>)
    requires !r.closed && Distinct(xs) && AllMatch(r.pending, xs)
    ensures Commit(MarkAll(r, xs), Marked(xs)) == (MarkAll(r, xs).(byKey := ByKey(Marked(xs)), pending := map[]), Taken)
  {
    MarkedDistinct(xs);
    MarkAllKeepsClosed(r, xs);
    var m := MarkAll(r, xs);
    forall k | k in ByKey(Marked(xs)) ensures Ready(m.byKey, k, ByKey(Marked(xs))[k]) {
      ByKeyFrom(Marked(xs), k);
      var i :| 0 <= i < |xs| && Key(Marked(xs)[i]) == k && ByKey(Marked(xs))[k] == Marked(xs)[i];
      MarkAllDistinct(r, xs, i);
    }
  }

  lemma {:induction false} MarkAllKeepsClosed(r: Registry, xs: seq<Expected>)
    ensures var m := MarkAll(r, xs); m.closed == r.closed && m.epoch == r.epoch && m.maximum == r.maximum
  {
    if xs != [] { MarkAllKeepsClosed(r, xs[..|xs| - 1]); }
  }

  /** The three registries of one pull. */
  datatype Phases = Phases(staged: Registry, marked: Registry, done: Registry)

  function PullOnce(r: Registry, xs: seq<Pulled>): Phases {
    var staged := InstallPending(r, xs).0;
    var marked := MarkAdmitted(staged, Listed(xs)).0;
    Phases(staged, marked, Commit(marked, Marked(Listed(xs))).0)
  }

  /** After an accepted pull every step succeeds, and the registry holds exactly the pull, admitted. */
  lemma PullEndsExactly(r: Registry, xs: seq<Pulled>)
    requires InstallPending(r, xs).1 == Taken
    ensures var p := PullOnce(r, xs);
            && MarkAdmitted(p.staged, Listed(xs)).1 == Taken && Commit(p.marked, Marked(Listed(xs))).1 == Taken
            && p.done.pending == map[]
            && (forall i :: 0 <= i < |xs| ==>
               Key(xs[i].a) in p.done.byKey && p.done.byKey[Key(xs[i].a)] == xs[i].a.(admitted := true))
            && (forall k :: k in p.done.byKey ==> exists i :: 0 <= i < |xs| && Key(xs[i].a) == k)
  {
    var p, ys := PullOnce(r, xs), Listed(xs);
    MarkAccepted(r, xs);
    ScreenedIsDistinct(r.epoch, xs);
    CommitAccepted(p.staged, ys);
    MarkedDistinct(ys);
    forall i | 0 <= i < |xs| ensures Key(xs[i].a) in p.done.byKey
        && p.done.byKey[Key(xs[i].a)] == xs[i].a.(admitted := true) {
      ByKeyHolds(Marked(ys), i);
      assert Marked(ys)[i] == xs[i].a.(admitted := true);
    }
    forall k | k in p.done.byKey ensures exists i :: 0 <= i < |xs| && Key(xs[i].a) == k {
      ByKeyFrom(Marked(ys), k);
      var i :| 0 <= i < |Marked(ys)| && Key(Marked(ys)[i]) == k && ByKey(Marked(ys))[k] == Marked(ys)[i];
      assert Key(xs[i].a) == k;
    }
  }

  /** An admission that the pull repeats unchanged is usable, with the same content, at every step. */
  lemma UnchangedStaysUsable(r: Registry, xs: seq<Pulled>, i: nat)
    requires InstallPending(r, xs).1 == Taken && i < |xs|
    requires Ready(r.byKey, Key(xs[i].a), xs[i].a)
    ensures var p, k := PullOnce(r, xs), Key(xs[i].a);
            && k in p.staged.byKey && p.staged.byKey[k] == r.byKey[k]
            && k in p.marked.byKey && p.marked.byKey[k] == r.byKey[k]
            && k in p.done.byKey && p.done.byKey[k] == r.byKey[k]
  {
    PullEndsExactly(r, xs);
    ScreenedIsDistinct(r.epoch, xs);
    MarkAccepted(r, xs);
    assert Listed(xs)[i] == xs[i].a;
    MarkAllDistinct(PullOnce(r, xs).staged, Listed(xs), i);
  }

  /**
   What is usable changes only at the acknowledgement: before it nothing, and nothing is dropped
   before the commit.
   */
  lemma UsableUntilCommit(r: Registry, xs: seq<Pulled>, k: string)
    requires InstallPending(r, xs).1 == Taken && k in Usable(r)
    ensures Usable(PullOnce(r, xs).staged) == Usable(r)
    ensures k in Usable(PullOnce(r, xs).marked)
  {
    StagingChangesNothingUsable(r, xs);
    ScreenedIsDistinct(r.epoch, xs);
    MarkAccepted(r, xs);
    var s, ys := PullOnce(r, xs).staged, Listed(xs);
    assert k in Usable(s);
    if exists i :: 0 <= i < |ys| && Key(ys[i]) == k {
      var i :| 0 <= i < |ys| && Key(ys[i]) == k;
      MarkAllDistinct(s, ys, i);
    } else {
      MarkAllKeys(s, ys, k);
    }
  }
}
