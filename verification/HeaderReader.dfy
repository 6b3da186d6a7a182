/**
 The bounded response-header reader: a four-byte matcher that must stop exactly at
 the blank line that ends a header section (section 2.1 of RFC 9112).
 */
module HeaderReaders {
  type Byte = bv8

  const CR: Byte := 13
  const LF: Byte := 10
  const SEPARATOR: seq<Byte> := [CR, LF, CR, LF]

  datatype Reader = Reader(maximum: nat, read: nat, matched: nat, done: bool) {
    predicate Valid() { matched < 4 || done }
  }

  function Fresh(maximum: nat): Reader { Reader(maximum, 0, 0, false) }

  /** The matcher after one byte. */
  function Seen(r: Reader, b: Byte): Reader
    requires r.matched < 4
  {
    var m := Advanced(r.matched, b);
    r.(read := r.read + 1, matched := m, done := m == 4)
  }

  /** One delivery of the underlying stream: the reader after it, and whether it was refused. */
  function Take(r: Reader, bytes: seq<Byte>): (Reader, bool)
    requires r.Valid()
    decreases |bytes|
  {
    if r.done || bytes == [] then (r, false)
    else if r.read + 1 > r.maximum then (r.(read := r.read + 1), true)
    else Take(Seen(r, bytes[0]), bytes[1..])
  }

  // ---------------------------------------------------------------- independence of the split

  lemma {:induction false} TakeValid(r: Reader, bytes: seq<Byte>)
    requires r.Valid()
    ensures Take(r, bytes).0.Valid() && Take(r, bytes).0.maximum == r.maximum
    decreases |bytes|
  {
    if !r.done && bytes != [] && r.read + 1 <= r.maximum { TakeValid(Seen(r, bytes[0]), bytes[1..]); }
  }

  /** Two deliveries are one, as long as the first is not refused; a refusal of the first is a refusal of both. */
  lemma {:induction false} TakeSplits(r: Reader, a: seq<Byte>, b: seq<Byte>)
    requires r.Valid()
    ensures Take(r, a).0.Valid()
    ensures Take(r, a + b) == if Take(r, a).1 then Take(r, a) else Take(Take(r, a).0, b)
    decreases |a|
  {
    TakeValid(r, a);
    if a == [] {
      assert a + b == b;
    } else if !r.done && r.read + 1 <= r.maximum {
      assert (a + b)[1..] == a[1..] + b;
      TakeSplits(Seen(r, a[0]), a[1..], b);
    }
  }

  function Joined(chunks: seq<seq<Byte>>): seq<Byte> { if chunks == [] then [] else chunks[0] + Joined(chunks[1..]) }

  /** Deliveries in order, up to the first refusal. */
  function TakeAll(r: Reader, chunks: seq<seq<Byte>>): (Reader, bool)
    requires r.Valid()
    decreases |chunks|
  {
    TakeValidAlways(r);
    if chunks == [] then (r, false)
    else if Take(r, chunks[0]).1 then Take(r, chunks[0]) else TakeAll(Take(r, chunks[0]).0, chunks[1..])
  }

  lemma TakeValidAlways(r: Reader)
    requires r.Valid()
    ensures forall bytes :: Take(r, bytes).0.Valid()
  {
    forall bytes ensures Take(r, bytes).0.Valid() { TakeValid(r, bytes); }
  }

  /** However the stream is cut into reads, the reader ends in the same state with the same verdict. */
  lemma {:induction false} ChunkingIsInvisible(r: Reader, chunks: seq<seq<Byte>>)
    requires r.Valid()
    ensures TakeAll(r, chunks) == Take(r, Joined(chunks))
    decreases |chunks|
  {
    if chunks != [] {
      TakeSplits(r, chunks[0], Joined(chunks[1..]));
      if !Take(r, chunks[0]).1 { ChunkingIsInvisible(Take(r, chunks[0]).0, chunks[1..]); }
    }
  }

  // ---------------------------------------------------------------- what the matcher knows

  /** `w` ends with the first `k` bytes of the separator. */
  predicate EndsWith(w: seq<Byte>, k: nat)
    requires k <= 4
  {
    k <= |w| && w[|w| - k..] == SEPARATOR[..k]
  }

  lemma EndsWithOneMore(w: seq<Byte>, b: Byte, k: nat)
    requires k < 4
    ensures EndsWith(w + [b], k + 1) <==> EndsWith(w, k) && b == SEPARATOR[k]
  {
    var v := w + [b];
    assert SEPARATOR[..k + 1] == SEPARATOR[..k] + [SEPARATOR[k]];
    if k <= |w| {
      assert v[|v| - (k + 1)..] == w[|w| - k..] + [b];
    }
  }

  /** `m` is the longest such match. */
  predicate Longest(w: seq<Byte>, m: nat) { m <= 4 && EndsWith(w, m) && forall k :: m < k <= 4 ==> !EndsWith(w, k) }

  lemma LastBytes(w: seq<Byte>, m: nat)
    requires m <= 4 && EndsWith(w, m)
    ensures m >= 1 ==> w[|w| - 1] == SEPARATOR[m - 1]
    ensures m >= 2 ==> w[|w| - 2] == SEPARATOR[m - 2]
  {
    assert m >= 1 ==> w[|w| - m..][m - 1] == SEPARATOR[..m][m - 1];
    assert m >= 2 ==> w[|w| - m..][m - 2] == SEPARATOR[..m][m - 2];
  }

  /** On a mismatch only a match of length one can start again. */
  lemma NoShorterMatch(w: seq<Byte>, m: nat, b: Byte, k: nat)
    requires m < 4 && EndsWith(w, m) && b != SEPARATOR[m] && 1 <= k < 4 && k <= m
    ensures !EndsWith(w + [b], k + 1)
  {
    EndsWithOneMore(w, b, k);
    LastBytes(w, m);
    if EndsWith(w, k) { LastBytes(w, k); }
  }

  /** The length of the match after one more byte. */
  function Advanced(m: nat, b: Byte): nat
    requires m < 4
  {
    if b == SEPARATOR[m] then m + 1 else if b == CR then 1 else 0
  }

  lemma NoLongerMatch(w: seq<Byte>, m: nat, b: Byte, k: nat)
    requires m < 4 && Longest(w, m) && Advanced(m, b) < k <= 4
    ensures !EndsWith(w + [b], k)
  {
    EndsWithOneMore(w, b, k - 1);
    if b != SEPARATOR[m] && 1 <= k - 1 <= m {
      NoShorterMatch(w, m, b, k - 1);
    } else {
      assert SEPARATOR[0] == CR;
      assert k - 1 > m ==> !EndsWith(w, k - 1);
    }
  }

  lemma MatchMoves(w: seq<Byte>, m: nat, b: Byte)
    requires m < 4 && Longest(w, m)
    ensures Longest(w + [b], Advanced(m, b))
  {
    EndsWithOneMore(w, b, m);
    EndsWithOneMore(w, b, 0);
    assert EndsWith(w, 0) && EndsWith(w + [b], 0) && SEPARATOR[0] == CR;
    forall k | Advanced(m, b) < k <= 4 ensures !EndsWith(w + [b], k) { NoLongerMatch(w, m, b, k); }
  }

  /** The first place where the separator is complete. */
  predicate FirstEnd(w: seq<Byte>, e: nat) {
    e <= |w| && EndsWith(w[..e], 4) && forall j :: 0 <= j < e ==> !EndsWith(w[..j], 4)
  }

  predicate NoEnd(w: seq<Byte>, limit: nat) { forall j :: 0 <= j <= limit && j <= |w| ==> !EndsWith(w[..j], 4) }

  /** The reader has consumed `w` and not finished. */
  predicate Consumed(r: Reader, w: seq<Byte>) {
    !r.done && r.matched < 4 && r.read == |w| <= r.maximum && Longest(w, r.matched) && NoEnd(w, |w|)
  }

  lemma SeenConsumed(r: Reader, w: seq<Byte>, b: Byte)
    requires Consumed(r, w) && r.read + 1 <= r.maximum
    ensures var s := Seen(r, b);
            if s.done then FirstEnd(w + [b], |w| + 1) && s.read == |w| + 1 else Consumed(s, w + [b])
  {
    var v, s := w + [b], Seen(r, b);
    MatchMoves(w, r.matched, b);
    assert v[..|v|] == v;
    forall j | 0 <= j <= |w| ensures !EndsWith(v[..j], 4) { assert v[..j] == w[..j]; }
  }

  /**
   The right answer for a whole stream: finished exactly at its first separator, refused exactly
   when that is not within the maximum.
   */
  ghost predicate Right(maximum: nat, all: seq<Byte>, s: Reader, refused: bool) {
    && (s.done <==> exists e: nat :: e <= maximum && FirstEnd(all, e))
    && (s.done ==> FirstEnd(all, s.read))
    && (refused <==> |all| > maximum && NoEnd(all, maximum))
  }

  lemma RightWhenOpen(r: Reader, all: seq<Byte>)
    requires Consumed(r, all)
    ensures Right(r.maximum, all, r, false)
  {
  }

  lemma RightWhenRefused(r: Reader, w: seq<Byte>, rest: seq<Byte>)
    requires Consumed(r, w) && r.read + 1 > r.maximum && rest != []
    ensures Right(r.maximum, w + rest, r.(read := r.read + 1), true)
  {
    var all := w + rest;
    forall j | 0 <= j <= r.maximum && j <= |all| ensures !EndsWith(all[..j], 4) { assert all[..j] == w[..j]; }
  }

  lemma RightWhenDone(s: Reader, v: seq<Byte>, rest: seq<Byte>)
    requires s.done && FirstEnd(v, |v|) && s.read == |v| <= s.maximum
    ensures Right(s.maximum, v + rest, s, false)
  {
    var all := v + rest;
    assert all[..|v|] == v && v[..|v|] == v;
    forall j | 0 <= j < |v| ensures !EndsWith(all[..j], 4) { assert all[..j] == v[..j]; }
    assert FirstEnd(all, |v|);
    assert EndsWith(all[..|v|], 4);
  }

  /** From any point of a stream. */
  lemma {:induction false} TakeDecides(r: Reader, w: seq<Byte>, rest: seq<Byte>)
    requires Consumed(r, w)
    ensures Right(r.maximum, w + rest, Take(r, rest).0, Take(r, rest).1)
    decreases |rest|
  {
    if rest == [] {
      assert w + rest == w;
      RightWhenOpen(r, w);
    } else if r.read + 1 > r.maximum {
      RightWhenRefused(r, w, rest);
    } else {
      var v, s := w + [rest[0]], Seen(r, rest[0]);
      assert w + rest == v + rest[1..];
      SeenConsumed(r, w, rest[0]);
      if s.done { RightWhenDone(s, v, rest[1..]); } else { TakeDecides(s, v, rest[1..]); }
    }
  }

  /**
   For every stream and every way of cutting it into reads: the reader finishes exactly
   when the first CR LF CR LF ends within the maximum, and there; it refuses exactly when
   more than the maximum arrives without one.
   */
  lemma HeaderEndsExactly(maximum: nat, chunks: seq<seq<Byte>>)
    ensures var (s, refused) := TakeAll(Fresh(maximum), chunks); Right(maximum, Joined(chunks), s, refused)
  {
    var r, all := Fresh(maximum), Joined(chunks);
    ChunkingIsInvisible(r, chunks);
    assert Longest([], 0) && NoEnd([], 0);
    TakeDecides(r, [], all);
    assert [] + all == all;
  }

  // ---------------------------------------------------------------- the object

  class HeaderReader {
    const maximum: nat
    var read: nat
    var matched: nat
    var done: bool

    ghost function View(): Reader
      reads this
    {
      Reader(maximum, read, matched, done)
    }

    constructor (maximum: nat)
      ensures View() == Fresh(maximum)
    {
      this.maximum := maximum;
      read, matched, done := 0, 0, false;
    }

    /** Watch the `n` bytes just delivered into the caller's buffer; the buffer itself is not touched. */
    method Read(payload: array<Byte>, n: nat) returns (count: nat, refused: bool)
      requires View().Valid() && n <= payload.Length
      modifies `read, `matched, `done
      ensures View().Valid() && (View(), refused) == Take(old(View()), payload[..n])
      ensures count == if refused then 0 else n
    {
      if done || n == 0 { return n, false; }
      var i := 0;
      while i < n && !done
        invariant 0 <= i <= n && View().Valid() && Take(old(View()), payload[..n]) == Take(View(), payload[i..n])
      {
        assert payload[i..n][0] == payload[i] && payload[i..n][1..] == payload[i + 1..n];
        read := read + 1;
        if read > maximum { return 0, true; }
        if payload[i] == SEPARATOR[matched] {
          matched := matched + 1;
          if matched == 4 { done := true; }
        } else if payload[i] == CR {
          matched := 1;
        } else {
          matched := 0;
        }
        i := i + 1;
      }
      return n, false;
    }
  }
}
