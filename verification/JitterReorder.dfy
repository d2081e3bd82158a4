/** Bounded reordering is invisible: the jitter buffer against the in-order stream. */
module JitterReorder {
  import opened Prelude
  import opened JitterBuffer
  import opened JitterTheorems

  /** The packets that have arrived at or after `s`, the first arrival of each sequence number. */
  function Stream(arrivals: seq<AudioPacket>, s: U64): map<U64, AudioPacket> {
    if arrivals == [] then map[]
    else
      var m := Stream(arrivals[..|arrivals| - 1], s);
      var p := Last(arrivals);
      if p.number < s || p.number == U64_MAX || p.number in m then m else m[p.number := p]
  }

  function Above(m: map<U64, AudioPacket>, n: U64): set<U64> {
    set k | k in m && k > n
  }

  /** At most `delay` successors of any still missing sequence have arrived. */
  ghost predicate Tolerable(m: map<U64, AudioPacket>, s: U64, delay: nat) {
    forall n: U64 :: s <= n && n !in m ==> |Above(m, n)| <= delay
  }

  /** At every moment: each packet arrives after at most `delay` of its successors. */
  ghost predicate BoundedReorder(arrivals: seq<AudioPacket>, s: U64, delay: nat) {
    forall i :: 0 <= i <= |arrivals| ==> Tolerable(Stream(arrivals[..i], s), s, delay)
  }

  /** Playout started at `s`: after every arrival, pop until nothing comes. */
  function Play(capacity: nat, delay: nat, s: U64, arrivals: seq<AudioPacket>): (r: (Buffer, seq<PopOutcome>))
    requires 0 < capacity <= MAX_JITTER_PACKETS && delay < capacity && s < U64_MAX
    ensures Valid(r.0)
  {
    if arrivals == [] then (StartAt(Empty(capacity, delay), s).value, [])
    else
      var (b, out) := Play(capacity, delay, s, arrivals[..|arrivals| - 1]);
      var p := Last(arrivals);
      if p.number == U64_MAX then (b, out)
      else
        PushValid(b, p);
        var (b', more) := Drain(Push(b, p).0);
        (b', out + more)
  }

  predicate Clean(out: seq<PopOutcome>) {
    forall i :: 0 <= i < |out| ==> out[i].Played?
  }

  /** The buffer holds exactly the part of the stream that playout has not reached. */
  ghost predicate Holds(b: Buffer, m: map<U64, AudioPacket>, s: U64) {
    && b.next.Some? && s <= b.next.value
    && (forall n: U64 :: s <= n < b.next.value ==> n in m)
    && (forall k: U64 :: k in b.packets <==> k in m && k >= b.next.value)
    && (forall k: U64 :: k in b.packets ==> b.packets[k] == m[k])
  }

  predicate PlaysAt(out: seq<PopOutcome>, m: map<U64, AudioPacket>, start: nat, i: nat) {
    i < |out| && start + i in m && out[i] == Played(m[start + i])
  }

  /** `out` is the stream from `start` up to `end`, in order and complete. */
  ghost predicate InOrder(out: seq<PopOutcome>, m: map<U64, AudioPacket>, start: nat, end: nat) {
    |out| == end - start && forall i :: 0 <= i < |out| ==> PlaysAt(out, m, start, i)
  }

  /** At rest: the next packet is missing, and no more than `delay` successors wait for it. */
  ghost predicate AtRest(b: Buffer, m: map<U64, AudioPacket>, s: U64) {
    Holds(b, m, s) && b.next.value !in m && |b.packets| <= b.delay
  }

  lemma PushHolds(b: Buffer, p: AudioPacket, m: map<U64, AudioPacket>, s: U64)
    requires Valid(b) && Holds(b, m, s) && |b.packets| < b.capacity && p.number < U64_MAX
    ensures var m' := if p.number < s || p.number in m then m else m[p.number := p];
            var b' := Push(b, p).0;
            Holds(b', m', s) && b'.next == b.next && b'.gaps == b.gaps && b'.overflow == b.overflow
            && b'.delay == b.delay && b'.capacity == b.capacity
  {
  }

  lemma HeldAbove(b: Buffer, m: map<U64, AudioPacket>, s: U64)
    requires Valid(b) && Holds(b, m, s) && b.next.value !in m
    ensures b.packets.Keys == Above(m, b.next.value)
  {
  }

  /** One pop plays the next packet of the stream, or there is none to play. */
  lemma PopHolds(b: Buffer, m: map<U64, AudioPacket>, s: U64)
    requires Valid(b) && Holds(b, m, s)
    ensures var (b', o) := Pop(b);
            && b'.overflow == b.overflow && b'.delay == b.delay && b'.capacity == b.capacity
            && (b.next.value in m <==> o.Some? && o.value.Played?)
            && (b.next.value in m ==>
                  o.value == Played(m[b.next.value]) && b'.next == Some(b.next.value + 1)
                  && Holds(b', m, s) && b'.gaps == b.gaps)
            && (o.None? ==> b' == b && AtRest(b, m, s))
            && (o.Some? && !o.value.Played? ==> b.next.value !in m && |Above(m, b.next.value)| > b.delay)
  {
    if b.next.value !in m {
      HeldAbove(b, m, s);
    }
  }

  lemma DrainUnfolds(b: Buffer)
    requires Valid(b) && Pop(b).1.Some?
    ensures Valid(Pop(b).0) && Budget(Pop(b).0) < Budget(b)
    ensures Drain(b) == (Drain(Pop(b).0).0, [Pop(b).1.value] + Drain(Pop(b).0).1)
  {
    PopSpends(b);
  }

  ghost predicate Drained(b: Buffer, b': Buffer, out: seq<PopOutcome>, m: map<U64, AudioPacket>, s: U64) {
    && b.next.Some? && AtRest(b', m, s) && InOrder(out, m, b.next.value, b'.next.value)
    && b'.gaps == b.gaps && b'.overflow == b.overflow && b'.delay == b.delay && b'.capacity == b.capacity
  }

  /** Draining plays the stream up to its first missing packet, cleanly exactly as long as no more than
      `delay` successors of that packet have arrived. */
  lemma {:induction false} DrainHolds(b: Buffer, m: map<U64, AudioPacket>, s: U64)
    requires Valid(b) && Holds(b, m, s)
    ensures Tolerable(m, s, b.delay) ==> Clean(Drain(b).1)
    ensures Clean(Drain(b).1) ==> Drained(b, Drain(b).0, Drain(b).1, m, s)
    decreases Budget(b)
  {
    PopHolds(b, m, s);
    var (b1, o) := Pop(b);
    if o.Some? {
      DrainUnfolds(b);
      if o.value.Played? {
        DrainHolds(b1, m, s);
        DrainPlays(b, b1, Drain(b1).0, o.value, Drain(b1).1, m, s);
      } else {
        assert Drain(b).1[0] == o.value;
      }
    }
  }

  lemma DrainPlays(b: Buffer, b1: Buffer, b': Buffer, o: PopOutcome, rest: seq<PopOutcome>,
                   m: map<U64, AudioPacket>, s: U64)
    requires b.next.Some? && b1.next == Some(b.next.value + 1) && b.next.value in m && o == Played(m[b.next.value])
    requires b1.gaps == b.gaps && b1.overflow == b.overflow && b1.delay == b.delay && b1.capacity == b.capacity
    requires Clean(rest) ==> Drained(b1, b', rest, m, s)
    ensures Clean(rest) <==> Clean([o] + rest)
    ensures Clean([o] + rest) ==> Drained(b, b', [o] + rest, m, s)
  {
    Prepend(o, rest, m, b.next.value, if b'.next.Some? then b'.next.value else 0);
  }

  lemma Prepend(o: PopOutcome, rest: seq<PopOutcome>, m: map<U64, AudioPacket>, start: nat, end: nat)
    requires start in m && o == Played(m[start])
    ensures Clean([o] + rest) ==> Clean(rest)
    ensures Clean(rest) ==> Clean([o] + rest)
    ensures InOrder(rest, m, start + 1, end) ==> InOrder([o] + rest, m, start, end)
  {
    var all := [o] + rest;
    assert forall i :: 0 <= i < |rest| ==> all[i + 1] == rest[i];
    if InOrder(rest, m, start + 1, end) {
      forall i | 0 <= i < |all|
        ensures PlaysAt(all, m, start, i)
      {
        if i > 0 {
          assert PlaysAt(rest, m, start + 1, i - 1);
        }
      }
    }
  }

  ghost predicate Faithful(b: Buffer, out: seq<PopOutcome>, m: map<U64, AudioPacket>, s: U64) {
    AtRest(b, m, s) && InOrder(out, m, s, b.next.value) && b.gaps == 0 && b.overflow == 0
  }

  /** While playout has been clean, it is the in-order stream so far. */
  lemma {:induction false} CleanIsFaithful(capacity: nat, delay: nat, s: U64, arrivals: seq<AudioPacket>)
    requires 0 < capacity <= MAX_JITTER_PACKETS && delay < capacity && s < U64_MAX
    requires Clean(Play(capacity, delay, s, arrivals).1)
    ensures var (b, out) := Play(capacity, delay, s, arrivals);
            Faithful(b, out, Stream(arrivals, s), s) && b.delay == delay && b.capacity == capacity
  {
    if arrivals != [] {
      var init := arrivals[..|arrivals| - 1];
      var (b, out) := Play(capacity, delay, s, init);
      assert Clean(out) by {
        assert forall i :: 0 <= i < |out| ==> Play(capacity, delay, s, arrivals).1[i] == out[i];
      }
      CleanIsFaithful(capacity, delay, s, init);
      if Last(arrivals).number != U64_MAX {
        ArrivalFaithful(b, out, Last(arrivals), Stream(init, s), s);
        var (_, more) := Drain(Push(b, Last(arrivals)).0);
        assert Clean(more) by {
          assert forall i :: 0 <= i < |more| ==> (out + more)[|out| + i] == more[i];
        }
      }
    }
  }

  /** One arrival and its drain, from a faithful position. */
  lemma ArrivalFaithful(b: Buffer, out: seq<PopOutcome>, p: AudioPacket, m: map<U64, AudioPacket>, s: U64)
    requires Valid(b) && Faithful(b, out, m, s) && p.number < U64_MAX
    ensures Valid(Push(b, p).0)
    ensures var m' := if p.number < s || p.number in m then m else m[p.number := p];
            var (b', more) := Drain(Push(b, p).0);
            && (Tolerable(m', s, b.delay) ==> Clean(more))
            && (Clean(more) ==> Faithful(b', out + more, m', s) && b'.delay == b.delay && b'.capacity == b.capacity)
  {
    PushValid(b, p);
    PushHolds(b, p, m, s);
    var m' := if p.number < s || p.number in m then m else m[p.number := p];
    var b1 := Push(b, p).0;
    DrainHolds(b1, m', s);
    var (b', more) := Drain(b1);
    if Clean(more) {
      Concat(out, more, m, m', s, b.next.value, b'.next.value);
    }
  }

  lemma Concat(out: seq<PopOutcome>, more: seq<PopOutcome>, m: map<U64, AudioPacket>, m': map<U64, AudioPacket>,
               start: nat, mid: nat, end: nat)
    requires InOrder(out, m, start, mid) && InOrder(more, m', mid, end)
    requires forall k :: k in m ==> k in m' && m'[k] == m[k]
    ensures InOrder(out + more, m', start, end)
  {
    forall i | 0 <= i < |out + more|
      ensures PlaysAt(out + more, m', start, i)
    {
      if i < |out| {
        assert PlaysAt(out, m, start, i);
      } else {
        assert PlaysAt(more, m', mid, i - |out|);
      }
    }
  }

  lemma {:induction false} ToleratedIsClean(capacity: nat, delay: nat, s: U64, arrivals: seq<AudioPacket>)
    requires 0 < capacity <= MAX_JITTER_PACKETS && delay < capacity && s < U64_MAX
    requires BoundedReorder(arrivals, s, delay)
    ensures Clean(Play(capacity, delay, s, arrivals).1)
  {
    if arrivals != [] {
      var init := arrivals[..|arrivals| - 1];
      forall i | 0 <= i <= |init|
        ensures Tolerable(Stream(init[..i], s), s, delay)
      {
        assert init[..i] == arrivals[..i];
      }
      ToleratedIsClean(capacity, delay, s, init);
      CleanIsFaithful(capacity, delay, s, init);
      if Last(arrivals).number != U64_MAX {
        var (b, out) := Play(capacity, delay, s, init);
        assert arrivals[..|arrivals|] == arrivals;
        ArrivalFaithful(b, out, Last(arrivals), Stream(init, s), s);
      }
    }
  }

  lemma RestIsTolerable(b: Buffer, m: map<U64, AudioPacket>, s: U64)
    requires Valid(b) && AtRest(b, m, s)
    ensures Tolerable(m, s, b.delay)
  {
    HeldAbove(b, m, s);
    forall n: U64 | s <= n && n !in m
      ensures |Above(m, n)| <= b.delay
    {
      assert b.next.value <= n;
      SubsetSize(Above(m, n), Above(m, b.next.value));
    }
  }

  lemma {:induction false} CleanIsBounded(capacity: nat, delay: nat, s: U64, arrivals: seq<AudioPacket>)
    requires 0 < capacity <= MAX_JITTER_PACKETS && delay < capacity && s < U64_MAX
    requires Clean(Play(capacity, delay, s, arrivals).1)
    ensures BoundedReorder(arrivals, s, delay)
  {
    CleanIsFaithful(capacity, delay, s, arrivals);
    RestIsTolerable(Play(capacity, delay, s, arrivals).0, Stream(arrivals, s), s);
    assert arrivals[..|arrivals|] == arrivals;
    if arrivals != [] {
      var init := arrivals[..|arrivals| - 1];
      var out := Play(capacity, delay, s, init).1;
      assert Clean(out) by {
        assert forall i :: 0 <= i < |out| ==> Play(capacity, delay, s, arrivals).1[i] == out[i];
      }
      CleanIsBounded(capacity, delay, s, init);
      forall i | 0 <= i <= |arrivals|
        ensures Tolerable(Stream(arrivals[..i], s), s, delay)
      {
        if i < |arrivals| {
          assert arrivals[..i] == init[..i];
        }
      }
    }
  }

  /** Bounded reordering is invisible, and nothing more is: draining after every arrival reports no gap
      and no discontinuity if and only if each packet arrives after at most `target_delay` of its
      successors. Then the outcomes are exactly the in-order stream up to its first missing packet,
      late copies and duplicates notwithstanding, with no overflow. */
  lemma ReorderingInvisible(capacity: nat, delay: nat, s: U64, arrivals: seq<AudioPacket>)
    requires 0 < capacity <= MAX_JITTER_PACKETS && delay < capacity && s < U64_MAX
    ensures var (b, out) := Play(capacity, delay, s, arrivals);
            && (Clean(out) <==> BoundedReorder(arrivals, s, delay))
            && (Clean(out) ==> Faithful(b, out, Stream(arrivals, s), s))
  {
    if BoundedReorder(arrivals, s, delay) {
      ToleratedIsClean(capacity, delay, s, arrivals);
    }
    if Clean(Play(capacity, delay, s, arrivals).1) {
      CleanIsBounded(capacity, delay, s, arrivals);
      CleanIsFaithful(capacity, delay, s, arrivals);
    }
  }

  /** A whole stream, boundedly reordered, comes out whole and in order, and the buffer is left empty. */
  lemma WholeStream(capacity: nat, delay: nat, s: U64, end: U64, arrivals: seq<AudioPacket>)
    requires 0 < capacity <= MAX_JITTER_PACKETS && delay < capacity && s <= end && s < U64_MAX
    requires BoundedReorder(arrivals, s, delay)
    requires forall n: U64 :: n in Stream(arrivals, s) <==> s <= n < end
    ensures var (b, out) := Play(capacity, delay, s, arrivals);
            InOrder(out, Stream(arrivals, s), s, end) && b.packets == map[] && b.gaps == 0 && b.overflow == 0
  {
    ReorderingInvisible(capacity, delay, s, arrivals);
    RestAtEnd(Play(capacity, delay, s, arrivals).0, Stream(arrivals, s), s, end);
  }

  lemma RestAtEnd(b: Buffer, m: map<U64, AudioPacket>, s: U64, end: U64)
    requires AtRest(b, m, s) && s <= end
    requires forall n: U64 :: n in m <==> s <= n < end
    ensures b.next.value == end && b.packets == map[]
  {
    assert b.next.value > end ==> end in m;
    assert forall k: U64 :: k !in b.packets;
    assert b.packets.Keys == {};
  }
}
