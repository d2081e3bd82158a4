/** How much reordering the receive loop hides: a keyframe and its successors, arriving in any order
    (rds-desktop `order` and `client`). */
module ReceiveStream {
  import opened Prelude
  import opened DecodeChain
  import opened FrameOrder
  import opened ReceiveLoop

  /** The frames from a keyframe `k` up to `end`, by number; only the first is independently decodable. */
  ghost predicate IsStream(st: map<U64, Frame>, k: U64, end: U64) {
    && k < end
    && (forall n: U64 :: n in st <==> k <= n < end)
    && (forall n :: n in st ==> st[n].number == n && (st[n].keyframe <==> n == k))
  }

  /** One frame's arrival, and when the loop then releases. */
  datatype Arrival = Arrival(number: U64, at: nat, drained: nat)

  function Numbers(arrivals: seq<Arrival>): set<U64> {
    if arrivals == [] then {} else Numbers(arrivals[..|arrivals| - 1]) + {Last(arrivals).number}
  }

  /** Each arrival is of the stream and comes once. */
  predicate Once(st: map<U64, Frame>, arrivals: seq<Arrival>) {
    arrivals != [] ==>
      var (init, n) := (arrivals[..|arrivals| - 1], Last(arrivals).number);
      Once(st, init) && n in st && n !in Numbers(init)
  }

  function Wakeups(st: map<U64, Frame>, arrivals: seq<Arrival>): (ws: seq<Wakeup>)
    requires Once(st, arrivals)
    ensures |ws| == |arrivals|
  {
    if arrivals == [] then []
    else
      var a := Last(arrivals);
      Wakeups(st, arrivals[..|arrivals| - 1]) + [Complete(st[a.number], a.at, a.drained)]
  }

  function Received(st: map<U64, Frame>, arrivals: seq<Arrival>): Intake
    requires Once(st, arrivals)
  {
    LoopRun(Wakeups(st, arrivals))
  }

  function Above(a: set<U64>, x: nat): set<U64> {
    set n | n in a && n > x
  }

  /** Each frame arrives after at most three of its successors. */
  ghost predicate Window(arrivals: seq<Arrival>) {
    forall i :: 0 <= i < |arrivals| ==> |Above(Numbers(arrivals[..i]), arrivals[i].number)| <= 3
  }

  /** The frames of the stream from `x` up to, but not including, `y`, released in order. */
  function Released(st: map<U64, Frame>, x: nat, y: nat): seq<Event>
    requires forall n: nat :: x <= n < y ==> n in st
  {
    if y <= x then [] else Released(st, x, y - 1) + [Popped(st[y - 1])]
  }

  function Waiting(st: map<U64, Frame>, a: set<U64>, x: nat): map<U64, Frame> {
    map n | n in st && n in a && n >= x :: st[n]
  }

  // ---- nothing lost so far ----

  /** All frames below `x` have come and gone, `x` is missing, and all that arrived beyond it are held. */
  ghost predicate Good(s: Intake, st: map<U64, Frame>, k: U64, end: U64, a: set<U64>, x: nat) {
    && IsStream(st, k, end) && a <= st.Keys && k <= x <= end
    && (forall n: nat :: k <= n < x ==> n in a) && (x < end ==> x !in a)
    && s.q.next == (if x == k then None else Some(x))
    && s.q.frames == Waiting(st, a, x) && |s.q.frames| <= 3
    && s.events == Released(st, k, x)
  }

  lemma WaitingMore(st: map<U64, Frame>, a: set<U64>, x: nat, j: U64)
    requires j in st && j !in a && j >= x
    ensures Waiting(st, a + {j}, x) == Waiting(st, a, x)[j := st[j]]
    ensures |Waiting(st, a + {j}, x)| == |Waiting(st, a, x)| + 1
  {
    var w := Waiting(st, a, x);
    assert w[j := st[j]].Keys == w.Keys + {j};
  }

  lemma WaitingLess(st: map<U64, Frame>, a: set<U64>, x: U64)
    requires x in st && x in a
    ensures x in Waiting(st, a, x) && Waiting(st, a, x) - {x} == Waiting(st, a, x + 1)
    ensures |Waiting(st, a, x + 1)| == |Waiting(st, a, x)| - 1
  {
    assert (Waiting(st, a, x) - {x}).Keys == Waiting(st, a, x).Keys - {x};
  }

  /** The queue after an arrival, before eviction. */
  lemma PutStream(s: Intake, st: map<U64, Frame>, k: U64, end: U64, a: set<U64>, x: nat, j: U64, at: nat)
    requires Good(s, st, k, end, a, x) && j in st && j !in a
    ensures j >= x
    ensures var q := Put(s.q, st[j], at);
            && q.next == (if j == k then Some(k) else s.q.next)
            && q.frames == Trim(Waiting(st, a + {j}, x), if j == x then 4 else 3)
  {
    WaitingMore(st, a, x, j);
    if j == k {
      PutKeyframe(s.q, st[k], at);
    } else {
      PutDelta(s.q, st[j], at);
    }
  }

  /** A keyframe comes to a queue that waits for one and holds nothing older. */
  lemma PutKeyframe(q: Queue, f: Frame, at: nat)
    requires f.keyframe && f.number < U64_MAX && q.next.None? && forall n :: n in q.frames ==> n >= f.number
    ensures Put(q, f, at).next == Some(f.number) && Put(q, f, at).frames == Trim(q.frames[f.number := f], 4)
  {
    var kept := map n | n in q.frames && n >= f.number :: q.frames[n];
    assert kept == q.frames;
  }

  lemma PutDelta(q: Queue, f: Frame, at: nat)
    requires !f.keyframe && f.number < U64_MAX && !Ready(q) && (q.next.Some? ==> q.next.value <= f.number)
    ensures Put(q, f, at).next == q.next
    ensures Put(q, f, at).frames == Trim(q.frames[f.number := f], if q.next == Some(f.number) then 4 else 3)
  {
  }

  /** Everything present is released, up to the first frame that is missing. */
  lemma {:induction false} ReleasePresent(q: Queue, st: map<U64, Frame>, k: U64, end: U64, a: set<U64>, x: nat,
                                          now: nat)
    returns (y: nat)
    requires IsStream(st, k, end) && a <= st.Keys && k <= x <= end
    requires q.next == Some(x) && q.frames == Waiting(st, a, x)
    ensures x <= y <= end && (forall n: nat :: x <= n < y ==> n in a) && (y < end ==> y !in a)
    ensures var (q', popped) := PopAll(q, now);
            q'.next == Some(y) && q'.frames == Waiting(st, a, y) && popped == Released(st, x, y)
    ensures |PopAll(q, now).0.frames| <= |q.frames| - (y - x)
    decreases end - x
  {
    if x < end && x in a {
      WaitingLess(st, a, x);
      TakeShrinks(q, now);
      y := ReleasePresent(Take(q, now).0, st, k, end, a, x + 1, now);
      ReleasedFront(st, x, y);
    } else {
      y := x;
    }
  }

  lemma {:induction false} ReleasedFront(st: map<U64, Frame>, x: nat, y: nat)
    requires x < y && forall n: nat :: x <= n < y ==> n in st
    ensures Released(st, x, y) == [Popped(st[x])] + Released(st, x + 1, y)
  {
    if x + 1 < y {
      ReleasedFront(st, x, y - 1);
    }
  }

  lemma {:induction false} ReleasedJoin(st: map<U64, Frame>, x: nat, y: nat, z: nat)
    requires x <= y <= z && forall n: nat :: x <= n < z ==> n in st
    ensures Released(st, x, y) + Released(st, y, z) == Released(st, x, z)
  {
    if y < z {
      ReleasedJoin(st, x, y, z - 1);
      assert Released(st, x, y) + (Released(st, y, z - 1) + [Popped(st[z - 1])])
          == (Released(st, x, y) + Released(st, y, z - 1)) + [Popped(st[z - 1])];
    } else {
      assert Released(st, x, y) + [] == Released(st, x, y);
    }
  }

  // ---- a frame lost for good ----

  /** Everything released so far comes before `e`. */
  predicate Below(events: seq<Event>, e: U64) {
    forall i :: 0 <= i < |events| ==> events[i].Popped? && events[i].frame.number < e
  }

  /** Frame `e` has come and been dropped, and the queue still waits for something at or before it. */
  ghost predicate Lost(s: Intake, k: U64, e: U64) {
    e > k && e !in s.q.frames && Keyed(s.q) && (s.q.next.Some? ==> s.q.next.value <= e) && Below(s.events, e)
  }

  lemma LostPut(s: Intake, k: U64, e: U64, f: Frame, at: nat)
    requires Lost(s, k, e) && f.number != e && (f.keyframe ==> f.number == k)
    ensures Lost(Step(s, Arrives(f, at)), k, e)
  {
    if !Ignored(s.q, f) {
      PutFacts(s.q, f, at);
    }
  }

  lemma LostTake(s: Intake, k: U64, e: U64, at: nat)
    requires Lost(s, k, e)
    ensures Lost(Step(s, Pops(at)), k, e)
  {
  }

  lemma {:induction false} LostDrained(s: Intake, k: U64, e: U64, now: nat)
    requires Lost(s, k, e)
    ensures Lost(Drained(s, now), k, e)
    decreases |s.q.frames|
  {
    if Ready(s.q) {
      TakeShrinks(s.q, now);
      LostTake(s, k, e, now);
      PopAllOnce(s.q, now, s.events);
      LostDrained(Step(s, Pops(now)), k, e, now);
    } else {
      assert s.events + [] == s.events;
    }
  }

  // ---- one arrival ----

  lemma KeepWaiting(frames: map<U64, Frame>, limit: nat)
    requires |frames| <= limit
    ensures Trim(frames, limit) == frames
  {
  }

  lemma EvictOne(frames: map<U64, Frame>) returns (e: U64)
    requires |frames| == 4
    ensures e in frames && (forall n :: n in frames ==> n <= e) && Trim(frames, 3) == frames - {e}
  {
    assert frames.Keys != {};
    e := Newest(frames.Keys);
    assert (frames - {e}).Keys == frames.Keys - {e};
    KeepWaiting(frames - {e}, 3);
  }

  function AfterArrival(s: Intake, f: Frame, a: Arrival): Intake {
    Drained(Step(s, Arrives(f, a.at)), a.drained)
  }

  /** The missing frame arrives: it and all that follow on are released. */
  lemma ArrivesNext(s: Intake, st: map<U64, Frame>, k: U64, end: U64, a: set<U64>, x: U64, n: Arrival) returns (y: nat)
    requires Good(s, st, k, end, a, x) && x < end && n.number == x
    ensures Good(AfterArrival(s, st[x], n), st, k, end, a + {x}, y)
  {
    var q := Put(s.q, st[x], n.at);
    PutStream(s, st, k, end, a, x, x, n.at);
    WaitingMore(st, a, x, x);
    KeepWaiting(Waiting(st, a + {x}, x), 4);
    y := ReleasePresent(q, st, k, end, a + {x}, x, n.drained);
    assert x in a + {x};
    ReleasedJoin(st, k, x, y);
  }

  /** A later frame arrives and finds room. */
  lemma ArrivesAhead(s: Intake, st: map<U64, Frame>, k: U64, end: U64, a: set<U64>, x: nat, n: Arrival)
    requires Good(s, st, k, end, a, x) && n.number in st && n.number !in a && n.number != x && |s.q.frames| < 3
    ensures Good(AfterArrival(s, st[n.number], n), st, k, end, a + {n.number}, x)
  {
    PutStream(s, st, k, end, a, x, n.number, n.at);
    WaitingMore(st, a, x, n.number);
    KeepWaiting(Waiting(st, a + {n.number}, x), 3);
    assert s.events + [] == s.events;
  }

  /** A later frame arrives and finds three waiting: the most distant of the four is lost. */
  lemma ArrivesFull(s: Intake, st: map<U64, Frame>, k: U64, end: U64, a: set<U64>, x: nat, n: Arrival) returns (e: U64)
    requires Good(s, st, k, end, a, x) && n.number in st && n.number !in a && n.number != x && |s.q.frames| == 3
    ensures e in a + {n.number} && Lost(AfterArrival(s, st[n.number], n), k, e)
    ensures x < end && x !in a + {n.number} && |Above(a + {n.number}, x)| >= 4
  {
    var w := Waiting(st, a + {n.number}, x);
    PutStream(s, st, k, end, a, x, n.number, n.at);
    WaitingMore(st, a, x, n.number);
    e := EvictOne(w);
    assert w.Keys == Above(a + {n.number}, x);
    ReleasedBelow(st, k, x, e);
    assert s.events + [] == s.events;
  }

  lemma {:induction false} ReleasedBelow(st: map<U64, Frame>, x: nat, y: nat, e: U64)
    requires (forall n: nat :: x <= n < y ==> n in st) && y <= e && forall n :: n in st ==> st[n].number == n
    ensures Below(Released(st, x, y), e)
  {
    if x < y {
      ReleasedBelow(st, x, y - 1, e);
    }
  }

  // ---- any order of arrival ----

  /** How far the loop has come: all is well up to `x`, or frame `e` was lost when four frames had overtaken
      `x`, which was still missing after `t` arrivals. */
  datatype Progress = Well(x: nat) | Gone(e: U64, missing: U64, t: nat)

  ghost predicate Describes(p: Progress, st: map<U64, Frame>, k: U64, end: U64, arrivals: seq<Arrival>)
    requires Once(st, arrivals)
  {
    match p
    case Well(x) => Good(Received(st, arrivals), st, k, end, Numbers(arrivals), x) && Window(arrivals)
    case Gone(e, x, t) =>
      && e in Numbers(arrivals) && Lost(Received(st, arrivals), k, e)
      && t <= |arrivals| && x in st && Overtaken(arrivals, x, t)
  }

  predicate Overtaken(arrivals: seq<Arrival>, x: U64, t: nat)
    requires t <= |arrivals|
  {
    x !in Numbers(arrivals[..t]) && |Above(Numbers(arrivals[..t]), x)| >= 4
  }

  lemma WindowMore(arrivals: seq<Arrival>)
    requires arrivals != []
    requires Window(arrivals[..|arrivals| - 1])
    requires |Above(Numbers(arrivals[..|arrivals| - 1]), Last(arrivals).number)| <= 3
    ensures Window(arrivals)
  {
    var init := arrivals[..|arrivals| - 1];
    assert forall i :: 0 <= i < |init| ==> init[i] == arrivals[i] && init[..i] == arrivals[..i];
  }

  lemma {:induction false} Smaller(a: set<U64>, b: set<U64>)
    requires a <= b
    ensures |a| <= |b|
  {
    if a != {} {
      var x :| x in a;
      Smaller(a - {x}, b - {x});
    }
  }

  /** A frame that has yet to arrive has at most as many successors waiting as the queue holds. */
  lemma FewAbove(s: Intake, st: map<U64, Frame>, k: U64, end: U64, a: set<U64>, x: nat, j: U64)
    requires Good(s, st, k, end, a, x) && j in st && j !in a
    ensures |Above(a, j)| <= 3
  {
    assert Above(a, j) <= s.q.frames.Keys;
    Smaller(Above(a, j), s.q.frames.Keys);
  }

  lemma {:induction false} Proceeds(st: map<U64, Frame>, k: U64, end: U64, arrivals: seq<Arrival>) returns (p: Progress)
    requires IsStream(st, k, end) && Once(st, arrivals)
    ensures Describes(p, st, k, end, arrivals)
  {
    if arrivals == [] {
      p := Well(k);
      assert Waiting(st, {}, k) == map[];
    } else {
      var init, n := arrivals[..|arrivals| - 1], Last(arrivals);
      var before := Proceeds(st, k, end, init);
      ReceivedMore(st, arrivals);
      match before {
        case Well(x) => p := ProceedsWell(st, k, end, arrivals, x);
        case Gone(e, x, t) =>
          p := before;
          LostPut(Received(st, init), k, e, st[n.number], n.at);
          LostDrained(Step(Received(st, init), Arrives(st[n.number], n.at)), k, e, n.drained);
          assert init[..t] == arrivals[..t];
      }
    }
  }

  lemma ReceivedMore(st: map<U64, Frame>, arrivals: seq<Arrival>)
    requires arrivals != [] && Once(st, arrivals)
    ensures Received(st, arrivals)
            == AfterArrival(Received(st, arrivals[..|arrivals| - 1]), st[Last(arrivals).number], Last(arrivals))
  {
    var ws := Wakeups(st, arrivals);
    assert ws[..|ws| - 1] == Wakeups(st, arrivals[..|arrivals| - 1]);
  }

  lemma ProceedsWell(st: map<U64, Frame>, k: U64, end: U64, arrivals: seq<Arrival>, x: nat) returns (p: Progress)
    requires IsStream(st, k, end) && arrivals != [] && Once(st, arrivals)
    requires Describes(Well(x), st, k, end, arrivals[..|arrivals| - 1])
    ensures Describes(p, st, k, end, arrivals)
  {
    var init, n := arrivals[..|arrivals| - 1], Last(arrivals);
    var s, a := Received(st, init), Numbers(init);
    ReceivedMore(st, arrivals);
    FewAbove(s, st, k, end, a, x, n.number);
    WindowMore(arrivals);
    if n.number == x {
      var y := ArrivesNext(s, st, k, end, a, n.number, n);
      p := Well(y);
    } else if |s.q.frames| < 3 {
      ArrivesAhead(s, st, k, end, a, x, n);
      p := Well(x);
    } else {
      var e := ArrivesFull(s, st, k, end, a, x, n);
      p := Gone(e, x, |arrivals|);
      assert arrivals[..|arrivals|] == arrivals;
    }
  }

  // ---- exactly how much ----

  lemma {:induction false} ArrivesAt(arrivals: seq<Arrival>, x: U64, t: nat) returns (i: nat)
    requires t <= |arrivals| && x in Numbers(arrivals) && x !in Numbers(arrivals[..t])
    ensures t <= i < |arrivals| && arrivals[i].number == x
    decreases |arrivals|
  {
    var last := |arrivals| - 1;
    assert arrivals[..|arrivals|] == arrivals;
    if Last(arrivals).number == x {
      i := last;
    } else {
      assert arrivals[..last][..t] == arrivals[..t];
      i := ArrivesAt(arrivals[..last], x, t);
    }
  }

  lemma {:induction false} NumbersGrow(arrivals: seq<Arrival>, t: nat, i: nat)
    requires t <= i <= |arrivals|
    ensures Numbers(arrivals[..t]) <= Numbers(arrivals[..i])
    decreases i
  {
    if t < i {
      NumbersGrow(arrivals, t, i - 1);
      assert arrivals[..i][..i - 1] == arrivals[..i - 1];
    }
  }

  lemma OvertakenBreaks(arrivals: seq<Arrival>, x: U64, t: nat)
    requires t <= |arrivals| && x in Numbers(arrivals) && Overtaken(arrivals, x, t)
    ensures !Window(arrivals)
  {
    var i := ArrivesAt(arrivals, x, t);
    NumbersGrow(arrivals, t, i);
    Smaller(Above(Numbers(arrivals[..t]), x), Above(Numbers(arrivals[..i]), x));
  }

  lemma {:induction false} ReleasedHas(st: map<U64, Frame>, x: nat, y: nat, e: nat)
    requires x <= e < y && forall n: nat :: x <= n < y ==> n in st
    ensures |Released(st, x, y)| == y - x && Released(st, x, y)[e - x] == Popped(st[e])
    decreases y
  {
    if x < y - 1 {
      ReleasedHas(st, x, y - 1, if e == y - 1 then e - 1 else e);
    }
  }

  /** The receive loop hides exactly the reordering that fits its three places: a keyframe and its
      successors, arriving once each in any order, leave the queue whole and in order if and only if each
      frame arrives after at most three of its successors. */
  lemma StreamReceived(st: map<U64, Frame>, k: U64, end: U64, arrivals: seq<Arrival>)
    requires IsStream(st, k, end) && Once(st, arrivals) && Numbers(arrivals) == st.Keys
    ensures Received(st, arrivals).events == Released(st, k, end) <==> Window(arrivals)
  {
    var p := Proceeds(st, k, end, arrivals);
    match p {
      case Well(x) =>
        assert x == end;
      case Gone(e, x, t) =>
        OvertakenBreaks(arrivals, x, t);
        ReleasedHas(st, k, end, e);
    }
  }

  /** And then the decoder is fed the whole stream. */
  lemma StreamFed(n: Native, st: map<U64, Frame>, k: U64, end: U64, arrivals: seq<Arrival>)
    requires IsStream(st, k, end) && Once(st, arrivals) && Numbers(arrivals) == st.Keys && Window(arrivals)
    requires Healthy(n, Received(st, arrivals).events)
    ensures Fed(DirectRun(n, Received(st, arrivals).events).delivery.calls) == Frames(Released(st, k, end))
  {
    StreamReceived(st, k, end, arrivals);
    ReleasedPopped(st, k, end);
    ReceivedIsFed(n, Wakeups(st, arrivals));
  }

  lemma {:induction false} ReleasedPopped(st: map<U64, Frame>, x: nat, y: nat)
    requires forall n: nat :: x <= n < y ==> n in st
    ensures Expired !in Released(st, x, y)
  {
    if x < y {
      ReleasedPopped(st, x, y - 1);
    }
  }
}
