/** The bounded reference-ordering queue in front of the decoder (rds-desktop `order`), and the desktop
    objects that update in place. */
module FrameOrder {
  import opened Prelude
  import opened DecodeChain

  /** `blocked` is the time the queue started waiting, in milliseconds. */
  datatype Queue = Queue(next: Option<U64>, frames: map<U64, Frame>, blocked: Option<nat>)

  const EMPTY_QUEUE := Queue(None, map[], None)

  lemma {:induction false} Most(keys: set<U64>) returns (k: U64)
    requires keys != {}
    ensures k in keys && forall j :: j in keys ==> j <= k
  {
    k :| k in keys;
    var rest := keys - {k};
    assert forall j :: j in keys ==> j == k || j in rest;
    if rest != {} {
      var m := Most(rest);
      k := if m <= k then k else m;
    }
  }

  lemma MaxExists(keys: set<U64>)
    requires keys != {}
    ensures exists k :: k in keys && forall j :: j in keys ==> j <= k
  {
    var k := Most(keys);
  }

  function Newest(keys: set<U64>): (k: U64)
    requires keys != {}
    ensures k in keys && forall j :: j in keys ==> j <= k
  {
    MaxExists(keys);
    var k :| k in keys && forall j :: j in keys ==> j <= k;
    k
  }

  /** Drop the most distant frames until no more than `limit` are kept. */
  function Trim(frames: map<U64, Frame>, limit: nat): map<U64, Frame>
    decreases |frames|
  {
    if |frames| <= limit then frames
    else
      assert frames.Keys != {};
      var k := Newest(frames.Keys);
      assert (frames - {k}).Keys == frames.Keys - {k};
      Trim(frames - {k}, limit)
  }

  function Put(q: Queue, f: Frame, now: nat): Queue {
    if f.number == U64_MAX || (q.next.Some? && f.number < q.next.value) then q
    else
      var jump := f.keyframe && (q.next.None? || f.number > q.next.value);
      var kept := if jump then map k | k in q.frames && k >= f.number :: q.frames[k] else q.frames;
      var next := if jump then Some(f.number) else q.next;
      var frames := kept[f.number := f];
      var limit := 3 + (if next.Some? && next.value in frames then 1 else 0);
      Queue(next, Trim(frames, limit), if jump || q.blocked.None? then Some(now) else q.blocked)
  }

  function Take(q: Queue, now: nat): (Queue, Option<Frame>) {
    if q.next.None? || q.next.value !in q.frames then (q, None)
    else
      var n := q.next.value;
      var rest := q.frames - {n};
      (Queue(if n == U64_MAX then None else Some(n + 1), rest, if rest == map[] then None else Some(now)),
       Some(q.frames[n]))
  }

  /** The awaited frame is there. */
  predicate Ready(q: Queue) {
    q.next.Some? && q.next.value in q.frames
  }

  function Expire(q: Queue, now: nat, timeout: nat): (Queue, bool) {
    if q.blocked.Some? && SaturatingSub(now, q.blocked.value) >= timeout then (EMPTY_QUEUE, true) else (q, false)
  }

  // ---- every run of the queue ----

  datatype Op = Arrives(frame: Frame, at: nat) | Pops(at: nat) | Ticks(at: nat, timeout: nat)

  /** The queue and what the receive loop has met so far. */
  datatype Intake = Intake(q: Queue, events: seq<Event>)

  function Step(s: Intake, op: Op): Intake {
    match op
    case Arrives(f, at) => s.(q := Put(s.q, f, at))
    case Pops(at) =>
      var (q, f) := Take(s.q, at);
      Intake(q, if f.Some? then s.events + [Popped(f.value)] else s.events)
    case Ticks(at, timeout) =>
      var (q, expired) := Expire(s.q, at, timeout);
      Intake(q, if expired then s.events + [Expired] else s.events)
  }

  function Run(ops: seq<Op>): Intake {
    if ops == [] then Intake(EMPTY_QUEUE, []) else Step(Run(ops[..|ops| - 1]), Last(ops))
  }

  /** Frames come out consecutively; only an independently decodable frame may skip ahead, or be the
      first after the start or an expiry. */
  predicate Orderly(events: seq<Event>) {
    events != [] ==>
      var init := events[..|events| - 1];
      && Orderly(init)
      && match Last(events)
         case Expired => true
         case TimedOut(_) => false
         case Popped(f) =>
           && f.number < U64_MAX
           && if init == [] || Last(init).Expired? then f.keyframe
              else
                && Last(init).Popped?
                && (f.number == Last(init).frame.number + 1 || (f.keyframe && f.number > Last(init).frame.number))
  }

  lemma {:induction false} TrimFacts(frames: map<U64, Frame>, limit: nat)
    requires limit >= 1
    ensures var t := Trim(frames, limit);
            && |t| <= limit
            && (forall k :: k in t ==> k in frames && t[k] == frames[k])
            && (forall k :: k in frames && (forall j :: j in frames ==> k <= j) ==> k in t)
    decreases |frames|
  {
    if |frames| > limit {
      var k := Newest(frames.Keys);
      assert (frames - {k}).Keys == frames.Keys - {k};
      TrimFacts(frames - {k}, limit);
      forall m | m in frames && (forall j :: j in frames ==> m <= j)
        ensures m in Trim(frames, limit)
      {
        assert |{k}| == 1 && |frames.Keys| == |frames|;
        assert m == k ==> frames.Keys == {k};
        assert m in frames - {k} && forall j :: j in frames - {k} ==> m <= j;
      }
    }
  }

  /** The awaited frame carries on from the last one released. */
  predicate Consecutive(s: Intake) {
    s.events != [] && Last(s.events).Popped? && s.q.next == Some(Last(s.events).frame.number + 1)
  }

  ghost predicate Keyed(q: Queue) {
    forall k :: k in q.frames ==> q.frames[k].number == k && k < U64_MAX && (q.next.Some? ==> q.next.value <= k)
  }

  predicate Ignored(q: Queue, f: Frame) {
    f.number == U64_MAX || (q.next.Some? && f.number < q.next.value)
  }

  predicate Jumps(q: Queue, f: Frame) {
    f.keyframe && (q.next.None? || f.number > q.next.value)
  }

  lemma PutFacts(q: Queue, f: Frame, now: nat)
    requires Keyed(q) && !Ignored(q, f)
    ensures var q' := Put(q, f, now);
            && q'.next == (if Jumps(q, f) then Some(f.number) else q.next)
            && Keyed(q') && |q'.frames| <= (if Ready(q') then 4 else 3)
            && (forall k :: k in q'.frames ==>
                  q'.frames[k] == if k == f.number then f else if k in q.frames then q.frames[k] else f)
            && (q'.next == Some(f.number) ==> f.number in q'.frames)
            && (q'.next.Some? && q'.next.value in q.frames ==> q'.next.value in q'.frames)
  {
    var kept := if Jumps(q, f) then map k | k in q.frames && k >= f.number :: q.frames[k] else q.frames;
    var next := if Jumps(q, f) then Some(f.number) else q.next;
    var frames := kept[f.number := f];
    var limit := 3 + (if next.Some? && next.value in frames then 1 else 0);
    TrimFacts(frames, limit);
    if next.Some? && next.value in frames {
      assert forall j :: j in frames ==> next.value <= j;
      assert next.value in Trim(frames, limit);
    }
  }

  /** What holds of the queue whatever arrives: at most three frames beside the awaited one, none behind
      it, and it either carries on from the last release or is queued and ahead of it. */
  ghost predicate QueueSound(s: Intake) {
    && |s.q.frames| <= (if Ready(s.q) then 4 else 3)
    && Keyed(s.q)
    && (s.q.next.None? ==> s.events == [] || Last(s.events).Expired?)
    && (s.q.next.Some? ==>
          || Consecutive(s)
          || (&& s.q.next.value in s.q.frames
              && (s.events != [] && Last(s.events).Popped? ==> s.q.next.value > Last(s.events).frame.number)))
  }

  lemma PutSound(s: Intake, f: Frame, at: nat)
    requires QueueSound(s)
    ensures QueueSound(Step(s, Arrives(f, at)))
  {
    if !Ignored(s.q, f) {
      PutFacts(s.q, f, at);
    }
  }

  lemma TakeSound(s: Intake, at: nat)
    requires QueueSound(s)
    ensures QueueSound(Step(s, Pops(at)))
  {
    var (q, f) := Take(s.q, at);
    if f.Some? {
      assert q.frames.Keys == s.q.frames.Keys - {s.q.next.value};
    }
  }

  lemma {:induction false} RunSound(ops: seq<Op>)
    ensures QueueSound(Run(ops))
  {
    if ops != [] {
      RunSound(ops[..|ops| - 1]);
      var s := Run(ops[..|ops| - 1]);
      if Last(ops).Arrives? {
        PutSound(s, Last(ops).frame, Last(ops).at);
      } else if Last(ops).Pops? {
        TakeSound(s, Last(ops).at);
      }
    }
  }

  // ---- when frames leave in order ----

  /** A delta frame with the number of the keyframe the queue has jumped to: `insert` replaces it. */
  predicate Clobbers(s: Intake, f: Frame) {
    s.q.next == Some(f.number) && f.number != U64_MAX && !f.keyframe && !Consecutive(s)
  }

  /** A keyframe that takes the awaited place back, or moves it on. */
  predicate Repairs(s: Intake, f: Frame) {
    f.keyframe && f.number != U64_MAX && s.q.next.Some? && f.number >= s.q.next.value
  }

  /** The keyframe that the queue has jumped to was replaced by a delta frame, and neither a keyframe nor
      a pop nor an expiry has come since. */
  predicate Spoiled(ops: seq<Op>) {
    ops != [] &&
    var init := ops[..|ops| - 1];
    match Last(ops)
    case Arrives(f, _) => Clobbers(Run(init), f) || (Spoiled(init) && !Repairs(Run(init), f))
    case Pops(_) => false
    case Ticks(at, timeout) => Spoiled(init) && !Expire(Run(init).q, at, timeout).1
  }

  /** The frame to be released next is a delta frame that nothing released precedes. */
  predicate BadHead(s: Intake) {
    s.q.next.Some? && s.q.next.value in s.q.frames && !s.q.frames[s.q.next.value].keyframe && !Consecutive(s)
  }

  lemma PutHead(s: Intake, f: Frame, at: nat)
    requires QueueSound(s)
    ensures BadHead(Step(s, Arrives(f, at))) <==> Clobbers(s, f) || (BadHead(s) && !Repairs(s, f))
  {
    if !Ignored(s.q, f) {
      PutFacts(s.q, f, at);
    }
  }

  /** Only a clobbering arrival makes a bad head, and exactly the arrivals above keep it. */
  lemma {:induction false} SpoiledHead(ops: seq<Op>)
    ensures Spoiled(ops) <==> BadHead(Run(ops))
  {
    if ops != [] {
      var init := ops[..|ops| - 1];
      SpoiledHead(init);
      RunSound(init);
      if Last(ops).Arrives? {
        PutHead(Run(init), Last(ops).frame, Last(ops).at);
      }
    }
  }

  /** A pop keeps the released frames in order exactly when it does not meet a bad head. */
  lemma TakeOrderly(s: Intake, at: nat)
    requires QueueSound(s)
    ensures Orderly(Step(s, Pops(at)).events) <==> Orderly(s.events) && !BadHead(s)
  {
    var (q, f) := Take(s.q, at);
    if f.Some? {
      assert (s.events + [Popped(f.value)])[..|s.events|] == s.events;
    }
  }

  /** Seen from outside: with the queue in order, the next release stays in order after an arrival exactly
      when that arrival does not replace a queued keyframe by a delta frame. */
  lemma PutOk(s: Intake, f: Frame, at: nat)
    requires QueueSound(s) && Orderly(s.events) && !BadHead(s)
    ensures Orderly(Step(Step(s, Arrives(f, at)), Pops(at)).events) <==> !Clobbers(s, f)
  {
    PutSound(s, f, at);
    PutHead(s, f, at);
    TakeOrderly(Step(s, Arrives(f, at)), at);
  }

  /** No pop comes while the queue is spoiled. */
  ghost predicate PopsUnspoiled(ops: seq<Op>) {
    forall i :: 0 <= i < |ops| && ops[i].Pops? ==> !Spoiled(ops[..i])
  }

  lemma UnspoiledStep(ops: seq<Op>)
    requires ops != []
    ensures var init := ops[..|ops| - 1];
            PopsUnspoiled(ops) <==> PopsUnspoiled(init) && (Last(ops).Pops? ==> !Spoiled(init))
  {
    var init := ops[..|ops| - 1];
    assert forall i :: 0 <= i < |init| ==> init[i] == ops[i] && init[..i] == ops[..i];
    assert ops[|ops| - 1] == Last(ops);
  }

  /** The queue type on its own, for any order of calls: at most three frames are held beside the awaited
      one; and frames leave consecutively, with gaps skipped and starts made by keyframes only, if and only
      if no frame is released while a delta frame stands in for the keyframe it replaced. */
  lemma {:induction false} QueueOrderly(ops: seq<Op>)
    ensures |Run(ops).q.frames| <= (if Ready(Run(ops).q) then 4 else 3)
    ensures Orderly(Run(ops).events) <==> PopsUnspoiled(ops)
  {
    RunSound(ops);
    if ops != [] {
      var init, op := ops[..|ops| - 1], Last(ops);
      QueueOrderly(init);
      UnspoiledStep(ops);
      RunSound(init);
      if op.Pops? {
        SpoiledHead(init);
        TakeOrderly(Run(init), op.at);
      } else if op.Ticks? {
        assert (Run(init).events + [Expired])[..|Run(init).events|] == Run(init).events;
      }
    }
  }

  /** Without that condition a delta frame can be the first one released. These are calls that the receive
      loop, which empties the queue before each push, never makes. */
  lemma ClobberHappens(key: Frame, delta: Frame, at: nat)
    requires key.keyframe && !delta.keyframe && key.number == delta.number < U64_MAX
    ensures var ops := [Arrives(key, at), Arrives(delta, at), Pops(at)];
            Run(ops).events == [Popped(delta)] && !Orderly(Run(ops).events)
  {
    ThreeOps(Arrives(key, at), Arrives(delta, at), Pops(at));
    PutFirst(key, at);
    PutAgain(key, delta, at);
    TakeOnly(delta, at, at);
    assert [] + [Popped(delta)] == [Popped(delta)] && [Popped(delta)][..0] == [];
  }

  lemma RunsTo(ops: seq<Op>, op: Op)
    ensures Run(ops + [op]) == Step(Run(ops), op)
  {
    assert (ops + [op])[..|ops|] == ops;
  }

  lemma ThreeOps(a: Op, b: Op, c: Op)
    ensures Run([a, b, c]) == Step(Step(Step(Intake(EMPTY_QUEUE, []), a), b), c)
  {
    RunsTo([], a);
    RunsTo([a], b);
    RunsTo([a, b], c);
    assert [] + [a] == [a] && [a] + [b] == [a, b] && [a, b] + [c] == [a, b, c];
  }

  /** A keyframe arriving at an empty queue is the next frame to leave, whatever its number. */
  lemma PutFirst(f: Frame, at: nat)
    requires f.keyframe && f.number < U64_MAX
    ensures Put(EMPTY_QUEUE, f, at) == Queue(Some(f.number), map[f.number := f], Some(at))
  {
    var kept := map k | k in EMPTY_QUEUE.frames && k >= f.number :: f;
    assert kept == map[];
    assert |map[f.number := f]| == 1;
  }

  lemma PutAgain(f: Frame, g: Frame, at: nat)
    requires f.number == g.number < U64_MAX
    ensures Put(Queue(Some(f.number), map[f.number := f], Some(at)), g, at)
            == Queue(Some(f.number), map[f.number := g], Some(at))
  {
    assert map[f.number := f][f.number := g] == map[f.number := g] && |map[f.number := g]| == 1;
  }

  lemma TakeOnly(f: Frame, since: nat, at: nat)
    requires f.number < U64_MAX
    ensures Take(Queue(Some(f.number), map[f.number := f], Some(since)), at)
            == (Queue(Some(f.number + 1), map[], None), Some(f))
  {
    assert map[f.number := f] - {f.number} == map[];
  }

  // ---- the queue in front of the decoder ----

  function Frames(events: seq<Event>): seq<Frame> {
    if events == [] then []
    else Frames(events[..|events| - 1]) + (if Last(events).Popped? then [Last(events).frame] else [])
  }

  function Fed(calls: seq<Call>): seq<Frame> {
    if calls == [] then []
    else Fed(calls[..|calls| - 1]) + (if Last(calls).Feed? then [Last(calls).frame] else [])
  }

  /** A decoder can be created when one is needed, and makes something of every payload it is fed. */
  predicate Healthy(n: Native, events: seq<Event>) {
    events != [] ==>
      var init := events[..|events| - 1];
      var calls := DirectRun(n, init).delivery.calls;
      && Healthy(n, init)
      && (Last(events).Popped? ==>
            && Last(events).frame.body != [] && n.create(calls)
            && !Judge(n, calls, Last(events).frame).DecodeFailed?
            && !Judge(n, calls + [Create], Last(events).frame).DecodeFailed?)
  }

  lemma FedSnoc(calls: seq<Call>, c: Call)
    ensures Fed(calls + [c]) == Fed(calls) + (if c.Feed? then [c.frame] else [])
  {
    assert (calls + [c])[..|calls|] == calls;
  }

  /** Nothing is wasted: as long as the queue does not expire and the decoder answers, every frame the
      queue releases reaches the decoder, in the queue's order. */
  lemma {:induction false} NoFrameWasted(n: Native, events: seq<Event>)
    requires Orderly(events) && Healthy(n, events)
    requires forall i :: 0 <= i < |events| ==> events[i].Popped?
    ensures var s := DirectRun(n, events);
            && Fed(s.delivery.calls) == Frames(events)
            && (events != [] ==>
                  !s.delivery.waiting && s.delivery.decoder && s.expected == Last(events).frame.number + 1)
  {
    if events != [] {
      var init := events[..|events| - 1];
      NoFrameWasted(n, init);
      var s, f := DirectRun(n, init), Last(events).frame;
      assert events[|events| - 1].Popped?;
      FedSnoc(s.delivery.calls, Call.Feed(f));
      FedSnoc(s.delivery.calls, Create);
      FedSnoc(s.delivery.calls + [Create], Call.Feed(f));
    }
  }

  /** The fork is real: a reference that is given up on and then arrives as a keyframe makes the
      session start a new decoder, where the relay feeds the old one. */
  lemma ForkHappens(n: Native, a: Frame, b: Frame, late: Frame, at: nat, later: nat)
    requires a.keyframe && a.body != [] && n.create([]) && !Judge(n, [Create], a).DecodeFailed?
    requires b.keyframe && b.body != [] && !late.keyframe
    requires a.number + 1 == b.number < late.number < U64_MAX && at < later
    ensures var ops := [Arrives(a, at), Pops(at), Arrives(late, at), Ticks(later, later - at),
                        Arrives(b, later), Pops(later)];
            var events := Run(ops).events;
            && events == [Popped(a), Expired, Popped(b)] && Forked(n, events)
            && DirectRun(n, events).delivery.calls != RelayRun(n, events).delivery.calls
  {
    var first, rest := [Arrives(a, at), Pops(at), Arrives(late, at)],
                       [Ticks(later, later - at), Arrives(b, later), Pops(later)];
    BeforeExpiry(a, late, at);
    AfterExpiry(first, a, b, at, later);
    assert first + rest ==
           [Arrives(a, at), Pops(at), Arrives(late, at), Ticks(later, later - at), Arrives(b, later), Pops(later)];
    ForkOf(n, a, b);
  }

  lemma BeforeExpiry(a: Frame, late: Frame, at: nat)
    requires a.keyframe && !late.keyframe && a.number + 1 < late.number < U64_MAX
    ensures var s := Run([Arrives(a, at), Pops(at), Arrives(late, at)]);
            s.events == [Popped(a)] && s.q.blocked == Some(at)
  {
    ThreeOps(Arrives(a, at), Pops(at), Arrives(late, at));
    PutFirst(a, at);
    TakeOnly(a, at, at);
    assert [] + [Popped(a)] == [Popped(a)];
  }

  lemma AfterExpiry(ops: seq<Op>, a: Frame, b: Frame, at: nat, later: nat)
    requires Run(ops).events == [Popped(a)] && Run(ops).q.blocked == Some(at) && at < later
    requires b.keyframe && b.number < U64_MAX
    ensures Run(ops + [Ticks(later, later - at), Arrives(b, later), Pops(later)]).events
            == [Popped(a), Expired, Popped(b)]
  {
    var tick, arrives, pops := Ticks(later, later - at), Arrives(b, later), Pops(later);
    RunsTo(ops, tick);
    RunsTo(ops + [tick], arrives);
    RunsTo(ops + [tick] + [arrives], pops);
    assert ops + [tick] + [arrives] + [pops] == ops + [tick, arrives, pops];
    PutFirst(b, later);
    TakeOnly(b, later, later);
    assert [Popped(a)] + [Expired] + [Popped(b)] == [Popped(a), Expired, Popped(b)];
  }

  lemma ForkOf(n: Native, a: Frame, b: Frame)
    requires a.keyframe && a.body != [] && n.create([]) && !Judge(n, [Create], a).DecodeFailed?
    requires a.number + 1 == b.number < U64_MAX && b.body != []
    ensures var events := [Popped(a), Expired, Popped(b)];
            Forked(n, events) && DirectRun(n, events).delivery.calls != RelayRun(n, events).delivery.calls
  {
    var one, two, events := [Popped(a)], [Popped(a), Expired], [Popped(a), Expired, Popped(b)];
    assert one + [Expired] == two && events[..2] == two;
    ChainStarts(n, a);
    ChainGivenUp(n, one);
    FedAlike(n, events);
  }

  lemma ChainStarts(n: Native, a: Frame)
    requires a.keyframe && a.body != [] && n.create([]) && !Judge(n, [Create], a).DecodeFailed? && a.number < U64_MAX
    ensures var s := DirectRun(n, [Popped(a)]); !s.delivery.waiting && s.expected == a.number + 1
  {
    var start := Direct(0, FRESH);
    assert [Popped(a)][..0] == [] && [] + [Create] == [Create];
    assert DirectFrom(n, start, []) == start && DirectFrom(n, start, [Popped(a)]) == DirectStep(n, start, Popped(a));
  }

  lemma ChainGivenUp(n: Native, events: seq<Event>)
    requires !DirectRun(n, events).delivery.waiting
    ensures GivenUp(n, events + [Expired]) && DirectRun(n, events + [Expired]).expected == DirectRun(n, events).expected
  {
    assert (events + [Expired])[..|events|] == events;
  }

  // ---- the objects ----

  class Ordered {
    var next: Option<U64>
    var frames: map<U64, Frame>
    var blocked: Option<nat>

    ghost function View(): Queue
      reads this
    {
      Queue(next, frames, blocked)
    }

    constructor ()
      ensures View() == EMPTY_QUEUE
    {
      next, frames, blocked := None, map[], None;
    }

    method Push(f: Frame, now: nat)
      modifies this
      ensures View() == Put(old(View()), f, now)
    {
      if f.number == U64_MAX || (next.Some? && f.number < next.value) {
        return;
      }
      if f.keyframe && (next.None? || f.number > next.value) {
        frames := map k | k in frames && k >= f.number :: frames[k];
        assert frames == map k | k in old(frames) && k >= f.number :: old(frames)[k];
        next := Some(f.number);
        blocked := None;
      }
      frames := frames[f.number := f];
      var limit := 3 + (if next.Some? && next.value in frames then 1 else 0);
      ghost var full := frames;
      while |frames| > limit
        invariant Trim(frames, limit) == Trim(full, limit)
        modifies this`frames
        decreases |frames|
      {
        assert frames.Keys != {};
        var k := Newest(frames.Keys);
        assert (frames - {k}).Keys == frames.Keys - {k};
        frames := frames - {k};
      }
      if blocked.None? {
        blocked := Some(now);
      }
    }

    method Pop(now: nat) returns (f: Option<Frame>)
      modifies this
      ensures (View(), f) == Take(old(View()), now)
    {
      if next.None? || next.value !in frames {
        return None;
      }
      var n := next.value;
      f := Some(frames[n]);
      frames := frames - {n};
      next := if n == U64_MAX then None else Some(n + 1);
      blocked := if frames == map[] then None else Some(now);
    }

    method GiveUp(now: nat, timeout: nat) returns (expired: bool)
      modifies this
      ensures (View(), expired) == Expire(old(View()), now, timeout)
    {
      expired := blocked.Some? && SaturatingSub(now, blocked.value) >= timeout;
      if expired {
        frames, next, blocked := map[], None, None;
      }
    }
  }

  class RelayDecoder {
    var next: Option<U64>
    var delivery: Delivery
    var reported: Option<nat>

    ghost function View(): Viewer
      reads this
    {
      Viewer(Relay(next, delivery), reported)
    }

    constructor ()
      ensures View() == Viewer(Relay(None, FRESH), None)
    {
      next, delivery, reported := None, FRESH, None;
    }

    method Push(n: Native, f: Frame, now: nat) returns (answer: RelayOutcome)
      modifies this
      ensures (View(), answer) == ViewerPush(n, old(View()), f, now)
    {
      if f.number == U64_MAX || (next.Some? && f.number < next.value) {
        return Pending;
      }
      if next.Some? && f.number != next.value {
        delivery := Invalidate(delivery);
      }
      next := Some(f.number + 1);
      var (d, outcome) := Decode(n, delivery, f);
      delivery := d;
      match outcome {
        case Decoded => answer := Shown;
        case Buffered => answer := Pending;
        case DecodeFailed =>
          delivery := Invalidate(delivery);
          answer := Pending;
          if reported.None? || SaturatingSub(now, reported.value) >= IDR_MIN_INTERVAL_MS {
            reported := Some(now);
            answer := NeedIdr;
          }
      }
    }
  }

  lemma TakeShrinks(q: Queue, now: nat)
    requires Ready(q)
    ensures |Take(q, now).0.frames| < |q.frames|
  {
    assert Take(q, now).0.frames.Keys == q.frames.Keys - {q.next.value};
  }

  /** Everything the queue will release, one after the other. */
  function PopAll(q: Queue, now: nat): (Queue, seq<Event>)
    decreases |q.frames|
  {
    if !Ready(q) then (q, [])
    else
      TakeShrinks(q, now);
      var (q', f) := Take(q, now);
      var (end, rest) := PopAll(q', now);
      (end, [Popped(f.value)] + rest)
  }

  lemma PopAllOnce(q: Queue, now: nat, popped: seq<Event>)
    requires Ready(q)
    ensures var (q', f) := Take(q, now);
            && PopAll(q, now).0 == PopAll(q', now).0
            && popped + PopAll(q, now).1 == popped + [Popped(f.value)] + PopAll(q', now).1
  {
  }

  lemma DirectOnce(n: Native, start: Direct, events: seq<Event>, e: Event)
    ensures DirectFrom(n, start, events + [e]) == DirectStep(n, DirectFrom(n, start, events), e)
  {
    assert (events + [e])[..|events|] == events;
  }

  /** The ordered part of `receive_frames`: the loop feeds the decoder all that the queue releases, in
      that order. */
  method Receive(n: Native, queue: Ordered, start: Direct, now: nat) returns (end: Direct, popped: seq<Event>)
    modifies queue
    ensures (queue.View(), popped) == PopAll(old(queue.View()), now)
    ensures end == DirectFrom(n, start, popped)
  {
    end, popped := start, [];
    while queue.next.Some? && queue.next.value in queue.frames
      invariant end == DirectFrom(n, start, popped)
      invariant PopAll(old(queue.View()), now).0 == PopAll(queue.View(), now).0
      invariant PopAll(old(queue.View()), now).1 == popped + PopAll(queue.View(), now).1
      decreases |queue.frames|
    {
      TakeShrinks(queue.View(), now);
      PopAllOnce(queue.View(), now, popped);
      var f := queue.Pop(now);
      DirectOnce(n, start, popped, Popped(f.value));
      end := DirectStep(n, end, Popped(f.value));
      popped := popped + [Popped(f.value)];
    }
    assert popped + [] == popped;
  }
}
