/** What playout through the jitter buffer guarantees over whole runs. */
module JitterTheorems {
  import opened Prelude
  import opened JitterBuffer

  // ---- any run of arrivals, pops and start requests ----

  datatype Op = Arrive(packet: AudioPacket) | Tick | Start(at: U64)

  /** The buffer with what the run has seen: the position playout started from, every pop outcome, and
      how many packets were admitted, evicted by overflow and trimmed by `start_at`. */
  datatype Session = Session(
    b: Buffer, first: Option<U64>, out: seq<PopOutcome>, admitted: nat, evicted: nat, trimmed: nat)

  function Step(s: Session, op: Op): Session
    requires Valid(s.b)
  {
    match op
    case Arrive(p) =>
      if p.number == U64_MAX then s
      else
        var (b, outcome) := Push(s.b, p);
        var entered := p.number in b.packets && p.number !in s.b.packets;
        s.(b := b,
           admitted := s.admitted + (if entered then 1 else 0),
           evicted := s.evicted + (if entered && outcome.DroppedOverflow? then 1 else 0))
    case Tick =>
      var (b, outcome) := Pop(s.b);
      s.(b := b,
         first := if s.first.None? then Position(s.b) else s.first,
         out := if outcome.Some? then s.out + [outcome.value] else s.out)
    case Start(at) =>
      var r := StartAt(s.b, at);
      if r.Err? then s
      else s.(b := r.value, first := Some(at), trimmed := s.trimmed + SaturatingSub(|s.b.packets|, |r.value.packets|))
  }

  function Run(capacity: nat, delay: nat, ops: seq<Op>): (s: Session)
    requires 0 < capacity <= MAX_JITTER_PACKETS && delay < capacity
    ensures Valid(s.b)
  {
    if ops == [] then Session(Empty(capacity, delay), None, [], 0, 0, 0)
    else
      var s := Run(capacity, delay, ops[..|ops| - 1]);
      StepValid(s, Last(ops));
      Step(s, Last(ops))
  }

  lemma StepValid(s: Session, op: Op)
    requires Valid(s.b)
    ensures Valid(Step(s, op).b)
  {
    match op {
      case Arrive(p) => PushValid(s.b, p);
      case Tick => PopValid(s.b);
      case Start(at) => StartValid(s.b, at);
    }
  }

  // ---- exact tiling ----

  function From(o: PopOutcome): U64 {
    match o
    case Played(p) => p.number
    case Gap(n) => n
    case Discontinuity(start, _) => start
  }

  function To(o: PopOutcome): nat {
    match o
    case Played(p) => p.number + 1
    case Gap(n) => n + 1
    case Discontinuity(_, end) => end
  }

  /** The outcomes cover [from, to) piece by piece: no overlap, no hole, nothing empty. */
  predicate Tiles(out: seq<PopOutcome>, start: nat, end: nat) {
    if out == [] then start == end
    else From(Last(out)) < To(Last(out)) == end && Tiles(out[..|out| - 1], start, From(Last(out)))
  }

  function Missing(out: seq<PopOutcome>): nat {
    if out == [] then 0
    else
      Missing(out[..|out| - 1])
      + (if Last(out).Played? then 0 else SaturatingSub(To(Last(out)), From(Last(out))))
  }

  function PlayedCount(out: seq<PopOutcome>): nat {
    if out == [] then 0 else PlayedCount(out[..|out| - 1]) + (if Last(out).Played? then 1 else 0)
  }

  ghost predicate Exact(s: Session) {
    && Valid(s.b)
    && (s.b.next.None? ==> s.first.None? && s.out == [])
    && (s.b.next.Some? ==>
          s.first.Some? && s.first.value <= s.b.next.value && Tiles(s.out, s.first.value, s.b.next.value))
    && s.b.gaps == Missing(s.out)
    && (s.first.Some? && s.b.next.Some? ==> Missing(s.out) + PlayedCount(s.out) == s.b.next.value - s.first.value)
    && s.admitted == PlayedCount(s.out) + |s.b.packets| + s.evicted + s.trimmed
  }

  lemma Snoc(out: seq<PopOutcome>, o: PopOutcome, start: nat)
    requires From(o) < To(o) && Tiles(out, start, From(o))
    ensures Tiles(out + [o], start, To(o))
    ensures Missing(out + [o]) == Missing(out) + (if o.Played? then 0 else To(o) - From(o))
    ensures PlayedCount(out + [o]) == PlayedCount(out) + (if o.Played? then 1 else 0)
  {
    assert (out + [o])[..|out|] == out;
  }

  lemma TickExact(s: Session)
    requires Exact(s)
    ensures Exact(Step(s, Tick))
  {
    var (b, outcome) := Pop(s.b);
    PopValid(s.b);
    if outcome.Some? {
      var next := Position(s.b).value;
      assert From(outcome.value) == next && To(outcome.value) == b.next.value;
      if s.b.next.None? {
        assert Tiles([], next, next);
      }
      Snoc(s.out, outcome.value, Step(s, Tick).first.value);
      if outcome.value.Played? {
        Removed(s.b.packets, next);
      }
    }
  }

  /** An arrival touches neither position nor gap counter, and every packet that enters is retained or
      pays for it with another. */
  lemma PushCounts(b: Buffer, p: AudioPacket)
    requires Valid(b)
    ensures var (b', outcome) := Push(b, p);
            var entered := p.number in b'.packets && p.number !in b.packets;
            && b'.next == b.next && b'.gaps == b.gaps
            && |b'.packets| == |b.packets| + (if entered && !outcome.DroppedOverflow? then 1 else 0)
  {
    if p.number !in b.packets {
      Inserted(b.packets, p.number, p);
      if |b.packets| == b.capacity {
        var oldest := Oldest(b.packets.Keys);
        Removed(b.packets, oldest);
        Inserted(b.packets - {oldest}, p.number, p);
      }
    }
  }

  lemma ArriveExact(s: Session, p: AudioPacket)
    requires Exact(s)
    ensures Exact(Step(s, Arrive(p)))
  {
    PushValid(s.b, p);
    PushCounts(s.b, p);
  }

  lemma StartExact(s: Session, at: U64)
    requires Exact(s)
    ensures Exact(Step(s, Start(at)))
  {
    StartValid(s.b, at);
    var kept := map k | k in s.b.packets && k >= at :: s.b.packets[k];
    SubsetSize(kept.Keys, s.b.packets.Keys);
  }

  /** Nothing is replayed or silently skipped: in every run the pop outcomes tile exactly the interval
      from the first expected sequence to the playout position, the gap counter is exactly the number
      of missing sequences (so it never saturates), and every packet ever admitted is accounted for
      once: played, still held, evicted by overflow, or trimmed by `start_at`. */
  lemma {:induction false} PlayoutExact(capacity: nat, delay: nat, ops: seq<Op>)
    requires 0 < capacity <= MAX_JITTER_PACKETS && delay < capacity
    ensures Exact(Run(capacity, delay, ops))
  {
    if ops != [] {
      PlayoutExact(capacity, delay, ops[..|ops| - 1]);
      var s := Run(capacity, delay, ops[..|ops| - 1]);
      match Last(ops) {
        case Arrive(p) => ArriveExact(s, p);
        case Tick => TickExact(s);
        case Start(at) => StartExact(s, at);
      }
    }
  }

  /** Playout order: of any two outcomes the later one starts where, or after, the earlier one ends. */
  lemma {:induction false} TilesOrdered(out: seq<PopOutcome>, start: nat, end: nat, i: nat, j: nat)
    requires Tiles(out, start, end) && i < j < |out|
    ensures start <= From(out[i]) && To(out[i]) <= From(out[j]) && To(out[j]) <= end
  {
    var init := out[..|out| - 1];
    if j < |out| - 1 {
      TilesOrdered(init, start, From(Last(out)), i, j);
    } else if i < |out| - 2 {
      TilesOrdered(init, start, From(Last(out)), i, |out| - 2);
    } else {
      TilesAscend(init[..|init| - 1], start, From(Last(init)));
    }
  }

  lemma {:induction false} TilesAscend(out: seq<PopOutcome>, start: nat, end: nat)
    requires Tiles(out, start, end)
    ensures start <= end
  {
    if out != [] {
      TilesAscend(out[..|out| - 1], start, From(Last(out)));
    }
  }

  // ---- draining ----

  function Rounds(packets: nat, capacity: nat): nat {
    packets * (capacity + 1)
  }

  /** Distance from the playout position to the oldest packet. */
  function Hole(b: Buffer): nat
    requires Valid(b) && b.packets != map[]
  {
    var oldest := Oldest(b.packets.Keys);
    if b.next.Some? then oldest - b.next.value else 0
  }

  /** The pops a buffer can still answer: one per retained packet after the first, and the distance to
      the first, which is never more than the capacity plus one. */
  function Budget(b: Buffer): nat
    requires Valid(b)
  {
    if b.packets == map[] then 0 else Rounds(|b.packets| - 1, b.capacity) + 1 + Min(Hole(b), b.capacity)
  }

  lemma PopSpends(b: Buffer)
    requires Valid(b) && Pop(b).1.Some?
    ensures Valid(Pop(b).0) && Budget(Pop(b).0) < Budget(b)
  {
    PopValid(b);
    var next := Position(b).value;
    if next in b.packets {
      Removed(b.packets, next);
      var b' := Pop(b).0;
      if b'.packets != map[] {
        assert Budget(b') <= |b'.packets| * (b.capacity + 1) by {
          assert (|b'.packets| - 1) * (b.capacity + 1) + (b.capacity + 1) == |b'.packets| * (b.capacity + 1);
        }
      }
    }
  }

  lemma BudgetBound(b: Buffer)
    requires Valid(b)
    ensures Budget(b) <= |b.packets| * (b.capacity + 1)
  {
    if b.packets != map[] {
      assert (|b.packets| - 1) * (b.capacity + 1) + (b.capacity + 1) == |b.packets| * (b.capacity + 1);
    }
  }

  /** The buffer after popping until `pop` answers `None`, and the outcomes in order. */
  function Drain(b: Buffer): (r: (Buffer, seq<PopOutcome>))
    requires Valid(b)
    ensures Valid(r.0)
    decreases Budget(b)
  {
    PopValid(b);
    var (b', o) := Pop(b);
    if o.None? then (b', [])
    else
      PopSpends(b);
      var (end, rest) := Drain(b');
      (end, [o.value] + rest)
  }

  /** Draining is bounded by what is retained, however distant the retained sequence numbers are. */
  lemma {:induction false} DrainBounded(b: Buffer)
    requires Valid(b)
    ensures |Drain(b).1| <= |b.packets| * (b.capacity + 1)
  {
    DrainSpends(b);
    BudgetBound(b);
  }

  lemma {:induction false} DrainSpends(b: Buffer)
    requires Valid(b)
    ensures |Drain(b).1| <= Budget(b)
    decreases Budget(b)
  {
    if Pop(b).1.Some? {
      PopSpends(b);
      DrainSpends(Pop(b).0);
    }
  }
}
