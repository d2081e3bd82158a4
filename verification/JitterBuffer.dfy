/** The bounded reorder buffer of the audio playout path (rds-audio `JitterBuffer`). */
module JitterBuffer {
  import opened Prelude

  const MAX_JITTER_PACKETS: nat := 64
  const MAX_OPUS_PACKET_BYTES: nat := 1276

  datatype AudioFormat = AudioFormat(sampleRate: nat, channels: nat)

  datatype AudioPacket = AudioPacket(number: U64, timestampUs: U64, samples: nat, data: Bytes)

  /** libopus: the number of frames in a packet and the samples it decodes to at a rate. */
  datatype Opus = Opus(frames: Bytes -> Option<nat>, samples: (Bytes, nat) -> Option<nat>)

  datatype AudioError = InvalidFormat | InvalidFrame | InvalidPacket

  predicate FormatOk(f: AudioFormat) {
    f.sampleRate in {8_000, 12_000, 16_000, 24_000, 48_000} && f.channels in {1, 2}
  }

  /** Frame durations in microseconds: 2.5, 5, 10, 20, 40 and 60 milliseconds. */
  const DURATIONS: seq<nat> := [2_500, 5_000, 10_000, 20_000, 40_000, 60_000]

  function FrameSamples(micros: nat, rate: nat): nat {
    rate * micros / 1_000_000
  }

  function Validate(opus: Opus, p: AudioPacket, f: AudioFormat, frame: nat): Option<AudioError> {
    if !FormatOk(f) then Some(InvalidFormat)
    else if p.number == U64_MAX then Some(InvalidPacket)
    else if p.samples != frame
            || (forall i :: 0 <= i < |DURATIONS| ==> FrameSamples(DURATIONS[i], f.sampleRate) != frame)
    then Some(InvalidFrame)
    else if p.data == [] || |p.data| > MAX_OPUS_PACKET_BYTES then Some(InvalidPacket)
    else if opus.frames(p.data) != Some(1) then Some(InvalidPacket)
    else if opus.samples(p.data, f.sampleRate).None? then Some(InvalidPacket)
    else if opus.samples(p.data, f.sampleRate) != Some(frame) then Some(InvalidFrame)
    else None
  }

  // ---- the buffer as a value ----

  datatype PushOutcome = Accepted | Duplicate | Late | DroppedOverflow

  datatype PopOutcome =
    | Played(packet: AudioPacket)
    | Gap(sequence: U64)
    | Discontinuity(start: U64, end: U64)

  datatype Buffer = Buffer(
    capacity: nat,
    delay: nat,
    next: Option<U64>,
    packets: map<U64, AudioPacket>,
    accepted: U64,
    duplicates: U64,
    late: U64,
    overflow: U64,
    gaps: U64)

  /** Retained packets sit under their own sequence number, none is exhausted, and none is behind the
      playout position. */
  ghost predicate Valid(b: Buffer) {
    && 0 < b.capacity <= MAX_JITTER_PACKETS && b.delay < b.capacity
    && |b.packets| <= b.capacity
    && (forall k :: k in b.packets ==> b.packets[k].number == k && k < U64_MAX)
    && (b.next.Some? ==> forall k :: k in b.packets ==> b.next.value <= k)
  }

  lemma {:induction false} Least(keys: set<U64>) returns (k: U64)
    requires keys != {}
    ensures k in keys && forall j :: j in keys ==> k <= j
  {
    k :| k in keys;
    var rest := keys - {k};
    assert forall j :: j in keys ==> j == k || j in rest;
    if rest != {} {
      var m := Least(rest);
      k := if k <= m then k else m;
    }
  }

  lemma MinExists(keys: set<U64>)
    requires keys != {}
    ensures exists k :: k in keys && forall j :: j in keys ==> k <= j
  {
    var k := Least(keys);
  }

  /** The first key of the `BTreeMap`. */
  function Oldest(keys: set<U64>): (k: U64)
    requires keys != {}
    ensures k in keys && forall j :: j in keys ==> k <= j
  {
    MinExists(keys);
    var k :| k in keys && forall j :: j in keys ==> k <= j;
    k
  }

  function Empty(capacity: nat, delay: nat): Buffer {
    Buffer(capacity, delay, None, map[], 0, 0, 0, 0, 0)
  }

  /** A packet that passed validation arrives. */
  function Push(b: Buffer, p: AudioPacket): (Buffer, PushOutcome) {
    if b.next.Some? && p.number < b.next.value then (b.(late := SaturatingAdd(b.late, 1)), Late)
    else if p.number in b.packets then (b.(duplicates := SaturatingAdd(b.duplicates, 1)), Duplicate)
    else if |b.packets| == b.capacity && b.packets != map[] then
      var full := b.(overflow := SaturatingAdd(b.overflow, 1));
      var oldest := Oldest(b.packets.Keys);
      if p.number < oldest then (full, DroppedOverflow)
      else
        (full.(packets := (b.packets - {oldest})[p.number := p], accepted := SaturatingAdd(b.accepted, 1)),
         DroppedOverflow)
    else (b.(packets := b.packets[p.number := p], accepted := SaturatingAdd(b.accepted, 1)), Accepted)
  }

  /** The position `pop` plays from: the first retained packet until playout has started. */
  function Position(b: Buffer): Option<U64> {
    if b.next.Some? then b.next
    else if b.packets == map[] then None
    else Some(Oldest(b.packets.Keys))
  }

  function Pop(b: Buffer): (r: (Buffer, Option<PopOutcome>))
    requires Valid(b)
  {
    if Position(b).None? then (b, None)
    else
      var next := Position(b).value;
      if next in b.packets then
        (b.(next := Some(next + 1), packets := b.packets - {next}), Some(Played(b.packets[next])))
      else if |b.packets| > b.delay then
        var available := Oldest(b.packets.Keys);
        var missing := available - next;
        if missing > b.capacity then
          (b.(next := Some(available), gaps := SaturatingAdd(b.gaps, missing)), Some(Discontinuity(next, available)))
        else (b.(next := Some(next + 1), gaps := SaturatingAdd(b.gaps, 1)), Some(Gap(next)))
      else (b.(next := Some(next)), None)
  }

  function StartAt(b: Buffer, s: U64): Result<Buffer, AudioError> {
    if b.next.Some? || s == U64_MAX then Err(InvalidFrame)
    else
      var kept := map k | k in b.packets && k >= s :: b.packets[k];
      Ok(b.(next := Some(s), packets := kept, late := SaturatingAdd(b.late, SaturatingSub(|b.packets|, |kept|))))
  }

  // ---- the buffer as an object ----

  class Jitter {
    const format: AudioFormat
    const frameSamples: nat
    const capacity: nat
    const delay: nat
    var next: Option<U64>
    var packets: map<U64, AudioPacket>
    var accepted: U64
    var duplicates: U64
    var late: U64
    var overflow: U64
    var gaps: U64

    ghost function View(): Buffer
      reads this
    {
      Buffer(capacity, delay, next, packets, accepted, duplicates, late, overflow, gaps)
    }

    constructor (format: AudioFormat, capacity: nat, delay: nat)
      requires FormatOk(format) && 0 < capacity <= MAX_JITTER_PACKETS && delay < capacity
      ensures View() == Empty(capacity, delay) && Valid(View())
      ensures this.format == format && frameSamples == FrameSamples(20_000, format.sampleRate)
    {
      this.format := format;
      this.frameSamples := FrameSamples(20_000, format.sampleRate);
      this.capacity := capacity;
      this.delay := delay;
      next, packets := None, map[];
      accepted, duplicates, late, overflow, gaps := 0, 0, 0, 0, 0;
    }

    /** `JitterBuffer::new`. */
    static method New(format: AudioFormat, capacity: nat, delay: nat) returns (j: Jitter?, error: Option<AudioError>)
      ensures error == if !FormatOk(format) then Some(InvalidFormat)
                       else if capacity == 0 || capacity > MAX_JITTER_PACKETS || delay >= capacity
                       then Some(InvalidFrame)
                       else None
      ensures error.None? <==> j != null
      ensures j != null ==> fresh(j) && j.View() == Empty(capacity, delay) && Valid(j.View())
    {
      if !FormatOk(format) {
        return null, Some(InvalidFormat);
      }
      if capacity == 0 || capacity > MAX_JITTER_PACKETS || delay >= capacity {
        return null, Some(InvalidFrame);
      }
      j := new Jitter(format, capacity, delay);
      error := None;
    }

    method Offer(opus: Opus, p: AudioPacket) returns (r: Result<PushOutcome, AudioError>)
      requires Valid(View())
      modifies this
      ensures Valid(View())
      ensures Validate(opus, p, format, frameSamples).Some? ==>
                r == Err(Validate(opus, p, format, frameSamples).value) && View() == old(View())
      ensures Validate(opus, p, format, frameSamples).None? ==>
                r.Ok? && (View(), r.value) == Push(old(View()), p)
    {
      PushValid(View(), p);
      var refused := Validate(opus, p, format, frameSamples);
      if refused.Some? {
        return Err(refused.value);
      }
      if next.Some? && p.number < next.value {
        late := SaturatingAdd(late, 1);
        return Ok(Late);
      }
      if p.number in packets {
        duplicates := SaturatingAdd(duplicates, 1);
        return Ok(Duplicate);
      }
      var outcome := Accepted;
      if |packets| == capacity {
        overflow := SaturatingAdd(overflow, 1);
        var oldest := Oldest(packets.Keys);
        if p.number < oldest {
          return Ok(DroppedOverflow);
        }
        packets := packets - {oldest};
        outcome := DroppedOverflow;
      }
      packets := packets[p.number := p];
      accepted := SaturatingAdd(accepted, 1);
      return Ok(outcome);
    }

    method Take() returns (r: Option<PopOutcome>)
      requires Valid(View())
      modifies this
      ensures Valid(View()) && (View(), r) == Pop(old(View()))
    {
      PopValid(View());
      if next.None? {
        if packets == map[] {
          return None;
        }
        next := Some(Oldest(packets.Keys));
      }
      var n := next.value;
      if n in packets {
        var packet := packets[n];
        packets := packets - {n};
        next := Some(n + 1);
        return Some(Played(packet));
      }
      if |packets| > delay {
        var available := Oldest(packets.Keys);
        var missing := available - n;
        if missing > capacity {
          next := Some(available);
          gaps := SaturatingAdd(gaps, missing);
          return Some(Discontinuity(n, available));
        }
        next := Some(n + 1);
        gaps := SaturatingAdd(gaps, 1);
        return Some(Gap(n));
      }
      return None;
    }

    method Begin(s: U64) returns (error: Option<AudioError>)
      requires Valid(View())
      modifies this
      ensures Valid(View())
      ensures error.Some? <==> StartAt(old(View()), s).Err?
      ensures View() == if error.Some? then old(View()) else StartAt(old(View()), s).value
    {
      if next.Some? || s == U64_MAX {
        return Some(InvalidFrame);
      }
      StartValid(View(), s);
      var kept := map k | k in packets && k >= s :: packets[k];
      late := SaturatingAdd(late, SaturatingSub(|packets|, |kept|));
      packets := kept;
      next := Some(s);
      return None;
    }
  }

  // ---- the buffer stays well formed, and no sequence arithmetic overflows ----

  lemma Removed(m: map<U64, AudioPacket>, k: U64)
    requires k in m
    ensures |m - {k}| == |m| - 1
  {
    assert (m - {k}).Keys == m.Keys - {k};
  }

  lemma Inserted(m: map<U64, AudioPacket>, k: U64, p: AudioPacket)
    requires k !in m
    ensures |m[k := p]| == |m| + 1
  {
    assert m[k := p].Keys == m.Keys + {k};
  }

  lemma PushValid(b: Buffer, p: AudioPacket)
    requires Valid(b)
    ensures p.number < U64_MAX ==> Valid(Push(b, p).0)
  {
    if p.number !in b.packets {
      if |b.packets| == b.capacity {
        Replaced(b.packets, Oldest(b.packets.Keys), p);
      } else {
        Inserted(b.packets, p.number, p);
      }
    }
  }

  lemma Replaced(m: map<U64, AudioPacket>, k: U64, p: AudioPacket)
    requires k in m && p.number !in m
    ensures |(m - {k})[p.number := p]| == |m|
  {
    Removed(m, k);
    Inserted(m - {k}, p.number, p);
  }

  lemma PopValid(b: Buffer)
    requires Valid(b)
    ensures Valid(Pop(b).0)
  {
    if Position(b).Some? && Position(b).value in b.packets {
      Removed(b.packets, Position(b).value);
    }
  }

  lemma StartValid(b: Buffer, s: U64)
    requires Valid(b)
    ensures StartAt(b, s).Ok? ==> Valid(StartAt(b, s).value)
  {
    var kept := map k | k in b.packets && k >= s :: b.packets[k];
    SubsetSize(kept.Keys, b.packets.Keys);
  }

  lemma {:induction false} SubsetSize<T>(a: set<T>, b: set<T>)
    requires a <= b
    ensures |a| <= |b|
    ensures a < b ==> |a| < |b|
  {
    if a != {} {
      var x :| x in a;
      SubsetSize(a - {x}, b - {x});
      assert a < b ==> a - {x} < b - {x};
    }
  }
}
