/** Desktop frames on their way to the native decoder: the reorder queue (rds-desktop `order`), the
    session's own receive loop and the viewer's `RelayDecoder` (rds-desktop `client`). */
module DecodeChain {
  import opened Prelude

  datatype Frame = Frame(number: U64, keyframe: bool, width: nat, height: nat, body: Bytes)

  // ---- decode state ----

  /** What the native decoder is made to do, in order. */
  datatype Call = Create | Feed(frame: Frame)

  datatype Answer = Picture(width: nat, height: nat) | NoPicture | Broken

  /** The native decoder's answers, which may depend on everything it has been made to do: whether one
      can be created after these calls, and what becomes of the last frame fed. */
  datatype Native = Native(create: seq<Call> -> bool, decode: seq<Call> -> Answer)

  /** `calls` is history; `decoder` says whether a native decoder exists. */
  datatype Delivery = Delivery(waiting: bool, decoder: bool, calls: seq<Call>)

  datatype Outcome = Decoded | Buffered | DecodeFailed

  const FRESH := Delivery(true, false, [])

  function Invalidate(d: Delivery): Delivery {
    d.(waiting := true)
  }

  function Judge(n: Native, calls: seq<Call>, f: Frame): Outcome {
    match n.decode(calls + [Feed(f)])
    case Picture(w, h) => if w == f.width && h == f.height then Decoded else DecodeFailed
    case NoPicture => Buffered
    case Broken => DecodeFailed
  }

  function Decode(n: Native, d: Delivery, f: Frame): (Delivery, Outcome) {
    if d.waiting && !f.keyframe then (d, DecodeFailed)
    else
      var d1 := d.(waiting := false, decoder := d.decoder && !d.waiting);
      if f.body == [] then (d1, DecodeFailed)
      else if !d1.decoder && !n.create(d1.calls) then (d1.(calls := d1.calls + [Create]), DecodeFailed)
      else
        var calls := if d1.decoder then d1.calls else d1.calls + [Create];
        (d1.(decoder := true, calls := calls + [Feed(f)]), Judge(n, calls, f))
  }

  /** A failed payload breaks the chain until the next keyframe. */
  function Deliver(n: Native, d: Delivery, f: Frame): Delivery {
    var (d', o) := Decode(n, d, f);
    if o.DecodeFailed? then Invalidate(d') else d'
  }

  // ---- the two consumers ----

  datatype Relay = Relay(next: Option<U64>, delivery: Delivery)

  function RelayPush(n: Native, r: Relay, f: Frame): Relay {
    if f.number == U64_MAX || (r.next.Some? && f.number < r.next.value) then r
    else
      var d := if r.next.Some? && f.number != r.next.value then Invalidate(r.delivery) else r.delivery;
      Relay(Some(f.number + 1), Deliver(n, d, f))
  }

  /** What the receive loop meets: a frame off the reorder queue, the same with a decode that times
      out, or the queue giving up on a missing reference. */
  datatype Event = Popped(frame: Frame) | TimedOut(frame: Frame) | Expired

  datatype Direct = Direct(expected: U64, delivery: Delivery)

  function DirectStep(n: Native, s: Direct, e: Event): Direct {
    match e
    case Expired => s.(delivery := Invalidate(s.delivery))
    case Popped(f) =>
      if f.number < s.expected || f.number == U64_MAX then s
      else
        var d := if f.number > s.expected then Invalidate(s.delivery) else s.delivery;
        Direct(f.number + 1, Deliver(n, d, f))
    case TimedOut(f) =>
      // The worker keeps the old decoder; the session starts over with a new one.
      if f.number < s.expected || f.number == U64_MAX then s
      else
        var d := if f.number > s.expected then Invalidate(s.delivery) else s.delivery;
        Direct(f.number + 1, FRESH.(calls := Decode(n, d, f).0.calls))
  }

  function DirectFrom(n: Native, s: Direct, events: seq<Event>): Direct {
    if events == [] then s
    else DirectStep(n, DirectFrom(n, s, events[..|events| - 1]), Last(events))
  }

  function DirectRun(n: Native, events: seq<Event>): Direct {
    DirectFrom(n, Direct(0, FRESH), events)
  }

  /** The relay sees the same frames; it knows nothing of the queue's timer. */
  function RelayRun(n: Native, events: seq<Event>): Relay {
    if events == [] then Relay(None, FRESH)
    else
      var r := RelayRun(n, events[..|events| - 1]);
      if Last(events).Popped? then RelayPush(n, r, Last(events).frame) else r
  }

  // ---- every payload extends an unbroken run from a keyframe ----

  predicate Links(calls: seq<Call>, i: nat)
    requires i < |calls|
  {
    calls[i].Feed? ==>
      && i > 0
      && if calls[i - 1].Create? then calls[i].frame.keyframe
         else calls[i].frame.number == calls[i - 1].frame.number + 1
  }

  /** Right after a decoder is created it is fed a keyframe, and otherwise each payload is the direct
      successor of the one before. */
  predicate Unbroken(calls: seq<Call>) {
    forall i :: 0 <= i < |calls| ==> Links(calls, i)
  }

  /** A chain that is not waiting for a keyframe has a decoder whose last payload is the one just
      before the position `next`. */
  predicate ChainOk(d: Delivery, next: nat) {
    && Unbroken(d.calls)
    && (!d.waiting ==> d.decoder && d.calls != [] && Last(d.calls).Feed? && Last(d.calls).frame.number + 1 == next)
  }

  lemma Appended(calls: seq<Call>, c: Call)
    requires Unbroken(calls)
    requires c.Feed? ==>
               && calls != []
               && if Last(calls).Create? then c.frame.keyframe else c.frame.number == Last(calls).frame.number + 1
    ensures Unbroken(calls + [c])
  {
    forall i | 0 <= i < |calls + [c]|
      ensures Links(calls + [c], i)
    {
      if i < |calls| {
        assert Links(calls, i);
      }
    }
  }

  lemma DecodeKeepsChain(n: Native, d: Delivery, f: Frame, next: nat)
    requires ChainOk(d, next) && (f.number == next || d.waiting)
    ensures Unbroken(Decode(n, d, f).0.calls)
    ensures ChainOk(Deliver(n, d, f), f.number + 1)
  {
    if !(d.waiting && !f.keyframe) && f.body != [] {
      if d.waiting || !d.decoder {
        Appended(d.calls, Create);
        if n.create(d.calls) {
          Appended(d.calls + [Create], Feed(f));
        }
      } else {
        Appended(d.calls, Feed(f));
      }
    }
  }

  /** Decode-chain discipline of the receive loop, with gaps, expiries and decode timeouts anywhere. */
  lemma {:induction false} DirectChain(n: Native, events: seq<Event>)
    ensures ChainOk(DirectRun(n, events).delivery, DirectRun(n, events).expected)
  {
    if events != [] {
      DirectChain(n, events[..|events| - 1]);
      var s := DirectRun(n, events[..|events| - 1]);
      var e := Last(events);
      if !e.Expired? && e.frame.number >= s.expected && e.frame.number != U64_MAX {
        var d := if e.frame.number > s.expected then Invalidate(s.delivery) else s.delivery;
        DecodeKeepsChain(n, d, e.frame, s.expected);
      }
    }
  }

  /** The same discipline in the relay decoder. */
  lemma {:induction false} RelayChain(n: Native, events: seq<Event>)
    ensures var r := RelayRun(n, events); ChainOk(r.delivery, if r.next.Some? then r.next.value else 0)
    ensures RelayRun(n, events).next.None? ==> RelayRun(n, events).delivery == FRESH
  {
    if events != [] {
      RelayChain(n, events[..|events| - 1]);
      var r := RelayRun(n, events[..|events| - 1]);
      var e := Last(events);
      if e.Popped? && e.frame.number != U64_MAX && !(r.next.Some? && e.frame.number < r.next.value) {
        var d := if r.next.Some? && e.frame.number != r.next.value then Invalidate(r.delivery) else r.delivery;
        DecodeKeepsChain(n, d, e.frame, if r.next.Some? then r.next.value else 0);
      }
    }
  }

  // ---- when the two feed the decoder identically ----

  predicate NoTimeout(events: seq<Event>) {
    forall i :: 0 <= i < |events| ==> !events[i].TimedOut?
  }

  predicate Stale(s: Direct, f: Frame) {
    f.number < s.expected || f.number == U64_MAX
  }

  /** The queue expired while the session's chain was whole, and since then the session has met nothing
      but further expiries and stale frames. */
  predicate GivenUp(n: Native, events: seq<Event>) {
    events != [] &&
    var init := events[..|events| - 1];
    match Last(events)
    case Expired => GivenUp(n, init) || !DirectRun(n, init).delivery.waiting
    case Popped(f) => GivenUp(n, init) && Stale(DirectRun(n, init), f)
    case TimedOut(_) => false
  }

  /** The reference that was given up on arrives after all. */
  predicate Returns(s: Direct, e: Event) {
    e.Popped? && e.frame.number == s.expected && e.frame.number != U64_MAX && e.frame.body != []
  }

  /** Somewhere a reference was given up on while the chain was whole and then arrived as the next frame
      that is not stale, with a payload. */
  predicate Forked(n: Native, events: seq<Event>) {
    events != [] &&
    var init := events[..|events| - 1];
    Forked(n, init) || (GivenUp(n, init) && Returns(DirectRun(n, init), Last(events)))
  }

  /** Same calls, same position; the direct chain may be waiting where the relay's is whole. */
  predicate InStep(s: Direct, r: Relay) {
    && s.delivery.calls == r.delivery.calls
    && (if r.next.Some? then r.next.value == s.expected else s.expected == 0 && r.delivery == FRESH)
    && (s.delivery.waiting || !r.delivery.waiting)
    && (!r.delivery.waiting ==> r.delivery.decoder)
    && (!s.delivery.waiting ==> s.delivery.decoder)
    && (r.delivery.waiting ==> s.delivery.waiting)
  }

  /** The session waits for a keyframe and the relay does not. */
  predicate Apart(s: Direct, r: Relay) {
    s.delivery.waiting && !r.delivery.waiting
  }

  lemma StayInStep(n: Native, s: Direct, r: Relay, e: Event)
    requires InStep(s, r) && !e.TimedOut? && !(Apart(s, r) && Returns(s, e))
    ensures var s', r' := DirectStep(n, s, e), if e.Popped? then RelayPush(n, r, e.frame) else r;
            && InStep(s', r')
            && (Apart(s', r') <==>
                if e.Expired? then Apart(s, r) || !s.delivery.waiting else Apart(s, r) && Stale(s, e.frame))
  {
  }

  /** The logs parted at position `at` for good: the relay fed there, the direct loop starts a new
      decoder there or has not called since and waits for a keyframe. */
  predicate Parted(s: Direct, r: Relay, at: nat) {
    && at < |r.delivery.calls| && r.delivery.calls[at].Feed?
    && at <= |s.delivery.calls|
    && (if at == |s.delivery.calls| then s.delivery.waiting else s.delivery.calls[at].Create?)
  }

  lemma ForkParts(n: Native, s: Direct, r: Relay, e: Event)
    requires InStep(s, r) && Apart(s, r) && Returns(s, e)
    ensures Parted(DirectStep(n, s, e), RelayPush(n, r, e.frame), |s.delivery.calls|)
  {
  }

  lemma StayParted(n: Native, s: Direct, r: Relay, e: Event, at: nat)
    requires Parted(s, r, at) && !e.TimedOut?
    ensures Parted(DirectStep(n, s, e), if e.Popped? then RelayPush(n, r, e.frame) else r, at)
  {
  }

  lemma {:induction false} Compare(n: Native, events: seq<Event>) returns (at: nat)
    requires NoTimeout(events)
    ensures !Forked(n, events) ==>
              && InStep(DirectRun(n, events), RelayRun(n, events))
              && (GivenUp(n, events) <==> Apart(DirectRun(n, events), RelayRun(n, events)))
    ensures Forked(n, events) ==> Parted(DirectRun(n, events), RelayRun(n, events), at)
  {
    at := 0;
    if events != [] {
      var init, e := events[..|events| - 1], Last(events);
      at := Compare(n, init);
      var s, r := DirectRun(n, init), RelayRun(n, init);
      if Forked(n, init) {
        StayParted(n, s, r, e, at);
      } else if GivenUp(n, init) && Returns(s, e) {
        ForkParts(n, s, r, e);
        at := |s.delivery.calls|;
      } else {
        StayInStep(n, s, r, e);
      }
    }
  }

  /** For the same ordered frames and decoder answers, the receive loop and the relay decoder make the
      same native calls exactly when no reference that was given up on while the chain was whole arrives
      after all, as the next frame that is not stale and with a payload. */
  lemma FedAlike(n: Native, events: seq<Event>)
    requires NoTimeout(events)
    ensures DirectRun(n, events).delivery.calls == RelayRun(n, events).delivery.calls <==> !Forked(n, events)
  {
    var at := Compare(n, events);
  }

  /** In particular they agree on every run in which the queue never expires. */
  lemma {:induction false} FedAlikeWithoutExpiry(n: Native, events: seq<Event>)
    requires forall i :: 0 <= i < |events| ==> events[i].Popped?
    ensures DirectRun(n, events).delivery.calls == RelayRun(n, events).delivery.calls
    ensures !Forked(n, events) && DirectRun(n, events).delivery.waiting == RelayRun(n, events).delivery.waiting
  {
    if events != [] {
      var init := events[..|events| - 1];
      FedAlikeWithoutExpiry(n, init);
      var at := Compare(n, init);
      StayInStep(n, DirectRun(n, init), RelayRun(n, init), Last(events));
    }
    var at := Compare(n, events);
  }

  // ---- what the relay decoder tells its viewer ----

  const IDR_MIN_INTERVAL_MS := 500

  datatype RelayOutcome = Shown | Pending | NeedIdr

  /** `reported` is the time of the last request for a keyframe, in milliseconds. */
  datatype Viewer = Viewer(relay: Relay, reported: Option<nat>)

  /** What becomes of a frame that the relay does not ignore. */
  function RelayDecoded(n: Native, r: Relay, f: Frame): Outcome {
    var d := if r.next.Some? && f.number != r.next.value then Invalidate(r.delivery) else r.delivery;
    Decode(n, d, f).1
  }

  predicate RelayIgnores(r: Relay, f: Frame) {
    f.number == U64_MAX || (r.next.Some? && f.number < r.next.value)
  }

  predicate Due(v: Viewer, now: nat) {
    v.reported.None? || SaturatingSub(now, v.reported.value) >= IDR_MIN_INTERVAL_MS
  }

  function ViewerPush(n: Native, v: Viewer, f: Frame, now: nat): (Viewer, RelayOutcome) {
    var relay := RelayPush(n, v.relay, f);
    if RelayIgnores(v.relay, f) then (v, Pending)
    else match RelayDecoded(n, v.relay, f)
      case Decoded => (v.(relay := relay), Shown)
      case Buffered => (v.(relay := relay), Pending)
      case DecodeFailed =>
        if Due(v, now) then (Viewer(relay, Some(now)), NeedIdr) else (v.(relay := relay), Pending)
  }

  /** The viewer and the times of its reports after frames arriving at given times. */
  function ViewerRun(n: Native, arrivals: seq<(Frame, nat)>): (Viewer, seq<nat>) {
    if arrivals == [] then (Viewer(Relay(None, FRESH), None), [])
    else
      var (v, reports) := ViewerRun(n, arrivals[..|arrivals| - 1]);
      var (f, now) := Last(arrivals);
      var (v', o) := ViewerPush(n, v, f, now);
      (v', if o.NeedIdr? then reports + [now] else reports)
  }

  predicate Spaced(reports: seq<nat>) {
    forall i :: 0 < i < |reports| ==> reports[i - 1] + IDR_MIN_INTERVAL_MS <= reports[i]
  }

  /** Reports are rate limited and none is missed: in every run, with any clock, two of them are at least
      the interval apart, and a frame that fails to decode is reported itself or comes less than the
      interval after the last report. */
  lemma {:induction false} ReportsLimited(n: Native, arrivals: seq<(Frame, nat)>)
    ensures var (v, reports) := ViewerRun(n, arrivals);
            Spaced(reports) && v.reported == if reports == [] then None else Some(Last(reports))
    ensures arrivals != [] ==>
              var before := ViewerRun(n, arrivals[..|arrivals| - 1]).0;
              var (f, now) := Last(arrivals);
              !RelayIgnores(before.relay, f) && RelayDecoded(n, before.relay, f).DecodeFailed? ==>
                && ViewerRun(n, arrivals).1 != []
                && now < Last(ViewerRun(n, arrivals).1) + IDR_MIN_INTERVAL_MS
  {
    if arrivals != [] {
      ReportsLimited(n, arrivals[..|arrivals| - 1]);
    }
  }
}
