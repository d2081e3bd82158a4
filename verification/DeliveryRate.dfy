/** Conservative goodput from timely receipts (rds-desktop `delivery_rate`). */
module DeliveryRate {
  import opened Prelude

  datatype Sample = Sample(path: Option<U64>, now: U64, bytes: U64, receipts: U64, impaired: bool)

  /** `floor` is a rate with the time it was sampled at. */
  datatype Rate = Rate(
    path: Option<U64>, start: U64, bytes: U64, receipts: U64, previous: Option<nat>, floor: Option<(nat, U64)>)

  const UNKNOWN := Rate(None, 0, 0, 0, None, None)

  predicate Resets(r: Rate, s: Sample) {
    s.path.None? || s.path != r.path || s.impaired || s.now < r.start
  }

  /** Bits per second over a window, if it is long and populated enough to count. */
  function WindowRate(elapsed: nat, delivered: nat, count: nat): Option<nat>
    requires elapsed > 0
  {
    if elapsed <= 2500 && count >= 3 && delivered >= 4096 then Some(Min(delivered * 8000, U64_MAX) / elapsed) else None
  }

  function Advance(r: Rate, s: Sample): Rate {
    if Resets(r, s) then Rate(s.path, s.now, s.bytes, s.receipts, None, None)
    else if s.now - r.start >= 1000 then
      var rate := WindowRate(s.now - r.start, SaturatingSub(s.bytes, r.bytes), SaturatingSub(s.receipts, r.receipts));
      var floor :=
        if r.previous.Some? && rate.Some? then Some((Min(r.previous.value, rate.value) / 5 * 4, s.now)) else None;
      Rate(r.path, s.now, s.bytes, s.receipts, rate, floor)
    else r
  }

  function Reported(r: Rate, s: Sample): Option<nat> {
    var r' := Advance(r, s);
    if !Resets(r, s) && r'.floor.Some? && SaturatingSub(s.now, r'.floor.value.1) <= 2000
    then Some(r'.floor.value.0) else None
  }

  class Estimator {
    var path: Option<U64>
    var start: U64
    var bytes: U64
    var receipts: U64
    var previous: Option<nat>
    var floor: Option<(nat, U64)>

    ghost function View(): Rate
      reads this
    {
      Rate(path, start, bytes, receipts, previous, floor)
    }

    constructor ()
      ensures View() == UNKNOWN
    {
      path, start, bytes, receipts, previous, floor := None, 0, 0, 0, None, None;
    }

    method Take(s: Sample) returns (reported: Option<nat>)
      modifies this
      ensures View() == Advance(old(View()), s) && reported == Reported(old(View()), s)
    {
      if s.path.None? || s.path != path || s.impaired || s.now < start {
        path, start, bytes, receipts, previous, floor := s.path, s.now, s.bytes, s.receipts, None, None;
        return None;
      }
      var elapsed := SaturatingSub(s.now, start);
      if elapsed >= 1000 {
        var rate := WindowRate(elapsed, SaturatingSub(s.bytes, bytes), SaturatingSub(s.receipts, receipts));
        if previous.Some? && rate.Some? {
          floor := Some((Min(previous.value, rate.value) / 5 * 4, s.now));
        } else {
          floor := None;
        }
        previous, start, bytes, receipts := rate, s.now, s.bytes, s.receipts;
      }
      if floor.Some? && SaturatingSub(s.now, floor.value.1) <= 2000 {
        return Some(floor.value.0);
      }
      return None;
    }
  }

  // ---- what a reported floor is backed by ----

  function Run(samples: seq<Sample>): Rate {
    if samples == [] then UNKNOWN else Advance(Run(samples[..|samples| - 1]), Last(samples))
  }

  function Answer(samples: seq<Sample>): Option<nat>
    requires samples != []
  {
    Reported(Run(samples[..|samples| - 1]), Last(samples))
  }

  /** From sample `i` on, nothing was impaired and the path stayed known and the same. */
  predicate Steady(samples: seq<Sample>, i: nat) {
    i < |samples| && samples[i].path.Some?
    && forall m :: i < m < |samples| ==> samples[m].path == samples[i].path && !samples[m].impaired
  }

  /** The window between samples `i` and `j` counts: one to two and a half seconds, at least three
      receipts and 4096 bytes. */
  predicate Counts(samples: seq<Sample>, i: nat, j: nat) {
    && i < j < |samples|
    && 1000 <= samples[j].now - samples[i].now <= 2500
    && samples[j].receipts - samples[i].receipts >= 3
    && samples[j].bytes - samples[i].bytes >= 4096
  }

  /** Bits per second between samples `i` and `j`, in 64-bit saturating arithmetic. */
  function RateOf(samples: seq<Sample>, i: nat, j: nat): nat
    requires Counts(samples, i, j)
  {
    Min((samples[j].bytes - samples[i].bytes) * 8000, U64_MAX) / (samples[j].now - samples[i].now)
  }

  /** `floor` is four fifths of the slower of two adjacent windows. */
  predicate Justified(samples: seq<Sample>, i: nat, j: nat, k: nat, floor: nat) {
    && Counts(samples, i, j) && Counts(samples, j, k)
    && floor == Min(RateOf(samples, i, j), RateOf(samples, j, k)) / 5 * 4
  }

  /** Where the current window, the one before it and the floor come from. */
  datatype Origin = Origin(at: nat, prior: nat, first: nat)

  ghost predicate Traced(samples: seq<Sample>, r: Rate, o: Origin) {
    && Steady(samples, o.at) && r.path == samples[o.at].path
    && r.start == samples[o.at].now && r.bytes == samples[o.at].bytes && r.receipts == samples[o.at].receipts
    && (r.previous.Some? ==>
          && Steady(samples, o.prior) && Counts(samples, o.prior, o.at)
          && r.previous.value == RateOf(samples, o.prior, o.at))
    && (r.floor.Some? ==>
          && r.floor.value.1 == r.start
          && Steady(samples, o.first) && Justified(samples, o.first, o.prior, o.at, r.floor.value.0))
  }

  lemma Longer(samples: seq<Sample>, s: Sample, r: Rate, o: Origin)
    requires Traced(samples, r, o) && s.path == r.path && !s.impaired
    ensures Traced(samples + [s], r, o)
  {
    var more := samples + [s];
    assert forall m :: 0 <= m < |samples| ==> more[m] == samples[m];
    assert r.previous.Some? ==> RateOf(more, o.prior, o.at) == RateOf(samples, o.prior, o.at);
    assert r.floor.Some? ==> RateOf(more, o.first, o.prior) == RateOf(samples, o.first, o.prior);
  }

  /** The state of every run is traced to the samples it came from. */
  lemma {:induction false} RunTraced(samples: seq<Sample>) returns (o: Origin)
    requires samples != []
    ensures Run(samples).path.Some? ==> Traced(samples, Run(samples), o)
    ensures Run(samples).path.None? ==> Run(samples).floor.None?
  {
    var init, s := samples[..|samples| - 1], Last(samples);
    var r := Run(init);
    o := Origin(|samples| - 1, 0, 0);
    if !Resets(r, s) {
      var was := RunTraced(init);
      assert samples == init + [s];
      Longer(init, s, r, was);
      o := was;
      if s.now - r.start >= 1000 {
        o := Rolled(samples, r, s, was);
      }
    }
  }

  /** The window rolls over at the last sample. */
  lemma Rolled(samples: seq<Sample>, r: Rate, s: Sample, was: Origin) returns (o: Origin)
    requires samples != [] && s == Last(samples) && !Resets(r, s) && s.now - r.start >= 1000
    requires Traced(samples, r, was) && was.at < |samples| - 1
    ensures Traced(samples, Advance(r, s), o)
  {
    var n := |samples| - 1;
    var rate := WindowRate(s.now - r.start, SaturatingSub(s.bytes, r.bytes), SaturatingSub(s.receipts, r.receipts));
    o := Origin(n, was.at, was.prior);
    assert rate.Some? ==> Counts(samples, was.at, n) && rate.value == RateOf(samples, was.at, n);
  }

  /** A floor leaves a fifth of what a window delivered unused. */
  predicate Spare(samples: seq<Sample>, i: nat, j: nat, floor: nat)
    requires Counts(samples, i, j)
  {
    5 * (floor * (samples[j].now - samples[i].now)) <= 4 * (8000 * (samples[j].bytes - samples[i].bytes))
  }

  lemma RateSpares(samples: seq<Sample>, i: nat, j: nat, floor: nat)
    requires Counts(samples, i, j) && 5 * floor <= 4 * RateOf(samples, i, j)
    ensures Spare(samples, i, j, floor)
  {
    var elapsed, rate := samples[j].now - samples[i].now, RateOf(samples, i, j);
    var total := Min((samples[j].bytes - samples[i].bytes) * 8000, U64_MAX);
    assert rate * elapsed <= total;
    assert 5 * floor * elapsed <= 4 * rate * elapsed;
  }

  /** A floor is always justified by delivery: whenever one is reported, two adjacent populated windows
      on the same unimpaired path back it with a fifth to spare, and it is less than a second old (the
      two-second age limit never decides). */
  lemma FloorJustified(samples: seq<Sample>) returns (i: nat, j: nat, k: nat)
    requires samples != [] && Answer(samples).Some?
    ensures Steady(samples, i) && Justified(samples, i, j, k, Answer(samples).value)
    ensures Spare(samples, i, j, Answer(samples).value) && Spare(samples, j, k, Answer(samples).value)
    ensures k < |samples| && samples[k].now <= Last(samples).now < samples[k].now + 1000
  {
    var o := RunTraced(samples);
    i, j, k := o.first, o.prior, o.at;
    RateSpares(samples, i, j, Answer(samples).value);
    RateSpares(samples, j, k, Answer(samples).value);
  }

  /** Nor does the age limit ever hide one. */
  lemma AgeLimitIdle(samples: seq<Sample>)
    requires samples != []
    ensures Answer(samples).Some? <==> Run(samples).floor.Some?
  {
    var o := RunTraced(samples);
  }
}
