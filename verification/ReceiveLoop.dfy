/** The desktop receive loop around the reorder queue (rds-desktop `client`): it releases everything the
    queue will give before it takes in anything else. */
module ReceiveLoop {
  import opened Prelude
  import opened DecodeChain
  import opened FrameOrder

  // ---- every order of calls in which arrivals meet an emptied queue ----

  /** Every arrival meets a queue whose awaited frame is absent. */
  ghost predicate Looped(ops: seq<Op>) {
    forall i :: 0 <= i < |ops| && ops[i].Arrives? ==> !Ready(Run(ops[..i]).q)
  }

  lemma LoopedPrefix(ops: seq<Op>, n: nat)
    requires Looped(ops) && n <= |ops|
    ensures Looped(ops[..n])
  {
    assert forall i :: 0 <= i < n ==> ops[..n][i] == ops[i] && ops[..n][..i] == ops[..i];
  }

  lemma LoopedMore(ops: seq<Op>, op: Op)
    requires Looped(ops) && (op.Arrives? ==> !Ready(Run(ops).q))
    ensures Looped(ops + [op])
  {
    var more := ops + [op];
    assert forall i :: 0 <= i < |ops| ==> more[i] == ops[i] && more[..i] == ops[..i];
    assert more[..|ops|] == ops;
  }

  /** The awaited frame then always carries on from the last release, so nothing can be replaced. */
  lemma {:induction false} NeverSpoiled(ops: seq<Op>)
    requires Looped(ops)
    ensures !Spoiled(ops)
  {
    if ops != [] {
      var init := ops[..|ops| - 1];
      LoopedPrefix(ops, |ops| - 1);
      NeverSpoiled(init);
      RunSound(init);
      assert ops[|ops| - 1] == Last(ops);
    }
  }

  /** Bounded reference ordering: whatever arrives, expires and is released, frames leave consecutively,
      and only a keyframe skips a gap or comes first. */
  lemma LoopedOrderly(ops: seq<Op>)
    requires Looped(ops)
    ensures Orderly(Run(ops).events)
  {
    forall i | 0 <= i < |ops| && ops[i].Pops?
      ensures !Spoiled(ops[..i])
    {
      LoopedPrefix(ops, i);
      NeverSpoiled(ops[..i]);
    }
    QueueOrderly(ops);
  }

  // ---- the loop ----

  /** What the loop wakes up to: a complete frame, or its repair timer. `drained` is the time of the
      releases that follow. */
  datatype Wakeup = Complete(frame: Frame, at: nat, drained: nat) | Repair(at: nat, timeout: nat, drained: nat)

  function CallOf(w: Wakeup): Op {
    match w
    case Complete(f, at, _) => Arrives(f, at)
    case Repair(at, timeout, _) => Ticks(at, timeout)
  }

  function Drained(s: Intake, now: nat): Intake {
    var (q, popped) := PopAll(s.q, now);
    Intake(q, s.events + popped)
  }

  function LoopRun(ws: seq<Wakeup>): Intake {
    if ws == [] then Intake(EMPTY_QUEUE, [])
    else Drained(Step(LoopRun(ws[..|ws| - 1]), CallOf(Last(ws))), Last(ws).drained)
  }

  lemma {:induction false} PopAllEmpties(q: Queue, now: nat)
    ensures !Ready(PopAll(q, now).0)
    decreases |q.frames|
  {
    if Ready(q) {
      TakeShrinks(q, now);
      PopAllEmpties(Take(q, now).0, now);
    }
  }

  /** Draining is popping until nothing comes. */
  lemma {:induction false} DrainedIsPops(ops: seq<Op>, now: nat) returns (all: seq<Op>)
    requires Looped(ops)
    ensures Looped(all) && Run(all) == Drained(Run(ops), now)
    decreases |Run(ops).q.frames|
  {
    var s := Run(ops);
    if Ready(s.q) {
      TakeShrinks(s.q, now);
      RunsTo(ops, Pops(now));
      LoopedMore(ops, Pops(now));
      PopAllOnce(s.q, now, s.events);
      all := DrainedIsPops(ops + [Pops(now)], now);
    } else {
      all := ops;
      assert s.events + [] == s.events;
    }
  }

  /** The loop makes only such calls, and always leaves the queue emptied. */
  lemma {:induction false} LoopIsLooped(ws: seq<Wakeup>) returns (ops: seq<Op>)
    ensures Looped(ops) && Run(ops) == LoopRun(ws) && !Ready(LoopRun(ws).q)
  {
    if ws == [] {
      ops := [];
    } else {
      var op := CallOf(Last(ws));
      var init := LoopIsLooped(ws[..|ws| - 1]);
      RunsTo(init, op);
      LoopedMore(init, op);
      ops := DrainedIsPops(init + [op], Last(ws).drained);
      PopAllEmpties(Run(init + [op]).q, Last(ws).drained);
    }
  }

  /** The order promise of the queue, for the program that uses it: in every run of the receive loop frames
      leave consecutively, only a keyframe skips a gap or comes first, and no more than three wait. */
  lemma ReceivedInOrder(ws: seq<Wakeup>)
    ensures Orderly(LoopRun(ws).events) && |LoopRun(ws).q.frames| <= 3
  {
    var ops := LoopIsLooped(ws);
    LoopedOrderly(ops);
    RunSound(ops);
  }

  /** From arrivals to the decoder: as long as the queue does not expire and the decoder answers, the
      decoder is fed every frame the loop releases, in that order. */
  lemma ReceivedIsFed(n: Native, ws: seq<Wakeup>)
    requires Healthy(n, LoopRun(ws).events) && Expired !in LoopRun(ws).events
    ensures Fed(DirectRun(n, LoopRun(ws).events).delivery.calls) == Frames(LoopRun(ws).events)
  {
    ReceivedInOrder(ws);
    AllPopped(LoopRun(ws).events);
    NoFrameWasted(n, LoopRun(ws).events);
  }

  lemma {:induction false} AllPopped(events: seq<Event>)
    requires Orderly(events) && Expired !in events
    ensures forall i :: 0 <= i < |events| ==> events[i].Popped?
  {
    if events != [] {
      var init := events[..|events| - 1];
      assert Last(events) in events && forall e :: e in init ==> e in events;
      AllPopped(init);
      assert forall i :: 0 <= i < |init| ==> events[i] == init[i];
    }
  }

  /** So the one way in which the queue type can fail its promise is out of the loop's reach. */
  lemma ClobberOutOfReach(key: Frame, delta: Frame, at: nat)
    requires key.keyframe && !delta.keyframe && key.number == delta.number < U64_MAX
    ensures !Looped([Arrives(key, at), Arrives(delta, at), Pops(at)])
  {
    var ops := [Arrives(key, at), Arrives(delta, at), Pops(at)];
    ClobberHappens(key, delta, at);
    if Looped(ops) {
      LoopedOrderly(ops);
    }
  }
}
