/** Clipboard text in bounded chunks (rds-desktop `clipboard`): the reassembler and the sender. Times
    are milliseconds; `utf8` decides whether bytes are a string. */
module Clipboard {
  import opened Prelude

  const MAX_TEXT_BYTES: nat := 1024 * 1024
  const CHUNK_BYTES: nat := 32 * 1024
  const SEND_CHUNK_BYTES: nat := 16 * 1024
  const IDLE_TIMEOUT: nat := 5_000
  const TRANSFER_TIMEOUT: nat := 30_000

  datatype Chunk = Chunk(id: U64, offset: nat, total: nat, data: Bytes)

  // ---- the receiver ----

  datatype Partial = Partial(id: U64, total: nat, bytes: Bytes, started: nat, progressed: nat)

  datatype Refusal =
    | SizeBound | Overlapping | MissingInitial | IdentityChanged | InvalidOffset
    | TotalDeadline | IdleDeadline | EmptyProgress | InvalidUtf8

  type Reply = Result<Option<Bytes>, Refusal>

  function Elapsed(now: nat, since: nat): nat {
    SaturatingSub(now, since)
  }

  /** Why a chunk does not continue the transfer `p`. */
  function Objection(p: Partial, c: Chunk, now: nat): Option<Refusal> {
    if p.id != c.id || p.total != c.total then Some(IdentityChanged)
    else if |p.bytes| != c.offset || |p.bytes| + |c.data| > c.total then Some(InvalidOffset)
    else if Elapsed(now, p.started) > TRANSFER_TIMEOUT then Some(TotalDeadline)
    else if Elapsed(now, p.progressed) > IDLE_TIMEOUT then Some(IdleDeadline)
    else if c.data == [] && c.total != 0 then Some(EmptyProgress)
    else None
  }

  function Accept(utf8: Bytes -> bool, partial: Option<Partial>, c: Chunk, now: nat): (Option<Partial>, Reply) {
    if c.total > MAX_TEXT_BYTES || |c.data| > CHUNK_BYTES then (None, Err(SizeBound))
    else if c.offset == 0 && partial.Some? then (None, Err(Overlapping))
    else if c.offset != 0 && partial.None? then (None, Err(MissingInitial))
    else
      var p := if c.offset == 0 then Partial(c.id, c.total, [], now, now) else partial.value;
      var objection := Objection(p, c, now);
      if objection.Some? then (None, Err(objection.value))
      else
        var bytes := p.bytes + c.data;
        if |bytes| != c.total then (Some(p.(bytes := bytes, progressed := now)), Ok(None))
        else if utf8(bytes) then (None, Ok(Some(bytes)))
        else (None, Err(InvalidUtf8))
  }

  class Assembly {
    var partial: Option<Partial>

    constructor ()
      ensures partial.None?
    {
      partial := None;
    }

    method Push(utf8: Bytes -> bool, c: Chunk, now: nat) returns (reply: Reply)
      modifies this
      ensures (partial, reply) == Accept(utf8, old(partial), c, now)
      ensures reply.Err? ==> partial.None?
    {
      if c.total > MAX_TEXT_BYTES || |c.data| > CHUNK_BYTES {
        partial := None;
        return Err(SizeBound);
      }
      if c.offset == 0 {
        if partial.Some? {
          partial := None;
          return Err(Overlapping);
        }
        partial := Some(Partial(c.id, c.total, [], now, now));
      }
      if partial.None? {
        return Err(MissingInitial);
      }
      var objection := Objection(partial.value, c, now);
      if objection.Some? {
        partial := None;
        return Err(objection.value);
      }
      partial := Some(partial.value.(bytes := partial.value.bytes + c.data, progressed := now));
      if |partial.value.bytes| != c.total {
        return Ok(None);
      }
      var bytes := partial.value.bytes;
      partial := None;
      reply := if utf8(bytes) then Ok(Some(bytes)) else Err(InvalidUtf8);
    }
  }

  // ---- soundness for arbitrary chunks ----

  /** A chunk and the time it arrives. */
  type Arrival = (Chunk, nat)

  /** The partial transfer after a run of arrivals, and the index of the chunk it started with. */
  function After(utf8: Bytes -> bool, run: seq<Arrival>): (Option<Partial>, nat) {
    if run == [] then (None, 0)
    else
      var (partial, from) := After(utf8, run[..|run| - 1]);
      var (c, now) := Last(run);
      (Accept(utf8, partial, c, now).0, if c.offset == 0 then |run| - 1 else from)
  }

  function ReplyTo(utf8: Bytes -> bool, run: seq<Arrival>): Reply
    requires run != []
  {
    Accept(utf8, After(utf8, run[..|run| - 1]).0, Last(run).0, Last(run).1).1
  }

  function Joined(run: seq<Arrival>): Bytes {
    if run == [] then [] else Joined(run[..|run| - 1]) + Last(run).0.data
  }

  /** One transfer: same id and total throughout, each chunk at the end of those before it. */
  predicate Contiguous(run: seq<Arrival>, id: U64, total: nat) {
    run != [] ==>
      var init := run[..|run| - 1];
      && Contiguous(init, id, total)
      && Last(run).0.id == id && Last(run).0.total == total && Last(run).0.offset == |Joined(init)|
  }

  lemma {:induction false} PartialIsRun(utf8: Bytes -> bool, run: seq<Arrival>)
    requires After(utf8, run).0.Some?
    ensures var (partial, from) := After(utf8, run);
            && from < |run|
            && Contiguous(run[from..], partial.value.id, partial.value.total)
            && Joined(run[from..]) == partial.value.bytes
  {
    var init := run[..|run| - 1];
    var (before, from) := After(utf8, init);
    var (c, now) := Last(run);
    if c.offset == 0 {
      assert run[|run| - 1..] == [Last(run)];
      OneChunk(Last(run));
    } else {
      PartialIsRun(utf8, init);
      assert run[from..][..|run[from..]| - 1] == init[from..];
    }
  }

  lemma OneChunk(a: Arrival)
    requires a.0.offset == 0
    ensures Contiguous([a], a.0.id, a.0.total) && Joined([a]) == a.0.data
  {
    assert [a][..0] == [];
  }

  lemma Completing(utf8: Bytes -> bool, partial: Option<Partial>, c: Chunk, now: nat)
    requires Accept(utf8, partial, c, now).1.Ok? && Accept(utf8, partial, c, now).1.value.Some?
    ensures var (after, text) := (Accept(utf8, partial, c, now).0, Accept(utf8, partial, c, now).1.value.value);
            && after.None? && |text| == c.total && utf8(text)
            && if c.offset == 0 then text == c.data
               else && partial.Some? && partial.value.id == c.id && partial.value.total == c.total
                    && |partial.value.bytes| == c.offset && text == partial.value.bytes + c.data
  {
  }

  /** `text` is the concatenation of one contiguous run of chunks from index `from` to the last, all of
      the same id and total, and as long as that total. */
  predicate Assembled(run: seq<Arrival>, from: nat, text: Bytes) {
    && from < |run| && run[from].0.offset == 0
    && Contiguous(run[from..], Last(run).0.id, Last(run).0.total)
    && text == Joined(run[from..]) && |text| == Last(run).0.total
  }

  lemma CompletedNow(run: seq<Arrival>)
    requires run != [] && Last(run).0.offset == 0 && |Last(run).0.data| == Last(run).0.total
    ensures Assembled(run, |run| - 1, Last(run).0.data)
  {
    assert run[|run| - 1..] == [Last(run)];
    OneChunk(Last(run));
  }

  lemma CompletedLater(utf8: Bytes -> bool, run: seq<Arrival>, p: Partial)
    requires run != [] && Last(run).0.offset == |p.bytes| && |p.bytes| + |Last(run).0.data| == p.total
    requires After(utf8, run[..|run| - 1]).0 == Some(p) && Last(run).0.id == p.id && Last(run).0.total == p.total
    ensures Assembled(run, After(utf8, run[..|run| - 1]).1, p.bytes + Last(run).0.data)
  {
    var init := run[..|run| - 1];
    var from := After(utf8, init).1;
    PartialIsRun(utf8, init);
    StartsAtZero(init[from..], p.id, p.total);
    Extended(run, from, p.id, p.total);
  }

  /** Whatever arrives, a completed text was assembled from one contiguous run of chunks that ends
      here, and every error leaves no partial state behind. */
  lemma CompletedText(utf8: Bytes -> bool, run: seq<Arrival>)
    requires run != []
    ensures ReplyTo(utf8, run).Err? ==> After(utf8, run).0.None?
    ensures ReplyTo(utf8, run).Ok? && ReplyTo(utf8, run).value.Some? ==>
              var text := ReplyTo(utf8, run).value.value;
              Assembled(run, After(utf8, run).1, text) && utf8(text) && After(utf8, run).0.None?
  {
    if ReplyTo(utf8, run).Ok? && ReplyTo(utf8, run).value.Some? {
      var before := After(utf8, run[..|run| - 1]).0;
      var (c, now) := Last(run);
      Completing(utf8, before, c, now);
      if c.offset == 0 {
        CompletedNow(run);
      } else {
        CompletedLater(utf8, run, before.value);
      }
    }
  }

  /** The last chunk of a run continues the transfer that started at `from`. */
  lemma Extended(run: seq<Arrival>, from: nat, id: U64, total: nat)
    requires from < |run| - 1 && Contiguous(run[..|run| - 1][from..], id, total)
    ensures run[from] == run[..|run| - 1][from..][0]
    ensures Joined(run[from..]) == Joined(run[..|run| - 1][from..]) + Last(run).0.data
    ensures Last(run).0.id == id && Last(run).0.total == total &&
            Last(run).0.offset == |Joined(run[..|run| - 1][from..])|
            ==> Contiguous(run[from..], id, total)
  {
    assert run[from..][..|run[from..]| - 1] == run[..|run| - 1][from..];
    assert Last(run[from..]) == Last(run);
  }

  lemma {:induction false} StartsAtZero(run: seq<Arrival>, id: U64, total: nat)
    requires run != [] && Contiguous(run, id, total)
    ensures run[0].0.offset == 0
  {
    if |run| > 1 {
      StartsAtZero(run[..|run| - 1], id, total);
    }
  }

  // ---- the sender ----

  datatype Offer = Offer(id: U64, text: Bytes, at: nat)
  datatype Outgoing = Outgoing(id: U64, bytes: Bytes, offset: nat)
  datatype Sender = Sender(offer: Option<Offer>, outgoing: Option<Outgoing>)

  datatype ErrorCode = Expired | InvalidRequest | Unavailable

  ghost predicate SenderOk(s: Sender) {
    && (s.offer.Some? ==> |s.offer.value.text| <= MAX_TEXT_BYTES)
    && (s.outgoing.Some? ==>
          && |s.outgoing.value.bytes| <= MAX_TEXT_BYTES && s.outgoing.value.offset <= |s.outgoing.value.bytes|
          && (s.outgoing.value.offset == |s.outgoing.value.bytes| ==> s.outgoing.value.bytes == []))
  }

  /** `id` is the random identity the source draws. */
  function Offering(s: Sender, text: Bytes, id: U64, now: nat): Sender {
    if |text| > MAX_TEXT_BYTES then s else s.(offer := Some(Offer(id, text, now)))
  }

  function Requesting(s: Sender, id: U64, now: nat): (Sender, Option<ErrorCode>) {
    if s.offer.None? then (s, Some(Expired))
    else if s.offer.value.id != id then (s, Some(InvalidRequest))
    else if Elapsed(now, s.offer.value.at) >= TRANSFER_TIMEOUT then (s.(offer := None), Some(Expired))
    else if s.outgoing.Some? then (s, Some(Unavailable))
    else (Sender(None, Some(Outgoing(id, s.offer.value.text, 0))), None)
  }

  function Cut(o: Outgoing): nat
    requires o.offset <= |o.bytes|
  {
    Min(o.offset + SEND_CHUNK_BYTES, |o.bytes|)
  }

  function Sending(s: Sender): (Sender, Option<Chunk>)
    requires SenderOk(s)
  {
    if s.outgoing.None? then (s, None)
    else
      var o := s.outgoing.value;
      var end := Cut(o);
      (s.(outgoing := if end == |o.bytes| then None else Some(o.(offset := end))),
       Some(Chunk(o.id, o.offset, |o.bytes|, o.bytes[o.offset..end])))
  }

  class ReverseSender {
    var offer: Option<Offer>
    var outgoing: Option<Outgoing>

    ghost function View(): Sender
      reads this
    {
      Sender(offer, outgoing)
    }

    constructor ()
      ensures View() == Sender(None, None) && SenderOk(View())
    {
      offer, outgoing := None, None;
    }

    method MakeOffer(text: Bytes, id: U64, now: nat) returns (announced: bool)
      requires SenderOk(View())
      modifies this
      ensures SenderOk(View()) && View() == Offering(old(View()), text, id, now)
      ensures announced <==> |text| <= MAX_TEXT_BYTES
    {
      announced := |text| <= MAX_TEXT_BYTES;
      if announced {
        offer := Some(Offer(id, text, now));
      }
    }

    method Request(id: U64, now: nat) returns (error: Option<ErrorCode>)
      requires SenderOk(View())
      modifies this
      ensures SenderOk(View()) && (View(), error) == Requesting(old(View()), id, now)
    {
      if offer.None? {
        return Some(Expired);
      }
      if offer.value.id != id {
        return Some(InvalidRequest);
      }
      if Elapsed(now, offer.value.at) >= TRANSFER_TIMEOUT {
        offer := None;
        return Some(Expired);
      }
      if outgoing.Some? {
        return Some(Unavailable);
      }
      outgoing := Some(Outgoing(offer.value.id, offer.value.text, 0));
      offer := None;
      return None;
    }

    method NextChunk() returns (chunk: Option<Chunk>)
      requires SenderOk(View())
      modifies this
      ensures SenderOk(View()) && (View(), chunk) == Sending(old(View()))
    {
      if outgoing.None? {
        return None;
      }
      var o := outgoing.value;
      var end := Cut(o);
      chunk := Some(Chunk(o.id, o.offset, |o.bytes|, o.bytes[o.offset..end]));
      outgoing := if end == |o.bytes| then None else Some(o.(offset := end));
    }
  }

  // ---- the round trip ----

  /** All chunks of a transfer from `o.offset` on, as repeated `next_chunk` calls give them. */
  function Chunks(o: Outgoing): (cs: seq<Chunk>)
    requires o.offset <= |o.bytes|
    ensures cs != []
    decreases |o.bytes| - o.offset
  {
    var end := Cut(o);
    [Chunk(o.id, o.offset, |o.bytes|, o.bytes[o.offset..end])]
    + (if end == |o.bytes| then [] else Chunks(o.(offset := end)))
  }

  datatype SenderOp = Offers(text: Bytes, id: U64, at: nat) | Withdraws | Requests(id: U64, at: nat) | Sends

  function SenderStep(s: Sender, op: SenderOp): (r: (Sender, seq<Chunk>))
    requires SenderOk(s)
    ensures SenderOk(r.0)
  {
    match op
    case Offers(text, id, at) => (Offering(s, text, id, at), [])
    case Withdraws => (s.(offer := None), [])
    case Requests(id, at) => (Requesting(s, id, at).0, [])
    case Sends =>
      var (s', c) := Sending(s);
      (s', if c.Some? then [c.value] else [])
  }

  function SenderRun(s: Sender, ops: seq<SenderOp>): (r: (Sender, seq<Chunk>))
    requires SenderOk(s)
    ensures SenderOk(r.0)
    decreases ops
  {
    if ops == [] then (s, [])
    else
      var (s', cs) := SenderStep(s, ops[0]);
      var (end, rest) := SenderRun(s', ops[1..]);
      (end, cs + rest)
  }

  function SendCount(ops: seq<SenderOp>): nat {
    if ops == [] then 0 else (if ops[0].Sends? then 1 else 0) + SendCount(ops[1..])
  }

  lemma TakeMore<T>(x: T, xs: seq<T>, n: nat)
    requires n <= |xs|
    ensures ([x] + xs)[..n + 1] == [x] + xs[..n]
  {
  }

  /** What one send leaves to be sent. */
  lemma NextSent(s: Sender)
    requires SenderOk(s) && s.outgoing.Some?
    ensures var (s', cs) := SenderStep(s, Sends);
            && cs == [Chunks(s.outgoing.value)[0]]
            && Chunks(s.outgoing.value) == cs + if s'.outgoing.Some? then Chunks(s'.outgoing.value) else []
  {
  }

  /** A running transfer is undisturbed: whatever is offered, withdrawn or requested meanwhile, the
      chunks sent are those of the requested text, in order. */
  lemma {:induction false} TransferUndisturbed(s: Sender, ops: seq<SenderOp>)
    requires SenderOk(s) && s.outgoing.Some? && SendCount(ops) <= |Chunks(s.outgoing.value)|
    ensures SenderRun(s, ops).1 == Chunks(s.outgoing.value)[..SendCount(ops)]
    decreases ops
  {
    var o := s.outgoing.value;
    if ops != [] {
      var s' := SenderStep(s, ops[0]).0;
      if !ops[0].Sends? {
        TransferUndisturbed(s', ops[1..]);
      } else {
        NextSent(s);
        if s'.outgoing.Some? {
          TransferUndisturbed(s', ops[1..]);
          TakeMore(Chunks(o)[0], Chunks(s'.outgoing.value), SendCount(ops[1..]));
        } else {
          NothingSent(s', ops[1..]);
        }
      }
    }
  }

  lemma {:induction false} NothingSent(s: Sender, ops: seq<SenderOp>)
    requires SenderOk(s) && SendCount(ops) == 0
    ensures SenderRun(s, ops).1 == []
    decreases ops
  {
    if ops != [] {
      NothingSent(SenderStep(s, ops[0]).0, ops[1..]);
    }
  }

  /** The times chunks arrive at: never backwards, within the idle and the total deadline. */
  predicate Timely(times: seq<nat>) {
    && (forall i, j :: 0 <= i <= j < |times| ==> times[i] <= times[j] <= times[i] + TRANSFER_TIMEOUT)
    && (forall i :: 0 < i < |times| ==> times[i] <= times[i - 1] + IDLE_TIMEOUT)
  }

  /** Feed chunks to an assembly; the replies in order. */
  function Receive(utf8: Bytes -> bool, partial: Option<Partial>, cs: seq<Chunk>,
                   times: seq<nat>): (Option<Partial>, seq<Reply>)
    requires |cs| == |times|
    decreases cs
  {
    if cs == [] then (partial, [])
    else
      var (p, r) := Accept(utf8, partial, cs[0], times[0]);
      var (end, rest) := Receive(utf8, p, cs[1..], times[1..]);
      (end, [r] + rest)
  }

  /** The receiver in the middle of the transfer `o`, last heard from at `last`. */
  predicate Mid(o: Outgoing, partial: Option<Partial>, started: nat, last: nat) {
    if o.offset == 0 || o.offset > |o.bytes| then partial.None?
    else partial == Some(Partial(o.id, |o.bytes|, o.bytes[..o.offset], started, last))
  }

  /** One chunk of a running transfer is accepted. */
  lemma ChunkAccepted(utf8: Bytes -> bool, o: Outgoing, partial: Option<Partial>, now: nat, started: nat, last: nat)
    requires o.offset <= |o.bytes| <= MAX_TEXT_BYTES && utf8(o.bytes)
    requires o.offset == |o.bytes| ==> o.bytes == []
    requires Mid(o, partial, started, last)
    requires o.offset > 0 ==> now <= last + IDLE_TIMEOUT && now <= started + TRANSFER_TIMEOUT
    ensures var (p, r) := Accept(utf8, partial, Chunks(o)[0], now);
            if Cut(o) == |o.bytes| then p.None? && r == Ok(Some(o.bytes))
            else r == Ok(None) && Mid(o.(offset := Cut(o)), p, if o.offset == 0 then now else started, now)
  {
    var end := Cut(o);
    assert o.bytes[..o.offset] + o.bytes[o.offset..end] == o.bytes[..end];
    assert o.bytes[..|o.bytes|] == o.bytes;
    assert o.offset == 0 ==> [] + o.bytes[o.offset..end] == o.bytes[..end];
  }

  predicate InTime(o: Outgoing, times: seq<nat>, started: nat, last: nat) {
    && Timely(times)
    && (o.offset > 0 && times != [] ==>
          && times[0] <= last + IDLE_TIMEOUT
          && forall i :: 0 <= i < |times| ==> times[i] <= started + TRANSFER_TIMEOUT)
  }

  lemma LaterInTime(o: Outgoing, o': Outgoing, times: seq<nat>, started: nat, last: nat)
    requires times != [] && InTime(o, times, started, last)
    ensures InTime(o', times[1..], if o.offset == 0 then times[0] else started, times[0])
  {
    var rest := times[1..];
    assert forall i :: 0 <= i < |rest| ==> rest[i] == times[i + 1];
    if rest != [] {
      assert rest[0] == times[1] <= times[1 - 1] + IDLE_TIMEOUT;
    }
  }

  /** The replies of a whole transfer: nothing until the last chunk, and then the text. */
  predicate Completes(replies: seq<Reply>, text: Bytes) {
    replies != [] &&
    if |replies| == 1 then replies[0] == Ok(Some(text)) else replies[0] == Ok(None) && Completes(replies[1..], text)
  }

  lemma {:induction false} Transfer(utf8: Bytes -> bool, o: Outgoing, partial: Option<Partial>, times: seq<nat>,
                                    started: nat, last: nat)
    requires o.offset <= |o.bytes| <= MAX_TEXT_BYTES && utf8(o.bytes)
    requires o.offset == |o.bytes| ==> o.bytes == []
    requires |times| == |Chunks(o)| && InTime(o, times, started, last)
    requires Mid(o, partial, started, last)
    ensures var (end, replies) := Receive(utf8, partial, Chunks(o), times); end.None? && Completes(replies, o.bytes)
    decreases |o.bytes| - o.offset
  {
    var cs := Chunks(o);
    ChunkAccepted(utf8, o, partial, times[0], started, last);
    var (p, r) := Accept(utf8, partial, cs[0], times[0]);
    var (end, rest) := Receive(utf8, p, cs[1..], times[1..]);
    assert Receive(utf8, partial, cs, times) == (end, [r] + rest);
    assert ([r] + rest)[1..] == rest;
    if Cut(o) < |o.bytes| {
      var o' := o.(offset := Cut(o));
      assert cs[1..] == Chunks(o');
      LaterInTime(o, o', times, started, last);
      Transfer(utf8, o', p, times[1..], if o.offset == 0 then times[0] else started, times[0]);
    } else {
      assert cs[1..] == [];
    }
  }

  lemma {:induction false} CompletesAt(replies: seq<Reply>, text: Bytes)
    requires Completes(replies, text)
    ensures replies[|replies| - 1] == Ok(Some(text))
    ensures forall i :: 0 <= i < |replies| - 1 ==> replies[i] == Ok(None)
  {
    if |replies| > 1 {
      CompletesAt(replies[1..], text);
      assert forall i :: 0 < i < |replies| ==> replies[i] == replies[1..][i - 1];
    }
  }

  /** Clipboard round trip: for every text up to the bound, the chunks `next_chunk` gives, fed in order
      and in time to a fresh assembly, give back that text exactly, at the last chunk and not before. */
  lemma RoundTrip(utf8: Bytes -> bool, id: U64, text: Bytes, times: seq<nat>)
    requires |text| <= MAX_TEXT_BYTES && utf8(text)
    requires |times| == |Chunks(Outgoing(id, text, 0))| && Timely(times)
    ensures var (end, replies) := Receive(utf8, None, Chunks(Outgoing(id, text, 0)), times);
            && end.None? && replies != []
            && replies[|replies| - 1] == Ok(Some(text))
            && forall i :: 0 <= i < |replies| - 1 ==> replies[i] == Ok(None)
  {
    Transfer(utf8, Outgoing(id, text, 0), None, times, 0, 0);
    CompletesAt(Receive(utf8, None, Chunks(Outgoing(id, text, 0)), times).1, text);
  }

  /** The whole transfer: once a request was accepted, whatever is offered, withdrawn or requested while
      the chunks go out, the receiver gets the text that was offered under that id, at the last chunk
      and not before. */
  lemma RequestedText(utf8: Bytes -> bool, s: Sender, id: U64, at: nat, ops: seq<SenderOp>, times: seq<nat>)
    requires SenderOk(s) && Requesting(s, id, at).1.None? && utf8(s.offer.value.text)
    requires SendCount(ops) == |Chunks(Outgoing(id, s.offer.value.text, 0))| == |times| && Timely(times)
    ensures var sent := SenderRun(s, [Requests(id, at)] + ops).1;
            && |sent| == |times|
            && var (end, replies) := Receive(utf8, None, sent, times);
            && s.offer.value.id == id && end.None? && replies != []
            && replies[|replies| - 1] == Ok(Some(s.offer.value.text))
            && forall i :: 0 <= i < |replies| - 1 ==> replies[i] == Ok(None)
  {
    var o := Outgoing(id, s.offer.value.text, 0);
    var s' := Requesting(s, id, at).0;
    var all := [Requests(id, at)] + ops;
    assert all[0] == Requests(id, at) && all[1..] == ops;
    TransferUndisturbed(s', ops);
    assert Chunks(o)[..SendCount(ops)] == Chunks(o);
    assert SenderRun(s, all).1 == [] + SenderRun(s', ops).1 == Chunks(o);
    RoundTrip(utf8, id, s.offer.value.text, times);
  }
}
