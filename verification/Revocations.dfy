/** The observable revocation value (rds-agent `revocations`): contents, freshness and its owner. */
module Revocations {
  import opened Prelude
  import opened Clock
  import opened Grant

  /** A feed's `Arc<()>`, compared by pointer: every feed has its own. */
  type FeedId = nat

  type Stamp = (U64, U64)

  datatype RevocationPolicy = RevocationPolicy(
    ids: set<GrantId>,
    lease: Option<Lease>,
    revision: Option<Stamp>,
    local: bool,
    owner: Option<FeedId>)

  const DEFAULT := RevocationPolicy({}, None, None, false, None)

  predicate Fresh(p: RevocationPolicy, now: Option<Reading>) {
    p.local || (now.Some? && p.lease.Some? && ValidAt(p.lease.value, now.value))
  }

  predicate Permits(p: RevocationPolicy, id: GrantId, now: Option<Reading>) {
    Fresh(p, now) && id !in p.ids
  }

  datatype Op =
    | UseLocal
    | RequireManaged
    | Revoke(id: GrantId)
    | Replace(ids: set<GrantId>)
    | Claim(feed: FeedId)
    | Publish(feed: FeedId, snapshot: set<GrantId>, lease: Lease, stamp: Stamp)
    | Fail(feed: FeedId)
    | DropFeed(feed: FeedId)

  /** One `send_modify` or `send_if_modified`; `None` when the closure declines and nothing is sent. */
  function Apply(op: Op, p: RevocationPolicy): Option<RevocationPolicy> {
    match op
    case UseLocal => Some(p.(local := true, owner := None, revision := None))
    case RequireManaged => Some(p.(local := false, lease := None, owner := None, revision := None))
    case Revoke(id) => Some(p.(ids := p.ids + {id}))
    case Replace(ids) => Some(p.(ids := ids))
    case Claim(f) =>
      if p.owner.Some? then None
      else Some(p.(local := false, lease := None, owner := Some(f), revision := None))
    case Publish(f, snapshot, lease, stamp) =>
      if p.owner != Some(f) then None
      else Some(p.(ids := snapshot, lease := Some(lease), revision := Some(stamp)))
    case Fail(f) => if p.owner != Some(f) then None else Some(p.(lease := None))
    case DropFeed(f) =>
      if p.owner != Some(f) then None
      else Some(p.(lease := None, owner := None, revision := None))
  }

  function Modify(op: Op, p: RevocationPolicy): RevocationPolicy {
    if Apply(op, p).Some? then Apply(op, p).value else p
  }

  // ---- every interleaving of feeds ----

  /** What one feed has published since it claimed the value, and whether it hit a fatal error. */
  datatype Feed = Feed(last: Option<(Lease, Stamp)>, failed: bool)

  datatype World = World(cell: RevocationPolicy, feeds: map<FeedId, Feed>)

  /** A feed claims once, at birth, and never publishes after a fatal error. A dropped or displaced
      feed may still be running: its abort is asynchronous. */
  predicate Allowed(w: World, op: Op) {
    match op
    case Claim(f) => f !in w.feeds
    case Publish(f, _, _, _) => f in w.feeds && !w.feeds[f].failed
    case Fail(f) => f in w.feeds
    case DropFeed(f) => f in w.feeds
    case _ => true
  }

  function Step(w: World, op: Op): World {
    if !Allowed(w, op) then w
    else
      var feeds :=
        match op
        case Claim(f) => if w.cell.owner.Some? then w.feeds else w.feeds[f := Feed(None, false)]
        case Publish(f, _, lease, stamp) => w.feeds[f := w.feeds[f].(last := Some((lease, stamp)))]
        case Fail(f) => w.feeds[f := w.feeds[f].(failed := true)]
        case _ => w.feeds;
      World(Modify(op, w.cell), feeds)
  }

  function Run(ops: seq<Op>): World {
    if ops == [] then World(DEFAULT, map[])
    else Step(Run(ops[..|ops| - 1]), Last(ops))
  }

  ghost predicate Consistent(w: World) {
    && (w.cell.owner.Some? ==> !w.cell.local)
    && (w.cell.lease.Some? && !w.cell.local ==> w.cell.owner.Some?)
    && (w.cell.revision.Some? ==> w.cell.owner.Some?)
    && (w.cell.owner.Some? ==>
          && w.cell.owner.value in w.feeds
          && var feed := w.feeds[w.cell.owner.value];
          && w.cell.revision == (if feed.last.Some? then Some(feed.last.value.1) else None)
          && w.cell.lease == (if feed.last.Some? && !feed.failed then Some(feed.last.value.0) else None))
  }

  /** One owner at a time, and freshness is that owner's own: in every interleaving an owner excludes
      local authority, a managed lease has an owner, and lease and revision are exactly those of the
      owner's latest publication since its claim (the lease withdrawn once that feed failed). */
  lemma {:induction false} RunConsistent(ops: seq<Op>)
    ensures Consistent(Run(ops))
  {
    if ops != [] {
      RunConsistent(ops[..|ops| - 1]);
    }
  }

  /** A feed that is not the owner cannot touch the value, and it never becomes the owner again: an
      obsolete feed changes neither freshness nor a successor's snapshot in any continuation. */
  lemma {:induction false} ObsoleteFeedInert(ops: seq<Op>, more: seq<Op>, f: FeedId)
    requires f in Run(ops).feeds && Run(ops).cell.owner != Some(f)
    ensures var w := Run(ops + more);
            && f in w.feeds && w.cell.owner != Some(f)
            && forall op :: op in {Fail(f), DropFeed(f)} || (op.Publish? && op.feed == f) ==> Apply(op, w.cell) == None
  {
    if more == [] {
      assert ops + more == ops;
    } else {
      ObsoleteFeedInert(ops, more[..|more| - 1], f);
      assert (ops + more)[..|ops + more| - 1] == ops + more[..|more| - 1];
    }
  }

  /** Managed freshness fails closed: it is always backed by a publication of the current, unfailed
      owner whose own lease is valid at that reading. */
  lemma FreshnessIsOwned(ops: seq<Op>, now: Option<Reading>)
    requires Fresh(Run(ops).cell, now) && !Run(ops).cell.local
    ensures var w := Run(ops);
            && now.Some? && w.cell.owner.Some? && w.cell.owner.value in w.feeds
            && var feed := w.feeds[w.cell.owner.value];
            && !feed.failed && feed.last.Some? && ValidAt(feed.last.value.0, now.value)
            && w.cell.revision == Some(feed.last.value.1)
  {
    RunConsistent(ops);
  }

  /** Known revocations survive every change of authority: only an explicit replacement or the
      owner's next snapshot can forget an id. */
  lemma RevocationsSurvive(p: RevocationPolicy, op: Op, id: GrantId)
    requires id in p.ids && id !in Modify(op, p).ids
    ensures op.Replace? || (op.Publish? && p.owner == Some(op.feed) && id !in op.snapshot)
  {
  }

  // ---- the cell as the agent updates it ----

  /** The outcome of one fetch-and-persist turn of the polling task. */
  datatype Turn =
    | Persisted(snapshot: set<GrantId>, lease: Lease, stamp: Stamp)
    | Rejected(fatal: bool)
    | WorkerFailed
    | Nothing

  /** What the polling loop publishes for a run of turns: it stops at the first fatal one. */
  function FeedOps(f: FeedId, turns: seq<Turn>): seq<Op> {
    if turns == [] then []
    else match turns[0]
      case Persisted(snapshot, lease, stamp) => [Publish(f, snapshot, lease, stamp)] + FeedOps(f, turns[1..])
      case Rejected(fatal) => if fatal then [Fail(f)] else FeedOps(f, turns[1..])
      case WorkerFailed => [Fail(f)]
      case Nothing => FeedOps(f, turns[1..])
  }

  function ModifyAll(ops: seq<Op>, p: RevocationPolicy): RevocationPolicy {
    if ops == [] then p else ModifyAll(ops[1..], Modify(ops[0], p))
  }

  class Denylist {
    var value: RevocationPolicy
    var version: nat

    constructor ()
      ensures value == DEFAULT && version == 0
    {
      value := DEFAULT;
      version := 0;
    }

    /** Receivers are woken, through the version, exactly when the closure reports a change. */
    method Send(op: Op) returns (modified: bool)
      modifies this
      ensures modified == Apply(op, old(value)).Some?
      ensures value == Modify(op, old(value))
      ensures version == old(version) + (if modified then 1 else 0)
    {
      var next := Apply(op, value);
      modified := next.Some?;
      if modified {
        value := next.value;
        version := version + 1;
      }
    }

    /** `watch_revocations` up to its spawn: claim, then publish the cached snapshot if there is one. */
    method StartFeed(f: FeedId, cached: Option<(set<GrantId>, Lease, Stamp)>) returns (started: bool)
      modifies this
      ensures started == old(value).owner.None?
      ensures !started ==> value == old(value) && version == old(version)
      ensures started ==> value.owner == Some(f) && !value.local
      ensures started && cached.None? ==> value.lease.None? && value.revision.None? && value.ids == old(value).ids
      ensures started && cached.Some? ==>
                value.ids == cached.value.0 && value.lease == Some(cached.value.1)
                && value.revision == Some(cached.value.2)
    {
      started := Send(Claim(f));
      if started && cached.Some? {
        var _ := Send(Publish(f, cached.value.0, cached.value.1, cached.value.2));
      }
    }

    /** The polling task's loop over the turns it lives through. */
    method Poll(f: FeedId, turns: seq<Turn>)
      modifies this
      ensures value == ModifyAll(FeedOps(f, turns), old(value))
      ensures old(value).owner != Some(f) ==> value == old(value) && version == old(version)
    {
      var i := 0;
      while i < |turns|
        invariant 0 <= i <= |turns|
        invariant ModifyAll(FeedOps(f, turns[i..]), value) == ModifyAll(FeedOps(f, turns), old(value))
        invariant (old(value).owner == Some(f)) == (value.owner == Some(f))
        invariant old(value).owner != Some(f) ==> value == old(value) && version == old(version)
      {
        assert turns[i..][1..] == turns[i + 1..];
        match turns[i] {
          case Persisted(snapshot, lease, stamp) =>
            ghost var op := Publish(f, snapshot, lease, stamp);
            assert ([op] + FeedOps(f, turns[i + 1..]))[1..] == FeedOps(f, turns[i + 1..]);
            var _ := Send(Publish(f, snapshot, lease, stamp));
          case Rejected(fatal) =>
            if fatal {
              var _ := Send(Fail(f));
              return;
            }
          case WorkerFailed =>
            var _ := Send(Fail(f));
            return;
          case Nothing =>
        }
        i := i + 1;
      }
    }
  }
}
