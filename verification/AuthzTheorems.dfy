/** What the admission protocol guarantees, over every run of the agent. */
module AuthzTheorems {
  import opened Prelude
  import opened Grant
  import opened Revocations
  import opened AuthzState
  import opened AuthzProtocol
  import opened AuthzInvariant
  import opened AuthzRuns

  // ---- what no step undoes ----

  /** Closing is permanent, the log only grows, not at all once the state is Closed, and tasks, peers and
      tokens stay what they are. */
  predicate Extends(c: Conn, c': Conn) {
    && c'.peer == c.peer && c'.audience == c.audience
    && (c.closed ==> c'.closed)
    && (c.state.Closed? ==> c'.state.Closed?)
    && c.log <= c'.log
    && (c.state.Closed? ==> c'.log == c.log)
    && (forall t :: t in c.tasks ==> t in c'.tasks && c'.tasks[t].token == c.tasks[t].token)
  }

  /** An install runs only while the state is open. */
  predicate InstallsOpen(c: Conn) {
    c.lock.Install? ==> !c.state.Closed?
  }

  lemma ExtendsOpening(d: Deployment, c: Conn, active: set<GrantId>, e: Event)
    requires OpeningEvent(e) && Opening(d, c, active, e).Went?
    ensures Extends(c, Opening(d, c, active, e).c)
  {
  }

  lemma ExtendsEnding(c: Conn, active: set<GrantId>, e: Event)
    requires EndingEvent(e) && Ending(c, active, e).Went?
    ensures Extends(c, Ending(c, active, e).c)
  {
  }

  lemma ExtendsInstall(c: Conn, active: set<GrantId>, deny: seq<RevocationPolicy>, e: Event)
    requires deny != [] && InstallsOpen(c) && InstallEvent(e) && InstallStep(c, active, deny, e).Went?
    ensures Extends(c, InstallStep(c, active, deny, e).c)
  {
  }

  lemma ExtendsCommit(c: Conn, active: set<GrantId>, deny: seq<RevocationPolicy>, e: Event)
    requires deny != [] && CommitEvent(e) && CommitStep(c, active, deny, e).Went?
    ensures Extends(c, CommitStep(c, active, deny, e).c)
  {
  }

  lemma ExtendsRenew(c: Conn, active: set<GrantId>, deny: seq<RevocationPolicy>, e: Event)
    requires deny != [] && RenewEvent(e) && RenewStep(c, active, deny, e).Went?
    ensures Extends(c, RenewStep(c, active, deny, e).c)
  {
  }

  lemma ExtendsClient(c: Conn, active: set<GrantId>, e: Event)
    requires ClientEvent(e) && ClientStep(c, active, e).Went?
    ensures Extends(c, ClientStep(c, active, e).c)
  {
  }

  lemma ExtendsMiddle(c: Conn, active: set<GrantId>, e: Event)
    requires MiddleEvent(e) && Middle(c, active, e).Went?
    ensures Extends(c, Middle(c, active, e).c)
  {
  }

  lemma ExtendsWatch(c: Conn, active: set<GrantId>, deny: seq<RevocationPolicy>, e: Event)
    requires deny != [] && WatchEvent(e) && WatchStep(c, active, deny, e).Went?
    ensures Extends(c, WatchStep(c, active, deny, e).c)
  {
  }

  lemma ExtendsLocal(d: Deployment, c: Conn, active: set<GrantId>, deny: seq<RevocationPolicy>, e: Event)
    requires deny != [] && InstallsOpen(c) && LocalStep(d, c, active, deny, e).Went?
    ensures Extends(c, LocalStep(d, c, active, deny, e).c)
  {
    if OpeningEvent(e) {
      ExtendsOpening(d, c, active, e);
    } else if InstallEvent(e) {
      ExtendsInstall(c, active, deny, e);
    } else if CommitEvent(e) {
      ExtendsCommit(c, active, deny, e);
    } else if RenewEvent(e) {
      ExtendsRenew(c, active, deny, e);
    } else if EndingEvent(e) {
      ExtendsEnding(c, active, e);
    } else if ClientEvent(e) {
      ExtendsClient(c, active, e);
    } else if MiddleEvent(e) {
      ExtendsMiddle(c, active, e);
    } else if WatchEvent(e) {
      ExtendsWatch(c, active, deny, e);
    }
  }

  lemma ExtendsAct(d: Deployment, s: Agent, a: Action, id: ConnId)
    requires s.deny != [] && id in s.conns && InstallsOpen(s.conns[id])
    ensures id in Act(d, s, a).conns && Extends(s.conns[id], Act(d, s, a).conns[id])
  {
    if a.On? && a.conn == id && LocalStep(d, s.conns[id], s.active, s.deny, a.e).Went? {
      ExtendsLocal(d, s.conns[id], s.active, s.deny, a.e);
    }
  }

  lemma ExtendsTransitive(a: Conn, b: Conn, c: Conn)
    requires Extends(a, b) && Extends(b, c)
    ensures Extends(a, c)
  {
  }

  lemma OneMore(d: Deployment, run: seq<Action>, a: Action, id: ConnId)
    requires id in Exec(d, run).conns
    ensures id in Exec(d, run + [a]).conns
    ensures Extends(Exec(d, run).conns[id], Exec(d, run + [a]).conns[id])
  {
    assert (run + [a])[..|run|] == run;
    ConnOf(d, run, id);
    ExtendsAct(d, Exec(d, run), a, id);
  }

  /** Whatever happens after a run, a closed connection stays closed, Closed is absorbing, and the
      committed grants of a connection are only ever added to, and only while it is not Closed. */
  lemma {:induction false} NothingReopens(d: Deployment, run: seq<Action>, more: seq<Action>, id: ConnId)
    requires id in Exec(d, run).conns
    ensures id in Exec(d, run + more).conns
    ensures Extends(Exec(d, run).conns[id], Exec(d, run + more).conns[id])
  {
    if more == [] {
      assert run + more == run;
    } else {
      var init := more[..|more| - 1];
      NothingReopens(d, run, init, id);
      assert run + more == run + init + [Last(more)];
      StillExtends(d, Exec(d, run).conns[id], run + init, Last(more), id);
    }
  }

  lemma StillExtends(d: Deployment, c: Conn, run: seq<Action>, a: Action, id: ConnId)
    requires id in Exec(d, run).conns && Extends(c, Exec(d, run).conns[id])
    ensures id in Exec(d, run + [a]).conns && Extends(c, Exec(d, run + [a]).conns[id])
  {
    OneMore(d, run, a, id);
    ExtendsTransitive(c, Exec(d, run).conns[id], Exec(d, run + [a]).conns[id]);
  }

  // ---- the replay guard ----

  /** The replay set is exact in every run: it holds an id precisely when one connection holds that
      reservation, and never more than one connection does. */
  lemma ReplayGuard(d: Deployment, run: seq<Action>, g: GrantId)
    ensures var s := Exec(d, run);
            && (g in s.active <==> exists id :: id in s.conns && Slot(s.conns[id]) == Some(g))
            && forall a, b :: a in s.conns && b in s.conns && Slot(s.conns[a]) == Slot(s.conns[b]) == Some(g) ==> a == b
  {
    RunInv(d, run);
  }

  /** No grant authorizes two connections at once, although renewal never claims anything. */
  lemma OneSessionPerGrant(d: Deployment, run: seq<Action>, a: ConnId, b: ConnId)
    requires a in Exec(d, run).conns && b in Exec(d, run).conns && a != b
    requires LeaseOf(Exec(d, run).conns[a].state).Some? && LeaseOf(Exec(d, run).conns[b].state).Some?
    ensures var s := Exec(d, run);
            LeaseOf(s.conns[a].state).value.current.grant.id != LeaseOf(s.conns[b].state).value.current.grant.id
  {
    RunInv(d, run);
    var s := Exec(d, run);
    assert ConnInv(d, s.conns[a], s.deny) && ConnInv(d, s.conns[b], s.deny);
    assert Slot(s.conns[a]) == Some(LeaseOf(s.conns[a].state).value.slot);
    assert Slot(s.conns[b]) == Some(LeaseOf(s.conns[b].state).value.slot);
  }

  /** Nothing leaks: once every connection is closed and no lease is still being dropped, every
      reservation has been returned, whichever paths failed or were cancelled on the way. */
  lemma NothingLeaks(d: Deployment, run: seq<Action>)
    requires forall id :: id in Exec(d, run).conns ==>
               Exec(d, run).conns[id].state.Closed? && Exec(d, run).conns[id].dropping.None?
    ensures Exec(d, run).active == {}
  {
    var s := Exec(d, run);
    forall id | id in s.conns
      ensures Slot(s.conns[id]).None?
    {
      ConnOf(d, run, id);
      SlotFreed(d, s.conns[id], s.deny);
    }
    ReplayIsExact(d, run);
    NoSlots(s);
  }

  lemma SlotFreed(d: Deployment, c: Conn, deny: seq<RevocationPolicy>)
    requires ConnInv(d, c, deny) && c.state.Closed? && c.dropping.None?
    ensures Slot(c).None?
  {
  }

  lemma ReplayIsExact(d: Deployment, run: seq<Action>)
    ensures ReplayExact(Exec(d, run))
  {
    RunInv(d, run);
  }

  lemma NoSlots(s: Agent)
    requires ReplayExact(s) && forall id :: id in s.conns ==> Slot(s.conns[id]).None?
    ensures s.active == {}
  {
  }

  // ---- one connection in a run ----

  lemma ConnOf(d: Deployment, run: seq<Action>, id: ConnId)
    requires id in Exec(d, run).conns
    ensures ConnInv(d, Exec(d, run).conns[id], Exec(d, run).deny)
  {
    RunInv(d, run);
  }

  predicate Transacting(s: Agent, id: ConnId, t: TaskId) {
    id in s.conns && t in s.conns[id].tasks && InTx(s.conns[id].tasks[t].pc)
  }

  /** One owner per transaction: two tasks are inside transactions at once only after the state was
      closed under them, and then neither of them ever commits. */
  lemma OneOwner(d: Deployment, run: seq<Action>, more: seq<Action>, id: ConnId, t: TaskId, u: TaskId)
    requires t != u && Transacting(Exec(d, run), id, t) && Transacting(Exec(d, run), id, u)
    ensures Exec(d, run).conns[id].state.Closed?
    ensures NeverCommits(Exec(d, run + more), id, t) && NeverCommits(Exec(d, run + more), id, u)
  {
    ConnOf(d, run, id);
    assert TaskOk(d, Exec(d, run).conns[id], t) && TaskOk(d, Exec(d, run).conns[id], u);
    ClosedUnder(d, run, more, id, t);
    ClosedUnder(d, run, more, id, u);
  }

  predicate NeverCommits(s: Agent, id: ConnId, t: TaskId) {
    id in s.conns && t in s.conns[id].tasks && s.conns[id].tasks[t].accepted.None?
  }

  /** A task whose state was closed under it never commits. */
  lemma ClosedUnder(d: Deployment, run: seq<Action>, more: seq<Action>, id: ConnId, t: TaskId)
    requires Transacting(Exec(d, run), id, t) && Exec(d, run).conns[id].state.Closed?
    ensures NeverCommits(Exec(d, run + more), id, t)
  {
    NothingReopens(d, run, more, id);
    ConnOf(d, run, id);
    ConnOf(d, run + more, id);
    SameLog(d, Exec(d, run).conns[id], Exec(d, run + more).conns[id], t);
  }

  lemma SameLog(d: Deployment, c: Conn, c': Conn, t: TaskId)
    requires LogInv(d, c) && LogInv(d, c') && c'.log == c.log
    requires t in c.tasks && t in c'.tasks && TaskOk(d, c, t) && InTx(c.tasks[t].pc)
    ensures c'.tasks[t].accepted.None?
  {
    if c'.tasks[t].accepted.Some? {
      assert CommitOk(d, c, c'.tasks[t].accepted.value);
    }
  }

  predicate TaskEvent(e: Event) {
    || ClientEvent(e) || OpeningEvent(e) || InstallEvent(e) || MiddleEvent(e) || CommitEvent(e) || RenewEvent(e)
    || EndingEvent(e)
  }

  /** A step of task `t`; a `begin` only if it is going to be refused. */
  predicate LosingStep(c: Conn, e: Event, t: TaskId) {
    TaskEvent(e) && e.t == t && t in c.tasks && (e.BeginTx? ==> Begin(c.state, c.tasks[t].renewal).1.Some?)
  }

  /** The task has no transaction and is in no critical section. */
  predicate Outside(c: Conn, t: TaskId) {
    && t in c.tasks && !c.tasks[t].armed && !Inside(c, t)
    && (c.tasks[t].pc.Arrived? || c.tasks[t].pc.Refused? || c.tasks[t].pc.Hanging? || c.tasks[t].pc.Done?)
  }

  lemma UnarmedOutside(d: Deployment, c: Conn, versions: nat, t: TaskId)
    requires LockInv(d, c, versions) && t in c.tasks && TaskOk(d, c, t) && !c.tasks[t].armed
    ensures Outside(c, t)
  {
  }

  /** Nothing changes but the record of task `t`, whose guard stays unarmed. */
  predicate OnlyRecord(c: Conn, c': Conn, t: TaskId) {
    t in c'.tasks && c' == With(c, t, c'.tasks[t]) && !c'.tasks[t].armed
  }

  predicate Inert(c: Conn, active: set<GrantId>, o: Outcome, t: TaskId) {
    o.Went? ==> o.active == active && OnlyRecord(c, o.c, t)
  }

  lemma LoserInstalls(c: Conn, active: set<GrantId>, deny: seq<RevocationPolicy>, e: Event, t: TaskId)
    requires deny != [] && Outside(c, t) && LosingStep(c, e, t) && InstallEvent(e)
    ensures InstallStep(c, active, deny, e).Blocked?
  {
  }

  lemma LoserCommits(c: Conn, active: set<GrantId>, deny: seq<RevocationPolicy>, e: Event, t: TaskId)
    requires deny != [] && Outside(c, t) && LosingStep(c, e, t) && CommitEvent(e)
    ensures CommitStep(c, active, deny, e).Blocked?
  {
  }

  lemma LoserRenews(c: Conn, active: set<GrantId>, deny: seq<RevocationPolicy>, e: Event, t: TaskId)
    requires deny != [] && Outside(c, t) && LosingStep(c, e, t) && RenewEvent(e)
    ensures RenewStep(c, active, deny, e).Blocked?
  {
  }

  lemma LoserReads(c: Conn, active: set<GrantId>, e: Event, t: TaskId)
    requires Outside(c, t) && LosingStep(c, e, t) && ClientEvent(e)
    ensures Inert(c, active, ClientStep(c, active, e), t)
  {
  }

  lemma LoserOpens(d: Deployment, c: Conn, active: set<GrantId>, e: Event, t: TaskId)
    requires Outside(c, t) && LosingStep(c, e, t) && OpeningEvent(e)
    ensures Inert(c, active, Opening(d, c, active, e), t)
  {
  }

  lemma LoserWrites(c: Conn, active: set<GrantId>, e: Event, t: TaskId)
    requires Outside(c, t) && LosingStep(c, e, t) && MiddleEvent(e)
    ensures Middle(c, active, e).Blocked?
  {
  }

  lemma LoserEnds(c: Conn, active: set<GrantId>, e: Event, t: TaskId)
    requires Outside(c, t) && LosingStep(c, e, t) && EndingEvent(e)
    ensures Inert(c, active, Ending(c, active, e), t)
  {
  }

  lemma LoserStep(d: Deployment, c: Conn, active: set<GrantId>, deny: seq<RevocationPolicy>, e: Event, t: TaskId)
    requires deny != [] && Outside(c, t) && LosingStep(c, e, t)
    ensures Inert(c, active, LocalStep(d, c, active, deny, e), t)
  {
    if ClientEvent(e) {
      LoserReads(c, active, e, t);
    } else if OpeningEvent(e) {
      LoserOpens(d, c, active, e, t);
    } else if InstallEvent(e) {
      LoserInstalls(c, active, deny, e, t);
    } else if MiddleEvent(e) {
      LoserWrites(c, active, e, t);
    } else if CommitEvent(e) {
      LoserCommits(c, active, deny, e, t);
    } else if RenewEvent(e) {
      LoserRenews(c, active, deny, e, t);
    } else {
      LoserEnds(c, active, e, t);
    }
  }

  lemma LoserActs(d: Deployment, s: Agent, id: ConnId, e: Event, t: TaskId)
    requires s.deny != [] && id in s.conns && Outside(s.conns[id], t) && LosingStep(s.conns[id], e, t)
    ensures var s' := Act(d, s, On(id, e));
            id in s'.conns && s' == s.(conns := s.conns[id := s'.conns[id]]) && OnlyRecord(s.conns[id], s'.conns[id], t)
  {
    var c := s.conns[id];
    LoserStep(d, c, s.active, s.deny, e, t);
    assert s.conns == s.conns[id := c] && c.tasks == c.tasks[t := c.tasks[t]];
  }

  /** A losing attempt is inert: in every run, until its own `begin` succeeds, no step of a task changes
      anything but that task's record, so the winner's state, reservation, watchdog and log, the replay
      set, the denylist and all other connections are untouched. */
  lemma LoserInert(d: Deployment, run: seq<Action>, id: ConnId, e: Event, t: TaskId)
    requires id in Exec(d, run).conns && LosingStep(Exec(d, run).conns[id], e, t)
    requires !Exec(d, run).conns[id].tasks[t].armed
    ensures var (s, s') := (Exec(d, run), Exec(d, run + [On(id, e)]));
            && id in s'.conns && s' == s.(conns := s.conns[id := s'.conns[id]])
            && OnlyRecord(s.conns[id], s'.conns[id], t)
  {
    var s := Exec(d, run);
    assert (run + [On(id, e)])[..|run|] == run;
    ConnOf(d, run, id);
    assert TaskOk(d, s.conns[id], t);
    UnarmedOutside(d, s.conns[id], |s.deny|, t);
    LoserActs(d, s, id, e, t);
  }

  /** An unfinished transaction ends in Closed: a task whose guard was still armed when it ended has
      closed the state and the connection, and its own close holds no reservation any more. */
  lemma UnfinishedCloses(d: Deployment, run: seq<Action>, id: ConnId, t: TaskId)
    requires id in Exec(d, run).conns && t in Exec(d, run).conns[id].tasks
    requires Exec(d, run).conns[id].tasks[t].armed && Exec(d, run).conns[id].tasks[t].pc == Done
    ensures var c := Exec(d, run).conns[id];
            && c.state.Closed? && c.closed
            && (c.dropping.Some? ==> c.dropping.value.1 != Guard(t))
  {
    ConnOf(d, run, id);
    assert TaskOk(d, Exec(d, run).conns[id], t);
  }

  // ---- two-party agreement ----

  /** At some instant the token verified as `g`: trusted issuer, valid signature, this peer and
      audience, the pinned tenant and revision floor. */
  ghost predicate Verifies(cfg: Config, token: Token, peer: Key, audience: Key, g: VerifiedGrant) {
    exists unix: U64 :: VerifyBound(cfg, token, peer, audience, unix) == Ok(g)
  }

  /** The client believes only what the server committed: its call returns Ok only if the server task
      of that very stream has already committed the grant the client presented. */
  lemma ClientAgreement(cfg: Config, run: seq<Action>, id: ConnId, t: TaskId)
    requires var d := Deploy(cfg);
             && id in Exec(d, run).conns && t in Exec(d, run).conns[id].tasks
             && Exec(d, run).conns[id].tasks[t].client == Succeeded
    ensures CommittedFor(cfg, Exec(Deploy(cfg), run).conns[id], t)
  {
    var d := Deploy(cfg);
    ConnOf(d, run, id);
    assert TaskOk(d, Exec(d, run).conns[id], t);
    SucceededMeans(cfg, d, Exec(d, run).conns[id], t);
  }

  /** Task `t` has committed a grant that its own token verifies as. */
  ghost predicate CommittedFor(cfg: Config, c: Conn, t: TaskId) {
    t in c.tasks &&
    var k := c.tasks[t];
    && k.accepted.Some? && k.accepted.value < |c.log| && c.log[k.accepted.value].task == t
    && Verifies(cfg, k.token, c.peer, c.audience, c.log[k.accepted.value].grant.grant)
  }

  lemma SucceededMeans(cfg: Config, d: Deployment, c: Conn, t: TaskId)
    requires d == Deploy(cfg) && LogInv(d, c) && t in c.tasks && TaskOk(d, c, t) && c.tasks[t].client == Succeeded
    ensures CommittedFor(cfg, c, t)
  {
    var i := c.tasks[t].accepted.value;
    assert CommitOk(d, c, i);
    VouchedMeans(cfg, c.peer, c.audience, c.tasks[t].token, c.log[i].grant.grant);
  }

  lemma VouchedMeans(cfg: Config, peer: Key, audience: Key, token: Token, g: VerifiedGrant)
    requires Vouched(Deploy(cfg), peer, audience, token, g)
    ensures Verifies(cfg, token, peer, audience, g)
  {
    var d := Deploy(cfg);
    var unix: U64 :| d.verify(token, peer, audience, unix) == Ok(g.payload);
    assert VerifyBound(cfg, token, peer, audience, unix) == Ok(g);
  }

  /** A commit that failed after its acknowledgement was written can never be taken for success: the
      task ends with the connection closed and no FIN sent, so the client cannot return Ok. */
  lemma FailedCommitHidden(d: Deployment, run: seq<Action>, id: ConnId, t: TaskId)
    requires id in Exec(d, run).conns && t in Exec(d, run).conns[id].tasks
    requires var k := Exec(d, run).conns[id].tasks[t]; k.sent.ack == Some(AckOk) && k.accepted.None?
    ensures var c := Exec(d, run).conns[id];
            && !c.tasks[t].sent.fin && c.tasks[t].client != Succeeded
            && (c.tasks[t].pc == Done ==> c.closed && c.state.Closed?)
  {
    ConnOf(d, run, id);
    assert TaskOk(d, Exec(d, run).conns[id], t);
  }

  // ---- the watchdog and renewal ----

  /** No stale expiry decision: once a commit or renewal has been accepted, no watchdog close, at any
      later time, is an expiry judged on an older grant. */
  lemma NoStaleExpiry(d: Deployment, run: seq<Action>, more: seq<Action>, id: ConnId, i: nat)
    requires id in Exec(d, run).conns && i < |Exec(d, run).conns[id].log|
    ensures id in Exec(d, run + more).conns
    ensures var v := Exec(d, run + more).conns[id].verdict;
            v.Some? && v.value.cause == Cause.GrantExpired ==>
              Revision(Exec(d, run).conns[id].log[i].grant) <= Revision(v.value.active)
  {
    NothingReopens(d, run, more, id);
    ConnOf(d, run + more, id);
    var c, c' := Exec(d, run).conns[id], Exec(d, run + more).conns[id];
    assert c'.log[i] == c.log[i];
  }

  lemma ParkedChecked(d: Deployment, c: Conn, deny: seq<RevocationPolicy>)
    requires StateInv(d, c) && LockInv(d, c, |deny|) && WatchInv(c, deny) && c.watchdog.Parked?
    ensures c.watchdog.seen < |deny| && c.watchdog.active.grant.id !in deny[c.watchdog.seen].ids
    ensures LeaseOf(c.state).Some? ==> LeaseOf(c.state).value.current.grant.id == c.watchdog.active.grant.id
    ensures LeaseOf(c.state).Some? && c.cell.Some? && c.watchdog.cellSeen == c.cell.value.version && c.lock == Free ==>
              c.watchdog.active == LeaseOf(c.state).value.current
  {
    if LeaseOf(c.state).Some? {
      ShownId(d, c, deny);
    }
  }

  /** The watchdog is shown a grant of the session in force. */
  lemma ShownId(d: Deployment, c: Conn, deny: seq<RevocationPolicy>)
    requires StateInv(d, c) && LockInv(d, c, |deny|) && LeaseOf(c.state).Some?
    ensures c.cell.Some? && c.cell.value.value.grant.id == LeaseOf(c.state).value.current.grant.id
  {
    if Publishing(c.lock) {
      assert Follows(c.state.held.current, c.lock.next);
    }
  }

  /** Neither the grant the watchdog checked nor the one in force is revoked; with no update pending
      they are the same. */
  predicate UpToDate(c: Conn, current: RevocationPolicy) {
    && c.watchdog.Parked? && c.watchdog.active.grant.id !in current.ids
    && (LeaseOf(c.state).Some? ==> LeaseOf(c.state).value.current.grant.id !in current.ids)
    && (LeaseOf(c.state).Some? && c.cell.Some? && c.watchdog.cellSeen == c.cell.value.version && c.lock == Free ==>
          c.watchdog.active == LeaseOf(c.state).value.current)
  }

  lemma ParkedCurrent(d: Deployment, c: Conn, deny: seq<RevocationPolicy>)
    requires CoreInv(d, c, deny) && c.watchdog.Parked? && c.watchdog.seen == |deny| - 1
    ensures UpToDate(c, Last(deny))
  {
    ParkedChecked(d, c, deny);
  }

  /** No lost revocation: a watchdog that waits with no denylist update pending has checked the
      current denylist, and neither the grant it checked nor the one in force is on it. */
  lemma NoLostRevocation(d: Deployment, run: seq<Action>, id: ConnId)
    requires id in Exec(d, run).conns
    requires Exec(d, run).conns[id].watchdog.Parked?
    requires Exec(d, run).conns[id].watchdog.seen == |Exec(d, run).deny| - 1
    ensures UpToDate(Exec(d, run).conns[id], Last(Exec(d, run).deny))
  {
    ConnOf(d, run, id);
    ParkedCurrent(d, Exec(d, run).conns[id], Exec(d, run).deny);
  }
}
