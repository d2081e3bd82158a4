/** What every step of the admission protocol keeps. */
module AuthzInvariant {
  import opened Prelude
  import opened Grant
  import opened Revocations
  import opened AuthzState
  import opened AuthzProtocol

  /** `token` verifies, at some instant, as `g` for this peer, audience and deployment. */
  ghost predicate Vouched(d: Deployment, peer: Key, audience: Key, token: Token, g: VerifiedGrant) {
    && g.id == d.id(g.payload)
    && exists unix: U64 :: d.verify(token, peer, audience, unix) == Ok(g.payload)
  }

  function Revision(a: ActiveGrant): U64 {
    a.grant.payload.revision
  }

  predicate InTx(pc: Pc) {
    pc.Admitted? || pc.Checked? || pc.Installing? || pc.Ready? || pc.Acked? || pc.Committing?
  }

  /** What a task has put on the wire at each point. FIN after a positive acknowledgement is only
      ever sent by a task whose commit succeeded. */
  predicate WireOk(k: Task, closed: bool) {
    && (k.pc.Arrived? || k.pc.Refused? || k.pc.Admitted? || k.pc.Checked? || k.pc.Installing? || k.pc.Ready? ==>
          k.sent.ack.None?)
    && (k.pc.Acked? || k.pc.Committing? || k.pc.Committed? ==> k.sent.ack == Some(AckOk))
    && (k.pc.Committed? ==> k.accepted.Some?)
    && (k.pc.Arrived? || k.pc.Refused? || InTx(k.pc) ==> k.accepted.None?)
    && (k.pc.Hanging? && k.sent.ack == Some(AckOk) ==> closed)
    && (k.sent.fin ==> k.pc.Done?)
    && (k.sent.fin && k.sent.ack == Some(AckOk) ==> k.accepted.Some?)
  }

  predicate ClientOk(k: Task) {
    && (k.client == AwaitFin ==> k.sent.ack == Some(AckOk))
    && (k.client == Succeeded ==> k.sent == Response(Some(AckOk), true))
  }

  /** The Admission guard exists from `begin` on, and a guard that dropped armed has closed. */
  predicate GuardOk(k: Task, closedState: bool, closed: bool) {
    && (InTx(k.pc) || k.pc.Committed? || k.pc.Failing? || k.pc.StateClosed? ==> k.armed)
    && (k.pc.Arrived? || k.pc.Refused? ==> !k.armed)
    && (k.sent.ack == Some(AckOk) && k.accepted.None? ==> k.armed)
    && (k.pc.StateClosed? ==> closedState)
    && (k.armed && (k.pc.Hanging? || k.pc.Done?) ==> closedState && closed)
  }

  /** A task inside a transaction owns it, unless the state was closed under it. */
  ghost predicate TxOk(d: Deployment, c: Conn, t: TaskId)
    requires t in c.tasks
  {
    var k := c.tasks[t];
    && (InTx(k.pc) && !c.state.Closed? ==>
          c.owner == Some(t) && (if k.renewal then c.state.Renewing? else c.state.Authorizing?))
    && ((k.pc.Admitted? || k.pc.Checked?) && !k.renewal && !c.state.Closed? ==> c.state == Authorizing(None))
    && (k.pc.Checked? ==> Vouched(d, c.peer, c.audience, k.token, k.pc.v))
    && (k.pc.Installing? ==> c.lock.Install? && c.lock.task == t)
    && (k.pc.Committing? ==> (c.lock.CommitFirst? || c.lock.CommitNext?) && c.lock.task == t)
    && (k.pc.Ready? || k.pc.Acked? ==>
          && k.pc.next.Some? == k.renewal
          && (!c.state.Closed? ==>
                if k.renewal then NextOk(d, c, t, k.pc.next.value)
                else FirstOk(d, c, t)))
  }

  ghost predicate FirstOk(d: Deployment, c: Conn, t: TaskId)
    requires t in c.tasks
  {
    c.state.Authorizing? && c.state.pending.Some?
    && Vouched(d, c.peer, c.audience, c.tasks[t].token, c.state.pending.value.current.grant)
  }

  ghost predicate NextOk(d: Deployment, c: Conn, t: TaskId, next: ActiveGrant)
    requires t in c.tasks
  {
    && c.state.Renewing?
    && Follows(c.state.held.current, next)
    && Vouched(d, c.peer, c.audience, c.tasks[t].token, next.grant)
  }

  ghost predicate TaskOk(d: Deployment, c: Conn, t: TaskId)
    requires t in c.tasks
  {
    && WireOk(c.tasks[t], c.closed)
    && ClientOk(c.tasks[t])
    && GuardOk(c.tasks[t], c.state.Closed?, c.closed)
    && TxOk(d, c, t)
  }

  ghost predicate TasksInv(d: Deployment, c: Conn) {
    forall t :: t in c.tasks ==> TaskOk(d, c, t)
  }

  /** The mutex holder is the transaction's owner, and the state is the one it entered with. */
  ghost predicate LockInv(d: Deployment, c: Conn, versions: nat) {
    match c.lock
    case Free => true
    case Install(t, v, seen, _) =>
      && At(c, t, Installing) && !c.tasks[t].renewal && c.owner == Some(t)
      && c.state == Authorizing(None) && seen < versions
      && Vouched(d, c.peer, c.audience, c.tasks[t].token, v)
    case CommitFirst(t, _) =>
      At(c, t, Committing) && !c.tasks[t].renewal && c.owner == Some(t) && FirstOk(d, c, t)
    case CommitNext(t, next, _) =>
      At(c, t, Committing) && c.tasks[t].renewal && c.owner == Some(t) && NextOk(d, c, t, next)
  }

  predicate Publishing(lock: Lock) {
    lock.CommitNext? && (lock.step.Published? || lock.step.StillOpen?)
  }

  /** Where the lease is, and what the update channel and the log say about it. */
  ghost predicate StateInv(d: Deployment, c: Conn) {
    && (c.dropping.Some? || c.orphaned ==> c.state.Closed?)
    && !(c.dropping.Some? && c.orphaned)
    && (c.dropping.Some? && c.dropping.value.1.Guard? ==> At(c, c.dropping.value.1.task, StateClosed))
    && (c.cell.None? ==> c.log == [] && !c.orphaned && c.dropping.None? && c.verdict.None?)
    && (c.cell.Some? ==> c.state.Closed? || LeaseOf(c.state).Some?)
    && (LeaseOf(c.state).Some? ==>
          var l := LeaseOf(c.state).value;
          && l.slot == l.current.grant.id == d.id(l.current.grant.payload)
          && c.cell.Some?
          && c.cell.value.value == (if Publishing(c.lock) then c.lock.next else l.current)
          && (c.state.Authorizing? ==> c.log == [])
          && (!c.state.Authorizing? ==> c.log != [] && Last(c.log).grant == l.current))
    && (c.state.Authorizing? || c.state.Renewing? ==>
          && c.owner.Some? && c.owner.value in c.tasks
          && (InTx(c.tasks[c.owner.value].pc) || c.tasks[c.owner.value].pc.Failing?)
          && c.tasks[c.owner.value].renewal == c.state.Renewing?)
  }

  /** The commit was made by a task of this connection that verified and acknowledged the grant. */
  ghost predicate CommitOk(d: Deployment, c: Conn, i: nat)
    requires i < |c.log|
  {
    && c.log[i].task in c.tasks
    && c.tasks[c.log[i].task].accepted == Some(i)
    && c.tasks[c.log[i].task].sent.ack == Some(AckOk)
    && Vouched(d, c.peer, c.audience, c.tasks[c.log[i].task].token, c.log[i].grant.grant)
  }

  /** Every committed grant was verified, acknowledged and committed by a task of this connection,
      and follows the one before it. */
  ghost predicate LogInv(d: Deployment, c: Conn) {
    && (forall i :: 0 <= i < |c.log| ==> CommitOk(d, c, i))
    && (forall i :: 0 < i < |c.log| ==> Follows(c.log[i - 1].grant, c.log[i].grant))
    && (forall t :: t in c.tasks && c.tasks[t].accepted.Some? ==>
          c.tasks[t].accepted.value < |c.log| && c.log[c.tasks[t].accepted.value].task == t)
  }

  /** No committed grant is newer than the one the watchdog is shown. */
  ghost predicate ShownInv(c: Conn) {
    forall i :: 0 <= i < |c.log| ==> c.cell.Some? && Revision(c.log[i].grant) <= Revision(c.cell.value.value)
  }

  ghost predicate WatchInv(c: Conn, deny: seq<RevocationPolicy>) {
    && (c.watchdog.Unborn? <==> c.cell.None?)
    && match c.watchdog
       case Unborn => true
       case Top(seen) => seen < |deny|
       case Snapped(seen) => seen < |deny|
       case Guarded(seen, cellSeen, a) =>
         seen < |deny| && a == c.cell.value.value && cellSeen == c.cell.value.version
       case Condemned(v) => v.active == c.cell.value.value
       case Parked(seen, cellSeen, a) =>
         && seen < |deny|
         && a.grant.id !in deny[seen].ids
         && a.grant.id == c.cell.value.value.grant.id
         && cellSeen <= c.cell.value.version
         && (cellSeen == c.cell.value.version ==> a == c.cell.value.value)
       case Exited => c.closed || c.orphaned
  }

  /** An expiry that closed the connection was judged on a grant no commit is ahead of. */
  ghost predicate VerdictInv(c: Conn) {
    c.verdict.Some? ==>
      && c.closed
      && (c.verdict.value.cause == Cause.GrantExpired ==>
            var r := Revision(c.verdict.value.active);
            && (forall i :: 0 <= i < |c.log| ==> Revision(c.log[i].grant) <= r)
            && (LeaseOf(c.state).Some? ==> Revision(LeaseOf(c.state).value.current) <= r)
            && (c.lock.CommitNext? && c.lock.step.StillOpen? ==> Revision(c.lock.next) <= r))
  }

  /** Everything about a connection that does not range over its tasks. */
  ghost predicate CoreInv(d: Deployment, c: Conn, deny: seq<RevocationPolicy>) {
    && LockInv(d, c, |deny|)
    && StateInv(d, c)
    && ShownInv(c)
    && WatchInv(c, deny)
    && VerdictInv(c)
  }

  ghost predicate ConnInv(d: Deployment, c: Conn, deny: seq<RevocationPolicy>) {
    CoreInv(d, c, deny) && TasksInv(d, c) && LogInv(d, c)
  }

  // ---- steps by what they change ----

  /** Only task `t` moves. */
  lemma TaskMoves(d: Deployment, c: Conn, deny: seq<RevocationPolicy>, t: TaskId, k: Task)
    requires CoreInv(d, c, deny)
    requires !Inside(c, t)
    requires t in c.tasks ==> k.renewal == c.tasks[t].renewal && k.token == c.tasks[t].token
    requires (c.state.Authorizing? || c.state.Renewing?) && c.owner == Some(t) ==> InTx(k.pc) || k.pc.Failing?
    requires c.dropping.Some? && c.dropping.value.1 == Guard(t) ==> k.pc.StateClosed?
    ensures CoreInv(d, With(c, t, k), deny)
  {
  }

  /** A client reads: the server side of its task is as it was. */
  lemma ClientMoves(d: Deployment, c: Conn, deny: seq<RevocationPolicy>, t: TaskId, client: Client)
    requires CoreInv(d, c, deny) && t in c.tasks
    ensures CoreInv(d, With(c, t, c.tasks[t].(client := client)), deny)
  {
  }

  /** Only the mutex holder's position moves, and it publishes nothing. */
  lemma LockMoves(d: Deployment, c: Conn, deny: seq<RevocationPolicy>, lock: Lock)
    requires CoreInv(d, c, deny)
    requires LockInv(d, c.(lock := lock), |deny|)
    requires Publishing(c.lock) == Publishing(lock) == false
    ensures CoreInv(d, c.(lock := lock), deny)
  {
  }

  lemma WatchdogMoves(d: Deployment, c: Conn, deny: seq<RevocationPolicy>, w: Watchdog)
    requires CoreInv(d, c, deny)
    requires WatchInv(c.(watchdog := w), deny)
    ensures CoreInv(d, c.(watchdog := w), deny)
  {
  }

  lemma Closes(d: Deployment, c: Conn, deny: seq<RevocationPolicy>)
    requires CoreInv(d, c, deny)
    ensures CoreInv(d, c.(closed := true), deny)
  {
  }

  lemma StateTaken(d: Deployment, c: Conn, deny: seq<RevocationPolicy>)
    requires CoreInv(d, c, deny) && c.lock == Free
    ensures CoreInv(d, TakeState(c, Service), deny)
  {
  }

  lemma StateTakenByGuard(d: Deployment, c: Conn, deny: seq<RevocationPolicy>, t: TaskId)
    requires CoreInv(d, c, deny) && c.lock == Free && At(c, t, Failing)
    ensures CoreInv(d, TakeState(Goto(c, t, StateClosed), Guard(t)), deny)
  {
  }

  lemma LeaseDropped(d: Deployment, c: Conn, deny: seq<RevocationPolicy>)
    requires CoreInv(d, c, deny) && c.dropping.Some?
    ensures CoreInv(d, c.(dropping := None, orphaned := true), deny)
  {
  }

  lemma Begun(d: Deployment, c: Conn, deny: seq<RevocationPolicy>, t: TaskId)
    requires CoreInv(d, c, deny) && At(c, t, Arrived) && c.lock == Free
    requires TaskOk(d, c, t)
    requires Begin(c.state, c.tasks[t].renewal).1.None?
    ensures var c' := With(c, t, c.tasks[t].(pc := Admitted, armed := true)).(
                        state := Begin(c.state, c.tasks[t].renewal).0, owner := Some(t));
            CoreInv(d, c', deny) && TaskOk(d, c', t)
  {
  }

  lemma InstallEntered(d: Deployment, c: Conn, deny: seq<RevocationPolicy>, t: TaskId)
    requires deny != [] && CoreInv(d, c, deny) && t in c.tasks && TaskOk(d, c, t)
    requires c.tasks[t].pc.Checked? && !c.tasks[t].renewal && c.lock == Free && c.state == Authorizing(None)
    ensures var c' := Goto(c, t, Installing).(lock := Install(t, c.tasks[t].pc.v, |deny| - 1, Subscribed));
            CoreInv(d, c', deny) && TaskOk(d, c', t)
  {
  }

  lemma InstallFailed(d: Deployment, c: Conn, deny: seq<RevocationPolicy>, t: TaskId)
    requires CoreInv(d, c, deny) && c.lock.Install? && c.lock.task == t && t in c.tasks && TaskOk(d, c, t)
    ensures var c' := Goto(c, t, Failing).(lock := Free); CoreInv(d, c', deny) && TaskOk(d, c', t)
  {
  }

  lemma Installed(d: Deployment, c: Conn, deny: seq<RevocationPolicy>, t: TaskId, a: ActiveGrant)
    requires CoreInv(d, c, deny) && c.lock.Install? && c.lock.task == t && t in c.tasks && TaskOk(d, c, t)
    requires a.grant == c.lock.v
    ensures var c' := Goto(c, t, Ready(None)).(
                        lock := Free,
                        state := Authorizing(Some(GrantLease(a, c.lock.v.id))),
                        cell := Some(Cell(a, 0)),
                        watchdog := Top(c.lock.seen));
            CoreInv(d, c', deny) && TaskOk(d, c', t)
  {
  }

  lemma CommitEntered(d: Deployment, c: Conn, deny: seq<RevocationPolicy>, t: TaskId)
    requires CoreInv(d, c, deny) && c.lock == Free && At(c, t, Acked(None)) && TaskOk(d, c, t)
    requires c.state.Authorizing?
    ensures var c' := Goto(c, t, Committing).(lock := CommitFirst(t, false)); CoreInv(d, c', deny) && TaskOk(d, c', t)
  {
  }

  lemma CommitFailed(d: Deployment, c: Conn, active: set<GrantId>, deny: seq<RevocationPolicy>, t: TaskId)
    requires CoreInv(d, c, deny) && t in c.tasks && TaskOk(d, c, t)
    requires c.lock == Free || c.lock.task == t
    requires c.tasks[t].pc.Acked? || c.tasks[t].pc.Committing?
    ensures var c' := CommitFails(c, active, t).c; CoreInv(d, c', deny) && TaskOk(d, c', t)
  {
  }

  lemma CommittedFirst(d: Deployment, c: Conn, deny: seq<RevocationPolicy>, t: TaskId)
    requires CoreInv(d, c, deny) && c.lock.CommitFirst? && c.lock.task == t && t in c.tasks && TaskOk(d, c, t)
    ensures var lease := c.state.pending.value;
            var c' := With(c, t, c.tasks[t].(pc := Committed, accepted := Some(|c.log|))).(
                        lock := Free, state := Granted(lease), log := c.log + [Commit(t, lease.current)]);
            CoreInv(d, c', deny) && TaskOk(d, c', t)
  {
  }

  lemma RenewEntered(d: Deployment, c: Conn, deny: seq<RevocationPolicy>, t: TaskId, next: ActiveGrant)
    requires CoreInv(d, c, deny) && c.lock == Free && At(c, t, Acked(Some(next))) && TaskOk(d, c, t)
    requires c.state.Renewing?
    ensures var c' := Goto(c, t, Committing).(lock := CommitNext(t, next, Entered));
            CoreInv(d, c', deny) && TaskOk(d, c', t)
  {
  }

  lemma Published(d: Deployment, c: Conn, deny: seq<RevocationPolicy>)
    requires CoreInv(d, c, deny) && c.lock.CommitNext? && c.lock.step == Permitted && !GuardHeld(c.watchdog)
    ensures c.cell.Some?
    ensures CoreInv(d, c.(lock := c.lock.(step := RenewStage.Published),
              cell := Some(Cell(c.lock.next, c.cell.value.version + 1))), deny)
  {
  }

  lemma FoundOpen(d: Deployment, c: Conn, deny: seq<RevocationPolicy>)
    requires CoreInv(d, c, deny) && c.lock.CommitNext? && c.lock.step.Published? && !c.closed
    ensures CoreInv(d, c.(lock := c.lock.(step := StillOpen)), deny)
  {
  }

  lemma CommittedNext(d: Deployment, c: Conn, deny: seq<RevocationPolicy>, t: TaskId)
    requires CoreInv(d, c, deny) && c.lock.CommitNext? && c.lock.task == t && t in c.tasks && TaskOk(d, c, t)
    requires c.lock.step == StillOpen
    ensures var next := c.lock.next;
            var c' := With(c, t, c.tasks[t].(pc := Committed, accepted := Some(|c.log|))).(
                        lock := Free, state := Granted(c.state.held.(current := next)),
                        log := c.log + [Commit(t, next)]);
            CoreInv(d, c', deny) && TaskOk(d, c', t)
  {
  }

  lemma Struck(d: Deployment, c: Conn, deny: seq<RevocationPolicy>)
    requires CoreInv(d, c, deny) && c.watchdog.Condemned?
    ensures CoreInv(d, c.(watchdog := Exited, closed := true, verdict := Some(c.watchdog.verdict)), deny)
  {
  }

  // ---- what a step leaves alone ----

  /** A step of task `t`: no other task's record moves, closing is permanent, and the state changes
      only by closing or at the hand of the transaction's owner. */
  predicate Frame(c: Conn, c': Conn, t: TaskId) {
    && c'.peer == c.peer && c'.audience == c.audience
    && c.tasks.Keys <= c'.tasks.Keys
    && (forall u :: u in c'.tasks && u != t ==> u in c.tasks && c'.tasks[u] == c.tasks[u])
    && (c.closed ==> c'.closed)
    && (c'.lock == c.lock || c.lock == Free || c.lock.task == t)
    && (|| c'.state.Closed?
        || (c'.state == c.state && c'.owner == c.owner)
        || (!c.state.Closed? && (c.owner == Some(t) || !(c.state.Authorizing? || c.state.Renewing?))))
  }

  lemma OthersKept(d: Deployment, c: Conn, c': Conn, t: TaskId, u: TaskId)
    requires Frame(c, c', t)
    requires u in c'.tasks && u != t && TaskOk(d, c, u)
    ensures TaskOk(d, c', u)
  {
  }

  predicate SameRecord(k: Task, k': Task) {
    k'.token == k.token && k'.accepted == k.accepted && (k.sent.ack.Some? ==> k'.sent.ack == k.sent.ack)
  }

  lemma LogKept(d: Deployment, c: Conn, c': Conn, t: TaskId)
    requires LogInv(d, c) && Frame(c, c', t) && c'.log == c.log
    requires t in c'.tasks ==>
               if t in c.tasks then SameRecord(c.tasks[t], c'.tasks[t]) else c'.tasks[t].accepted.None?
    ensures LogInv(d, c')
  {
    forall i | 0 <= i < |c'.log|
      ensures CommitOk(d, c', i)
    {
      assert CommitOk(d, c, i);
    }
  }

  /** The parts of the log invariant, for a log that grew by one commit of task `t`. */
  lemma CommitsGrown(d: Deployment, c: Conn, c': Conn, t: TaskId, g: ActiveGrant, i: nat)
    requires LogInv(d, c) && Frame(c, c', t) && c'.log == c.log + [Commit(t, g)] && i < |c.log|
    requires t in c.tasks && c.tasks[t].accepted.None?
    ensures CommitOk(d, c', i)
  {
    assert CommitOk(d, c, i);
    assert c'.log[i] == c.log[i] && c.log[i].task != t;
  }

  lemma RecordsGrown(d: Deployment, c: Conn, c': Conn, t: TaskId, g: ActiveGrant, u: TaskId)
    requires LogInv(d, c) && Frame(c, c', t) && c'.log == c.log + [Commit(t, g)]
    requires u in c'.tasks && c'.tasks[u].accepted.Some? && u != t
    ensures c'.tasks[u].accepted.value < |c'.log| && c'.log[c'.tasks[u].accepted.value].task == u
  {
    assert c'.tasks[u] == c.tasks[u];
  }

  lemma LogGrown(d: Deployment, c: Conn, c': Conn, t: TaskId, g: ActiveGrant)
    requires LogInv(d, c) && Frame(c, c', t) && c'.log == c.log + [Commit(t, g)]
    requires t in c.tasks && c.tasks[t].accepted.None?
    requires c'.tasks[t].accepted == Some(|c.log|) && c'.tasks[t].sent.ack == Some(AckOk)
    requires Vouched(d, c.peer, c.audience, c'.tasks[t].token, g.grant)
    requires c.log != [] ==> Follows(Last(c.log).grant, g)
    ensures LogInv(d, c')
  {
    forall i | 0 <= i < |c'.log|
      ensures CommitOk(d, c', i)
    {
      if i < |c.log| {
        CommitsGrown(d, c, c', t, g, i);
      }
    }
    forall u | u in c'.tasks && c'.tasks[u].accepted.Some?
      ensures c'.tasks[u].accepted.value < |c'.log| && c'.log[c'.tasks[u].accepted.value].task == u
    {
      if u != t {
        RecordsGrown(d, c, c', t, g, u);
      }
    }
  }

  /** A step of task `t` that commits nothing, seen from everything but the other tasks. */
  ghost predicate Stepped(d: Deployment, c: Conn, c': Conn, deny: seq<RevocationPolicy>, t: TaskId) {
    && CoreInv(d, c', deny)
    && Frame(c, c', t)
    && c'.log == c.log
    && (t in c'.tasks ==>
          && TaskOk(d, c', t)
          && if t in c.tasks then SameRecord(c.tasks[t], c'.tasks[t]) else c'.tasks[t].accepted.None?)
  }

  lemma TasksKept(d: Deployment, c: Conn, c': Conn, t: TaskId)
    requires TasksInv(d, c) && Frame(c, c', t)
    requires t in c'.tasks ==> TaskOk(d, c', t)
    ensures TasksInv(d, c')
  {
    forall u | u in c'.tasks
      ensures TaskOk(d, c', u)
    {
      if u != t {
        OthersKept(d, c, c', t, u);
      }
    }
  }

  lemma Conclude(d: Deployment, c: Conn, c': Conn, deny: seq<RevocationPolicy>, t: TaskId)
    requires ConnInv(d, c, deny) && Stepped(d, c, c', deny, t)
    ensures ConnInv(d, c', deny)
  {
    TasksKept(d, c, c', t);
    LogKept(d, c, c', t);
  }

  lemma TaskStepped(d: Deployment, c: Conn, deny: seq<RevocationPolicy>, t: TaskId, k: Task)
    requires CoreInv(d, c, deny) && t in c.tasks
    requires !Inside(c, t)
    requires k.renewal == c.tasks[t].renewal && SameRecord(c.tasks[t], k)
    requires (c.state.Authorizing? || c.state.Renewing?) && c.owner == Some(t) ==> InTx(k.pc) || k.pc.Failing?
    requires c.dropping.Some? && c.dropping.value.1 == Guard(t) ==> k.pc.StateClosed?
    requires TaskOk(d, With(c, t, k), t)
    ensures Stepped(d, c, With(c, t, k), deny, t)
  {
    TaskMoves(d, c, deny, t, k);
  }

  // ---- every event ----

  lemma ArriveSteps(d: Deployment, c: Conn, active: set<GrantId>, deny: seq<RevocationPolicy>, t: TaskId,
                    renewal: bool, token: Token)
    requires CoreInv(d, c, deny) && t !in c.tasks
    ensures Stepped(d, c, Arrive(c, active, t, renewal, token).c, deny, t)
  {
    var c' := Arrive(c, active, t, renewal, token).c;
    TaskMoves(d, c, deny, t, c'.tasks[t]);
  }

  lemma ClientStepped(d: Deployment, c: Conn, deny: seq<RevocationPolicy>, t: TaskId, client: Client)
    requires CoreInv(d, c, deny) && t in c.tasks && TaskOk(d, c, t)
    requires ClientOk(c.tasks[t].(client := client))
    ensures Stepped(d, c, With(c, t, c.tasks[t].(client := client)), deny, t)
  {
    ClientMoves(d, c, deny, t, client);
  }

  lemma ClientSteps(d: Deployment, c: Conn, active: set<GrantId>, deny: seq<RevocationPolicy>, e: Event)
    requires CoreInv(d, c, deny)
    requires e.ClientAck? || e.ClientFin? || e.ClientFail?
    requires e.t in c.tasks && TaskOk(d, c, e.t) && ClientStep(c, active, e).Went?
    ensures Stepped(d, c, ClientStep(c, active, e).c, deny, e.t)
  {
    var client := ClientStep(c, active, e).c.tasks[e.t].client;
    ClientStepped(d, c, deny, e.t, client);
    assert ClientStep(c, active, e).c == With(c, e.t, c.tasks[e.t].(client := client));
  }

  lemma TeardownSteps(d: Deployment, c: Conn, active: set<GrantId>, deny: seq<RevocationPolicy>, e: Event, t: TaskId)
    requires CoreInv(d, c, deny)
    requires e.TransportClose? || e.ServiceClose? || e.DropLease?
    requires t !in c.tasks && Teardown(c, active, e).Went?
    ensures Stepped(d, c, Teardown(c, active, e).c, deny, t)
  {
    match e {
      case TransportClose => Closes(d, c, deny);
      case ServiceClose => StateTaken(d, c, deny);
      case DropLease => LeaseDropped(d, c, deny);
    }
  }

  lemma WatchAdvances(c: Conn, active: set<GrantId>, deny: seq<RevocationPolicy>, e: Event)
    requires deny != [] && WatchInv(c, deny)
    requires e.Snap? || e.TakeGuard? || e.Decide? || e.Wake?
    requires WatchStep(c, active, deny, e).Went?
    ensures WatchInv(c.(watchdog := WatchStep(c, active, deny, e).c.watchdog), deny)
  {
  }

  lemma WatchSteps(d: Deployment, c: Conn, active: set<GrantId>, deny: seq<RevocationPolicy>, e: Event, t: TaskId)
    requires deny != [] && CoreInv(d, c, deny)
    requires e.Snap? || e.TakeGuard? || e.Decide? || e.Wake?
    requires t !in c.tasks && WatchStep(c, active, deny, e).Went?
    ensures Stepped(d, c, WatchStep(c, active, deny, e).c, deny, t)
  {
    var c' := WatchStep(c, active, deny, e).c;
    assert c' == c.(watchdog := c'.watchdog);
    WatchAdvances(c, active, deny, e);
    WatchdogMoves(d, c, deny, c'.watchdog);
  }

  lemma WatchEnds(d: Deployment, c: Conn, active: set<GrantId>, deny: seq<RevocationPolicy>, e: Event, t: TaskId)
    requires deny != [] && CoreInv(d, c, deny)
    requires e.Strike? || e.Retire?
    requires t !in c.tasks && WatchStep(c, active, deny, e).Went?
    ensures Stepped(d, c, WatchStep(c, active, deny, e).c, deny, t)
  {
    if e.Strike? {
      Struck(d, c, deny);
    } else if e.closing && c.orphaned {
      Closes(d, c, deny);
      WatchdogMoves(d, c.(closed := true), deny, Exited);
    } else {
      WatchdogMoves(d, c, deny, Exited);
    }
  }

  lemma BeginSteps(d: Deployment, c: Conn, active: set<GrantId>, deny: seq<RevocationPolicy>, e: Event)
    requires CoreInv(d, c, deny)
    requires e.BeginTx?
    requires e.t in c.tasks && TaskOk(d, c, e.t) && Opening(d, c, active, e).Went?
    ensures Stepped(d, c, Opening(d, c, active, e).c, deny, e.t)
  {
    var c' := Opening(d, c, active, e).c;
    if Begin(c.state, c.tasks[e.t].renewal).1.None? {
      Begun(d, c, deny, e.t);
    } else {
      TaskStepped(d, c, deny, e.t, c'.tasks[e.t]);
    }
  }

  lemma OpeningSteps(d: Deployment, c: Conn, active: set<GrantId>, deny: seq<RevocationPolicy>, e: Event)
    requires CoreInv(d, c, deny)
    requires e.WriteRefusal? || e.Check?
    requires e.t in c.tasks && TaskOk(d, c, e.t) && Opening(d, c, active, e).Went?
    ensures Stepped(d, c, Opening(d, c, active, e).c, deny, e.t)
  {
    var c' := Opening(d, c, active, e).c;
    if e.WriteRefusal? {
      RefusalWritten(d, c, deny, e.t);
      assert c' == With(c, e.t, Acknowledge(c, c.tasks[e.t], AckError).(pc := Hanging));
    } else {
      TaskStepped(d, c, deny, e.t, c'.tasks[e.t]);
    }
  }

  lemma RefusalWritten(d: Deployment, c: Conn, deny: seq<RevocationPolicy>, t: TaskId)
    requires CoreInv(d, c, deny) && At(c, t, Refused) && TaskOk(d, c, t)
    ensures Stepped(d, c, With(c, t, Acknowledge(c, c.tasks[t], AckError).(pc := Hanging)), deny, t)
  {
    TaskStepped(d, c, deny, t, Acknowledge(c, c.tasks[t], AckError).(pc := Hanging));
  }

  lemma InstallEnterSteps(d: Deployment, c: Conn, active: set<GrantId>, deny: seq<RevocationPolicy>, e: Event)
    requires deny != [] && CoreInv(d, c, deny)
    requires e.InstallEnter?
    requires e.t in c.tasks && TaskOk(d, c, e.t) && InstallStep(c, active, deny, e).Went?
    ensures Stepped(d, c, InstallStep(c, active, deny, e).c, deny, e.t)
  {
    var c' := InstallStep(c, active, deny, e).c;
    if c.state != Authorizing(None) || c.closed {
      TaskStepped(d, c, deny, e.t, c'.tasks[e.t]);
    } else {
      InstallEntered(d, c, deny, e.t);
    }
  }

  lemma InstallSteps(d: Deployment, c: Conn, active: set<GrantId>, deny: seq<RevocationPolicy>, e: Event)
    requires deny != [] && CoreInv(d, c, deny)
    requires e.InstallFresh? || e.InstallClear? || e.InstallClaim?
    requires e.t in c.tasks && TaskOk(d, c, e.t) && InstallStep(c, active, deny, e).Went?
    ensures Stepped(d, c, InstallStep(c, active, deny, e).c, deny, e.t)
  {
    var c' := InstallStep(c, active, deny, e).c;
    if c'.lock.Install? {
      LockMoves(d, c, deny, c'.lock);
    } else {
      InstallFailed(d, c, deny, e.t);
    }
  }

  lemma InstallFinishSteps(d: Deployment, c: Conn, active: set<GrantId>, deny: seq<RevocationPolicy>, e: Event)
    requires deny != [] && CoreInv(d, c, deny)
    requires e.InstallFinish?
    requires e.t in c.tasks && TaskOk(d, c, e.t) && InstallStep(c, active, deny, e).Went?
    ensures Stepped(d, c, InstallStep(c, active, deny, e).c, deny, e.t)
  {
    var a := NewActive(c.lock.v, c.lock.stage.now);
    if a.Err? {
      InstallFailed(d, c, deny, e.t);
    } else {
      Installed(d, c, deny, e.t, a.value);
    }
  }

  lemma PrepareSteps(d: Deployment, c: Conn, active: set<GrantId>, deny: seq<RevocationPolicy>, e: Event)
    requires CoreInv(d, c, deny)
    requires e.Prepare?
    requires e.t in c.tasks && TaskOk(d, c, e.t) && Middle(c, active, e).Went?
    ensures Stepped(d, c, Middle(c, active, e).c, deny, e.t)
  {
    TaskStepped(d, c, deny, e.t, Middle(c, active, e).c.tasks[e.t]);
  }

  lemma AckSteps(d: Deployment, c: Conn, active: set<GrantId>, deny: seq<RevocationPolicy>, e: Event)
    requires CoreInv(d, c, deny)
    requires e.WriteAck?
    requires e.t in c.tasks && TaskOk(d, c, e.t) && Middle(c, active, e).Went?
    ensures Stepped(d, c, Middle(c, active, e).c, deny, e.t)
  {
    TaskStepped(d, c, deny, e.t, Middle(c, active, e).c.tasks[e.t]);
  }

  lemma CommitSteps(d: Deployment, c: Conn, active: set<GrantId>, deny: seq<RevocationPolicy>, e: Event)
    requires deny != [] && CoreInv(d, c, deny)
    requires e.CommitEnter? || e.CommitLive? || e.CommitPermit?
    requires e.t in c.tasks && TaskOk(d, c, e.t) && CommitStep(c, active, deny, e).Went?
    requires CommitStep(c, active, deny, e).c.log == c.log
    ensures Stepped(d, c, CommitStep(c, active, deny, e).c, deny, e.t)
  {
    var c' := CommitStep(c, active, deny, e).c;
    if CommitStep(c, active, deny, e) == CommitFails(c, active, e.t) {
      CommitFailed(d, c, active, deny, e.t);
    } else if e.CommitEnter? {
      CommitEntered(d, c, deny, e.t);
    } else {
      LockMoves(d, c, deny, c'.lock);
    }
  }

  lemma RenewEnterSteps(d: Deployment, c: Conn, active: set<GrantId>, deny: seq<RevocationPolicy>, e: Event)
    requires deny != [] && CoreInv(d, c, deny) && e.RenewEnter?
    requires e.t in c.tasks && TaskOk(d, c, e.t) && RenewStep(c, active, deny, e).Went?
    ensures Stepped(d, c, RenewStep(c, active, deny, e).c, deny, e.t)
  {
    if RenewStep(c, active, deny, e) == CommitFails(c, active, e.t) {
      CommitFailed(d, c, active, deny, e.t);
    } else {
      RenewEntered(d, c, deny, e.t, c.tasks[e.t].pc.next.value);
    }
  }

  lemma RenewAdvances(d: Deployment, c: Conn, deny: seq<RevocationPolicy>, step: RenewStage)
    requires CoreInv(d, c, deny) && c.lock.CommitNext? && c.lock.task in c.tasks && TaskOk(d, c, c.lock.task)
    requires !Publishing(c.lock) && !step.Published? && !step.StillOpen?
    ensures Stepped(d, c, c.(lock := c.lock.(step := step)), deny, c.lock.task)
  {
    LockMoves(d, c, deny, c.lock.(step := step));
  }

  lemma RenewSteps(d: Deployment, c: Conn, active: set<GrantId>, deny: seq<RevocationPolicy>, e: Event)
    requires deny != [] && CoreInv(d, c, deny)
    requires e.RenewLive? || e.RenewNextLive? || e.RenewPermit?
    requires e.t in c.tasks && TaskOk(d, c, e.t) && RenewStep(c, active, deny, e).Went?
    ensures Stepped(d, c, RenewStep(c, active, deny, e).c, deny, e.t)
  {
    if RenewStep(c, active, deny, e) == CommitFails(c, active, e.t) {
      CommitFailed(d, c, active, deny, e.t);
    } else {
      RenewAdvances(d, c, deny, RenewStep(c, active, deny, e).c.lock.step);
      assert RenewStep(c, active, deny, e).c == c.(lock := c.lock.(step := RenewStep(c, active, deny, e).c.lock.step));
    }
  }

  lemma PublishSteps(d: Deployment, c: Conn, active: set<GrantId>, deny: seq<RevocationPolicy>, e: Event)
    requires deny != [] && CoreInv(d, c, deny)
    requires e.RenewPublish? || e.RenewLook?
    requires e.t in c.tasks && TaskOk(d, c, e.t) && RenewStep(c, active, deny, e).Went?
    ensures Stepped(d, c, RenewStep(c, active, deny, e).c, deny, e.t)
  {
    if e.RenewPublish? {
      Published(d, c, deny);
    } else if c.closed {
      CommitFailed(d, c, active, deny, e.t);
    } else {
      FoundOpen(d, c, deny);
    }
  }

  /** The two steps that grow the log. */
  lemma CommitGrows(d: Deployment, c: Conn, active: set<GrantId>, deny: seq<RevocationPolicy>, e: Event)
    requires deny != [] && ConnInv(d, c, deny)
    requires e.CommitPermit? && e.t in c.tasks && TaskOk(d, c, e.t)
    requires CommitStep(c, active, deny, e).Went? && CommitStep(c, active, deny, e).c.log != c.log
    ensures ConnInv(d, CommitStep(c, active, deny, e).c, deny)
  {
    var c' := CommitStep(c, active, deny, e).c;
    CommittedFirst(d, c, deny, e.t);
    LogGrown(d, c, c', e.t, c.state.pending.value.current);
    TasksKept(d, c, c', e.t);
  }

  lemma RenewGrows(d: Deployment, c: Conn, active: set<GrantId>, deny: seq<RevocationPolicy>, e: Event)
    requires deny != [] && ConnInv(d, c, deny)
    requires e.RenewFinish? && e.t in c.tasks && TaskOk(d, c, e.t)
    requires RenewStep(c, active, deny, e).Went?
    ensures ConnInv(d, RenewStep(c, active, deny, e).c, deny)
  {
    var c' := RenewStep(c, active, deny, e).c;
    CommittedNext(d, c, deny, e.t);
    LogGrown(d, c, c', e.t, c.lock.next);
    TasksKept(d, c, c', e.t);
  }

  lemma FinishSteps(d: Deployment, c: Conn, active: set<GrantId>, deny: seq<RevocationPolicy>, e: Event)
    requires CoreInv(d, c, deny)
    requires e.Finish?
    requires e.t in c.tasks && TaskOk(d, c, e.t) && Ending(c, active, e).Went?
    ensures Stepped(d, c, Ending(c, active, e).c, deny, e.t)
  {
    assert c.tasks[e.t].pc == Committed;
    assert !((c.state.Authorizing? || c.state.Renewing?) && c.owner == Some(e.t));
    assert !Inside(c, e.t);
    if e.ok {
      FinishedOk(d, c, e.t);
      TaskStepped(d, c, deny, e.t, FinishStream(c, c.tasks[e.t]).(pc := Done, armed := false));
    } else {
      TaskStepped(d, c, deny, e.t, c.tasks[e.t].(pc := Failing));
    }
  }

  lemma FinishedOk(d: Deployment, c: Conn, t: TaskId)
    requires At(c, t, Committed) && TaskOk(d, c, t)
    ensures TaskOk(d, With(c, t, FinishStream(c, c.tasks[t]).(pc := Done, armed := false)), t)
  {
  }

  lemma DropSendSteps(d: Deployment, c: Conn, active: set<GrantId>, deny: seq<RevocationPolicy>, e: Event)
    requires CoreInv(d, c, deny)
    requires e.DropSend?
    requires e.t in c.tasks && TaskOk(d, c, e.t) && Ending(c, active, e).Went?
    ensures Stepped(d, c, Ending(c, active, e).c, deny, e.t)
  {
    TaskStepped(d, c, deny, e.t, Ending(c, active, e).c.tasks[e.t]);
  }

  lemma CancelSteps(d: Deployment, c: Conn, active: set<GrantId>, deny: seq<RevocationPolicy>, e: Event)
    requires CoreInv(d, c, deny)
    requires e.Cancel?
    requires e.t in c.tasks && TaskOk(d, c, e.t) && Ending(c, active, e).Went?
    ensures Stepped(d, c, Ending(c, active, e).c, deny, e.t)
  {
    TaskStepped(d, c, deny, e.t, Ending(c, active, e).c.tasks[e.t]);
  }

  lemma GuardSteps(d: Deployment, c: Conn, active: set<GrantId>, deny: seq<RevocationPolicy>, e: Event)
    requires CoreInv(d, c, deny)
    requires e.CloseState? || e.Hang?
    requires e.t in c.tasks && TaskOk(d, c, e.t) && Ending(c, active, e).Went?
    ensures Stepped(d, c, Ending(c, active, e).c, deny, e.t)
  {
    var k := Ending(c, active, e).c.tasks[e.t];
    if e.CloseState? {
      StateTakenByGuard(d, c, deny, e.t);
    } else {
      Closes(d, c, deny);
      TaskMoves(d, c.(closed := true), deny, e.t, k);
    }
  }
}
