/** `ConnAuthz` as the agent holds it: one mutable object per connection, sharing the agent's replay
    set and denylist. Each method is one call run to its end; the lemmas below the class show that the
    protocol's small steps, when nothing interleaves, do exactly what the methods do. */
module ConnAuthzObject {
  import opened Prelude
  import opened Clock
  import opened Grant
  import opened Revocations
  import opened AuthzState
  import opened AuthzProtocol

  // ---- what each critical section computes ----

  datatype Section = Section(state: State, active: set<GrantId>, error: Option<AuthzError>)

  /** `first` and `now` are the readings of the freshness check and of the lease. A claim whose lease
      then cannot be built is returned. */
  function InstallAll(s: State, active: set<GrantId>, closed: bool, denied: RevocationPolicy, audience: Key,
                      v: VerifiedGrant, first: Option<Reading>, now: Option<Reading>): Section
  {
    if s != Authorizing(None) || closed then Section(s, active, Some(Interrupted))
    else if !Fresh(denied, first) then Section(s, active, Some(AuthzError.PolicyStale))
    else if v.id in denied.ids then Section(s, active, Some(Revoked))
    else if v.payload.audience != audience then Section(s, active, Some(DestinationMismatch))
    else if now.None? then Section(s, active, Some(ClockUnavailable))
    else if v.id in active then Section(s, active, Some(AlreadyInUse))
    else
      var a := NewActive(v, now.value);
      if a.Err? then Section(s, active, Some(a.error))
      else Section(Authorizing(Some(GrantLease(a.value, v.id))), active + {v.id}, None)
  }

  function Released(s: State, active: set<GrantId>): set<GrantId> {
    if LeaseOf(s).Some? then active - {LeaseOf(s).value.slot} else active
  }

  function CommitAll(s: State, active: set<GrantId>, closed: bool, denied: RevocationPolicy,
                     live: Option<Reading>, permit: Option<Reading>): Section
  {
    if s.Authorizing? && s.pending.Some? && !closed && Live(s.pending.value.current, live)
       && Permits(denied, s.pending.value.current.grant.id, permit)
    then Section(Granted(s.pending.value), active, None)
    else Section(Closed, Released(s, active), Some(Interrupted))
  }

  function RenewAll(s: State, active: set<GrantId>, closed: bool, denied: RevocationPolicy, next: ActiveGrant,
                    live: Option<Reading>, nextLive: Option<Reading>, permit: Option<Reading>): Section
  {
    if s.Renewing? && !closed && Live(s.held.current, live) && Live(next, nextLive)
       && Permits(denied, next.grant.id, permit)
    then Section(Granted(s.held.(current := next)), active, None)
    else Section(Closed, Released(s, active), Some(Interrupted))
  }

  // ---- the objects ----

  class Connection {
    var closed: bool

    constructor ()
      ensures !closed
    {
      closed := false;
    }

    method Close()
      modifies this
      ensures closed
    {
      closed := true;
    }
  }

  class AgentPolicy {
    var active: set<GrantId>
    const denylist: Denylist

    constructor ()
      ensures active == {} && fresh(denylist) && denylist.value == Revocations.DEFAULT
    {
      active := {};
      denylist := new Denylist();
    }
  }

  class ConnAuthz {
    const audience: Key
    var state: State

    constructor (required: bool, audience: Key)
      ensures this.audience == audience && state == (if required then Pending else Open)
    {
      this.audience := audience;
      this.state := if required then Pending else Open;
    }

    method BeginTransaction(renewal: bool) returns (refusal: Option<AuthzError>)
      modifies this
      ensures (state, refusal) == Begin(old(state), renewal)
    {
      refusal := None;
      if renewal {
        if state.Granted? {
          state := Renewing(state.held);
        } else {
          refusal := Some(RenewalNeedsGrant);
        }
      } else {
        match state {
          case Pending => state := Authorizing(None);
          case Open => refusal := Some(NotRequired);
          case Closed => refusal := Some(ConnectionClosed);
          case _ => refusal := Some(AlreadyAuthorizing);
        }
      }
    }

    method Install(conn: Connection, policy: AgentPolicy, v: VerifiedGrant, first: Option<Reading>,
                   now: Option<Reading>)
      returns (error: Option<AuthzError>)
      modifies this, policy
      ensures Section(state, policy.active, error)
              == InstallAll(old(state), old(policy.active), conn.closed, policy.denylist.value, audience, v, first, now)
    {
      if state != Authorizing(None) || conn.closed {
        return Some(Interrupted);
      }
      if !Fresh(policy.denylist.value, first) {
        return Some(AuthzError.PolicyStale);
      }
      if v.id in policy.denylist.value.ids {
        return Some(Revoked);
      }
      if v.payload.audience != audience {
        return Some(DestinationMismatch);
      }
      if now.None? {
        return Some(ClockUnavailable);
      }
      if v.id in policy.active {
        return Some(AlreadyInUse);
      }
      policy.active := policy.active + {v.id};
      var current := NewActive(v, now.value);
      if current.Err? {
        policy.active := policy.active - {v.id};
        assert policy.active == old(policy.active);
        return Some(current.error);
      }
      state := Authorizing(Some(GrantLease(current.value, v.id)));
      error := None;
    }

    method CommitFirstGrant(conn: Connection, policy: AgentPolicy, live: Option<Reading>, permit: Option<Reading>)
      returns (error: Option<AuthzError>)
      modifies this, policy
      ensures Section(state, policy.active, error)
              == CommitAll(old(state), old(policy.active), conn.closed, policy.denylist.value, live, permit)
    {
      var previous := state;
      state := Closed;
      if previous.Authorizing? && previous.pending.Some? && !conn.closed && Live(previous.pending.value.current, live)
         && Permits(policy.denylist.value, previous.pending.value.current.grant.id, permit)
      {
        state := Granted(previous.pending.value);
        error := None;
      } else {
        DropLease(policy, previous);
        error := Some(Interrupted);
      }
    }

    method Prepare(next: VerifiedGrant, now: Option<Reading>) returns (r: Result<ActiveGrant, AuthzError>)
      ensures r == PrepareRenewal(state, next, now)
      ensures r.Ok? ==>
                && state.Renewing? && r.value.grant.payload == next.payload
                && r.value.grant.id == state.held.current.grant.id
    {
      if !state.Renewing? {
        return Err(Interrupted);
      }
      if now.None? {
        return Err(ClockUnavailable);
      }
      if !Live(state.held.current, now) {
        return Err(PreviousExpired);
      }
      var advance := PermitsRenewal(state.held.current.grant, next);
      if advance.Err? {
        return Err(BadRenewal);
      }
      r := if advance.value then NewActive(next, now.value) else Ok(state.held.current);
    }

    method CommitRenewal(conn: Connection, policy: AgentPolicy, next: ActiveGrant,
                         live: Option<Reading>, nextLive: Option<Reading>, permit: Option<Reading>)
      returns (error: Option<AuthzError>)
      modifies this, policy
      ensures Section(state, policy.active, error)
              == RenewAll(old(state), old(policy.active), conn.closed, policy.denylist.value, next,
                          live, nextLive, permit)
    {
      var previous := state;
      state := Closed;
      if previous.Renewing? && !conn.closed && Live(previous.held.current, live) && Live(next, nextLive)
         && Permits(policy.denylist.value, next.grant.id, permit)
      {
        state := Granted(previous.held.(current := next));
        error := None;
      } else {
        DropLease(policy, previous);
        error := Some(Interrupted);
      }
    }

    method DropLease(policy: AgentPolicy, previous: State)
      modifies policy
      ensures policy.active == Released(previous, old(policy.active))
    {
      if LeaseOf(previous).Some? {
        policy.active := policy.active - {LeaseOf(previous).value.slot};
      }
    }

    method CloseAll(policy: AgentPolicy)
      modifies this, policy
      ensures state == Closed && policy.active == Released(old(state), old(policy.active))
    {
      var previous := state;
      state := Closed;
      DropLease(policy, previous);
    }

    method CurrentScope(policy: AgentPolicy, first: Option<Reading>, second: Option<Reading>)
      returns (r: Result<Option<VerifiedGrant>, ScopeError>)
      ensures r == Scope(state, policy.denylist.value, first, second)
      ensures r.Ok? && r.value.Some? ==>
                && (state.Granted? || state.Renewing?) && r.value.value == state.held.current.grant
                && Live(state.held.current, first) && Permits(policy.denylist.value, r.value.value.id, second)
    {
      match state {
        case Open => r := Ok(None);
        case Pending => r := Err(ScopePending);
        case Authorizing(_) => r := Err(ScopeAuthorizing);
        case Closed => r := Err(ScopeClosed);
        case Granted(lease) => r := Judged(policy, lease, first, second);
        case Renewing(lease) => r := Judged(policy, lease, first, second);
      }
    }

    method Judged(policy: AgentPolicy, lease: GrantLease, first: Option<Reading>, second: Option<Reading>)
      returns (r: Result<Option<VerifiedGrant>, ScopeError>)
      ensures r == Scope(Granted(lease), policy.denylist.value, first, second)
      ensures r.Ok? <==> Live(lease.current, first) && Permits(policy.denylist.value, lease.current.grant.id, second)
    {
      if !Live(lease.current, first) {
        return Err(ScopeExpired);
      }
      if !Fresh(policy.denylist.value, second) {
        return Err(ScopePolicyStale);
      }
      if lease.current.grant.id in policy.denylist.value.ids {
        return Err(ScopeRevoked);
      }
      r := Ok(Some(lease.current.grant));
    }
  }

  /** The clock readings one call to `authorize` makes, in order. */
  datatype Readings = Readings(
    unix: U64, first: Option<Reading>, now: Option<Reading>,
    live: Option<Reading>, nextLive: Option<Reading>, permit: Option<Reading>)

  /** `authorize`, run alone. `delivered` and `finished` say whether the acknowledgement could be
      written and the stream finished. After a successful `begin` there are only two endings: granted
      with the whole response sent, or state and connection closed and the reservation returned. A
      refused `begin` changes nothing. */
  method Authorize(d: Deployment, conn: Connection, peer: Key, policy: AgentPolicy, authz: ConnAuthz, token: Token,
                   renewal: bool, clock: Readings, delivered: bool, finished: bool)
    returns (ok: bool, sent: Response)
    modifies conn, policy, authz
    ensures Begin(old(authz.state), renewal).1.Some? ==>
              && !ok && sent.ack != Some(AckOk)
              && authz.state == old(authz.state) && policy.active == old(policy.active)
              && conn.closed == old(conn.closed)
    ensures Begin(old(authz.state), renewal).1.None? && !ok ==>
              && authz.state == Closed && conn.closed && !sent.fin
              && policy.active == Released(old(authz.state), old(policy.active))
    ensures ok ==>
              && sent == Response(Some(AckOk), true) && conn.closed == old(conn.closed)
              && authz.state.Granted?
              && d.verify(token, peer, authz.audience, clock.unix) == Ok(authz.state.held.current.grant.payload)
              && (if renewal
                  then old(authz.state).Granted? && authz.state.held.slot == old(authz.state).held.slot
                       && Follows(old(authz.state).held.current, authz.state.held.current)
                       && policy.active == old(policy.active)
                  else old(authz.state) == Pending && authz.state.held.slot == authz.state.held.current.grant.id
                       && authz.state.held.slot !in old(policy.active)
                       && policy.active == old(policy.active) + {authz.state.held.slot})
  {
    var refusal := authz.BeginTransaction(renewal);
    if refusal.Some? {
      return false, Response(if delivered then Some(AckError) else None, !conn.closed);
    }
    ok, sent := Transact(d, conn, peer, policy, authz, token, renewal, clock, delivered, finished);
    if !ok {
      authz.CloseAll(policy);
      conn.Close();
    }
  }

  /** The guarded part of `authorize`: everything after a successful `begin`. */
  method Transact(d: Deployment, conn: Connection, peer: Key, policy: AgentPolicy, authz: ConnAuthz, token: Token,
                  renewal: bool, clock: Readings, delivered: bool, finished: bool)
    returns (ok: bool, sent: Response)
    requires if renewal then authz.state.Renewing? else authz.state == Authorizing(None)
    modifies policy, authz
    ensures !ok ==>
              && Released(authz.state, policy.active) == Released(old(authz.state), old(policy.active))
              && !sent.fin
    ensures ok ==>
              && sent == Response(Some(AckOk), true) && authz.state.Granted?
              && d.verify(token, peer, authz.audience, clock.unix) == Ok(authz.state.held.current.grant.payload)
              && (if renewal
                  then authz.state.held.slot == old(authz.state).held.slot
                       && Follows(old(authz.state).held.current, authz.state.held.current)
                       && policy.active == old(policy.active)
                  else authz.state.held.slot == authz.state.held.current.grant.id
                       && authz.state.held.slot !in old(policy.active)
                       && policy.active == old(policy.active) + {authz.state.held.slot})
  {
    ok, sent := false, Response(None, false);
    var p := d.verify(token, peer, authz.audience, clock.unix);
    if p.Err? {
      return;
    }
    var v := VerifiedGrant(p.value, d.id(p.value));
    var error: Option<AuthzError>;
    if renewal {
      var next := authz.Prepare(v, clock.now);
      if next.Err? || !delivered {
        return;
      }
      sent := Response(Some(AckOk), false);
      error := authz.CommitRenewal(conn, policy, next.value, clock.live, clock.nextLive, clock.permit);
    } else {
      error := authz.Install(conn, policy, v, clock.first, clock.now);
      if error.Some? || !delivered {
        assert policy.active - {v.id} == old(policy.active) || error.Some?;
        return;
      }
      sent := Response(Some(AckOk), false);
      error := authz.CommitFirstGrant(conn, policy, clock.live, clock.permit);
      assert error.Some? ==> policy.active == old(policy.active);
    }
    if error.Some? || !finished {
      return;
    }
    return true, Response(Some(AckOk), true);
  }

  // ---- the methods are the protocol's steps, run without interruption ----

  type Local = (Conn, set<GrantId>)

  /** A step that is not enabled is passed over. */
  function After(s: Local, o: Outcome): Local {
    if o.Went? then (o.c, o.active) else s
  }

  function DoInstall(s: Local, deny: seq<RevocationPolicy>, e: Event): Local
    requires deny != [] && InstallEvent(e)
  {
    After(s, InstallStep(s.0, s.1, deny, e))
  }

  function DoCommit(s: Local, deny: seq<RevocationPolicy>, e: Event): Local
    requires deny != [] && CommitEvent(e)
  {
    After(s, CommitStep(s.0, s.1, deny, e))
  }

  function DoRenew(s: Local, deny: seq<RevocationPolicy>, e: Event): Local
    requires deny != [] && RenewEvent(e)
  {
    After(s, RenewStep(s.0, s.1, deny, e))
  }

  /** A section's outcome, as the method reports it and as the task stands after its steps. */
  predicate Matches(s: Local, t: TaskId, section: Section, success: Pc) {
    && s.0.state == section.state && s.1 == section.active && s.0.lock == Free && t in s.0.tasks
    && s.0.tasks[t].pc == (if section.error.None? then success else Failing)
  }

  // ---- install ----

  function InstallEnd(s: Local, deny: seq<RevocationPolicy>, t: TaskId): Local
    requires deny != []
  {
    DoInstall(DoInstall(s, deny, InstallClaim(t)), deny, InstallFinish(t))
  }

  function InstallRest(s: Local, deny: seq<RevocationPolicy>, t: TaskId, now: Option<Reading>): Local
    requires deny != []
  {
    InstallEnd(DoInstall(s, deny, InstallClear(t, now)), deny, t)
  }

  /** All the steps of an install, in order. */
  function InstallRun(c: Conn, active: set<GrantId>, deny: seq<RevocationPolicy>, t: TaskId,
                      first: Option<Reading>, now: Option<Reading>): Local
    requires deny != []
  {
    InstallRest(DoInstall(DoInstall((c, active), deny, InstallEnter(t)), deny, InstallFresh(t, first)), deny, t, now)
  }

  /** The task has left the mutex without a lease. */
  function Refusal(c: Conn, active: set<GrantId>, t: TaskId): Local
    requires t in c.tasks
  {
    (Goto(c, t, Failing), active)
  }

  /** The connection as the installing task sees it inside the mutex. */
  function Within(c: Conn, t: TaskId, v: VerifiedGrant, seen: nat, stage: InstallStage): Conn
    requires t in c.tasks
  {
    Goto(c, t, Installing).(lock := Install(t, v, seen, stage))
  }

  function Leased(c: Conn, active: set<GrantId>, t: TaskId, v: VerifiedGrant, seen: nat, a: ActiveGrant): Local
    requires t in c.tasks
  {
    (Goto(c, t, Ready(None)).(
       state := Authorizing(Some(GrantLease(a, v.id))), cell := Some(Cell(a, 0)), watchdog := Top(seen)),
     active + {v.id})
  }

  lemma RefusedRest(s: Local, deny: seq<RevocationPolicy>, t: TaskId, now: Option<Reading>)
    requires deny != [] && At(s.0, t, Failing) && s.0.lock == Free
    ensures InstallEnd(s, deny, t) == s && InstallRest(s, deny, t, now) == s
  {
    assert DoInstall(s, deny, InstallClaim(t)) == s && DoInstall(s, deny, InstallFinish(t)) == s;
    assert DoInstall(s, deny, InstallClear(t, now)) == s;
  }

  /** Leaving the mutex undoes entering it. */
  lemma Left(c: Conn, t: TaskId, v: VerifiedGrant, seen: nat, stage: InstallStage, pc: Pc)
    requires t in c.tasks && c.lock == Free
    ensures Goto(Within(c, t, v, seen, stage), t, pc).(lock := Free) == Goto(c, t, pc)
  {
    assert Goto(Within(c, t, v, seen, stage), t, pc).tasks == Goto(c, t, pc).tasks;
  }

  lemma FinishInstall(c: Conn, active: set<GrantId>, deny: seq<RevocationPolicy>, t: TaskId, v: VerifiedGrant,
                      seen: nat, now: Reading)
    requires deny != [] && t in c.tasks && c.lock == Free && v.id !in active
    ensures DoInstall((Within(c, t, v, seen, Claimed(now)), active + {v.id}), deny, InstallFinish(t))
            == if NewActive(v, now).Err? then Refusal(c, active, t)
               else Leased(c, active, t, v, seen, NewActive(v, now).value)
  {
    Left(c, t, v, seen, Claimed(now), Failing);
    Left(c, t, v, seen, Claimed(now), Ready(None));
    assert active + {v.id} - {v.id} == active;
  }

  lemma EndInstall(c: Conn, active: set<GrantId>, deny: seq<RevocationPolicy>, t: TaskId, v: VerifiedGrant,
                   seen: nat, now: Reading)
    requires deny != [] && t in c.tasks && c.lock == Free
    ensures InstallEnd((Within(c, t, v, seen, Cleared(now)), active), deny, t)
            == if v.id in active || NewActive(v, now).Err? then Refusal(c, active, t)
               else Leased(c, active, t, v, seen, NewActive(v, now).value)
  {
    var s := (Within(c, t, v, seen, Cleared(now)), active);
    if v.id in active {
      Left(c, t, v, seen, Cleared(now), Failing);
      assert DoInstall(s, deny, InstallClaim(t)) == Refusal(c, active, t);
      RefusedRest(Refusal(c, active, t), deny, t, None);
    } else {
      assert DoInstall(s, deny, InstallClaim(t)) == (Within(c, t, v, seen, Claimed(now)), active + {v.id});
      FinishInstall(c, active, deny, t, v, seen, now);
    }
  }

  predicate Refuses(c: Conn, active: set<GrantId>, denied: RevocationPolicy, v: VerifiedGrant, now: Option<Reading>) {
    v.id in denied.ids || v.payload.audience != c.audience ||
    now.None? || v.id in active || NewActive(v, now.value).Err?
  }

  lemma RestInstall(c: Conn, active: set<GrantId>, deny: seq<RevocationPolicy>, t: TaskId, v: VerifiedGrant,
                    seen: nat, now: Option<Reading>)
    requires deny != [] && t in c.tasks && c.lock == Free
    ensures InstallRest((Within(c, t, v, seen, FreshSeen), active), deny, t, now)
            == if Refuses(c, active, Last(deny), v, now) then Refusal(c, active, t)
               else Leased(c, active, t, v, seen, NewActive(v, now.value).value)
  {
    var s := (Within(c, t, v, seen, FreshSeen), active);
    if v.id in Last(deny).ids || v.payload.audience != c.audience || now.None? {
      Left(c, t, v, seen, FreshSeen, Failing);
      assert DoInstall(s, deny, InstallClear(t, now)) == Refusal(c, active, t);
      RefusedRest(Refusal(c, active, t), deny, t, now);
    } else {
      assert DoInstall(s, deny, InstallClear(t, now)) == (Within(c, t, v, seen, Cleared(now.value)), active);
      EndInstall(c, active, deny, t, v, seen, now.value);
    }
  }

  lemma HeadInstall(c: Conn, active: set<GrantId>, deny: seq<RevocationPolicy>, t: TaskId, first: Option<Reading>)
    requires deny != [] && t in c.tasks && c.tasks[t].pc.Checked? && !c.tasks[t].renewal && c.lock == Free
    ensures DoInstall(DoInstall((c, active), deny, InstallEnter(t)), deny, InstallFresh(t, first))
            == if c.state != Authorizing(None) || c.closed || !Fresh(Last(deny), first) then Refusal(c, active, t)
               else (Within(c, t, c.tasks[t].pc.v, |deny| - 1, FreshSeen), active)
  {
    var v, seen := c.tasks[t].pc.v, |deny| - 1;
    var s := DoInstall((c, active), deny, InstallEnter(t));
    if c.state != Authorizing(None) || c.closed {
      assert s == Refusal(c, active, t);
      assert DoInstall(s, deny, InstallFresh(t, first)) == s;
    } else {
      assert s == (Within(c, t, v, seen, Subscribed), active);
      Left(c, t, v, seen, Subscribed, Failing);
    }
  }

  lemma InstallResult(c: Conn, active: set<GrantId>, deny: seq<RevocationPolicy>, t: TaskId,
                      first: Option<Reading>, now: Option<Reading>)
    requires deny != [] && t in c.tasks && c.tasks[t].pc.Checked? && !c.tasks[t].renewal && c.lock == Free
    ensures var v := c.tasks[t].pc.v;
            InstallRun(c, active, deny, t, first, now)
            == if c.state != Authorizing(None) || c.closed || !Fresh(Last(deny), first)
                  || Refuses(c, active, Last(deny), v, now)
               then Refusal(c, active, t)
               else Leased(c, active, t, v, |deny| - 1, NewActive(v, now.value).value)
  {
    HeadInstall(c, active, deny, t, first);
    if c.state != Authorizing(None) || c.closed || !Fresh(Last(deny), first) {
      RefusedRest(Refusal(c, active, t), deny, t, now);
    } else {
      RestInstall(c, active, deny, t, c.tasks[t].pc.v, |deny| - 1, now);
    }
  }

  /** An install whose steps nothing interrupts does what the method does. */
  lemma InstallUninterrupted(c: Conn, active: set<GrantId>, deny: seq<RevocationPolicy>, t: TaskId,
                             first: Option<Reading>, now: Option<Reading>)
    requires deny != [] && t in c.tasks && c.tasks[t].pc.Checked? && !c.tasks[t].renewal && c.lock == Free
    ensures Matches(InstallRun(c, active, deny, t, first, now), t,
                    InstallAll(c.state, active, c.closed, Last(deny), c.audience, c.tasks[t].pc.v, first, now),
                    Ready(None))
  {
    InstallResult(c, active, deny, t, first, now);
  }

  // ---- commit ----

  /** The connection as its mutex holder `t` sees it inside a commit. */
  function Inner(c: Conn, t: TaskId, lock: Lock): Conn
    requires t in c.tasks
  {
    Goto(c, t, Committing).(lock := lock)
  }

  function Fallen(c: Conn, active: set<GrantId>, t: TaskId): Local
    requires t in c.tasks
  {
    (CommitFails(c, active, t).c, CommitFails(c, active, t).active)
  }

  lemma FailsAlike(c: Conn, active: set<GrantId>, t: TaskId, lock: Lock)
    requires t in c.tasks && c.lock == Free
    ensures CommitFails(Inner(c, t, lock), active, t) == CommitFails(c, active, t)
  {
    assert Goto(Inner(c, t, lock), t, Failing).tasks == Goto(c, t, Failing).tasks;
  }

  /** All the steps of a first commit, in order. */
  function CommitRun(c: Conn, active: set<GrantId>, deny: seq<RevocationPolicy>, t: TaskId,
                     live: Option<Reading>, permit: Option<Reading>): Local
    requires deny != []
  {
    DoCommit(DoCommit(DoCommit((c, active), deny, CommitEnter(t)), deny, CommitLive(t, live)), deny,
             CommitPermit(t, permit))
  }

  function CommittedConn(c: Conn, t: TaskId): Conn
    requires t in c.tasks && c.state.Authorizing? && c.state.pending.Some?
  {
    var lease := c.state.pending.value;
    With(c, t, c.tasks[t].(pc := Committed, accepted := Some(|c.log|))).(
      state := Granted(lease), log := c.log + [Commit(t, lease.current)])
  }

  lemma PermitCommit(c: Conn, active: set<GrantId>, deny: seq<RevocationPolicy>, t: TaskId, permit: Option<Reading>)
    requires deny != [] && t in c.tasks && c.lock == Free && c.state.Authorizing? && c.state.pending.Some?
    ensures DoCommit((Inner(c, t, CommitFirst(t, true)), active), deny, CommitPermit(t, permit))
            == if Permits(Last(deny), c.state.pending.value.current.grant.id, permit) then (CommittedConn(c, t), active)
               else Fallen(c, active, t)
  {
    FailsAlike(c, active, t, CommitFirst(t, true));
    var inner := Inner(c, t, CommitFirst(t, true));
    assert inner.tasks[t := inner.tasks[t].(pc := Committed, accepted := Some(|c.log|))] == CommittedConn(c, t).tasks;
  }

  lemma LiveCommit(c: Conn, active: set<GrantId>, deny: seq<RevocationPolicy>, t: TaskId, live: Option<Reading>)
    requires deny != [] && At(c, t, Acked(None)) && c.lock == Free
    ensures DoCommit(DoCommit((c, active), deny, CommitEnter(t)), deny, CommitLive(t, live))
            == if c.state.Authorizing? && c.state.pending.Some? && !c.closed
                  && Live(c.state.pending.value.current, live)
               then (Inner(c, t, CommitFirst(t, true)), active)
               else Fallen(c, active, t)
  {
    var s := DoCommit((c, active), deny, CommitEnter(t));
    if c.state.Authorizing? && c.state.pending.Some? && !c.closed {
      assert s == (Inner(c, t, CommitFirst(t, false)), active);
      FailsAlike(c, active, t, CommitFirst(t, false));
    } else {
      assert s == Fallen(c, active, t);
      FallenCommit(c, active, deny, t, live);
    }
  }

  lemma FallenCommit(c: Conn, active: set<GrantId>, deny: seq<RevocationPolicy>, t: TaskId, now: Option<Reading>)
    requires deny != [] && t in c.tasks
    ensures var s := Fallen(c, active, t);
            DoCommit(s, deny, CommitLive(t, now)) == s && DoCommit(s, deny, CommitPermit(t, now)) == s
  {
  }

  /** A commit whose steps nothing interrupts does what the method does. */
  lemma CommitUninterrupted(c: Conn, active: set<GrantId>, deny: seq<RevocationPolicy>, t: TaskId,
                            live: Option<Reading>, permit: Option<Reading>)
    requires deny != [] && At(c, t, Acked(None)) && c.lock == Free
    ensures Matches(CommitRun(c, active, deny, t, live, permit), t,
                    CommitAll(c.state, active, c.closed, Last(deny), live, permit), Committed)
  {
    LiveCommit(c, active, deny, t, live);
    FallenCommit(c, active, deny, t, permit);
    if c.state.Authorizing? && c.state.pending.Some? {
      PermitCommit(c, active, deny, t, permit);
    }
  }

  // ---- renewal ----

  function RenewEnd(s: Local, deny: seq<RevocationPolicy>, t: TaskId): Local
    requires deny != []
  {
    DoRenew(DoRenew(DoRenew(s, deny, RenewPublish(t)), deny, RenewLook(t)), deny, RenewFinish(t))
  }

  function RenewPermitted(s: Local, deny: seq<RevocationPolicy>, t: TaskId, permit: Option<Reading>): Local
    requires deny != []
  {
    RenewEnd(DoRenew(s, deny, RenewPermit(t, permit)), deny, t)
  }

  function RenewRest(s: Local, deny: seq<RevocationPolicy>, t: TaskId, nextLive: Option<Reading>,
                     permit: Option<Reading>): Local
    requires deny != []
  {
    RenewPermitted(DoRenew(s, deny, RenewNextLive(t, nextLive)), deny, t, permit)
  }

  /** All the steps of a renewal, in order. */
  function RenewRun(c: Conn, active: set<GrantId>, deny: seq<RevocationPolicy>, t: TaskId,
                    live: Option<Reading>, nextLive: Option<Reading>, permit: Option<Reading>): Local
    requires deny != []
  {
    RenewRest(DoRenew(DoRenew((c, active), deny, RenewEnter(t)), deny, RenewLive(t, live)), deny, t, nextLive, permit)
  }

  function RenewedConn(c: Conn, t: TaskId, next: ActiveGrant): Conn
    requires t in c.tasks && c.state.Renewing? && c.cell.Some?
  {
    With(c, t, c.tasks[t].(pc := Committed, accepted := Some(|c.log|))).(
      state := Granted(c.state.held.(current := next)), log := c.log + [Commit(t, next)],
      cell := Some(Cell(next, c.cell.value.version + 1)))
  }

  /** The watchdog's read guard is free and there is a session to renew. */
  predicate Renewable(c: Conn, t: TaskId) {
    t in c.tasks && c.lock == Free && c.cell.Some? && !GuardHeld(c.watchdog) && c.state.Renewing? && !c.closed
  }

  lemma FallenRenew(c: Conn, active: set<GrantId>, deny: seq<RevocationPolicy>, t: TaskId, now: Option<Reading>)
    requires deny != [] && t in c.tasks
    ensures var s := Fallen(c, active, t);
            && DoRenew(s, deny, RenewLive(t, now)) == s && DoRenew(s, deny, RenewNextLive(t, now)) == s
            && DoRenew(s, deny, RenewPermit(t, now)) == s && RenewEnd(s, deny, t) == s
  {
    var s := Fallen(c, active, t);
    assert DoRenew(s, deny, RenewPublish(t)) == s && DoRenew(s, deny, RenewLook(t)) == s;
    assert DoRenew(s, deny, RenewFinish(t)) == s;
  }

  lemma EndRenew(c: Conn, active: set<GrantId>, deny: seq<RevocationPolicy>, t: TaskId, next: ActiveGrant)
    requires deny != [] && Renewable(c, t)
    ensures RenewEnd((Inner(c, t, CommitNext(t, next, Permitted)), active), deny, t)
            == (RenewedConn(c, t, next), active)
  {
    var shown := Some(Cell(next, c.cell.value.version + 1));
    var s := DoRenew((Inner(c, t, CommitNext(t, next, Permitted)), active), deny, RenewPublish(t));
    assert s == (Inner(c, t, CommitNext(t, next, Published)).(cell := shown), active);
    s := DoRenew(s, deny, RenewLook(t));
    var inner := Inner(c, t, CommitNext(t, next, StillOpen)).(cell := shown);
    assert s == (inner, active);
    assert inner.tasks[t := inner.tasks[t].(pc := Committed, accepted := Some(|c.log|))]
           == RenewedConn(c, t, next).tasks;
  }

  lemma PermitRenew(c: Conn, active: set<GrantId>, deny: seq<RevocationPolicy>, t: TaskId, next: ActiveGrant,
                    permit: Option<Reading>)
    requires deny != [] && Renewable(c, t)
    ensures RenewPermitted((Inner(c, t, CommitNext(t, next, NextLive)), active), deny, t, permit)
            == if Permits(Last(deny), next.grant.id, permit) then (RenewedConn(c, t, next), active)
               else Fallen(c, active, t)
  {
    var s := DoRenew((Inner(c, t, CommitNext(t, next, NextLive)), active), deny, RenewPermit(t, permit));
    if Permits(Last(deny), next.grant.id, permit) {
      assert s == (Inner(c, t, CommitNext(t, next, Permitted)), active);
      EndRenew(c, active, deny, t, next);
    } else {
      FailsAlike(c, active, t, CommitNext(t, next, NextLive));
      assert s == Fallen(c, active, t);
      FallenRenew(c, active, deny, t, permit);
    }
  }

  lemma RestRenew(c: Conn, active: set<GrantId>, deny: seq<RevocationPolicy>, t: TaskId, next: ActiveGrant,
                  nextLive: Option<Reading>, permit: Option<Reading>)
    requires deny != [] && Renewable(c, t)
    ensures RenewRest((Inner(c, t, CommitNext(t, next, CurrentLive)), active), deny, t, nextLive, permit)
            == if Live(next, nextLive) && Permits(Last(deny), next.grant.id, permit)
               then (RenewedConn(c, t, next), active)
               else Fallen(c, active, t)
  {
    var s := DoRenew((Inner(c, t, CommitNext(t, next, CurrentLive)), active), deny, RenewNextLive(t, nextLive));
    if Live(next, nextLive) {
      assert s == (Inner(c, t, CommitNext(t, next, NextLive)), active);
      PermitRenew(c, active, deny, t, next, permit);
    } else {
      FailsAlike(c, active, t, CommitNext(t, next, CurrentLive));
      assert s == Fallen(c, active, t);
      FallenRenew(c, active, deny, t, permit);
    }
  }

  lemma HeadRenew(c: Conn, active: set<GrantId>, deny: seq<RevocationPolicy>, t: TaskId, next: ActiveGrant,
                  live: Option<Reading>)
    requires deny != [] && At(c, t, Acked(Some(next))) && c.lock == Free
    ensures DoRenew(DoRenew((c, active), deny, RenewEnter(t)), deny, RenewLive(t, live))
            == if c.state.Renewing? && !c.closed && Live(c.state.held.current, live)
               then (Inner(c, t, CommitNext(t, next, CurrentLive)), active)
               else Fallen(c, active, t)
  {
    var s := DoRenew((c, active), deny, RenewEnter(t));
    if c.state.Renewing? && !c.closed {
      assert s == (Inner(c, t, CommitNext(t, next, Entered)), active);
      FailsAlike(c, active, t, CommitNext(t, next, Entered));
    } else {
      assert s == Fallen(c, active, t);
      FallenRenew(c, active, deny, t, live);
    }
  }

  lemma FallenRest(c: Conn, active: set<GrantId>, deny: seq<RevocationPolicy>, t: TaskId, nextLive: Option<Reading>,
                   permit: Option<Reading>)
    requires deny != [] && t in c.tasks
    ensures RenewRest(Fallen(c, active, t), deny, t, nextLive, permit) == Fallen(c, active, t)
  {
    FallenRenew(c, active, deny, t, nextLive);
    FallenRenew(c, active, deny, t, permit);
  }

  function Renewal(c: Conn, active: set<GrantId>, denied: RevocationPolicy, t: TaskId, next: ActiveGrant,
                   live: Option<Reading>, nextLive: Option<Reading>, permit: Option<Reading>): Local
    requires t in c.tasks && c.cell.Some?
  {
    if c.state.Renewing? && !c.closed && Live(c.state.held.current, live) && Live(next, nextLive)
       && Permits(denied, next.grant.id, permit)
    then (RenewedConn(c, t, next), active)
    else Fallen(c, active, t)
  }

  lemma RenewalMatches(c: Conn, active: set<GrantId>, denied: RevocationPolicy, t: TaskId, next: ActiveGrant,
                       live: Option<Reading>, nextLive: Option<Reading>, permit: Option<Reading>)
    requires t in c.tasks && c.cell.Some? && c.lock == Free
    ensures var s := Renewal(c, active, denied, t, next, live, nextLive, permit);
            var section := RenewAll(c.state, active, c.closed, denied, next, live, nextLive, permit);
            && Matches(s, t, section, Committed)
            && (section.error.None? ==> s.0.cell == Some(Cell(next, c.cell.value.version + 1)))
  {
  }

  lemma RenewResult(c: Conn, active: set<GrantId>, deny: seq<RevocationPolicy>, t: TaskId, next: ActiveGrant,
                    live: Option<Reading>, nextLive: Option<Reading>, permit: Option<Reading>)
    requires deny != [] && At(c, t, Acked(Some(next))) && c.lock == Free && c.cell.Some? && !GuardHeld(c.watchdog)
    ensures RenewRun(c, active, deny, t, live, nextLive, permit)
            == Renewal(c, active, Last(deny), t, next, live, nextLive, permit)
  {
    HeadRenew(c, active, deny, t, next, live);
    if c.state.Renewing? && !c.closed && Live(c.state.held.current, live) {
      RestRenew(c, active, deny, t, next, nextLive, permit);
    } else {
      FallenRest(c, active, deny, t, nextLive, permit);
    }
  }

  /** A renewal whose steps nothing interrupts, with the watchdog's read guard free, does what the
      method does, and shows the new grant to the watchdog. */
  lemma RenewUninterrupted(c: Conn, active: set<GrantId>, deny: seq<RevocationPolicy>, t: TaskId, next: ActiveGrant,
                           live: Option<Reading>, nextLive: Option<Reading>, permit: Option<Reading>)
    requires deny != [] && At(c, t, Acked(Some(next))) && c.lock == Free && c.cell.Some? && !GuardHeld(c.watchdog)
    ensures var s := RenewRun(c, active, deny, t, live, nextLive, permit);
            var section := RenewAll(c.state, active, c.closed, Last(deny), next, live, nextLive, permit);
            && Matches(s, t, section, Committed)
            && (section.error.None? ==> s.0.cell == Some(Cell(next, c.cell.value.version + 1)))
  {
    RenewResult(c, active, deny, t, next, live, nextLive, permit);
    RenewalMatches(c, active, Last(deny), t, next, live, nextLive, permit);
  }
}
