/** What a service that is admitted may rely on: provenance, scope and lifetime of the grant in force. */
module AuthzSessions {
  import opened Prelude
  import opened Clock
  import opened Grant
  import opened Revocations
  import opened AuthzState
  import opened AuthzProtocol
  import opened AuthzInvariant
  import opened AuthzTheorems

  // ---- renewal chains ----

  lemma {:induction false} LogChain(d: Deployment, c: Conn, i: nat, j: nat)
    requires LogInv(d, c) && i <= j < |c.log|
    ensures c.log[i].grant == c.log[j].grant || Advances(c.log[i].grant.grant, c.log[j].grant.grant)
  {
    if i < j {
      LogChain(d, c, i, j - 1);
      assert Follows(c.log[j - 1].grant, c.log[j].grant);
      if Advances(c.log[i].grant.grant, c.log[j - 1].grant.grant) {
        RenewalOrder(c.log[i].grant.grant, c.log[j - 1].grant.grant, c.log[j].grant.grant);
      }
    }
  }

  /** One session, one scope: all grants a connection ever commits share id, services, constraints,
      tenant and policy revision. Between two of them either nothing changed, deadline included, or
      revision and expiry strictly increased and the start did not move back. In particular a retry
      of the same payload never moves a deadline. */
  lemma SessionScope(d: Deployment, run: seq<Action>, id: ConnId, i: nat, j: nat)
    requires id in Exec(d, run).conns && i <= j < |Exec(d, run).conns[id].log|
    ensures var log := Exec(d, run).conns[id].log;
            var (a, b) := (log[i].grant, log[j].grant);
            && SameScope(a.grant, b.grant)
            && (|| a == b
                || (&& a.grant.payload.revision < b.grant.payload.revision
                    && a.grant.payload.expiresAt < b.grant.payload.expiresAt
                    && a.grant.payload.notBefore <= b.grant.payload.notBefore))
            && (a.grant.payload == b.grant.payload ==> a.validity == b.validity)
  {
    ConnOf(d, run, id);
    LogChain(d, Exec(d, run).conns[id], i, j);
  }

  lemma SlotOfLog(d: Deployment, c: Conn, i: nat)
    requires StateInv(d, c) && LogInv(d, c) && LeaseOf(c.state).Some? && i < |c.log|
    ensures var l := LeaseOf(c.state).value; l.slot == l.current.grant.id == c.log[i].grant.grant.id
  {
    LogChain(d, c, i, |c.log| - 1);
  }

  /** The reservation always is the id of the grant in force and of every grant before it, although
      renewal never claims again. */
  lemma SlotIsSession(d: Deployment, run: seq<Action>, id: ConnId, i: nat)
    requires id in Exec(d, run).conns && LeaseOf(Exec(d, run).conns[id].state).Some?
    requires i < |Exec(d, run).conns[id].log|
    ensures var c := Exec(d, run).conns[id];
            var l := LeaseOf(c.state).value;
            l.slot == l.current.grant.id == c.log[i].grant.grant.id
  {
    ConnOf(d, run, id);
    SlotOfLog(d, Exec(d, run).conns[id], i);
  }

  // ---- provenance of deadlines ----

  /** Every grant the connection keeps anywhere satisfies `q`. */
  ghost predicate AllGrants(q: ActiveGrant -> bool, c: Conn) {
    && (LeaseOf(c.state).Some? ==> q(LeaseOf(c.state).value.current))
    && (c.lock.CommitNext? ==> q(c.lock.next))
    && (forall t :: t in c.tasks && (c.tasks[t].pc.Ready? || c.tasks[t].pc.Acked?) && c.tasks[t].pc.next.Some? ==>
          q(c.tasks[t].pc.next.value))
    && (forall i :: 0 <= i < |c.log| ==> q(c.log[i].grant))
  }

  ghost predicate AllNew(q: ActiveGrant -> bool) {
    forall g: VerifiedGrant, now: Reading :: NewActive(g, now).Ok? ==> q(NewActive(g, now).value)
  }

  lemma GrantsPrepare(q: ActiveGrant -> bool, c: Conn, active: set<GrantId>, e: Event)
    requires AllNew(q) && AllGrants(q, c) && e.Prepare? && Middle(c, active, e).Went?
    ensures AllGrants(q, Middle(c, active, e).c)
  {
  }

  lemma GrantsAck(q: ActiveGrant -> bool, c: Conn, active: set<GrantId>, e: Event)
    requires AllGrants(q, c) && e.WriteAck? && Middle(c, active, e).Went?
    ensures AllGrants(q, Middle(c, active, e).c)
  {
  }

  lemma GrantsOpening(q: ActiveGrant -> bool, d: Deployment, c: Conn, active: set<GrantId>, e: Event)
    requires AllGrants(q, c) && OpeningEvent(e) && Opening(d, c, active, e).Went?
    ensures AllGrants(q, Opening(d, c, active, e).c)
  {
  }

  lemma GrantsEnding(q: ActiveGrant -> bool, c: Conn, active: set<GrantId>, e: Event)
    requires AllGrants(q, c) && EndingEvent(e) && Ending(c, active, e).Went?
    ensures AllGrants(q, Ending(c, active, e).c)
  {
  }

  lemma GrantsInstall(q: ActiveGrant -> bool, c: Conn, active: set<GrantId>, deny: seq<RevocationPolicy>, e: Event)
    requires deny != [] && AllGrants(q, c) && InstallEvent(e) && !e.InstallFinish?
    requires InstallStep(c, active, deny, e).Went?
    ensures AllGrants(q, InstallStep(c, active, deny, e).c)
  {
  }

  lemma GrantsInstalled(q: ActiveGrant -> bool, c: Conn, active: set<GrantId>, deny: seq<RevocationPolicy>, e: Event)
    requires deny != [] && AllNew(q) && AllGrants(q, c) && e.InstallFinish? && InstallStep(c, active, deny, e).Went?
    ensures AllGrants(q, InstallStep(c, active, deny, e).c)
  {
  }

  lemma GrantsFail(q: ActiveGrant -> bool, c: Conn, active: set<GrantId>, t: TaskId)
    requires AllGrants(q, c) && t in c.tasks
    ensures AllGrants(q, CommitFails(c, active, t).c)
  {
  }

  lemma GrantsCommit(q: ActiveGrant -> bool, c: Conn, active: set<GrantId>, deny: seq<RevocationPolicy>, e: Event)
    requires deny != [] && AllGrants(q, c) && CommitEvent(e) && CommitStep(c, active, deny, e).Went?
    ensures AllGrants(q, CommitStep(c, active, deny, e).c)
  {
    GrantsFail(q, c, active, e.t);
  }

  lemma GrantsRenewEnds(q: ActiveGrant -> bool, c: Conn, active: set<GrantId>, deny: seq<RevocationPolicy>, e: Event)
    requires deny != [] && AllGrants(q, c) && (e.RenewEnter? || e.RenewFinish?) && RenewStep(c, active, deny, e).Went?
    ensures AllGrants(q, RenewStep(c, active, deny, e).c)
  {
    GrantsFail(q, c, active, e.t);
  }

  lemma GrantsRenew(q: ActiveGrant -> bool, c: Conn, active: set<GrantId>, deny: seq<RevocationPolicy>, e: Event)
    requires deny != [] && AllGrants(q, c) && RenewEvent(e) && !e.RenewEnter? && !e.RenewFinish?
    requires RenewStep(c, active, deny, e).Went?
    ensures AllGrants(q, RenewStep(c, active, deny, e).c)
  {
    GrantsFail(q, c, active, e.t);
  }

  lemma GrantsClient(q: ActiveGrant -> bool, c: Conn, active: set<GrantId>, e: Event)
    requires AllGrants(q, c) && ClientEvent(e) && ClientStep(c, active, e).Went?
    ensures AllGrants(q, ClientStep(c, active, e).c)
  {
  }

  lemma GrantsWatch(q: ActiveGrant -> bool, c: Conn, active: set<GrantId>, deny: seq<RevocationPolicy>, e: Event)
    requires deny != [] && AllGrants(q, c) && WatchEvent(e) && WatchStep(c, active, deny, e).Went?
    ensures AllGrants(q, WatchStep(c, active, deny, e).c)
  {
  }

  lemma GrantsLocal(q: ActiveGrant -> bool, d: Deployment, c: Conn, active: set<GrantId>,
                    deny: seq<RevocationPolicy>, e: Event)
    requires deny != [] && AllNew(q) && AllGrants(q, c) && LocalStep(d, c, active, deny, e).Went?
    ensures AllGrants(q, LocalStep(d, c, active, deny, e).c)
  {
    if ClientEvent(e) {
      GrantsClient(q, c, active, e);
    } else if OpeningEvent(e) {
      GrantsOpening(q, d, c, active, e);
    } else if e.InstallFinish? {
      GrantsInstalled(q, c, active, deny, e);
    } else if InstallEvent(e) {
      GrantsInstall(q, c, active, deny, e);
    } else if e.Prepare? {
      GrantsPrepare(q, c, active, e);
    } else if e.WriteAck? {
      GrantsAck(q, c, active, e);
    } else if CommitEvent(e) {
      GrantsCommit(q, c, active, deny, e);
    } else if e.RenewEnter? || e.RenewFinish? {
      GrantsRenewEnds(q, c, active, deny, e);
    } else if RenewEvent(e) {
      GrantsRenew(q, c, active, deny, e);
    } else if EndingEvent(e) {
      GrantsEnding(q, c, active, e);
    } else if WatchEvent(e) {
      GrantsWatch(q, c, active, deny, e);
    }
  }

  lemma GrantsAct(q: ActiveGrant -> bool, d: Deployment, s: Agent, a: Action)
    requires AllNew(q) && s.deny != []
    requires forall id :: id in s.conns ==> AllGrants(q, s.conns[id])
    ensures forall id :: id in Act(d, s, a).conns ==> AllGrants(q, Act(d, s, a).conns[id])
  {
    if a.On? && a.conn in s.conns && LocalStep(d, s.conns[a.conn], s.active, s.deny, a.e).Went? {
      GrantsLocal(q, d, s.conns[a.conn], s.active, s.deny, a.e);
    }
  }

  lemma {:induction false} GrantsRun(q: ActiveGrant -> bool, d: Deployment, run: seq<Action>)
    requires AllNew(q)
    ensures forall id :: id in Exec(d, run).conns ==> AllGrants(q, Exec(d, run).conns[id])
  {
    if run != [] {
      GrantsRun(q, d, run[..|run| - 1]);
      GrantsAct(q, d, Exec(d, run[..|run| - 1]), Last(run));
    }
  }

  /** Every deadline in force was set by accepting that very grant once, at one clock reading. */
  lemma DeadlineAccepted(d: Deployment, run: seq<Action>, id: ConnId)
    requires id in Exec(d, run).conns && LeaseOf(Exec(d, run).conns[id].state).Some?
    ensures AcceptedOnce(LeaseOf(Exec(d, run).conns[id].state).value.current)
  {
    var q := (a: ActiveGrant) => AcceptedOnce(a);
    GrantsRun(q, d, run);
    assert AllGrants(q, Exec(d, run).conns[id]);
  }

  // ---- what scope promises ----

  lemma ScopeSource(d: Deployment, c: Conn, denied: RevocationPolicy, first: Option<Reading>, second: Option<Reading>)
    requires StateInv(d, c)
    requires Scope(c.state, denied, first, second).Ok? && Scope(c.state, denied, first, second).value.Some?
    ensures LeaseOf(c.state).Some? && c.log != []
    ensures Last(c.log).grant == LeaseOf(c.state).value.current
    ensures Scope(c.state, denied, first, second).value.value == Last(c.log).grant.grant
    ensures Live(Last(c.log).grant, first) && Permits(denied, Last(c.log).grant.grant.id, second)
  {
  }

  /** What stands behind a grant that `scope` yields: a task of the connection verified a token for it,
      wrote the acknowledgement and committed it, and at the readings of the call it is live,
      unrevoked and under fresh policy. */
  ghost predicate Backed(cfg: Config, c: Conn, denied: RevocationPolicy, first: Option<Reading>,
                         second: Option<Reading>, g: VerifiedGrant) {
    && c.log != [] && Last(c.log).grant.grant == g && Last(c.log).task in c.tasks
    && (var k := c.tasks[Last(c.log).task];
        k.sent.ack == Some(AckOk) && k.accepted == Some(|c.log| - 1) && Verifies(cfg, k.token, c.peer, c.audience, g))
    && LeaseOf(c.state).Some? && LeaseOf(c.state).value.current == Last(c.log).grant
    && Live(Last(c.log).grant, first) && Permits(denied, g.id, second)
  }

  lemma ScopeBacked(cfg: Config, d: Deployment, c: Conn, denied: RevocationPolicy, first: Option<Reading>,
                    second: Option<Reading>)
    requires d == Deploy(cfg) && StateInv(d, c) && LogInv(d, c)
    requires Scope(c.state, denied, first, second).Ok? && Scope(c.state, denied, first, second).value.Some?
    ensures Backed(cfg, c, denied, first, second, Scope(c.state, denied, first, second).value.value)
  {
    ScopeSource(d, c, denied, first, second);
    LastCommit(cfg, c);
  }

  /** Admission is sound: in every run, whenever `scope` yields a grant, it is backed by a commit of
      the same connection. */
  lemma ScopeSound(cfg: Config, run: seq<Action>, id: ConnId, first: Option<Reading>, second: Option<Reading>)
    requires var s := Exec(Deploy(cfg), run);
             && id in s.conns
             && Scope(s.conns[id].state, Last(s.deny), first, second).Ok?
             && Scope(s.conns[id].state, Last(s.deny), first, second).value.Some?
    ensures var s := Exec(Deploy(cfg), run);
            Backed(cfg, s.conns[id], Last(s.deny), first, second,
                   Scope(s.conns[id].state, Last(s.deny), first, second).value.value)
  {
    var d := Deploy(cfg);
    ConnOf(d, run, id);
    ScopeBacked(cfg, d, Exec(d, run).conns[id], Last(Exec(d, run).deny), first, second);
  }

  lemma LastCommit(cfg: Config, c: Conn)
    requires LogInv(Deploy(cfg), c) && c.log != []
    ensures Last(c.log).task in c.tasks
    ensures var k := c.tasks[Last(c.log).task];
            && k.sent.ack == Some(AckOk) && k.accepted == Some(|c.log| - 1)
            && Verifies(cfg, k.token, c.peer, c.audience, Last(c.log).grant.grant)
  {
    var i := |c.log| - 1;
    assert CommitOk(Deploy(cfg), c, i);
    VouchedMeans(cfg, c.peer, c.audience, c.tasks[c.log[i].task].token, c.log[i].grant.grant);
  }

  /** Lifetime bound: a grant that `scope` yields can stay usable for at most the agent's largest
      lifetime plus thirty seconds of continuous time, however the wall clock is set. */
  lemma ScopeLifetime(cfg: Config, run: seq<Action>, id: ConnId, first: Reading, second: Option<Reading>)
    requires var s := Exec(Deploy(cfg), run);
             && id in s.conns
             && Scope(s.conns[id].state, Last(s.deny), Some(first), second).Ok?
             && Scope(s.conns[id].state, Last(s.deny), Some(first), second).value.Some?
    ensures var l := LeaseOf(Exec(Deploy(cfg), run).conns[id].state);
            l.Some? && RemainingAt(l.value.current.validity, first) <= (Seconds(cfg.maxTtl) + SKEW_SECS) * NANOS
  {
    var d := Deploy(cfg);
    var c := Exec(d, run).conns[id];
    ScopeSound(cfg, run, id, Some(first), second);
    var k := c.tasks[Last(c.log).task];
    var g := Last(c.log).grant.grant;
    var unix: U64 :| VerifyBound(cfg, k.token, c.peer, c.audience, unix) == Ok(g);
    VerifiedClaims(cfg, k.token, c.peer, c.audience, unix);
    DeadlineAccepted(d, run, id);
    LifetimeBound(cfg, LeaseOf(c.state).value.current, first);
  }
}
