/** The admission invariant over every run of the agent. */
module AuthzRuns {
  import opened Prelude
  import opened Grant
  import opened Revocations
  import opened AuthzState
  import opened AuthzProtocol
  import opened AuthzInvariant

  lemma {:induction false} UnusedTask(ts: set<TaskId>) returns (t: TaskId)
    ensures forall u :: u in ts ==> u < t
  {
    if ts == {} {
      t := 0;
    } else {
      var u :| u in ts;
      var b := UnusedTask(ts - {u});
      t := if b <= u then u + 1 else b;
      assert forall v :: v in ts ==> v == u || v in ts - {u};
    }
  }

  lemma ClientKeeps(d: Deployment, c: Conn, active: set<GrantId>, deny: seq<RevocationPolicy>, e: Event)
    requires ConnInv(d, c, deny) && ClientEvent(e) && ClientStep(c, active, e).Went?
    ensures ConnInv(d, ClientStep(c, active, e).c, deny)
  {
    ClientSteps(d, c, active, deny, e);
    Conclude(d, c, ClientStep(c, active, e).c, deny, e.t);
  }

  lemma OpeningDispatch(d: Deployment, c: Conn, active: set<GrantId>, deny: seq<RevocationPolicy>, e: Event)
    requires CoreInv(d, c, deny) && OpeningEvent(e) && Opening(d, c, active, e).Went?
    requires e.t in c.tasks && TaskOk(d, c, e.t)
    ensures Stepped(d, c, Opening(d, c, active, e).c, deny, e.t)
  {
    if e.BeginTx? {
      BeginSteps(d, c, active, deny, e);
    } else {
      OpeningSteps(d, c, active, deny, e);
    }
  }

  lemma MiddleDispatch(d: Deployment, c: Conn, active: set<GrantId>, deny: seq<RevocationPolicy>, e: Event)
    requires CoreInv(d, c, deny) && MiddleEvent(e) && Middle(c, active, e).Went?
    requires e.t in c.tasks && TaskOk(d, c, e.t)
    ensures Stepped(d, c, Middle(c, active, e).c, deny, e.t)
  {
    if e.Prepare? {
      PrepareSteps(d, c, active, deny, e);
    } else {
      AckSteps(d, c, active, deny, e);
    }
  }

  lemma EndingDispatch(d: Deployment, c: Conn, active: set<GrantId>, deny: seq<RevocationPolicy>, e: Event)
    requires CoreInv(d, c, deny) && EndingEvent(e) && Ending(c, active, e).Went?
    requires e.t in c.tasks && TaskOk(d, c, e.t)
    ensures Stepped(d, c, Ending(c, active, e).c, deny, e.t)
  {
    if e.Finish? {
      FinishSteps(d, c, active, deny, e);
    } else if e.Cancel? {
      CancelSteps(d, c, active, deny, e);
    } else if e.DropSend? {
      DropSendSteps(d, c, active, deny, e);
    } else {
      GuardSteps(d, c, active, deny, e);
    }
  }

  lemma InstallDispatch(d: Deployment, c: Conn, active: set<GrantId>, deny: seq<RevocationPolicy>, e: Event)
    requires deny != [] && CoreInv(d, c, deny) && InstallEvent(e) && InstallStep(c, active, deny, e).Went?
    requires e.t in c.tasks && TaskOk(d, c, e.t)
    ensures Stepped(d, c, InstallStep(c, active, deny, e).c, deny, e.t)
  {
    if e.InstallEnter? {
      InstallEnterSteps(d, c, active, deny, e);
    } else if e.InstallFinish? {
      InstallFinishSteps(d, c, active, deny, e);
    } else {
      InstallSteps(d, c, active, deny, e);
    }
  }

  lemma RenewDispatch(d: Deployment, c: Conn, active: set<GrantId>, deny: seq<RevocationPolicy>, e: Event)
    requires deny != [] && CoreInv(d, c, deny) && RenewEvent(e) && !e.RenewFinish?
    requires RenewStep(c, active, deny, e).Went?
    requires e.t in c.tasks && TaskOk(d, c, e.t)
    ensures Stepped(d, c, RenewStep(c, active, deny, e).c, deny, e.t)
  {
    if e.RenewPublish? || e.RenewLook? {
      PublishSteps(d, c, active, deny, e);
    } else if e.RenewEnter? {
      RenewEnterSteps(d, c, active, deny, e);
    } else {
      RenewSteps(d, c, active, deny, e);
    }
  }

  lemma OpeningKeeps(d: Deployment, c: Conn, active: set<GrantId>, deny: seq<RevocationPolicy>, e: Event)
    requires ConnInv(d, c, deny) && OpeningEvent(e) && Opening(d, c, active, e).Went?
    ensures ConnInv(d, Opening(d, c, active, e).c, deny)
  {
    OpeningDispatch(d, c, active, deny, e);
    Conclude(d, c, Opening(d, c, active, e).c, deny, e.t);
  }

  lemma MiddleKeeps(d: Deployment, c: Conn, active: set<GrantId>, deny: seq<RevocationPolicy>, e: Event)
    requires ConnInv(d, c, deny) && MiddleEvent(e) && Middle(c, active, e).Went?
    ensures ConnInv(d, Middle(c, active, e).c, deny)
  {
    MiddleDispatch(d, c, active, deny, e);
    Conclude(d, c, Middle(c, active, e).c, deny, e.t);
  }

  lemma EndingKeeps(d: Deployment, c: Conn, active: set<GrantId>, deny: seq<RevocationPolicy>, e: Event)
    requires deny != [] && ConnInv(d, c, deny) && EndingEvent(e) && Ending(c, active, e).Went?
    ensures ConnInv(d, Ending(c, active, e).c, deny)
  {
    EndingDispatch(d, c, active, deny, e);
    Conclude(d, c, Ending(c, active, e).c, deny, e.t);
  }

  lemma InstallKeeps(d: Deployment, c: Conn, active: set<GrantId>, deny: seq<RevocationPolicy>, e: Event)
    requires deny != [] && ConnInv(d, c, deny) && InstallEvent(e) && InstallStep(c, active, deny, e).Went?
    ensures ConnInv(d, InstallStep(c, active, deny, e).c, deny)
  {
    InstallDispatch(d, c, active, deny, e);
    Conclude(d, c, InstallStep(c, active, deny, e).c, deny, e.t);
  }

  lemma CommitKeeps(d: Deployment, c: Conn, active: set<GrantId>, deny: seq<RevocationPolicy>, e: Event)
    requires deny != [] && ConnInv(d, c, deny) && CommitEvent(e) && CommitStep(c, active, deny, e).Went?
    ensures ConnInv(d, CommitStep(c, active, deny, e).c, deny)
  {
    var c' := CommitStep(c, active, deny, e).c;
    if c'.log != c.log {
      CommitGrows(d, c, active, deny, e);
    } else {
      CommitSteps(d, c, active, deny, e);
      Conclude(d, c, c', deny, e.t);
    }
  }

  lemma RenewalKeeps(d: Deployment, c: Conn, active: set<GrantId>, deny: seq<RevocationPolicy>, e: Event)
    requires deny != [] && ConnInv(d, c, deny) && RenewEvent(e) && RenewStep(c, active, deny, e).Went?
    ensures ConnInv(d, RenewStep(c, active, deny, e).c, deny)
  {
    if e.RenewFinish? {
      RenewGrows(d, c, active, deny, e);
    } else {
      RenewDispatch(d, c, active, deny, e);
      Conclude(d, c, RenewStep(c, active, deny, e).c, deny, e.t);
    }
  }

  lemma ArriveKeeps(d: Deployment, c: Conn, active: set<GrantId>, deny: seq<RevocationPolicy>, t: TaskId,
                    renewal: bool, token: Token)
    requires ConnInv(d, c, deny) && Arrive(c, active, t, renewal, token).Went?
    ensures ConnInv(d, Arrive(c, active, t, renewal, token).c, deny)
  {
    ArriveSteps(d, c, active, deny, t, renewal, token);
    Conclude(d, c, Arrive(c, active, t, renewal, token).c, deny, t);
  }

  lemma TeardownKeeps(d: Deployment, c: Conn, active: set<GrantId>, deny: seq<RevocationPolicy>, e: Event)
    requires ConnInv(d, c, deny) && TeardownEvent(e) && Teardown(c, active, e).Went?
    ensures ConnInv(d, Teardown(c, active, e).c, deny)
  {
    var t := UnusedTask(c.tasks.Keys);
    assert t !in c.tasks;
    TeardownSteps(d, c, active, deny, e, t);
    Conclude(d, c, Teardown(c, active, e).c, deny, t);
  }

  lemma WatchKeeps(d: Deployment, c: Conn, active: set<GrantId>, deny: seq<RevocationPolicy>, e: Event)
    requires deny != [] && ConnInv(d, c, deny) && WatchEvent(e) && WatchStep(c, active, deny, e).Went?
    ensures ConnInv(d, WatchStep(c, active, deny, e).c, deny)
  {
    var t := UnusedTask(c.tasks.Keys);
    assert t !in c.tasks;
    if e.Strike? || e.Retire? {
      WatchEnds(d, c, active, deny, e, t);
    } else {
      WatchSteps(d, c, active, deny, e, t);
    }
    Conclude(d, c, WatchStep(c, active, deny, e).c, deny, t);
  }

  lemma LocalKeeps(d: Deployment, c: Conn, active: set<GrantId>, deny: seq<RevocationPolicy>, e: Event)
    requires deny != [] && ConnInv(d, c, deny) && LocalStep(d, c, active, deny, e).Went?
    ensures ConnInv(d, LocalStep(d, c, active, deny, e).c, deny)
  {
    if e.Accept? {
      ArriveKeeps(d, c, active, deny, e.t, e.renewal, e.token);
    } else if TeardownEvent(e) {
      TeardownKeeps(d, c, active, deny, e);
    } else if ClientEvent(e) {
      ClientKeeps(d, c, active, deny, e);
    } else if OpeningEvent(e) {
      OpeningKeeps(d, c, active, deny, e);
    } else if InstallEvent(e) {
      InstallKeeps(d, c, active, deny, e);
    } else if MiddleEvent(e) {
      MiddleKeeps(d, c, active, deny, e);
    } else if CommitEvent(e) {
      CommitKeeps(d, c, active, deny, e);
    } else if RenewEvent(e) {
      RenewalKeeps(d, c, active, deny, e);
    } else if EndingEvent(e) {
      EndingKeeps(d, c, active, deny, e);
    } else {
      WatchKeeps(d, c, active, deny, e);
    }
  }

  lemma NewConnOk(d: Deployment, required: bool, peer: Key, audience: Key, deny: seq<RevocationPolicy>)
    ensures ConnInv(d, NewConn(required, peer, audience), deny)
  {
  }

  lemma DenyGrows(d: Deployment, c: Conn, deny: seq<RevocationPolicy>, p: RevocationPolicy)
    requires ConnInv(d, c, deny)
    ensures ConnInv(d, c, deny + [p])
  {
    assert forall i :: 0 <= i < |deny| ==> (deny + [p])[i] == deny[i];
  }

  // ---- the replay set ----

  /** The reservation a connection holds: claimed by a running install, owned by the lease in the
      state, or on its way out with a lease being dropped. */
  function Slot(c: Conn): Option<GrantId> {
    if c.lock.Install? && c.lock.stage.Claimed? then Some(c.lock.v.id)
    else if LeaseOf(c.state).Some? then Some(LeaseOf(c.state).value.slot)
    else if c.dropping.Some? then Some(c.dropping.value.0.slot)
    else None
  }

  predicate SlotMoves(c: Conn, active: set<GrantId>, c': Conn, active': set<GrantId>) {
    || (active' == active && Slot(c') == Slot(c))
    || (Slot(c).None? && Slot(c').Some? && Slot(c').value !in active && active' == active + {Slot(c').value})
    || (Slot(c).Some? && Slot(c').None? && active' == active - {Slot(c).value})
  }

  lemma ReplayFails(d: Deployment, c: Conn, active: set<GrantId>, deny: seq<RevocationPolicy>, t: TaskId)
    requires LockInv(d, c, |deny|) && StateInv(d, c) && t in c.tasks && !c.lock.Install?
    ensures SlotMoves(c, active, CommitFails(c, active, t).c, CommitFails(c, active, t).active)
  {
  }

  lemma ReplayClaim(d: Deployment, c: Conn, active: set<GrantId>, deny: seq<RevocationPolicy>, e: Event)
    requires deny != [] && LockInv(d, c, |deny|) && StateInv(d, c)
    requires (e.InstallClaim? || e.InstallFinish?) && InstallStep(c, active, deny, e).Went?
    ensures SlotMoves(c, active, InstallStep(c, active, deny, e).c, InstallStep(c, active, deny, e).active)
  {
  }

  lemma ReplayInstall(d: Deployment, c: Conn, active: set<GrantId>, deny: seq<RevocationPolicy>, e: Event)
    requires deny != [] && LockInv(d, c, |deny|) && StateInv(d, c)
    requires InstallEvent(e) && InstallStep(c, active, deny, e).Went?
    ensures SlotMoves(c, active, InstallStep(c, active, deny, e).c, InstallStep(c, active, deny, e).active)
  {
    if e.InstallClaim? || e.InstallFinish? {
      ReplayClaim(d, c, active, deny, e);
    }
  }

  lemma ReplayCommit(d: Deployment, c: Conn, active: set<GrantId>, deny: seq<RevocationPolicy>, e: Event)
    requires deny != [] && LockInv(d, c, |deny|) && StateInv(d, c)
    requires CommitEvent(e) && CommitStep(c, active, deny, e).Went?
    ensures SlotMoves(c, active, CommitStep(c, active, deny, e).c, CommitStep(c, active, deny, e).active)
  {
    if CommitStep(c, active, deny, e) == CommitFails(c, active, e.t) {
      ReplayFails(d, c, active, deny, e.t);
    }
  }

  lemma ReplayRenew(d: Deployment, c: Conn, active: set<GrantId>, deny: seq<RevocationPolicy>, e: Event)
    requires deny != [] && LockInv(d, c, |deny|) && StateInv(d, c)
    requires RenewEvent(e) && RenewStep(c, active, deny, e).Went?
    ensures SlotMoves(c, active, RenewStep(c, active, deny, e).c, RenewStep(c, active, deny, e).active)
  {
    if RenewStep(c, active, deny, e) == CommitFails(c, active, e.t) {
      ReplayFails(d, c, active, deny, e.t);
    }
  }

  lemma ReplayEnding(d: Deployment, c: Conn, active: set<GrantId>, deny: seq<RevocationPolicy>, e: Event)
    requires deny != [] && LockInv(d, c, |deny|) && StateInv(d, c)
    requires EndingEvent(e) && Ending(c, active, e).Went?
    ensures SlotMoves(c, active, Ending(c, active, e).c, Ending(c, active, e).active)
  {
    if e.CloseState? {
      ReplayTaken(d, c, active, deny, e.t);
    }
  }

  lemma ReplayTaken(d: Deployment, c: Conn, active: set<GrantId>, deny: seq<RevocationPolicy>, t: TaskId)
    requires LockInv(d, c, |deny|) && StateInv(d, c) && t in c.tasks && c.lock == Free
    ensures SlotMoves(c, active, TakeState(Goto(c, t, StateClosed), Guard(t)), active)
  {
  }

  lemma ReplayOpening(d: Deployment, c: Conn, active: set<GrantId>, deny: seq<RevocationPolicy>, e: Event)
    requires LockInv(d, c, |deny|) && StateInv(d, c)
    requires OpeningEvent(e) && Opening(d, c, active, e).Went?
    ensures SlotMoves(c, active, Opening(d, c, active, e).c, Opening(d, c, active, e).active)
  {
  }

  lemma ReplayTeardown(d: Deployment, c: Conn, active: set<GrantId>, deny: seq<RevocationPolicy>, e: Event)
    requires LockInv(d, c, |deny|) && StateInv(d, c)
    requires TeardownEvent(e) && Teardown(c, active, e).Went?
    ensures SlotMoves(c, active, Teardown(c, active, e).c, Teardown(c, active, e).active)
  {
  }

  /** The other steps neither claim nor release. */
  lemma ReplayIdle(d: Deployment, c: Conn, active: set<GrantId>, e: Event)
    requires ClientEvent(e) || MiddleEvent(e)
    ensures ClientEvent(e) && ClientStep(c, active, e).Went? ==>
              SlotMoves(c, active, ClientStep(c, active, e).c, ClientStep(c, active, e).active)
    ensures MiddleEvent(e) && Middle(c, active, e).Went? ==>
              SlotMoves(c, active, Middle(c, active, e).c, Middle(c, active, e).active)
  {
  }

  lemma ReplayWatch(c: Conn, active: set<GrantId>, deny: seq<RevocationPolicy>, e: Event)
    requires deny != [] && WatchEvent(e) && WatchStep(c, active, deny, e).Went?
    ensures SlotMoves(c, active, WatchStep(c, active, deny, e).c, WatchStep(c, active, deny, e).active)
  {
  }

  /** A step of one connection claims a free id, releases exactly its own, or leaves the set alone. */
  lemma ReplayStep(d: Deployment, c: Conn, active: set<GrantId>, deny: seq<RevocationPolicy>, e: Event)
    requires deny != [] && LockInv(d, c, |deny|) && StateInv(d, c) && LocalStep(d, c, active, deny, e).Went?
    ensures SlotMoves(c, active, LocalStep(d, c, active, deny, e).c, LocalStep(d, c, active, deny, e).active)
  {
    if TeardownEvent(e) {
      ReplayTeardown(d, c, active, deny, e);
    } else if OpeningEvent(e) {
      ReplayOpening(d, c, active, deny, e);
    } else if InstallEvent(e) {
      ReplayInstall(d, c, active, deny, e);
    } else if CommitEvent(e) {
      ReplayCommit(d, c, active, deny, e);
    } else if RenewEvent(e) {
      ReplayRenew(d, c, active, deny, e);
    } else if EndingEvent(e) {
      ReplayEnding(d, c, active, deny, e);
    } else if WatchEvent(e) {
      ReplayWatch(c, active, deny, e);
    } else if !e.Accept? {
      ReplayIdle(d, c, active, e);
    }
  }

  ghost predicate ReplayExact(s: Agent) {
    && s.active == (set id | id in s.conns && Slot(s.conns[id]).Some? :: Slot(s.conns[id]).value)
    && (forall a, b :: a in s.conns && b in s.conns && a != b && Slot(s.conns[a]).Some? ==>
          Slot(s.conns[a]) != Slot(s.conns[b]))
  }

  ghost predicate AgentInv(d: Deployment, s: Agent) {
    && s.deny != []
    && (forall id :: id in s.conns ==> ConnInv(d, s.conns[id], s.deny))
    && ReplayExact(s)
  }

  lemma ReplayKept(s: Agent, id: ConnId, c': Conn, active': set<GrantId>)
    requires ReplayExact(s) && id in s.conns
    requires SlotMoves(s.conns[id], s.active, c', active')
    ensures ReplayExact(s.(conns := s.conns[id := c'], active := active'))
  {
    var s' := s.(conns := s.conns[id := c'], active := active');
    forall g
      ensures g in active' <==> exists b :: b in s'.conns && Slot(s'.conns[b]) == Some(g)
    {
      if b :| b in s.conns && Slot(s.conns[b]) == Some(g) {
        assert s'.conns[b] == if b == id then c' else s.conns[b];
      }
      assert s'.conns[id] == c';
    }
  }

  lemma ActKeeps(d: Deployment, s: Agent, a: Action)
    requires AgentInv(d, s)
    ensures AgentInv(d, Act(d, s, a))
  {
    match a {
      case Connect(id, required, peer, audience) =>
        if id !in s.conns {
          NewConnOk(d, required, peer, audience, s.deny);
          ReplayJoined(s, id, NewConn(required, peer, audience));
        }
      case On(id, e) =>
        if id in s.conns {
          var o := LocalStep(d, s.conns[id], s.active, s.deny, e);
          if o.Went? {
            LocalKeeps(d, s.conns[id], s.active, s.deny, e);
            ReplayStep(d, s.conns[id], s.active, s.deny, e);
            ReplayKept(s, id, o.c, o.active);
          }
        }
      case Deny(op) =>
        var next := Apply(op, Last(s.deny));
        if next.Some? {
          forall id | id in s.conns
            ensures ConnInv(d, s.conns[id], s.deny + [next.value])
          {
            DenyGrows(d, s.conns[id], s.deny, next.value);
          }
        }
    }
  }

  lemma ReplayJoined(s: Agent, id: ConnId, c: Conn)
    requires ReplayExact(s) && id !in s.conns && Slot(c).None?
    ensures ReplayExact(s.(conns := s.conns[id := c]))
  {
    var s' := s.(conns := s.conns[id := c]);
    forall g
      ensures g in s.active <==> exists b :: b in s'.conns && Slot(s'.conns[b]) == Some(g)
    {
      if b :| b in s.conns && Slot(s.conns[b]) == Some(g) {
        assert s'.conns[b] == s.conns[b];
      }
    }
  }

  lemma {:induction false} RunInv(d: Deployment, run: seq<Action>)
    ensures AgentInv(d, Exec(d, run))
  {
    if run != [] {
      RunInv(d, run[..|run| - 1]);
      ActKeeps(d, Exec(d, run[..|run| - 1]), Last(run));
    }
  }
}
