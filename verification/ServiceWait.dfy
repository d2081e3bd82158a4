/** Services that wait for an authorization in progress (rds-agent `authz`, `service_scope`): a peer may
    open a service on another stream before the authorization task has committed. */
module ServiceWait {
  import opened Prelude
  import opened Clock
  import opened Grant
  import opened Revocations
  import opened AuthzState
  import opened AuthzProtocol

  type ServiceId = nat

  /** A waiting service: subscribed to the change channel at some version, about to look at the state; or
      listening on the channel; or answered. */
  datatype Service =
    | Looking(seen: nat)
    | Listening(seen: nat)
    | Answered(r: Result<Option<VerifiedGrant>, ScopeError>)

  /** `version` counts the notifications sent; `owed` the sections that have changed the state and whose
      notification is still to come. Nothing can cancel a task between the two. */
  datatype Door = Door(c: Conn, version: nat, owed: nat, services: map<ServiceId, Service>)

  /** What surrounds a step of the protocol: the replay set and the denylist, as other connections and feeds
      have left them. */
  datatype World = World(active: set<GrantId>, deny: seq<RevocationPolicy>)

  datatype Move =
    | Protocol(w: World, e: Event)
    | Notify
    | Subscribe(id: ServiceId)
    | Look(id: ServiceId, denied: RevocationPolicy, first: Option<Reading>, second: Option<Reading>)
    | Rouse(id: ServiceId)
    | GiveUp(id: ServiceId)

  /** The sections that end in a notification: `commit` and `commit_renewal`, whichever way they end, and
      `close` in all its forms. */
  predicate Notifies(c: Conn, e: Event, o: Outcome) {
    && o.Went?
    && (|| ((CommitEvent(e) || RenewEvent(e)) && o.c.lock == Free)
        || e.CloseState? || e.ServiceClose?)
  }

  function Step(d: Deployment, s: Door, m: Move): Door {
    match m
    case Protocol(w, e) =>
      if w.deny == [] then s
      else
        var o := LocalStep(d, s.c, w.active, w.deny, e);
        if o.Blocked? then s else s.(c := o.c, owed := s.owed + (if Notifies(s.c, e, o) then 1 else 0))
    case Notify => if s.owed == 0 then s else s.(owed := s.owed - 1, version := s.version + 1)
    case Subscribe(id) => if id in s.services then s else s.(services := s.services[id := Looking(s.version)])
    case Look(id, denied, first, second) =>
      if id !in s.services || !s.services[id].Looking? || s.c.lock != Free then s
      else
        var r := Scope(s.c.state, denied, first, second);
        var next := if r == Err(ScopeAuthorizing) then Listening(s.services[id].seen) else Answered(r);
        s.(services := s.services[id := next])
    case Rouse(id) =>
      if id !in s.services || !s.services[id].Listening? || s.services[id].seen == s.version then s
      else s.(services := s.services[id := Looking(s.version)])
    case GiveUp(id) =>
      // The deadline of the authorization exchange, or the caller's own.
      s.(services := s.services - {id})
  }

  function Run(d: Deployment, c: Conn, moves: seq<Move>): Door {
    if moves == [] then Door(c, 0, 0, map[]) else Step(d, Run(d, c, moves[..|moves| - 1]), Last(moves))
  }

  // ---- who leaves Authorizing ----

  lemma CommitLeaves(c: Conn, w: World, e: Event)
    requires w.deny != [] && CommitEvent(e) && CommitStep(c, w.active, w.deny, e).Went?
    ensures var o := CommitStep(c, w.active, w.deny, e); o.c.state == c.state || o.c.lock == Free
  {
  }

  lemma RenewLeaves(c: Conn, w: World, e: Event)
    requires w.deny != [] && RenewEvent(e) && RenewStep(c, w.active, w.deny, e).Went?
    ensures var o := RenewStep(c, w.active, w.deny, e); o.c.state == c.state || o.c.lock == Free
  {
  }

  lemma InstallStays(c: Conn, w: World, e: Event)
    requires w.deny != [] && InstallEvent(e) && InstallStep(c, w.active, w.deny, e).Went?
    ensures c.state.Authorizing? ==> InstallStep(c, w.active, w.deny, e).c.state.Authorizing?
  {
  }

  lemma OpeningStays(d: Deployment, c: Conn, w: World, e: Event)
    requires OpeningEvent(e) && Opening(d, c, w.active, e).Went?
    ensures c.state.Authorizing? ==> Opening(d, c, w.active, e).c.state.Authorizing?
  {
  }

  lemma ClientStays(c: Conn, w: World, e: Event)
    requires ClientEvent(e) && ClientStep(c, w.active, e).Went?
    ensures ClientStep(c, w.active, e).c.state == c.state
  {
  }

  lemma MiddleStays(c: Conn, w: World, e: Event)
    requires MiddleEvent(e) && Middle(c, w.active, e).Went?
    ensures Middle(c, w.active, e).c.state == c.state
  {
  }

  lemma EndingStays(c: Conn, w: World, e: Event)
    requires EndingEvent(e) && !e.CloseState? && Ending(c, w.active, e).Went?
    ensures Ending(c, w.active, e).c.state == c.state
  {
  }

  lemma WatchStays(c: Conn, w: World, e: Event)
    requires w.deny != [] && WatchEvent(e) && WatchStep(c, w.active, w.deny, e).Went?
    ensures WatchStep(c, w.active, w.deny, e).c.state == c.state
  {
  }

  /** Only a section that will notify takes the state out of Authorizing. */
  lemma LeavingNotifies(d: Deployment, c: Conn, w: World, e: Event)
    requires w.deny != [] && LocalStep(d, c, w.active, w.deny, e).Went?
    ensures var o := LocalStep(d, c, w.active, w.deny, e);
            c.state.Authorizing? && !o.c.state.Authorizing? ==> Notifies(c, e, o)
  {
    if ClientEvent(e) {
      ClientStays(c, w, e);
    } else if OpeningEvent(e) {
      OpeningStays(d, c, w, e);
    } else if InstallEvent(e) {
      InstallStays(c, w, e);
    } else if MiddleEvent(e) {
      MiddleStays(c, w, e);
    } else if CommitEvent(e) {
      CommitLeaves(c, w, e);
    } else if RenewEvent(e) {
      RenewLeaves(c, w, e);
    } else if EndingEvent(e) {
      if !e.CloseState? {
        EndingStays(c, w, e);
      }
    } else if WatchEvent(e) {
      WatchStays(c, w, e);
    }
  }

  // ---- no lost wake-up ----

  predicate Woken(s: Door, seen: nat) {
    seen <= s.version && (seen == s.version ==> s.c.state.Authorizing? || s.owed > 0)
  }

  ghost predicate Attended(s: Door) {
    forall id :: id in s.services && s.services[id].Listening? ==> Woken(s, s.services[id].seen)
  }

  ghost predicate Subscribed(s: Door) {
    forall id :: id in s.services && s.services[id].Looking? ==> s.services[id].seen <= s.version
  }

  lemma StepAttends(d: Deployment, s: Door, m: Move)
    requires Attended(s) && Subscribed(s)
    ensures Attended(Step(d, s, m)) && Subscribed(Step(d, s, m))
  {
    if m.Protocol? && m.w.deny != [] {
      var o := LocalStep(d, s.c, m.w.active, m.w.deny, m.e);
      if o.Went? {
        LeavingNotifies(d, s.c, m.w, m.e);
      }
    }
  }

  lemma {:induction false} RunAttends(d: Deployment, c: Conn, moves: seq<Move>)
    ensures Attended(Run(d, c, moves)) && Subscribed(Run(d, c, moves))
  {
    if moves != [] {
      RunAttends(d, c, moves[..|moves| - 1]);
      StepAttends(d, Run(d, c, moves[..|moves| - 1]), Last(moves));
    }
  }

  /** No commit and no close is missed: in every interleaving, a service that listens with no wake-up pending
      sees an authorization that is still in progress, or the section that ended it has yet to send its
      notification. Once all notifications are out, only an authorization in progress keeps a service
      waiting. */
  lemma NoMissedWakeup(d: Deployment, c: Conn, moves: seq<Move>, id: ServiceId)
    requires id in Run(d, c, moves).services && Run(d, c, moves).services[id].Listening?
    ensures var s := Run(d, c, moves);
            s.services[id].seen == s.version ==> s.c.state.Authorizing? || s.owed > 0
    ensures var s := Run(d, c, moves);
            s.owed == 0 && !s.c.state.Authorizing? ==>
              Step(d, s, Rouse(id)).services[id] == Looking(s.version)
  {
    RunAttends(d, c, moves);
  }

  /** Nor is a service admitted early: what it is answered is what `scope` said of the state at one of its
      looks, never that an authorization is in progress. */
  lemma AnsweredFromState(d: Deployment, s: Door, m: Move, id: ServiceId)
    requires id in s.services && !s.services[id].Answered?
    requires id in Step(d, s, m).services && Step(d, s, m).services[id].Answered?
    ensures m.Look? && m.id == id && s.c.lock == Free
    ensures Step(d, s, m).services[id].r == Scope(s.c.state, m.denied, m.first, m.second) != Err(ScopeAuthorizing)
  {
  }
}
