/** A revocation reaches a live session: a bound on the watchdog's own steps, under every interleaving. */
module AuthzResponse {
  import opened Prelude
  import opened Clock
  import opened Grant
  import opened Revocations
  import opened AuthzState
  import opened AuthzProtocol
  import opened AuthzInvariant
  import opened AuthzTheorems

  /** The connection or its admission state is closed; neither ever reopens. */
  predicate Over(c: Conn) {
    c.closed || c.state.Closed?
  }

  predicate RevokedNow(c: Conn, deny: seq<RevocationPolicy>) {
    deny != [] && LeaseOf(c.state).Some? && LeaseOf(c.state).value.current.grant.id in Last(deny).ids
  }

  predicate SnapshotCovers(c: Conn, deny: seq<RevocationPolicy>, seen: nat) {
    seen < |deny| && LeaseOf(c.state).Some? && LeaseOf(c.state).value.current.grant.id in deny[seen].ids
  }

  /** How many steps the watchdog is away from closing a revoked session. */
  function Rank(c: Conn, deny: seq<RevocationPolicy>): nat {
    match c.watchdog
    case Parked(_, _, _) => 5
    case Top(_) => 4
    case Snapped(seen) => if SnapshotCovers(c, deny, seen) then 3 else 7
    case Guarded(seen, _, _) => if SnapshotCovers(c, deny, seen) then 2 else 6
    case Condemned(_) => 1
    case _ => 0
  }

  /** The step the watchdog takes next; its clock readings are whatever the clock gives. */
  function NextWatch(c: Conn, first: Option<Reading>, second: Option<Reading>): Event {
    match c.watchdog
    case Parked(_, _, _) => Wake
    case Snapped(_) => TakeGuard
    case Guarded(_, _, _) => Decide(first, second)
    case Condemned(_) => Strike
    case _ => Snap
  }

  /** While a revoked session lives, its watchdog always has a step to take. */
  lemma NeverStuck(d: Deployment, c: Conn, active: set<GrantId>, deny: seq<RevocationPolicy>,
                   first: Option<Reading>, second: Option<Reading>)
    requires deny != [] && CoreInv(d, c, deny) && !Over(c) && RevokedNow(c, deny)
    ensures Rank(c, deny) >= 1
    ensures WatchStep(c, active, deny, NextWatch(c, first, second)).Went?
  {
  }

  /** Each watchdog step, whatever the clock says, closes the connection or comes one rank closer. */
  lemma WatchProgress(d: Deployment, c: Conn, active: set<GrantId>, deny: seq<RevocationPolicy>, e: Event)
    requires deny != [] && CoreInv(d, c, deny) && !Over(c) && RevokedNow(c, deny) && WatchEvent(e)
    requires WatchStep(c, active, deny, e).Went?
    ensures var c' := WatchStep(c, active, deny, e).c;
            Over(c') || (RevokedNow(c', deny) && Rank(c', deny) < Rank(c, deny))
  {
    ShownId(d, c, deny);
  }

  /** The session goes on with the watchdog where it was. */
  predicate Undisturbed(c: Conn, c': Conn) {
    || Over(c')
    || (&& c'.watchdog == c.watchdog
        && LeaseOf(c.state).Some? && LeaseOf(c'.state).Some?
        && LeaseOf(c'.state).value.current.grant.id == LeaseOf(c.state).value.current.grant.id)
  }

  lemma OpeningHarmless(d: Deployment, c: Conn, active: set<GrantId>, e: Event)
    requires LeaseOf(c.state).Some? && OpeningEvent(e) && Opening(d, c, active, e).Went?
    ensures Undisturbed(c, Opening(d, c, active, e).c)
  {
  }

  lemma EndingHarmless(c: Conn, active: set<GrantId>, e: Event)
    requires LeaseOf(c.state).Some? && EndingEvent(e) && Ending(c, active, e).Went?
    ensures Undisturbed(c, Ending(c, active, e).c)
  {
  }

  lemma InstallHarmless(d: Deployment, c: Conn, active: set<GrantId>, deny: seq<RevocationPolicy>, e: Event)
    requires deny != [] && LockInv(d, c, |deny|) && LeaseOf(c.state).Some? && InstallEvent(e)
    requires InstallStep(c, active, deny, e).Went?
    ensures Undisturbed(c, InstallStep(c, active, deny, e).c)
  {
  }

  lemma CommitHarmless(c: Conn, active: set<GrantId>, deny: seq<RevocationPolicy>, e: Event)
    requires deny != [] && LeaseOf(c.state).Some? && CommitEvent(e) && CommitStep(c, active, deny, e).Went?
    ensures Undisturbed(c, CommitStep(c, active, deny, e).c)
  {
  }

  lemma RenewHarmless(d: Deployment, c: Conn, active: set<GrantId>, deny: seq<RevocationPolicy>, e: Event)
    requires deny != [] && LockInv(d, c, |deny|) && LeaseOf(c.state).Some? && RenewEvent(e)
    requires RenewStep(c, active, deny, e).Went?
    ensures Undisturbed(c, RenewStep(c, active, deny, e).c)
  {
  }

  lemma OthersHarmless(d: Deployment, c: Conn, active: set<GrantId>, deny: seq<RevocationPolicy>, e: Event)
    requires deny != [] && LockInv(d, c, |deny|) && LeaseOf(c.state).Some? && !WatchEvent(e)
    requires LocalStep(d, c, active, deny, e).Went?
    ensures Undisturbed(c, LocalStep(d, c, active, deny, e).c)
  {
    if OpeningEvent(e) {
      OpeningHarmless(d, c, active, e);
    } else if InstallEvent(e) {
      InstallHarmless(d, c, active, deny, e);
    } else if CommitEvent(e) {
      CommitHarmless(c, active, deny, e);
    } else if RenewEvent(e) {
      RenewHarmless(d, c, active, deny, e);
    } else if EndingEvent(e) {
      EndingHarmless(c, active, e);
    }
  }

  // ---- in a run ----

  /** The watchdog steps of connection `id` that actually happen while `more` runs after `run`. */
  function WatchTurns(d: Deployment, run: seq<Action>, more: seq<Action>, id: ConnId): nat {
    if more == [] then 0
    else
      var s := Exec(d, run + more[..|more| - 1]);
      WatchTurns(d, run, more[..|more| - 1], id)
      + (if WatchTurn(d, s, Last(more), id) then 1 else 0)
  }

  predicate WatchTurn(d: Deployment, s: Agent, a: Action, id: ConnId)
    requires s.deny != []
  {
    a.On? && a.conn == id && id in s.conns && WatchEvent(a.e) && LocalStep(d, s.conns[id], s.active, s.deny, a.e).Went?
  }

  lemma RankBounded(c: Conn, deny: seq<RevocationPolicy>)
    ensures Rank(c, deny) <= 7
  {
  }

  lemma RankStable(d: Deployment, c: Conn, deny: seq<RevocationPolicy>, p: RevocationPolicy)
    requires WatchInv(c, deny)
    ensures Rank(c, deny + [p]) == Rank(c, deny)
  {
  }

  /** Session `g` of connection `id` is over, or the watchdog has used `turns` of its seven ranks. */
  predicate Chased(c: Conn, deny: seq<RevocationPolicy>, g: GrantId, turns: nat) {
    Over(c) || (LeaseOf(c.state).Some? && LeaseOf(c.state).value.current.grant.id == g && Rank(c, deny) + turns <= 7)
  }

  lemma ChasedWatch(d: Deployment, c: Conn, active: set<GrantId>, deny: seq<RevocationPolicy>, e: Event, g: GrantId,
                    turns: nat)
    requires deny != [] && CoreInv(d, c, deny) && g in Last(deny).ids && WatchEvent(e)
    requires WatchStep(c, active, deny, e).Went?
    requires !Over(c) && Chased(c, deny, g, turns)
    ensures Chased(WatchStep(c, active, deny, e).c, deny, g, turns + 1)
  {
    WatchProgress(d, c, active, deny, e);
  }

  lemma ChasedOn(c: Conn, c': Conn, deny: seq<RevocationPolicy>, g: GrantId, turns: nat)
    requires !Over(c) && Chased(c, deny, g, turns) && Undisturbed(c, c')
    ensures Chased(c', deny, g, turns)
  {
  }

  lemma LocalWatch(d: Deployment, c: Conn, active: set<GrantId>, deny: seq<RevocationPolicy>, e: Event)
    requires deny != [] && WatchEvent(e)
    ensures LocalStep(d, c, active, deny, e) == WatchStep(c, active, deny, e)
  {
  }

  lemma ChasedLocal(d: Deployment, c: Conn, active: set<GrantId>, deny: seq<RevocationPolicy>, e: Event, g: GrantId,
                    turns: nat)
    requires deny != [] && CoreInv(d, c, deny) && g in Last(deny).ids && LocalStep(d, c, active, deny, e).Went?
    requires !Over(c) && Chased(c, deny, g, turns)
    ensures Chased(LocalStep(d, c, active, deny, e).c, deny, g, turns + (if WatchEvent(e) then 1 else 0))
  {
    if WatchEvent(e) {
      LocalWatch(d, c, active, deny, e);
      ChasedWatch(d, c, active, deny, e, g, turns);
    } else {
      OthersHarmless(d, c, active, deny, e);
      ChasedOn(c, LocalStep(d, c, active, deny, e).c, deny, g, turns);
    }
  }

  lemma ChasedStep(d: Deployment, c: Conn, active: set<GrantId>, deny: seq<RevocationPolicy>, e: Event, g: GrantId,
                   turns: nat)
    requires deny != [] && CoreInv(d, c, deny) && g in Last(deny).ids && LocalStep(d, c, active, deny, e).Went?
    requires Chased(c, deny, g, turns)
    ensures Chased(LocalStep(d, c, active, deny, e).c, deny, g, turns + (if WatchEvent(e) then 1 else 0))
  {
    if Over(c) {
      ExtendsLocal(d, c, active, deny, e);
    } else {
      ChasedLocal(d, c, active, deny, e, g, turns);
    }
  }

  lemma ChasedAct(d: Deployment, s: Agent, a: Action, id: ConnId, g: GrantId, turns: nat)
    requires s.deny != [] && id in s.conns && CoreInv(d, s.conns[id], s.deny) && g in Last(s.deny).ids
    requires Chased(s.conns[id], s.deny, g, turns)
    ensures id in Act(d, s, a).conns
    ensures Chased(Act(d, s, a).conns[id], Act(d, s, a).deny, g, turns + (if WatchTurn(d, s, a, id) then 1 else 0))
  {
    var c := s.conns[id];
    if a.On? && a.conn == id && LocalStep(d, c, s.active, s.deny, a.e).Went? {
      ChasedStep(d, c, s.active, s.deny, a.e, g, turns);
    } else if a.Deny? && Apply(a.op, Last(s.deny)).Some? {
      RankStable(d, c, s.deny, Apply(a.op, Last(s.deny)).value);
    }
  }

  lemma ChasedOnce(d: Deployment, run: seq<Action>, a: Action, id: ConnId, g: GrantId, turns: nat)
    requires id in Exec(d, run).conns && g in Last(Exec(d, run).deny).ids
    requires Chased(Exec(d, run).conns[id], Exec(d, run).deny, g, turns)
    ensures id in Exec(d, run + [a]).conns
    ensures Chased(Exec(d, run + [a]).conns[id], Exec(d, run + [a]).deny, g,
                   turns + (if WatchTurn(d, Exec(d, run), a, id) then 1 else 0))
  {
    assert (run + [a])[..|run|] == run;
    ConnOf(d, run, id);
    ChasedAct(d, Exec(d, run), a, id, g, turns);
  }

  /** `g` is on the denylist before every action of `more`. */
  predicate StaysDenied(d: Deployment, run: seq<Action>, more: seq<Action>, g: GrantId) {
    more == []
    || (StaysDenied(d, run, more[..|more| - 1], g) && g in Last(Exec(d, run + more[..|more| - 1]).deny).ids)
  }

  lemma {:induction false} DeniedThroughout(d: Deployment, run: seq<Action>, more: seq<Action>, g: GrantId)
    requires forall k :: 0 <= k < |more| ==> g in Last(Exec(d, run + more[..k]).deny).ids
    ensures StaysDenied(d, run, more, g)
    decreases |more|
  {
    if more != [] {
      var init := more[..|more| - 1];
      assert forall k :: 0 <= k < |init| ==> init[..k] == more[..k];
      DeniedThroughout(d, run, init, g);
    }
  }

  lemma {:induction false} ChasedRun(d: Deployment, run: seq<Action>, more: seq<Action>, id: ConnId, g: GrantId)
    requires id in Exec(d, run).conns
    requires Chased(Exec(d, run).conns[id], Exec(d, run).deny, g, 0) && StaysDenied(d, run, more, g)
    ensures id in Exec(d, run + more).conns
    ensures Chased(Exec(d, run + more).conns[id], Exec(d, run + more).deny, g, WatchTurns(d, run, more, id))
    decreases |more|
  {
    if more == [] {
      assert run + more == run;
    } else {
      var init := more[..|more| - 1];
      ChasedRun(d, run, init, id, g);
      ChasedOnce(d, run + init, Last(more), id, g, WatchTurns(d, run, init, id));
      assert run + more == run + init + [Last(more)];
    }
  }

  /** A revoked session ends: from any reachable state with session `g` in force, and for every
      interleaving during which `g` stays on the denylist, the watchdog takes at most six more steps
      before the connection or its admission state is closed. While it is not, the watchdog has a
      step to take. */
  lemma RevocationBound(d: Deployment, run: seq<Action>, more: seq<Action>, id: ConnId, g: GrantId)
    requires id in Exec(d, run).conns
    requires LeaseOf(Exec(d, run).conns[id].state).Some?
    requires LeaseOf(Exec(d, run).conns[id].state).value.current.grant.id == g
    requires forall k :: 0 <= k <= |more| ==> g in Last(Exec(d, run + more[..k]).deny).ids
    ensures var s := Exec(d, run + more);
            && id in s.conns
            && (Over(s.conns[id]) ||
                (&& WatchTurns(d, run, more, id) <= 6
                 && forall first, second ::
                      WatchStep(s.conns[id], s.active, s.deny, NextWatch(s.conns[id], first, second)).Went?))
  {
    DeniedThroughout(d, run, more, g);
    RankBounded(Exec(d, run).conns[id], Exec(d, run).deny);
    ChasedRun(d, run, more, id, g);
    var s := Exec(d, run + more);
    ConnOf(d, run + more, id);
    assert more[..|more|] == more;
    if !Over(s.conns[id]) {
      forall first, second
        ensures Rank(s.conns[id], s.deny) >= 1
        ensures WatchStep(s.conns[id], s.active, s.deny, NextWatch(s.conns[id], first, second)).Went?
      {
        NeverStuck(d, s.conns[id], s.active, s.deny, first, second);
      }
      assert Rank(s.conns[id], s.deny) >= 1 by {
        NeverStuck(d, s.conns[id], s.active, s.deny, None, None);
      }
    }
  }
}
