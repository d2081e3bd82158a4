/** Grant admission as a concurrent protocol: any number of connections, on each any number of
    authorization streams with their clients, one watchdog, and a shared replay set and denylist.

    Every step is one atomic piece of the source: a critical section is cut wherever it reads a
    clock, the denylist, the replay set or the connection, so other tasks interleave there. `lock`
    says who is inside the state mutex. The placeholder that `mem::replace` leaves in the state is
    invisible under that mutex and does not appear. Clock readings are inputs of a step and are
    unconstrained: clocks may stop, step back or be unreadable. */
module AuthzProtocol {
  import opened Prelude
  import opened Clock
  import opened Grant
  import opened Revocations
  import opened AuthzState

  type TaskId = nat
  type ConnId = nat

  /** The protocol uses verification only through its result: the verified payload and its id. */
  datatype Deployment = Deployment(
    verify: (Token, Key, Key, U64) -> Result<GrantPayload, GrantError>,
    id: GrantPayload -> GrantId)

  /** The deployment a configuration gives: grant verification, then the tenant and revision binding. */
  function Deploy(cfg: Config): Deployment {
    Deployment(
      (token: Token, subject: Key, audience: Key, now: U64) =>
        var v := VerifyBound(cfg, token, subject, audience, now);
        if v.Ok? then Ok(v.value.payload) else Err(v.error),
      p => Id(cfg.codec, p))
  }

  // ---- one authorization stream: server task and client ----

  /** The response stream as far as it was transmitted: the acknowledgement, then FIN. */
  datatype Response = Response(ack: Option<Ack>, fin: bool)

  datatype Ack = AckOk | AckError

  /** The client: waiting for the acknowledgement, then for FIN, then done. */
  datatype Client = AwaitAck | AwaitFin | Succeeded | Failed

  datatype Pc =
    | Arrived                              // hello read, `begin` not called
    | Refused                              // `begin` failed
    | Admitted                             // `begin` succeeded: the Admission guard exists
    | Checked(v: VerifiedGrant)            // verified and bound to the deployment
    | Installing                           // inside `install`
    | Ready(next: Option<ActiveGrant>)     // installed, or renewal prepared
    | Acked(next: Option<ActiveGrant>)     // acknowledgement written
    | Committing                           // inside `commit` or `commit_renewal`
    | Committed                            // committed, response not finished
    | Failing                              // returning an error or cancelled: guard about to drop
    | StateClosed                          // guard: `authz.close()` has taken the state
    | Hanging                              // guard done (or absent): the send stream is about to drop
    | Done

  /** `armed`: the Admission guard would still close. `accepted`: where in the connection's log this
      task's successful commit is. */
  datatype Task = Task(
    renewal: bool, token: Token, pc: Pc, sent: Response, client: Client, armed: bool, accepted: Option<nat>)

  // ---- the watchdog ----

  datatype Cause = PolicyStale | GrantRevoked | NoClock | GrantExpired

  datatype Verdict = Verdict(cause: Cause, active: ActiveGrant)

  /** `seen` is the denylist version last observed; `Guarded` and `Condemned` hold the read guard. */
  datatype Watchdog =
    | Unborn
    | Top(seen: nat)
    | Snapped(seen: nat)
    | Guarded(seen: nat, cellSeen: nat, active: ActiveGrant)
    | Condemned(verdict: Verdict)
    | Parked(seen: nat, cellSeen: nat, active: ActiveGrant)
    | Exited

  /** The update channel from the lease to its watchdog. */
  datatype Cell = Cell(value: ActiveGrant, version: nat)

  // ---- one connection ----

  datatype InstallStage = Subscribed | FreshSeen | Cleared(now: Reading) | Claimed(now: Reading)

  datatype RenewStage = Entered | CurrentLive | NextLive | Permitted | Published | StillOpen

  datatype Lock =
    | Free
    | Install(task: TaskId, v: VerifiedGrant, seen: nat, stage: InstallStage)
    | CommitFirst(task: TaskId, live: bool)
    | CommitNext(task: TaskId, next: ActiveGrant, step: RenewStage)

  datatype Closer = Service | Guard(task: TaskId)

  datatype Commit = Commit(task: TaskId, grant: ActiveGrant)

  /** `dropping` is a lease taken out of the state and not yet dropped; `orphaned` says it has been.
      `owner`, `log` and `verdict` are history: who began the running transaction, every committed
      grant in order, and why the watchdog closed the connection. */
  datatype Conn = Conn(
    peer: Key,
    audience: Key,
    state: State,
    lock: Lock,
    closed: bool,
    dropping: Option<(GrantLease, Closer)>,
    orphaned: bool,
    cell: Option<Cell>,
    watchdog: Watchdog,
    tasks: map<TaskId, Task>,
    owner: Option<TaskId>,
    log: seq<Commit>,
    verdict: Option<Verdict>)

  datatype Event =
    | Accept(t: TaskId, renewal: bool, token: Token)
    | TransportClose
    | ServiceClose
    | DropLease
    | ClientAck(t: TaskId)
    | ClientFin(t: TaskId)
    | ClientFail(t: TaskId)
    | BeginTx(t: TaskId)
    | WriteRefusal(t: TaskId)
    | Check(t: TaskId, unix: U64)
    | InstallEnter(t: TaskId)
    | InstallFresh(t: TaskId, now: Option<Reading>)
    | InstallClear(t: TaskId, now: Option<Reading>)
    | InstallClaim(t: TaskId)
    | InstallFinish(t: TaskId)
    | Prepare(t: TaskId, now: Option<Reading>)
    | WriteAck(t: TaskId)
    | CommitEnter(t: TaskId)
    | CommitLive(t: TaskId, now: Option<Reading>)
    | CommitPermit(t: TaskId, now: Option<Reading>)
    | RenewEnter(t: TaskId)
    | RenewLive(t: TaskId, now: Option<Reading>)
    | RenewNextLive(t: TaskId, now: Option<Reading>)
    | RenewPermit(t: TaskId, now: Option<Reading>)
    | RenewPublish(t: TaskId)
    | RenewLook(t: TaskId)
    | RenewFinish(t: TaskId)
    | Finish(t: TaskId, ok: bool)
    | Cancel(t: TaskId)
    | CloseState(t: TaskId)
    | Hang(t: TaskId)
    | DropSend(t: TaskId)
    | Snap
    | TakeGuard
    | Decide(first: Option<Reading>, second: Option<Reading>)
    | Strike
    | Wake
    | Retire(closing: bool)

  // ---- the groups of events ----

  predicate ClientEvent(e: Event) {
    e.ClientAck? || e.ClientFin? || e.ClientFail?
  }

  predicate OpeningEvent(e: Event) {
    e.BeginTx? || e.WriteRefusal? || e.Check?
  }

  predicate MiddleEvent(e: Event) {
    e.Prepare? || e.WriteAck?
  }

  predicate TeardownEvent(e: Event) {
    e.TransportClose? || e.ServiceClose? || e.DropLease?
  }

  predicate WatchEvent(e: Event) {
    e.Snap? || e.TakeGuard? || e.Decide? || e.Strike? || e.Wake? || e.Retire?
  }

  predicate EndingEvent(e: Event) {
    e.Finish? || e.Cancel? || e.CloseState? || e.Hang? || e.DropSend?
  }

  predicate InstallEvent(e: Event) {
    e.InstallEnter? || e.InstallFresh? || e.InstallClear? || e.InstallClaim? || e.InstallFinish?
  }

  predicate CommitEvent(e: Event) {
    e.CommitEnter? || e.CommitLive? || e.CommitPermit?
  }

  predicate RenewEvent(e: Event) {
    || e.RenewEnter? || e.RenewLive? || e.RenewNextLive? || e.RenewPermit?
    || e.RenewPublish? || e.RenewLook? || e.RenewFinish?
  }

  datatype Outcome = Blocked | Went(c: Conn, active: set<GrantId>)

  function With(c: Conn, t: TaskId, k: Task): Conn {
    c.(tasks := c.tasks[t := k])
  }

  function Goto(c: Conn, t: TaskId, pc: Pc): Conn
    requires t in c.tasks
  {
    With(c, t, c.tasks[t].(pc := pc))
  }

  /** Bytes leave only on an open connection. */
  function Acknowledge(c: Conn, k: Task, ack: Ack): Task {
    if c.closed then k else k.(sent := k.sent.(ack := Some(ack)))
  }

  function FinishStream(c: Conn, k: Task): Task {
    if c.closed then k else k.(sent := k.sent.(fin := true))
  }

  predicate At(c: Conn, t: TaskId, pc: Pc) {
    t in c.tasks && c.tasks[t].pc == pc
  }

  predicate Inside(c: Conn, t: TaskId) {
    c.lock != Free && c.lock.task == t
  }

  // ---- transport, clients, teardown ----

  function Arrive(c: Conn, active: set<GrantId>, t: TaskId, renewal: bool, token: Token): Outcome {
    if t in c.tasks then Blocked
    else Went(With(c, t, Task(renewal, token, Arrived, Response(None, false), AwaitAck, false, None)), active)
  }

  function ClientStep(c: Conn, active: set<GrantId>, e: Event): Outcome
    requires ClientEvent(e)
  {
    var t := e.t;
    if t !in c.tasks then Blocked
    else
      var k := c.tasks[t];
      match e
      case ClientAck(_) =>
        if k.client == AwaitAck && (k.sent.ack.Some? || k.sent.fin) then
          Went(With(c, t, k.(client := if k.sent.ack == Some(AckOk) then AwaitFin else Failed)), active)
        else Blocked
      case ClientFin(_) =>
        if k.client == AwaitFin && k.sent.fin then Went(With(c, t, k.(client := Succeeded)), active)
        else Blocked
      case ClientFail(_) =>
        if k.client == AwaitAck || k.client == AwaitFin then Went(With(c, t, k.(client := Failed)), active)
        else Blocked
  }

  /** `ConnAuthz::close` up to the end of its critical section. */
  function TakeState(c: Conn, closer: Closer): Conn {
    c.(state := Closed,
       dropping := if LeaseOf(c.state).Some? then Some((LeaseOf(c.state).value, closer)) else c.dropping)
  }

  function Teardown(c: Conn, active: set<GrantId>, e: Event): Outcome
    requires TeardownEvent(e)
  {
    match e
    case TransportClose => Went(c.(closed := true), active)
    case ServiceClose => if c.lock != Free then Blocked else Went(TakeState(c, Service), active)
    case DropLease =>
      if c.dropping.None? then Blocked
      else Went(c.(dropping := None, orphaned := true), active - {c.dropping.value.0.slot})
  }

  // ---- the authorization task ----

  function Opening(d: Deployment, c: Conn, active: set<GrantId>, e: Event): Outcome
    requires OpeningEvent(e)
  {
    var t := e.t;
    if t !in c.tasks then Blocked
    else
      var k := c.tasks[t];
      match e
      case BeginTx(_) =>
        if k.pc != Arrived || c.lock != Free then Blocked
        else
          var (state, refusal) := Begin(c.state, k.renewal);
          if refusal.Some? then Went(Goto(c, t, Refused), active)
          else Went(With(c, t, k.(pc := Admitted, armed := true)).(state := state, owner := Some(t)), active)
      case WriteRefusal(_) =>
        if k.pc != Refused then Blocked
        else Went(With(c, t, Acknowledge(c, k, AckError).(pc := Hanging)), active)
      case Check(_, unix) =>
        if k.pc != Admitted then Blocked
        else
          var p := d.verify(k.token, c.peer, c.audience, unix);
          Went(Goto(c, t, if p.Ok? then Checked(VerifiedGrant(p.value, d.id(p.value))) else Failing), active)
  }

  function InstallStep(c: Conn, active: set<GrantId>, deny: seq<RevocationPolicy>, e: Event): Outcome
    requires InstallEvent(e)
    requires deny != []
  {
    var t := e.t;
    if t !in c.tasks then Blocked
    else if e.InstallEnter? then
      if !c.tasks[t].pc.Checked? || c.tasks[t].renewal || c.lock != Free then Blocked
      else if c.state != Authorizing(None) || c.closed then Went(Goto(c, t, Failing), active)
      else Went(Goto(c, t, Installing).(lock := Install(t, c.tasks[t].pc.v, |deny| - 1, Subscribed)), active)
    else if !c.lock.Install? || c.lock.task != t then Blocked
    else
      var fail := Goto(c, t, Failing).(lock := Free);
      var l := c.lock;
      match e
      case InstallFresh(_, now) =>
        if l.stage != Subscribed then Blocked
        else if Fresh(Last(deny), now) then Went(c.(lock := l.(stage := FreshSeen)), active)
        else Went(fail, active)
      case InstallClear(_, now) =>
        if l.stage != FreshSeen then Blocked
        else if l.v.id in Last(deny).ids || l.v.payload.audience != c.audience || now.None? then Went(fail, active)
        else Went(c.(lock := l.(stage := Cleared(now.value))), active)
      case InstallClaim(_) =>
        if !l.stage.Cleared? then Blocked
        else if l.v.id in active then Went(fail, active)
        else Went(c.(lock := l.(stage := Claimed(l.stage.now))), active + {l.v.id})
      case InstallFinish(_) =>
        if !l.stage.Claimed? then Blocked
        else
          var current := NewActive(l.v, l.stage.now);
          if current.Err? then Went(fail, active - {l.v.id})
          else Went(Goto(c, t, Ready(None)).(
                      lock := Free,
                      state := Authorizing(Some(GrantLease(current.value, l.v.id))),
                      cell := Some(Cell(current.value, 0)),
                      watchdog := Top(l.seen)), active)
  }

  function Middle(c: Conn, active: set<GrantId>, e: Event): Outcome
    requires MiddleEvent(e)
  {
    var t := e.t;
    if t !in c.tasks then Blocked
    else
      var k := c.tasks[t];
      match e
      case Prepare(_, now) =>
        if !k.pc.Checked? || !k.renewal || c.lock != Free then Blocked
        else
          var next := PrepareRenewal(c.state, k.pc.v, now);
          Went(Goto(c, t, if next.Ok? then Ready(Some(next.value)) else Failing), active)
      case WriteAck(_) =>
        if !k.pc.Ready? then Blocked
        else if c.closed then Went(Goto(c, t, Failing), active)
        else Went(With(c, t, Acknowledge(c, k, AckOk).(pc := Acked(k.pc.next))), active)
  }

  /** A commit that fails: the lease, if the state held one, drops inside the critical section. */
  function CommitFails(c: Conn, active: set<GrantId>, t: TaskId): Outcome
    requires t in c.tasks
  {
    var lease := LeaseOf(c.state);
    Went(Goto(c, t, Failing).(lock := Free, state := Closed, orphaned := c.orphaned || lease.Some?),
         if lease.Some? then active - {lease.value.slot} else active)
  }

  function CommitStep(c: Conn, active: set<GrantId>, deny: seq<RevocationPolicy>, e: Event): Outcome
    requires CommitEvent(e)
    requires deny != []
  {
    var t := e.t;
    if t !in c.tasks then Blocked
    else if e.CommitEnter? then
      if c.tasks[t].pc != Acked(None) || c.lock != Free then Blocked
      else if c.state.Authorizing? && c.state.pending.Some? && !c.closed then
        Went(Goto(c, t, Committing).(lock := CommitFirst(t, false)), active)
      else CommitFails(c, active, t)
    else if !c.lock.CommitFirst? || c.lock.task != t || !c.state.Authorizing? || c.state.pending.None? then Blocked
    else
      var lease := c.state.pending.value;
      match e
      case CommitLive(_, now) =>
        if c.lock.live then Blocked
        else if Live(lease.current, now) then Went(c.(lock := CommitFirst(t, true)), active)
        else CommitFails(c, active, t)
      case CommitPermit(_, now) =>
        if !c.lock.live then Blocked
        else if Permits(Last(deny), lease.current.grant.id, now) then
          Went(With(c, t, c.tasks[t].(pc := Committed, accepted := Some(|c.log|))).(
                 lock := Free, state := Granted(lease), log := c.log + [Commit(t, lease.current)]), active)
        else CommitFails(c, active, t)
  }

  predicate GuardHeld(w: Watchdog) {
    w.Guarded? || w.Condemned?
  }

  function RenewStep(c: Conn, active: set<GrantId>, deny: seq<RevocationPolicy>, e: Event): Outcome
    requires RenewEvent(e)
    requires deny != []
  {
    var t := e.t;
    if t !in c.tasks then Blocked
    else if e.RenewEnter? then
      if !c.tasks[t].pc.Acked? || c.tasks[t].pc.next.None? || c.lock != Free then Blocked
      else if c.state.Renewing? && !c.closed then
        Went(Goto(c, t, Committing).(lock := CommitNext(t, c.tasks[t].pc.next.value, Entered)), active)
      else CommitFails(c, active, t)
    else if !c.lock.CommitNext? || c.lock.task != t || !c.state.Renewing? then Blocked
    else
      var (lease, next, step) := (c.state.held, c.lock.next, c.lock.step);
      match e
      case RenewLive(_, now) =>
        if step != Entered then Blocked
        else if Live(lease.current, now) then Went(c.(lock := c.lock.(step := CurrentLive)), active)
        else CommitFails(c, active, t)
      case RenewNextLive(_, now) =>
        if step != CurrentLive then Blocked
        else if Live(next, now) then Went(c.(lock := c.lock.(step := NextLive)), active)
        else CommitFails(c, active, t)
      case RenewPermit(_, now) =>
        if step != NextLive then Blocked
        else if Permits(Last(deny), next.grant.id, now) then Went(c.(lock := c.lock.(step := Permitted)), active)
        else CommitFails(c, active, t)
      case RenewPublish(_) =>
        // `send_replace` takes the channel's write lock: it waits for the watchdog's read guard.
        if step != Permitted || GuardHeld(c.watchdog) || c.cell.None? then Blocked
        else Went(c.(lock := c.lock.(step := Published), cell := Some(Cell(next, c.cell.value.version + 1))), active)
      case RenewLook(_) =>
        if step != Published then Blocked
        else if c.closed then CommitFails(c, active, t)
        else Went(c.(lock := c.lock.(step := StillOpen)), active)
      case RenewFinish(_) =>
        if step != StillOpen then Blocked
        else Went(With(c, t, c.tasks[t].(pc := Committed, accepted := Some(|c.log|))).(
                    lock := Free, state := Granted(lease.(current := next)), log := c.log + [Commit(t, next)]), active)
  }

  /** The end of the task: FIN on success, otherwise the guard, and then the send stream's own drop,
      which finishes the stream if the connection is still open. */
  function Ending(c: Conn, active: set<GrantId>, e: Event): Outcome
    requires EndingEvent(e)
  {
    var t := e.t;
    if t !in c.tasks then Blocked
    else
      var k := c.tasks[t];
      match e
      case Finish(_, ok) =>
        if k.pc != Committed then Blocked
        else if ok then Went(With(c, t, FinishStream(c, k).(pc := Done, armed := false)), active)
        else Went(Goto(c, t, Failing), active)
      case Cancel(_) =>
        if Inside(c, t) || k.pc.Failing? || k.pc.StateClosed? || k.pc.Hanging? || k.pc.Done? then Blocked
        else Went(Goto(c, t, if k.armed then Failing else Hanging), active)
      case CloseState(_) =>
        if k.pc != Failing || c.lock != Free then Blocked
        else Went(TakeState(Goto(c, t, StateClosed), Guard(t)), active)
      case Hang(_) =>
        if k.pc != StateClosed || (c.dropping.Some? && c.dropping.value.1 == Guard(t)) then Blocked
        else Went(Goto(c, t, Hanging).(closed := true), active)
      case DropSend(_) =>
        if k.pc != Hanging then Blocked
        else Went(With(c, t, FinishStream(c, k).(pc := Done)), active)
  }

  // ---- the watchdog ----

  function Judge(snapshot: RevocationPolicy, a: ActiveGrant, first: Option<Reading>,
                 second: Option<Reading>): Option<Cause> {
    if !Fresh(snapshot, first) then Some(Cause.PolicyStale)
    else if a.grant.id in snapshot.ids then Some(GrantRevoked)
    else if second.None? then Some(NoClock)
    else if !Live(a, second) then Some(Cause.GrantExpired)
    else None
  }

  function WatchStep(c: Conn, active: set<GrantId>, deny: seq<RevocationPolicy>, e: Event): Outcome
    requires WatchEvent(e)
    requires deny != []
  {
    var w := c.watchdog;
    match e
    case Snap => if !w.Top? then Blocked else Went(c.(watchdog := Snapped(|deny| - 1)), active)
    case TakeGuard =>
      if !w.Snapped? || c.cell.None? then Blocked
      else Went(c.(watchdog := Guarded(w.seen, c.cell.value.version, c.cell.value.value)), active)
    case Decide(first, second) =>
      if !w.Guarded? || w.seen >= |deny| then Blocked
      else
        var cause := Judge(deny[w.seen], w.active, first, second);
        if cause.Some? then Went(c.(watchdog := Condemned(Verdict(cause.value, w.active))), active)
        else Went(c.(watchdog := Parked(w.seen, w.cellSeen, w.active)), active)
    case Strike =>
      if !w.Condemned? then Blocked
      else Went(c.(watchdog := Exited, closed := true, verdict := Some(w.verdict)), active)
    case Wake =>
      // A timer of at most one second runs beside the two channels, so waking is always possible.
      if !w.Parked? then Blocked else Went(c.(watchdog := Top(w.seen)), active)
    case Retire(closing) =>
      if (w.Parked? && (c.closed || c.orphaned)) || (w.Top? && c.orphaned) then
        Went(c.(watchdog := Exited, closed := c.closed || (closing && c.orphaned)), active)
      else Blocked
  }

  function LocalStep(d: Deployment, c: Conn, active: set<GrantId>, deny: seq<RevocationPolicy>, e: Event): Outcome
    requires deny != []
  {
    if e.Accept? then Arrive(c, active, e.t, e.renewal, e.token)
    else if TeardownEvent(e) then Teardown(c, active, e)
    else if ClientEvent(e) then ClientStep(c, active, e)
    else if OpeningEvent(e) then Opening(d, c, active, e)
    else if InstallEvent(e) then InstallStep(c, active, deny, e)
    else if MiddleEvent(e) then Middle(c, active, e)
    else if CommitEvent(e) then CommitStep(c, active, deny, e)
    else if RenewEvent(e) then RenewStep(c, active, deny, e)
    else if EndingEvent(e) then Ending(c, active, e)
    else WatchStep(c, active, deny, e)
  }

  // ---- the whole agent ----

  /** `deny` is every value the denylist has had; its last element is the current one. */
  datatype Agent = Agent(conns: map<ConnId, Conn>, active: set<GrantId>, deny: seq<RevocationPolicy>)

  datatype Action =
    | Connect(conn: ConnId, required: bool, peer: Key, audience: Key)
    | On(conn: ConnId, e: Event)
    | Deny(op: Op)

  const START := Agent(map[], {}, [Revocations.DEFAULT])

  function NewConn(required: bool, peer: Key, audience: Key): Conn {
    Conn(peer, audience, if required then Pending else Open, Free, false, None, false,
         None, Unborn, map[], None, [], None)
  }

  /** An action that is not enabled changes nothing, so every sequence of actions is a run. */
  function Act(d: Deployment, s: Agent, a: Action): Agent
    requires s.deny != []
  {
    match a
    case Connect(id, required, peer, audience) =>
      if id in s.conns then s else s.(conns := s.conns[id := NewConn(required, peer, audience)])
    case On(id, e) =>
      if id !in s.conns then s
      else
        var o := LocalStep(d, s.conns[id], s.active, s.deny, e);
        if o.Blocked? then s else s.(conns := s.conns[id := o.c], active := o.active)
    case Deny(op) =>
      var next := Apply(op, Last(s.deny));
      if next.None? then s else s.(deny := s.deny + [next.value])
  }

  function Exec(d: Deployment, run: seq<Action>): (s: Agent)
    ensures s.deny != []
  {
    if run == [] then START else Act(d, Exec(d, run[..|run| - 1]), Last(run))
  }
}
