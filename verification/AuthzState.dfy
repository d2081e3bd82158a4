/** The admission state of one connection (rds-agent `authz`) and the decisions taken under its mutex. */
module AuthzState {
  import opened Prelude
  import opened Clock
  import opened Grant
  import opened Revocations

  /** An accepted grant with the deadline it was accepted under. */
  datatype ActiveGrant = ActiveGrant(grant: VerifiedGrant, validity: Lease)

  /** `slot` is the replay reservation. The update channel and the watchdog are kept per connection
      in the protocol, because a connection has at most one lease in its whole life. */
  datatype GrantLease = GrantLease(current: ActiveGrant, slot: GrantId)

  datatype State =
    | Open
    | Pending
    | Authorizing(pending: Option<GrantLease>)
    | Granted(held: GrantLease)
    | Renewing(held: GrantLease)
    | Closed

  datatype AuthzError =
    | NotRequired | AlreadyAuthorizing | ConnectionClosed
    | Interrupted | PolicyStale | Revoked | DestinationMismatch | ClockUnavailable
    | AlreadyInUse | GrantExpired | LeaseInvalid
    | RenewalNeedsGrant | PreviousExpired | BadRenewal

  datatype ScopeError = ScopePending | ScopeAuthorizing | ScopeClosed | ScopeExpired | ScopeRevoked | ScopePolicyStale

  function LeaseOf(s: State): Option<GrantLease> {
    match s
    case Authorizing(l) => l
    case Granted(l) => Some(l)
    case Renewing(l) => Some(l)
    case _ => None
  }

  function NewActive(g: VerifiedGrant, now: Reading): Result<ActiveGrant, AuthzError> {
    if !LiveAt(g, Seconds(now.wall)) then Err(GrantExpired)
    else
      var l := NewLease(Seconds(now.wall), g.payload.expiresAt, now);
      if l.Err? then Err(LeaseInvalid) else Ok(ActiveGrant(g, l.value))
  }

  /** `now` is `None` when the clock cannot be read. */
  predicate Live(a: ActiveGrant, now: Option<Reading>) {
    now.Some? && LiveAt(a.grant, Seconds(now.value.wall)) && ValidAt(a.validity, now.value)
  }

  /** `ConnAuthz::begin` and `begin_renewal`: the new state and the refusal, if any. */
  function Begin(s: State, renewal: bool): (State, Option<AuthzError>) {
    if renewal then
      if s.Granted? then (Renewing(s.held), None) else (s, Some(RenewalNeedsGrant))
    else match s
      case Pending => (Authorizing(None), None)
      case Open => (s, Some(NotRequired))
      case Closed => (s, Some(ConnectionClosed))
      case _ => (s, Some(AlreadyAuthorizing))
  }

  function PrepareRenewal(s: State, next: VerifiedGrant, now: Option<Reading>): Result<ActiveGrant, AuthzError> {
    if !s.Renewing? then Err(Interrupted)
    else if now.None? then Err(ClockUnavailable)
    else if !Live(s.held.current, now) then Err(PreviousExpired)
    else
      var advance := PermitsRenewal(s.held.current.grant, next);
      if advance.Err? then Err(BadRenewal)
      else if advance.value then NewActive(next, now.value)
      else Ok(s.held.current)
  }

  /** `ConnAuthz::scope`: `first` is the reading of the liveness check, `second` of the freshness check. */
  function Scope(s: State, denied: RevocationPolicy, first: Option<Reading>, second: Option<Reading>)
    : Result<Option<VerifiedGrant>, ScopeError>
  {
    match s
    case Open => Ok(None)
    case Pending => Err(ScopePending)
    case Authorizing(_) => Err(ScopeAuthorizing)
    case Closed => Err(ScopeClosed)
    case _ =>
      var a := LeaseOf(s).value.current;
      if !Live(a, first) then Err(ScopeExpired)
      else if !Fresh(denied, second) then Err(ScopePolicyStale)
      else if a.grant.id in denied.ids then Err(ScopeRevoked)
      else Ok(Some(a.grant))
  }

  // ---- deadlines ----

  /** An exact retry keeps the very same grant and deadline; an extension is a new lease for a grant
      that renews the old one. */
  predicate Follows(a: ActiveGrant, b: ActiveGrant) {
    a == b || Advances(a.grant, b.grant)
  }

  /** `a` was accepted at some reading of the clock. */
  ghost predicate AcceptedOnce(a: ActiveGrant) {
    exists now: Reading :: NewActive(a.grant, now) == Ok(a)
  }

  /** No accepted grant, whatever the two clocks do afterwards, is usable for longer than the largest
      lifetime the agent accepts plus the tolerated issuer skew. */
  lemma LifetimeBound(cfg: Config, a: ActiveGrant, now: Reading)
    requires a.grant.payload.expiresAt - a.grant.payload.notBefore <= Seconds(cfg.maxTtl)
    requires AcceptedOnce(a)
    requires Live(a, Some(now))
    ensures RemainingAt(a.validity, now) <= (Seconds(cfg.maxTtl) + SKEW_SECS) * NANOS
    ensures a.validity.deadline - a.validity.acceptedContinuous <= (Seconds(cfg.maxTtl) + SKEW_SECS) * NANOS
  {
    var start: Reading :| NewActive(a.grant, start) == Ok(a);
    var p := a.grant.payload;
    assert Seconds(start.wall) + SKEW_SECS >= p.notBefore;
    assert p.expiresAt <= Seconds(start.wall) + (Seconds(cfg.maxTtl) + SKEW_SECS);
    assert p.expiresAt * NANOS <= Seconds(start.wall) * NANOS + (Seconds(cfg.maxTtl) + SKEW_SECS) * NANOS;
    LeaseSpan(Seconds(start.wall), p.expiresAt, start, now);
  }
}
