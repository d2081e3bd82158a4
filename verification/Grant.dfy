/** Capability grants (rds-core `grant`): decoding bounds, verification, identity and renewal.
    Ed25519, BLAKE3, postcard and the scope-path grammar enter as the functions of a `Codec`. */
module Grant {
  import opened Prelude
  import opened Clock

  const SKEW_SECS: nat := 30
  const GRANT_VERSION: nat := 3
  const GRANT_VERSION_MIN: nat := 2
  const MAX_PAYLOAD_LEN: nat := 4096
  const MAX_SERVICES: nat := 32
  const MAX_TCP_PORTS: nat := 128
  const MAX_DISPLAYS: nat := 32
  const MAX_TENANT_LEN: nat := 64
  const MAX_SYNC_PATHS: nat := 64
  const SIGNATURE_LEN: nat := 64

  type Key = k: Bytes | |k| == 32 witness seq(32, _ => 0)
  type Nonce = k: Bytes | |k| == 16 witness seq(16, _ => 0)
  type GrantId = Bytes

  datatype ServiceKind =
    | Ping | Info | Tcp | Desktop | Sync | Audio
    | SyncRead | SyncWrite | DesktopView | DesktopControl

  datatype GrantConstraints = GrantConstraints(
    maxBps: Option<U64>,
    tcpPorts: Option<seq<nat>>,
    displays: Option<seq<nat>>,
    syncPaths: Option<seq<Bytes>>)

  datatype GrantPayload = GrantPayload(
    version: nat,
    revision: U64,
    issuer: Key,
    subject: Key,
    audience: Key,
    nonce: Nonce,
    services: seq<ServiceKind>,
    notBefore: U64,
    expiresAt: U64,
    constraints: GrantConstraints,
    tenant: Option<Bytes>,
    policyRevision: Option<U64>)

  /** The frozen version-2 layout: no claims and no sync paths. */
  datatype GrantPayloadV2 = GrantPayloadV2(
    version: nat,
    revision: U64,
    issuer: Key,
    subject: Key,
    audience: Key,
    nonce: Nonce,
    services: seq<ServiceKind>,
    notBefore: U64,
    expiresAt: U64,
    maxBps: Option<U64>,
    tcpPorts: Option<seq<nat>>,
    displays: Option<seq<nat>>)
  {
    function Upgrade(): GrantPayload {
      GrantPayload(version, revision, issuer, subject, audience, nonce, services, notBefore, expiresAt,
                   GrantConstraints(maxBps, tcpPorts, displays, None), None, None)
    }
  }

  /** A grant on the wire: payload bytes and the issuer's signature over them. */
  datatype Token = Token(payload: Bytes, signature: Bytes)

  datatype VerifiedGrant = VerifiedGrant(payload: GrantPayload, id: GrantId)

  datatype GrantError =
    | Malformed | UntrustedIssuer | BadSignature | WrongSubject | WrongAudience
    | TenantMismatch | PolicyRevisionStale | Version | InvalidInterval | InvalidRevision
    | InvalidRenewal | NotYetValid | Expired | TtlExceeded | Oversized

  /** Foreign code. The decoders return the value and the bytes left over. */
  datatype Codec = Codec(
    peekVersion: Bytes -> Option<nat>,
    takeV2: Bytes -> Option<(GrantPayloadV2, Bytes)>,
    takeV3: Bytes -> Option<(GrantPayload, Bytes)>,
    scopePathOk: Bytes -> bool,
    validKey: Key -> bool,
    verifyStrict: (Key, Bytes, Bytes) -> bool,
    hash: Bytes -> Bytes)

  /** What verification needs of the deployment (rds-agent `AgentPolicy`). */
  datatype Config = Config(
    codec: Codec,
    issuers: set<Key>,
    maxTtl: Duration,
    tenant: Option<Bytes>,
    minPolicyRevision: Option<U64>)

  // ASCII of "rds/capability-grant/v2\0", ".../v3\0" and "rds/grant-session/v2\0".
  const DOMAIN_STEM: Bytes :=
    [114, 100, 115, 47, 99, 97, 112, 97, 98, 105, 108, 105, 116, 121, 45, 103, 114, 97, 110, 116, 47, 118]
  const DOMAIN_V2: Bytes := DOMAIN_STEM + [50, 0]
  const DOMAIN_V3: Bytes := DOMAIN_STEM + [51, 0]
  const ID_DOMAIN: Bytes :=
    [114, 100, 115, 47, 103, 114, 97, 110, 116, 45, 115, 101, 115, 115, 105, 111, 110, 47, 118, 50, 0]

  function SignatureMessage(version: nat, payload: Bytes): Bytes {
    (if version == GRANT_VERSION_MIN then DOMAIN_V2 else DOMAIN_V3) + payload
  }

  function SessionKey(p: GrantPayload): Bytes {
    ID_DOMAIN + p.issuer + p.subject + p.audience + p.nonce
  }

  function Id(codec: Codec, p: GrantPayload): GrantId {
    codec.hash(SessionKey(p))
  }

  predicate TooLong<T>(s: Option<seq<T>>, limit: nat) {
    s.Some? && |s.value| > limit
  }

  predicate TenantClean(t: Bytes) {
    t != [] && forall i :: 0 <= i < |t| ==> t[i] >= 0x21 && t[i] != 0x7f
  }

  function DecodeLayout(codec: Codec, bytes: Bytes): Result<GrantPayload, GrantError> {
    var version := codec.peekVersion(bytes);
    if version.None? then Err(Malformed)
    else if version.value == GRANT_VERSION_MIN then
      var two := codec.takeV2(bytes);
      if two.None? || two.value.1 != [] then Err(Malformed) else Ok(two.value.0.Upgrade())
    else if version.value == GRANT_VERSION then
      var three := codec.takeV3(bytes);
      if three.None? || three.value.1 != [] then Err(Malformed) else Ok(three.value.0)
    else Err(GrantError.Version)
  }

  function Decode(codec: Codec, token: Token): Result<GrantPayload, GrantError> {
    if |token.payload| > MAX_PAYLOAD_LEN then Err(Oversized)
    else
      var layout := DecodeLayout(codec, token.payload);
      if layout.Err? then layout
      else
        var p := layout.value;
        if p.revision == 0 then Err(InvalidRevision)
        else if p.expiresAt <= p.notBefore then Err(InvalidInterval)
        else if |p.services| > MAX_SERVICES || TooLong(p.constraints.tcpPorts, MAX_TCP_PORTS)
                || TooLong(p.constraints.displays, MAX_DISPLAYS) || TooLong(p.constraints.syncPaths, MAX_SYNC_PATHS)
                || TooLong(p.tenant, MAX_TENANT_LEN)
        then Err(Oversized)
        else if p.tenant.Some? && !TenantClean(p.tenant.value) then Err(Malformed)
        else if p.constraints.syncPaths.Some?
                && exists i :: 0 <= i < |p.constraints.syncPaths.value|
                             && !codec.scopePathOk(p.constraints.syncPaths.value[i])
        then Err(Malformed)
        else Ok(p)
  }

  /** `Grant::verify`, with the checks in the source's order. */
  function Verify(cfg: Config, token: Token, subject: Key, audience: Key, now: U64): Result<VerifiedGrant, GrantError> {
    var decoded := Decode(cfg.codec, token);
    if decoded.Err? then Err(decoded.error)
    else
      var p := decoded.value;
      if p.issuer !in cfg.issuers then Err(UntrustedIssuer)
      else if !cfg.codec.validKey(p.issuer) then Err(Malformed)
      else if |token.signature| != SIGNATURE_LEN then Err(Malformed)
      else if !cfg.codec.verifyStrict(p.issuer, SignatureMessage(p.version, token.payload), token.signature)
      then Err(BadSignature)
      else if p.subject != subject then Err(WrongSubject)
      else if p.audience != audience then Err(WrongAudience)
      else if SaturatingAdd(now, SKEW_SECS) < p.notBefore then Err(NotYetValid)
      else if now >= p.expiresAt then Err(GrantError.Expired)
      else if SaturatingSub(p.expiresAt, p.notBefore) > Seconds(cfg.maxTtl) then Err(TtlExceeded)
      else Ok(VerifiedGrant(p, Id(cfg.codec, p)))
  }

  /** Verification followed by the deployment binding that `authorize` applies. */
  function VerifyBound(cfg: Config, token: Token, subject: Key, audience: Key,
                       now: U64): Result<VerifiedGrant, GrantError> {
    var v := Verify(cfg, token, subject, audience, now);
    if v.Err? then v
    else if cfg.tenant.Some? && v.value.payload.tenant != cfg.tenant then Err(TenantMismatch)
    else if cfg.minPolicyRevision.Some?
            && (v.value.payload.policyRevision.None?
                || v.value.payload.policyRevision.value < cfg.minPolicyRevision.value)
    then Err(PolicyRevisionStale)
    else v
  }

  predicate LiveAt(g: VerifiedGrant, now: U64) {
    SaturatingAdd(now, SKEW_SECS) >= g.payload.notBefore && now < g.payload.expiresAt
  }

  /** `Ok(false)` is an exact retry, `Ok(true)` an extension of the lease. */
  function PermitsRenewal(current: VerifiedGrant, next: VerifiedGrant): Result<bool, GrantError> {
    if current.payload == next.payload then Ok(false)
    else if
      || current.id != next.id
      || current.payload.services != next.payload.services
      || current.payload.constraints != next.payload.constraints
      || current.payload.tenant != next.payload.tenant
      || current.payload.policyRevision != next.payload.policyRevision
      || next.payload.revision <= current.payload.revision
      || next.payload.notBefore < current.payload.notBefore
      || next.payload.expiresAt <= current.payload.expiresAt
    then Err(InvalidRenewal)
    else Ok(true)
  }

  predicate Advances(current: VerifiedGrant, next: VerifiedGrant) {
    PermitsRenewal(current, next) == Ok(true)
  }

  /** The scope of a session: what no renewal may change. */
  predicate SameScope(a: VerifiedGrant, b: VerifiedGrant) {
    && a.id == b.id
    && a.payload.services == b.payload.services
    && a.payload.constraints == b.payload.constraints
    && a.payload.tenant == b.payload.tenant
    && a.payload.policyRevision == b.payload.policyRevision
  }

  predicate Collides(hash: Bytes -> Bytes, x: Bytes, y: Bytes) {
    x != y && hash(x) == hash(y)
  }

  /** Each layout's decoder reports the version that was peeked. */
  ghost predicate DecodersAgree(codec: Codec) {
    && (forall b :: codec.takeV2(b).Some? && codec.peekVersion(b) == Some(GRANT_VERSION_MIN)
                    ==> codec.takeV2(b).value.0.version == GRANT_VERSION_MIN)
    && (forall b :: codec.takeV3(b).Some? && codec.peekVersion(b) == Some(GRANT_VERSION)
                    ==> codec.takeV3(b).value.0.version == GRANT_VERSION)
  }

  /** A signature is accepted only over the domain of the layout it was decoded with: bytes signed
      for one version can never be read as the other. */
  lemma NoVersionConfusion(cfg: Config, token: Token, subject: Key, audience: Key, now: U64, version: nat,
                           payload: Bytes)
    requires DecodersAgree(cfg.codec)
    requires version == GRANT_VERSION_MIN || version == GRANT_VERSION
    requires Verify(cfg, token, subject, audience, now).Ok?
    requires SignatureMessage(Verify(cfg, token, subject, audience, now).value.payload.version, token.payload)
             == SignatureMessage(version, payload)
    ensures payload == token.payload
    ensures cfg.codec.peekVersion(token.payload) == Some(version)
    ensures version == GRANT_VERSION_MIN ==>
              var p := Verify(cfg, token, subject, audience, now).value.payload;
              p.tenant.None? && p.policyRevision.None? && p.constraints.syncPaths.None?
  {
    var p := Verify(cfg, token, subject, audience, now).value.payload;
    assert p.version == GRANT_VERSION_MIN || p.version == GRANT_VERSION;
    var m, m' := SignatureMessage(p.version, token.payload), SignatureMessage(version, payload);
    var at := |DOMAIN_STEM|;
    assert m[at] == (if p.version == GRANT_VERSION_MIN then 50 else 51);
    assert m'[at] == (if version == GRANT_VERSION_MIN then 50 else 51);
    assert p.version == version;
    assert m[at + 2..] == token.payload;
    assert m'[at + 2..] == payload;
  }

  /** The id names one session: short of a hash collision two grants share it exactly when they
      share issuer, subject, audience and nonce, so the replay guard and the denylist cover every
      revision of a session and nothing else. */
  lemma IdNamesSession(codec: Codec, a: GrantPayload, b: GrantPayload)
    ensures Id(codec, a) == Id(codec, b)
            <==> || (a.issuer == b.issuer && a.subject == b.subject && a.audience == b.audience && a.nonce == b.nonce)
                 || Collides(codec.hash, SessionKey(a), SessionKey(b))
  {
    if SessionKey(a) == SessionKey(b) {
      var n := |ID_DOMAIN|;
      assert SessionKey(a)[n..n + 32] == a.issuer && SessionKey(b)[n..n + 32] == b.issuer;
      assert SessionKey(a)[n + 32..n + 64] == a.subject && SessionKey(b)[n + 32..n + 64] == b.subject;
      assert SessionKey(a)[n + 64..n + 96] == a.audience && SessionKey(b)[n + 64..n + 96] == b.audience;
      assert SessionKey(a)[n + 96..] == a.nonce && SessionKey(b)[n + 96..] == b.nonce;
    }
  }

  /** Renewal is a strict order on the grants of one scope: revision and expiry strictly increase, so
      no chain of renewals can come back to a grant it has left. */
  lemma RenewalOrder(a: VerifiedGrant, b: VerifiedGrant, c: VerifiedGrant)
    requires Advances(a, b)
    ensures SameScope(a, b) && PermitsRenewal(b, a) == Err(InvalidRenewal)
    ensures Advances(b, c) ==> Advances(a, c)
  {
  }

  /** What an accepted token establishes, whatever else it says. */
  lemma VerifiedClaims(cfg: Config, token: Token, subject: Key, audience: Key, now: U64)
    requires VerifyBound(cfg, token, subject, audience, now).Ok?
    ensures var g := VerifyBound(cfg, token, subject, audience, now).value;
            && g.payload.issuer in cfg.issuers
            && cfg.codec.verifyStrict(g.payload.issuer, SignatureMessage(g.payload.version, token.payload),
                                      token.signature)
            && g.payload.subject == subject && g.payload.audience == audience
            && (cfg.tenant.Some? ==> g.payload.tenant == cfg.tenant)
            && (cfg.minPolicyRevision.Some? ==>
                  g.payload.policyRevision.Some? && g.payload.policyRevision.value >= cfg.minPolicyRevision.value)
            && LiveAt(g, now)
            && g.payload.expiresAt - g.payload.notBefore <= Seconds(cfg.maxTtl)
            && g.id == Id(cfg.codec, g.payload)
  {
  }
}
