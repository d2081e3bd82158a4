/** Append-only, hash-chained evidence receipts (rds-bench `receipt`). */
module Receipts {
  import opened Prelude
  import opened HashChain

  /** Field names: those of the receipt schema, and all others, numbered. */
  datatype Name =
    | SchemaVersion | Kind | Subject | Status | TsUnix | CommitSha | Dirty | BinaryDigest | LockfileDigest
    | Toolchain | Features | Os | Arch | Topology | Repetitions | Failures | Skips | Budgets | Reports | Note
    | PrevHash | Hash | Path | Blake3
    | Other(index: nat)

  datatype Json =
    | Null
    | Bool(flag: bool)
    | Num(number: int)
    | Float(bits: nat)
    | Str(text: string)
    | Arr(items: seq<Json>)
    | Obj(fields: map<Name, Json>)

  /** The JSON printer (sorted keys, so a function of the value), the parser, and the hex digest of a
      text's bytes. */
  datatype Format = Format(show: Json -> string, parse: string -> Option<Json>, digest: string -> string)

  const SCHEMA_VERSION := 1
  const GENESIS := "genesis"
  const STATUSES := ["pass", "fail", "partial"]

  predicate HexDigit(c: char) {
    '0' <= c <= '9' || 'a' <= c <= 'f' || 'A' <= c <= 'F'
  }

  predicate Digest(s: string) {
    |s| == 64 && forall i :: 0 <= i < |s| ==> HexDigit(s[i])
  }

  /** Whitespace JSON allows around a value. */
  predicate JsonSpace(c: char) {
    c == ' ' || c == '\t' || c == '\n' || c == '\r'
  }

  /** Whitespace as the trimming of a line sees it. */
  predicate Space(c: char) {
    var n := c as int;
    || 9 <= n <= 13 || n == 32 || n == 0x85 || n == 0xA0 || n == 0x1680 || 0x2000 <= n <= 0x200A
    || n == 0x2028 || n == 0x2029 || n == 0x202F || n == 0x205F || n == 0x3000
  }

  predicate Blank(line: string) {
    forall i :: 0 <= i < |line| ==> Space(line[i])
  }

  predicate JsonBlank(s: string) {
    forall i :: 0 <= i < |s| ==> JsonSpace(s[i])
  }

  // ---- what is relied on from JSON and the digest ----

  /** Different values print differently. */
  ghost predicate Faithful(f: Format) {
    forall x, y :: f.show(x) == f.show(y) ==> x == y
  }

  /** A hash that was printed is read back as it was, or the whole is refused. Nothing is said of the
      rest: the parser limits nesting and may round floating-point numbers. */
  ghost predicate Reads(f: Format) {
    forall v: Json :: f.parse(f.show(v)).Some? ==> Text(f.parse(f.show(v)).value, Hash) == Text(v, Hash)
  }

  ghost predicate Lays(f: Format) {
    forall v: Json :: v.Obj? ==> OneLine(f.show(v))
  }

  ghost predicate Joins(f: Format) {
    forall s: string, v: Json :: v.Obj? ==> Follows(f, s, v)
  }

  ghost predicate Digests(f: Format) {
    forall s :: Digest(f.digest(s))
  }

  ghost predicate Sound(f: Format) {
    Faithful(f) && Reads(f) && Lays(f) && Joins(f) && Digests(f)
  }

  /** An object prints on one line, between braces. */
  predicate OneLine(s: string) {
    |s| >= 2 && s[0] == '{' && Last(s) == '}' && '\n' !in s
  }

  /** How text before an object is read: JSON whitespace changes nothing; a complete value, or
      whitespace JSON does not know, makes the whole unreadable. */
  predicate Follows(f: Format, s: string, v: Json) {
    && (JsonBlank(s) ==> f.parse(s + f.show(v)) == f.parse(f.show(v)))
    && (!JsonBlank(s) && (Blank(s) || f.parse(s).Some?) ==> f.parse(s + f.show(v)) == None)
  }

  // ---- one receipt ----

  function Text(v: Json, k: Name): Option<string> {
    if v.Obj? && k in v.fields && v.fields[k].Str? then Some(v.fields[k].text) else None
  }

  predicate NonEmpty(v: Json, k: Name) {
    Text(v, k).Some? && Text(v, k).value != ""
  }

  /** The evidence: what was run, how it ended and when. */
  predicate Evidence(v: Json) {
    && v.Obj?
    && SchemaVersion in v.fields && v.fields[SchemaVersion] == Num(SCHEMA_VERSION)
    && NonEmpty(v, Kind) && NonEmpty(v, Subject) && NonEmpty(v, Status) && NonEmpty(v, Topology)
    && Text(v, Status).value in STATUSES
    && TsUnix in v.fields && v.fields[TsUnix].Num? && 0 < v.fields[TsUnix].number <= U64_MAX
  }

  /** The build identity. */
  predicate Build(v: Json) {
    && NonEmpty(v, CommitSha) && NonEmpty(v, BinaryDigest) && NonEmpty(v, LockfileDigest)
    && NonEmpty(v, Toolchain) && NonEmpty(v, Os) && NonEmpty(v, Arch)
    && Digest(Text(v, BinaryDigest).value) && Digest(Text(v, LockfileDigest).value)
  }

  predicate Typed(v: Json) {
    && v.Obj?
    && Dirty in v.fields && v.fields[Dirty].Bool?
    && Features in v.fields && v.fields[Features].Arr?
    && Reports in v.fields && v.fields[Reports].Arr?
    && (Budgets in v.fields ==> v.fields[Budgets].Null? || v.fields[Budgets].Obj?)
  }

  predicate Shaped(v: Json) {
    Evidence(v) && Build(v) && Typed(v) && Text(v, Hash).Some? && Digest(Text(v, Hash).value)
  }

  function Unsigned(v: Json): Json
    requires v.Obj?
  {
    Obj(v.fields - {Hash})
  }

  /** The hash a receipt should carry. */
  function Want(f: Format, v: Json): string
    requires v.Obj?
  {
    f.digest(f.show(Unsigned(v)))
  }

  predicate Link(f: Format, prev: string, v: Json) {
    Shaped(v) && Text(v, PrevHash) == Some(prev) && Text(v, Hash) == Some(Want(f, v))
  }

  function HashOf(v: Json): string {
    if Text(v, Hash).Some? then Text(v, Hash).value else ""
  }

  /** Two receipts whose different hashed texts have one digest. */
  predicate Collision(f: Format, a: Json, b: Json) {
    a.Obj? && b.Obj? && f.show(Unsigned(a)) != f.show(Unsigned(b)) && Want(f, a) == Want(f, b)
  }

  function RulesOf(f: Format): Rules<Json> {
    Rules(GENESIS, (p, v) => Link(f, p, v), v => HashOf(v), (a, b) => Collision(f, a, b))
  }

  // ---- a hash binds a receipt ----

  lemma SameFields(a: map<Name, Json>, b: map<Name, Json>)
    requires a - {Hash} == b - {Hash}
    requires Hash in a && Hash in b && a[Hash] == b[Hash]
    ensures a == b
  {
    forall k
      ensures k in a <==> k in b
    {
      assert k != Hash ==> (k in a <==> k in a - {Hash}) && (k in b <==> k in b - {Hash});
    }
    forall k | k in a
      ensures a[k] == b[k]
    {
      assert k != Hash ==> a[k] == (a - {Hash})[k] && b[k] == (b - {Hash})[k];
    }
  }

  lemma SameReceipt(f: Format, p: string, a: Json, q: string, b: Json)
    requires Faithful(f) && Link(f, p, a) && Link(f, q, b) && HashOf(a) == HashOf(b)
    ensures (p == q && a == b) || Collision(f, a, b)
  {
    if f.show(Unsigned(a)) == f.show(Unsigned(b)) {
      assert Unsigned(a) == Unsigned(b);
      assert Text(a, Hash) == Text(b, Hash);
      SameFields(a.fields, b.fields);
    }
  }

  lemma ReceiptsBind(f: Format)
    requires Faithful(f)
    ensures Binding(RulesOf(f))
  {
    var r := RulesOf(f);
    forall p, q, a, b | r.link(p, a) && r.link(q, b) && r.hash(a) == r.hash(b)
      ensures (p == q && a == b) || r.clash(a, b)
    {
      SameReceipt(f, p, a, q, b);
    }
    forall p, a | r.link(p, a)
      ensures r.hash(a) != r.genesis
    {
      assert |GENESIS| == 7 && |HashOf(a)| == 64;
    }
  }

  // ---- the receipt that is appended ----

  datatype Env = Env(
    commitSha: string, dirty: bool, binaryDigest: string, lockfileDigest: string, toolchain: string,
    features: seq<string>, os: string, arch: string)

  datatype ReportRef = ReportRef(path: string, blake3: string)

  datatype Input = Input(
    kind: string, subject: string, status: string, topology: string,
    repetitions: Option<nat>, failures: Option<nat>, skips: Option<nat>,
    budgets: Option<Json>, reports: seq<ReportRef>, note: Option<string>)

  function Number(n: Option<nat>): Json {
    if n.Some? then Num(n.value) else Null
  }

  function Strings(texts: seq<string>): Json {
    Arr(seq(|texts|, i requires 0 <= i < |texts| => Str(texts[i])))
  }

  function Cited(reports: seq<ReportRef>): Json {
    Arr(seq(|reports|, i requires 0 <= i < |reports| =>
              Obj(map[Path := Str(reports[i].path), Blake3 := Str(reports[i].blake3)])))
  }

  /** Everything except the line hash. */
  function CoreFields(env: Env, input: Input, ts: U64, prev: string): map<Name, Json> {
    map[SchemaVersion := Num(SCHEMA_VERSION), Kind := Str(input.kind), Subject := Str(input.subject),
        Status := Str(input.status), TsUnix := Num(ts), CommitSha := Str(env.commitSha), Dirty := Bool(env.dirty),
        BinaryDigest := Str(env.binaryDigest), LockfileDigest := Str(env.lockfileDigest),
        Toolchain := Str(env.toolchain), Features := Strings(env.features), Os := Str(env.os), Arch := Str(env.arch),
        Topology := Str(input.topology), Repetitions := Number(input.repetitions),
        Failures := Number(input.failures), Skips := Number(input.skips),
        Budgets := if input.budgets.Some? then input.budgets.value else Null, Reports := Cited(input.reports),
        Note := if input.note.Some? then Str(input.note.value) else Null, PrevHash := Str(prev)]
  }

  function Core(env: Env, input: Input, ts: U64, prev: string): (core: Json)
    ensures core.Obj? && Hash !in core.fields
  {
    Obj(CoreFields(env, input, ts, prev))
  }

  function Receipt(f: Format, env: Env, input: Input, ts: U64, prev: string): (v: Json)
    ensures v.Obj?
  {
    var core := Core(env, input, ts, prev);
    Obj(core.fields[Hash := Str(f.digest(f.show(core)))])
  }

  /** What appending checks of its input. */
  predicate Accepted(input: Input) {
    && input.kind != "" && input.subject != "" && input.status in STATUSES
    && (input.budgets.Some? ==> input.budgets.value.Obj?)
  }

  /** What validating asks for and appending does not check. */
  predicate Complete(env: Env, input: Input, ts: U64) {
    && input.topology != "" && ts > 0
    && env.commitSha != "" && env.toolchain != "" && env.os != "" && env.arch != ""
    && Digest(env.binaryDigest) && Digest(env.lockfileDigest)
  }

  lemma UnsignedReceipt(f: Format, env: Env, input: Input, ts: U64, prev: string)
    ensures Unsigned(Receipt(f, env, input, ts, prev)) == Core(env, input, ts, prev)
  {
    var core := Core(env, input, ts, prev).fields;
    assert core[Hash := Str(f.digest(f.show(Obj(core))))] - {Hash} == core;
  }

  lemma ReceiptSubject(f: Format, env: Env, input: Input, ts: U64, prev: string)
    ensures var v := Receipt(f, env, input, ts, prev);
            && Text(v, Kind) == Some(input.kind) && Text(v, Subject) == Some(input.subject)
            && Text(v, Status) == Some(input.status)
  {
  }

  lemma ReceiptRun(f: Format, env: Env, input: Input, ts: U64, prev: string)
    ensures var v := Receipt(f, env, input, ts, prev);
            && Text(v, Topology) == Some(input.topology)
            && SchemaVersion in v.fields && v.fields[SchemaVersion] == Num(SCHEMA_VERSION)
            && TsUnix in v.fields && v.fields[TsUnix] == Num(ts)
  {
  }

  lemma ReceiptEvidence(f: Format, env: Env, input: Input, ts: U64, prev: string)
    requires Accepted(input)
    ensures Evidence(Receipt(f, env, input, ts, prev)) <==> input.topology != "" && ts > 0
  {
    ReceiptSubject(f, env, input, ts, prev);
    ReceiptRun(f, env, input, ts, prev);
  }

  lemma ReceiptHost(f: Format, env: Env, input: Input, ts: U64, prev: string)
    ensures var v := Receipt(f, env, input, ts, prev);
            Text(v, Toolchain) == Some(env.toolchain) && Text(v, Os) == Some(env.os) && Text(v, Arch) == Some(env.arch)
  {
  }

  lemma ReceiptSources(f: Format, env: Env, input: Input, ts: U64, prev: string)
    ensures var v := Receipt(f, env, input, ts, prev);
            && Text(v, CommitSha) == Some(env.commitSha)
            && Text(v, BinaryDigest) == Some(env.binaryDigest) && Text(v, LockfileDigest) == Some(env.lockfileDigest)
  {
  }

  lemma ReceiptBuild(f: Format, env: Env, input: Input, ts: U64, prev: string)
    ensures Build(Receipt(f, env, input, ts, prev)) <==>
            && env.commitSha != "" && env.toolchain != "" && env.os != "" && env.arch != ""
            && Digest(env.binaryDigest) && Digest(env.lockfileDigest)
  {
    ReceiptHost(f, env, input, ts, prev);
    ReceiptSources(f, env, input, ts, prev);
  }

  lemma ReceiptTyped(f: Format, env: Env, input: Input, ts: U64, prev: string)
    requires Accepted(input)
    ensures Typed(Receipt(f, env, input, ts, prev))
    ensures Text(Receipt(f, env, input, ts, prev), Hash) == Some(f.digest(f.show(Core(env, input, ts, prev))))
    ensures Text(Receipt(f, env, input, ts, prev), PrevHash) == Some(prev)
  {
  }

  lemma ReceiptSigned(f: Format, env: Env, input: Input, ts: U64, prev: string)
    requires Accepted(input)
    ensures var v := Receipt(f, env, input, ts, prev); Text(v, Hash) == Some(Want(f, v))
  {
    UnsignedReceipt(f, env, input, ts, prev);
    ReceiptTyped(f, env, input, ts, prev);
  }

  /** The appended receipt continues the chain exactly when it is complete. */
  lemma ReceiptLinks(f: Format, env: Env, input: Input, ts: U64, prev: string)
    requires Digests(f) && Accepted(input)
    ensures Link(f, prev, Receipt(f, env, input, ts, prev)) <==> Complete(env, input, ts)
  {
    UnsignedReceipt(f, env, input, ts, prev);
    ReceiptEvidence(f, env, input, ts, prev);
    ReceiptBuild(f, env, input, ts, prev);
    ReceiptTyped(f, env, input, ts, prev);
  }
}
