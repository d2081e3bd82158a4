/** Canonical TCP destinations (rds-core `tcp_target`) and the policy lookup that compares them. A
    text is the sequence of its bytes, each written as the character with that code. */
module TcpTarget {
  import opened Prelude

  // ---- IP addresses ----

  type Bits32 = n: nat | n < 0x1_0000_0000

  type Bits128 = n: nat | n < 0x1_0000_0000_0000_0000_0000_0000_0000_0000

  datatype Ip = V4(octets: Bits32) | V6(segments: Bits128)

  /** An IPv4-mapped IPv6 address is the IPv4 address. */
  function ToCanonical(ip: Ip): Ip {
    if ip.V6? && ip.segments / 0x1_0000_0000 == 0xFFFF then V4(ip.segments % 0x1_0000_0000) else ip
  }

  predicate Unicast(ip: Ip) {
    && (ip.V4? ==> ip.octets != 0 && ip.octets / 0x1000_0000 != 0xE && ip.octets != 0xFFFF_FFFF)
    && (ip.V6? ==> ip.segments != 0 && ip.segments / 0x1_0000_0000_0000_0000_0000_0000_0000_00 != 0xFF)
  }

  /** The address parser and printer of the standard library. */
  datatype Net = Net(parse: string -> Option<Ip>, show: Ip -> string)

  /** What is relied on from them. */
  ghost predicate Sound(net: Net) {
    && (forall ip :: net.parse(net.show(ip)) == Some(ip))
    && (forall ip :: Literal(ip, net.show(ip)))
    && (forall s :: net.parse(Lower(s)) == net.parse(s))
  }

  predicate Literal(ip: Ip, s: string) {
    && 0 < |s| <= 45 && s[0] != '[' && Last(s) != '.' && ']' !in s
    && (':' in s <==> ip.V6?)
  }

  // ---- hosts ----

  function LowerChar(c: char): char {
    if 'A' <= c <= 'Z' then c + 32 as char else c
  }

  function Lower(s: string): (r: string)
    ensures |r| == |s| && forall i :: 0 <= i < |s| ==> r[i] == LowerChar(s[i])
  {
    seq(|s|, i requires 0 <= i < |s| => LowerChar(s[i]))
  }

  predicate Digit(c: char) {
    '0' <= c <= '9'
  }

  predicate HostChar(c: char) {
    Digit(c) || 'a' <= c <= 'z' || 'A' <= c <= 'Z' || c == '.' || c == '-' || c == '_'
  }

  /** Index of the first occurrence, or the length. */
  function Find(s: string, c: char): (i: nat)
    ensures i <= |s| && (i < |s| ==> s[i] == c)
    ensures forall j :: 0 <= j < i ==> s[j] != c
  {
    if s == "" || s[0] == c then 0 else 1 + Find(s[1..], c)
  }

  function TrimDots(s: string): string {
    if s != "" && Last(s) == '.' then TrimDots(s[..|s| - 1]) else s
  }

  /** Every label between dots has 1 to 63 bytes. */
  predicate LabelsOk(s: string) {
    var i := Find(s, '.');
    0 < i <= 63 && (i < |s| ==> LabelsOk(s[i + 1..]))
  }

  predicate HostChars(s: string) {
    forall i :: 0 <= i < |s| ==> HostChar(s[i])
  }

  predicate Numeric(s: string) {
    forall i :: 0 <= i < |s| ==> Digit(s[i]) || s[i] == '.'
  }

  predicate HostName(s: string) {
    && HostChars(s) && !Numeric(s)
    && LabelsOk(TrimDots(s))
    && !(|s| >= 2 && s[|s| - 2] == '.' && Last(s) == '.')
  }

  /** Length before an optional final dot. */
  function NameLength(s: string): nat {
    if s != "" && Last(s) == '.' then |s| - 1 else |s|
  }

  // ---- targets ----

  datatype Target = Target(host: string, port: nat)

  datatype Error =
    | TooLong | Unterminated | BracketsNeedV6 | ExpectedPort | NeedsBrackets
    | BadPort | BadLength | NotUnicast | BadHost

  function New(net: Net, host: string, port: nat): Result<Target, Error> {
    if port == 0 then Err(BadPort)
    else if NameLength(host) == 0 || NameLength(host) > 253 then Err(BadLength)
    else match net.parse(host)
      case Some(ip) =>
        if Unicast(ToCanonical(ip)) then Ok(Target(net.show(ToCanonical(ip)), port)) else Err(NotUnicast)
      case None =>
        if HostName(host) then Ok(Target(Lower(host), port)) else Err(BadHost)
  }

  function Decimal(n: nat): string {
    (if n < 10 then "" else Decimal(n / 10)) + ['0' + (n % 10) as char]
  }

  /** The number a digit string denotes. */
  function Number(s: string): nat
    requires forall i :: 0 <= i < |s| ==> Digit(s[i])
  {
    if s == "" then 0 else
      assert Digit(s[|s| - 1]);
      10 * Number(s[..|s| - 1]) + (s[|s| - 1] as int - '0' as int)
  }

  function ParsePort(s: string): Option<nat> {
    if s == "" || !(forall i :: 0 <= i < |s| ==> Digit(s[i])) then None
    else if Number(s) > 65535 then None
    else Some(Number(s))
  }

  /** Index of the last occurrence, or -1. */
  function FindLast(s: string, c: char): (i: int)
    ensures -1 <= i < |s| && (i >= 0 ==> s[i] == c)
    ensures forall j :: i < j < |s| ==> s[j] != c
  {
    if s == "" then -1 else if Last(s) == c then |s| - 1 else FindLast(s[..|s| - 1], c)
  }

  /** Host and port texts of a destination. */
  function Separate(net: Net, value: string): Result<(string, string), Error> {
    if value != "" && value[0] == '[' then
      var rest := value[1..];
      var i := Find(rest, ']');
      if i == |rest| then Err(Unterminated)
      else if !(net.parse(rest[..i]).Some? && net.parse(rest[..i]).value.V6?) then Err(BracketsNeedV6)
      else if !(i + 1 < |rest| && rest[i + 1] == ':') then Err(ExpectedPort)
      else Ok((rest[..i], rest[i + 2..]))
    else
      var i := FindLast(value, ':');
      if i < 0 then Err(ExpectedPort)
      else if ':' in value[..i] then Err(NeedsBrackets)
      else Ok((value[..i], value[i + 1..]))
  }

  function Parse(net: Net, value: string): Result<Target, Error> {
    if |value| > 261 then Err(TooLong)
    else match Separate(net, value)
      case Err(e) => Err(e)
      case Ok(parts) =>
        match ParsePort(parts.1)
        case None => Err(BadPort)
        case Some(port) => New(net, parts.0, port)
  }

  function Display(t: Target): string {
    if ':' in t.host then "[" + t.host + "]:" + Decimal(t.port) else t.host + ":" + Decimal(t.port)
  }

  // ---- canonical forms are fixed points ----

  lemma LowerTwice(s: string)
    ensures Lower(Lower(s)) == Lower(s)
  {
  }

  lemma {:induction false} LowerFind(s: string)
    ensures Find(Lower(s), '.') == Find(s, '.')
  {
    if s != "" && s[0] != '.' {
      assert Lower(s)[1..] == Lower(s[1..]);
      LowerFind(s[1..]);
    }
  }

  lemma {:induction false} LowerLabels(s: string)
    ensures LabelsOk(Lower(s)) <==> LabelsOk(s)
    decreases |s|
  {
    LowerFind(s);
    var i := Find(s, '.');
    if i < |s| {
      assert Lower(s)[i + 1..] == Lower(s[i + 1..]);
      LowerLabels(s[i + 1..]);
    }
  }

  lemma {:induction false} LowerTrim(s: string)
    ensures TrimDots(Lower(s)) == Lower(TrimDots(s))
  {
    if s != "" && Last(s) == '.' {
      assert Lower(s)[..|s| - 1] == Lower(s[..|s| - 1]);
      LowerTrim(s[..|s| - 1]);
    }
  }

  lemma LowerChars(s: string)
    ensures HostChars(Lower(s)) <==> HostChars(s)
    ensures Numeric(Lower(s)) <==> Numeric(s)
  {
    assert forall i :: 0 <= i < |s| ==> (HostChar(Lower(s)[i]) <==> HostChar(s[i]));
    assert forall i :: 0 <= i < |s| ==> (Digit(Lower(s)[i]) <==> Digit(s[i])) && (Lower(s)[i] == '.' <==> s[i] == '.');
  }

  lemma LowerHost(s: string)
    ensures HostName(Lower(s)) <==> HostName(s)
    ensures NameLength(Lower(s)) == NameLength(s)
  {
    LowerTrim(s);
    LowerLabels(TrimDots(s));
    LowerChars(s);
  }

  /** Letter case never matters. */
  lemma CaseInsensitive(net: Net, host: string, port: nat)
    requires Sound(net)
    ensures New(net, Lower(host), port) == New(net, host, port)
  {
    LowerHost(host);
    LowerTwice(host);
  }

  /** A canonical host is its own canonical form. */
  lemma NewFixed(net: Net, host: string, port: nat)
    requires Sound(net) && New(net, host, port).Ok?
    ensures New(net, New(net, host, port).value.host, port) == New(net, host, port)
  {
    var t := New(net, host, port).value;
    if net.parse(host).None? {
      CaseInsensitive(net, host, port);
    } else {
      var ip := ToCanonical(net.parse(host).value);
      assert Literal(ip, net.show(ip));
      assert net.parse(t.host) == Some(ip) && ToCanonical(ip) == ip;
    }
  }

  // ---- a printed target parses to itself ----

  lemma {:induction false} DecimalNumber(n: nat)
    ensures Decimal(n) != "" && forall i :: 0 <= i < |Decimal(n)| ==> Digit(Decimal(n)[i])
    ensures Number(Decimal(n)) == n
  {
    if n >= 10 {
      DecimalNumber(n / 10);
      assert Decimal(n)[..|Decimal(n)| - 1] == Decimal(n / 10);
    } else {
      assert Decimal(n)[..0] == "";
    }
  }

  lemma DecimalLength(n: nat)
    requires n <= 65535
    ensures |Decimal(n)| <= 5
  {
    assert |Decimal(n / 10 / 10 / 10 / 10)| == 1;
    assert |Decimal(n / 10 / 10)| <= 3;
  }

  /** Where the first `c` is. */
  lemma FindAt(before: string, c: char, after: string)
    requires c !in before
    ensures Find(before + [c] + after, c) == |before|
  {
    var s := before + [c] + after;
    assert s[|before|] == c;
    assert forall j :: 0 <= j < |before| ==> s[j] == before[j] && before[j] in before;
  }

  lemma {:induction false} FindLastIn(s: string, c: char, i: nat)
    requires i < |s| && s[i] == c && c !in s[i + 1..]
    ensures FindLast(s, c) == i
  {
    if i < |s| - 1 {
      assert Last(s) in s[i + 1..];
      assert s[..|s| - 1][i + 1..] == s[i + 1..][..|s| - i - 2];
      FindLastIn(s[..|s| - 1], c, i);
    }
  }

  lemma FindLastAt(before: string, c: char, after: string)
    requires c !in after
    ensures FindLast(before + [c] + after, c) == |before|
  {
    var s := before + [c] + after;
    assert s[|before|] == c;
    assert s[|before| + 1..] == after;
    FindLastIn(s, c, |before|);
  }

  lemma NewBounds(net: Net, host: string, port: nat)
    requires Sound(net) && New(net, host, port).Ok?
    ensures var t := New(net, host, port).value;
            && t.port == port && 0 < |t.host| <= 254 && t.host[0] != '['
            && (':' in t.host ==> |t.host| <= 45 && ']' !in t.host
                                  && net.parse(t.host).Some? && net.parse(t.host).value.V6?)
  {
    var t := New(net, host, port).value;
    if net.parse(host).None? {
      assert HostChar(host[0]);
      assert forall i :: 0 <= i < |host| ==> HostChar(host[i]) && t.host[i] == LowerChar(host[i]) != ':';
      assert ':' !in t.host;
    } else {
      var ip := ToCanonical(net.parse(host).value);
      assert Literal(ip, net.show(ip)) && net.parse(net.show(ip)) == Some(ip);
    }
  }

  lemma BracketsSeparate(net: Net, host: string, port: string)
    requires ']' !in host && net.parse(host).Some? && net.parse(host).value.V6?
    ensures Separate(net, "[" + host + "]:" + port) == Ok((host, port))
  {
    var value, rest := "[" + host + "]:" + port, host + [']'] + (":" + port);
    assert value[1..] == rest;
    FindAt(host, ']', ":" + port);
    assert rest[..|host|] == host;
    assert rest[|host| + 1] == ':' && rest[|host| + 2..] == port;
  }

  lemma PlainSeparates(net: Net, host: string, port: string)
    requires host != "" && host[0] != '[' && ':' !in host && ':' !in port
    ensures Separate(net, host + ":" + port) == Ok((host, port))
  {
    var value := host + [':'] + port;
    assert value == host + ":" + port;
    FindLastAt(host, ':', port);
    assert value[0] == host[0] && value[..|host|] == host && value[|host| + 1..] == port;
  }

  lemma DisplaySeparates(net: Net, t: Target)
    requires t.host != "" && t.host[0] != '['
    requires ':' in t.host ==> ']' !in t.host && net.parse(t.host).Some? && net.parse(t.host).value.V6?
    ensures Separate(net, Display(t)) == Ok((t.host, Decimal(t.port)))
  {
    if ':' in t.host {
      BracketsSeparate(net, t.host, Decimal(t.port));
    } else {
      DecimalNumber(t.port);
      PlainSeparates(net, t.host, Decimal(t.port));
    }
  }

  lemma DisplayFits(t: Target)
    requires |t.host| <= 254 && (':' in t.host ==> |t.host| <= 45) && t.port <= 65535
    ensures |Display(t)| <= 260
  {
    DecimalLength(t.port);
  }

  /** Printing any target and parsing the text gives the same target: the size limit refuses none. */
  lemma RoundTrip(net: Net, host: string, port: nat)
    requires Sound(net) && port <= 65535 && New(net, host, port).Ok?
    ensures Parse(net, Display(New(net, host, port).value)) == New(net, host, port)
  {
    var t := New(net, host, port).value;
    NewBounds(net, host, port);
    DisplaySeparates(net, t);
    DisplayFits(t);
    DecimalNumber(port);
    NewFixed(net, host, port);
  }

  /** Parsing is idempotent through printing, so two texts that name one target print alike. */
  lemma ParseRoundTrip(net: Net, value: string)
    requires Sound(net) && Parse(net, value).Ok?
    ensures Parse(net, Display(Parse(net, value).value)) == Parse(net, value)
  {
    var parts := Separate(net, value).value;
    RoundTrip(net, parts.0, ParsePort(parts.1).value);
  }

  // ---- the agent's policy ----

  datatype Policy = Policy(allowAny: bool, targets: seq<(string, nat)>)

  predicate Allows(net: Net, entry: (string, nat), t: Target) {
    New(net, entry.0, entry.1) == Ok(t)
  }

  predicate Permits(net: Net, policy: Policy, host: string, port: nat) {
    match New(net, host, port)
    case Err(_) => false
    case Ok(t) => policy.allowAny || exists i :: 0 <= i < |policy.targets| && Allows(net, policy.targets[i], t)
  }

  predicate Bounded(host: string) {
    0 < NameLength(host) <= 253
  }

  /** Two texts that spell one host: they differ in letter case at most, or both are addresses with the
      same canonical form. */
  predicate Alike(net: Net, a: string, b: string) {
    || Lower(a) == Lower(b)
    || (&& Bounded(a) && Bounded(b) && net.parse(a).Some? && net.parse(b).Some?
        && ToCanonical(net.parse(a).value) == ToCanonical(net.parse(b).value))
  }

  lemma AlikeSame(net: Net, a: string, b: string, port: nat)
    requires Sound(net) && Alike(net, a, b)
    ensures New(net, a, port) == New(net, b, port)
  {
    CaseInsensitive(net, a, port);
    CaseInsensitive(net, b, port);
  }

  lemma SameAlike(net: Net, a: string, b: string, port: nat)
    requires Sound(net) && New(net, a, port).Ok? && New(net, a, port) == New(net, b, port)
    ensures Alike(net, a, b)
  {
    var host := New(net, a, port).value.host;
    if net.parse(a).Some? {
      assert net.parse(host) == Some(ToCanonical(net.parse(a).value));
    } else {
      assert net.parse(host) == None;
    }
    if net.parse(b).Some? {
      assert net.parse(host) == Some(ToCanonical(net.parse(b).value));
    } else {
      assert net.parse(host) == None;
    }
  }

  /** Canonical targets identify spellings exactly: an accepted host has the same target as another text
      if and only if the two spell one host. */
  lemma SpellingExact(net: Net, a: string, b: string, port: nat)
    requires Sound(net) && New(net, a, port).Ok?
    ensures New(net, a, port) == New(net, b, port) <==> Alike(net, a, b)
  {
    if Alike(net, a, b) {
      AlikeSame(net, a, b, port);
    } else if New(net, a, port) == New(net, b, port) {
      SameAlike(net, a, b, port);
    }
  }

  predicate Lists(net: Net, p: Policy, host: string, port: nat) {
    exists i :: 0 <= i < |p.targets| && p.targets[i].1 == port && Alike(net, host, p.targets[i].0)
  }

  lemma AllowsExact(net: Net, entry: (string, nat), host: string, port: nat)
    requires Sound(net) && New(net, host, port).Ok?
    ensures Allows(net, entry, New(net, host, port).value) <==> entry.1 == port && Alike(net, host, entry.0)
  {
    if entry.1 == port {
      SpellingExact(net, host, entry.0, port);
    }
  }

  /** What a policy means, in terms of texts: it permits the well-formed requests whose port and host it
      lists in some spelling, and all of them if it allows any. */
  lemma PermitsExact(net: Net, p: Policy, host: string, port: nat)
    requires Sound(net)
    ensures Permits(net, p, host, port) <==> New(net, host, port).Ok? && (p.allowAny || Lists(net, p, host, port))
  {
    if New(net, host, port).Ok? {
      forall i | 0 <= i < |p.targets|
        ensures Allows(net, p.targets[i], New(net, host, port).value)
                <==> p.targets[i].1 == port && Alike(net, host, p.targets[i].0)
      {
        AllowsExact(net, p.targets[i], host, port);
      }
    }
  }

  /** `b` lists what `a` lists, entry by entry, in some spelling. */
  predicate Respelled(net: Net, a: Policy, b: Policy) {
    && a.allowAny == b.allowAny && |a.targets| == |b.targets|
    && forall i :: 0 <= i < |a.targets| ==>
         a.targets[i].1 == b.targets[i].1 && Alike(net, a.targets[i].0, b.targets[i].0)
  }

  /** Spelling is irrelevant on both sides: writing the request and every policy entry in other letter
      case, or their addresses in other notation, changes no decision. */
  lemma SpellingIrrelevant(net: Net, p: Policy, q: Policy, host: string, other: string, port: nat)
    requires Sound(net) && Respelled(net, p, q) && Alike(net, host, other)
    ensures Permits(net, p, host, port) == Permits(net, q, other, port)
  {
    AlikeSame(net, host, other, port);
    forall i | 0 <= i < |p.targets|
      ensures New(net, p.targets[i].0, p.targets[i].1) == New(net, q.targets[i].0, q.targets[i].1)
    {
      AlikeSame(net, p.targets[i].0, q.targets[i].0, p.targets[i].1);
    }
    if New(net, host, port).Ok? {
      var t := New(net, host, port).value;
      assert forall i :: 0 <= i < |p.targets| ==> (Allows(net, p.targets[i], t) <==> Allows(net, q.targets[i], t));
    }
  }

  /** In particular a policy decides alike on a request, on its lower-case form and on its canonical form,
      and permits only what it lists. */
  lemma PolicyCanonical(net: Net, p: Policy, host: string, port: nat)
    requires Sound(net)
    ensures Permits(net, p, Lower(host), port) == Permits(net, p, host, port)
    ensures New(net, host, port).Ok? ==>
              && Alike(net, host, New(net, host, port).value.host)
              && Permits(net, p, New(net, host, port).value.host, port) == Permits(net, p, host, port)
    ensures Permits(net, p, host, port) ==> p.allowAny || Lists(net, p, host, port)
  {
    CaseInsensitive(net, host, port);
    PermitsExact(net, p, host, port);
    if New(net, host, port).Ok? {
      NewFixed(net, host, port);
      SpellingExact(net, host, New(net, host, port).value.host, port);
    }
  }
}
