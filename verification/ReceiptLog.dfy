/** The receipt log as a text file: validation, appending and what each means for the other
    (rds-bench `receipt`). */
module ReceiptLog {
  import opened Prelude
  import opened HashChain
  import opened Receipts

  // ---- lines ----

  /** Index of the first line feed, or the length. */
  function Break(text: string): (i: nat)
    ensures i <= |text|
  {
    if text == "" || text[0] == '\n' then 0 else 1 + Break(text[1..])
  }

  lemma {:induction false} BreakFirst(text: string, i: nat)
    requires i <= |text|
    ensures Break(text) == i <==> '\n' !in text[..i] && (i < |text| ==> text[i] == '\n')
  {
    if i > 0 {
      assert text[..i] == [text[0]] + text[1..][..i - 1];
      BreakFirst(text[1..], i - 1);
    }
  }

  function WithoutReturn(line: string): string {
    if line != "" && Last(line) == '\r' then line[..|line| - 1] else line
  }

  /** The lines of a text; a final line feed ends the last line and starts none. */
  function Lines(text: string): seq<string> {
    if text == "" then [] else
      var i := Break(text);
      if i == |text| then [text] else [WithoutReturn(text[..i])] + Lines(text[i + 1..])
  }

  /** The text after the last line feed. */
  function Fragment(text: string): string {
    var i := Break(text);
    if i == |text| then text else Fragment(text[i + 1..])
  }

  lemma Assoc<T>(a: seq<T>, b: seq<T>, c: seq<T>)
    ensures (a + b) + c == a + (b + c)
  {
  }

  lemma BreakAdd(text: string, more: string)
    requires Break(text) < |text|
    ensures Break(text + more) == Break(text)
    ensures (text + more)[..Break(text)] == text[..Break(text)]
    ensures (text + more)[Break(text) + 1..] == text[Break(text) + 1..] + more
  {
    var i := Break(text);
    BreakFirst(text, i);
    assert (text + more)[..i] == text[..i];
    BreakFirst(text + more, i);
  }

  /** Text added after a complete line only adds lines. */
  lemma {:induction false} LinesAdd(text: string, more: string)
    requires Fragment(text) == ""
    ensures Lines(text + more) == Lines(text) + Lines(more)
    decreases |text|
  {
    if text == "" {
      assert text + more == more;
    } else {
      var i := Break(text);
      var first, rest := WithoutReturn(text[..i]), text[i + 1..];
      calc {
        Lines(text + more);
        { BreakAdd(text, more); }
        [first] + Lines(rest + more);
        { LinesAdd(rest, more); }
        [first] + (Lines(rest) + Lines(more));
        { Assoc([first], Lines(rest), Lines(more)); }
        ([first] + Lines(rest)) + Lines(more);
        Lines(text) + Lines(more);
      }
    }
  }

  lemma FragmentAdd(text: string, more: string)
    requires Break(text) == |text| - 1
    ensures Fragment(text + more) == Fragment(more)
  {
    BreakAdd(text, more);
    assert text[|text|..] + more == more;
  }

  lemma FirstLine(text: string)
    requires Break(text) < |text|
    ensures Break(text[..Break(text) + 1]) == Break(text)
  {
    var i := Break(text);
    BreakFirst(text, i);
    assert text[..i + 1][..i] == text[..i];
    BreakFirst(text[..i + 1], i);
  }

  /** A text is complete lines and then a fragment. */
  lemma {:induction false} Split(text: string) returns (whole: string)
    ensures text == whole + Fragment(text) && Fragment(whole) == "" && '\n' !in Fragment(text)
    decreases |text|
  {
    var i := Break(text);
    whole := "";
    if i == |text| {
      BreakFirst(text, i);
      assert text[..i] == text;
    } else {
      var first, rest := text[..i + 1], text[i + 1..];
      var more := Split(rest);
      whole := first + more;
      assert text == first + rest;
      Assoc(first, more, Fragment(rest));
      FirstLine(text);
      FragmentAdd(first, more);
    }
  }

  lemma OneLineText(line: string)
    requires line != "" && '\n' !in line && Last(line) != '\r'
    ensures Lines(line) == [line] && Lines(line + "\n") == [line]
  {
    var text := line + "\n";
    assert text[..|line|] == line && line[..|line|] == line;
    BreakFirst(line, |line|);
    BreakFirst(text, |line|);
    assert text[|line| + 1..] == "";
  }

  // ---- validating ----

  /** The rules of a chain and the parser. */
  datatype Checker = Checker(rules: Rules<Json>, parse: string -> Option<Json>)

  function CheckerOf(f: Format): Checker {
    Checker(RulesOf(f), f.parse)
  }

  /** The values of the lines that are not blank, if all of them are JSON. */
  function Values(c: Checker, lines: seq<string>): Option<seq<Json>> {
    if lines == [] then Some([]) else
      var vs, line := Values(c, lines[..|lines| - 1]), Last(lines);
      if vs.None? || Blank(line) then vs
      else if c.parse(line).None? then None
      else Some(vs.value + [c.parse(line).value])
  }

  predicate Valid(c: Checker, lines: seq<string>) {
    Values(c, lines).Some? && Chained(c.rules, Values(c, lines).value)
  }

  /** One more line. */
  lemma ValidAdd(c: Checker, lines: seq<string>, line: string)
    ensures Valid(c, lines + [line]) <==>
            && Valid(c, lines)
            && (Blank(line) ||
                (c.parse(line).Some? && c.rules.link(Head(c.rules, Values(c, lines).value), c.parse(line).value)))
    ensures Valid(c, lines + [line]) ==>
              Values(c, lines + [line]).value ==
              Values(c, lines).value + if Blank(line) then [] else [c.parse(line).value]
  {
    var more := lines + [line];
    assert more[..|lines|] == lines;
    if Values(c, lines).Some? && c.parse(line).Some? {
      var vs, v := Values(c, lines).value, c.parse(line).value;
      assert (vs + [v])[..|vs|] == vs;
    }
  }

  lemma {:induction false} ValidPrefix(c: Checker, lines: seq<string>, more: seq<string>)
    requires Valid(c, lines + more)
    ensures Valid(c, lines)
    decreases |more|
  {
    if more == [] {
      assert lines + more == lines;
    } else {
      var init := more[..|more| - 1];
      assert lines + more == (lines + init) + [Last(more)];
      ValidAdd(c, lines + init, Last(more));
      ValidPrefix(c, lines, init);
    }
  }

  datatype Reason = NotJson | BadFields | WrongPrev | WrongHash

  datatype Fault = NoFile | BadLine(line: nat, reason: Reason)

  /** What is wrong with a line that is not blank, checked in this order. */
  function Verdict(f: Format, prev: string, parsed: Option<Json>): Option<Reason> {
    if parsed.None? then Some(NotJson)
    else if !Shaped(parsed.value) then Some(BadFields)
    else if Text(parsed.value, PrevHash) != Some(prev) then Some(WrongPrev)
    else if Text(parsed.value, Hash) != Some(Want(f, parsed.value)) then Some(WrongHash)
    else None
  }

  lemma VerdictIsLink(f: Format, prev: string, parsed: Option<Json>)
    ensures Verdict(f, prev, parsed).None? <==> parsed.Some? && Link(f, prev, parsed.value)
    ensures Verdict(f, prev, parsed).None? ==> Text(parsed.value, Hash) == Some(HashOf(parsed.value))
  {
  }

  /** Line `k` is the first that breaks the log, for that reason. */
  ghost predicate Breaks(f: Format, lines: seq<string>, k: nat, reason: Reason) {
    var c := CheckerOf(f);
    && 1 <= k <= |lines| && Valid(c, lines[..k - 1]) && !Valid(c, lines[..k])
    && Verdict(f, Head(c.rules, Values(c, lines[..k - 1]).value), f.parse(lines[k - 1])) == Some(reason)
  }

  /** The first `i` lines are valid and hold `vs`; `prev` and `n` are what validation has kept of them. */
  ghost predicate SoFar(c: Checker, lines: seq<string>, i: nat, vs: seq<Json>, prev: string, n: nat) {
    && i <= |lines| && Valid(c, lines[..i]) && Values(c, lines[..i]) == Some(vs)
    && prev == Head(c.rules, vs) && n == |vs|
  }

  /** One more line is blank, continues the chain, or is the first to break it. */
  lemma OneLineOn(f: Format, c: Checker, lines: seq<string>, i: nat, vs: seq<Json>, prev: string, n: nat)
    requires c == CheckerOf(f) && i < |lines| && SoFar(c, lines, i, vs, prev, n)
    ensures var (parsed, verdict) := (f.parse(lines[i]), Verdict(f, prev, f.parse(lines[i])));
            if Blank(lines[i]) then SoFar(c, lines, i + 1, vs, prev, n)
            else if verdict.None? then
              parsed.Some? && SoFar(c, lines, i + 1, vs + [parsed.value], HashOf(parsed.value), n + 1)
            else !Valid(c, lines) && Breaks(f, lines, i + 1, verdict.value)
  {
    assert lines[..i + 1] == lines[..i] + [lines[i]];
    ValidAdd(c, lines[..i], lines[i]);
    VerdictIsLink(f, prev, f.parse(lines[i]));
    if !Valid(c, lines[..i + 1]) {
      Broken(c, lines, i + 1);
    }
  }

  lemma NothingRead(c: Checker, lines: seq<string>)
    ensures SoFar(c, lines, 0, [], c.rules.genesis, 0)
  {
    assert lines[..0] == [];
  }

  lemma AllRead(c: Checker, lines: seq<string>, vs: seq<Json>, prev: string, n: nat)
    requires SoFar(c, lines, |lines|, vs, prev, n)
    ensures Valid(c, lines) && Values(c, lines) == Some(vs) && n == |vs|
  {
    assert lines[..|lines|] == lines;
  }

  /** Checks one line that is not blank. */
  method CheckLine(f: Format, prev: string, line: string) returns (fault: Option<Reason>, hash: string)
    ensures fault == Verdict(f, prev, f.parse(line))
    ensures fault.None? ==> hash == HashOf(f.parse(line).value)
  {
    fault, hash := None, "";
    var parsed := f.parse(line);
    if parsed.None? {
      return Some(NotJson), "";
    }
    var v := parsed.value;
    if !Shaped(v) {
      return Some(BadFields), "";
    }
    if Text(v, PrevHash) != Some(prev) {
      return Some(WrongPrev), "";
    }
    if Text(v, Hash) != Some(Want(f, v)) {
      return Some(WrongHash), "";
    }
    hash := Text(v, Hash).value;
  }

  /** The loop over the lines. */
  method ValidateLines(f: Format, lines: seq<string>) returns (r: Result<nat, Fault>)
    ensures r != Err(NoFile)
    ensures r.Ok? <==> Valid(CheckerOf(f), lines)
    ensures r.Ok? ==> r.value == |Values(CheckerOf(f), lines).value|
    ensures r.Err? ==> Breaks(f, lines, r.error.line, r.error.reason)
  {
    var prev, n, i := GENESIS, 0, 0;
    ghost var c, vs := CheckerOf(f), [];
    NothingRead(c, lines);
    while i < |lines|
      invariant i <= |lines| && SoFar(c, lines, i, vs, prev, n)
    {
      OneLineOn(f, c, lines, i, vs, prev, n);
      if !Blank(lines[i]) {
        var fault, hash := CheckLine(f, prev, lines[i]);
        if fault.Some? {
          return Err(BadLine(i + 1, fault.value));
        }
        prev, n := hash, n + 1;
        vs := vs + [f.parse(lines[i]).value];
      }
      i := i + 1;
    }
    AllRead(c, lines, vs, prev, n);
    return Ok(n);
  }

  /** Counts the receipts of a valid log; on an invalid one it names the first line that breaks it. */
  method Validate(f: Format, file: Option<string>) returns (r: Result<nat, Fault>)
    ensures r == Err(NoFile) <==> file.None?
    ensures file.Some? ==> (r.Ok? <==> Valid(CheckerOf(f), Lines(file.value)))
    ensures r.Ok? ==> r.value == |Values(CheckerOf(f), Lines(file.value)).value|
    ensures r.Err? && file.Some? ==> Breaks(f, Lines(file.value), r.error.line, r.error.reason)
  {
    if file.None? {
      return Err(NoFile);
    }
    r := ValidateLines(f, Lines(file.value));
  }

  lemma Broken(c: Checker, lines: seq<string>, k: nat)
    requires k <= |lines| && !Valid(c, lines[..k])
    ensures !Valid(c, lines)
  {
    if Valid(c, lines) {
      assert lines == lines[..k] + lines[k..];
      ValidPrefix(c, lines[..k], lines[k..]);
    }
  }

  /** A complete line that breaks the log breaks it for good: nothing written after it repairs it. */
  lemma BrokenStays(f: Format, text: string, more: string)
    requires Fragment(text) == "" && !Valid(CheckerOf(f), Lines(text))
    ensures !Valid(CheckerOf(f), Lines(text + more))
  {
    LinesAdd(text, more);
    if Valid(CheckerOf(f), Lines(text) + Lines(more)) {
      ValidPrefix(CheckerOf(f), Lines(text), Lines(more));
    }
  }

  /** Two valid logs with the same last hash hold the same receipts in the same order, or two of their
      receipts exhibit a collision of the digest: editing, dropping, inserting or reordering anything
      is seen by whoever knows the last hash. Only white space may differ. */
  lemma HistoryPinned(f: Format, a: string, b: string) returns (clash: Option<(Json, Json)>)
    requires Faithful(f) && Valid(CheckerOf(f), Lines(a)) && Valid(CheckerOf(f), Lines(b))
    requires Head(RulesOf(f), Values(CheckerOf(f), Lines(a)).value)
             == Head(RulesOf(f), Values(CheckerOf(f), Lines(b)).value)
    ensures clash.None? ==> Values(CheckerOf(f), Lines(a)) == Values(CheckerOf(f), Lines(b))
    ensures clash.Some? ==>
              && clash.value.0 in Values(CheckerOf(f), Lines(a)).value
              && clash.value.1 in Values(CheckerOf(f), Lines(b)).value
              && Collision(f, clash.value.0, clash.value.1)
  {
    ReceiptsBind(f);
    clash := HeadPins(RulesOf(f), Values(CheckerOf(f), Lines(a)).value, Values(CheckerOf(f), Lines(b)).value);
  }

  // ---- appending ----

  datatype Refusal = NeedsKindAndSubject | BadStatus | BadBudgets | LastLineNotJson | LastLineHasNoHash

  function LastLine(lines: seq<string>): Option<string> {
    if lines == [] then None
    else if Blank(Last(lines)) then LastLine(lines[..|lines| - 1])
    else Some(Last(lines))
  }

  function Contents(file: Option<string>): string {
    if file.Some? then file.value else ""
  }

  /** Hash of the last line, or the genesis marker for an absent or empty log. */
  function LastHash(f: Format, file: Option<string>): Result<string, Refusal> {
    var last := LastLine(Lines(Contents(file)));
    if last.None? then Ok(GENESIS)
    else if f.parse(last.value).None? then Err(LastLineNotJson)
    else if Text(f.parse(last.value).value, Hash).None? then Err(LastLineHasNoHash)
    else Ok(Text(f.parse(last.value).value, Hash).value)
  }

  /** One call of `append`. */
  datatype Request = Request(env: Env, input: Input, ts: U64)

  /** The file after a request: one line longer, or as it was. */
  function AfterAppend(f: Format, file: Option<string>, r: Request): Option<string> {
    if Accepted(r.input) && LastHash(f, file).Ok?
    then Some(Appended(f, Contents(file), Receipt(f, r.env, r.input, r.ts, LastHash(f, file).value)))
    else file
  }

  class LogFile {
    /** The text of the file, if it exists. */
    var text: Option<string>

    constructor (initial: Option<string>)
      ensures text == initial
    {
      text := initial;
    }

    /** Writes one line or nothing; what was there is never changed. */
    method Append(f: Format, env: Env, input: Input, ts: U64) returns (r: Result<string, Refusal>)
      modifies this
      ensures r.Err? ==> text == old(text)
      ensures r.Ok? <==> Accepted(input) && LastHash(f, old(text)).Ok?
      ensures r.Err? && Accepted(input) ==> r.error == LastHash(f, old(text)).error
      ensures r.Ok? ==>
                var v := Receipt(f, env, input, ts, LastHash(f, old(text)).value);
                r.value == HashOf(v) && text == Some(Appended(f, Contents(old(text)), v))
      ensures text == AfterAppend(f, old(text), Request(env, input, ts))
    {
      if input.kind == "" || input.subject == "" {
        return Err(NeedsKindAndSubject);
      }
      if input.status !in STATUSES {
        return Err(BadStatus);
      }
      if input.budgets.Some? && !input.budgets.value.Obj? {
        return Err(BadBudgets);
      }
      var prev := LastHash(f, text);
      if prev.Err? {
        return Err(prev.error);
      }
      var core := Core(env, input, ts, prev.value);
      var hash := f.digest(f.show(core));
      var v := Obj(core.fields[Hash := Str(hash)]);
      text := Some(Contents(text) + (f.show(v) + "\n"));
      return Ok(hash);
    }
  }

  function Appended(f: Format, text: string, v: Json): string {
    text + (f.show(v) + "\n")
  }

  // ---- appending to a valid log ----

  /** On a valid log the last line names the head of the chain. */
  lemma {:induction false} LastIsHead(c: Checker, lines: seq<string>)
    requires Valid(c, lines)
    ensures LastLine(lines).None? ==> Values(c, lines).value == []
    ensures LastLine(lines).Some? ==>
              Values(c, lines).value != [] && c.parse(LastLine(lines).value) == Some(Last(Values(c, lines).value))
  {
    if lines != [] {
      var init := lines[..|lines| - 1];
      assert lines == init + [Last(lines)];
      ValidAdd(c, init, Last(lines));
      if Blank(Last(lines)) {
        LastIsHead(c, init);
      }
    }
  }

  lemma LastHashIsHead(f: Format, file: Option<string>)
    requires Valid(CheckerOf(f), Lines(Contents(file)))
    ensures LastHash(f, file) == Ok(Head(RulesOf(f), Values(CheckerOf(f), Lines(Contents(file))).value))
  {
    var c, lines := CheckerOf(f), Lines(Contents(file));
    LastIsHead(c, lines);
    var vs := Values(c, lines).value;
    if vs != [] {
      assert Link(f, Head(c.rules, vs[..|vs| - 1]), Last(vs));
    }
  }

  /** Where the new line goes: after the complete lines, behind whatever fragment was there. */
  lemma AppendedLines(f: Format, text: string, v: Json) returns (whole: seq<string>)
    requires OneLine(f.show(v))
    ensures Lines(text) == whole + if Fragment(text) == "" then [] else [Fragment(text)]
    ensures Lines(Appended(f, text, v)) == whole + [Fragment(text) + f.show(v)]
  {
    var base := Split(text);
    var rest, line := Fragment(text), f.show(v);
    whole := Lines(base);
    LinesAdd(base, rest);
    FragmentLines(rest);
    calc {
      Lines(Appended(f, text, v));
      { Assoc(base, rest, line + "\n"); }
      Lines(base + (rest + (line + "\n")));
      { LinesAdd(base, rest + (line + "\n")); }
      whole + Lines(rest + (line + "\n"));
      { Assoc(rest, line, "\n"); LastLineText(rest, line); }
      whole + [rest + line];
    }
  }

  lemma LastLineText(rest: string, line: string)
    requires '\n' !in rest && OneLine(line)
    ensures Lines((rest + line) + "\n") == [rest + line]
  {
    assert Last(rest + line) == Last(line);
    OneLineText(rest + line);
  }

  lemma FragmentLines(rest: string)
    requires '\n' !in rest
    ensures Lines(rest) == if rest == "" then [] else [rest]
  {
    assert rest[..|rest|] == rest;
    BreakFirst(rest, |rest|);
  }

  lemma LeadBlank(rest: string, line: string)
    requires OneLine(line)
    ensures !Blank(rest + line)
    ensures JsonBlank(rest) ==> Blank(rest)
  {
    assert (rest + line)[|rest|] == '{' && !Space('{');
  }

  /** How the line that ends in the new receipt reads. */
  lemma NewLineReads(f: Format, c: Checker, whole: seq<string>, rest: string, v: Json)
    requires c == CheckerOf(f) && OneLine(f.show(v)) && Follows(f, rest, v)
    requires Valid(c, whole + if rest == "" then [] else [rest])
    ensures Valid(c, whole)
    ensures c.parse(rest + f.show(v)) == if JsonBlank(rest) then c.parse(f.show(v)) else None
    ensures JsonBlank(rest) ==> Values(c, whole + if rest == "" then [] else [rest]) == Values(c, whole)
  {
    LeadBlank(rest, f.show(v));
    if rest == "" {
      assert whole + [] == whole;
    } else {
      ValidAdd(c, whole, rest);
    }
  }

  /** Appending any object: what counts is the value that is read back from the line. */
  lemma AppendAny(f: Format, c: Checker, text: string, v: Json, prev: string)
    requires c == CheckerOf(f) && Valid(c, Lines(text))
    requires OneLine(f.show(v)) && Follows(f, Fragment(text), v)
    requires prev == Head(c.rules, Values(c, Lines(text)).value)
    ensures Valid(c, Lines(Appended(f, text, v))) <==>
            && JsonBlank(Fragment(text)) && f.parse(f.show(v)).Some? && c.rules.link(prev, f.parse(f.show(v)).value)
    ensures Valid(c, Lines(Appended(f, text, v))) ==>
              Values(c, Lines(Appended(f, text, v))).value == Values(c, Lines(text)).value + [f.parse(f.show(v)).value]
  {
    var whole := AppendedLines(f, text, v);
    NewLineReads(f, c, whole, Fragment(text), v);
    ValidAdd(c, whole, Fragment(text) + f.show(v));
    LeadBlank(Fragment(text), f.show(v));
  }

  /** A value that is read back changed, with its hash as it was, does not hash to what it says, or the
      two values exhibit a collision. */
  lemma ReadBackChanged(f: Format, prev: string, v: Json, w: Json)
    requires Faithful(f) && v.Obj? && w != v
    requires Text(v, Hash) == Some(Want(f, v)) && Text(w, Hash) == Text(v, Hash) && Link(f, prev, w)
    ensures Collision(f, v, w)
  {
    if f.show(Unsigned(v)) == f.show(Unsigned(w)) {
      assert Unsigned(v) == Unsigned(w);
      SameFields(v.fields, w.fields);
    }
  }

  /** The appended log is valid, and holds the receipt `v` after those it held before. */
  predicate Continues(f: Format, text: string, v: Json) {
    var (c, lines) := (CheckerOf(f), Lines(Appended(f, text, v)));
    && Valid(c, Lines(text)) && Valid(c, lines)
    && Values(c, lines).value == Values(c, Lines(text)).value + [v]
  }

  /** What appending leaves to its caller: the receipt is complete, its line is read back as it was
      written, and the log ends in a line feed (or in white space that JSON ignores). */
  predicate Careful(f: Format, env: Env, input: Input, ts: U64, text: string, v: Json) {
    Complete(env, input, ts) && f.parse(f.show(v)) == Some(v) && JsonBlank(Fragment(text))
  }

  /** Appending to a valid log always succeeds. It keeps the log valid, one receipt longer, exactly when
      the caller was careful; the only other way to a valid log is a collision between the receipt and
      what was read back in its place. */
  lemma AppendValid(f: Format, file: Option<string>, env: Env, input: Input, ts: U64)
    requires Sound(f) && Accepted(input) && Valid(CheckerOf(f), Lines(Contents(file)))
    ensures LastHash(f, file).Ok?
    ensures var text, v := Contents(file), Receipt(f, env, input, ts, LastHash(f, file).value);
            && (Careful(f, env, input, ts, text, v) ==> Continues(f, text, v))
            && (Valid(CheckerOf(f), Lines(Appended(f, text, v))) && !Careful(f, env, input, ts, text, v) ==>
                  f.parse(f.show(v)).Some? && Collision(f, v, f.parse(f.show(v)).value))
  {
    LastHashIsHead(f, file);
    var prev := LastHash(f, file).value;
    var v := Receipt(f, env, input, ts, prev);
    assert OneLine(f.show(v)) && Follows(f, Fragment(Contents(file)), v);
    AppendAny(f, CheckerOf(f), Contents(file), v, prev);
    ReceiptLinks(f, env, input, ts, prev);
    ReceiptSigned(f, env, input, ts, prev);
    var read := f.parse(f.show(v));
    if read.Some? && read != Some(v) && Link(f, prev, read.value) {
      ReadBackChanged(f, prev, v, read.value);
    }
  }

  // ---- any number of appends ----

  /** The file after requests to an absent log. */
  function AppendAll(f: Format, rs: seq<Request>): Option<string> {
    if rs == [] then None else AfterAppend(f, AppendAll(f, rs[..|rs| - 1]), Last(rs))
  }

  /** The chain of the receipts that requests ask for; what is not accepted leaves no trace. */
  function ChainOf(f: Format, rs: seq<Request>): seq<Json> {
    if rs == [] then []
    else
      var vs, r := ChainOf(f, rs[..|rs| - 1]), Last(rs);
      if Accepted(r.input) then vs + [Receipt(f, r.env, r.input, r.ts, Head(RulesOf(f), vs))] else vs
  }

  /** Every accepted receipt is complete and is read back as written. */
  predicate AllCareful(f: Format, rs: seq<Request>) {
    rs != [] ==>
      var (init, r) := (rs[..|rs| - 1], Last(rs));
      && AllCareful(f, init)
      && (Accepted(r.input) ==>
            var v := Last(ChainOf(f, rs)); Complete(r.env, r.input, r.ts) && f.parse(f.show(v)) == Some(v))
  }

  ghost predicate Holds(f: Format, file: Option<string>, vs: seq<Json>) {
    var (c, lines) := (CheckerOf(f), Lines(Contents(file)));
    Valid(c, lines) && Values(c, lines).value == vs && Fragment(Contents(file)) == ""
  }

  lemma HoldsAppend(f: Format, file: Option<string>, vs: seq<Json>, r: Request)
    requires Sound(f) && Holds(f, file, vs) && Accepted(r.input)
    ensures var v := Receipt(f, r.env, r.input, r.ts, Head(RulesOf(f), vs));
            && AfterAppend(f, file, r) == Some(Appended(f, Contents(file), v))
            && (Complete(r.env, r.input, r.ts) && f.parse(f.show(v)) == Some(v) ==>
                  Holds(f, AfterAppend(f, file, r), vs + [v]))
  {
    LastHashIsHead(f, file);
    AppendValid(f, file, r.env, r.input, r.ts);
    Terminated(f, Contents(file), Receipt(f, r.env, r.input, r.ts, Head(RulesOf(f), vs)));
  }

  /** Careful appends to an absent log, however many, make a valid log of exactly the receipts asked for. */
  lemma {:induction false} AppendsHold(f: Format, rs: seq<Request>)
    requires Sound(f) && AllCareful(f, rs)
    ensures Holds(f, AppendAll(f, rs), ChainOf(f, rs))
  {
    if rs != [] {
      var init, r := rs[..|rs| - 1], Last(rs);
      AppendsHold(f, init);
      if Accepted(r.input) {
        HoldsAppend(f, AppendAll(f, init), ChainOf(f, init), r);
      }
    }
  }

  /** Later requests only add text. */
  lemma {:induction false} AppendsAdd(f: Format, rs: seq<Request>, n: nat) returns (more: string)
    requires n <= |rs|
    ensures Contents(AppendAll(f, rs)) == Contents(AppendAll(f, rs[..n])) + more
    decreases |rs|
  {
    if n == |rs| {
      more := "";
      assert rs[..n] == rs;
    } else {
      var init := rs[..|rs| - 1];
      more := AppendsAdd(f, init, n);
      assert init[..n] == rs[..n];
      var file, file' := AppendAll(f, init), AppendAll(f, rs);
      if file' != file {
        var v := Receipt(f, Last(rs).env, Last(rs).input, Last(rs).ts, LastHash(f, file).value);
        Assoc(Contents(AppendAll(f, rs[..n])), more, f.show(v) + "\n");
        more := more + (f.show(v) + "\n");
      }
    }
  }

  /** The first careless request decides: from it on the log is invalid, short of a misreading. */
  lemma {:induction false} FirstCareless(f: Format, rs: seq<Request>) returns (i: nat)
    requires !AllCareful(f, rs)
    ensures i < |rs| && AllCareful(f, rs[..i]) && Accepted(rs[i].input)
    ensures var v := Receipt(f, rs[i].env, rs[i].input, rs[i].ts, Head(RulesOf(f), ChainOf(f, rs[..i])));
            !(Complete(rs[i].env, rs[i].input, rs[i].ts) && f.parse(f.show(v)) == Some(v))
  {
    var init := rs[..|rs| - 1];
    if AllCareful(f, init) {
      i := |rs| - 1;
    } else {
      i := FirstCareless(f, init);
      assert init[..i] == rs[..i];
    }
  }

  /** Exactly the careful appends keep the log valid: one careless request, at any point, and the final log
      is invalid, unless that receipt collides with what is read back in its place. */
  lemma AppendsExact(f: Format, rs: seq<Request>) returns (i: nat)
    requires Sound(f)
    ensures AllCareful(f, rs) ==> Holds(f, AppendAll(f, rs), ChainOf(f, rs))
    ensures !AllCareful(f, rs) ==>
              && i < |rs|
              && (|| !Valid(CheckerOf(f), Lines(Contents(AppendAll(f, rs))))
                  || Misread(f, Receipt(f, rs[i].env, rs[i].input, rs[i].ts, Head(RulesOf(f), ChainOf(f, rs[..i])))))
  {
    i := 0;
    if AllCareful(f, rs) {
      AppendsHold(f, rs);
    } else {
      i := FirstCareless(f, rs);
      AppendsHold(f, rs[..i]);
      assert rs[..i + 1][..i] == rs[..i] && Last(rs[..i + 1]) == rs[i];
      var more := AppendsAdd(f, rs, i + 1);
      RuinsHeld(f, AppendAll(f, rs[..i]), ChainOf(f, rs[..i]), rs[i], more);
    }
  }

  lemma RuinsHeld(f: Format, file: Option<string>, vs: seq<Json>, r: Request, more: string)
    requires Sound(f) && Holds(f, file, vs) && Accepted(r.input)
    ensures var v := Receipt(f, r.env, r.input, r.ts, Head(RulesOf(f), vs));
            !(Complete(r.env, r.input, r.ts) && f.parse(f.show(v)) == Some(v)) ==>
              !Valid(CheckerOf(f), Lines(Contents(AfterAppend(f, file, r)) + more)) || Misread(f, v)
  {
    HoldsAppend(f, file, vs, r);
    LastHashIsHead(f, file);
    CarelessRuins(f, file, r.env, r.input, r.ts, more);
  }

  // ---- logs that appending breaks ----

  /** A receipt of a gate that passed, from a known build. */
  function SampleInput(topology: string): Input {
    Input("gate", "c0", "pass", topology, None, None, None, None, [], None)
  }

  function SampleEnv(f: Format): Env {
    Env("unknown", false, f.digest("bench"), f.digest("lock"), "unknown", [], "linux", "x86_64")
  }

  function SampleReceipt(f: Format, topology: string, prev: string): (v: Json)
    ensures v.Obj?
  {
    Receipt(f, SampleEnv(f), SampleInput(topology), 1, prev)
  }

  /** `v` collides with what is read back in its place. */
  predicate Misread(f: Format, v: Json) {
    f.parse(f.show(v)).Some? && Collision(f, v, f.parse(f.show(v)).value)
  }

  /** Appending does not check the topology, so it can break its own log: the first receipt is written and
      the log it makes is invalid, for good. */
  lemma UncheckedTopology(f: Format, more: string)
    requires Sound(f)
    ensures Accepted(SampleInput("")) && LastHash(f, None) == Ok(GENESIS)
    ensures Ruined(f, "", SampleReceipt(f, "", GENESIS), more)
  {
    CarelessRuins(f, None, SampleEnv(f), SampleInput(""), 1, more);
  }

  /** The log with `v` appended is invalid, whatever is written after it, unless `v` is misread. */
  predicate Ruined(f: Format, text: string, v: Json, more: string) {
    var c := CheckerOf(f);
    || (!Valid(c, Lines(Appended(f, text, v))) && !Valid(c, Lines(Appended(f, text, v) + more)))
    || Misread(f, v)
  }

  /** Carelessness is never repaired. */
  lemma CarelessRuins(f: Format, file: Option<string>, env: Env, input: Input, ts: U64, more: string)
    requires Sound(f) && Accepted(input) && Valid(CheckerOf(f), Lines(Contents(file)))
    ensures LastHash(f, file).Ok?
    ensures var v := Receipt(f, env, input, ts, LastHash(f, file).value);
            !Careful(f, env, input, ts, Contents(file), v) ==> Ruined(f, Contents(file), v, more)
  {
    AppendValid(f, file, env, input, ts);
    var v := Receipt(f, env, input, ts, LastHash(f, file).value);
    if !Careful(f, env, input, ts, Contents(file), v) && !Misread(f, v) {
      Terminated(f, Contents(file), v);
      BrokenStays(f, Appended(f, Contents(file), v), more);
    }
  }

  /** Nothing can be appended to a log that ends in more than white space after its last line feed. */
  lemma Unterminated(f: Format, text: string, env: Env, input: Input, ts: U64, more: string)
    requires Sound(f) && Accepted(input) && Valid(CheckerOf(f), Lines(text)) && !JsonBlank(Fragment(text))
    ensures LastHash(f, Some(text)).Ok?
    ensures Ruined(f, text, Receipt(f, env, input, ts, LastHash(f, Some(text)).value), more)
  {
    CarelessRuins(f, Some(text), env, input, ts, more);
  }

  /** A receipt that is not read back as it was written, nested too deep or with a rounded number, ruins
      the log it is appended to, although appending accepts it. */
  lemma ReadBackOtherwise(f: Format, file: Option<string>, env: Env, input: Input, ts: U64, more: string)
    requires Sound(f) && Accepted(input) && Valid(CheckerOf(f), Lines(Contents(file)))
    ensures LastHash(f, file).Ok?
    ensures var v := Receipt(f, env, input, ts, LastHash(f, file).value);
            f.parse(f.show(v)) != Some(v) ==> Ruined(f, Contents(file), v, more)
  {
    CarelessRuins(f, file, env, input, ts, more);
  }

  /** Appending writes behind an unterminated line, so it breaks a valid log whose last line feed was lost,
      even with a receipt that is complete: the two receipts end up on one line. */
  lemma UnterminatedLog(f: Format, more: string)
    requires Sound(f)
    requires var first := SampleReceipt(f, "loopback", GENESIS); f.parse(f.show(first)) == Some(first)
    ensures var first := SampleReceipt(f, "loopback", GENESIS);
            var (text, v) := (f.show(first), SampleReceipt(f, "loopback", HashOf(first)));
            && Valid(CheckerOf(f), Lines(text)) && Values(CheckerOf(f), Lines(text)).value == [first]
            && LastHash(f, Some(text)) == Ok(HashOf(first))
            && Ruined(f, text, v, more)
  {
    var first := SampleReceipt(f, "loopback", GENESIS);
    var text := f.show(first);
    assert OneLine(text);
    SampleLog(f);
    LastHashIsHead(f, Some(text));
    FragmentWhole(text);
    assert !JsonSpace(text[0]);
    Unterminated(f, text, SampleEnv(f), SampleInput("loopback"), 1, more);
  }

  /** The log of one receipt, without its line feed. */
  lemma SampleLog(f: Format)
    requires Sound(f)
    requires var first := SampleReceipt(f, "loopback", GENESIS); f.parse(f.show(first)) == Some(first)
    ensures var first := SampleReceipt(f, "loopback", GENESIS);
            Valid(CheckerOf(f), Lines(f.show(first))) && Values(CheckerOf(f), Lines(f.show(first))).value == [first]
  {
    var c, first := CheckerOf(f), SampleReceipt(f, "loopback", GENESIS);
    assert OneLine(f.show(first));
    OneLineText(f.show(first));
    ReceiptLinks(f, SampleEnv(f), SampleInput("loopback"), 1, GENESIS);
    OneReceipt(c, f.show(first), first);
  }

  lemma OneReceipt(c: Checker, line: string, v: Json)
    requires OneLine(line) && c.parse(line) == Some(v) && c.rules.link(c.rules.genesis, v)
    ensures Valid(c, [line]) && Values(c, [line]).value == [v]
  {
    var none: seq<string> := [];
    assert Values(c, none) == Some([]) && Chained(c.rules, []);
    LeadBlank("", line);
    assert "" + line == line && none + [line] == [line];
    ValidAdd(c, none, line);
    assert [] + [v] == [v];
  }

  lemma FragmentWhole(text: string)
    requires '\n' !in text
    ensures Fragment(text) == text
  {
    assert text[..|text|] == text;
    BreakFirst(text, |text|);
  }

  /** Whatever was there, an appended text ends in a complete line. */
  lemma Terminated(f: Format, text: string, v: Json)
    requires Lays(f) && v.Obj?
    ensures Fragment(Appended(f, text, v)) == ""
  {
    assert OneLine(f.show(v));
    var base := Split(text);
    var line := Fragment(text) + f.show(v);
    Assoc(base, Fragment(text), f.show(v) + "\n");
    Assoc(Fragment(text), f.show(v), "\n");
    LineEnds(line);
    FragmentOfWhole(base, line + "\n");
  }

  lemma {:induction false} FragmentOfWhole(text: string, more: string)
    requires Fragment(text) == ""
    ensures Fragment(text + more) == Fragment(more)
    decreases |text|
  {
    if text == "" {
      assert text + more == more;
    } else {
      BreakAdd(text, more);
      FragmentOfWhole(text[Break(text) + 1..], more);
    }
  }

  lemma LineEnds(line: string)
    requires '\n' !in line
    ensures Fragment(line + "\n") == ""
  {
    var text := line + "\n";
    assert text[..|line|] == line && text[|line| + 1..] == "";
    BreakFirst(text, |line|);
  }
}
