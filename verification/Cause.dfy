/** The identity of a failure: `derive_failure_cause` and the report reading behind it. */
module Cause {
  import opened Wrappers
  import opened Text
  import opened Classify
  import opened Digest

  datatype CauseIdentity = CauseIdentity(version: nat, basis: string, diagnostic: Option<string>, signature: string)

  const PRIMARY := "primary-diagnostic"
  const COARSE := "coarse-fallback"
  const V2 := "sig:v2:"
  const V2_FALLBACK := "sig:v2:fallback:"
  const BARE_MISMATCH := "compiler:error[E0308]:mismatched types"

  const ESC := '\U{1B}'

  // ── ANSI stripping ─────────────────────────────────────────────────────

  predicate IsFinalByte(c: char) { '@' <= c <= '~' }

  /** What follows the first final byte, or nothing. */
  function AfterEscape(s: string): (r: string)
    ensures |r| <= |s|
  {
    if s == "" then "" else if IsFinalByte(s[0]) then s[1..] else AfterEscape(s[1..])
  }

  function Stripped(text: string): string
    decreases |text|
  {
    if text == "" then ""
    else if text[0] == ESC && |text| > 1 && text[1] == '[' then Stripped(AfterEscape(text[2..]))
    else [text[0]] + Stripped(text[1..])
  }

  method StripAnsi(text: string) returns (result: string)
    ensures result == Stripped(text)
  {
    result := "";
    var i := 0;
    while i < |text|
      invariant 0 <= i <= |text|
      invariant result + Stripped(text[i..]) == Stripped(text)
    {
      if text[i] == ESC && i + 1 < |text| && text[i + 1] == '[' {
        ghost var start := i;
        assert text[i..][2..] == text[i + 2..];
        i := i + 2;
        var ended := false;
        while i < |text| && !ended
          invariant start + 2 <= i <= |text|
          invariant AfterEscape(text[start + 2..]) == if ended then text[i..] else AfterEscape(text[i..])
          decreases |text| - i, !ended
        {
          assert text[i..][1..] == text[i + 1..];
          ended := IsFinalByte(text[i]);
          i := i + 1;
        }
      } else {
        assert text[i..][1..] == text[i + 1..];
        result := result + [text[i]];
        i := i + 1;
      }
    }
    assert result + "" == result;
  }

  /** A complete escape sequence after plain text leaves no trace. */
  lemma {:induction false} EscapeLeavesNoTrace(plain: string, params: string, final: char, rest: string)
    requires ESC !in plain && IsFinalByte(final)
    requires forall i :: 0 <= i < |params| ==> !IsFinalByte(params[i])
    ensures Stripped(plain + [ESC, '['] + params + [final] + rest) == plain + Stripped(rest)
    decreases |plain|
  {
    var text := plain + [ESC, '['] + params + [final] + rest;
    if plain == "" {
      assert text[2..] == params + [final] + rest;
      SkipParams(params, final, rest);
    } else {
      assert text[0] == plain[0];
      assert text[1..] == plain[1..] + [ESC, '['] + params + [final] + rest;
      EscapeLeavesNoTrace(plain[1..], params, final, rest);
      assert plain == [plain[0]] + plain[1..];
    }
  }

  lemma {:induction false} SkipParams(params: string, final: char, rest: string)
    requires IsFinalByte(final)
    requires forall i :: 0 <= i < |params| ==> !IsFinalByte(params[i])
    ensures AfterEscape(params + [final] + rest) == rest
  {
    var s := params + [final] + rest;
    if params == "" {
      assert s[1..] == rest;
    } else {
      assert s[1..] == params[1..] + [final] + rest;
      SkipParams(params[1..], final, rest);
    }
  }

  // ── normalising a message ──────────────────────────────────────────────

  predicate AllHex(s: string) {
    forall i :: 0 <= i < |s| ==> IsHexDigit(s[i])
  }

  predicate HasDigit(s: string) {
    exists i :: 0 <= i < |s| && IsDigit(s[i])
  }

  predicate IsUuid(t: string) {
    && |t| == 36
    && forall i :: 0 <= i < 36 ==> if i == 8 || i == 13 || i == 18 || i == 23 then t[i] == '-' else IsHexDigit(t[i])
  }

  function AfterLast(s: string, c: char): string {
    match IndexOf(s, c)
    case None => s
    case Some(i) => AfterLast(s[i + 1..], c)
  }

  predicate IsUlid(s: string) {
    && |s| == 26
    && forall i :: 0 <= i < 26 ==> s[i] in "0123456789ABCDEFGHJKMNPQRSTVWXYZ"
  }

  /** Value of a digit string. */
  function Decimal(s: string): nat {
    if s == "" then 0
    else Decimal(s[..|s| - 1]) * 10 + if IsDigit(s[|s| - 1]) then s[|s| - 1] as int - '0' as int else 0
  }

  predicate ParsesAsU8(s: string) {
    var digits := if "+" <= s then s[1..] else s;
    digits != "" && (forall i :: 0 <= i < |digits| ==> IsDigit(digits[i])) && Decimal(digits) <= 255
  }

  predicate IsIpv4(host: string) {
    var parts := SplitChar(host, '.');
    |parts| == 4 && forall i :: 0 <= i < 4 ==> ParsesAsU8(parts[i])
  }

  function TokenOf(word: string): string {
    var inner := TrimEndBy(TrimBy(word, c => c in "\"'`()[],;"), c => c == '.' || c == ':');
    match SplitOnce(inner, "=") case Some(cut) => cut.1 case None => inner
  }

  predicate IsIdentifier(token: string) {
    IsUuid(token) || IsUlid(AfterLast(token, '-')) || ("0x" <= token && AllHex(token[2..]))
  }

  predicate IsPath(token: string, inRepo: string -> Option<string>) {
    || "/" <= token || "file://" <= token || "\\" <= token
    || (|token| > 1 && token[1] == ':')
    || inRepo(token).Some?
  }

  predicate IsAddress(token: string) {
    "http://" <= token || "https://" <= token || "localhost:" <= token || IsIpv4(Before(token, ':'))
  }

  predicate IsRuntimeNumber(word: string, token: string, previous: string) {
    var before := TrimEndBy(previous, c => c == ':' || c == '=');
    && !StartsWithAny(word, ["'", "\"", "`"])
    && (|| before in ["port", "line", "column", "pid", "duration"]
        || StartsWithAny(word, ["port=", "pid=", "line=", "column="])
        || ('T' in token && '-' in token && ':' in token))
    && HasDigit(token)
  }

  /** One word of a message, given the word before it. */
  function NormalizeWord(word: string, previous: string, inRepo: string -> Option<string>): string {
    var token := TokenOf(word);
    if IsIdentifier(token) then "<id>"
    else if IsPath(token, inRepo) then "<path>"
    else if IsAddress(token) then "<address>"
    else if IsRuntimeNumber(word, token, previous) then "<number>"
    else word
  }

  function NormalizeWords(words: seq<string>, previous: string, inRepo: string -> Option<string>): seq<string> {
    if words == [] then []
    else [NormalizeWord(words[0], previous, inRepo)] + NormalizeWords(words[1..], words[0], inRepo)
  }

  function Normalize(message: string, inRepo: string -> Option<string>): string {
    Join(NormalizeWords(Words(message), "", inRepo), " ")
  }

  // ── which lines speak ──────────────────────────────────────────────────

  predicate AllDigits(s: string) {
    forall i :: 0 <= i < |s| ==> IsDigit(s[i])
  }

  predicate IsWrapperLine(raw: string) {
    var line := Trim(raw);
    || StartsWithAny(line, ["test ", "thread '", "---- ", "--- FAIL:", "FAILED ", "at ", "--> ", "\U{25CF} ", "failures:"])
    || Contains(line, " | ")
    || match SplitOnce(line, ":") case Some(cut) => AllDigits(cut.0) case None => false
  }

  function CompilerDiagnostic(raw: string, inRepo: string -> Option<string>): Option<string> {
    var line := Trim(raw);
    var start := match Find(line, "error TS") case Some(i) => Some(i) case None => Find(line, "error[E");
    match start
    case Some(i) =>
      (match SplitOnce(line[i..], ": ")
       case None => None
       case Some((code, message)) =>
         if Trim(message) == "" || !HasDigit(code) then None
         else Some("compiler:" + code + ":" + Normalize(message, inRepo)))
    case None =>
      match StripPrefix(line, "error: ")
      case None => None
      case Some(message) =>
        if StartsWithAny(message, ["could not compile", "aborting due to"]) then None
        else if StartsWithAny(message, ["cannot ", "unresolved ", "mismatched ", "expected ", "missing "]) then
          Some("compiler:" + Normalize(message, inRepo))
        else None
  }

  function StartupDiagnostic(line: string): Option<string> {
    var lower := Lower(line);
    if && ContainsAny(lower, ["sun_len", "socket", "unix"])
       && Contains(lower, "path")
       && ContainsAny(lower, ["too long", "exceed", "shorter than", "length limit"])
    then Some("startup:unix-socket-path-limit")
    else if && ContainsAny(lower, ["mismatch", "incompatible", "unsupported", "does not match"])
            && ContainsAny(lower, ["protocol", "schema"])
    then Some("startup:" + (if Contains(lower, "protocol") then "protocol" else "schema") + "-mismatch")
    else if && ContainsAny(lower, ["database", "db ", "writerlock"])
            && ContainsAny(lower, ["already owned", "another process", "owner lock", "already locked"])
    then Some("startup:database-owner-lifetime")
    else None
  }

  function RustSpanDetail(line: string): Option<string> {
    if !("|" <= line) then None
    else
      var annotation := TrimStartBy(line[1..], IsSpace);
      if !StartsWithAny(annotation, ["^", "-"]) then None
      else
        var detail := TrimStartBy(annotation, c => c == '^' || c == '-' || IsSpace(c));
        if StartsWithAny(detail, ["expected ", "found "]) then Some(detail) else None
  }

  /** A line that ends the continuation block of a Rust diagnostic. */
  predicate EndsBlock(raw: string) {
    StartsWithAny(Trim(raw), ["error", "warning", "thread '", "test "])
  }

  /** What one continuation line adds to the diagnostic. */
  function DetailOf(raw: string, inRepo: string -> Option<string>): string {
    var continuation := Trim(raw);
    var detail := match StripPrefix(continuation, "= note: ")
      case Some(d) => d
      case None => RustSpanDetail(continuation).GetOr(continuation);
    if StartsWithAny(detail, ["expected ", "found "]) then " | " + Normalize(detail, inRepo) else ""
  }

  /** The diagnostic with the details of all lines up to the end of its block. */
  function Extended(diagnostic: string, rest: seq<string>, inRepo: string -> Option<string>): string
    decreases |rest|
  {
    if rest == [] || EndsBlock(rest[0]) then diagnostic
    else Extended(diagnostic + DetailOf(rest[0], inRepo), rest[1..], inRepo)
  }

  /** One step of the search: keep looking, fall back, or stop with a diagnostic. */
  datatype Hit = Miss | Bare | Precise(diagnostic: string)

  function HitAt(line: string, rest: seq<string>, inRepo: string -> Option<string>): Hit {
    if IsWrapperLine(line) then Miss
    else match CompilerDiagnostic(line, inRepo)
      case Some(d) =>
        var whole := if Contains(line, "error[E") then Extended(d, rest, inRepo) else d;
        if whole == BARE_MISMATCH then Bare else Precise(whole)
      case None =>
        match StartupDiagnostic(line)
        case Some(d) => Precise(d)
        case None => Miss
  }

  function FirstHit(lines: seq<string>, inRepo: string -> Option<string>): Hit {
    if lines == [] then Miss
    else
      var hit := HitAt(lines[0], lines[1..], inRepo);
      if hit.Miss? then FirstHit(lines[1..], inRepo) else hit
  }

  // ── identity ───────────────────────────────────────────────────────────

  function BroadErrorClass(cls: string): string {
    if cls in ["compile-error", "assertion", "panic", "timeout", "missing-binary", "permission-denied",
               "spawn-error", "not-executable", "oom", "disk-full", "network", "port-in-use", "fd-exhausted"]
    then cls else "unknown"
  }

  function Material(contract: string, cls: FailureClass, basis: string, detail: string): string {
    OnNewLine(OnNewLine(OnNewLine(OnNewLine("sdi-failure-cause-v2\ncontract:" + contract, "class:" + cls.Name()),
                                  "basis:" + basis), "diagnostic:" + detail), "")
  }

  function OnNewLine(text: string, line: string): string {
    text + "\n" + line
  }

  function PreciseIdentity(sha: string -> string, contract: string, cls: FailureClass, detail: string): CauseIdentity {
    CauseIdentity(2, PRIMARY, Some(detail), V2 + sha(Material(contract, cls, PRIMARY, detail)))
  }

  function FallbackIdentity(sha: string -> string, contract: string, cls: FailureClass, errorClass: string): CauseIdentity {
    CauseIdentity(2, COARSE, None, V2_FALLBACK + sha(Material(contract, cls, COARSE, BroadErrorClass(errorClass))))
  }

  function IdentityOf(sha: string -> string, contract: string, cls: FailureClass, errorClass: string, hit: Hit)
    : CauseIdentity
  {
    match hit
    case Precise(d) => PreciseIdentity(sha, contract, cls, d)
    case _ => FallbackIdentity(sha, contract, cls, errorClass)
  }

  function FailureCause(sha: string -> string, contract: string, cls: FailureClass, errorClass: string,
                        output: string, inRepo: string -> Option<string>): CauseIdentity
  {
    IdentityOf(sha, contract, cls, errorClass, FirstHit(Lines(Stripped(output)), inRepo))
  }

  /** The continuation loop of a Rust diagnostic. */
  method ExtendDiagnostic(first: string, rest: seq<string>, inRepo: string -> Option<string>) returns (diagnostic: string)
    ensures diagnostic == Extended(first, rest, inRepo)
  {
    diagnostic := first;
    var i := 0;
    while i < |rest| && !EndsBlock(rest[i])
      invariant 0 <= i <= |rest|
      invariant Extended(diagnostic, rest[i..], inRepo) == Extended(first, rest, inRepo)
    {
      assert rest[i..][1..] == rest[i + 1..];
      diagnostic := diagnostic + DetailOf(rest[i], inRepo);
      i := i + 1;
    }
  }

  method DeriveFailureCause(sha: string -> string, contract: string, cls: FailureClass, errorClass: string,
                            output: string, inRepo: string -> Option<string>) returns (identity: CauseIdentity)
    ensures identity == FailureCause(sha, contract, cls, errorClass, output, inRepo)
  {
    var clean := StripAnsi(output);
    var lines := Lines(clean);
    var hit := Miss;
    var i := 0;
    while i < |lines| && hit.Miss?
      invariant 0 <= i <= |lines|
      invariant FirstHit(lines, inRepo) == if hit.Miss? then FirstHit(lines[i..], inRepo) else hit
    {
      var line := lines[i];
      assert lines[i..][1..] == lines[i + 1..];
      if !IsWrapperLine(line) {
        var compiler := CompilerDiagnostic(line, inRepo);
        if compiler.Some? {
          var diagnostic := compiler.value;
          if Contains(line, "error[E") {
            diagnostic := ExtendDiagnostic(diagnostic, lines[i + 1..], inRepo);
          }
          hit := if diagnostic == BARE_MISMATCH then Bare else Precise(diagnostic);
        } else {
          var startup := StartupDiagnostic(line);
          hit := if startup.Some? then Precise(startup.value) else Miss;
        }
      }
      i := i + 1;
    }
    identity := IdentityOf(sha, contract, cls, errorClass, hit);
  }

  // ── the identity depends only on the primary diagnostic ────────────────

  /** A line the search stops at. */
  predicate IsDiagnosticLine(line: string, inRepo: string -> Option<string>) {
    !IsWrapperLine(line) && (CompilerDiagnostic(line, inRepo).Some? || StartupDiagnostic(line).Some?)
  }

  /** A diagnostic with a Rust error code, which reads its continuation block. */
  predicate ReadsBlock(line: string, inRepo: string -> Option<string>) {
    CompilerDiagnostic(line, inRepo).Some? && Contains(line, "error[E")
  }

  /** `lines` is noise, then the first diagnostic line, then its block, then anything the block does not reach. */
  ghost predicate Reports(lines: seq<string>, noise: seq<string>, line: string, block: seq<string>, tail: seq<string>,
                          inRepo: string -> Option<string>)
  {
    && lines == noise + [line] + block + tail
    && (forall i :: 0 <= i < |noise| ==> !IsDiagnosticLine(noise[i], inRepo))
    && IsDiagnosticLine(line, inRepo)
    && (if ReadsBlock(line, inRepo) then
          (forall i :: 0 <= i < |block| ==> !EndsBlock(block[i])) && (tail != [] ==> EndsBlock(tail[0]))
        else block == [])
  }

  lemma {:induction false} SkipNoise(noise: seq<string>, rest: seq<string>, inRepo: string -> Option<string>)
    requires forall i :: 0 <= i < |noise| ==> !IsDiagnosticLine(noise[i], inRepo)
    ensures FirstHit(noise + rest, inRepo) == FirstHit(rest, inRepo)
  {
    if noise == [] {
      assert noise + rest == rest;
    } else {
      assert (noise + rest)[1..] == noise[1..] + rest;
      SkipNoise(noise[1..], rest, inRepo);
    }
  }

  lemma {:induction false} BlockEnds(d: string, block: seq<string>, tail: seq<string>, inRepo: string -> Option<string>)
    requires forall i :: 0 <= i < |block| ==> !EndsBlock(block[i])
    requires tail != [] ==> EndsBlock(tail[0])
    ensures Extended(d, block + tail, inRepo) == Extended(d, block, inRepo)
    decreases |block|
  {
    if block == [] {
      assert block + tail == tail;
    } else {
      assert (block + tail)[1..] == block[1..] + tail;
      BlockEnds(d + DetailOf(block[0], inRepo), block[1..], tail, inRepo);
    }
  }

  lemma HitIgnoresTail(line: string, block: seq<string>, tail: seq<string>, inRepo: string -> Option<string>)
    requires IsDiagnosticLine(line, inRepo)
    requires ReadsBlock(line, inRepo) ==> forall i :: 0 <= i < |block| ==> !EndsBlock(block[i])
    requires ReadsBlock(line, inRepo) ==> tail != [] ==> EndsBlock(tail[0])
    ensures HitAt(line, block + tail, inRepo) == HitAt(line, block, inRepo)
    ensures !HitAt(line, block, inRepo).Miss?
  {
    if ReadsBlock(line, inRepo) {
      BlockEnds(CompilerDiagnostic(line, inRepo).value, block, tail, inRepo);
    }
  }

  lemma StopsAtHead(line: string, rest: seq<string>, inRepo: string -> Option<string>)
    requires !HitAt(line, rest, inRepo).Miss?
    ensures FirstHit([line] + rest, inRepo) == HitAt(line, rest, inRepo)
  {
    assert ([line] + rest)[1..] == rest;
  }

  lemma Reassociate(noise: seq<string>, line: string, block: seq<string>, tail: seq<string>)
    ensures noise + [line] + block + tail == noise + ([line] + (block + tail))
  {
  }

  lemma PrimaryHit(lines: seq<string>, noise: seq<string>, line: string, block: seq<string>, tail: seq<string>,
                   inRepo: string -> Option<string>)
    requires Reports(lines, noise, line, block, tail, inRepo)
    ensures FirstHit(lines, inRepo) == HitAt(line, block, inRepo)
    ensures !HitAt(line, block, inRepo).Miss?
  {
    Reassociate(noise, line, block, tail);
    SkipNoise(noise, [line] + (block + tail), inRepo);
    HitIgnoresTail(line, block, tail, inRepo);
    StopsAtHead(line, block + tail, inRepo);
  }

  /** Changing what surrounds the first diagnostic and its block changes nothing. */
  lemma SurroundingsDoNotMatter(sha: string -> string, contract: string, cls: FailureClass, errorClass: string,
                                a: string, b: string, inRepo: string -> Option<string>,
                                noiseA: seq<string>, noiseB: seq<string>, line: string, block: seq<string>,
                                tailA: seq<string>, tailB: seq<string>)
    requires Reports(Lines(Stripped(a)), noiseA, line, block, tailA, inRepo)
    requires Reports(Lines(Stripped(b)), noiseB, line, block, tailB, inRepo)
    ensures FailureCause(sha, contract, cls, errorClass, a, inRepo) == FailureCause(sha, contract, cls, errorClass, b, inRepo)
    ensures FailureCause(sha, contract, cls, errorClass, a, inRepo)
            == IdentityOf(sha, contract, cls, errorClass, HitAt(line, block, inRepo))
  {
    PrimaryHit(Lines(Stripped(a)), noiseA, line, block, tailA, inRepo);
    PrimaryHit(Lines(Stripped(b)), noiseB, line, block, tailB, inRepo);
  }

  lemma DiagnosticAtHead(line: string, rest: seq<string>, inRepo: string -> Option<string>)
    requires IsDiagnosticLine(line, inRepo)
    ensures exists block, tail :: Reports([line] + rest, [], line, block, tail, inRepo)
  {
    hide IsDiagnosticLine, ReadsBlock, EndsBlock;
    var n := if ReadsBlock(line, inRepo) then BlockLen(rest) else 0;
    assert [line] + rest == [] + [line] + rest[..n] + rest[n..];
    assert Reports([line] + rest, [], line, rest[..n], rest[n..], inRepo);
  }

  lemma NoiseInFront(first: string, lines: seq<string>, noise: seq<string>, line: string, block: seq<string>,
                     tail: seq<string>, inRepo: string -> Option<string>)
    requires !IsDiagnosticLine(first, inRepo) && Reports(lines, noise, line, block, tail, inRepo)
    ensures Reports([first] + lines, [first] + noise, line, block, tail, inRepo)
  {
    hide IsDiagnosticLine, ReadsBlock, EndsBlock;
    assert [first] + lines == ([first] + noise) + [line] + block + tail;
  }

  /** Every report either has a primary diagnostic or consists of noise. */
  lemma {:induction false} EveryReportDecomposes(lines: seq<string>, inRepo: string -> Option<string>)
    ensures || (forall i :: 0 <= i < |lines| ==> !IsDiagnosticLine(lines[i], inRepo))
            || exists noise, line, block, tail :: Reports(lines, noise, line, block, tail, inRepo)
  {
    hide IsDiagnosticLine, Reports;
    if lines != [] {
      if IsDiagnosticLine(lines[0], inRepo) {
        DiagnosticAtHead(lines[0], lines[1..], inRepo);
        assert lines == [lines[0]] + lines[1..];
      } else {
        EveryReportDecomposes(lines[1..], inRepo);
        if noise, line, block, tail :| Reports(lines[1..], noise, line, block, tail, inRepo) {
          NoiseInFront(lines[0], lines[1..], noise, line, block, tail, inRepo);
          assert lines == [lines[0]] + lines[1..];
        }
      }
    }
  }

  function BlockLen(rest: seq<string>): (n: nat)
    ensures n <= |rest|
    ensures forall i :: 0 <= i < n ==> !EndsBlock(rest[i])
    ensures n < |rest| ==> EndsBlock(rest[n])
  {
    if rest == [] || EndsBlock(rest[0]) then 0 else 1 + BlockLen(rest[1..])
  }

  /** Without a supported diagnostic the report is not part of the identity, and raw error text is not either. */
  lemma NoDiagnosticNoReport(sha: string -> string, contract: string, cls: FailureClass, errorA: string, errorB: string,
                             a: string, b: string, inRepo: string -> Option<string>)
    requires forall line :: line in Lines(Stripped(a)) || line in Lines(Stripped(b)) ==> !IsDiagnosticLine(line, inRepo)
    requires BroadErrorClass(errorA) == BroadErrorClass(errorB)
    ensures FailureCause(sha, contract, cls, errorA, a, inRepo) == FailureCause(sha, contract, cls, errorB, b, inRepo)
    ensures FailureCause(sha, contract, cls, errorA, a, inRepo) == FallbackIdentity(sha, contract, cls, errorA)
  {
    var la, lb := Lines(Stripped(a)), Lines(Stripped(b));
    SkipNoise(la, [], inRepo);
    SkipNoise(lb, [], inRepo);
    assert la + [] == la && lb + [] == lb;
  }

  /** A type mismatch without details stops the search, whatever further diagnostics the report holds. */
  lemma BareMismatchFallsBack(sha: string -> string, contract: string, cls: FailureClass, errorClass: string,
                              report: string, inRepo: string -> Option<string>,
                              noise: seq<string>, line: string, block: seq<string>, tail: seq<string>)
    requires Reports(Lines(Stripped(report)), noise, line, block, tail, inRepo)
    requires CompilerDiagnostic(line, inRepo) == Some(BARE_MISMATCH)
    requires forall i :: 0 <= i < |block| ==> DetailOf(block[i], inRepo) == ""
    ensures FailureCause(sha, contract, cls, errorClass, report, inRepo) == FallbackIdentity(sha, contract, cls, errorClass)
  {
    PrimaryHit(Lines(Stripped(report)), noise, line, block, tail, inRepo);
    if ReadsBlock(line, inRepo) { NothingToAdd(BARE_MISMATCH, block, inRepo); }
  }

  lemma {:induction false} NothingToAdd(d: string, block: seq<string>, inRepo: string -> Option<string>)
    requires forall i :: 0 <= i < |block| ==> DetailOf(block[i], inRepo) == ""
    ensures Extended(d, block, inRepo) == d
    decreases |block|
  {
    if block != [] && !EndsBlock(block[0]) {
      assert d + "" == d;
      NothingToAdd(d, block[1..], inRepo);
    }
  }

  // ── the signature tells causes apart ───────────────────────────────────

  predicate OneLine(s: string) {
    '\n' !in s
  }

  lemma {:induction false} WordsAreWords(s: string)
    ensures forall i :: 0 <= i < |Words(s)| ==> IsWord(Words(s)[i])
    decreases |s|
  {
    if s != "" {
      if IsSpace(s[0]) { WordsAreWords(s[1..]); } else { WordsAreWords(s[WordLen(s)..]); }
    }
  }

  lemma {:induction false} NormalizedWordsAreOneLine(words: seq<string>, previous: string, inRepo: string -> Option<string>)
    requires forall i :: 0 <= i < |words| ==> IsWord(words[i])
    ensures forall w :: w in NormalizeWords(words, previous, inRepo) ==> OneLine(w)
    decreases |words|
  {
    hide TokenOf, IsIdentifier, IsPath, IsAddress, IsRuntimeNumber;
    if words != [] { NormalizedWordsAreOneLine(words[1..], words[0], inRepo); }
  }

  lemma {:induction false} JoinedIsOneLine(words: seq<string>)
    requires forall w :: w in words ==> OneLine(w)
    ensures OneLine(Join(words, " "))
  {
    if |words| == 1 {
      assert words[0] in words;
    } else if |words| > 1 {
      assert words[0] in words;
      JoinedIsOneLine(words[1..]);
    }
  }

  lemma NormalizeIsOneLine(message: string, inRepo: string -> Option<string>)
    ensures OneLine(Normalize(message, inRepo))
  {
    WordsAreWords(message);
    NormalizedWordsAreOneLine(Words(message), "", inRepo);
    JoinedIsOneLine(NormalizeWords(Words(message), "", inRepo));
  }

  lemma {:induction false} TrimStartKeepsOneLine(s: string, p: char -> bool)
    requires OneLine(s)
    ensures OneLine(TrimStartBy(s, p))
  {
    if s != "" { TrimStartKeepsOneLine(s[1..], p); }
  }

  lemma {:induction false} TrimEndKeepsOneLine(s: string, p: char -> bool)
    requires OneLine(s)
    ensures OneLine(TrimEndBy(s, p))
  {
    if s != "" { TrimEndKeepsOneLine(s[..|s| - 1], p); }
  }

  lemma DiagnosticIsOneLine(raw: string, inRepo: string -> Option<string>)
    requires OneLine(raw) && CompilerDiagnostic(raw, inRepo).Some?
    ensures OneLine(CompilerDiagnostic(raw, inRepo).value)
  {
    hide Normalize;
    TrimStartKeepsOneLine(raw, IsSpace);
    TrimEndKeepsOneLine(TrimStartBy(raw, IsSpace), IsSpace);
    var line := Trim(raw);
    forall message { NormalizeIsOneLine(message, inRepo); }
  }

  lemma {:induction false} ExtendedIsOneLine(diagnostic: string, rest: seq<string>, inRepo: string -> Option<string>)
    requires OneLine(diagnostic)
    ensures OneLine(Extended(diagnostic, rest, inRepo))
    decreases |rest|
  {
    hide Normalize, EndsBlock;
    if rest != [] && !EndsBlock(rest[0]) {
      assert OneLine(DetailOf(rest[0], inRepo)) by { forall message { NormalizeIsOneLine(message, inRepo); } }
      ExtendedIsOneLine(diagnostic + DetailOf(rest[0], inRepo), rest[1..], inRepo);
    }
  }

  lemma HitAtIsOneLine(line: string, rest: seq<string>, inRepo: string -> Option<string>)
    requires OneLine(line)
    ensures HitAt(line, rest, inRepo).Precise? ==> OneLine(HitAt(line, rest, inRepo).diagnostic)
  {
    hide CompilerDiagnostic, IsWrapperLine, Extended, Contains;
    if CompilerDiagnostic(line, inRepo).Some? {
      DiagnosticIsOneLine(line, inRepo);
      ExtendedIsOneLine(CompilerDiagnostic(line, inRepo).value, rest, inRepo);
    } else if StartupDiagnostic(line).Some? {
      StartupIsOneLine(line);
    }
  }

  lemma StartupIsOneLine(line: string)
    requires StartupDiagnostic(line).Some?
    ensures OneLine(StartupDiagnostic(line).value)
  {
    hide Contains, ContainsAny;
  }

  lemma {:induction false} HitIsOneLine(lines: seq<string>, inRepo: string -> Option<string>)
    requires forall i :: 0 <= i < |lines| ==> OneLine(lines[i])
    ensures FirstHit(lines, inRepo).Precise? ==> OneLine(FirstHit(lines, inRepo).diagnostic)
    decreases |lines|
  {
    hide HitAt;
    if lines != [] {
      HitIsOneLine(lines[1..], inRepo);
      HitAtIsOneLine(lines[0], lines[1..], inRepo);
    }
  }

  lemma SplitAtLastLine(a: string, x: string, b: string, y: string)
    requires OnNewLine(a, x) == OnNewLine(b, y)
    requires OneLine(x) && OneLine(y)
    ensures a == b && x == y
  {
    var s := a + "\n" + x;
    assert s[|a|] == '\n' && s[|b|] == '\n';
    assert |a| == |b|;
    assert s[..|a|] == a && s[..|b|] == b;
    assert s[|a| + 1..] == x && s[|b| + 1..] == y;
  }

  /** Whatever the contract text, class, basis and one-line detail can be read back from the hashed material. */
  lemma MaterialInjective(contractA: string, clsA: FailureClass, basisA: string, detailA: string,
                          contractB: string, clsB: FailureClass, basisB: string, detailB: string)
    requires OneLine(basisA) && OneLine(basisB) && OneLine(detailA) && OneLine(detailB)
    ensures Material(contractA, clsA, basisA, detailA) == Material(contractB, clsB, basisB, detailB)
            <==> contractA == contractB && clsA == clsB && basisA == basisB && detailA == detailB
  {
    if Material(contractA, clsA, basisA, detailA) == Material(contractB, clsB, basisB, detailB) {
      var a1, b1 := "sdi-failure-cause-v2\ncontract:" + contractA, "sdi-failure-cause-v2\ncontract:" + contractB;
      var a2, b2 := OnNewLine(a1, "class:" + clsA.Name()), OnNewLine(b1, "class:" + clsB.Name());
      var a3, b3 := OnNewLine(a2, "basis:" + basisA), OnNewLine(b2, "basis:" + basisB);
      var a4, b4 := OnNewLine(a3, "diagnostic:" + detailA), OnNewLine(b3, "diagnostic:" + detailB);
      SplitAtLastLine(a4, "", b4, "");
      SplitAtLastLine(a3, "diagnostic:" + detailA, b3, "diagnostic:" + detailB);
      SplitAtLastLine(a2, "basis:" + basisA, b2, "basis:" + basisB);
      SplitAtLastLine(a1, "class:" + clsA.Name(), b1, "class:" + clsB.Name());
      DropLabel("diagnostic:", detailA, detailB);
      DropLabel("basis:", basisA, basisB);
      DropLabel("class:", clsA.Name(), clsB.Name());
      DropLabel("sdi-failure-cause-v2\ncontract:", contractA, contractB);
    }
  }

  function IdentityMaterial(contract: string, cls: FailureClass, errorClass: string, hit: Hit): string {
    match hit
    case Precise(d) => Material(contract, cls, PRIMARY, d)
    case _ => Material(contract, cls, COARSE, BroadErrorClass(errorClass))
  }

  /** Two derived identities share a signature exactly when contract, class and diagnostic (or, without a diagnostic,
      the broad error class) agree. A fallback signature is never a precise one. */
  lemma SignatureTellsCausesApart(sha: string -> string, contractA: string, clsA: FailureClass, errorA: string, reportA: string,
                                  contractB: string, clsB: FailureClass, errorB: string, reportB: string,
                                  inRepo: string -> Option<string>)
    requires forall s :: IsDigest(sha(s))
    requires NoCollision(sha, IdentityMaterial(contractA, clsA, errorA, FirstHit(Lines(Stripped(reportA)), inRepo)),
                         IdentityMaterial(contractB, clsB, errorB, FirstHit(Lines(Stripped(reportB)), inRepo)))
    ensures var a := FailureCause(sha, contractA, clsA, errorA, reportA, inRepo);
            var b := FailureCause(sha, contractB, clsB, errorB, reportB, inRepo);
            a.signature == b.signature
            <==> contractA == contractB && clsA == clsB && a.diagnostic == b.diagnostic
                 && (a.diagnostic.None? ==> BroadErrorClass(errorA) == BroadErrorClass(errorB))
  {
    var hitA := FirstHit(Lines(Stripped(reportA)), inRepo);
    var hitB := FirstHit(Lines(Stripped(reportB)), inRepo);
    HitIsOneLine(Lines(Stripped(reportA)), inRepo);
    HitIsOneLine(Lines(Stripped(reportB)), inRepo);
    IdentitySignatures(sha, contractA, clsA, errorA, hitA, contractB, clsB, errorB, hitB);
  }

  lemma IdentitySignatures(sha: string -> string, contractA: string, clsA: FailureClass, errorA: string, hitA: Hit,
                           contractB: string, clsB: FailureClass, errorB: string, hitB: Hit)
    requires forall s :: IsDigest(sha(s))
    requires hitA.Precise? ==> OneLine(hitA.diagnostic)
    requires hitB.Precise? ==> OneLine(hitB.diagnostic)
    requires NoCollision(sha, IdentityMaterial(contractA, clsA, errorA, hitA), IdentityMaterial(contractB, clsB, errorB, hitB))
    ensures var a := IdentityOf(sha, contractA, clsA, errorA, hitA);
            var b := IdentityOf(sha, contractB, clsB, errorB, hitB);
            a.signature == b.signature
            <==> contractA == contractB && clsA == clsB && a.diagnostic == b.diagnostic
                 && (a.diagnostic.None? ==> BroadErrorClass(errorA) == BroadErrorClass(errorB))
  {
    hide Material, BroadErrorClass;
    BroadIsOneLine(errorA);
    BroadIsOneLine(errorB);
    var ma := IdentityMaterial(contractA, clsA, errorA, hitA);
    var mb := IdentityMaterial(contractB, clsB, errorB, hitB);
    var detailA := if hitA.Precise? then hitA.diagnostic else BroadErrorClass(errorA);
    var detailB := if hitB.Precise? then hitB.diagnostic else BroadErrorClass(errorB);
    MaterialInjective(contractA, clsA, if hitA.Precise? then PRIMARY else COARSE, detailA,
                      contractB, clsB, if hitB.Precise? then PRIMARY else COARSE, detailB);
    if hitA.Precise? == hitB.Precise? {
      SamePrefix(if hitA.Precise? then V2 else V2_FALLBACK, sha(ma), sha(mb));
    } else if hitA.Precise? {
      FallbackIsNotPrecise(sha(ma), sha(mb));
    } else {
      FallbackIsNotPrecise(sha(mb), sha(ma));
    }
  }

  lemma FallbackIsNotPrecise(precise: string, fallback: string)
    requires IsDigest(precise)
    ensures V2 + precise != V2_FALLBACK + fallback
  {
    assert (V2 + precise)[9] == precise[2];
    assert (V2_FALLBACK + fallback)[9] == 'l';
  }

  lemma BroadIsOneLine(errorClass: string)
    ensures OneLine(BroadErrorClass(errorClass))
  {
  }
}
