/** Who is at fault when a run fails: `FailureClass`, `ExecOutcome` and `classify`. */
module Classify {
  import opened Wrappers
  import opened Text
  import ErrorLine
  import FailingTest

  datatype FailureClass = Product | Harness | Environment | Spec | NoFailure {
    predicate IsFailure() { !NoFailure? }

    predicate IsInfrastructure() { Harness? || Environment? }

    function Name(): string {
      match this
      case Product => "product"
      case Harness => "harness"
      case Environment => "environment"
      case Spec => "spec"
      case NoFailure => "none"
    }
  }

  datatype SpawnError = NotFound | PermissionDenied | OtherSpawn

  /** Observable process outcome of one verification run. */
  datatype ExecOutcome = ExecOutcome(exitCode: Option<int>, signal: Option<int>, timedOut: bool,
                                     spawnError: Option<SpawnError>) {
    predicate Passed() {
      exitCode == Some(0) && signal.None? && !timedOut && spawnError.None?
    }
  }

  datatype Classification = Classification(failureClass: FailureClass, errorClass: string,
                                           failingTest: Option<string>, topFrame: Option<string>)

  const SIGKILL := 9

  const OOM_MARKERS: seq<string> := [
    "out of memory", "cannot allocate memory", "javascript heap out of memory",
    "memoryerror", "oom-kill", "oomkilled"]

  const ENVIRONMENT_MARKERS: seq<(string, string)> := [
    ("no space left on device", "disk-full"),
    ("enospc", "disk-full"),
    ("econnrefused", "network"),
    ("enotfound", "network"),
    ("eai_again", "network"),
    ("could not resolve host", "network"),
    ("network is unreachable", "network"),
    ("connection timed out", "network"),
    ("eaddrinuse", "port-in-use"),
    ("address already in use", "port-in-use"),
    ("too many open files", "fd-exhausted"),
    ("emfile", "fd-exhausted"),
    ("command not found", "missing-binary"),
    ("no such file or directory (os error 2)", "missing-binary")]

  const COMPILE_MARKERS: seq<string> := [
    "error[e", "could not compile", "error ts", "syntaxerror", "compilation failed",
    "cannot find module", "module not found", "unresolved import"]

  const ASSERTION_MARKERS: seq<string> := [
    "assertion failed", "assertion `", "assertionerror", "assert_eq!", "assert!(", "expect(",
    "expected:", "expected ", "to equal", "tobe(", "test result: failed", "--- fail:",
    "failed tests/", "tests failed", "test failed", "\U{2715}", "\U{2717}", "failures:"]

  const PANIC_MARKERS: seq<string> := ["panicked at", "panic:", "uncaught exception", "traceback"]

  function Digits(n: nat): string {
    if n < 10 then [('0' as int + n) as char] else Digits(n / 10) + [('0' as int + n % 10) as char]
  }

  function IntToString(n: int): string {
    if n < 0 then "-" + Digits(-n) else Digits(n)
  }

  /** First marker of the list found in the text, with its error class. */
  function FirstMarker(lower: string, markers: seq<(string, string)>): Option<string> {
    if markers == [] then None
    else if Contains(lower, markers[0].0) then Some(markers[0].1)
    else FirstMarker(lower, markers[1..])
  }

  function FirstErrorLine(lines: seq<string>): Option<string> {
    if lines == [] then None
    else if Contains(Lower(Trim(lines[0])), "error") then Some(Trim(lines[0]))
    else FirstErrorLine(lines[1..])
  }

  // ── top in-repository frame ────────────────────────────────────────────

  predicate IsTokenBreak(c: char) {
    IsSpace(c) || c in "()[]<>'\","
  }

  function Tokens(line: string): seq<string> {
    var n := TokenLen(line);
    if n == |line| then [line] else [line[..n]] + Tokens(line[n + 1..])
  }

  function TokenLen(line: string): (n: nat)
    ensures n <= |line|
  {
    if line == "" || IsTokenBreak(line[0]) then 0 else 1 + TokenLen(line[1..])
  }

  function StripFileScheme(token: string): string {
    if "file://" <= token then StripFileScheme(token[7..]) else token
  }

  function FrameOfToken(raw: string, inRepo: string -> Option<string>): Option<string> {
    var token := StripFileScheme(raw);
    match IndexOf(token, ':')
    case None => None
    case Some(colon) =>
      var path, after := token[..colon], token[colon + 1..];
      if path == "" || after == "" || !IsDigit(after[0]) then None
      else if '/' in path || '.' in path then inRepo(path)
      else None
  }

  function FirstFrameToken(tokens: seq<string>, inRepo: string -> Option<string>): Option<string> {
    if tokens == [] then None
    else match FrameOfToken(tokens[0], inRepo)
      case Some(p) => Some(p)
      case None => FirstFrameToken(tokens[1..], inRepo)
  }

  function FrameOfLine(raw: string, inRepo: string -> Option<string>): Option<string> {
    var line := Trim(raw);
    if "File \"" <= line then inRepo(Before(line[6..], '"')) else FirstFrameToken(Tokens(line), inRepo)
  }

  /** First `path:line` token, in report order, whose path lies inside the repository. */
  function TopFrame(lines: seq<string>, inRepo: string -> Option<string>): Option<string> {
    if lines == [] then None
    else match FrameOfLine(lines[0], inRepo)
      case Some(p) => Some(p)
      case None => TopFrame(lines[1..], inRepo)
  }

  // ── classification ─────────────────────────────────────────────────────

  function Classify(outcome: ExecOutcome, output: string, inRepo: string -> Option<string>): Classification {
    var lower := Lower(output);
    var test := FailingTest.FailingTest(output);
    var frame := TopFrame(Lines(output), inRepo);
    var (cls, error) :=
      if outcome.Passed() then (NoFailure, "none")
      else if outcome.spawnError.Some? then
        match outcome.spawnError.value
        case NotFound => (Environment, "missing-binary")
        case PermissionDenied => (Harness, "not-executable")
        case OtherSpawn => (Harness, "spawn-failed")
      else if outcome.timedOut then (Harness, "timeout")
      else if outcome.signal.Some? then
        if outcome.signal.value == SIGKILL || ContainsAny(lower, OOM_MARKERS) then (Environment, "oom")
        else (Harness, "signal-" + IntToString(outcome.signal.value))
      else if outcome.exitCode == Some(127) then (Environment, "missing-binary")
      else if outcome.exitCode == Some(126) then (Harness, "not-executable")
      else if outcome.exitCode == Some(137) then (Environment, "oom")
      else ClassifyReport(outcome.exitCode, output, lower, test);
    Classification(cls, error, test, frame)
  }

  /** An ordinary exit status: the report decides, and an unrecognised report is booked to the product. */
  function ClassifyReport(exitCode: Option<int>, output: string, lower: string, test: Option<string>)
    : (r: (FailureClass, string))
    ensures r.0.Product? || r.0.Environment?
  {
    if ContainsAny(lower, OOM_MARKERS) then (Environment, "oom")
    else if ContainsAny(lower, COMPILE_MARKERS) then (Product, "compile-error")
    else if ContainsAny(lower, ASSERTION_MARKERS) || test.Some? then (Product, "assertion")
    else if ContainsAny(lower, PANIC_MARKERS) then (Product, "panic")
    else if FirstMarker(lower, ENVIRONMENT_MARKERS).Some? then
      (Environment, FirstMarker(lower, ENVIRONMENT_MARKERS).value)
    else match FirstErrorLine(Lines(output))
      case Some(line) => (Product, ErrorLine.Normalized(line))
      case None => (Product, "exit-" + if exitCode.Some? then IntToString(exitCode.value) else "?")
  }

  /** The process never ran, or was ended from outside. */
  predicate EndedOutside(o: ExecOutcome) {
    || o.spawnError.Some? || o.timedOut || o.signal.Some?
    || o.exitCode == Some(126) || o.exitCode == Some(127) || o.exitCode == Some(137)
  }

  /** Whatever the report says, a run ended from outside is charged to the harness or the environment. */
  lemma EndedOutsideIsInfrastructure(o: ExecOutcome, output: string, inRepo: string -> Option<string>)
    requires EndedOutside(o)
    ensures Classify(o, output, inRepo).failureClass.IsInfrastructure()
  {
  }

  /** `NoFailure` exactly for exit 0 without signal, timeout or spawn error; `Spec` is never computed. */
  lemma ClassMatchesOutcome(o: ExecOutcome, output: string, inRepo: string -> Option<string>)
    ensures Classify(o, output, inRepo).failureClass.NoFailure? <==> o.Passed()
    ensures !Classify(o, output, inRepo).failureClass.Spec?
  {
    if !o.Passed() {
      if EndedOutside(o) {
        EndedOutsideIsInfrastructure(o, output, inRepo);
      } else {
        var r := ClassifyReport(o.exitCode, output, Lower(output), FailingTest.FailingTest(output));
        assert Classify(o, output, inRepo).failureClass == r.0;
      }
    }
  }

  /** For an ordinary nonzero exit, exactly when the product is cleared. */
  lemma ReportBlamesInfrastructure(o: ExecOutcome, output: string, inRepo: string -> Option<string>)
    requires !o.Passed() && !EndedOutside(o)
    ensures Classify(o, output, inRepo).failureClass.IsInfrastructure()
            <==> var lower := Lower(output);
              || ContainsAny(lower, OOM_MARKERS)
              || (&& FirstMarker(lower, ENVIRONMENT_MARKERS).Some?
                  && !ContainsAny(lower, COMPILE_MARKERS + ASSERTION_MARKERS + PANIC_MARKERS)
                  && FailingTest.FailingTest(output).None?)
  {
    var lower := Lower(output);
    ContainsAnyAppend(lower, COMPILE_MARKERS, ASSERTION_MARKERS);
    ContainsAnyAppend(lower, COMPILE_MARKERS + ASSERTION_MARKERS, PANIC_MARKERS);
  }

  lemma ContainsAnyAppend(s: string, a: seq<string>, b: seq<string>)
    ensures ContainsAny(s, a + b) <==> ContainsAny(s, a) || ContainsAny(s, b)
  {
    if ContainsAny(s, a) {
      var i :| 0 <= i < |a| && Contains(s, a[i]);
      assert (a + b)[i] == a[i];
    }
    if ContainsAny(s, b) {
      var i :| 0 <= i < |b| && Contains(s, b[i]);
      assert (a + b)[|a| + i] == b[i];
    }
    if ContainsAny(s, a + b) {
      var i :| 0 <= i < |a + b| && Contains(s, (a + b)[i]);
      assert (a + b)[i] == if i < |a| then a[i] else b[i - |a|];
    }
  }
}
