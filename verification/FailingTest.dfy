/** Which failing test a report is filed under: `extract_failing_test`. */
module FailingTest {
  import opened Wrappers
  import opened Text
  import opened Sorting

  /** The name one report line declares as failing, in the order the rules are tried. */
  function TestName(raw: string): Option<string> {
    var line := Trim(raw);
    if "test " <= line && StripSuffix(line[5..], " ... FAILED").Some? then
      Some(Trim(StripSuffix(line[5..], " ... FAILED").value))
    else if "---- " <= line && StripSuffix(line[5..], " stdout ----").Some? then
      Some(Trim(StripSuffix(line[5..], " stdout ----").value))
    else if "--- FAIL: " <= line && Words(line[10..]) != [] then
      Some(Words(line[10..])[0])
    else if "FAILED " <= line && PytestName(line[7..]) != "" && !("(" <= PytestName(line[7..])) then
      Some(PytestName(line[7..]))
    else if "\U{25CF} " <= line && Trim(line[2..]) != "" && !("Console" <= Trim(line[2..])) then
      Some(Trim(line[2..]))
    else
      None
  }

  function PytestName(rest: string): string {
    Trim(match SplitOnce(rest, " - ") case Some(cut) => cut.0 case None => rest)
  }

  function Found(lines: seq<string>): seq<string> {
    if lines == [] then []
    else
      var last := |lines| - 1;
      Found(lines[..last]) + match TestName(lines[last]) case Some(name) => [name] case None => []
  }

  function Dedup(s: seq<string>): (r: seq<string>)
    ensures (r == []) == (s == [])
    ensures r != [] ==> r[0] == s[0]
  {
    if |s| < 2 then s
    else if s[0] == s[1] then Dedup(s[1..])
    else [s[0]] + Dedup(s[1..])
  }

  function First(found: seq<string>): Option<string> {
    var kept := Dedup(Sort(found, StrLe));
    if kept == [] then None else Some(kept[0])
  }

  function FailingTest(output: string): Option<string> {
    First(Found(Lines(output)))
  }

  method ExtractFailingTest(output: string) returns (r: Option<string>)
    ensures r == FailingTest(output)
  {
    var lines := Lines(output);
    var found: seq<string> := [];
    for i := 0 to |lines|
      invariant found == Found(lines[..i])
    {
      assert lines[..i + 1][..i] == lines[..i];
      match TestName(lines[i]) {
        case Some(name) => found := found + [name];
        case None =>
      }
    }
    assert lines[..|lines|] == lines;
    var kept := Dedup(Sort(found, StrLe));
    r := if kept == [] then None else Some(kept[0]);
  }

  /** The names a report declares, as a set: blind to the order and the multiplicity of its lines. */
  ghost predicate Declares(output: string, name: string) {
    exists line :: line in Lines(output) && TestName(line) == Some(name)
  }

  lemma {:induction false} FoundDeclares(lines: seq<string>, name: string)
    ensures name in Found(lines) <==> exists line :: line in lines && TestName(line) == Some(name)
  {
    if lines != [] {
      var init, last := lines[..|lines| - 1], lines[|lines| - 1];
      FoundDeclares(init, name);
      assert lines == init + [last];
      if name in Found(lines) && name !in Found(init) {
        assert TestName(last) == Some(name) && last in lines;
      }
    }
  }

  /** The result is the least declared name, and there is one exactly when some line declares one. */
  lemma FailingTestIsLeast(output: string)
    ensures FailingTest(output).None? <==> forall name :: !Declares(output, name)
    ensures FailingTest(output).Some? ==> Declares(output, FailingTest(output).value)
    ensures forall name :: Declares(output, name) ==> FailingTest(output).Some? && StrLe(FailingTest(output).value, name)
  {
    var found := Found(Lines(output));
    var sorted := Sort(found, StrLe);
    StrLeIsTotalOrder();
    SortSorts(found, StrLe);
    forall name ensures Declares(output, name) <==> name in sorted {
      FoundDeclares(Lines(output), name);
      assert name in found <==> name in multiset(found);
      assert name in sorted <==> name in multiset(sorted);
    }
    if sorted != [] {
      assert sorted[0] in sorted;
      forall name | name in sorted ensures StrLe(sorted[0], name) {
        StrLeReflexive(name);
      }
    }
  }

  /** Lines that declare no test are noise: only the declared names matter. */
  lemma OnlyDeclarationsMatter(a: string, b: string)
    requires forall name :: Declares(a, name) <==> Declares(b, name)
    ensures FailingTest(a) == FailingTest(b)
  {
    FailingTestIsLeast(a);
    FailingTestIsLeast(b);
    if FailingTest(a).Some? && FailingTest(b).Some? {
      StrLeAntisymmetric(FailingTest(a).value, FailingTest(b).value);
    }
  }

  /** Permuting, repeating or dropping repeats of report lines never changes the failing test. */
  lemma OrderIndependent(a: string, b: string)
    requires forall line :: line in Lines(a) <==> line in Lines(b)
    ensures FailingTest(a) == FailingTest(b)
  {
    OnlyDeclarationsMatter(a, b);
  }
}
