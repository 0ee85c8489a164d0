/** The input fingerprint: the hashed material, and why it tells different inputs apart. */
module Fingerprint {
  import opened Wrappers
  import opened Text
  import opened Sorting
  import opened Digest
  import opened Json
  import SortedMap

  /** Everything a verification run consumed. */
  datatype Inputs = Inputs(contract: string, command: seq<string>, tools: SortedMap.Entries, globs: seq<string>,
                           entries: SortedMap.Entries)

  const HEADER := "sdi-input-fingerprint-v1\n"

  // ── printing ───────────────────────────────────────────────────────────

  function ToolLine(tool: (string, string)): string {
    "tool:" + tool.0 + "=" + tool.1 + "\n"
  }

  function GlobLine(glob: string): string {
    "glob:" + glob + "\n"
  }

  function EntryLine(entry: (string, string)): string {
    "entry:" + entry.0 + "\0" + entry.1 + "\n"
  }

  function ToolLines(tools: SortedMap.Entries): string {
    if tools == [] then "" else ToolLine(tools[0]) + ToolLines(tools[1..])
  }

  function GlobLines(globs: seq<string>): string {
    if globs == [] then "" else GlobLine(globs[0]) + GlobLines(globs[1..])
  }

  function EntryLines(entries: SortedMap.Entries): string {
    if entries == [] then "" else EntryLine(entries[0]) + EntryLines(entries[1..])
  }

  function Head(contract: string, command: seq<string>): string {
    HEADER + ("contract:" + contract + "\n") + ("command:" + PrintStrings(command) + "\n")
  }

  function Material(m: Inputs): string {
    Head(m.contract, m.command) + (ToolLines(m.tools) + (GlobLines(Sort(m.globs, StrLe)) + EntryLines(m.entries)))
  }

  function Fingerprint(sha: string -> string, m: Inputs): string {
    "sha256:" + sha(Material(m))
  }

  /** One loop per section, each appending to the same buffer. */
  method ComputeFingerprint(sha: string -> string, m: Inputs) returns (fingerprint: string)
    ensures fingerprint == Fingerprint(sha, m)
  {
    var material := HEADER;
    material := material + ("contract:" + m.contract + "\n");
    material := material + ("command:" + PrintStrings(m.command) + "\n");
    material := AppendTools(material, m.tools);
    var globs := Sort(m.globs, StrLe);
    material := AppendGlobs(material, globs);
    material := AppendEntries(material, m.entries);
    Reassociate(Head(m.contract, m.command), ToolLines(m.tools), GlobLines(globs), EntryLines(m.entries));
    fingerprint := "sha256:" + sha(material);
  }

  lemma Reassociate(a: string, b: string, c: string, d: string)
    ensures a + b + c + d == a + (b + (c + d))
  {
  }

  method AppendTools(prefix: string, tools: SortedMap.Entries) returns (material: string)
    ensures material == prefix + ToolLines(tools)
  {
    material := prefix;
    var i := 0;
    while i < |tools|
      invariant 0 <= i <= |tools|
      invariant material + ToolLines(tools[i..]) == prefix + ToolLines(tools)
    {
      assert tools[i..][1..] == tools[i + 1..];
      Reassociate(material, ToolLine(tools[i]), ToolLines(tools[i + 1..]), "");
      material := material + ToolLine(tools[i]);
      i := i + 1;
    }
    assert material + "" == material;
  }

  method AppendGlobs(prefix: string, globs: seq<string>) returns (material: string)
    ensures material == prefix + GlobLines(globs)
  {
    material := prefix;
    var i := 0;
    while i < |globs|
      invariant 0 <= i <= |globs|
      invariant material + GlobLines(globs[i..]) == prefix + GlobLines(globs)
    {
      assert globs[i..][1..] == globs[i + 1..];
      Reassociate(material, GlobLine(globs[i]), GlobLines(globs[i + 1..]), "");
      material := material + GlobLine(globs[i]);
      i := i + 1;
    }
    assert material + "" == material;
  }

  method AppendEntries(prefix: string, entries: SortedMap.Entries) returns (material: string)
    ensures material == prefix + EntryLines(entries)
  {
    material := prefix;
    var i := 0;
    while i < |entries|
      invariant 0 <= i <= |entries|
      invariant material + EntryLines(entries[i..]) == prefix + EntryLines(entries)
    {
      assert entries[i..][1..] == entries[i + 1..];
      Reassociate(material, EntryLine(entries[i]), EntryLines(entries[i + 1..]), "");
      material := material + EntryLine(entries[i]);
      i := i + 1;
    }
    assert material + "" == material;
  }

  // ── reading back ───────────────────────────────────────────────────────

  /** The text before the first `c`, and the text after it. */
  function Upto(s: string, c: char): (r: Option<(string, string)>)
    ensures r.Some? ==> |r.value.1| < |s|
  {
    match IndexOf(s, c)
    case None => None
    case Some(i) => Some((s[..i], s[i + 1..]))
  }

  /** `label`, a field ended by `a`, a field ended by `b`. */
  function ReadPair(s: string, mark: string, a: char, b: char): (r: Option<((string, string), string)>)
    ensures r.Some? ==> |r.value.1| < |s|
  {
    if !(mark <= s) then None
    else match Upto(s[|mark|..], a)
      case None => None
      case Some((first, rest)) =>
        match Upto(rest, b)
        case None => None
        case Some((second, after)) => Some(((first, second), after))
  }

  function ReadTools(s: string): (SortedMap.Entries, string)
    decreases |s|
  {
    match ReadPair(s, "tool:", '=', '\n')
    case None => ([], s)
    case Some((tool, rest)) => var (more, after) := ReadTools(rest); ([tool] + more, after)
  }

  function ReadGlobs(s: string): (seq<string>, string)
    decreases |s|
  {
    if !("glob:" <= s) then ([], s)
    else match Upto(s[5..], '\n')
      case None => ([], s)
      case Some((glob, rest)) => var (more, after) := ReadGlobs(rest); ([glob] + more, after)
  }

  function ReadEntries(s: string): (SortedMap.Entries, string)
    decreases |s|
  {
    match ReadPair(s, "entry:", '\0', '\n')
    case None => ([], s)
    case Some((entry, rest)) => var (more, after) := ReadEntries(rest); ([entry] + more, after)
  }

  function ReadHead(s: string): Option<(string, seq<string>, string)> {
    if !(HEADER + "contract:" <= s) then None
    else match Upto(s[|HEADER + "contract:"|..], '\n')
      case None => None
      case Some((contract, rest)) =>
        if !("command:" <= rest) then None
        else match ReadStrings(rest[8..])
          case None => None
          case Some((command, after)) =>
            if "\n" <= after then Some((contract, command, after[1..])) else None
  }

  function Decode(s: string): Option<Inputs> {
    match ReadHead(s)
    case None => None
    case Some((contract, command, rest)) =>
      var (tools, afterTools) := ReadTools(rest);
      var (globs, afterGlobs) := ReadGlobs(afterTools);
      var (entries, end) := ReadEntries(afterGlobs);
      if end == "" then Some(Inputs(contract, command, tools, globs, entries)) else None
  }

  // ── what makes the material readable ───────────────────────────────────

  /** Tool names never hold `=`: declarations are split at the first one. */
  predicate CleanTool(tool: (string, string)) {
    '=' !in tool.0 && '\n' !in tool.1
  }

  /** Paths never hold NUL: git separates them by it. */
  predicate CleanEntry(entry: (string, string)) {
    '\0' !in entry.0 && '\n' !in entry.1
  }

  predicate Clean(m: Inputs) {
    && '\n' !in m.contract
    && (forall i :: 0 <= i < |m.tools| ==> CleanTool(m.tools[i]))
    && (forall i :: 0 <= i < |m.globs| ==> '\n' !in m.globs[i])
    && (forall i :: 0 <= i < |m.entries| ==> CleanEntry(m.entries[i]))
  }

  lemma UptoReads(a: string, c: char, rest: string)
    requires c !in a
    ensures Upto(a + [c] + rest, c) == Some((a, rest))
  {
    IndexOfFirst(a, c, rest);
    var s := a + [c] + rest;
    assert s[..|a|] == a && s[|a| + 1..] == rest;
  }

  lemma PairReads(mark: string, x: string, a: char, y: string, b: char, rest: string)
    requires a !in x && b !in y
    ensures ReadPair(mark + x + [a] + y + [b] + rest, mark, a, b) == Some(((x, y), rest))
  {
    var s := mark + x + [a] + y + [b] + rest;
    var tail := y + [b] + rest;
    assert s == mark + (x + [a] + tail);
    assert s[|mark|..] == x + [a] + tail;
    UptoReads(x, a, tail);
    UptoReads(y, b, rest);
  }

  lemma Append(a: string, b: string, c: string)
    ensures (a + b) + c == a + (b + c)
  {
  }

  lemma ToolReads(tool: (string, string), rest: string)
    requires CleanTool(tool)
    ensures ReadPair(ToolLine(tool) + rest, "tool:", '=', '\n') == Some((tool, rest))
  {
    PairReads("tool:", tool.0, '=', tool.1, '\n', rest);
    assert "=" == ['='] && "\n" == ['\n'];
  }

  lemma ToolStep(s: string, tool: (string, string), rest: string)
    requires ReadPair(s, "tool:", '=', '\n') == Some((tool, rest))
    ensures ReadTools(s).0 == [tool] + ReadTools(rest).0
    ensures ReadTools(s).1 == ReadTools(rest).1
  {
  }

  lemma {:induction false} ToolsReadBack(tools: SortedMap.Entries, rest: string)
    requires forall i :: 0 <= i < |tools| ==> CleanTool(tools[i])
    requires !("tool:" <= rest)
    ensures ReadTools(ToolLines(tools) + rest).0 == tools
    ensures ReadTools(ToolLines(tools) + rest).1 == rest
    decreases |tools|
  {
    if tools == [] {
      assert "" + rest == rest;
    } else {
      hide ReadPair, ToolLine, ReadTools;
      var more := ToolLines(tools[1..]) + rest;
      Append(ToolLine(tools[0]), ToolLines(tools[1..]), rest);
      ToolReads(tools[0], more);
      ToolStep(ToolLine(tools[0]) + more, tools[0], more);
      ToolsReadBack(tools[1..], rest);
      assert tools == [tools[0]] + tools[1..];
    }
  }

  lemma EntryReads(entry: (string, string), rest: string)
    requires CleanEntry(entry)
    ensures ReadPair(EntryLine(entry) + rest, "entry:", '\0', '\n') == Some((entry, rest))
  {
    PairReads("entry:", entry.0, '\0', entry.1, '\n', rest);
    assert "\0" == ['\0'] && "\n" == ['\n'];
  }

  lemma EntryStep(s: string, entry: (string, string), rest: string)
    requires ReadPair(s, "entry:", '\0', '\n') == Some((entry, rest))
    ensures ReadEntries(s).0 == [entry] + ReadEntries(rest).0
    ensures ReadEntries(s).1 == ReadEntries(rest).1
  {
  }

  lemma {:induction false} EntriesReadBack(entries: SortedMap.Entries, rest: string)
    requires forall i :: 0 <= i < |entries| ==> CleanEntry(entries[i])
    requires !("entry:" <= rest)
    ensures ReadEntries(EntryLines(entries) + rest).0 == entries
    ensures ReadEntries(EntryLines(entries) + rest).1 == rest
    decreases |entries|
  {
    if entries == [] {
      assert "" + rest == rest;
    } else {
      hide ReadPair, EntryLine, ReadEntries;
      var more := EntryLines(entries[1..]) + rest;
      Append(EntryLine(entries[0]), EntryLines(entries[1..]), rest);
      EntryReads(entries[0], more);
      EntryStep(EntryLine(entries[0]) + more, entries[0], more);
      EntriesReadBack(entries[1..], rest);
      assert entries == [entries[0]] + entries[1..];
    }
  }

  lemma GlobText(glob: string, rest: string)
    ensures "glob:" <= GlobLine(glob) + rest
    ensures (GlobLine(glob) + rest)[5..] == glob + ['\n'] + rest
  {
  }

  lemma GlobStep(glob: string, rest: string)
    requires '\n' !in glob
    ensures ReadGlobs(GlobLine(glob) + rest).0 == [glob] + ReadGlobs(rest).0
    ensures ReadGlobs(GlobLine(glob) + rest).1 == ReadGlobs(rest).1
  {
    GlobText(glob, rest);
    UptoReads(glob, '\n', rest);
  }

  lemma {:induction false} GlobsReadBack(globs: seq<string>, rest: string)
    requires forall i :: 0 <= i < |globs| ==> '\n' !in globs[i]
    requires !("glob:" <= rest)
    ensures ReadGlobs(GlobLines(globs) + rest).0 == globs
    ensures ReadGlobs(GlobLines(globs) + rest).1 == rest
    decreases |globs|
  {
    if globs == [] {
      assert "" + rest == rest;
    } else {
      hide GlobLine, ReadGlobs;
      Append(GlobLine(globs[0]), GlobLines(globs[1..]), rest);
      GlobStep(globs[0], GlobLines(globs[1..]) + rest);
      GlobsReadBack(globs[1..], rest);
      assert globs == [globs[0]] + globs[1..];
    }
  }

  lemma HeadReadsBack(contract: string, command: seq<string>, rest: string)
    requires '\n' !in contract
    ensures ReadHead(Head(contract, command) + rest) == Some((contract, command, rest))
  {
    hide PrintStrings, ReadStrings;
    var json := PrintStrings(command);
    var s := Head(contract, command) + rest;
    var afterContract := "command:" + (json + ("\n" + rest));
    HeadText(contract, json, rest);
    assert s[|HEADER + "contract:"|..] == contract + ['\n'] + afterContract;
    UptoReads(contract, '\n', afterContract);
    assert afterContract[8..] == json + ("\n" + rest);
    PrintedStringsReadBack(command, "\n" + rest);
    assert ("\n" + rest)[1..] == rest;
  }

  lemma HeadText(contract: string, json: string, rest: string)
    ensures HEADER + ("contract:" + contract + "\n") + ("command:" + json + "\n") + rest
            == (HEADER + "contract:") + (contract + ['\n'] + ("command:" + (json + ("\n" + rest))))
  {
  }

  /** A later section never looks like an earlier one. */
  lemma SectionsDiffer(globs: seq<string>, entries: SortedMap.Entries)
    ensures !("glob:" <= EntryLines(entries))
    ensures !("tool:" <= GlobLines(globs) + EntryLines(entries))
  {
    var e := EntryLines(entries);
    if entries != [] { assert e[0] == 'e'; }
    var s := GlobLines(globs) + e;
    if globs != [] { assert s[0] == 'g'; } else { assert s == e; }
  }

  function Canonical(m: Inputs): Inputs {
    m.(globs := Sort(m.globs, StrLe))
  }

  /** The round trip: reading the material gives back the inputs, their globs in sorted order. */
  lemma MaterialReadsBack(m: Inputs)
    requires Clean(m)
    ensures Decode(Material(m)) == Some(Canonical(m))
  {
    hide Sort, Head, ReadHead, ReadEntries, ReadGlobs, ReadTools, ToolLines, GlobLines, EntryLines;
    var globs := Sort(m.globs, StrLe);
    forall i | 0 <= i < |globs| ensures '\n' !in globs[i] {
      assert globs[i] in multiset(globs);
      assert globs[i] in m.globs;
    }
    var entryText := EntryLines(m.entries);
    var globText := GlobLines(globs) + entryText;
    HeadReadsBack(m.contract, m.command, ToolLines(m.tools) + globText);
    SectionsDiffer(globs, m.entries);
    ToolsReadBack(m.tools, globText);
    GlobsReadBack(globs, entryText);
    EntriesReadBack(m.entries, "");
    assert entryText + "" == entryText;
  }

  // ── main results ───────────────────────────────────────────────────────

  /** The same inputs up to the order of the declared globs. */
  predicate SameInputs(a: Inputs, b: Inputs) {
    && a.contract == b.contract && a.command == b.command && a.tools == b.tools && a.entries == b.entries
    && multiset(a.globs) == multiset(b.globs)
  }

  /** Reordering globs never changes the material, clean or not. */
  lemma GlobOrderDoesNotMatter(a: Inputs, b: Inputs)
    requires SameInputs(a, b)
    ensures Material(a) == Material(b)
  {
    StrLeIsTotalOrder();
    SortSorts(a.globs, StrLe);
    SortSorts(b.globs, StrLe);
    SortedUnique(Sort(a.globs, StrLe), Sort(b.globs, StrLe), StrLe);
  }

  /** Clean inputs have the same material exactly when they are the same inputs. */
  lemma MaterialTellsInputsApart(a: Inputs, b: Inputs)
    requires Clean(a) && Clean(b)
    ensures Material(a) == Material(b) <==> SameInputs(a, b)
  {
    if SameInputs(a, b) {
      GlobOrderDoesNotMatter(a, b);
    }
    if Material(a) == Material(b) {
      hide Material, Decode;
      MaterialReadsBack(a);
      MaterialReadsBack(b);
      assert Canonical(a) == Canonical(b);
      assert multiset(a.globs) == multiset(Sort(a.globs, StrLe));
    }
  }

  lemma FingerprintTellsInputsApart(sha: string -> string, a: Inputs, b: Inputs)
    requires Clean(a) && Clean(b) && NoCollision(sha, Material(a), Material(b))
    ensures Fingerprint(sha, a) == Fingerprint(sha, b) <==> SameInputs(a, b)
  {
    hide Material;
    MaterialTellsInputsApart(a, b);
    SamePrefix("sha256:", sha(Material(a)), sha(Material(b)));
  }

  /** Without the condition the material is ambiguous: a line feed in a tool version can look like a glob. */
  lemma LineFeedInVersionIsAmbiguous(contract: string, command: seq<string>, tool: string, version: string, glob: string,
                                     entries: SortedMap.Entries)
    ensures var a := Inputs(contract, command, [(tool, version + "\nglob:" + glob)], [], entries);
            var b := Inputs(contract, command, [(tool, version)], [glob], entries);
            Material(a) == Material(b) && !SameInputs(a, b) && !Clean(a)
  {
    var long := version + "\nglob:" + glob;
    var a := Inputs(contract, command, [(tool, long)], [], entries);
    var b := Inputs(contract, command, [(tool, version)], [glob], entries);
    assert long[|version|] == '\n';
    assert !CleanTool(a.tools[0]);
    assert |multiset(a.globs)| == 0 && |multiset(b.globs)| == 1;
    OneTool(tool, long);
    OneTool(tool, version);
    OneGlob(glob);
    assert Sort(b.globs, StrLe) == [glob];
    VersionText(tool, version, glob, EntryLines(entries));
    assert GlobLines([]) + EntryLines(entries) == EntryLines(entries);
  }

  lemma VersionText(tool: string, version: string, glob: string, rest: string)
    ensures ToolLine((tool, version + "\nglob:" + glob)) + rest == ToolLine((tool, version)) + (GlobLine(glob) + rest)
  {
  }

  lemma OneTool(tool: string, version: string)
    ensures ToolLines([(tool, version)]) == ToolLine((tool, version))
  {
    assert [(tool, version)][1..] == [];
    assert ToolLine((tool, version)) + "" == ToolLine((tool, version));
  }

  lemma OneGlob(glob: string)
    ensures GlobLines([glob]) == GlobLine(glob)
    ensures Sort([glob], StrLe) == [glob]
  {
    assert [glob][1..] == [];
    assert GlobLine(glob) + "" == GlobLine(glob);
  }

  /** A line feed in a glob can look like a second glob. */
  lemma LineFeedInGlobIsAmbiguous(contract: string, command: seq<string>, tools: SortedMap.Entries, x: string, y: string,
                                  entries: SortedMap.Entries)
    requires StrLe(x, y)
    ensures var a := Inputs(contract, command, tools, [x + "\nglob:" + y], entries);
            var b := Inputs(contract, command, tools, [x, y], entries);
            Material(a) == Material(b) && !SameInputs(a, b) && !Clean(a)
  {
    var long := x + "\nglob:" + y;
    var a := Inputs(contract, command, tools, [long], entries);
    var b := Inputs(contract, command, tools, [x, y], entries);
    assert long[|x|] == '\n';
    assert '\n' in a.globs[0];
    assert |multiset(a.globs)| == 1 && |multiset(b.globs)| == 2;
    OneGlob(long);
    OneGlob(y);
    assert [x, y][1..] == [y];
    assert Sort([x, y], StrLe) == [x, y];
    assert GlobLines([x, y]) == GlobLine(x) + GlobLine(y);
    assert GlobLine(long) == GlobLine(x) + GlobLine(y);
  }

  /** So can an equals sign in a tool name, which a request may carry and a `name=version` declaration may not. */
  lemma EqualsInNameIsAmbiguous(contract: string, command: seq<string>, x: string, y: string, z: string, globs: seq<string>,
                                entries: SortedMap.Entries)
    ensures var a := Inputs(contract, command, [(x + "=" + y, z)], globs, entries);
            var b := Inputs(contract, command, [(x, y + "=" + z)], globs, entries);
            Material(a) == Material(b) && !SameInputs(a, b) && !Clean(a)
  {
    OneTool(x + "=" + y, z);
    OneTool(x, y + "=" + z);
    assert ToolLine((x + "=" + y, z)) == ToolLine((x, y + "=" + z));
    var name := x + "=" + y;
    assert name[|x|] == '=';
    assert [(name, z)][0].0 != [(x, y + "=" + z)][0].0;
    assert !CleanTool([(name, z)][0]);
  }

  // ── tool declarations ──────────────────────────────────────────────────

  /** One `name=version` declaration. */
  function ParseTool(spec: string): Option<(string, string)> {
    match SplitOnce(spec, "=")
    case None => None
    case Some((name, version)) =>
      if Trim(name) == "" || Trim(version) == "" then None else Some((Trim(name), Trim(version)))
  }

  function DeclaredTools(specs: seq<string>, tools: SortedMap.Entries): Option<SortedMap.Entries> {
    if specs == [] then Some(tools)
    else match ParseTool(specs[0])
      case None => None
      case Some((name, version)) => DeclaredTools(specs[1..], SortedMap.Insert(tools, name, version))
  }

  method ParseToolVersions(specs: seq<string>) returns (tools: Option<SortedMap.Entries>)
    ensures tools == DeclaredTools(specs, [])
  {
    var out: SortedMap.Entries := [];
    var i := 0;
    while i < |specs|
      invariant 0 <= i <= |specs|
      invariant DeclaredTools(specs[i..], out) == DeclaredTools(specs, [])
    {
      assert specs[i..][1..] == specs[i + 1..];
      var tool := ParseTool(specs[i]);
      if tool.None? {
        return None;
      }
      out := SortedMap.Insert(out, tool.value.0, tool.value.1);
      i := i + 1;
    }
    return Some(out);
  }

  lemma {:induction false} TrimStartSubset(s: string, p: char -> bool)
    ensures forall c :: c in TrimStartBy(s, p) ==> c in s
  {
    if s != "" { TrimStartSubset(s[1..], p); }
  }

  lemma {:induction false} TrimEndSubset(s: string, p: char -> bool)
    ensures forall c :: c in TrimEndBy(s, p) ==> c in s
  {
    if s != "" { TrimEndSubset(s[..|s| - 1], p); }
  }

  lemma TrimSubset(s: string)
    ensures forall c :: c in Trim(s) ==> c in s
  {
    TrimStartSubset(s, IsSpace);
    TrimEndSubset(TrimStartBy(s, IsSpace), IsSpace);
  }

  lemma {:induction false} FindFirst(s: string, c: char)
    ensures Find(s, [c]).Some? ==> c !in s[..Find(s, [c]).value]
  {
    if s != "" && !([c] <= s) {
      FindFirst(s[1..], c);
      if Find(s, [c]).Some? {
        var i := Find(s[1..], [c]).value;
        assert s[..i + 1] == [s[0]] + s[1..][..i];
      }
    }
  }

  lemma ParsedToolIsClean(spec: string)
    requires '\n' !in spec
    ensures ParseTool(spec).Some? ==> CleanTool(ParseTool(spec).value)
  {
    var cut := SplitOnce(spec, "=");
    if cut.Some? {
      hide Trim;
      assert "=" == ['='];
      FindFirst(spec, '=');
      TrimSubset(cut.value.0);
      TrimSubset(cut.value.1);
    }
  }

  /** Declarations without line feeds always give a clean, ordered tool map. */
  lemma {:induction false} DeclaredToolsAreClean(specs: seq<string>, tools: SortedMap.Entries)
    requires forall i :: 0 <= i < |specs| ==> '\n' !in specs[i]
    requires SortedMap.Ascending(tools) && forall i :: 0 <= i < |tools| ==> CleanTool(tools[i])
    ensures DeclaredTools(specs, tools).Some? ==>
              && SortedMap.Ascending(DeclaredTools(specs, tools).value)
              && forall t :: t in DeclaredTools(specs, tools).value ==> CleanTool(t)
    decreases |specs|
  {
    hide ParseTool;
    if specs != [] {
      var tool := ParseTool(specs[0]);
      if tool.Some? {
        ParsedToolIsClean(specs[0]);
        SortedMap.InsertKeepsOrder(tools, tool.value.0, tool.value.1);
        InsertKeepsClean(tools, tool.value.0, tool.value.1);
        DeclaredToolsAreClean(specs[1..], SortedMap.Insert(tools, tool.value.0, tool.value.1));
      }
    }
  }

  lemma {:induction false} InsertKeepsClean(tools: SortedMap.Entries, name: string, version: string)
    requires CleanTool((name, version)) && forall i :: 0 <= i < |tools| ==> CleanTool(tools[i])
    ensures forall i :: 0 <= i < |SortedMap.Insert(tools, name, version)| ==> CleanTool(SortedMap.Insert(tools, name, version)[i])
  {
    if tools != [] { InsertKeepsClean(tools[1..], name, version); }
  }

  // ── the scenario contract ──────────────────────────────────────────────

  /** The hashed text of a scenario's given, when and then. */
  function ContractText(given: string, when: string, then_: string): string {
    "given\0" + given + ['\0'] + ("when\0" + when + ['\0'] + ("then\0" + then_))
  }

  function ContractHash(sha: string -> string, given: string, when: string, then_: string): string {
    sha(ContractText(given, when, then_))
  }

  lemma SplitAtFirst(a: string, c: char, x: string, b: string, y: string)
    requires c !in a && c !in b && a + [c] + x == b + [c] + y
    ensures a == b && x == y
  {
    UptoReads(a, c, x);
    UptoReads(b, c, y);
  }

  /** Wordings without NUL hash the same text only when they are the same wording. */
  lemma ContractTellsWordingsApart(given: string, when: string, then_: string, given': string, when': string, then_': string)
    requires '\0' !in given && '\0' !in given' && '\0' !in when && '\0' !in when'
    ensures ContractText(given, when, then_) == ContractText(given', when', then_')
            <==> given == given' && when == when' && then_ == then_'
  {
    if ContractText(given, when, then_) == ContractText(given', when', then_') {
      var tail, tail' := "when\0" + when + ['\0'] + ("then\0" + then_), "when\0" + when' + ['\0'] + ("then\0" + then_');
      LabelledField("given\0", given, tail);
      LabelledField("given\0", given', tail');
      DropLabel("given\0", given + ['\0'] + tail, given' + ['\0'] + tail');
      SplitAtFirst(given, '\0', tail, given', tail');
      LabelledField("when\0", when, "then\0" + then_);
      LabelledField("when\0", when', "then\0" + then_');
      DropLabel("when\0", when + ['\0'] + ("then\0" + then_), when' + ['\0'] + ("then\0" + then_'));
      SplitAtFirst(when, '\0', "then\0" + then_, when', "then\0" + then_');
      DropLabel("then\0", then_, then_');
    }
  }

  lemma LabelledField(mark: string, field: string, rest: string)
    ensures mark + field + ['\0'] + rest == mark + (field + ['\0'] + rest)
  {
  }

  /** A stored fingerprint that still matches proves that neither the wording nor any input changed. */
  lemma MatchingFingerprintMeansUnchanged(sha: string -> string, a: Inputs, b: Inputs,
                                          given: string, when: string, then_: string,
                                          given': string, when': string, then_': string)
    requires forall s :: IsDigest(sha(s))
    requires a.contract == ContractHash(sha, given, when, then_) && b.contract == ContractHash(sha, given', when', then_')
    requires '\0' !in given && '\0' !in given' && '\0' !in when && '\0' !in when'
    requires Clean(a.(contract := "")) && Clean(b.(contract := ""))
    requires NoCollision(sha, Material(a), Material(b))
    requires NoCollision(sha, ContractText(given, when, then_), ContractText(given', when', then_'))
    ensures Fingerprint(sha, a) == Fingerprint(sha, b)
            <==> given == given' && when == when' && then_ == then_' && SameInputs(a.(contract := ""), b.(contract := ""))
  {
    hide Material, ContractText;
    DigestIsOneLine(sha(ContractText(given, when, then_)));
    DigestIsOneLine(sha(ContractText(given', when', then_')));
    FingerprintTellsInputsApart(sha, a, b);
    ContractTellsWordingsApart(given, when, then_, given', when', then_');
  }

  lemma DigestIsOneLine(d: string)
    requires IsDigest(d)
    ensures '\n' !in d
  {
  }
}
