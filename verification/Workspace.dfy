/** The workspace snapshot: git's index overlaid with git's status, against hashing every input file. */
module Workspace {
  import opened Wrappers
  import opened Text
  import opened Digest
  import Fingerprint
  import SortedMap

  /** What a path is in the working tree. */
  datatype Probe = Missing | Directory | File(content: string)

  datatype IndexRecord = IndexRecord(mode: string, oid: string, stage: string, path: string)

  datatype StatusRecord = StatusRecord(x: char, y: char, path: string)

  const DELETED := "deleted"

  function Blob(oid: string): string {
    "blob:" + oid
  }

  // ── path specifications ────────────────────────────────────────────────

  function StripDotSlash(glob: string): string {
    if "./" <= glob then StripDotSlash(glob[2..]) else glob
  }

  /** The path specification of one trimmed, non-empty glob; an absolute path has none. */
  function Pathspec(prefix: string, glob: string): Option<string> {
    if ":" <= glob then Some(glob)
    else if "/" <= glob then None
    else Some(":(glob)" + prefix + StripDotSlash(glob))
  }

  function PathspecsOf(prefix: string, globs: seq<string>): Option<seq<string>> {
    if globs == [] then Some([])
    else if Trim(globs[0]) == "" then PathspecsOf(prefix, globs[1..])
    else match Pathspec(prefix, Trim(globs[0]))
      case None => None
      case Some(spec) =>
        match PathspecsOf(prefix, globs[1..])
        case None => None
        case Some(specs) => Some([spec] + specs)
  }

  method Pathspecs(prefix: string, globs: seq<string>) returns (specs: Option<seq<string>>)
    ensures specs == PathspecsOf(prefix, globs)
  {
    var out: seq<string> := [];
    var i := 0;
    assert globs[0..] == globs;
    assert PathspecsOf(prefix, globs).Some? ==> out + PathspecsOf(prefix, globs).value == PathspecsOf(prefix, globs).value;
    while i < |globs|
      invariant 0 <= i <= |globs|
      invariant PathspecsOf(prefix, globs)
                == match PathspecsOf(prefix, globs[i..]) case None => None case Some(rest) => Some(out + rest)
    {
      assert globs[i..][1..] == globs[i + 1..];
      var g := Trim(globs[i]);
      if g != "" {
        var spec := Pathspec(prefix, g);
        if spec.None? {
          return None;
        }
        ghost var rest := PathspecsOf(prefix, globs[i + 1..]);
        assert rest.Some? ==> out + ([spec.value] + rest.value) == (out + [spec.value]) + rest.value;
        out := out + [spec.value];
      }
      i := i + 1;
    }
    assert out + [] == out;
    return Some(out);
  }

  /** Only an absolute glob is refused. Declared globs that are all blank restrict nothing: the whole repository is input. */
  lemma {:induction false} PathspecsRefuseOnlyAbsolute(prefix: string, globs: seq<string>)
    ensures PathspecsOf(prefix, globs).None? <==> exists i :: 0 <= i < |globs| && "/" <= Trim(globs[i])
    ensures PathspecsOf(prefix, globs) == Some([]) <==> forall i :: 0 <= i < |globs| ==> Trim(globs[i]) == ""
    decreases |globs|
  {
    hide Trim;
    if globs != [] {
      PathspecsRefuseOnlyAbsolute(prefix, globs[1..]);
      var rest := globs[1..];
      assert forall i :: 0 < i < |globs| ==> globs[i] == rest[i - 1];
      if exists i :: 0 <= i < |rest| && "/" <= Trim(rest[i]) {
        var i :| 0 <= i < |rest| && "/" <= Trim(rest[i]);
        assert "/" <= Trim(globs[i + 1]);
      }
      var g := Trim(globs[0]);
      assert "/" <= g ==> g != "" && g[0] == '/' && g[0] != ":"[0];
      assert g != "" && !("/" <= g) ==> Pathspec(prefix, g).Some?;
    }
  }

  // ── git's output ───────────────────────────────────────────────────────

  function IndexText(r: IndexRecord): string {
    r.mode + " " + r.oid + " " + r.stage + "\t" + r.path
  }

  function StatusText(r: StatusRecord): string {
    [r.x, r.y, ' '] + r.path
  }

  function PrintIndex(index: seq<IndexRecord>): string {
    if index == [] then "" else IndexText(index[0]) + ['\0'] + PrintIndex(index[1..])
  }

  function PrintStatus(status: seq<StatusRecord>): string {
    if status == [] then "" else StatusText(status[0]) + ['\0'] + PrintStatus(status[1..])
  }

  // ── the snapshot ───────────────────────────────────────────────────────

  /** Path and object id of one index line; lines of another shape are passed over. */
  function ReadIndex(rec: string): Option<(string, string)> {
    match SplitOnce(rec, "\t")
    case None => None
    case Some((meta, path)) => if |Words(meta)| < 2 then None else Some((path, Words(meta)[1]))
  }

  function Tracked(recs: seq<string>, entries: SortedMap.Entries): SortedMap.Entries {
    if recs == [] then entries
    else
      var next := match ReadIndex(recs[0])
        case None => entries
        case Some((path, oid)) => SortedMap.Insert(entries, path, Blob(oid));
      Tracked(recs[1..], next)
  }

  /** Status paths that exist as files, in report order. */
  function ToHash(recs: seq<string>, work: string -> Probe): seq<string> {
    if recs == [] then []
    else
      var rest := ToHash(recs[1..], work);
      if |recs[0]| > 3 && work(recs[0][3..]).File? then [recs[0][3..]] + rest else rest
  }

  /** Status paths that are gone become `deleted`. */
  function Deleted(recs: seq<string>, work: string -> Probe, entries: SortedMap.Entries): SortedMap.Entries {
    if recs == [] then entries
    else
      var next := if |recs[0]| > 3 && work(recs[0][3..]).Missing? then SortedMap.Insert(entries, recs[0][3..], DELETED)
        else entries;
      Deleted(recs[1..], work, next)
  }

  /** What is fed to `git hash-object --stdin-paths`. */
  function Stdin(paths: seq<string>): string {
    if paths == [] then "" else paths[0] + "\n" + Stdin(paths[1..])
  }

  /** Object ids of the files named by the lines; git fails on a line that names no file. */
  function Oids(lines: seq<string>, work: string -> Probe, hash: string -> string): Option<seq<string>> {
    if lines == [] then Some([])
    else if !work(lines[0]).File? then None
    else match Oids(lines[1..], work, hash)
      case None => None
      case Some(rest) => Some([hash(work(lines[0]).content)] + rest)
  }

  function Rehashed(paths: seq<string>, oids: seq<string>, entries: SortedMap.Entries): SortedMap.Entries
    requires |paths| == |oids|
  {
    if paths == [] then entries
    else Rehashed(paths[1..], oids[1..], SortedMap.Insert(entries, paths[0], Blob(oids[0])))
  }

  function Overlaid(paths: seq<string>, work: string -> Probe, hash: string -> string, entries: SortedMap.Entries)
    : Option<SortedMap.Entries>
  {
    if paths == [] then Some(entries)
    else match Oids(Lines(Stdin(paths)), work, hash)
      case None => None
      case Some(oids) => if |oids| != |paths| then None else Some(Rehashed(paths, oids, entries))
  }

  function SnapshotOf(indexText: string, statusText: string, work: string -> Probe, hash: string -> string)
    : Option<SortedMap.Entries>
  {
    var status := SplitChar(statusText, '\0');
    Overlaid(ToHash(status, work), work, hash, Deleted(status, work, Tracked(SplitChar(indexText, '\0'), [])))
  }

  method Snapshot(indexText: string, statusText: string, work: string -> Probe, hash: string -> string)
    returns (entries: Option<SortedMap.Entries>)
    ensures entries == SnapshotOf(indexText, statusText, work, hash)
  {
    var tracked := ReadTracked(SplitChar(indexText, '\0'));
    var known, toHash := ReadStatus(SplitChar(statusText, '\0'), work, tracked);
    if toHash == [] {
      return Some(known);
    }
    var oids := Oids(Lines(Stdin(toHash)), work, hash);
    if oids.None? || |oids.value| != |toHash| {
      return None;
    }
    var done := Rehash(toHash, oids.value, known);
    return Some(done);
  }

  method ReadTracked(recs: seq<string>) returns (entries: SortedMap.Entries)
    ensures entries == Tracked(recs, [])
  {
    entries := [];
    var i := 0;
    while i < |recs|
      invariant 0 <= i <= |recs|
      invariant Tracked(recs[i..], entries) == Tracked(recs, [])
    {
      assert recs[i..][1..] == recs[i + 1..];
      var read := ReadIndex(recs[i]);
      if read.Some? {
        entries := SortedMap.Insert(entries, read.value.0, Blob(read.value.1));
      }
      i := i + 1;
    }
  }

  method ReadStatus(recs: seq<string>, work: string -> Probe, tracked: SortedMap.Entries)
    returns (entries: SortedMap.Entries, toHash: seq<string>)
    ensures entries == Deleted(recs, work, tracked)
    ensures toHash == ToHash(recs, work)
  {
    hide SortedMap.Insert;
    entries, toHash := tracked, [];
    var i := 0;
    while i < |recs|
      invariant 0 <= i <= |recs|
      invariant Deleted(recs[i..], work, entries) == Deleted(recs, work, tracked)
      invariant toHash + ToHash(recs[i..], work) == ToHash(recs, work)
    {
      ghost var rest := recs[i + 1..];
      assert recs[i..][1..] == rest && recs[i..][0] == recs[i];
      if |recs[i]| > 3 {
        var path := recs[i][3..];
        match work(path) {
          case Missing => entries := SortedMap.Insert(entries, path, DELETED);
          case Directory =>
          case File(_) =>
            assert toHash + ([path] + ToHash(rest, work)) == (toHash + [path]) + ToHash(rest, work);
            toHash := toHash + [path];
        }
      }
      i := i + 1;
    }
    assert toHash + [] == toHash;
  }

  method Rehash(paths: seq<string>, oids: seq<string>, known: SortedMap.Entries) returns (entries: SortedMap.Entries)
    requires |paths| == |oids|
    ensures entries == Rehashed(paths, oids, known)
  {
    entries := known;
    var i := 0;
    while i < |paths|
      invariant 0 <= i <= |paths|
      invariant Rehashed(paths[i..], oids[i..], entries) == Rehashed(paths, oids, known)
    {
      assert paths[i..][1..] == paths[i + 1..] && oids[i..][1..] == oids[i + 1..];
      entries := SortedMap.Insert(entries, paths[i], Blob(oids[i]));
      i := i + 1;
    }
  }

  // ── reading git's output back ──────────────────────────────────────────

  predicate PlainIndex(r: IndexRecord) {
    IsWord(r.mode) && IsWord(r.oid) && IsWord(r.stage) && '\0' !in IndexText(r)
  }

  predicate PlainStatus(r: StatusRecord) {
    r.path != "" && '\0' !in StatusText(r)
  }

  function Texts<T>(rs: seq<T>, text: T -> string): seq<string> {
    if rs == [] then [""] else [text(rs[0])] + Texts(rs[1..], text)
  }

  lemma SplitFirst(a: string, c: char, rest: string)
    requires c !in a
    ensures SplitChar(a + [c] + rest, c) == [a] + SplitChar(rest, c)
  {
    IndexOfFirst(a, c, rest);
    var s := a + [c] + rest;
    assert s[..|a|] == a && s[|a| + 1..] == rest;
  }

  lemma {:induction false} IndexSplits(index: seq<IndexRecord>)
    requires forall i :: 0 <= i < |index| ==> PlainIndex(index[i])
    ensures SplitChar(PrintIndex(index), '\0') == Texts(index, IndexText)
  {
    if index != [] {
      assert PlainIndex(index[0]);
      hide IndexText;
      SplitFirst(IndexText(index[0]), '\0', PrintIndex(index[1..]));
      IndexSplits(index[1..]);
    }
  }

  lemma {:induction false} StatusSplits(status: seq<StatusRecord>)
    requires forall i :: 0 <= i < |status| ==> PlainStatus(status[i])
    ensures SplitChar(PrintStatus(status), '\0') == Texts(status, StatusText)
  {
    if status != [] {
      assert PlainStatus(status[0]);
      hide StatusText;
      SplitFirst(StatusText(status[0]), '\0', PrintStatus(status[1..]));
      StatusSplits(status[1..]);
    }
  }

  lemma {:induction false} FindTab(meta: string, path: string)
    requires '\t' !in meta
    ensures Find(meta + "\t" + path, "\t") == Some(|meta|)
  {
    var s := meta + "\t" + path;
    if meta != "" {
      assert s[0] != '\t';
      assert s[1..] == meta[1..] + "\t" + path;
      FindTab(meta[1..], path);
    }
  }

  lemma {:induction false} WordLenOf(w: string, rest: string)
    requires forall i :: 0 <= i < |w| ==> !IsSpace(w[i])
    requires rest == "" || IsSpace(rest[0])
    ensures WordLen(w + rest) == |w|
  {
    if w == "" {
      assert w + rest == rest;
    } else {
      assert (w + rest)[1..] == w[1..] + rest;
      WordLenOf(w[1..], rest);
    }
  }

  lemma FirstWord(w: string, rest: string)
    requires IsWord(w) && (rest == "" || IsSpace(rest[0]))
    ensures Words(w + rest) == [w] + Words(rest)
  {
    WordLenOf(w, rest);
    assert (w + rest)[..|w|] == w && (w + rest)[|w|..] == rest;
    assert !IsSpace((w + rest)[0]);
  }

  lemma MetaWords(mode: string, oid: string, stage: string)
    requires IsWord(mode) && IsWord(oid) && IsWord(stage)
    ensures Words(mode + " " + oid + " " + stage) == [mode, oid, stage]
  {
    hide IsWord;
    var tail := " " + (oid + (" " + stage));
    assert mode + " " + oid + " " + stage == mode + tail;
    FirstWord(mode, tail);
    assert tail[1..] == oid + (" " + stage);
    assert Words(tail) == Words(tail[1..]);
    FirstWord(oid, " " + stage);
    assert (" " + stage)[1..] == stage;
    assert Words(" " + stage) == Words(stage);
    assert stage + "" == stage;
    FirstWord(stage, "");
  }

  lemma IndexRecordReads(r: IndexRecord)
    requires PlainIndex(r)
    ensures ReadIndex(IndexText(r)) == Some((r.path, r.oid))
  {
    var meta := r.mode + " " + r.oid + " " + r.stage;
    assert '\t' !in meta;
    hide IsWord;
    FindTab(meta, r.path);
    var s := meta + "\t" + r.path;
    assert s[..|meta|] == meta && s[|meta| + 1..] == r.path;
    MetaWords(r.mode, r.oid, r.stage);
  }

  /** What the index lines mean: each record sets its path. */
  function TrackedBy(index: seq<IndexRecord>, entries: SortedMap.Entries): SortedMap.Entries {
    if index == [] then entries
    else TrackedBy(index[1..], SortedMap.Insert(entries, index[0].path, Blob(index[0].oid)))
  }

  lemma {:induction false} TrackedReads(index: seq<IndexRecord>, entries: SortedMap.Entries)
    requires forall i :: 0 <= i < |index| ==> PlainIndex(index[i])
    ensures Tracked(Texts(index, IndexText), entries) == TrackedBy(index, entries)
    decreases |index|
  {
    if index == [] {
      EmptyLineReads();
    } else {
      assert PlainIndex(index[0]);
      IndexRecordReads(index[0]);
      hide PlainIndex, IndexText, ReadIndex;
      assert Texts(index, IndexText)[1..] == Texts(index[1..], IndexText);
      TrackedReads(index[1..], SortedMap.Insert(entries, index[0].path, Blob(index[0].oid)));
    }
  }

  lemma EmptyLineReads()
    ensures ReadIndex("") == None
  {
    assert Find("", "\t") == None;
  }

  function Paths(status: seq<StatusRecord>): seq<string> {
    if status == [] then [] else [status[0].path] + Paths(status[1..])
  }

  function FilesIn(paths: seq<string>, work: string -> Probe): seq<string> {
    if paths == [] then []
    else if work(paths[0]).File? then [paths[0]] + FilesIn(paths[1..], work)
    else FilesIn(paths[1..], work)
  }

  function GoneIn(paths: seq<string>, work: string -> Probe, entries: SortedMap.Entries): SortedMap.Entries {
    if paths == [] then entries
    else GoneIn(paths[1..], work, if work(paths[0]).Missing? then SortedMap.Insert(entries, paths[0], DELETED) else entries)
  }

  lemma StatusRecordReads(r: StatusRecord)
    requires PlainStatus(r)
    ensures |StatusText(r)| > 3 && StatusText(r)[3..] == r.path
  {
  }

  lemma {:induction false} StatusReads(status: seq<StatusRecord>, work: string -> Probe, entries: SortedMap.Entries)
    requires forall i :: 0 <= i < |status| ==> PlainStatus(status[i])
    ensures ToHash(Texts(status, StatusText), work) == FilesIn(Paths(status), work)
    ensures Deleted(Texts(status, StatusText), work, entries) == GoneIn(Paths(status), work, entries)
    decreases |status|
  {
    if status != [] {
      StatusRecordReads(status[0]);
      assert Texts(status, StatusText)[1..] == Texts(status[1..], StatusText);
      assert Paths(status)[1..] == Paths(status[1..]);
      var p := status[0].path;
      hide PlainStatus, StatusText;
      StatusReads(status[1..], work, if work(p).Missing? then SortedMap.Insert(entries, p, DELETED) else entries);
    }
  }

  // ── hash-object's line protocol ────────────────────────────────────────

  /** A path that survives being one line of input. */
  predicate IsLine(path: string) {
    '\n' !in path && (path != "" ==> path[|path| - 1] != '\r')
  }

  lemma OneLine(path: string, rest: string)
    requires IsLine(path)
    ensures Lines(path + "\n" + rest) == [path] + Lines(rest)
  {
    var s := path + ['\n'] + rest;
    assert path + "\n" + rest == s;
    IndexOfFirst(path, '\n', rest);
    assert s[..|path|] == path && s[|path| + 1..] == rest;
  }

  lemma {:induction false} StdinLines(paths: seq<string>)
    requires forall i :: 0 <= i < |paths| ==> IsLine(paths[i])
    ensures Lines(Stdin(paths)) == paths
  {
    if paths != [] {
      OneLine(paths[0], Stdin(paths[1..]));
      hide Lines, IsLine;
      StdinLines(paths[1..]);
      assert paths == [paths[0]] + paths[1..];
    }
  }

  lemma {:induction false} LineFeedAddsLine(path: string, rest: string)
    ensures |Lines(path + "\n" + rest)| >= |Lines(rest)| + if '\n' in path then 2 else 1
    decreases |path|
  {
    var s := path + "\n" + rest;
    if '\n' in path {
      var i := IndexOf(path, '\n').value;
      var tail := path[i + 1..] + "\n" + rest;
      assert s == path[..i] + ['\n'] + tail;
      IndexOfFirst(path[..i], '\n', tail);
      assert s[i + 1..] == tail;
      LineFeedAddsLine(path[i + 1..], rest);
    } else {
      assert s == path + ['\n'] + rest;
      IndexOfFirst(path, '\n', rest);
      assert s[|path| + 1..] == rest;
    }
  }

  lemma {:induction false} LineFeedsBreakCount(paths: seq<string>)
    ensures |Lines(Stdin(paths))| >= |paths|
    ensures (exists i :: 0 <= i < |paths| && '\n' in paths[i]) ==> |Lines(Stdin(paths))| > |paths|
  {
    if paths != [] {
      LineFeedAddsLine(paths[0], Stdin(paths[1..]));
      LineFeedsBreakCount(paths[1..]);
      if i :| 0 < i < |paths| && '\n' in paths[i] {
        assert '\n' in paths[1..][i - 1];
      }
    }
  }

  lemma {:induction false} OidsOfFiles(paths: seq<string>, work: string -> Probe, hash: string -> string)
    requires forall i :: 0 <= i < |paths| ==> work(paths[i]).File?
    ensures Oids(paths, work, hash).Some? && |Oids(paths, work, hash).value| == |paths|
    ensures forall i :: 0 <= i < |paths| ==> Oids(paths, work, hash).value[i] == hash(work(paths[i]).content)
  {
    if paths != [] { OidsOfFiles(paths[1..], work, hash); }
  }

  lemma {:induction false} OidsPerLine(lines: seq<string>, work: string -> Probe, hash: string -> string)
    ensures Oids(lines, work, hash).Some? ==> |Oids(lines, work, hash).value| == |lines|
  {
    if lines != [] { OidsPerLine(lines[1..], work, hash); }
  }

  lemma {:induction false} FilesAreFiles(paths: seq<string>, work: string -> Probe)
    ensures forall p :: p in FilesIn(paths, work) <==> p in paths && work(p).File?
  {
    if paths != [] { FilesAreFiles(paths[1..], work); }
  }

  // ── lookups ────────────────────────────────────────────────────────────

  /** Object id of the last index record of a path. */
  function LastOid(index: seq<IndexRecord>, p: string): Option<string> {
    if index == [] then None
    else match LastOid(index[1..], p)
      case Some(oid) => Some(oid)
      case None => if index[0].path == p then Some(index[0].oid) else None
  }

  lemma {:induction false} LastOidIsRecord(index: seq<IndexRecord>, p: string)
    ensures LastOid(index, p).Some? ==> exists i :: 0 <= i < |index| && index[i].path == p && index[i].oid == LastOid(index, p).value
    ensures LastOid(index, p).None? ==> forall i :: 0 <= i < |index| ==> index[i].path != p
  {
    if index != [] {
      LastOidIsRecord(index[1..], p);
      if LastOid(index[1..], p).Some? {
        var i :| 0 <= i < |index[1..]| && index[1..][i].path == p && index[1..][i].oid == LastOid(index, p).value;
        assert index[i + 1].path == p;
      } else if index[0].path == p {
        assert LastOid(index, p) == Some(index[0].oid);
      }
    }
  }

  lemma {:induction false} GetTracked(index: seq<IndexRecord>, entries: SortedMap.Entries, p: string)
    requires SortedMap.Ascending(entries)
    ensures SortedMap.Ascending(TrackedBy(index, entries))
    ensures SortedMap.Get(TrackedBy(index, entries), p)
            == match LastOid(index, p) case Some(oid) => Some(Blob(oid)) case None => SortedMap.Get(entries, p)
    decreases |index|
  {
    if index != [] {
      SortedMap.InsertKeepsOrder(entries, index[0].path, Blob(index[0].oid));
      SortedMap.GetInsert(entries, index[0].path, Blob(index[0].oid), p);
      GetTracked(index[1..], SortedMap.Insert(entries, index[0].path, Blob(index[0].oid)), p);
    }
  }

  lemma {:induction false} GetGone(paths: seq<string>, work: string -> Probe, entries: SortedMap.Entries, p: string)
    requires SortedMap.Ascending(entries)
    ensures SortedMap.Ascending(GoneIn(paths, work, entries))
    ensures SortedMap.Get(GoneIn(paths, work, entries), p)
            == if p in paths && work(p).Missing? then Some(DELETED) else SortedMap.Get(entries, p)
    decreases |paths|
  {
    if paths != [] {
      if work(paths[0]).Missing? {
        SortedMap.InsertKeepsOrder(entries, paths[0], DELETED);
        SortedMap.GetInsert(entries, paths[0], DELETED, p);
        GetGone(paths[1..], work, SortedMap.Insert(entries, paths[0], DELETED), p);
      } else {
        GetGone(paths[1..], work, entries, p);
      }
    }
  }

  lemma {:induction false} GetRehashed(paths: seq<string>, oids: seq<string>, entries: SortedMap.Entries,
                                       work: string -> Probe, hash: string -> string, p: string)
    requires SortedMap.Ascending(entries) && |paths| == |oids|
    requires forall i :: 0 <= i < |paths| ==> work(paths[i]).File? && oids[i] == hash(work(paths[i]).content)
    ensures SortedMap.Ascending(Rehashed(paths, oids, entries))
    ensures SortedMap.Get(Rehashed(paths, oids, entries), p)
            == if p in paths then Some(Blob(hash(work(p).content))) else SortedMap.Get(entries, p)
    decreases |paths|
  {
    if paths != [] {
      SortedMap.InsertKeepsOrder(entries, paths[0], Blob(oids[0]));
      SortedMap.GetInsert(entries, paths[0], Blob(oids[0]), p);
      GetRehashed(paths[1..], oids[1..], SortedMap.Insert(entries, paths[0], Blob(oids[0])), work, hash, p);
    }
  }

  // ── git's contract ─────────────────────────────────────────────────────

  /** A working tree and what git says about it. */
  datatype Repo = Repo(work: string -> Probe, index: seq<IndexRecord>, status: seq<StatusRecord>)

  ghost predicate IsTracked(r: Repo, p: string) {
    LastOid(r.index, p).Some?
  }

  predicate IsReported(r: Repo, p: string) {
    p in Paths(r.status)
  }

  /** The assumptions on `git ls-files -s` and `git status` for the paths that match the specifications. */
  ghost predicate GitContract(r: Repo, matches: string -> bool, ignored: string -> bool, hash: string -> string) {
    && (forall i :: 0 <= i < |r.index| ==> PlainIndex(r.index[i]) && matches(r.index[i].path))
    && (forall i :: 0 <= i < |r.status| ==> PlainStatus(r.status[i]) && matches(r.status[i].path))
    // a tracked path that status does not report is present and unmodified
    && (forall i :: 0 <= i < |r.index| && !IsReported(r, r.index[i].path) ==>
          match r.work(r.index[i].path)
          case Missing => false
          case Directory => true
          case File(content) => r.index[i].oid == hash(content))
    // status reports exactly the untracked files that are not ignored
    && (forall p :: matches(p) && r.work(p).File? && !IsTracked(r, p) ==> (IsReported(r, p) <==> !ignored(p)))
  }

  /** Content of a path that is an input: a matching file, tracked or at least not ignored. */
  ghost function InputContent(r: Repo, matches: string -> bool, ignored: string -> bool, p: string): Option<string> {
    if matches(p) && r.work(p).File? && (IsTracked(r, p) || !ignored(p)) then Some(r.work(p).content) else None
  }

  /** The token hashing every input directly would give. */
  ghost function DirectToken(r: Repo, matches: string -> bool, ignored: string -> bool, hash: string -> string, p: string)
    : Option<string>
  {
    match r.work(p)
    case File(_) =>
      (match InputContent(r, matches, ignored, p) case Some(content) => Some(Blob(hash(content))) case None => None)
    case Missing => if IsReported(r, p) then Some(DELETED) else None
    case Directory => match LastOid(r.index, p) case Some(oid) => Some(Blob(oid)) case None => None
  }

  function Taken(r: Repo, hash: string -> string): Option<SortedMap.Entries> {
    SnapshotOf(PrintIndex(r.index), PrintStatus(r.status), r.work, hash)
  }

  ghost predicate PlainRecords(r: Repo) {
    && (forall i :: 0 <= i < |r.index| ==> PlainIndex(r.index[i]))
    && (forall i :: 0 <= i < |r.status| ==> PlainStatus(r.status[i]))
  }

  lemma TakenReads(r: Repo, hash: string -> string)
    requires PlainRecords(r)
    ensures Taken(r, hash) == Overlaid(FilesIn(Paths(r.status), r.work), r.work, hash,
                                       GoneIn(Paths(r.status), r.work, TrackedBy(r.index, [])))
  {
    hide PlainIndex, PlainStatus, Overlaid, IndexText, StatusText;
    IndexSplits(r.index);
    StatusSplits(r.status);
    TrackedReads(r.index, []);
    StatusReads(r.status, r.work, TrackedBy(r.index, []));
  }

  /** A reported file whose name holds a line feed makes the snapshot fail. */
  lemma LineFeedInNameFails(r: Repo, hash: string -> string, p: string)
    requires PlainRecords(r)
    requires IsReported(r, p) && r.work(p).File? && '\n' in p
    ensures Taken(r, hash) == None
  {
    TakenReads(r, hash);
    hide PlainRecords;
    var files := FilesIn(Paths(r.status), r.work);
    FilesAreFiles(Paths(r.status), r.work);
    assert p in files;
    var i :| 0 <= i < |files| && files[i] == p;
    LineFeedsBreakCount(files);
    OidsPerLine(Lines(Stdin(files)), r.work, hash);
  }

  /** Every file git must re-read has a name that is one line. */
  ghost predicate LineNames(r: Repo) {
    forall p :: IsReported(r, p) && r.work(p).File? ==> IsLine(p)
  }

  lemma TokenBeforeRehash(r: Repo, matches: string -> bool, ignored: string -> bool, hash: string -> string, p: string)
    requires GitContract(r, matches, ignored, hash)
    ensures var known := GoneIn(Paths(r.status), r.work, TrackedBy(r.index, []));
            SortedMap.Ascending(known)
            && DirectToken(r, matches, ignored, hash, p)
               == if IsReported(r, p) && r.work(p).File? then Some(Blob(hash(r.work(p).content))) else SortedMap.Get(known, p)
  {
    hide PlainIndex, PlainStatus;
    GetTracked(r.index, [], p);
    GetGone(Paths(r.status), r.work, TrackedBy(r.index, []), p);
    LastOidIsRecord(r.index, p);
    if IsReported(r, p) { ReportedMatches(r, p); }
  }

  lemma {:induction false} PathIsRecord(status: seq<StatusRecord>, p: string)
    requires p in Paths(status)
    ensures exists i :: 0 <= i < |status| && status[i].path == p
  {
    if status[0].path != p {
      PathIsRecord(status[1..], p);
      var i :| 0 <= i < |status[1..]| && status[1..][i].path == p;
      assert status[i + 1].path == p;
    }
  }

  lemma ReportedMatches(r: Repo, p: string)
    requires IsReported(r, p)
    ensures exists i :: 0 <= i < |r.status| && r.status[i].path == p
  {
    PathIsRecord(r.status, p);
  }

  lemma OverlayToken(paths: seq<string>, work: string -> Probe, hash: string -> string, known: SortedMap.Entries, p: string)
    requires SortedMap.Ascending(known)
    requires forall q :: q in paths ==> work(q).File? && IsLine(q)
    ensures Overlaid(paths, work, hash, known).Some? && SortedMap.Ascending(Overlaid(paths, work, hash, known).value)
    ensures SortedMap.Get(Overlaid(paths, work, hash, known).value, p)
            == if p in paths then Some(Blob(hash(work(p).content))) else SortedMap.Get(known, p)
  {
    hide IsLine;
    if paths != [] {
      StdinLines(paths);
      OidsOfFiles(paths, work, hash);
      GetRehashed(paths, Oids(paths, work, hash).value, known, work, hash, p);
    }
  }

  /** The snapshot is the direct hashing of the working tree: every path gets its direct token, whatever index and HEAD hold. */
  lemma SnapshotIsDirect(r: Repo, matches: string -> bool, ignored: string -> bool, hash: string -> string, p: string)
    requires GitContract(r, matches, ignored, hash) && LineNames(r)
    ensures Taken(r, hash).Some? && SortedMap.Ascending(Taken(r, hash).value)
    ensures SortedMap.Get(Taken(r, hash).value, p) == DirectToken(r, matches, ignored, hash, p)
  {
    TakenReads(r, hash);
    TokenBeforeRehash(r, matches, ignored, hash, p);
    FilesAreFiles(Paths(r.status), r.work);
    hide GitContract, IsLine, DirectToken, TrackedBy, GoneIn;
    OverlayToken(FilesIn(Paths(r.status), r.work), r.work, hash, GoneIn(Paths(r.status), r.work, TrackedBy(r.index, [])), p);
  }

  /** No submodule among the inputs: a tracked path is not a directory. */
  ghost predicate NoSubmodules(r: Repo) {
    forall p :: r.work(p).Directory? ==> !IsTracked(r, p)
  }

  /** Two states agree on the content of every input. */
  ghost predicate SameContents(a: Repo, b: Repo, matches: string -> bool, ignored: string -> bool) {
    forall p :: InputContent(a, matches, ignored, p) == InputContent(b, matches, ignored, p)
  }

  /** A path that is gone while git still reports it, because its deletion is not committed. */
  predicate IsPendingDeletion(r: Repo, p: string) {
    r.work(p).Missing? && IsReported(r, p)
  }

  ghost predicate SameDeletions(a: Repo, b: Repo) {
    forall p :: IsPendingDeletion(a, p) <==> IsPendingDeletion(b, p)
  }

  ghost predicate NoContentCollision(a: Repo, b: Repo, hash: string -> string) {
    forall p :: a.work(p).File? && b.work(p).File? ==> NoCollision(hash, a.work(p).content, b.work(p).content)
  }

  lemma TokensAgree(a: Repo, b: Repo, matches: string -> bool, ignored: string -> bool, hash: string -> string, p: string)
    requires NoSubmodules(a) && NoSubmodules(b) && NoContentCollision(a, b, hash)
    ensures DirectToken(a, matches, ignored, hash, p) == DirectToken(b, matches, ignored, hash, p)
            <==> InputContent(a, matches, ignored, p) == InputContent(b, matches, ignored, p)
                 && (IsPendingDeletion(a, p) <==> IsPendingDeletion(b, p))
  {
    forall oid ensures Blob(oid) != DELETED { assert Blob(oid)[0] == 'b'; }
    forall x, y | Blob(x) == Blob(y) ensures x == y { DropLabel("blob:", x, y); }
  }

  /** Two states give the same entries exactly when every input has the same content and the same deletions are pending. */
  lemma EntriesFollowContent(a: Repo, b: Repo, matches: string -> bool, ignored: string -> bool, hash: string -> string)
    requires GitContract(a, matches, ignored, hash) && GitContract(b, matches, ignored, hash)
    requires LineNames(a) && LineNames(b) && NoSubmodules(a) && NoSubmodules(b) && NoContentCollision(a, b, hash)
    ensures Taken(a, hash) == Taken(b, hash) <==> SameContents(a, b, matches, ignored) && SameDeletions(a, b)
  {
    SnapshotTokens(a, matches, ignored, hash);
    SnapshotTokens(b, matches, ignored, hash);
    hide GitContract, LineNames, DirectToken, InputContent, IsPendingDeletion, Taken;
    EntriesAgree(Taken(a, hash).value, Taken(b, hash).value);
    forall p ensures DirectToken(a, matches, ignored, hash, p) == DirectToken(b, matches, ignored, hash, p)
                     <==> InputContent(a, matches, ignored, p) == InputContent(b, matches, ignored, p)
                          && (IsPendingDeletion(a, p) <==> IsPendingDeletion(b, p)) {
      TokensAgree(a, b, matches, ignored, hash, p);
    }
  }

  lemma SnapshotTokens(r: Repo, matches: string -> bool, ignored: string -> bool, hash: string -> string)
    requires GitContract(r, matches, ignored, hash) && LineNames(r)
    ensures Taken(r, hash).Some? && SortedMap.Ascending(Taken(r, hash).value)
    ensures forall p :: SortedMap.Get(Taken(r, hash).value, p) == DirectToken(r, matches, ignored, hash, p)
  {
    SnapshotIsDirect(r, matches, ignored, hash, "");
    hide GitContract, LineNames, DirectToken, Taken;
    forall p ensures SortedMap.Get(Taken(r, hash).value, p) == DirectToken(r, matches, ignored, hash, p) {
      SnapshotIsDirect(r, matches, ignored, hash, p);
    }
  }

  ghost predicate SameLookups(x: SortedMap.Entries, y: SortedMap.Entries) {
    forall p :: SortedMap.Get(x, p) == SortedMap.Get(y, p)
  }

  lemma EntriesAgree(x: SortedMap.Entries, y: SortedMap.Entries)
    requires SortedMap.Ascending(x) && SortedMap.Ascending(y)
    ensures x == y <==> SameLookups(x, y)
  {
    if SameLookups(x, y) {
      SortedMap.Extensional(x, y);
    }
  }

  /** Committing a deletion changes the entries although no file content changes: the path stops being reported. */
  lemma CommittedDeletionChangesEntries(path: string, hash: string -> string)
    requires path != "" && '\0' !in path
    ensures var work := (p: string) => Missing;
            var all, none := (p: string) => true, (p: string) => false;
            var staged, committed := Repo(work, [], [StatusRecord('D', ' ', path)]), Repo(work, [], []);
            && GitContract(staged, all, none, hash) && GitContract(committed, all, none, hash)
            && SameContents(staged, committed, all, none)
            && Taken(staged, hash) == Some([(path, DELETED)])
            && Taken(committed, hash) == Some([])
  {
    var work := (p: string) => Missing;
    var all, none := (p: string) => true, (p: string) => false;
    var record := StatusRecord('D', ' ', path);
    var staged, committed := Repo(work, [], [record]), Repo(work, [], []);
    assert PlainStatus(record);
    assert Paths([record]) == [path];
    assert [path][1..] == [];
    TakenReads(staged, hash);
    TakenReads(committed, hash);
  }

  // ── the fingerprint of a workspace ─────────────────────────────────────

  function InputsOf(r: Repo, hash: string -> string, globs: seq<string>, command: seq<string>, tools: SortedMap.Entries,
                    contract: string): Option<Fingerprint.Inputs>
  {
    match Taken(r, hash)
    case None => None
    case Some(entries) => Some(Fingerprint.Inputs(contract, command, tools, globs, entries))
  }

  ghost predicate CleanDeclarations(globs: seq<string>, tools: SortedMap.Entries, contract: string) {
    Fingerprint.Clean(Fingerprint.Inputs(contract, [], tools, globs, []))
  }

  ghost predicate CleanEntries(entries: SortedMap.Entries) {
    forall i :: 0 <= i < |entries| ==> Fingerprint.CleanEntry(entries[i])
  }

  lemma {:induction false} InsertClean(entries: SortedMap.Entries, path: string, token: string)
    requires CleanEntries(entries) && '\0' !in path && '\n' !in token
    ensures CleanEntries(SortedMap.Insert(entries, path, token))
  {
    if entries != [] { InsertClean(entries[1..], path, token); }
  }

  lemma {:induction false} TrackedClean(index: seq<IndexRecord>, entries: SortedMap.Entries)
    requires CleanEntries(entries) && forall i :: 0 <= i < |index| ==> PlainIndex(index[i])
    ensures CleanEntries(TrackedBy(index, entries))
    decreases |index|
  {
    if index != [] {
      IndexIsClean(index[0]);
      hide PlainIndex, CleanEntries;
      InsertClean(entries, index[0].path, Blob(index[0].oid));
      TrackedClean(index[1..], SortedMap.Insert(entries, index[0].path, Blob(index[0].oid)));
    }
  }

  lemma IndexIsClean(r: IndexRecord)
    requires PlainIndex(r)
    ensures '\0' !in r.path && '\n' !in Blob(r.oid)
  {
  }

  lemma {:induction false} GoneClean(paths: seq<string>, work: string -> Probe, entries: SortedMap.Entries)
    requires CleanEntries(entries) && forall i :: 0 <= i < |paths| ==> '\0' !in paths[i]
    ensures CleanEntries(GoneIn(paths, work, entries))
    decreases |paths|
  {
    if paths != [] {
      assert '\n' !in DELETED;
      hide CleanEntries;
      if work(paths[0]).Missing? { InsertClean(entries, paths[0], DELETED); }
      GoneClean(paths[1..], work, if work(paths[0]).Missing? then SortedMap.Insert(entries, paths[0], DELETED) else entries);
    }
  }

  lemma {:induction false} RehashedClean(paths: seq<string>, oids: seq<string>, entries: SortedMap.Entries)
    requires CleanEntries(entries) && |paths| == |oids|
    requires forall i :: 0 <= i < |paths| ==> '\0' !in paths[i] && '\n' !in oids[i]
    ensures CleanEntries(Rehashed(paths, oids, entries))
    decreases |paths|
  {
    if paths != [] {
      assert '\n' !in Blob(oids[0]);
      hide CleanEntries;
      InsertClean(entries, paths[0], Blob(oids[0]));
      RehashedClean(paths[1..], oids[1..], SortedMap.Insert(entries, paths[0], Blob(oids[0])));
    }
  }

  lemma {:induction false} StatusClean(status: seq<StatusRecord>)
    requires forall i :: 0 <= i < |status| ==> PlainStatus(status[i])
    ensures forall i :: 0 <= i < |Paths(status)| ==> '\0' !in Paths(status)[i]
  {
    if status != [] {
      assert PlainStatus(status[0]) && '\0' !in status[0].path by { assert StatusText(status[0])[3..] == status[0].path; }
      StatusClean(status[1..]);
    }
  }

  lemma OidsClean(paths: seq<string>, work: string -> Probe, hash: string -> string)
    requires forall c :: '\n' !in hash(c)
    requires forall i :: 0 <= i < |paths| ==> work(paths[i]).File?
    ensures Oids(paths, work, hash).Some? && |Oids(paths, work, hash).value| == |paths|
    ensures forall i :: 0 <= i < |paths| ==> '\n' !in Oids(paths, work, hash).value[i]
  {
    OidsOfFiles(paths, work, hash);
  }

  lemma TakenIsClean(r: Repo, hash: string -> string)
    requires PlainRecords(r) && LineNames(r) && forall c :: '\n' !in hash(c)
    ensures Taken(r, hash).Some? ==> CleanEntries(Taken(r, hash).value)
  {
    TakenReads(r, hash);
    TrackedClean(r.index, []);
    StatusClean(r.status);
    GoneClean(Paths(r.status), r.work, TrackedBy(r.index, []));
    var files := FilesIn(Paths(r.status), r.work);
    FilesAreFiles(Paths(r.status), r.work);
    if files != [] {
      StdinLines(files);
      OidsOfFiles(files, r.work, hash);
      OidsClean(files, r.work, hash);
      forall i | 0 <= i < |files| ensures '\0' !in files[i] {
        assert files[i] in Paths(r.status);
      }
      hide CleanEntries, PlainRecords, LineNames;
      RehashedClean(files, Oids(files, r.work, hash).value, GoneIn(Paths(r.status), r.work, TrackedBy(r.index, [])));
    }
  }

  /** The whole pipeline: the fingerprints of two runs agree exactly when the runs declare the same things (globs in any
      order), every input has the same content and the same deletions are pending, however the index and HEAD got there. */
  lemma FingerprintFollowsContent(a: Repo, b: Repo, matches: string -> bool, ignored: string -> bool,
                                  hash: string -> string, sha: string -> string,
                                  globs: seq<string>, globs': seq<string>, command: seq<string>, command': seq<string>,
                                  tools: SortedMap.Entries, tools': SortedMap.Entries, contract: string, contract': string)
    requires GitContract(a, matches, ignored, hash) && GitContract(b, matches, ignored, hash)
    requires LineNames(a) && LineNames(b) && NoSubmodules(a) && NoSubmodules(b) && NoContentCollision(a, b, hash)
    requires forall c :: '\n' !in hash(c)
    requires CleanDeclarations(globs, tools, contract) && CleanDeclarations(globs', tools', contract')
    requires forall x, y :: InputsOf(a, hash, globs, command, tools, contract) == Some(x)
                            && InputsOf(b, hash, globs', command', tools', contract') == Some(y) ==>
                              NoCollision(sha, Fingerprint.Material(x), Fingerprint.Material(y))
    ensures var x := InputsOf(a, hash, globs, command, tools, contract);
            var y := InputsOf(b, hash, globs', command', tools', contract');
            && x.Some? && y.Some?
            && (Fingerprint.Fingerprint(sha, x.value) == Fingerprint.Fingerprint(sha, y.value)
                <==> && contract == contract' && command == command' && tools == tools'
                     && multiset(globs) == multiset(globs')
                     && SameContents(a, b, matches, ignored) && SameDeletions(a, b))
  {
    assert PlainRecords(a) && PlainRecords(b);
    SnapshotIsDirect(a, matches, ignored, hash, "");
    SnapshotIsDirect(b, matches, ignored, hash, "");
    TakenIsClean(a, hash);
    TakenIsClean(b, hash);
    EntriesFollowContent(a, b, matches, ignored, hash);
    hide GitContract, LineNames, NoSubmodules, NoContentCollision, SameContents, SameDeletions, Fingerprint.Material, Taken,
      PlainRecords, Fingerprint.CleanEntry, Fingerprint.CleanTool;
    var x := InputsOf(a, hash, globs, command, tools, contract).value;
    var y := InputsOf(b, hash, globs', command', tools', contract').value;
    Fingerprint.FingerprintTellsInputsApart(sha, x, y);
  }
}
