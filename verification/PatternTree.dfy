/** The client's tree renderer: a flat pattern list becomes an indented forest. */
module PatternTree {
  import opened Wrappers
  import opened Text
  import opened Sorting
  import opened Classify

  datatype Row = Row(id: string, parent: string, createdAt: string, code: string, kind: string, scope: string,
                     lifecycle: string, depth: int)

  /** One printed row with the ids of the rows above it, outermost first. */
  datatype Line = Line(ancestors: seq<string>, orphan: bool, row: Row)

  const ORPHANS := "(orphans \U{2014} parent not in this plan)\n"
  const NO_PATTERNS := "(no patterns in this plan)\n"

  predicate DistinctIds(rows: seq<Row>) {
    forall i, j :: 0 <= i < j < |rows| ==> rows[i].id != rows[j].id
  }

  /** Ids come from a primary key: present and unique. Parent links are arbitrary. */
  predicate IsList(rows: seq<Row>) {
    DistinctIds(rows) && forall i :: 0 <= i < |rows| ==> rows[i].id != ""
  }

  function ById(rows: seq<Row>, id: string): (r: Option<Row>)
    ensures r.Some? ==> r.value in rows && r.value.id == id
    ensures r.None? ==> forall i :: 0 <= i < |rows| ==> rows[i].id != id
  {
    if rows == [] then None else if rows[0].id == id then Some(rows[0]) else ById(rows[1..], id)
  }

  predicate Earlier(a: Row, b: Row) {
    StrLe(a.createdAt, b.createdAt)
  }

  function WithParent(rows: seq<Row>, parent: string): seq<Row> {
    if rows == [] then []
    else if rows[0].parent == parent then [rows[0]] + WithParent(rows[1..], parent)
    else WithParent(rows[1..], parent)
  }

  /** Rows of one parent, oldest first. */
  function Children(rows: seq<Row>, parent: string): seq<Row> {
    Sort(WithParent(rows, parent), Earlier)
  }

  // ── ancestor chains ────────────────────────────────────────────────────

  /** `path` holds the ids from a row whose parent is not in the list down to the parent of `node`. */
  predicate IsChain(rows: seq<Row>, path: seq<string>, node: Row)
    decreases |path|
  {
    if path == [] then ById(rows, node.parent).None?
    else
      var up := ById(rows, path[|path| - 1]);
      node.parent == path[|path| - 1] && up.Some? && IsChain(rows, path[..|path| - 1], up.value)
  }

  ghost predicate IsGrounded(rows: seq<Row>, node: Row) {
    exists path :: IsChain(rows, path, node)
  }

  lemma {:induction false} ByIdOfRow(rows: seq<Row>, node: Row)
    requires DistinctIds(rows) && node in rows
    ensures ById(rows, node.id) == Some(node)
  {
    if rows[0] != node {
      var i :| 0 <= i < |rows| && rows[i] == node;
      assert rows[0].id != rows[i].id;
      assert node == rows[1..][i - 1];
      ByIdOfRow(rows[1..], node);
    }
  }

  /** A row has at most one ancestor chain. */
  lemma {:induction false} ChainUnique(rows: seq<Row>, a: seq<string>, b: seq<string>, node: Row)
    requires IsChain(rows, a, node) && IsChain(rows, b, node)
    ensures a == b
    decreases |a|
  {
    if a != [] && b != [] {
      var up := ById(rows, node.parent).value;
      ChainUnique(rows, a[..|a| - 1], b[..|b| - 1], up);
      assert a == a[..|a| - 1] + [node.parent] && b == b[..|b| - 1] + [node.parent];
    }
  }

  lemma {:induction false} ChainPrefix(rows: seq<Row>, path: seq<string>, node: Row, k: nat)
    requires IsChain(rows, path, node) && k < |path|
    ensures ById(rows, path[k]).Some? && IsChain(rows, path[..k], ById(rows, path[k]).value)
    decreases |path|
  {
    var up := path[..|path| - 1];
    if k < |path| - 1 {
      ChainPrefix(rows, up, ById(rows, path[|path| - 1]).value, k);
      assert up[..k] == path[..k];
    }
  }

  /** A chain never meets its own row, so it is shorter than the list. */
  lemma ChainAvoids(rows: seq<Row>, path: seq<string>, node: Row)
    requires DistinctIds(rows) && node in rows && IsChain(rows, path, node)
    ensures node.id !in path
  {
    if node.id in path {
      var k :| 0 <= k < |path| && path[k] == node.id;
      ChainPrefix(rows, path, node, k);
      ByIdOfRow(rows, node);
      ChainUnique(rows, path, path[..k], node);
      assert false;
    }
  }

  lemma {:induction false} ChainDistinct(rows: seq<Row>, path: seq<string>, node: Row)
    requires DistinctIds(rows) && node in rows && IsChain(rows, path, node)
    ensures |set i | 0 <= i < |path| :: path[i]| == |path|
    decreases |path|
  {
    if path != [] {
      var up := ById(rows, path[|path| - 1]).value;
      var shorter := path[..|path| - 1];
      ChainDistinct(rows, shorter, up);
      ChainAvoids(rows, shorter, up);
      assert (set i | 0 <= i < |path| :: path[i]) == (set i | 0 <= i < |shorter| :: shorter[i]) + {up.id};
    }
  }

  function Ids(rows: seq<Row>): (s: set<string>)
    ensures |s| <= |rows|
    ensures forall i :: 0 <= i < |rows| ==> rows[i].id in s
  {
    if rows == [] then {} else {rows[0].id} + Ids(rows[1..])
  }

  lemma ChainShort(rows: seq<Row>, path: seq<string>, node: Row)
    requires DistinctIds(rows) && node in rows && IsChain(rows, path, node)
    ensures |path| < |rows|
  {
    var on := set i | 0 <= i < |path| :: path[i];
    ChainDistinct(rows, path, node);
    ChainAvoids(rows, path, node);
    forall id | id in on + {node.id} ensures id in Ids(rows) {
      if id != node.id {
        var k :| 0 <= k < |path| && path[k] == id;
        ChainPrefix(rows, path, node, k);
      }
    }
    assert node.id !in on;
    Fewer(on + {node.id}, Ids(rows));
  }

  // ── what is printed ────────────────────────────────────────────────────

  lemma {:induction false} WithParentMembers(rows: seq<Row>, parent: string)
    ensures forall c :: c in WithParent(rows, parent) <==> c in rows && c.parent == parent
  {
    if rows != [] {
      WithParentMembers(rows[1..], parent);
      assert rows == [rows[0]] + rows[1..];
    }
  }

  lemma ChildrenMembers(rows: seq<Row>, parent: string)
    ensures forall c :: c in Children(rows, parent) <==> c in rows && c.parent == parent
  {
    WithParentMembers(rows, parent);
    forall c ensures c in Children(rows, parent) <==> c in WithParent(rows, parent) {
      assert c in multiset(Children(rows, parent)) <==> c in multiset(WithParent(rows, parent));
    }
  }

  lemma ChildChain(rows: seq<Row>, node: Row, path: seq<string>, child: Row)
    requires DistinctIds(rows) && node in rows && IsChain(rows, path, node) && child.parent == node.id
    ensures IsChain(rows, path + [node.id], child)
  {
    ByIdOfRow(rows, node);
    assert (path + [node.id])[..|path|] == path;
  }

  ghost predicate AllChained(rows: seq<Row>, kids: seq<Row>, path: seq<string>) {
    forall i :: 0 <= i < |kids| ==> kids[i] in rows && IsChain(rows, path, kids[i])
  }

  lemma KidsChained(rows: seq<Row>, node: Row, path: seq<string>)
    requires DistinctIds(rows) && node in rows && IsChain(rows, path, node)
    ensures AllChained(rows, Children(rows, node.id), path + [node.id])
  {
    ChildrenMembers(rows, node.id);
    var kids := Children(rows, node.id);
    hide Children;
    forall i | 0 <= i < |kids| ensures kids[i] in rows && IsChain(rows, path + [node.id], kids[i]) {
      assert kids[i] in kids;
      ChildChain(rows, node, path, kids[i]);
    }
  }

  /** The lines of a row and everything below it. It is defined for every list: the chain above a row bounds the recursion. */
  ghost function Walk(rows: seq<Row>, node: Row, path: seq<string>, orphan: bool): seq<Line>
    requires DistinctIds(rows) && node in rows && IsChain(rows, path, node)
    decreases |rows| - |path|, 0
  {
    ChainShort(rows, path, node);
    KidsChained(rows, node, path);
    [Line(path, orphan, node)] + WalkAll(rows, Children(rows, node.id), path + [node.id], false)
  }

  ghost function WalkAll(rows: seq<Row>, kids: seq<Row>, path: seq<string>, orphan: bool): seq<Line>
    requires DistinctIds(rows) && AllChained(rows, kids, path)
    decreases |rows| - |path|, |kids|
  {
    if kids == [] then [] else Walk(rows, kids[0], path, orphan) + WalkAll(rows, kids[1..], path, orphan)
  }

  /** Parents in ascending order, each once: the keys of the `by_parent` map. */
  function InsertKey(keys: seq<string>, key: string): seq<string> {
    if keys == [] then [key]
    else if keys[0] == key then keys
    else if StrLe(key, keys[0]) then [key] + keys
    else [keys[0]] + InsertKey(keys[1..], key)
  }

  function Keys(rows: seq<Row>): seq<string> {
    if rows == [] then [] else InsertKey(Keys(rows[..|rows| - 1]), rows[|rows| - 1].parent)
  }

  /** Rows whose parent is not in the list, grouped by that parent. */
  function Orphans(rows: seq<Row>, keys: seq<string>): seq<Row> {
    if keys == [] then []
    else if keys[0] == "" || ById(rows, keys[0]).Some? then Orphans(rows, keys[1..])
    else Children(rows, keys[0]) + Orphans(rows, keys[1..])
  }

  function Roots(rows: seq<Row>): seq<Row> {
    Children(rows, "")
  }

  lemma {:induction false} InsertKeyMembers(keys: seq<string>, key: string)
    ensures forall k :: k in InsertKey(keys, key) <==> k in keys || k == key
  {
    if keys != [] && keys[0] != key && !StrLe(key, keys[0]) { InsertKeyMembers(keys[1..], key); }
  }

  lemma {:induction false} KeysMembers(rows: seq<Row>)
    ensures forall k :: k in Keys(rows) <==> exists i :: 0 <= i < |rows| && rows[i].parent == k
  {
    if rows != [] {
      var before := rows[..|rows| - 1];
      KeysMembers(before);
      InsertKeyMembers(Keys(before), rows[|rows| - 1].parent);
      forall k ensures k in Keys(rows) <==> exists i :: 0 <= i < |rows| && rows[i].parent == k {
        if k in Keys(before) {
          var i :| 0 <= i < |before| && before[i].parent == k;
          assert rows[i].parent == k;
        }
        if i :| 0 <= i < |rows| && rows[i].parent == k {
          if i < |before| { assert before[i].parent == k; }
        }
      }
    }
  }

  lemma {:induction false} OrphanMembers(rows: seq<Row>, keys: seq<string>)
    ensures forall c :: c in Orphans(rows, keys)
                        <==> c in rows && c.parent in keys && c.parent != "" && ById(rows, c.parent).None?
    decreases |keys|
  {
    if keys != [] {
      OrphanMembers(rows, keys[1..]);
      ChildrenMembers(rows, keys[0]);
    }
  }

  lemma TopsChained(rows: seq<Row>)
    requires IsList(rows)
    ensures AllChained(rows, Roots(rows), []) && AllChained(rows, Orphans(rows, Keys(rows)), [])
  {
    ChildrenMembers(rows, "");
    OrphanMembers(rows, Keys(rows));
    var roots, orphans := Roots(rows), Orphans(rows, Keys(rows));
    hide Children, Orphans;
    forall i | 0 <= i < |roots| ensures roots[i] in rows && IsChain(rows, [], roots[i]) { assert roots[i] in roots; }
    forall i | 0 <= i < |orphans| ensures orphans[i] in rows && IsChain(rows, [], orphans[i]) { assert orphans[i] in orphans; }
  }

  ghost function RootLines(rows: seq<Row>): seq<Line>
    requires IsList(rows)
  {
    TopsChained(rows);
    WalkAll(rows, Roots(rows), [], false)
  }

  ghost function OrphanLines(rows: seq<Row>): seq<Line>
    requires IsList(rows)
  {
    TopsChained(rows);
    WalkAll(rows, Orphans(rows, Keys(rows)), [], true)
  }

  /** All lines, in print order. */
  ghost function Lines(rows: seq<Row>): seq<Line>
    requires IsList(rows)
  {
    RootLines(rows) + OrphanLines(rows)
  }

  function Indent(n: nat): string {
    if n == 0 then "" else Indent(n - 1) + "  "
  }

  function LineText(depth: nat, orphan: bool, row: Row): string {
    Indent(depth) + (if orphan then "(orphan) " else "- ") + row.code + " " + row.id + " [" + row.kind + "/" + row.scope
    + "] depth=" + IntToString(row.depth) + " lifecycle=" + row.lifecycle + "\n"
  }

  function Print(lines: seq<Line>): string {
    if lines == [] then "" else LineText(|lines[0].ancestors|, lines[0].orphan, lines[0].row) + Print(lines[1..])
  }

  lemma OrphansChained(rows: seq<Row>, keys: seq<string>)
    requires IsList(rows)
    ensures AllChained(rows, Orphans(rows, keys), [])
  {
    OrphanMembers(rows, keys);
    var orphans := Orphans(rows, keys);
    hide Orphans;
    forall i | 0 <= i < |orphans| ensures orphans[i] in rows && IsChain(rows, [], orphans[i]) { assert orphans[i] in orphans; }
  }

  /** The orphan groups of the given parents, with their header. */
  ghost function OrphanText(rows: seq<Row>, keys: seq<string>): string
    requires IsList(rows)
  {
    OrphansChained(rows, keys);
    WithHeader(rows, Orphans(rows, keys))
  }

  ghost function WithHeader(rows: seq<Row>, orphans: seq<Row>): string
    requires DistinctIds(rows) && AllChained(rows, orphans, [])
  {
    (if orphans == [] then "" else ORPHANS) + Print(WalkAll(rows, orphans, [], true))
  }

  ghost function Rendered(rows: seq<Row>): string
    requires IsList(rows)
  {
    var out := Print(RootLines(rows)) + OrphanText(rows, Keys(rows));
    if out == "" then NO_PATTERNS else out
  }

  // ── every line is a row with its ancestors ─────────────────────────────

  ghost predicate LineOk(rows: seq<Row>, path: seq<string>, orphan: bool, l: Line) {
    && l.row in rows && IsChain(rows, l.ancestors, l.row)
    && (l.ancestors == path || path < l.ancestors)
    && (l.orphan <==> orphan && l.ancestors == path)
  }

  /** The line of `node`, or a line below it. */
  predicate Under(path: seq<string>, node: Row, l: Line) {
    (l.ancestors == path && l.row == node) || path + [node.id] <= l.ancestors
  }

  lemma {:induction false} WalkLinesOk(rows: seq<Row>, node: Row, path: seq<string>, orphan: bool)
    requires DistinctIds(rows) && node in rows && IsChain(rows, path, node)
    ensures forall l :: l in Walk(rows, node, path, orphan) ==> LineOk(rows, path, orphan, l) && Under(path, node, l)
    decreases |rows| - |path|, 0
  {
    ChainShort(rows, path, node);
    KidsChained(rows, node, path);
    WalkAllLinesOk(rows, Children(rows, node.id), path + [node.id], false);
    forall l | l in Walk(rows, node, path, orphan) ensures LineOk(rows, path, orphan, l) && Under(path, node, l) {
      if l != Line(path, orphan, node) {
        assert l in WalkAll(rows, Children(rows, node.id), path + [node.id], false);
        assert LineOk(rows, path + [node.id], false, l);
      }
    }
  }

  lemma {:induction false} WalkAllLinesOk(rows: seq<Row>, kids: seq<Row>, path: seq<string>, orphan: bool)
    requires DistinctIds(rows) && AllChained(rows, kids, path)
    ensures forall l :: l in WalkAll(rows, kids, path, orphan) ==>
              LineOk(rows, path, orphan, l) && exists i :: 0 <= i < |kids| && Under(path, kids[i], l)
    decreases |rows| - |path|, |kids|
  {
    if kids != [] {
      WalkLinesOk(rows, kids[0], path, orphan);
      WalkAllLinesOk(rows, kids[1..], path, orphan);
      hide LineOk, Under;
      forall l | l in WalkAll(rows, kids, path, orphan)
        ensures LineOk(rows, path, orphan, l) && exists i :: 0 <= i < |kids| && Under(path, kids[i], l)
      {
        if l in Walk(rows, kids[0], path, orphan) {
          assert Under(path, kids[0], l);
        } else {
          assert l in WalkAll(rows, kids[1..], path, orphan);
          var i :| 0 <= i < |kids[1..]| && Under(path, kids[1..][i], l);
          assert Under(path, kids[i + 1], l);
        }
      }
    }
  }

  // ── no row twice ───────────────────────────────────────────────────────

  predicate DistinctRows(lines: seq<Line>) {
    forall i, j :: 0 <= i < j < |lines| ==> lines[i].row != lines[j].row
  }

  predicate Apart(a: seq<Line>, b: seq<Line>) {
    forall x, y :: x in a && y in b ==> x.row != y.row
  }

  lemma DistinctConcat(a: seq<Line>, b: seq<Line>)
    requires DistinctRows(a) && DistinctRows(b) && Apart(a, b)
    ensures DistinctRows(a + b)
  {
    var s := a + b;
    forall i, j | 0 <= i < j < |s| ensures s[i].row != s[j].row {
      if i < |a| && j >= |a| {
        assert a[i] in a && b[j - |a|] in b;
      }
    }
  }

  /** Lines below different siblings show different rows: a row's chain passes through one of them only. */
  lemma UnderApart(rows: seq<Row>, path: seq<string>, orphan: bool, x: Line, a: Row, y: Line, b: Row)
    requires LineOk(rows, path, orphan, x) && LineOk(rows, path, orphan, y)
    requires Under(path, a, x) && Under(path, b, y) && a.id != b.id
    ensures x.row != y.row
  {
    if x.row == y.row {
      ChainUnique(rows, x.ancestors, y.ancestors, x.row);
      if path + [a.id] <= x.ancestors && path + [b.id] <= y.ancestors {
        PrefixElement(path, a.id, x.ancestors);
        PrefixElement(path, b.id, y.ancestors);
      }
    }
  }

  lemma PrefixElement(p: seq<string>, e: string, s: seq<string>)
    requires p + [e] <= s
    ensures |p| < |s| && s[|p|] == e
  {
    assert (p + [e])[|p|] == e;
  }

  lemma {:induction false} WalkDistinct(rows: seq<Row>, node: Row, path: seq<string>, orphan: bool)
    requires DistinctIds(rows) && node in rows && IsChain(rows, path, node)
    ensures DistinctRows(Walk(rows, node, path, orphan))
    decreases |rows| - |path|, 0
  {
    ChainShort(rows, path, node);
    KidsChained(rows, node, path);
    KidsDistinct(rows, node.id);
    var kids := Children(rows, node.id);
    var below := WalkAll(rows, kids, path + [node.id], false);
    WalkAllDistinct(rows, kids, path + [node.id], false);
    WalkAllLinesOk(rows, kids, path + [node.id], false);
    var top := [Line(path, orphan, node)];
    forall x, y | x in top && y in below ensures x.row != y.row {
      assert LineOk(rows, path + [node.id], false, y);
      if y.row == node {
        ChainUnique(rows, y.ancestors, path, node);
        assert false;
      }
    }
    DistinctConcat(top, below);
  }

  lemma {:induction false} WalkAllDistinct(rows: seq<Row>, kids: seq<Row>, path: seq<string>, orphan: bool)
    requires DistinctIds(rows) && AllChained(rows, kids, path) && DistinctIds(kids)
    ensures DistinctRows(WalkAll(rows, kids, path, orphan))
    decreases |rows| - |path|, |kids|
  {
    if kids != [] {
      WalkDistinct(rows, kids[0], path, orphan);
      WalkAllDistinct(rows, kids[1..], path, orphan);
      WalkLinesOk(rows, kids[0], path, orphan);
      WalkAllLinesOk(rows, kids[1..], path, orphan);
      var a, b := Walk(rows, kids[0], path, orphan), WalkAll(rows, kids[1..], path, orphan);
      hide LineOk, Under;
      forall x, y | x in a && y in b ensures x.row != y.row {
        var i :| 0 <= i < |kids[1..]| && Under(path, kids[1..][i], y);
        UnderApart(rows, path, orphan, x, kids[0], y, kids[i + 1]);
      }
      DistinctConcat(a, b);
    }
  }

  lemma {:induction false} WithParentDistinct(rows: seq<Row>, parent: string)
    requires DistinctIds(rows)
    ensures DistinctIds(WithParent(rows, parent))
  {
    if rows != [] {
      WithParentDistinct(rows[1..], parent);
      WithParentMembers(rows[1..], parent);
      var tail := WithParent(rows[1..], parent);
      forall j | 0 <= j < |tail| ensures rows[0].id != tail[j].id {
        assert tail[j] in tail;
        var k :| 0 <= k < |rows[1..]| && rows[1..][k] == tail[j];
        assert rows[0].id != rows[k + 1].id;
      }
    }
  }

  lemma {:induction false} InsertDistinct(x: Row, s: seq<Row>)
    requires DistinctIds(s) && forall i :: 0 <= i < |s| ==> s[i].id != x.id
    ensures DistinctIds(Insert(x, s, Earlier))
  {
    if s != [] && !Earlier(x, s[0]) {
      InsertDistinct(x, s[1..]);
      var tail := Insert(x, s[1..], Earlier);
      forall j | 0 <= j < |tail| ensures tail[j].id != s[0].id {
        assert tail[j] in multiset(tail);
        assert tail[j] == x || tail[j] in multiset(s[1..]);
        if tail[j] != x {
          var k :| 0 <= k < |s[1..]| && s[1..][k] == tail[j];
          assert s[0].id != s[k + 1].id;
        }
      }
    }
  }

  lemma {:induction false} SortDistinct(s: seq<Row>)
    requires DistinctIds(s)
    ensures DistinctIds(Sort(s, Earlier))
  {
    if s != [] {
      SortDistinct(s[1..]);
      var tail := Sort(s[1..], Earlier);
      forall i | 0 <= i < |tail| ensures tail[i].id != s[0].id {
        assert tail[i] in multiset(tail);
        var k :| 0 <= k < |s[1..]| && s[1..][k] == tail[i];
        assert s[0].id != s[k + 1].id;
      }
      InsertDistinct(s[0], tail);
    }
  }

  lemma KidsDistinct(rows: seq<Row>, parent: string)
    requires DistinctIds(rows)
    ensures DistinctIds(Children(rows, parent))
  {
    WithParentDistinct(rows, parent);
    SortDistinct(WithParent(rows, parent));
  }

  predicate AscendingKeys(keys: seq<string>) {
    forall i, j :: 0 <= i < j < |keys| ==> StrLe(keys[i], keys[j]) && keys[i] != keys[j]
  }

  lemma {:induction false} InsertKeyAscending(keys: seq<string>, key: string)
    requires AscendingKeys(keys)
    ensures AscendingKeys(InsertKey(keys, key))
  {
    if keys != [] && keys[0] != key {
      if StrLe(key, keys[0]) {
        forall j | 0 <= j < |keys| ensures StrLe(key, keys[j]) && key != keys[j] {
          if j > 0 {
            StrLeTransitive(key, keys[0], keys[j]);
            if key == keys[j] { StrLeAntisymmetric(key, keys[0]); }
          }
        }
      } else {
        StrLeTotal(key, keys[0]);
        InsertKeyAscending(keys[1..], key);
        InsertKeyMembers(keys[1..], key);
        var tail := InsertKey(keys[1..], key);
        forall j | 0 <= j < |tail| ensures StrLe(keys[0], tail[j]) && keys[0] != tail[j] {
          assert tail[j] in tail;
          if tail[j] != key {
            var k :| 0 <= k < |keys[1..]| && keys[1..][k] == tail[j];
            assert StrLe(keys[0], keys[k + 1]);
          }
        }
      }
    }
  }

  lemma {:induction false} KeysAscending(rows: seq<Row>)
    ensures AscendingKeys(Keys(rows))
  {
    if rows != [] {
      KeysAscending(rows[..|rows| - 1]);
      InsertKeyAscending(Keys(rows[..|rows| - 1]), rows[|rows| - 1].parent);
    }
  }

  lemma {:induction false} OrphansDistinct(rows: seq<Row>, keys: seq<string>)
    requires DistinctIds(rows) && AscendingKeys(keys)
    ensures DistinctIds(Orphans(rows, keys))
    decreases |keys|
  {
    if keys != [] {
      OrphansDistinct(rows, keys[1..]);
      OrphanMembers(rows, keys[1..]);
      KidsDistinct(rows, keys[0]);
      ChildrenMembers(rows, keys[0]);
      hide Children, Orphans;
      var a, b := Children(rows, keys[0]), Orphans(rows, keys[1..]);
      forall i, j | 0 <= i < |a| && 0 <= j < |b| ensures a[i].id != b[j].id {
        assert a[i] in a && b[j] in b;
        assert keys[0] !in keys[1..];
        ByIdOfRow(rows, a[i]);
        ByIdOfRow(rows, b[j]);
      }
      JoinDistinct(a, b);
      OrphansUnfold(rows, keys);
    }
  }

  lemma OrphansUnfold(rows: seq<Row>, keys: seq<string>)
    requires keys != []
    ensures Orphans(rows, keys) == Orphans(rows, keys[1..]) || Orphans(rows, keys) == Children(rows, keys[0]) + Orphans(rows, keys[1..])
  {
  }

  lemma JoinDistinct(a: seq<Row>, b: seq<Row>)
    requires DistinctIds(a) && DistinctIds(b)
    requires forall i, j :: 0 <= i < |a| && 0 <= j < |b| ==> a[i].id != b[j].id
    ensures DistinctIds(a + b)
  {
  }

  /** No row is printed twice. */
  lemma NoRowTwice(rows: seq<Row>)
    requires IsList(rows)
    ensures DistinctRows(Lines(rows))
  {
    TopsChained(rows);
    KeysAscending(rows);
    KidsDistinct(rows, "");
    OrphansDistinct(rows, Keys(rows));
    var roots, orphans := Roots(rows), Orphans(rows, Keys(rows));
    WalkAllDistinct(rows, roots, [], false);
    WalkAllDistinct(rows, orphans, [], true);
    RootsAndOrphansApart(rows);
    hide WalkAll, DistinctRows, Apart;
    DistinctConcat(RootLines(rows), OrphanLines(rows));
  }

  lemma RootsAndOrphansApart(rows: seq<Row>)
    requires IsList(rows)
    ensures Apart(RootLines(rows), OrphanLines(rows))
  {
    TopsChained(rows);
    ChildrenMembers(rows, "");
    OrphanMembers(rows, Keys(rows));
    var roots, orphans := Roots(rows), Orphans(rows, Keys(rows));
    WalkAllLinesOk(rows, roots, [], false);
    WalkAllLinesOk(rows, orphans, [], true);
    hide Children, Orphans, WalkAll, LineOk, Under;
    forall x, y | x in RootLines(rows) && y in OrphanLines(rows) ensures x.row != y.row {
      var i :| 0 <= i < |roots| && Under([], roots[i], x);
      var j :| 0 <= j < |orphans| && Under([], orphans[j], y);
      assert roots[i] in roots && orphans[j] in orphans;
      TopsApart(rows, x, roots[i], y, orphans[j]);
    }
  }

  lemma TopsApart(rows: seq<Row>, x: Line, a: Row, y: Line, b: Row)
    requires DistinctIds(rows) && a in rows && b in rows && a != b
    requires LineOk(rows, [], false, x) && LineOk(rows, [], true, y) && Under([], a, x) && Under([], b, y)
    ensures x.row != y.row
  {
    ByIdOfRow(rows, a);
    ByIdOfRow(rows, b);
    var x' := x.(orphan := x.ancestors == []);
    UnderApart(rows, [], true, x', a, y, b);
  }

  // ── every grounded row ─────────────────────────────────────────────────

  /** Below a printed row its children are printed. */
  lemma {:induction false} WalkHasChildren(rows: seq<Row>, node: Row, path: seq<string>, orphan: bool, l: Line, child: Row)
    requires DistinctIds(rows) && node in rows && IsChain(rows, path, node)
    requires l in Walk(rows, node, path, orphan) && child in rows && child.parent == l.row.id
    ensures Line(l.ancestors + [l.row.id], false, child) in Walk(rows, node, path, orphan)
    decreases |rows| - |path|, 0
  {
    ChainShort(rows, path, node);
    KidsChained(rows, node, path);
    var kids := Children(rows, node.id);
    if l == Line(path, orphan, node) {
      ChildrenMembers(rows, node.id);
      WalkAllHasKid(rows, kids, path + [node.id], false, child);
    } else {
      WalkAllHasChildren(rows, kids, path + [node.id], false, l, child);
    }
  }

  lemma {:induction false} WalkAllHasKid(rows: seq<Row>, kids: seq<Row>, path: seq<string>, orphan: bool, kid: Row)
    requires DistinctIds(rows) && AllChained(rows, kids, path) && kid in kids
    ensures Line(path, orphan, kid) in WalkAll(rows, kids, path, orphan)
    decreases |kids|
  {
    if kids[0] != kid {
      WalkAllHasKid(rows, kids[1..], path, orphan, kid);
    }
  }

  lemma {:induction false} WalkAllHasChildren(rows: seq<Row>, kids: seq<Row>, path: seq<string>, orphan: bool, l: Line, child: Row)
    requires DistinctIds(rows) && AllChained(rows, kids, path)
    requires l in WalkAll(rows, kids, path, orphan) && child in rows && child.parent == l.row.id
    ensures Line(l.ancestors + [l.row.id], false, child) in WalkAll(rows, kids, path, orphan)
    decreases |rows| - |path|, |kids|
  {
    if l in Walk(rows, kids[0], path, orphan) {
      WalkHasChildren(rows, kids[0], path, orphan, l, child);
    } else {
      WalkAllHasChildren(rows, kids[1..], path, orphan, l, child);
    }
  }

  ghost predicate IsPrinted(rows: seq<Row>, l: Line)
    requires IsList(rows)
  {
    l in Lines(rows)
  }

  /** The last id of a chain is the parent, whose chain is the rest. */
  lemma ChainStep(rows: seq<Row>, path: seq<string>, node: Row) returns (up: Row)
    requires IsChain(rows, path, node) && path != []
    ensures up in rows && up.id == path[|path| - 1] && node.parent == up.id && IsChain(rows, path[..|path| - 1], up)
  {
    up := ById(rows, path[|path| - 1]).value;
  }

  lemma BelowPrinted(rows: seq<Row>, path: seq<string>, up: Row, node: Row)
    requires IsList(rows) && node in rows && path != [] && up.id == path[|path| - 1] && node.parent == up.id
    requires var shorter := path[..|path| - 1]; IsPrinted(rows, Line(shorter, shorter == [] && up.parent != "", up))
    ensures IsPrinted(rows, Line(path, false, node))
  {
    hide *;
    var shorter := path[..|path| - 1];
    ChildIsPrinted(rows, Line(shorter, shorter == [] && up.parent != "", up), node);
    assert path == shorter + [up.id];
  }

  /** A row with an ancestor chain is printed under exactly that chain; it is marked as an orphan when it names a parent
      that is not in the list. */
  lemma {:induction false} GroundedIsPrinted(rows: seq<Row>, path: seq<string>, node: Row)
    requires IsList(rows) && node in rows && IsChain(rows, path, node)
    ensures IsPrinted(rows, Line(path, path == [] && node.parent != "", node))
    decreases |path|
  {
    if path == [] {
      assert ById(rows, node.parent).None?;
      hide *;
      TopIsPrinted(rows, node);
    } else {
      hide *;
      var up := ChainStep(rows, path, node);
      GroundedIsPrinted(rows, path[..|path| - 1], up);
      BelowPrinted(rows, path, up, node);
    }
  }

  lemma TopIsPrinted(rows: seq<Row>, node: Row)
    requires IsList(rows) && node in rows && ById(rows, node.parent).None?
    ensures IsPrinted(rows, Line([], node.parent != "", node))
  {
    TopsChained(rows);
    if node.parent == "" {
      ChildrenMembers(rows, "");
      hide Children, Orphans, WalkAll;
      WalkAllHasKid(rows, Roots(rows), [], false, node);
    } else {
      KeysMembers(rows);
      OrphanMembers(rows, Keys(rows));
      hide Children, Orphans, WalkAll;
      WalkAllHasKid(rows, Orphans(rows, Keys(rows)), [], true, node);
    }
  }

  lemma ChildIsPrinted(rows: seq<Row>, l: Line, child: Row)
    requires IsList(rows) && IsPrinted(rows, l) && child in rows && child.parent == l.row.id
    ensures IsPrinted(rows, Line(l.ancestors + [l.row.id], false, child))
  {
    TopsChained(rows);
    hide Children, Orphans, WalkAll, Keys, AllChained;
    if l in RootLines(rows) {
      WalkAllHasChildren(rows, Roots(rows), [], false, l, child);
    } else {
      WalkAllHasChildren(rows, Orphans(rows, Keys(rows)), [], true, l, child);
    }
  }

  /** The printed lines are exactly the rows with an ancestor chain, each indented by the number of its ancestors. */
  lemma PrintedLines(rows: seq<Row>, l: Line)
    requires IsList(rows)
    ensures l in Lines(rows)
            <==> l.row in rows && IsChain(rows, l.ancestors, l.row) && (l.orphan <==> l.ancestors == [] && l.row.parent != "")
  {
    TopsChained(rows);
    if l in Lines(rows) {
      PrintedIsOk(rows, l);
    }
    if l.row in rows && IsChain(rows, l.ancestors, l.row) {
      GroundedIsPrinted(rows, l.ancestors, l.row);
    }
  }

  lemma PrintedIsOk(rows: seq<Row>, l: Line)
    requires IsList(rows) && l in Lines(rows)
    ensures l.row in rows && IsChain(rows, l.ancestors, l.row) && (l.orphan <==> l.ancestors == [] && l.row.parent != "")
  {
    TopsChained(rows);
    ChildrenMembers(rows, "");
    OrphanMembers(rows, Keys(rows));
    var roots, orphans := Roots(rows), Orphans(rows, Keys(rows));
    WalkAllLinesOk(rows, roots, [], false);
    WalkAllLinesOk(rows, orphans, [], true);
    hide WalkAll, Children, Orphans;
    if l in RootLines(rows) {
      assert LineOk(rows, [], false, l);
      var i :| 0 <= i < |roots| && Under([], roots[i], l);
      assert roots[i] in roots;
    } else {
      assert LineOk(rows, [], true, l);
      var i :| 0 <= i < |orphans| && Under([], orphans[i], l);
      assert orphans[i] in orphans;
    }
  }

  function RowsOf(lines: seq<Line>): (r: seq<Row>)
    ensures |r| == |lines| && forall i :: 0 <= i < |r| ==> r[i] == lines[i].row
  {
    if lines == [] then [] else [lines[0].row] + RowsOf(lines[1..])
  }

  lemma {:induction false} DistinctCounts<T>(s: seq<T>)
    requires forall i, j :: 0 <= i < j < |s| ==> s[i] != s[j]
    ensures forall x :: multiset(s)[x] == if x in s then 1 else 0
  {
    if s != [] {
      DistinctCounts(s[1..]);
      assert s == [s[0]] + s[1..];
      assert s[0] !in s[1..];
    }
  }

  /** The output is a permutation of the input exactly when no row hangs on a cycle. */
  lemma PermutationIffGrounded(rows: seq<Row>)
    requires IsList(rows)
    ensures multiset(RowsOf(Lines(rows))) == multiset(rows) <==> forall r :: r in rows ==> IsGrounded(rows, r)
  {
    var lines := Lines(rows);
    var shown := RowsOf(lines);
    NoRowTwice(rows);
    DistinctCounts(shown);
    DistinctCounts(rows);
    forall r ensures r in shown <==> r in rows && IsGrounded(rows, r) { ShownIffGrounded(rows, r); }
    hide Lines;
    if multiset(shown) == multiset(rows) {
      forall r | r in rows ensures IsGrounded(rows, r) {
        assert r in multiset(rows);
        assert r in multiset(shown);
        assert r in shown;
      }
    }
    if forall r :: r in rows ==> IsGrounded(rows, r) {
      forall r ensures multiset(shown)[r] == multiset(rows)[r] {}
    }
  }

  lemma ShownIffGrounded(rows: seq<Row>, r: Row)
    requires IsList(rows)
    ensures r in RowsOf(Lines(rows)) <==> r in rows && IsGrounded(rows, r)
  {
    var lines := Lines(rows);
    hide Lines;
    if r in RowsOf(lines) {
      var i :| 0 <= i < |lines| && RowsOf(lines)[i] == r;
      PrintedLines(rows, lines[i]);
    }
    if r in rows && IsGrounded(rows, r) {
      var path :| IsChain(rows, path, r);
      var l := Line(path, path == [] && r.parent != "", r);
      PrintedLines(rows, l);
      var i :| 0 <= i < |lines| && lines[i] == l;
      assert RowsOf(lines)[i] == r;
    }
  }

  // ── parents first, siblings by age ─────────────────────────────────────

  ghost predicate ParentsFirst(lines: seq<Line>, path: seq<string>) {
    forall j :: 0 <= j < |lines| && lines[j].ancestors != path ==>
      lines[j].ancestors != [] && exists i :: 0 <= i < j && lines[i].row.id == lines[j].ancestors[|lines[j].ancestors| - 1]
  }

  lemma ParentsFirstConcat(a: seq<Line>, b: seq<Line>, path: seq<string>)
    requires ParentsFirst(a, path) && ParentsFirst(b, path)
    ensures ParentsFirst(a + b, path)
  {
    var s := a + b;
    forall j | 0 <= j < |s| && s[j].ancestors != path
      ensures s[j].ancestors != [] && exists i :: 0 <= i < j && s[i].row.id == s[j].ancestors[|s[j].ancestors| - 1]
    {
      if j < |a| {
        assert a[j] == s[j];
        var i :| 0 <= i < j && a[i].row.id == a[j].ancestors[|a[j].ancestors| - 1];
        assert s[i] == a[i];
      } else {
        assert b[j - |a|] == s[j];
        var i :| 0 <= i < j - |a| && b[i].row.id == b[j - |a|].ancestors[|b[j - |a|].ancestors| - 1];
        assert s[|a| + i] == b[i];
      }
    }
  }

  lemma {:induction false} WalkParentsFirst(rows: seq<Row>, node: Row, path: seq<string>, orphan: bool)
    requires DistinctIds(rows) && node in rows && IsChain(rows, path, node)
    ensures ParentsFirst(Walk(rows, node, path, orphan), path)
    decreases |rows| - |path|, 0
  {
    ChainShort(rows, path, node);
    KidsChained(rows, node, path);
    var kids := Children(rows, node.id);
    WalkAllParentsFirst(rows, kids, path + [node.id], false);
    TopThenBelow(Line(path, orphan, node), WalkAll(rows, kids, path + [node.id], false));
  }

  lemma TopThenBelow(top: Line, below: seq<Line>)
    requires ParentsFirst(below, top.ancestors + [top.row.id])
    ensures ParentsFirst([top] + below, top.ancestors)
  {
    var s := [top] + below;
    var path := top.ancestors + [top.row.id];
    assert path[|path| - 1] == top.row.id && s[0] == top;
    forall j | 0 <= j < |s| && s[j].ancestors != top.ancestors
      ensures s[j].ancestors != [] && exists i :: 0 <= i < j && s[i].row.id == s[j].ancestors[|s[j].ancestors| - 1]
    {
      var l := below[j - 1];
      assert s[j] == l;
      if l.ancestors == path {
        assert s[0].row.id == l.ancestors[|l.ancestors| - 1];
      } else {
        var i :| 0 <= i < j - 1 && below[i].row.id == l.ancestors[|l.ancestors| - 1];
        assert s[i + 1].row.id == l.ancestors[|l.ancestors| - 1];
      }
    }
  }

  lemma {:induction false} WalkAllParentsFirst(rows: seq<Row>, kids: seq<Row>, path: seq<string>, orphan: bool)
    requires DistinctIds(rows) && AllChained(rows, kids, path)
    ensures ParentsFirst(WalkAll(rows, kids, path, orphan), path)
    decreases |rows| - |path|, |kids|
  {
    if kids != [] {
      WalkParentsFirst(rows, kids[0], path, orphan);
      WalkAllParentsFirst(rows, kids[1..], path, orphan);
      ParentsFirstConcat(Walk(rows, kids[0], path, orphan), WalkAll(rows, kids[1..], path, orphan), path);
    }
  }

  /** Every indented line comes after the line of its parent. */
  lemma ChildrenAfterParents(rows: seq<Row>)
    requires IsList(rows)
    ensures ParentsFirst(Lines(rows), [])
  {
    TopsChained(rows);
    WalkAllParentsFirst(rows, Roots(rows), [], false);
    WalkAllParentsFirst(rows, Orphans(rows, Keys(rows)), [], true);
    ParentsFirstConcat(RootLines(rows), OrphanLines(rows), []);
  }

  /** Siblings are walked in order of creation. */
  lemma SiblingsByAge(rows: seq<Row>, parent: string)
    ensures Sorted(Children(rows, parent), Earlier)
    ensures multiset(Children(rows, parent)) == multiset(WithParent(rows, parent))
  {
    StrLeIsTotalOrder();
    assert TotalPreorder(Earlier);
    SortSorts(WithParent(rows, parent), Earlier);
  }

  /** A list in which every row hangs on a cycle is printed as if it were empty. */
  lemma OnlyCyclesPrintNothing(rows: seq<Row>)
    requires IsList(rows)
    ensures Lines(rows) == [] <==> forall r :: r in rows ==> !IsGrounded(rows, r)
    ensures (forall r :: r in rows ==> !IsGrounded(rows, r)) ==> Rendered(rows) == NO_PATTERNS
  {
    forall r ensures r in RowsOf(Lines(rows)) <==> r in rows && IsGrounded(rows, r) { ShownIffGrounded(rows, r); }
    if Lines(rows) == [] {
      TopsChained(rows);
      assert RootLines(rows) == [] && OrphanLines(rows) == [];
      NothingToWalk(rows, Orphans(rows, Keys(rows)), [], true);
    } else {
      assert RowsOf(Lines(rows))[0] in RowsOf(Lines(rows));
    }
  }

  lemma NothingToWalk(rows: seq<Row>, kids: seq<Row>, path: seq<string>, orphan: bool)
    requires DistinctIds(rows) && AllChained(rows, kids, path) && WalkAll(rows, kids, path, orphan) == []
    ensures kids == []
  {
  }

  // ── the renderer ───────────────────────────────────────────────────────

  lemma {:induction false} PrintConcat(a: seq<Line>, b: seq<Line>)
    ensures Print(a + b) == Print(a) + Print(b)
  {
    if a == [] {
      assert a + b == b;
    } else {
      assert (a + b)[1..] == a[1..] + b;
      PrintConcat(a[1..], b);
    }
  }

  lemma PrintOne(l: Line)
    ensures Print([l]) == LineText(|l.ancestors|, l.orphan, l.row)
  {
    assert [l][1..] == [];
    assert LineText(|l.ancestors|, l.orphan, l.row) + "" == LineText(|l.ancestors|, l.orphan, l.row);
  }

  /** The map built by the renderer: rows of each parent, sorted. */
  ghost predicate IsGrouping(rows: seq<Row>, byParent: map<string, seq<Row>>) {
    forall k :: (k in byParent <==> k in Keys(rows)) && (k in byParent ==> byParent[k] == Children(rows, k))
  }

  lemma GroupingIsChildren(rows: seq<Row>, byParent: map<string, seq<Row>>, k: string)
    requires IsGrouping(rows, byParent)
    ensures Children(rows, k) == if k in byParent then byParent[k] else []
  {
    if k !in byParent {
      KeysMembers(rows);
      WithParentMembers(rows, k);
      if WithParent(rows, k) != [] { assert WithParent(rows, k)[0] in WithParent(rows, k); }
    }
  }

  /** `walk`: appends the lines of a row and of everything below it. */
  method WalkRow(rows: seq<Row>, byParent: map<string, seq<Row>>, node: Row, depth: nat, out: string, orphan: bool,
                 ghost path: seq<string>) returns (result: string)
    requires DistinctIds(rows) && IsGrouping(rows, byParent)
    requires node in rows && IsChain(rows, path, node) && depth == |path|
    ensures result == out + Print(Walk(rows, node, path, orphan))
    decreases |rows| - |path|, 0
  {
    ChainShort(rows, path, node);
    KidsChained(rows, node, path);
    GroupingIsChildren(rows, byParent, node.id);
    ghost var top := Line(path, orphan, node);
    PrintOne(top);
    ghost var below := WalkAll(rows, Children(rows, node.id), path + [node.id], false);
    PrintConcat([top], below);
    hide LineText, Children, IsGrouping;
    result := out + LineText(depth, orphan, node);
    if node.id in byParent {
      result := WalkRows(rows, byParent, byParent[node.id], depth + 1, result, false, path + [node.id]);
    }
    Append(out, LineText(depth, orphan, node), Print(below));
  }

  lemma WalkAllPrints(rows: seq<Row>, kids: seq<Row>, i: nat, path: seq<string>, orphan: bool)
    requires DistinctIds(rows) && i < |kids| && AllChained(rows, kids[i..], path)
    ensures kids[i] in rows && IsChain(rows, path, kids[i]) && AllChained(rows, kids[i + 1..], path)
    ensures Print(WalkAll(rows, kids[i..], path, orphan))
            == Print(Walk(rows, kids[i], path, orphan)) + Print(WalkAll(rows, kids[i + 1..], path, orphan))
  {
    var rest := kids[i..];
    assert rest[1..] == kids[i + 1..] && rest[0] == kids[i];
    PrintConcat(Walk(rows, kids[i], path, orphan), WalkAll(rows, kids[i + 1..], path, orphan));
  }

  method WalkRows(rows: seq<Row>, byParent: map<string, seq<Row>>, kids: seq<Row>, depth: nat, out: string, orphan: bool,
                  ghost path: seq<string>) returns (result: string)
    requires DistinctIds(rows) && IsGrouping(rows, byParent)
    requires AllChained(rows, kids, path) && depth == |path|
    ensures result == out + Print(WalkAll(rows, kids, path, orphan))
    decreases |rows| - |path|, |kids| + 1
  {
    result := out;
    var i := 0;
    while i < |kids|
      invariant 0 <= i <= |kids|
      invariant AllChained(rows, kids[i..], path)
      invariant result + Print(WalkAll(rows, kids[i..], path, orphan)) == out + Print(WalkAll(rows, kids, path, orphan))
    {
      WalkAllPrints(rows, kids, i, path, orphan);
      hide Walk, WalkAll, IsChain, Children, IsGrouping;
      Append(result, Print(Walk(rows, kids[i], path, orphan)), Print(WalkAll(rows, kids[i + 1..], path, orphan)));
      result := WalkRow(rows, byParent, kids[i], depth, result, orphan, path);
      i := i + 1;
    }
    assert result + "" == result;
  }

  lemma Append(a: string, b: string, c: string)
    ensures (a + b) + c == a + (b + c)
  {
  }

  lemma {:induction false} WithParentSnoc(rows: seq<Row>, r: Row, k: string)
    ensures WithParent(rows + [r], k) == WithParent(rows, k) + if r.parent == k then [r] else []
  {
    if rows == [] {
      assert rows + [r] == [r] && [r][1..] == [];
    } else {
      assert (rows + [r])[1..] == rows[1..] + [r];
      WithParentSnoc(rows[1..], r, k);
    }
  }

  ghost predicate IsRawGrouping(rows: seq<Row>, byParent: map<string, seq<Row>>, keys: seq<string>) {
    forall k :: (k in byParent <==> k in keys) && (k in byParent ==> byParent[k] == WithParent(rows, k))
  }

  lemma GroupOneMore(rows: seq<Row>, r: Row, before: map<string, seq<Row>>, keys: seq<string>, after: map<string, seq<Row>>)
    requires IsRawGrouping(rows, before, keys)
    requires forall k :: k in keys <==> exists i :: 0 <= i < |rows| && rows[i].parent == k
    requires after == before[r.parent := (if r.parent in before then before[r.parent] else []) + [r]]
    ensures IsRawGrouping(rows + [r], after, InsertKey(keys, r.parent))
  {
    InsertKeyMembers(keys, r.parent);
    forall k ensures (k in after <==> k in InsertKey(keys, r.parent)) && (k in after ==> after[k] == WithParent(rows + [r], k)) {
      WithParentSnoc(rows, r, k);
      WithParentMembers(rows, k);
      assert k !in before ==> WithParent(rows, k) == [] by {
        assert WithParent(rows, k) != [] ==> WithParent(rows, k)[0] in WithParent(rows, k);
      }
    }
  }

  ghost predicate IsIdSet(rows: seq<Row>, ids: set<string>) {
    forall id :: id in ids <==> id != "" && ById(rows, id).Some?
  }

  lemma IdSetGrows(rows: seq<Row>, r: Row, ids: set<string>)
    requires IsIdSet(rows, ids)
    ensures IsIdSet(rows + [r], if r.id != "" then ids + {r.id} else ids)
  {
    forall id ensures ById(rows + [r], id).Some? <==> ById(rows, id).Some? || r.id == id { ByIdSnoc(rows, r, id); }
  }

  lemma {:induction false} ByIdSnoc(rows: seq<Row>, r: Row, id: string)
    ensures ById(rows + [r], id).Some? <==> ById(rows, id).Some? || r.id == id
  {
    if rows == [] {
      assert rows + [r] == [r];
    } else {
      assert (rows + [r])[1..] == rows[1..] + [r];
      ByIdSnoc(rows[1..], r, id);
    }
  }

  /** The first loop: rows pushed under their parent, in list order. */
  method Group(rows: seq<Row>) returns (byParent: map<string, seq<Row>>, keys: seq<string>, ids: set<string>)
    ensures IsRawGrouping(rows, byParent, keys) && keys == Keys(rows)
    ensures IsIdSet(rows, ids)
  {
    byParent, keys, ids := map[], [], {};
    var i := 0;
    while i < |rows|
      invariant 0 <= i <= |rows|
      invariant IsRawGrouping(rows[..i], byParent, keys) && keys == Keys(rows[..i])
      invariant IsIdSet(rows[..i], ids)
    {
      var r := rows[i];
      assert rows[..i + 1] == rows[..i] + [r];
      assert rows[..i + 1][..i] == rows[..i];
      KeysMembers(rows[..i]);
      ghost var before := byParent;
      byParent := byParent[r.parent := (if r.parent in byParent then byParent[r.parent] else []) + [r]];
      hide IsRawGrouping, IsIdSet;
      GroupOneMore(rows[..i], r, before, keys, byParent);
      IdSetGrows(rows[..i], r, ids);
      keys := InsertKey(keys, r.parent);
      if r.id != "" {
        ids := ids + {r.id};
      }
      i := i + 1;
    }
    assert rows[..|rows|] == rows;
  }

  /** The second loop: every group sorted by creation time. */
  method SortGroups(rows: seq<Row>, raw: map<string, seq<Row>>, keys: seq<string>) returns (byParent: map<string, seq<Row>>)
    requires IsRawGrouping(rows, raw, keys) && keys == Keys(rows)
    ensures IsGrouping(rows, byParent)
  {
    byParent := raw;
    KeysAscending(rows);
    var i := 0;
    while i < |keys|
      invariant 0 <= i <= |keys|
      invariant forall k :: k in byParent <==> k in keys
      invariant forall j :: 0 <= j < |keys| ==>
                  byParent[keys[j]] == if j < i then Children(rows, keys[j]) else WithParent(rows, keys[j])
    {
      assert forall j :: 0 <= j < |keys| && j != i ==> keys[j] != keys[i];
      byParent := byParent[keys[i] := Sort(byParent[keys[i]], Earlier)];
      i := i + 1;
    }
    forall k | k in byParent ensures byParent[k] == Children(rows, k) {
      var j :| 0 <= j < |keys| && keys[j] == k;
    }
  }

  lemma {:induction false} OrphansSnoc(rows: seq<Row>, keys: seq<string>, key: string)
    ensures Orphans(rows, keys + [key])
            == Orphans(rows, keys) + if key == "" || ById(rows, key).Some? then [] else Children(rows, key)
    decreases |keys|
  {
    if keys == [] {
      assert keys + [key] == [key] && [key][1..] == [];
      assert Orphans(rows, [key][1..]) == [];
      assert Children(rows, key) + [] == Children(rows, key);
    } else {
      assert (keys + [key])[1..] == keys[1..] + [key];
      OrphansSnoc(rows, keys[1..], key);
    }
  }

  lemma ChainedParts(rows: seq<Row>, a: seq<Row>, b: seq<Row>, path: seq<string>)
    requires AllChained(rows, a, path) && AllChained(rows, b, path)
    ensures AllChained(rows, a + b, path)
    ensures a != [] ==> AllChained(rows, a[1..], path) && a[0] in rows && IsChain(rows, path, a[0])
  {
    hide IsChain;
  }

  lemma WalkAllCons(rows: seq<Row>, kid: Row, rest: seq<Row>, path: seq<string>, orphan: bool)
    requires DistinctIds(rows) && kid in rows && IsChain(rows, path, kid)
    requires AllChained(rows, rest, path) && AllChained(rows, [kid] + rest, path)
    ensures WalkAll(rows, [kid] + rest, path, orphan) == Walk(rows, kid, path, orphan) + WalkAll(rows, rest, path, orphan)
  {
    assert ([kid] + rest)[1..] == rest;
    hide Walk, IsChain, AllChained, DistinctIds;
  }

  lemma {:induction false} WalkAllConcat(rows: seq<Row>, a: seq<Row>, b: seq<Row>, path: seq<string>, orphan: bool)
    requires DistinctIds(rows) && AllChained(rows, a, path) && AllChained(rows, b, path)
    ensures AllChained(rows, a + b, path)
    ensures WalkAll(rows, a + b, path, orphan) == WalkAll(rows, a, path, orphan) + WalkAll(rows, b, path, orphan)
    decreases |a|
  {
    hide Walk, IsChain, AllChained, DistinctIds;
    ChainedParts(rows, a, b, path);
    if a == [] {
      assert a + b == b;
    } else {
      var rest := a[1..];
      WalkAllConcat(rows, rest, b, path, orphan);
      assert a + b == [a[0]] + (rest + b) && a == [a[0]] + rest;
      WalkAllCons(rows, a[0], rest + b, path, orphan);
      WalkAllCons(rows, a[0], rest, path, orphan);
    }
  }

  ghost predicate IsOrphanKey(rows: seq<Row>, key: string) {
    key != "" && ById(rows, key).None?
  }

  lemma KidsOfOrphanKey(rows: seq<Row>, key: string)
    requires IsList(rows) && IsOrphanKey(rows, key)
    ensures AllChained(rows, Children(rows, key), [])
  {
    ChildrenMembers(rows, key);
    var kids := Children(rows, key);
    hide Children;
    forall i | 0 <= i < |kids| ensures kids[i] in rows && IsChain(rows, [], kids[i]) { assert kids[i] in kids; }
  }

  lemma OrphanTextSkips(rows: seq<Row>, keys: seq<string>, key: string)
    requires IsList(rows) && !IsOrphanKey(rows, key)
    ensures OrphanText(rows, keys + [key]) == OrphanText(rows, keys)
    ensures Orphans(rows, keys + [key]) == Orphans(rows, keys)
  {
    OrphansSnoc(rows, keys, key);
    assert Orphans(rows, keys) + [] == Orphans(rows, keys);
  }

  /** One orphan group more: the header comes before the first. */
  lemma OrphanTextGrows(rows: seq<Row>, keys: seq<string>, key: string)
    requires IsList(rows) && IsOrphanKey(rows, key) && Children(rows, key) != []
    ensures AllChained(rows, Children(rows, key), [])
    ensures OrphanText(rows, keys + [key])
            == (OrphanText(rows, keys) + if Orphans(rows, keys) == [] then ORPHANS else "")
               + Print(WalkAll(rows, Children(rows, key), [], true))
    ensures Orphans(rows, keys + [key]) != []
  {
    OrphansSnoc(rows, keys, key);
    OrphansChained(rows, keys);
    KidsOfOrphanKey(rows, key);
    hide WithHeader, WalkAll, Children, Orphans, IsOrphanKey;
    HeaderOnce(rows, Orphans(rows, keys), Children(rows, key));
  }

  lemma HeaderOnce(rows: seq<Row>, orphans: seq<Row>, kids: seq<Row>)
    requires DistinctIds(rows) && AllChained(rows, orphans, []) && AllChained(rows, kids, []) && kids != []
    ensures AllChained(rows, orphans + kids, [])
    ensures WithHeader(rows, orphans + kids)
            == (WithHeader(rows, orphans) + if orphans == [] then ORPHANS else "") + Print(WalkAll(rows, kids, [], true))
  {
    WalkAllConcat(rows, orphans, kids, [], true);
    PrintConcat(WalkAll(rows, orphans, [], true), WalkAll(rows, kids, [], true));
    var before, group := Print(WalkAll(rows, orphans, [], true)), Print(WalkAll(rows, kids, [], true));
    assert orphans == [] ==> before == "";
    hide WalkAll, Print;
    assert orphans + kids != [];
    HeaderText(orphans == [], before, group);
  }

  lemma HeaderText(empty: bool, before: string, group: string)
    requires empty ==> before == ""
    ensures ORPHANS + (before + group)
            == (((if empty then "" else ORPHANS) + before) + if empty then ORPHANS else "") + group
  {
  }

  lemma NoKeysNoText(rows: seq<Row>)
    requires IsList(rows)
    ensures OrphanText(rows, []) == "" && Orphans(rows, []) == []
  {
  }

  method RenderOrphans(rows: seq<Row>, byParent: map<string, seq<Row>>, keys: seq<string>, ids: set<string>, out: string)
    returns (result: string)
    requires IsList(rows) && IsGrouping(rows, byParent) && keys == Keys(rows) && IsIdSet(rows, ids)
    ensures result == out + OrphanText(rows, keys)
  {
    hide *;
    result := out;
    var printedHeader := false;
    var i := 0;
    NoKeysNoText(rows);
    assert keys[..0] == [] && out + "" == out;
    while i < |keys|
      invariant 0 <= i <= |keys|
      invariant result == out + OrphanText(rows, keys[..i])
      invariant printedHeader <==> Orphans(rows, keys[..i]) != []
    {
      assert keys[..i + 1] == keys[..i] + [keys[i]];
      result, printedHeader := RenderOrphanKey(rows, byParent, ids, keys[..i], keys[i], printedHeader, out, result);
      i := i + 1;
    }
    assert keys[..|keys|] == keys;
  }

  /** One turn of the orphan loop: keys that are empty or in the list are passed over. */
  method RenderOrphanKey(rows: seq<Row>, byParent: map<string, seq<Row>>, ids: set<string>, ghost before: seq<string>,
                         parent: string, printed: bool, ghost start: string, out: string)
    returns (result: string, printedHeader: bool)
    requires IsList(rows) && IsGrouping(rows, byParent) && parent in Keys(rows) && IsIdSet(rows, ids)
    requires out == start + OrphanText(rows, before) && (printed <==> Orphans(rows, before) != [])
    ensures result == start + OrphanText(rows, before + [parent])
    ensures printedHeader <==> Orphans(rows, before + [parent]) != []
  {
    result, printedHeader := out, printed;
    KeyHasChildren(rows, parent);
    assert IsOrphanKey(rows, parent) <==> parent != "" && parent !in ids;
    hide *;
    if parent != "" && parent !in ids {
      OrphanTextGrows(rows, before, parent);
      result := RenderGroup(rows, byParent, parent, printedHeader, result);
      Regroup(start, OrphanText(rows, before), if printedHeader then "" else ORPHANS,
              Print(WalkAll(rows, Children(rows, parent), [], true)));
      printedHeader := true;
    } else {
      OrphanTextSkips(rows, before, parent);
    }
  }

  lemma Regroup(a: string, b: string, c: string, d: string)
    ensures ((a + b) + c) + d == a + ((b + c) + d)
  {
  }

  /** The header, if it is not there yet, and the rows of one missing parent. */
  method RenderGroup(rows: seq<Row>, byParent: map<string, seq<Row>>, parent: string, printedHeader: bool, out: string)
    returns (result: string)
    requires IsList(rows) && IsGrouping(rows, byParent) && IsOrphanKey(rows, parent) && Children(rows, parent) != []
    ensures AllChained(rows, Children(rows, parent), [])
    ensures result == (out + if printedHeader then "" else ORPHANS) + Print(WalkAll(rows, Children(rows, parent), [], true))
  {
    GroupingIsChildren(rows, byParent, parent);
    KidsOfOrphanKey(rows, parent);
    hide IsGrouping, Children, WalkAll;
    result := out;
    if !printedHeader {
      result := result + ORPHANS;
    }
    assert out + "" == out;
    result := WalkRows(rows, byParent, byParent[parent], 0, result, true, []);
  }

  lemma KeyHasChildren(rows: seq<Row>, key: string)
    ensures key in Keys(rows) ==> Children(rows, key) != []
  {
    if key in Keys(rows) {
      KeysMembers(rows);
      ChildrenMembers(rows, key);
      var i :| 0 <= i < |rows| && rows[i].parent == key;
      assert rows[i] in Children(rows, key);
    }
  }

  /** `render_tree`. */
  method RenderTree(rows: seq<Row>) returns (out: string)
    requires IsList(rows)
    ensures out == Rendered(rows)
  {
    var raw, keys, ids := Group(rows);
    var byParent := SortGroups(rows, raw, keys);
    TopsChained(rows);
    GroupingIsChildren(rows, byParent, "");
    hide IsGrouping, Children, Walk, WalkAll, Keys, OrphanText;
    var roots := if "" in byParent then byParent[""] else [];
    out := WalkRows(rows, byParent, roots, 0, "", false, []);
    assert out == Print(RootLines(rows));
    out := RenderOrphans(rows, byParent, keys, ids, out);
    if out == "" {
      out := NO_PATTERNS;
    }
  }
}
