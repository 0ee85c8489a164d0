/** Rust's `BTreeMap<String, String>`: its entries in strictly ascending key order. */
module SortedMap {
  import opened Wrappers
  import opened Text

  type Entries = seq<(string, string)>

  predicate StrLt(a: string, b: string) {
    StrLe(a, b) && a != b
  }

  ghost predicate Ascending(m: Entries) {
    forall i, j :: 0 <= i < j < |m| ==> StrLt(m[i].0, m[j].0)
  }

  function Get(m: Entries, key: string): Option<string> {
    if m == [] then None
    else if m[0].0 == key then Some(m[0].1)
    else Get(m[1..], key)
  }

  /** `BTreeMap::insert`: an existing key gets the new value. */
  function Insert(m: Entries, key: string, value: string): Entries {
    if m == [] then [(key, value)]
    else if m[0].0 == key then [(key, value)] + m[1..]
    else if StrLe(key, m[0].0) then [(key, value)] + m
    else [m[0]] + Insert(m[1..], key, value)
  }

  lemma StrLtTransitive(a: string, b: string, c: string)
    requires StrLt(a, b) && StrLt(b, c)
    ensures StrLt(a, c)
  {
    StrLeTransitive(a, b, c);
    if a == c { StrLeAntisymmetric(a, b); }
  }

  lemma {:induction false} GetIsMember(m: Entries, key: string)
    ensures Get(m, key).Some? ==> exists i :: 0 <= i < |m| && m[i] == (key, Get(m, key).value)
    ensures Get(m, key).None? ==> forall i :: 0 <= i < |m| ==> m[i].0 != key
  {
    if m != [] && m[0].0 != key {
      GetIsMember(m[1..], key);
      if Get(m[1..], key).Some? {
        var i :| 0 <= i < |m[1..]| && m[1..][i] == (key, Get(m, key).value);
        assert m[i + 1] == (key, Get(m, key).value);
      }
    } else if m != [] {
      assert m[0] == (key, Get(m, key).value);
    }
  }

  lemma {:induction false} GetInsert(m: Entries, key: string, value: string, k: string)
    ensures Get(Insert(m, key, value), k) == if k == key then Some(value) else Get(m, k)
  {
    if m != [] && m[0].0 != key && !StrLe(key, m[0].0) {
      GetInsert(m[1..], key, value, k);
    }
  }

  lemma {:induction false} InsertKeepsOrder(m: Entries, key: string, value: string)
    requires Ascending(m)
    ensures Ascending(Insert(m, key, value))
    ensures forall e :: e in Insert(m, key, value) ==> e.0 == key || e in m
  {
    if m != [] && m[0].0 != key {
      if StrLe(key, m[0].0) {
        forall j | 0 <= j < |m| ensures StrLt(key, m[j].0) {
          if j > 0 { StrLtTransitive(key, m[0].0, m[j].0); }
        }
      } else {
        StrLeTotal(key, m[0].0);
        InsertKeepsOrder(m[1..], key, value);
        var tail := Insert(m[1..], key, value);
        forall j | 0 <= j < |tail| ensures StrLt(m[0].0, tail[j].0) {
          assert tail[j] in tail;
        }
      }
    }
  }

  /** Two such maps with the same answers to every lookup are the same sequence of entries. */
  lemma {:induction false} Extensional(a: Entries, b: Entries)
    requires Ascending(a) && Ascending(b)
    requires forall k :: Get(a, k) == Get(b, k)
    ensures a == b
  {
    if a == [] {
      assert b != [] ==> Get(b, b[0].0).Some?;
    } else {
      assert Get(b, a[0].0) == Some(a[0].1);
      SameFirst(a, b);
      forall k ensures Get(a[1..], k) == Get(b[1..], k) {
        assert Get(a, k) == Get(b, k);
        if k == a[0].0 {
          GetIsMember(a[1..], k);
          GetIsMember(b[1..], k);
        }
      }
      Extensional(a[1..], b[1..]);
      assert a == [a[0]] + a[1..] && b == [b[0]] + b[1..];
    }
  }

  lemma SameFirst(a: Entries, b: Entries)
    requires Ascending(a) && Ascending(b) && a != []
    requires forall k :: Get(a, k) == Get(b, k)
    ensures b != [] && a[0] == b[0]
  {
    assert Get(b, a[0].0) == Some(a[0].1);
    assert Get(a, b[0].0) == Some(b[0].1);
    GetIsMember(b, a[0].0);
    GetIsMember(a, b[0].0);
    if a[0].0 != b[0].0 {
      assert StrLt(a[0].0, b[0].0) && StrLt(b[0].0, a[0].0);
      StrLeAntisymmetric(a[0].0, b[0].0);
    }
  }
}
