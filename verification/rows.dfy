/**
 * Generic facts about a database table held as a sequence of rows: the first
 * row matching a `where` clause (Eloquent's `first()`), filtering, counting and
 * summing (`where`, `count`, `sum`), deleting one row, and the composite
 * `(id, tenant_id)` keys that the migrations declare unique and that composite
 * foreign keys point at.
 */
module Rows {
  import opened Wrappers

  /** Index of the first row satisfying `p`, as `->where(...)->first()` returns it. */
  function FirstIndex<T>(rows: seq<T>, p: T -> bool): (r: Option<nat>)
    ensures r.Some? ==> r.value < |rows| && p(rows[r.value])
    ensures r.Some? ==> forall k | 0 <= k < r.value :: !p(rows[k])
    ensures r.None? ==> forall k | 0 <= k < |rows| :: !p(rows[k])
  {
    if rows == [] then None
    else if p(rows[0]) then Some(0)
    else match FirstIndex(rows[1..], p)
      case None => None
      case Some(k) => Some(k + 1)
  }

  /** The rows satisfying `p`, in table order. */
  function Filter<T>(rows: seq<T>, p: T -> bool): (r: seq<T>)
    ensures |r| <= |rows|
    ensures forall k | 0 <= k < |r| :: p(r[k])
  {
    if rows == [] then []
    else if p(rows[0]) then [rows[0]] + Filter(rows[1..], p)
    else Filter(rows[1..], p)
  }

  lemma {:induction false} FilterMembers<T>(rows: seq<T>, p: T -> bool, x: T)
    ensures x in Filter(rows, p) <==> x in rows && p(x)
  {
    if rows != [] {
      FilterMembers(rows[1..], p, x);
      assert rows == [rows[0]] + rows[1..];
    }
  }

  lemma {:induction false} FilterMultiset<T>(rows: seq<T>, p: T -> bool, x: T)
    ensures multiset(Filter(rows, p))[x] == if p(x) then multiset(rows)[x] else 0
  {
    if rows != [] {
      FilterMultiset(rows[1..], p, x);
      assert rows == [rows[0]] + rows[1..];
    }
  }

  /** Two `where` clauses that agree on every row select the same rows. */
  lemma {:induction false} FilterSamePredicate<T>(rows: seq<T>, p: T -> bool, q: T -> bool)
    requires forall k | 0 <= k < |rows| :: p(rows[k]) == q(rows[k])
    ensures Filter(rows, p) == Filter(rows, q)
  {
    if rows != [] {
      assert forall k | 0 <= k < |rows[1..]| :: rows[1..][k] == rows[k + 1];
      FilterSamePredicate(rows[1..], p, q);
    }
  }

  /** `->count()` after a `where`. */
  function Count<T>(rows: seq<T>, p: T -> bool): (n: nat)
    ensures n <= |rows|
  {
    if rows == [] then 0 else (if p(rows[0]) then 1 else 0) + Count(rows[1..], p)
  }

  lemma {:induction false} CountIsFilterLength<T>(rows: seq<T>, p: T -> bool)
    ensures Count(rows, p) == |Filter(rows, p)|
  {
    if rows != [] {
      CountIsFilterLength(rows[1..], p);
    }
  }

  lemma {:induction false} CountZeroIffNone<T>(rows: seq<T>, p: T -> bool)
    ensures Count(rows, p) == 0 <==> forall k | 0 <= k < |rows| :: !p(rows[k])
  {
    if rows != [] {
      CountZeroIffNone(rows[1..], p);
      if forall k | 0 <= k < |rows[1..]| :: !p(rows[1..][k]) {
        if !p(rows[0]) {
          forall k | 0 <= k < |rows| ensures !p(rows[k]) {
            if k > 0 { assert rows[k] == rows[1..][k - 1]; }
          }
        }
      } else {
        var k :| 0 <= k < |rows[1..]| && p(rows[1..][k]);
        assert p(rows[k + 1]);
      }
    }
  }

  /** `->sum(column)`. */
  function Sum<T>(rows: seq<T>, f: T -> int): int {
    if rows == [] then 0 else f(rows[0]) + Sum(rows[1..], f)
  }

  /** The table after `->delete()` of the row at index `i`. */
  function RemoveAt<T>(rows: seq<T>, i: nat): (r: seq<T>)
    requires i < |rows|
    ensures |r| == |rows| - 1
    ensures forall k | 0 <= k < i :: r[k] == rows[k]
    ensures forall k | i <= k < |r| :: r[k] == rows[k + 1]
  {
    rows[..i] + rows[i + 1..]
  }

  /** A composite key `(id, tenant_id)`. */
  type Key = (int, int)

  /** The composite keys present in a table. */
  function Keys<T>(rows: seq<T>, key: T -> Key): set<Key> {
    set k | 0 <= k < |rows| :: key(rows[k])
  }

  /** Primary keys are unique: no two rows share an `id`. */
  predicate DistinctIds<T>(rows: seq<T>, key: T -> Key) {
    forall i, j | 0 <= i < |rows| && 0 <= j < |rows| && i != j :: key(rows[i]).0 != key(rows[j]).0
  }

  lemma KeyOfRow<T>(rows: seq<T>, key: T -> Key, i: nat)
    requires i < |rows|
    ensures key(rows[i]) in Keys(rows, key)
  {
  }

  lemma KeysAppend<T>(rows: seq<T>, key: T -> Key, x: T)
    ensures Keys(rows + [x], key) == Keys(rows, key) + {key(x)}
  {
    var n := rows + [x];
    forall c | c in Keys(n, key) ensures c in Keys(rows, key) + {key(x)} {
      var k :| 0 <= k < |n| && key(n[k]) == c;
      if k < |rows| { assert n[k] == rows[k]; }
    }
    forall c | c in Keys(rows, key) ensures c in Keys(n, key) {
      var k :| 0 <= k < |rows| && key(rows[k]) == c;
      assert n[k] == rows[k];
    }
    assert key(n[|rows|]) == key(x);
  }

  /** Changing a row without touching its key leaves the key set as it was. */
  lemma KeysUpdate<T>(rows: seq<T>, key: T -> Key, i: nat, x: T)
    requires i < |rows| && key(x) == key(rows[i])
    ensures Keys(rows[i := x], key) == Keys(rows, key)
  {
    var n := rows[i := x];
    forall c | c in Keys(n, key) ensures c in Keys(rows, key) {
      var k :| 0 <= k < |n| && key(n[k]) == c;
      if k == i { assert c == key(rows[i]); } else { assert n[k] == rows[k]; }
    }
    forall c | c in Keys(rows, key) ensures c in Keys(n, key) {
      var k :| 0 <= k < |rows| && key(rows[k]) == c;
      if k == i { assert c == key(n[i]); } else { assert n[k] == rows[k]; }
    }
  }

  /** Deleting a row removes exactly its key, because ids are unique. */
  lemma KeysRemove<T>(rows: seq<T>, key: T -> Key, i: nat)
    requires i < |rows| && DistinctIds(rows, key)
    ensures Keys(RemoveAt(rows, i), key) == Keys(rows, key) - {key(rows[i])}
  {
    var n := RemoveAt(rows, i);
    forall c | c in Keys(n, key) ensures c in Keys(rows, key) - {key(rows[i])} {
      var k :| 0 <= k < |n| && key(n[k]) == c;
      var j := if k < i then k else k + 1;
      assert n[k] == rows[j] && j != i;
    }
    forall c | c in Keys(rows, key) - {key(rows[i])} ensures c in Keys(n, key) {
      var j :| 0 <= j < |rows| && key(rows[j]) == c;
      assert j != i;
      var k := if j < i then j else j - 1;
      assert n[k] == rows[j];
    }
  }

  /** With unique ids, an id determines the tenant of its row. */
  lemma KeyTenantUnique<T>(rows: seq<T>, key: T -> Key, id: int, a: int, b: int)
    requires DistinctIds(rows, key)
    requires (id, a) in Keys(rows, key) && (id, b) in Keys(rows, key)
    ensures a == b
  {
    var i :| 0 <= i < |rows| && key(rows[i]) == (id, a);
    var j :| 0 <= j < |rows| && key(rows[j]) == (id, b);
    assert i == j;
  }

  lemma DistinctIdsAppend<T>(rows: seq<T>, key: T -> Key, x: T)
    requires DistinctIds(rows, key)
    requires forall k | 0 <= k < |rows| :: key(rows[k]).0 != key(x).0
    ensures DistinctIds(rows + [x], key)
  {
    var n := rows + [x];
    forall i, j | 0 <= i < |n| && 0 <= j < |n| && i != j ensures key(n[i]).0 != key(n[j]).0 {
      if i < |rows| && j < |rows| {
        assert n[i] == rows[i] && n[j] == rows[j];
      } else if i < |rows| {
        assert n[i] == rows[i] && n[j] == x;
      } else {
        assert n[i] == x && n[j] == rows[j];
      }
    }
  }

  lemma DistinctIdsUpdate<T>(rows: seq<T>, key: T -> Key, i: nat, x: T)
    requires DistinctIds(rows, key) && i < |rows| && key(x).0 == key(rows[i]).0
    ensures DistinctIds(rows[i := x], key)
  {
    var n := rows[i := x];
    forall a, b | 0 <= a < |n| && 0 <= b < |n| && a != b ensures key(n[a]).0 != key(n[b]).0 {
      assert key(n[a]).0 == key(rows[a]).0;
      assert key(n[b]).0 == key(rows[b]).0;
    }
  }

  lemma DistinctIdsRemove<T>(rows: seq<T>, key: T -> Key, i: nat)
    requires DistinctIds(rows, key) && i < |rows|
    ensures DistinctIds(RemoveAt(rows, i), key)
  {
    var n := RemoveAt(rows, i);
    forall a, b | 0 <= a < |n| && 0 <= b < |n| && a != b ensures key(n[a]).0 != key(n[b]).0 {
      var a' := if a < i then a else a + 1;
      var b' := if b < i then b else b + 1;
      assert n[a] == rows[a'] && n[b] == rows[b'];
    }
  }
}
