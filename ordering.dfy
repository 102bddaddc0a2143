/**
 * Orderings the pipeline relies on: Python's stable `sorted(..., key=...,
 * reverse=True)` on an integer key (as an SQL `ORDER BY ... DESC` with ties
 * kept in insertion order), and `sorted()` on strings, which compares code
 * points lexicographically.
 */
module Ordering {

  // ----- stable sort, largest key first -----

  predicate SortedDesc<T>(s: seq<T>, key: T -> int)
  {
    forall i, j :: 0 <= i < j < |s| ==> key(s[i]) >= key(s[j])
  }

  /** Inserts `x` after every element whose key is at least `key(x)`. */
  function InsertDesc<T>(x: T, s: seq<T>, key: T -> int): (r: seq<T>)
    ensures multiset(r) == multiset(s) + multiset{x}
    ensures |r| == |s| + 1
  {
    if |s| == 0 then [x]
    else if key(s[0]) >= key(x) then
      assert s == [s[0]] + s[1..];
      [s[0]] + InsertDesc(x, s[1..], key)
    else [x] + s
  }

  function SortDesc<T>(s: seq<T>, key: T -> int): (r: seq<T>)
    ensures multiset(r) == multiset(s)
    ensures |r| == |s|
  {
    if |s| == 0 then []
    else
      assert s == s[..|s| - 1] + [s[|s| - 1]];
      InsertDesc(s[|s| - 1], SortDesc(s[..|s| - 1], key), key)
  }

  lemma {:induction false} InsertDescSorted<T>(x: T, s: seq<T>, key: T -> int)
    requires SortedDesc(s, key)
    ensures SortedDesc(InsertDesc(x, s, key), key)
  {
    if |s| > 0 && key(s[0]) >= key(x) {
      InsertDescSorted(x, s[1..], key);
      var tail := InsertDesc(x, s[1..], key);
      forall k | 0 <= k < |tail|
        ensures key(s[0]) >= key(tail[k])
      {
        assert tail[k] in multiset(tail);
        assert tail[k] in multiset(s[1..]) + multiset{x};
        if tail[k] in multiset(s[1..]) {
          var m :| 0 <= m < |s[1..]| && s[1..][m] == tail[k];
          assert s[1..][m] == s[m + 1];
        }
      }
    }
  }

  /** The result of `SortDesc` is ordered by key, largest first. */
  lemma SortDescOne<T>(x: T, key: T -> int)
    ensures SortDesc([x], key) == [x]
  {
    assert [x][..0] == [];
  }

  lemma {:induction false} SortDescSorted<T>(s: seq<T>, key: T -> int)
    ensures SortedDesc(SortDesc(s, key), key)
  {
    if |s| > 0 {
      SortDescSorted(s[..|s| - 1], key);
      InsertDescSorted(s[|s| - 1], SortDesc(s[..|s| - 1], key), key);
    }
  }

  /** The elements of `s` with key `k`, in order. */
  function WithKey<T>(s: seq<T>, key: T -> int, k: int): seq<T>
  {
    if |s| == 0 then []
    else (if key(s[0]) == k then [s[0]] else []) + WithKey(s[1..], key, k)
  }

  lemma {:induction false} WithKeyAppend<T>(a: seq<T>, b: seq<T>, key: T -> int, k: int)
    ensures WithKey(a + b, key, k) == WithKey(a, key, k) + WithKey(b, key, k)
  {
    if |a| > 0 {
      assert (a + b)[0] == a[0];
      assert (a + b)[1..] == a[1..] + b;
      WithKeyAppend(a[1..], b, key, k);
    } else {
      assert a + b == b;
    }
  }

  lemma WithKeyCons<T>(x: T, s: seq<T>, key: T -> int, k: int)
    ensures WithKey([x] + s, key, k) == (if key(x) == k then [x] else []) + WithKey(s, key, k)
  {
    assert ([x] + s)[0] == x;
    assert ([x] + s)[1..] == s;
  }

  lemma WithKeyLast<T>(x: T, key: T -> int, k: int)
    ensures WithKey([x], key, k) == if key(x) == k then [x] else []
  {
    assert [x][1..] == [];
  }

  lemma SortedDescTail<T>(s: seq<T>, key: T -> int)
    requires |s| > 0 && SortedDesc(s, key)
    ensures SortedDesc(s[1..], key)
    ensures forall i :: 0 <= i < |s| ==> key(s[i]) <= key(s[0])
  {
    forall i, j | 0 <= i < j < |s[1..]|
      ensures key(s[1..][i]) >= key(s[1..][j])
    {
      assert s[1..][i] == s[i + 1] && s[1..][j] == s[j + 1];
    }
  }

  lemma {:induction false} NoneWithKey<T>(s: seq<T>, key: T -> int, k: int)
    requires forall i :: 0 <= i < |s| ==> key(s[i]) != k
    ensures WithKey(s, key, k) == []
  {
    if |s| > 0 {
      assert forall i :: 0 <= i < |s[1..]| ==> s[1..][i] == s[i + 1];
      NoneWithKey(s[1..], key, k);
    }
  }

  lemma {:induction false} InsertDescWithKey<T>(x: T, s: seq<T>, key: T -> int, k: int)
    requires SortedDesc(s, key)
    ensures WithKey(InsertDesc(x, s, key), key, k)
         == WithKey(s, key, k) + (if key(x) == k then [x] else [])
    decreases |s|, 1
  {
    if |s| == 0 {
      WithKeyCons(x, [], key, k);
    } else if key(s[0]) >= key(x) {
      InsertDescBehindWithKey(x, s, key, k);
    } else {
      InsertDescFrontWithKey(x, s, key, k);
    }
  }

  lemma AppendAssoc<T>(a: seq<T>, b: seq<T>, c: seq<T>)
    ensures a + b + c == a + (b + c)
  {
  }

  lemma {:induction false} InsertDescBehindWithKey<T>(x: T, s: seq<T>, key: T -> int, k: int)
    requires |s| > 0 && SortedDesc(s, key) && key(s[0]) >= key(x)
    ensures WithKey(InsertDesc(x, s, key), key, k)
         == WithKey(s, key, k) + (if key(x) == k then [x] else [])
    decreases |s|, 0
  {
    var px := if key(x) == k then [x] else [];
    var s0 := s[0];
    var p0 := if key(s0) == k then [s0] else [];
    SortedDescTail(s, key);
    assert s == [s0] + s[1..];
    WithKeyCons(s0, s[1..], key, k);
    var ins := InsertDesc(x, s[1..], key);
    assert InsertDesc(x, s, key) == [s0] + ins;
    InsertDescWithKey(x, s[1..], key, k);
    WithKeyCons(s0, ins, key, k);
    calc {
      WithKey(InsertDesc(x, s, key), key, k);
      p0 + WithKey(ins, key, k);
      p0 + (WithKey(s[1..], key, k) + px);
      { AppendAssoc(p0, WithKey(s[1..], key, k), px); }
      (p0 + WithKey(s[1..], key, k)) + px;
      WithKey(s, key, k) + px;
    }
  }

  lemma InsertDescFrontWithKey<T>(x: T, s: seq<T>, key: T -> int, k: int)
    requires |s| > 0 && SortedDesc(s, key) && key(s[0]) < key(x)
    ensures WithKey(InsertDesc(x, s, key), key, k)
         == WithKey(s, key, k) + (if key(x) == k then [x] else [])
  {
    assert InsertDesc(x, s, key) == [x] + s;
    WithKeyCons(x, s, key, k);
    if key(x) == k {
      forall i | 0 <= i < |s|
        ensures key(s[i]) != k
      {
        assert i == 0 || key(s[0]) >= key(s[i]);
      }
      NoneWithKey(s, key, k);
    }
  }

  /** Stability: elements with equal keys keep their input order. */
  lemma {:induction false} SortDescStable<T>(s: seq<T>, key: T -> int, k: int)
    ensures WithKey(SortDesc(s, key), key, k) == WithKey(s, key, k)
  {
    if |s| > 0 {
      var init := s[..|s| - 1];
      var last := s[|s| - 1];
      assert s == init + [last];
      SortDescStable(init, key, k);
      SortDescSorted(init, key);
      InsertDescWithKey(last, SortDesc(init, key), key, k);
      WithKeyAppend(init, [last], key, k);
      WithKeyLast(last, key, k);
    }
  }

  // ----- code-point order on strings -----

  /** Python's `a < b` on `str`. */
  predicate StrLt(a: string, b: string)
  {
    if |a| == 0 then |b| > 0
    else if |b| == 0 then false
    else if a[0] == b[0] then StrLt(a[1..], b[1..])
    else a[0] < b[0]
  }

  lemma {:induction false} StrLtIrreflexive(a: string)
    ensures !StrLt(a, a)
  {
    if |a| > 0 {
      StrLtIrreflexive(a[1..]);
    }
  }

  lemma {:induction false} StrLtTotal(a: string, b: string)
    ensures a == b || StrLt(a, b) || StrLt(b, a)
  {
    if |a| > 0 && |b| > 0 && a[0] == b[0] {
      StrLtTotal(a[1..], b[1..]);
      if a[1..] == b[1..] {
        assert a == [a[0]] + a[1..] && b == [b[0]] + b[1..];
      }
    }
  }

  lemma {:induction false} StrLtAsymmetric(a: string, b: string)
    ensures !(StrLt(a, b) && StrLt(b, a))
  {
    if |a| > 0 && |b| > 0 && a[0] == b[0] {
      StrLtAsymmetric(a[1..], b[1..]);
    }
  }

  lemma {:induction false} StrLtTransitive(a: string, b: string, c: string)
    requires StrLt(a, b) && StrLt(b, c)
    ensures StrLt(a, c)
  {
    if |a| > 0 && |b| > 0 && |c| > 0 && a[0] == b[0] && b[0] == c[0] {
      StrLtTransitive(a[1..], b[1..], c[1..]);
    }
  }

  /** Strictly increasing: sorted and without duplicates, as `sorted(set)` is. */
  predicate StrictlySorted(s: seq<string>)
  {
    forall i, j :: 0 <= i < j < |s| ==> StrLt(s[i], s[j])
  }

  /** The set of elements of a sequence. */
  function Elems(s: seq<string>): set<string>
  {
    set x | x in s
  }

  /** Inserts `x` into a strictly sorted sequence unless it is already there. */
  function InsertStr(x: string, s: seq<string>): (r: seq<string>)
    ensures Elems(r) == Elems(s) + {x}
    decreases |s|
  {
    if |s| == 0 then [x]
    else if s[0] == x then s
    else if StrLt(s[0], x) then
      var tail := InsertStr(x, s[1..]);
      assert s == [s[0]] + s[1..];
      assert Elems(s) == {s[0]} + Elems(s[1..]);
      assert Elems([s[0]] + tail) == {s[0]} + Elems(tail);
      [s[0]] + tail
    else
      assert Elems([x] + s) == {x} + Elems(s);
      [x] + s
  }

  lemma {:induction false} InsertStrSorted(x: string, s: seq<string>)
    requires StrictlySorted(s)
    ensures StrictlySorted(InsertStr(x, s))
    decreases |s|
  {
    if |s| > 0 && s[0] != x {
      if StrLt(s[0], x) {
        InsertStrSorted(x, s[1..]);
        var tail := InsertStr(x, s[1..]);
        forall k | 0 <= k < |tail|
          ensures StrLt(s[0], tail[k])
        {
          assert tail[k] in Elems(tail);
          if tail[k] != x {
            assert tail[k] in s[1..];
            var m :| 0 <= m < |s[1..]| && s[1..][m] == tail[k];
            assert s[m + 1] == tail[k];
          }
        }
      } else {
        StrLtTotal(s[0], x);
        forall k | 0 <= k < |s|
          ensures StrLt(x, s[k])
        {
          if k > 0 {
            StrLtTransitive(x, s[0], s[k]);
          }
        }
      }
    }
  }

  /** Two strictly sorted sequences with the same elements are equal. */
  lemma {:induction false} StrictlySortedUnique(a: seq<string>, b: seq<string>)
    requires StrictlySorted(a) && StrictlySorted(b)
    requires Elems(a) == Elems(b)
    ensures a == b
    decreases |a|
  {
    if |a| > 0 {
      assert a[0] in Elems(a);
    }
    if |b| > 0 {
      assert b[0] in Elems(b);
    }
    if |a| > 0 && |b| > 0 {
      // the first element of each is the least element of the common set
      assert a[0] in Elems(b) && b[0] in Elems(a);
      if a[0] != b[0] {
        var ia :| 0 <= ia < |b| && b[ia] == a[0];
        var ib :| 0 <= ib < |a| && a[ib] == b[0];
        StrLtAsymmetric(a[0], b[0]);
        assert false;
      }
      forall y | y in Elems(a[1..])
        ensures y in Elems(b[1..])
      {
        var i :| 0 <= i < |a[1..]| && a[1..][i] == y;
        assert a[i + 1] == y && y in Elems(b);
        var j :| 0 <= j < |b| && b[j] == y;
        if j == 0 { StrLtIrreflexive(y); }
        assert b[1..][j - 1] == y;
      }
      forall y | y in Elems(b[1..])
        ensures y in Elems(a[1..])
      {
        var i :| 0 <= i < |b[1..]| && b[1..][i] == y;
        assert b[i + 1] == y && y in Elems(a);
        var j :| 0 <= j < |a| && a[j] == y;
        if j == 0 { StrLtIrreflexive(y); }
        assert a[1..][j - 1] == y;
      }
      StrictlySortedUnique(a[1..], b[1..]);
      assert a == [a[0]] + a[1..] && b == [b[0]] + b[1..];
    }
  }

  /** `sorted(set(s))` for a sequence of strings. */
  function SortedDistinct(s: seq<string>): (r: seq<string>)
    ensures StrictlySorted(r)
    ensures Elems(r) == Elems(s)
  {
    if |s| == 0 then []
    else
      var init := SortedDistinct(s[..|s| - 1]);
      InsertStrSorted(s[|s| - 1], init);
      assert s == s[..|s| - 1] + [s[|s| - 1]];
      assert Elems(s) == Elems(s[..|s| - 1]) + {s[|s| - 1]};
      InsertStr(s[|s| - 1], init)
  }
}
