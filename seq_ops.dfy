/** The relational operations the selectors' SQL performs, on sequences of
    rows: WHERE as a filter, ORDER BY as a stable sort on an integer key, and
    LIMIT as a prefix. */
module SeqOps {

  function Min(a: int, b: int): int { if a <= b then a else b }

  /** WHERE p: the rows satisfying `p`, in their original order. */
  function Filter<T(==,!new)>(s: seq<T>, p: T -> bool): (r: seq<T>)
    ensures |r| <= |s|
    ensures forall i :: 0 <= i < |r| ==> p(r[i])
    ensures forall x :: multiset(r)[x] == if p(x) then multiset(s)[x] else 0
  {
    if s == [] then []
    else
      var rest := Filter(s[1..], p);
      assert s == [s[0]] + s[1..];
      if p(s[0]) then [s[0]] + rest else rest
  }

  /** Nothing is lost: a filter drops exactly the rows `p` rejects. */
  lemma FilterMembership<T(!new)>(s: seq<T>, p: T -> bool, x: T)
    ensures x in Filter(s, p) <==> x in s && p(x)
  {
    var r := Filter(s, p);
    assert x in r <==> multiset(r)[x] > 0;
    assert x in s <==> multiset(s)[x] > 0;
  }

  /** A filter comes back empty exactly when no row satisfies `p`. */
  lemma FilterEmpty<T(!new)>(s: seq<T>, p: T -> bool)
    ensures Filter(s, p) == [] <==> forall i :: 0 <= i < |s| ==> !p(s[i])
  {
    var r := Filter(s, p);
    if r == [] {
      forall i | 0 <= i < |s| ensures !p(s[i]) {
        assert multiset(s)[s[i]] > 0;
      }
    } else {
      FilterMembership(s, p, r[0]);
    }
  }

  lemma ConcatAssoc<T>(a: seq<T>, b: seq<T>, c: seq<T>)
    ensures (a + b) + c == a + (b + c)
  {
  }

  predicate SortedBy<T>(s: seq<T>, key: T -> int) {
    forall i, j :: 0 <= i < j < |s| ==> key(s[i]) <= key(s[j])
  }

  /** Puts `x` in front of the first element whose key is not smaller. */
  function Insert<T(==,!new)>(x: T, s: seq<T>, key: T -> int): (r: seq<T>)
    ensures |r| == |s| + 1
    ensures multiset(r) == multiset(s) + multiset{x}
  {
    if s == [] then [x]
    else if key(x) <= key(s[0]) then [x] + s
    else
      assert s == [s[0]] + s[1..];
      [s[0]] + Insert(x, s[1..], key)
  }

  /** Every element of the result is `x` or an element of `s`. */
  lemma {:induction false} InsertFrom<T(!new)>(x: T, s: seq<T>, key: T -> int, i: nat)
    requires i < |s| + 1
    ensures Insert(x, s, key)[i] == x || Insert(x, s, key)[i] in s
  {
    if s != [] && key(x) > key(s[0]) && i > 0 {
      InsertFrom(x, s[1..], key, i - 1);
    }
  }

  lemma {:induction false} InsertSorted<T(!new)>(x: T, s: seq<T>, key: T -> int)
    requires SortedBy(s, key)
    ensures SortedBy(Insert(x, s, key), key)
  {
    if s != [] && key(x) > key(s[0]) {
      var rest := Insert(x, s[1..], key);
      InsertSorted(x, s[1..], key);
      forall i | 0 <= i < |rest| ensures key(s[0]) <= key(rest[i]) {
        InsertFrom(x, s[1..], key, i);
      }
      assert Insert(x, s, key) == [s[0]] + rest;
    }
  }

  /** ORDER BY key ASC: the same rows, ordered by `key`. */
  function SortBy<T(==,!new)>(s: seq<T>, key: T -> int): (r: seq<T>)
    ensures |r| == |s|
    ensures multiset(r) == multiset(s)
    ensures SortedBy(r, key)
  {
    if s == [] then []
    else
      assert s == [s[0]] + s[1..];
      InsertSorted(s[0], SortBy(s[1..], key), key);
      Insert(s[0], SortBy(s[1..], key), key)
  }

  /** LIMIT n. */
  function Take<T>(s: seq<T>, n: nat): (r: seq<T>)
    ensures |r| == Min(n, |s|)
    ensures r == s[..|r|]
  {
    if n <= |s| then s[..n] else s
  }

  /** ORDER BY key LIMIT n keeps rows with the smallest keys: the taken rows and
      the dropped rows together are the input, and no dropped row has a
      smaller key than a taken one. */
  lemma TakeSmallest<T(!new)>(s: seq<T>, key: T -> int, n: nat)
    ensures var sorted := SortBy(s, key);
      var taken := Take(sorted, n);
      var dropped := sorted[|taken|..];
      multiset(taken) + multiset(dropped) == multiset(s) &&
      forall a, b :: a in taken && b in dropped ==> key(a) <= key(b)
  {
    var sorted := SortBy(s, key);
    var taken := Take(sorted, n);
    var dropped := sorted[|taken|..];
    assert sorted == taken + dropped;
    forall a, b | a in taken && b in dropped ensures key(a) <= key(b) {
      var i :| 0 <= i < |taken| && taken[i] == a;
      var j :| 0 <= j < |dropped| && dropped[j] == b;
      assert sorted[i] == a && sorted[|taken| + j] == b;
    }
  }

  /** Rows drawn from rows that all satisfy `p` satisfy `p`. */
  lemma SubMultisetKeeps<T>(t: seq<T>, s: seq<T>, p: T -> bool)
    requires multiset(t) <= multiset(s)
    requires forall i :: 0 <= i < |s| ==> p(s[i])
    ensures forall i :: 0 <= i < |t| ==> p(t[i])
  {
    forall i | 0 <= i < |t| ensures p(t[i]) {
      assert t[i] in multiset(t);
      assert t[i] in multiset(s);
      assert t[i] in s;
    }
  }

  /** The query `WHERE p ORDER BY key LIMIT n`. */
  function SelectTop<T(==,!new)>(s: seq<T>, p: T -> bool, key: T -> int, n: nat): (r: seq<T>)
    ensures |r| == Min(n, |Filter(s, p)|)
    ensures forall i :: 0 <= i < |r| ==> p(r[i])
    ensures SortedBy(r, key)
    ensures multiset(r) <= multiset(s)
  {
    var filtered := Filter(s, p);
    var sorted := SortBy(filtered, key);
    var r := Take(sorted, n);
    TakeKeeps(sorted, n, key);
    FilterIsSubMultiset(s, p);
    SubMultisetKeeps(r, filtered, p);
    r
  }

  lemma FilterIsSubMultiset<T(!new)>(s: seq<T>, p: T -> bool)
    ensures multiset(Filter(s, p)) <= multiset(s)
  {
  }

  /** A prefix of a sorted sequence is sorted and drawn from it. */
  lemma TakeKeeps<T>(s: seq<T>, n: nat, key: T -> int)
    ensures multiset(Take(s, n)) <= multiset(s)
    ensures SortedBy(s, key) ==> SortedBy(Take(s, n), key)
  {
    var t := Take(s, n);
    assert s == t + s[|t|..];
  }

  /** A row that satisfies `p` but is not returned was cut off by the limit:
      the limit was reached, and every returned row has a key no larger. */
  lemma SelectTopMissing<T(!new)>(s: seq<T>, p: T -> bool, key: T -> int, n: nat, u: T)
    requires u in s && p(u) && u !in SelectTop(s, p, key, n)
    ensures |SelectTop(s, p, key, n)| == n
    ensures forall x :: x in SelectTop(s, p, key, n) ==> key(x) <= key(u)
  {
    var sorted := SortBy(Filter(s, p), key);
    var taken := Take(sorted, n);
    var dropped := sorted[|taken|..];
    assert taken == SelectTop(s, p, key, n);
    FilterMembership(s, p, u);
    TakeSmallest(Filter(s, p), key, n);
    assert u in multiset(sorted);
    assert u in dropped by {
      assert multiset(taken)[u] == 0;
    }
  }

  /** `LIMIT 1`: no row when none satisfies `p`, otherwise a satisfying row
      of least key. */
  lemma SelectFirst<T(!new)>(s: seq<T>, p: T -> bool, key: T -> int)
    ensures SelectTop(s, p, key, 1) == [] <==> forall x :: x in s ==> !p(x)
    ensures var first := SelectTop(s, p, key, 1);
      first != [] ==>
        |first| == 1 && first[0] in s && p(first[0]) &&
        (forall x :: x in s && p(x) ==> key(first[0]) <= key(x))
  {
    var first := SelectTop(s, p, key, 1);
    if first == [] {
      forall x | x in s ensures !p(x) {
        FilterMembership(s, p, x);
      }
    } else {
      assert first[0] in multiset(s);
      forall x | x in s && p(x) ensures key(first[0]) <= key(x) {
        if x !in first {
          SelectTopMissing(s, p, key, 1, x);
        }
      }
    }
  }

  /** A stronger condition selects fewer rows. */
  lemma {:induction false} FilterStronger<T(!new)>(s: seq<T>, q: T -> bool, p: T -> bool)
    requires forall x :: q(x) ==> p(x)
    ensures multiset(Filter(s, q)) <= multiset(Filter(s, p))
    ensures |Filter(s, q)| <= |Filter(s, p)|
  {
    if s != [] {
      FilterStronger(s[1..], q, p);
    }
  }
}
