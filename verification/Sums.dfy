/** Weighted sums over the rows of a table, and how they move when rows are appended or rewritten. */
module Sums {

  function Sum<T>(s: seq<T>, w: T -> int): int {
    if s == [] then 0 else Sum(s[..|s| - 1], w) + w(s[|s| - 1])
  }

  lemma {:induction false} SumAppend<T>(s: seq<T>, x: T, w: T -> int)
    ensures Sum(s + [x], w) == Sum(s, w) + w(x)
  {
    assert (s + [x])[..|s|] == s;
  }

  lemma {:induction false} SumConcat<T>(s: seq<T>, r: seq<T>, w: T -> int)
    ensures Sum(s + r, w) == Sum(s, w) + Sum(r, w)
  {
    if r == [] {
      assert s + r == s;
    } else {
      var r' := r[..|r| - 1];
      assert s + r == (s + r') + [r[|r| - 1]];
      SumAppend(s + r', r[|r| - 1], w);
      SumConcat(s, r', w);
    }
  }

  lemma {:induction false} SumUpdate<T>(s: seq<T>, i: nat, x: T, w: T -> int)
    requires i < |s|
    ensures Sum(s[i := x], w) == Sum(s, w) - w(s[i]) + w(x)
  {
    var last := |s| - 1;
    if i == last {
      assert s[i := x][..last] == s[..last];
    } else {
      assert s[i := x][..last] == s[..last][i := x];
      SumUpdate(s[..last], i, x, w);
    }
  }

  lemma {:induction false} SumSame<T>(s: seq<T>, w: T -> int, v: T -> int)
    requires forall x :: x in s ==> w(x) == v(x)
    ensures Sum(s, w) == Sum(s, v)
  {
    if s != [] {
      SumSame(s[..|s| - 1], w, v);
    }
  }

  lemma {:induction false} SumZero<T>(s: seq<T>, w: T -> int)
    requires forall x :: x in s ==> w(x) == 0
    ensures Sum(s, w) == 0
  {
    if s != [] {
      SumZero(s[..|s| - 1], w);
    }
  }

  /** One row's weight never exceeds the sum of non-negative weights. */
  lemma {:induction false} SumAtLeast<T>(s: seq<T>, i: nat, w: T -> int)
    requires i < |s|
    requires forall x :: x in s ==> w(x) >= 0
    ensures Sum(s, w) >= w(s[i])
  {
    var r := s[..|s| - 1];
    if i == |s| - 1 {
      SumNonNegative(r, w);
    } else {
      SumAtLeast(r, i, w);
    }
  }

  lemma {:induction false} SumNonNegative<T>(s: seq<T>, w: T -> int)
    requires forall x :: x in s ==> w(x) >= 0
    ensures Sum(s, w) >= 0
  {
    if s != [] {
      SumNonNegative(s[..|s| - 1], w);
    }
  }

  lemma {:induction false} SumAdd<T>(s: seq<T>, u: T -> int, v: T -> int, w: T -> int)
    requires forall x :: x in s ==> w(x) == u(x) + v(x)
    ensures Sum(s, w) == Sum(s, u) + Sum(s, v)
  {
    if s != [] {
      SumAdd(s[..|s| - 1], u, v, w);
    }
  }

  /** The indices 0, 1, ..., n - 1: the row ids of a table with n rows. */
  function Ids(n: nat): (r: seq<nat>)
    ensures |r| == n && forall i :: 0 <= i < n ==> r[i] == i
  {
    if n == 0 then [] else Ids(n - 1) + [n - 1]
  }

  lemma {:induction false} SumOnlyAt(n: nat, k: nat, w: nat -> int)
    requires forall i: nat :: i != k ==> w(i) == 0
    ensures Sum(Ids(n), w) == if k < n then w(k) else 0
  {
    if n > 0 {
      SumAppend<nat>(Ids(n - 1), n - 1, w);
      SumOnlyAt(n - 1, k, w);
    }
  }

  /**
   * Adding a table up group by group gives its plain total: every row x belongs to the one
   * group Key(x), and group k counts the rows of that key.
   */
  lemma {:induction false} SumByGroup<T>(s: seq<T>, n: nat, key: T -> nat, w: T -> int,
                                          group: nat -> (T -> int))
    requires forall x :: x in s ==> key(x) < n
    requires forall k: nat, x :: group(k)(x) == if key(x) == k then w(x) else 0
    ensures Sum(Ids(n), (k: nat) => Sum(s, group(k))) == Sum(s, w)
  {
    var total := (k: nat) => Sum(s, group(k));
    if s == [] {
      SumZero(Ids(n), total);
    } else {
      var r, x := s[..|s| - 1], s[|s| - 1];
      var rest := (k: nat) => Sum(r, group(k));
      var here := (k: nat) => group(k)(x);
      SumByGroup(r, n, key, w, group);
      SumAdd(Ids(n), rest, here, total);
      SumOnlyAt(n, key(x), here);
    }
  }
}
