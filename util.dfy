/** Small helpers over sequences and numbers shared by the other modules. */
module Util {

  datatype Option<T> = None | Some(value: T)

  function MaxR(a: real, b: real): real { if a >= b then a else b }
  function MinR(a: real, b: real): real { if a <= b then a else b }
  function MaxI(a: int, b: int): int { if a >= b then a else b }
  function MinI(a: int, b: int): int { if a <= b then a else b }

  /** JavaScript's `Math.ceil` on a real. */
  function Ceil(x: real): (c: int)
    ensures c as real >= x && (c as real) - 1.0 < x
  {
    -((-x).Floor)
  }

  /** `Array.prototype.filter`: the elements that `keep` accepts, in their original order. */
  function Filter<T(!new)>(s: seq<T>, keep: T -> bool): (r: seq<T>)
    ensures |r| <= |s|
    ensures forall x :: x in r <==> x in s && keep(x)
    ensures forall i :: 0 <= i < |r| ==> keep(r[i])
  {
    if s == [] then []
    else (if keep(s[0]) then [s[0]] else []) + Filter(s[1..], keep)
  }

  /** Filtering distributes over concatenation, so the survivors keep their relative order. */
  lemma {:induction false} FilterAppend<T(!new)>(s: seq<T>, t: seq<T>, keep: T -> bool)
    ensures Filter(s + t, keep) == Filter(s, keep) + Filter(t, keep)
  {
    if s == [] {
      assert s + t == t;
    } else {
      assert (s + t)[1..] == s[1..] + t;
      FilterAppend(s[1..], t, keep);
    }
  }

  /** Filtering keeps everything exactly when every element is accepted. */
  lemma {:induction false} FilterKeepsAll<T(!new)>(s: seq<T>, keep: T -> bool)
    ensures Filter(s, keep) == s <==> forall i :: 0 <= i < |s| ==> keep(s[i])
  {
    if s != [] {
      FilterKeepsAll(s[1..], keep);
      if !keep(s[0]) {
        assert |Filter(s, keep)| < |s| by {
          assert Filter(s, keep) == Filter(s[1..], keep);
        }
      }
    }
  }

  /** Number of elements that satisfy `p`. */
  function Count<T>(s: seq<T>, p: T -> bool): (n: nat)
    ensures n <= |s|
  {
    if s == [] then 0 else (if p(s[0]) then 1 else 0) + Count(s[1..], p)
  }

  lemma {:induction false} CountAppend<T>(s: seq<T>, t: seq<T>, p: T -> bool)
    ensures Count(s + t, p) == Count(s, p) + Count(t, p)
  {
    if s == [] {
      assert s + t == t;
    } else {
      assert (s + t)[1..] == s[1..] + t;
      CountAppend(s[1..], t, p);
    }
  }

  /** Replacing one element changes the count by the difference at that position only. */
  lemma {:induction false} CountUpdate<T>(s: seq<T>, i: int, x: T, p: T -> bool)
    requires 0 <= i < |s|
    ensures Count(s[i := x], p) + (if p(s[i]) then 1 else 0) == Count(s, p) + (if p(x) then 1 else 0)
  {
    if i == 0 {
      assert s[i := x][1..] == s[1..];
    } else {
      assert s[i := x][1..] == s[1..][i - 1 := x];
      CountUpdate(s[1..], i - 1, x, p);
    }
  }

  /** The filter keeps exactly as many elements as satisfy the predicate. */
  lemma {:induction false} FilterCount<T(!new)>(s: seq<T>, keep: T -> bool)
    ensures |Filter(s, keep)| == Count(s, keep)
  {
    if s != [] {
      FilterCount(s[1..], keep);
    }
  }

  /** `Math.pow(b, n)` for a natural exponent. */
  function Pow(b: real, n: nat): real
  {
    if n == 0 then 1.0 else b * Pow(b, n - 1)
  }

  /** A prefix of a prefix is a prefix. */
  lemma PrefixTrans<T>(a: seq<T>, b: seq<T>, c: seq<T>)
    requires a <= b && b <= c
    ensures a <= c
  {
    assert c[..|a|] == b[..|a|];
  }

  /** Scaling by a non-negative factor keeps the order. */
  lemma ScaleMono(a: real, x: real, y: real)
    requires a >= 0.0 && x <= y
    ensures a * x <= a * y
  {
    assert a * (y - x) >= 0.0;
  }

  /** With a base above one, powers are at least one and grow with the exponent. */
  lemma {:induction false} PowGrows(b: real, m: nat, n: nat)
    requires b > 1.0 && m <= n
    ensures 1.0 <= Pow(b, m) <= Pow(b, n)
  {
    if n > m {
      PowGrows(b, m, n - 1);
      assert Pow(b, n) == b * Pow(b, n - 1);
    } else if m > 0 {
      PowGrows(b, m - 1, m - 1);
      assert Pow(b, m) == b * Pow(b, m - 1);
    }
  }

  /** `s` is in non-decreasing order of `key`. */
  ghost predicate SortedBy<T>(s: seq<T>, key: T -> real)
  {
    forall i, j :: 0 <= i < j < |s| ==> key(s[i]) <= key(s[j])
  }

  /** Inserts `x` before the first element whose key is not below its own. */
  function InsertBy<T>(x: T, s: seq<T>, key: T -> real): (r: seq<T>)
    ensures |r| == |s| + 1 && multiset(r) == multiset(s) + multiset{x}
  {
    if s == [] then [x]
    else if key(x) <= key(s[0]) then [x] + s
    else
      assert s == [s[0]] + s[1..];
      [s[0]] + InsertBy(x, s[1..], key)
  }

  /** A lower bound of `x` and of every element of `s` bounds the insertion's result too. */
  lemma {:induction false} InsertByBound<T>(x: T, s: seq<T>, key: T -> real, b: real)
    requires b <= key(x) && forall k :: 0 <= k < |s| ==> b <= key(s[k])
    ensures forall k :: 0 <= k < |s| + 1 ==> b <= key(InsertBy(x, s, key)[k])
  {
    if s != [] && key(x) > key(s[0]) {
      InsertByBound(x, s[1..], key, b);
    }
  }

  /** Insertion keeps a sorted sequence sorted. */
  lemma {:induction false} InsertBySorted<T>(x: T, s: seq<T>, key: T -> real)
    requires SortedBy(s, key)
    ensures SortedBy(InsertBy(x, s, key), key)
  {
    if s != [] && key(x) > key(s[0]) {
      var t := InsertBy(x, s[1..], key);
      InsertBySorted(x, s[1..], key);
      InsertByBound(x, s[1..], key, key(s[0]));
      var r := [s[0]] + t;
      assert InsertBy(x, s, key) == r;
      assert forall k :: 0 < k < |r| ==> r[k] == t[k - 1];
    }
  }

  /**
   * `Array.prototype.sort` with a comparator by `key`: an insertion sort that
   * keeps elements with equal keys in their original order.
   */
  function SortBy<T>(s: seq<T>, key: T -> real): (r: seq<T>)
    ensures |r| == |s| && multiset(r) == multiset(s)
  {
    if s == [] then []
    else
      assert s == [s[0]] + s[1..];
      InsertBy(s[0], SortBy(s[1..], key), key)
  }

  /** The sort's result is in non-decreasing key order. */
  lemma {:induction false} SortBySorted<T>(s: seq<T>, key: T -> real)
    ensures SortedBy(SortBy(s, key), key)
  {
    if s != [] {
      SortBySorted(s[1..], key);
      InsertBySorted(s[0], SortBy(s[1..], key), key);
    }
  }

  /** In a sorted sequence every element of a prefix has a key no larger than any element after it. */
  lemma PrefixBeforeRest<T>(r: seq<T>, key: T -> real, k: nat, a: T, b: T)
    requires SortedBy(r, key) && k <= |r|
    requires a in r[..k] && b in r[k..]
    ensures key(a) <= key(b)
  {
    var i :| 0 <= i < k && r[i] == a;
    var j :| k <= j < |r| && r[j] == b;
  }

  /** No element occurs twice. */
  ghost predicate NoDup<T>(s: seq<T>)
  {
    forall a, b :: 0 <= a < b < |s| ==> s[a] != s[b]
  }

  /** The first element of a sequence without duplicates does not occur again. */
  lemma HeadNotInTail<T>(s: seq<T>)
    requires NoDup(s) && s != []
    ensures s[0] !in s[1..] && s[0] !in multiset(s[1..])
  {
    forall k | 0 <= k < |s[1..]| ensures s[1..][k] != s[0] { assert s[1..][k] == s[k + 1]; }
  }

  lemma {:induction false} FilterNoDup<T(!new)>(s: seq<T>, keep: T -> bool)
    requires NoDup(s)
    ensures NoDup(Filter(s, keep))
  {
    if s != [] {
      FilterNoDup(s[1..], keep);
      HeadNotInTail(s);
      var t := Filter(s[1..], keep);
      assert forall k :: 0 <= k < |t| ==> t[k] != s[0];
      if keep(s[0]) {
        assert Filter(s, keep) == [s[0]] + t;
      } else {
        assert Filter(s, keep) == t;
      }
    }
  }

  lemma {:induction false} SortByNoDup<T>(s: seq<T>, key: T -> real)
    requires NoDup(s)
    ensures NoDup(SortBy(s, key))
  {
    if s != [] {
      SortByNoDup(s[1..], key);
      HeadNotInTail(s);
      InsertByNoDup(s[0], SortBy(s[1..], key), key);
    }
  }

  lemma {:induction false} InsertByNoDup<T>(x: T, s: seq<T>, key: T -> real)
    requires NoDup(s) && x !in multiset(s)
    ensures NoDup(InsertBy(x, s, key))
  {
    if s != [] {
      if key(x) <= key(s[0]) {
        ConsNoDup(x, s);
      } else {
        var tl := s[1..];
        assert NoDup(tl) by {
          forall a, b | 0 <= a < b < |tl| ensures tl[a] != tl[b] {
            assert tl[a] == s[a + 1] && tl[b] == s[b + 1];
          }
        }
        assert s == [s[0]] + tl;
        HeadNotInTail(s);
        InsertByNoDup(x, tl, key);
        ConsNoDup(s[0], InsertBy(x, tl, key));
      }
    }
  }

  /** A value not in a sequence without duplicates can be put in front of it. */
  lemma ConsNoDup<T>(h: T, t: seq<T>)
    requires NoDup(t) && h !in multiset(t)
    ensures NoDup([h] + t)
  {
    var r := [h] + t;
    forall a, b | 0 <= a < b < |r| ensures r[a] != r[b] {
      assert r[b] == t[b - 1] && r[b] in multiset(t);
      if a > 0 {
        assert r[a] == t[a - 1];
      }
    }
  }

  /** A sequence without duplicates holds each value at most once. */
  lemma {:induction false} NoDupOnce<T>(s: seq<T>, x: T)
    requires NoDup(s)
    ensures multiset(s)[x] <= 1
  {
    if s != [] {
      assert s == [s[0]] + s[1..];
      assert NoDup(s[1..]) by {
        forall a, b | 0 <= a < b < |s[1..]| ensures s[1..][a] != s[1..][b] {
          assert s[1..][a] == s[a + 1] && s[1..][b] == s[b + 1];
        }
      }
      NoDupOnce(s[1..], x);
      if s[0] == x {
        HeadNotInTail(s);
      }
    }
  }

  /** A value found at two positions is counted twice. */
  lemma TwoPositions<T>(b: seq<T>, i: nat, j: nat)
    requires i < j < |b|
    ensures multiset(b)[b[i]] >= (if b[i] == b[j] then 2 else 1)
  {
    assert b == b[..j] + [b[j]] + b[j + 1..];
    assert b[..j][i] == b[i];
  }

  /** Reordering a sequence without duplicates cannot create one. */
  lemma PermutationNoDup<T>(a: seq<T>, b: seq<T>)
    requires NoDup(a) && multiset(a) == multiset(b)
    ensures NoDup(b)
  {
    forall i, j | 0 <= i < j < |b| ensures b[i] != b[j] {
      NoDupOnce(a, b[i]);
      TwoPositions(b, i, j);
    }
  }

  /** A sequence that holds each value at most once has no duplicates. */
  lemma OnceNoDup<T>(s: seq<T>)
    requires forall x :: multiset(s)[x] <= 1
    ensures NoDup(s)
  {
    forall i, j | 0 <= i < j < |s| ensures s[i] != s[j] {
      TwoPositions(s, i, j);
    }
  }

  /** `slice(0, n)`: the first `n` elements, or all of them when there are fewer. */
  function Take<T>(s: seq<T>, n: nat): (r: seq<T>)
    ensures |r| == MinI(n, |s|) && r == s[..|r|]
  {
    if |s| <= n then s else s[..n]
  }

  /**
   * The first `n` of a sorted sequence are its best `n`: they keep the order,
   * come from the sequence, and every element left out has a key no smaller
   * than any kept one.
   */
  lemma TopOf<T>(s: seq<T>, key: T -> real, n: nat)
    requires SortedBy(s, key)
    ensures var r := Take(s, n);
      SortedBy(r, key) && multiset(r) <= multiset(s) &&
      forall x :: x in multiset(s) - multiset(r) ==> forall i :: 0 <= i < |r| ==> key(r[i]) <= key(x)
  {
    var r := Take(s, n);
    var rest := s[|r|..];
    assert s == r + rest;
    assert multiset(s) == multiset(r) + multiset(rest);
    forall x | x in multiset(s) - multiset(r)
      ensures forall i :: 0 <= i < |r| ==> key(r[i]) <= key(x)
    {
      assert x in rest;
      forall i | 0 <= i < |r| ensures key(r[i]) <= key(x) {
        PrefixBeforeRest(s, key, |r|, r[i], x);
      }
    }
  }
}
