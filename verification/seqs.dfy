/** The array methods the pages use (`filter`, `find`, `some`, `reduce`, `sort`) as
    functions on sequences, each with the contract the pages rely on. */
module Seqs {
  import opened Options

  /** `s.filter(p)`: the elements satisfying `p`, in their original order, each as often as
      it occurs in `s` (`FilterCount`, `FilterKeepsOrder`). */
  function Filter<T(==)>(s: seq<T>, p: T -> bool): (r: seq<T>)
    ensures |r| <= |s|
    ensures forall i :: 0 <= i < |r| ==> r[i] in s && p(r[i])
    ensures forall i :: 0 <= i < |s| && p(s[i]) ==> s[i] in r
  {
    if s == [] then [] else (if p(s[0]) then [s[0]] else []) + Filter(s[1..], p)
  }

  /** `filter` keeps every element satisfying `p` as often as `s` holds it, and no other. */
  lemma {:induction false} FilterCount<T>(s: seq<T>, p: T -> bool)
    ensures forall x :: multiset(Filter(s, p))[x] == if p(x) then multiset(s)[x] else 0
  {
    if s != [] {
      FilterCount(s[1..], p);
      assert s == [s[0]] + s[1..];
    }
  }

  /** `r` lists the elements of `s` at the positions `idx`, which increase. */
  ghost predicate Picks<T>(r: seq<T>, s: seq<T>, idx: seq<int>)
  {
    |idx| == |r|
    && (forall i :: 0 <= i < |idx| ==> 0 <= idx[i] < |s| && s[idx[i]] == r[i])
    && (forall i, j :: 0 <= i < j < |idx| ==> idx[i] < idx[j])
  }

  /** `r` is `s` with exactly the elements at the positions where `p` holds, in their order. */
  ghost predicate KeepsInOrder<T>(r: seq<T>, s: seq<T>, p: T -> bool)
  {
    exists idx :: Picks(r, s, idx) && forall k :: 0 <= k < |s| ==> (p(s[k]) <==> k in idx)
  }

  /** Each position one further on. */
  ghost function Shift(idx: seq<int>): (r: seq<int>)
    ensures |r| == |idx| && forall i :: 0 <= i < |idx| ==> r[i] == idx[i] + 1
  {
    seq(|idx|, i requires 0 <= i < |idx| => idx[i] + 1)
  }

  lemma ShiftPicks<T>(x: T, t: seq<T>, s: seq<T>, idx: seq<int>)
    requires Picks(t, s, idx)
    ensures Picks(t, [x] + s, Shift(idx))
  {
    var xs := [x] + s;
    forall i | 0 <= i < |idx| ensures xs[Shift(idx)[i]] == t[i] {
      assert xs[idx[i] + 1] == s[idx[i]];
    }
  }

  lemma HeadPicks<T>(x: T, t: seq<T>, s: seq<T>, idx: seq<int>)
    requires Picks(t, s, idx) && forall i :: 0 <= i < |idx| ==> idx[i] > 0
    requires s != [] && s[0] == x
    ensures Picks([x] + t, s, [0] + idx)
  {
    var all := [0] + idx;
    var r := [x] + t;
    forall i | 0 <= i < |all| ensures 0 <= all[i] < |s| && s[all[i]] == r[i] {
      if i > 0 {
        assert all[i] == idx[i - 1] && r[i] == t[i - 1];
      }
    }
  }

  lemma ShiftMembers(idx: seq<int>, k: int)
    ensures k in Shift(idx) <==> k - 1 in idx
  {
    if k - 1 in idx {
      var i :| 0 <= i < |idx| && idx[i] == k - 1;
      assert Shift(idx)[i] == k;
    }
  }

  /** The positions where `p` holds in `[x] + s`: those in `s` one further on, and 0 when
      `p(x)`. */
  lemma PositionsCons<T>(x: T, s: seq<T>, idx: seq<int>, p: T -> bool)
    requires forall i :: 0 <= i < |idx| ==> idx[i] >= 0
    requires forall k :: 0 <= k < |s| ==> (p(s[k]) <==> k in idx)
    ensures p(x) ==> forall k :: 0 <= k < |[x] + s| ==> (p(([x] + s)[k]) <==> k in [0] + Shift(idx))
    ensures !p(x) ==> forall k :: 0 <= k < |[x] + s| ==> (p(([x] + s)[k]) <==> k in Shift(idx))
  {
    var xs := [x] + s;
    var sh := Shift(idx);
    forall k | 0 <= k < |xs| ensures k in sh <==> k > 0 && p(xs[k]) {
      ShiftMembers(idx, k);
      if k > 0 {
        assert xs[k] == s[k - 1];
      }
    }
    assert forall k :: k in [0] + sh <==> k == 0 || k in sh;
  }

  lemma KeptCons<T>(x: T, s: seq<T>, t: seq<T>, p: T -> bool)
    requires KeepsInOrder(t, s, p) && p(x)
    ensures KeepsInOrder([x] + t, [x] + s, p)
  {
    var idx :| Picks(t, s, idx) && forall k :: 0 <= k < |s| ==> (p(s[k]) <==> k in idx);
    var sh := Shift(idx);
    ShiftPicks(x, t, s, idx);
    PositionsCons(x, s, idx, p);
    HeadPicks(x, t, [x] + s, sh);
    assert Picks([x] + t, [x] + s, [0] + sh);
  }

  lemma DroppedCons<T>(x: T, s: seq<T>, t: seq<T>, p: T -> bool)
    requires KeepsInOrder(t, s, p) && !p(x)
    ensures KeepsInOrder(t, [x] + s, p)
  {
    var idx :| Picks(t, s, idx) && forall k :: 0 <= k < |s| ==> (p(s[k]) <==> k in idx);
    ShiftPicks(x, t, s, idx);
    PositionsCons(x, s, idx, p);
    assert Picks(t, [x] + s, Shift(idx));
  }

  /** `filter` keeps the elements satisfying `p` at their positions, in their order. */
  lemma {:induction false} FilterKeepsOrder<T>(s: seq<T>, p: T -> bool)
    ensures KeepsInOrder(Filter(s, p), s, p)
  {
    if s == [] {
      assert Picks([], s, []);
    } else {
      FilterKeepsOrder(s[1..], p);
      assert [s[0]] + s[1..] == s;
      if p(s[0]) {
        KeptCons(s[0], s[1..], Filter(s[1..], p), p);
      } else {
        DroppedCons(s[0], s[1..], Filter(s[1..], p), p);
        assert Filter(s, p) == Filter(s[1..], p);
      }
    }
  }

  /** Filtering a concatenation filters each part and keeps them in order. */
  lemma {:induction false} FilterAppend<T>(a: seq<T>, b: seq<T>, p: T -> bool)
    ensures Filter(a + b, p) == Filter(a, p) + Filter(b, p)
  {
    if a != [] {
      assert (a + b)[1..] == a[1..] + b;
      FilterAppend(a[1..], b, p);
    } else {
      assert a + b == b;
    }
  }

  /** Filtering keeps an element exactly when it satisfies `p`, so the result is `s` when all do. */
  lemma {:induction false} FilterAll<T>(s: seq<T>, p: T -> bool)
    requires forall i :: 0 <= i < |s| ==> p(s[i])
    ensures Filter(s, p) == s
  {
    if s != [] {
      FilterAll(s[1..], p);
    }
  }

  /** `s.find(p)`: the first element satisfying `p`, or nothing. */
  function Find<T>(s: seq<T>, p: T -> bool): (r: Option<T>)
    ensures r.None? <==> forall i :: 0 <= i < |s| ==> !p(s[i])
    ensures r.Some? ==> exists i :: 0 <= i < |s| && s[i] == r.value && p(s[i])
                                    && forall j :: 0 <= j < i ==> !p(s[j])
  {
    if s == [] then None
    else if p(s[0]) then Some(s[0])
    else
      var r := Find(s[1..], p);
      assert r.Some? ==> exists i :: 1 <= i < |s| && s[i] == r.value && p(s[i])
                                      && forall j :: 1 <= j < i ==> !p(s[j]);
      r
  }

  /** When `s[k]` is the first element satisfying `p`, `find` returns it. */
  lemma {:induction false} FindFirst<T>(s: seq<T>, p: T -> bool, k: int)
    requires 0 <= k < |s| && p(s[k]) && forall j :: 0 <= j < k ==> !p(s[j])
    ensures Find(s, p) == Some(s[k])
  {
    if k > 0 {
      assert s[1..][k - 1] == s[k];
      FindFirst(s[1..], p, k - 1);
    }
  }

  /** `s.some(p)`. */
  function Any<T>(s: seq<T>, p: T -> bool): (b: bool)
    ensures b <==> exists i :: 0 <= i < |s| && p(s[i])
  {
    Find(s, p).Some?
  }

  /** `s.filter(p).length`. */
  function Count<T(==)>(s: seq<T>, p: T -> bool): (n: nat)
    ensures n <= |s|
  {
    |Filter(s, p)|
  }

  /** Nothing is counted exactly when no element satisfies `p`, and everything exactly when
      every element does. */
  lemma {:induction false} CountExtremes<T>(s: seq<T>, p: T -> bool)
    ensures Count(s, p) == 0 <==> forall i :: 0 <= i < |s| ==> !p(s[i])
    ensures Count(s, p) == |s| <==> forall i :: 0 <= i < |s| ==> p(s[i])
  {
    if s != [] {
      CountExtremes(s[1..], p);
      assert forall i :: 1 <= i < |s| ==> s[i] == s[1..][i - 1];
    }
  }

  /** `s.reduce((acc, x) => acc + f(x), 0)`, folding from the left. */
  function SumBy<T>(s: seq<T>, f: T -> int): int
  {
    if s == [] then 0 else SumBy(s[..|s| - 1], f) + f(s[|s| - 1])
  }

  lemma {:induction false} SumByAppend<T>(a: seq<T>, b: seq<T>, f: T -> int)
    ensures SumBy(a + b, f) == SumBy(a, f) + SumBy(b, f)
  {
    if b != [] {
      assert (a + b)[..|a + b| - 1] == a + b[..|b| - 1];
      SumByAppend(a, b[..|b| - 1], f);
    } else {
      assert a + b == a;
    }
  }

  /** With every term between `lo` and `hi`, the sum lies between `lo * |s|` and `hi * |s|`. */
  lemma {:induction false} SumByBounds<T>(s: seq<T>, f: T -> int, lo: int, hi: int)
    requires forall i :: 0 <= i < |s| ==> lo <= f(s[i]) <= hi
    ensures lo * |s| <= SumBy(s, f) <= hi * |s|
  {
    if s != [] {
      SumByBounds(s[..|s| - 1], f, lo, hi);
    }
  }

  predicate SortedBy<T>(s: seq<T>, key: T -> int)
  {
    forall i, j :: 0 <= i < j < |s| ==> key(s[i]) <= key(s[j])
  }

  /** Prepending an element no larger than the head keeps a sorted sequence sorted. */
  lemma SortedCons<T>(a: T, t: seq<T>, key: T -> int)
    requires SortedBy(t, key) && (t == [] || key(a) <= key(t[0]))
    ensures SortedBy([a] + t, key)
  {
    var r := [a] + t;
    forall i, j | 0 <= i < j < |r| ensures key(r[i]) <= key(r[j]) {
      if i > 0 {
        assert r[i] == t[i - 1] && r[j] == t[j - 1];
      } else {
        assert r[j] == t[j - 1];
        assert key(t[0]) <= key(t[j - 1]) || j == 1;
      }
    }
  }

  /** Placing the head of a sorted sequence in front of the insertion into its tail keeps it
      sorted, when the head's key is below the inserted element's. */
  lemma InsertAfterHead<T>(x: T, s: seq<T>, t: seq<T>, key: T -> int)
    requires s != [] && SortedBy(s, key) && key(s[0]) < key(x)
    requires |t| == |s| && multiset(t) == multiset(s[1..]) + multiset{x}
    requires t[0] == x || (s[1..] != [] && t[0] == s[1])
    requires SortedBy(t, key)
    ensures multiset([s[0]] + t) == multiset(s) + multiset{x}
    ensures SortedBy([s[0]] + t, key)
  {
    assert s == [s[0]] + s[1..];
    SortedCons(s[0], t, key);
  }

  /** Inserts `x` before the first element whose key is not smaller. */
  function Insert<T>(x: T, s: seq<T>, key: T -> int): (r: seq<T>)
    requires SortedBy(s, key)
    ensures |r| == |s| + 1 && multiset(r) == multiset(s) + multiset{x}
    ensures r[0] == x || (s != [] && r[0] == s[0])
    ensures SortedBy(r, key)
  {
    if s == [] then [x]
    else if key(x) <= key(s[0]) then
      SortedCons(x, s, key);
      [x] + s
    else
      var t := Insert(x, s[1..], key);
      InsertAfterHead(x, s, t, key);
      [s[0]] + t
  }

  /** `s.slice().sort((a, b) => key(a) - key(b))`: a sort by ascending key. */
  function SortBy<T>(s: seq<T>, key: T -> int): (r: seq<T>)
    ensures |r| == |s| && multiset(r) == multiset(s)
    ensures SortedBy(r, key)
  {
    if s == [] then []
    else
      assert s == [s[0]] + s[1..];
      Insert(s[0], SortBy(s[1..], key), key)
  }

  /** Sorting keeps exactly the elements it was given. */
  lemma SortByMembers<T>(s: seq<T>, key: T -> int)
    ensures forall x :: x in SortBy(s, key) <==> x in s
  {
    var r := SortBy(s, key);
    assert forall x :: x in r <==> x in multiset(r);
    assert forall x :: x in s <==> x in multiset(s);
  }
}
