/** `[...xs].sort((a, b) => key(b) - key(a))`: JavaScript's `Array.prototype.sort`
    is stable, so this orders by `key` from largest to smallest and keeps
    elements with equal keys in their original order. The `topPosts` lists
    then keep the first five. */
module Ranking {

  predicate SortedDesc<T>(s: seq<T>, key: T -> int) {
    forall i, j :: 0 <= i < j < |s| ==> key(s[i]) >= key(s[j])
  }

  /** Insert `x` in front of the first element whose key is not larger. */
  function Insert<T>(x: T, t: seq<T>, key: T -> int): (r: seq<T>)
    ensures multiset(r) == multiset(t) + multiset{x}
    ensures |r| == |t| + 1 && (r[0] == x || (|t| > 0 && r[0] == t[0]))
    decreases |t|
  {
    if t == [] || key(t[0]) <= key(x) then [x] + t
    else
      assert t == [t[0]] + t[1..];
      [t[0]] + Insert(x, t[1..], key)
  }

  lemma {:induction false} InsertSorted<T>(x: T, t: seq<T>, key: T -> int)
    requires SortedDesc(t, key)
    ensures SortedDesc(Insert(x, t, key), key)
    decreases |t|
  {
    if t != [] && key(t[0]) > key(x) {
      InsertSorted(x, t[1..], key);
      var rest := Insert(x, t[1..], key);
      assert key(rest[0]) <= key(t[0]);
      assert forall k :: 0 <= k < |rest| ==> key(rest[k]) <= key(t[0]) by {
        forall k | 0 <= k < |rest|
          ensures key(rest[k]) <= key(t[0])
        {
          if k > 0 {
            assert key(rest[0]) >= key(rest[k]);
          }
        }
      }
    }
  }

  /** The stable sort, largest key first. */
  function SortDesc<T>(s: seq<T>, key: T -> int): (r: seq<T>)
    ensures SortedDesc(r, key)
    ensures |r| == |s| && multiset(r) == multiset(s)
    decreases |s|
  {
    if s == [] then []
    else
      assert s == [s[0]] + s[1..];
      InsertSorted(s[0], SortDesc(s[1..], key), key);
      Insert(s[0], SortDesc(s[1..], key), key)
  }

  /** The elements whose key is `k`, in their order. */
  function Ties<T>(s: seq<T>, key: T -> int, k: int): seq<T>
    decreases |s|
  {
    if s == [] then []
    else (if key(s[0]) == k then [s[0]] else []) + Ties(s[1..], key, k)
  }

  lemma {:induction false} InsertTies<T>(x: T, t: seq<T>, key: T -> int, k: int)
    ensures Ties(Insert(x, t, key), key, k)
            == (if key(x) == k && forall j :: 0 <= j < |t| && key(t[j]) == k ==> key(t[j]) <= key(x)
                then [x] + Ties(t, key, k)
                else Ties(t, key, k))
    decreases |t|
  {
    if t == [] || key(t[0]) <= key(x) {
      assert ([x] + t)[1..] == t;
    } else {
      var r := Insert(x, t, key);
      assert r[1..] == Insert(x, t[1..], key);
      InsertTies(x, t[1..], key, k);
      if key(x) == k {
        assert key(t[0]) > k;
        assert forall j :: 0 <= j < |t[1..]| && key(t[1..][j]) == k ==> key(t[1..][j]) <= key(x);
      }
    }
  }

  /** Sorting keeps the elements of each key in their original order. */
  lemma {:induction false} SortKeepsTies<T>(s: seq<T>, key: T -> int, k: int)
    ensures Ties(SortDesc(s, key), key, k) == Ties(s, key, k)
    decreases |s|
  {
    if s != [] {
      SortKeepsTies(s[1..], key, k);
      InsertTies(s[0], SortDesc(s[1..], key), key, k);
    }
  }

  const TopCount := 5

  /** `.slice(0, 5)` of the sorted copy. */
  function Top<T>(s: seq<T>, key: T -> int): (r: seq<T>)
    ensures |r| == if |s| < TopCount then |s| else TopCount
    ensures SortedDesc(r, key)
    ensures multiset(r) <= multiset(s)
  {
    var sorted := SortDesc(s, key);
    var n := if |s| < TopCount then |s| else TopCount;
    assert sorted == sorted[..n] + sorted[n..];
    sorted[..n]
  }

  /** Nothing left out of the top list ranks above anything in it (and
      something is left out only when the list is full). */
  lemma TopIsBest<T>(s: seq<T>, key: T -> int, y: T)
    requires y in multiset(s) - multiset(Top(s, key))
    ensures |Top(s, key)| == TopCount
    ensures forall i :: 0 <= i < TopCount ==> key(y) <= key(Top(s, key)[i])
  {
    var sorted := SortDesc(s, key);
    var r := Top(s, key);
    var n := |r|;
    assert sorted == r + sorted[n..];
    assert multiset(sorted) == multiset(r) + multiset(sorted[n..]);
    assert y in sorted[n..];
    var j :| n <= j < |sorted| && sorted[j] == y;
    assert n == TopCount;
    assert forall i :: 0 <= i < n ==> r[i] == sorted[i];
  }

  lemma {:induction false} TiesPrefix<T>(s: seq<T>, key: T -> int, k: int, n: nat)
    requires n <= |s|
    ensures Ties(s[..n], key, k) <= Ties(s, key, k)
    decreases n
  {
    if n > 0 {
      assert s[..n][1..] == s[1..][..n - 1];
      TiesPrefix(s[1..], key, k, n - 1);
    }
  }

  /** The top list keeps tied elements in their original order: those of
      each key form a prefix of that key's elements in the input. */
  lemma TopKeepsTies<T>(s: seq<T>, key: T -> int, k: int)
    ensures Ties(Top(s, key), key, k) <= Ties(s, key, k)
  {
    var sorted := SortDesc(s, key);
    TiesPrefix(sorted, key, k, |Top(s, key)|);
    SortKeepsTies(s, key, k);
  }
}
