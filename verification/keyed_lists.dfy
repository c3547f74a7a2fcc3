/** The three list transformations the store's actions are built from, over
    any record type whose identity is given by a key function: appending
    (`[...xs, x]`), updating by key (`xs.map(x => key(x) === k ? f(x) : x)`)
    and removing by key (`xs.filter(x => key(x) !== k)`). */
module KeyedLists {

  /** `a` is obtained from `b` by deleting elements, keeping the order. */
  ghost predicate IsSubsequence<T>(a: seq<T>, b: seq<T>)
    decreases |b|
  {
    |a| <= |b| &&
    (|a| == 0 || (a[0] == b[0] && IsSubsequence(a[1..], b[1..])) || IsSubsequence(a, b[1..]))
  }

  /** `[...s, x]` */
  function Append<T>(s: seq<T>, x: T): (r: seq<T>)
    ensures |r| == |s| + 1
    ensures r[..|s|] == s
    ensures r[|s|] == x
  {
    s + [x]
  }

  /** `s.map(x => key(x) === k ? f(x) : x)` */
  function UpdateWhere<T, K(==)>(s: seq<T>, key: T -> K, k: K, f: T -> T): (r: seq<T>)
    ensures |r| == |s|
    ensures forall i :: 0 <= i < |s| && key(s[i]) != k ==> r[i] == s[i]
    ensures forall i :: 0 <= i < |s| && key(s[i]) == k ==> r[i] == f(s[i])
  {
    seq(|s|, i requires 0 <= i < |s| => if key(s[i]) == k then f(s[i]) else s[i])
  }

  /** `s.filter(x => key(x) !== k)` */
  function RemoveWhere<T, K(==)>(s: seq<T>, key: T -> K, k: K): (r: seq<T>)
    ensures |r| <= |s|
    ensures forall i :: 0 <= i < |r| ==> key(r[i]) != k
    ensures forall i :: 0 <= i < |r| ==> r[i] in s
    ensures forall i :: 0 <= i < |s| && key(s[i]) != k ==> s[i] in r
    ensures IsSubsequence(r, s)
    decreases |s|
  {
    if |s| == 0 then []
    else if key(s[0]) == k then RemoveWhere(s[1..], key, k)
    else [s[0]] + RemoveWhere(s[1..], key, k)
  }

  /** A list in which no element has key `k` is left as it is by an update on `k`. */
  lemma UpdateAbsentIsIdentity<T, K>(s: seq<T>, key: T -> K, k: K, f: T -> T)
    requires forall i :: 0 <= i < |s| ==> key(s[i]) != k
    ensures UpdateWhere(s, key, k, f) == s
  {
  }

  /** A list in which no element has key `k` is left as it is by a removal of `k`. */
  lemma {:induction false} RemoveAbsentIsIdentity<T, K>(s: seq<T>, key: T -> K, k: K)
    requires forall i :: 0 <= i < |s| ==> key(s[i]) != k
    ensures RemoveWhere(s, key, k) == s
    decreases |s|
  {
    if |s| > 0 {
      RemoveAbsentIsIdentity(s[1..], key, k);
      assert [s[0]] + s[1..] == s;
    }
  }

  /** Removing the same key twice is removing it once. */
  lemma {:induction false} RemoveIdempotent<T, K>(s: seq<T>, key: T -> K, k: K)
    ensures RemoveWhere(RemoveWhere(s, key, k), key, k) == RemoveWhere(s, key, k)
  {
    RemoveAbsentIsIdentity(RemoveWhere(s, key, k), key, k);
  }

  /** Removal distributes over concatenation. */
  lemma {:induction false} RemoveConcat<T, K>(a: seq<T>, b: seq<T>, key: T -> K, k: K)
    ensures RemoveWhere(a + b, key, k) == RemoveWhere(a, key, k) + RemoveWhere(b, key, k)
    decreases |a|
  {
    if |a| == 0 {
      assert a + b == b;
    } else {
      assert (a + b)[0] == a[0];
      assert (a + b)[1..] == a[1..] + b;
      RemoveConcat(a[1..], b, key, k);
    }
  }

  /** Removing the key of an element just appended, when no earlier element
      carried it, gives back the list before the append. */
  lemma RemoveUndoesAppend<T, K>(s: seq<T>, x: T, key: T -> K)
    requires forall i :: 0 <= i < |s| ==> key(s[i]) != key(x)
    ensures RemoveWhere(Append(s, x), key, key(x)) == s
  {
    RemoveConcat(s, [x], key, key(x));
    RemoveAbsentIsIdentity(s, key, key(x));
    assert RemoveWhere([x], key, key(x)) == [];
  }

  /** Removal drops something exactly when some element carries the key. */
  lemma {:induction false} RemoveShrinksIffPresent<T, K>(s: seq<T>, key: T -> K, k: K)
    ensures |RemoveWhere(s, key, k)| < |s| <==> exists i :: 0 <= i < |s| && key(s[i]) == k
    decreases |s|
  {
    if |s| > 0 {
      RemoveShrinksIffPresent(s[1..], key, k);
      if exists i :: 0 <= i < |s[1..]| && key(s[1..][i]) == k {
        var i :| 0 <= i < |s[1..]| && key(s[1..][i]) == k;
        assert key(s[i + 1]) == k;
      }
      if exists i :: 0 <= i < |s| && key(s[i]) == k {
        var i :| 0 <= i < |s| && key(s[i]) == k;
        if i > 0 {
          assert key(s[1..][i - 1]) == k;
        }
      }
    }
  }

  /** Every copy of an element whose key differs from `k` survives a removal:
      its number of occurrences is unchanged. */
  lemma {:induction false} RemoveKeepsCount<T, K>(s: seq<T>, key: T -> K, k: K, x: T)
    requires key(x) != k
    ensures multiset(RemoveWhere(s, key, k))[x] == multiset(s)[x]
    decreases |s|
  {
    if |s| > 0 {
      var rest := RemoveWhere(s[1..], key, k);
      RemoveKeepsCount(s[1..], key, k, x);
      assert s == [s[0]] + s[1..];
      assert multiset(s)[x] == multiset{s[0]}[x] + multiset(s[1..])[x];
      if key(s[0]) != k {
        assert RemoveWhere(s, key, k) == [s[0]] + rest;
        assert multiset(RemoveWhere(s, key, k))[x] == multiset{s[0]}[x] + multiset(rest)[x];
      } else {
        assert RemoveWhere(s, key, k) == rest;
        assert multiset{s[0]}[x] == 0;
      }
    }
  }

  /** `RemoveKeepsCount` for every value whose key differs from `k`. */
  lemma RemoveKeepsCounts<T, K>(s: seq<T>, key: T -> K, k: K)
    ensures forall x :: key(x) != k ==> multiset(RemoveWhere(s, key, k))[x] == multiset(s)[x]
  {
    forall x | key(x) != k
      ensures multiset(RemoveWhere(s, key, k))[x] == multiset(s)[x]
    {
      RemoveKeepsCount(s, key, k, x);
    }
  }

  /** Where a kept element lands: the number of kept elements before it. */
  function KeptRank<T, K(==)>(s: seq<T>, key: T -> K, k: K, i: nat): (r: nat)
    requires i <= |s|
  {
    |RemoveWhere(s[..i], key, k)|
  }

  /** Every element whose key differs from `k` survives a removal at position
      `KeptRank`, and two such elements keep their relative order. */
  lemma RemoveKeepsOrder<T, K>(s: seq<T>, key: T -> K, k: K, i: nat, j: nat)
    requires i < j < |s|
    requires key(s[i]) != k && key(s[j]) != k
    ensures KeptRank(s, key, k, i) < KeptRank(s, key, k, j) < |RemoveWhere(s, key, k)|
    ensures RemoveWhere(s, key, k)[KeptRank(s, key, k, i)] == s[i]
    ensures RemoveWhere(s, key, k)[KeptRank(s, key, k, j)] == s[j]
  {
    RemoveLandsAtRank(s, key, k, i);
    RemoveLandsAtRank(s, key, k, j);
    KeptRankGrows(s, key, k, i, j);
  }

  /** A kept element at index `i` raises the rank of every later index. */
  lemma {:induction false} KeptRankGrows<T, K>(s: seq<T>, key: T -> K, k: K, i: nat, j: nat)
    requires i < j <= |s|
    requires key(s[i]) != k
    ensures KeptRank(s, key, k, i) < KeptRank(s, key, k, j)
  {
    var pre, mid := s[..i], s[i..j];
    assert s[..j] == pre + mid;
    RemoveConcat(pre, mid, key, k);
    assert mid[0] == s[i];
    assert RemoveWhere(mid, key, k) == [mid[0]] + RemoveWhere(mid[1..], key, k);
  }

  /** The kept element at index `i` is found at index `KeptRank(s, key, k, i)`
      of the result. */
  lemma {:induction false} RemoveLandsAtRank<T, K>(s: seq<T>, key: T -> K, k: K, i: nat)
    requires i < |s| && key(s[i]) != k
    ensures KeptRank(s, key, k, i) < |RemoveWhere(s, key, k)|
    ensures RemoveWhere(s, key, k)[KeptRank(s, key, k, i)] == s[i]
  {
    assert s == s[..i] + s[i..];
    RemoveConcat(s[..i], s[i..], key, k);
    assert s[i..][0] == s[i];
  }
}
