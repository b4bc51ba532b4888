/** BIP 67 key ordering: compressed public keys sorted ascending by their raw
    bytes, as Python's bytes comparison and Go's bytes.Compare order them.
    Both scripts call a library sort; any sort that returns a sorted
    permutation returns `SortKeys`, because a sorted permutation is unique. */
module Bip67 {
  import opened Crypto

  /** Lexicographic "a < b" on byte strings (a proper prefix is smaller). */
  predicate LexLess(a: Bytes, b: Bytes)
    decreases |a|
    ensures a < b ==> LexLess(a, b)
    ensures LexLess(a, b) ==> !(b <= a)
  {
    if |a| == 0 then |b| > 0
    else if |b| == 0 then false
    else if a[0] != b[0] then a[0] < b[0]
    else LexLess(a[1..], b[1..])
  }

  /** At the first position where a and b differ, a holds the smaller byte. */
  ghost predicate SmallerAtFirstDifference(a: Bytes, b: Bytes) {
    exists k :: 0 <= k < |a| && k < |b| && a[..k] == b[..k] && a[k] < b[k]
  }

  /** bytes.Compare(a, b) < 0: a is a proper prefix of b, or a is smaller
      at the first position where the two differ. */
  lemma {:induction false} LexLessFirstDifference(a: Bytes, b: Bytes)
    ensures LexLess(a, b) <==> a < b || SmallerAtFirstDifference(a, b)
  {
    if |a| > 0 && |b| > 0 {
      if a[0] != b[0] {
        FirstDifferenceAtHead(a, b);
      } else {
        LexLessFirstDifference(a[1..], b[1..]);
        FirstDifferenceShift(a, b);
      }
    }
  }

  lemma FirstDifferenceAtHead(a: Bytes, b: Bytes)
    requires |a| > 0 && |b| > 0 && a[0] != b[0]
    ensures SmallerAtFirstDifference(a, b) <==> a[0] < b[0]
    ensures !(a < b)
  {
    assert a[..0] == b[..0];
    forall k | 0 <= k < |a| && k < |b| && a[..k] == b[..k]
      ensures k == 0
    {
    }
  }

  /** Equal heads: both the prefix and the first-difference relation carry
      over to the tails. */
  lemma FirstDifferenceShift(a: Bytes, b: Bytes)
    requires |a| > 0 && |b| > 0 && a[0] == b[0]
    ensures SmallerAtFirstDifference(a, b) <==> SmallerAtFirstDifference(a[1..], b[1..])
    ensures a < b <==> a[1..] < b[1..]
  {
    if SmallerAtFirstDifference(a, b) {
      FirstDifferenceToTail(a, b);
    }
    if SmallerAtFirstDifference(a[1..], b[1..]) {
      FirstDifferenceFromTail(a, b);
    }
    assert a == [a[0]] + a[1..] && b == [b[0]] + b[1..];
  }

  lemma FirstDifferenceToTail(a: Bytes, b: Bytes)
    requires |a| > 0 && |b| > 0 && a[0] == b[0] && SmallerAtFirstDifference(a, b)
    ensures SmallerAtFirstDifference(a[1..], b[1..])
  {
    var a', b' := a[1..], b[1..];
    var k :| 0 <= k < |a| && k < |b| && a[..k] == b[..k] && a[k] < b[k];
    assert k > 0;
    assert a'[..k - 1] == a[1..k] == a[..k][1..];
    assert b'[..k - 1] == b[1..k] == b[..k][1..];
    assert a'[k - 1] < b'[k - 1];
  }

  lemma FirstDifferenceFromTail(a: Bytes, b: Bytes)
    requires |a| > 0 && |b| > 0 && a[0] == b[0] && SmallerAtFirstDifference(a[1..], b[1..])
    ensures SmallerAtFirstDifference(a, b)
  {
    var a', b' := a[1..], b[1..];
    var k :| 0 <= k < |a'| && k < |b'| && a'[..k] == b'[..k] && a'[k] < b'[k];
    assert a[..k + 1] == [a[0]] + a'[..k] == [b[0]] + b'[..k] == b[..k + 1];
    assert a[k + 1] < b[k + 1];
  }

  predicate LexLeq(a: Bytes, b: Bytes) {
    a == b || LexLess(a, b)
  }

  lemma {:induction false} LexLessIrreflexive(a: Bytes)
    ensures !LexLess(a, a)
  {
    if |a| > 0 {
      LexLessIrreflexive(a[1..]);
    }
  }

  lemma {:induction false} LexLessAsymmetric(a: Bytes, b: Bytes)
    requires LexLess(a, b)
    ensures !LexLess(b, a)
  {
    if |a| > 0 && |b| > 0 && a[0] == b[0] {
      LexLessAsymmetric(a[1..], b[1..]);
    }
  }

  lemma {:induction false} LexLessTransitive(a: Bytes, b: Bytes, c: Bytes)
    requires LexLess(a, b) && LexLess(b, c)
    ensures LexLess(a, c)
  {
    if |a| > 0 && |b| > 0 && |c| > 0 && a[0] == b[0] && b[0] == c[0] {
      LexLessTransitive(a[1..], b[1..], c[1..]);
    }
  }

  lemma {:induction false} LexLessTotal(a: Bytes, b: Bytes)
    requires a != b
    ensures LexLess(a, b) || LexLess(b, a)
  {
    if |a| > 0 && |b| > 0 && a[0] == b[0] {
      assert a == [a[0]] + a[1..] && b == [b[0]] + b[1..];
      LexLessTotal(a[1..], b[1..]);
    }
  }

  lemma LexLeqTransitive(a: Bytes, b: Bytes, c: Bytes)
    requires LexLeq(a, b) && LexLeq(b, c)
    ensures LexLeq(a, c)
  {
    if a != b && b != c {
      LexLessTransitive(a, b, c);
    }
  }

  lemma LexLeqAntisymmetric(a: Bytes, b: Bytes)
    requires LexLeq(a, b) && LexLeq(b, a)
    ensures a == b
  {
    if a != b {
      LexLessAsymmetric(a, b);
    }
  }

  /** Ascending order: no later key is smaller than an earlier one. */
  predicate Sorted(s: seq<PubKey>) {
    forall i, j :: 0 <= i < j < |s| ==> LexLeq(s[i], s[j])
  }

  /** Inserts k before the first key that is not smaller than it. */
  function Insert(k: PubKey, s: seq<PubKey>): (r: seq<PubKey>)
    ensures multiset(r) == multiset(s) + multiset{k}
  {
    if s == [] then [k]
    else if LexLess(s[0], k) then
      assert s == [s[0]] + s[1..];
      [s[0]] + Insert(k, s[1..])
    else [k] + s
  }

  lemma {:induction false} InsertSorted(k: PubKey, s: seq<PubKey>)
    requires Sorted(s)
    ensures Sorted(Insert(k, s))
  {
    if s == [] {
    } else if LexLess(s[0], k) {
      var rest := Insert(k, s[1..]);
      InsertSorted(k, s[1..]);
      forall j | 0 <= j < |rest|
        ensures LexLeq(s[0], rest[j])
      {
        assert rest[j] in multiset(rest);
        if rest[j] != k {
          assert rest[j] in multiset(s[1..]);
          var m :| 0 <= m < |s[1..]| && s[1..][m] == rest[j];
          assert s[m + 1] == rest[j];
        }
      }
      var r := [s[0]] + rest;
      forall i, j | 0 <= i < j < |r|
        ensures LexLeq(r[i], r[j])
      {
        if i > 0 {
          assert r[i] == rest[i - 1] && r[j] == rest[j - 1];
        } else {
          assert r[j] == rest[j - 1];
        }
      }
    } else {
      if k != s[0] {
        LexLessTotal(k, s[0]);
      }
      var r := [k] + s;
      forall i, j | 0 <= i < j < |r|
        ensures LexLeq(r[i], r[j])
      {
        if i == 0 && j > 1 {
          LexLeqTransitive(k, s[0], s[j - 1]);
        }
      }
    }
  }

  /** Insertion sort: the sorted permutation of the keys. */
  function SortKeys(s: seq<PubKey>): (r: seq<PubKey>)
    ensures multiset(r) == multiset(s)
    ensures Sorted(r)
  {
    if s == [] then []
    else
      assert s == [s[0]] + s[1..];
      var tail := SortKeys(s[1..]);
      InsertSorted(s[0], tail);
      Insert(s[0], tail)
  }

  /** Sorted permutations of each other start with the same key. */
  lemma SortedHeadsEqual(a: seq<PubKey>, b: seq<PubKey>)
    requires Sorted(a) && Sorted(b) && multiset(a) == multiset(b) && a != []
    ensures b != [] && a[0] == b[0]
  {
    assert a[0] in multiset(a);
    assert a[0] in multiset(b);
    var j :| 0 <= j < |b| && b[j] == a[0];
    assert b[0] in multiset(a);
    var i :| 0 <= i < |a| && a[i] == b[0];
    assert LexLeq(a[0], a[i]);
    assert LexLeq(b[0], b[j]);
    LexLeqAntisymmetric(a[0], b[0]);
  }

  lemma SortedTail(a: seq<PubKey>)
    requires Sorted(a) && a != []
    ensures Sorted(a[1..]) && multiset(a[1..]) == multiset(a) - multiset{a[0]}
  {
    assert a == [a[0]] + a[1..];
    forall i, j | 0 <= i < j < |a[1..]| ensures LexLeq(a[1..][i], a[1..][j]) {
      assert a[1..][i] == a[i + 1] && a[1..][j] == a[j + 1];
    }
  }

  /** Two sorted sequences with the same keys are the same sequence. */
  lemma {:induction false} SortedPermutationUnique(a: seq<PubKey>, b: seq<PubKey>)
    requires Sorted(a) && Sorted(b)
    requires multiset(a) == multiset(b)
    ensures a == b
  {
    if a != [] {
      SortedHeadsEqual(a, b);
      SortedTail(a);
      SortedTail(b);
      SortedPermutationUnique(a[1..], b[1..]);
      assert a == [a[0]] + a[1..] && b == [b[0]] + b[1..];
    }
  }

  /** Whatever algorithm the library sort uses, a sorted permutation of the
      keys is exactly SortKeys of them. */
  lemma AnySortIsSortKeys(s: seq<PubKey>, r: seq<PubKey>)
    requires Sorted(r) && multiset(r) == multiset(s)
    ensures r == SortKeys(s)
  {
    SortedPermutationUnique(r, SortKeys(s));
  }

  /** The sorted order does not depend on the order the keys came in. */
  lemma SortKeysOrderInvariant(a: seq<PubKey>, b: seq<PubKey>)
    requires multiset(a) == multiset(b)
    ensures SortKeys(a) == SortKeys(b)
  {
    SortedPermutationUnique(SortKeys(a), SortKeys(b));
  }
}
