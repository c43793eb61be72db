/**
 * Order-preserving filtering of sequences, the model of JavaScript's
 * `Array.prototype.filter`, and the facts about it that the feed relies on.
 */
module Filtering {

  /** `r` is obtained from `s` by deleting elements, without reordering. */
  ghost predicate IsSubsequence<T>(r: seq<T>, s: seq<T>)
    decreases |s|
  {
    |r| == 0 ||
    (|s| > 0 && ((r[0] == s[0] && IsSubsequence(r[1..], s[1..])) || IsSubsequence(r, s[1..])))
  }

  /** No value occurs twice. */
  ghost predicate NoDuplicates<T>(s: seq<T>)
  {
    forall i, j :: 0 <= i < j < |s| ==> s[i] != s[j]
  }

  /** The elements of `s` that satisfy `p`, in their original order. */
  function Filter<T>(s: seq<T>, p: T -> bool): (r: seq<T>)
    ensures |r| <= |s|
    ensures forall x <- r :: x in s && p(x)
    ensures forall x <- s :: p(x) ==> x in r
    ensures IsSubsequence(r, s)
  {
    if |s| == 0 then []
    else if p(s[0]) then [s[0]] + Filter(s[1..], p)
    else Filter(s[1..], p)
  }

  /** Every sequence is a subsequence of itself. */
  lemma {:induction false} SubsequenceReflexive<T>(s: seq<T>)
    ensures IsSubsequence(s, s)
  {
    if |s| > 0 {
      SubsequenceReflexive(s[1..]);
    }
  }

  lemma {:induction false} SubsequenceMembers<T>(r: seq<T>, s: seq<T>)
    requires IsSubsequence(r, s)
    ensures forall x :: x in r ==> x in s
    decreases |s|
  {
    if |r| > 0 {
      if r[0] == s[0] && IsSubsequence(r[1..], s[1..]) {
        SubsequenceMembers(r[1..], s[1..]);
        assert forall x :: x in r ==> x == r[0] || x in r[1..];
      } else {
        SubsequenceMembers(r, s[1..]);
      }
    }
  }

  lemma {:induction false} SubsequenceTransitive<T>(a: seq<T>, b: seq<T>, c: seq<T>)
    requires IsSubsequence(a, b) && IsSubsequence(b, c)
    ensures IsSubsequence(a, c)
    decreases |c|
  {
    if |a| > 0 {
      if IsSubsequence(b, c[1..]) {
        SubsequenceTransitive(a, b, c[1..]);
      } else if a[0] == b[0] && IsSubsequence(a[1..], b[1..]) {
        SubsequenceTransitive(a[1..], b[1..], c[1..]);
      } else {
        SubsequenceTransitive(a, b[1..], c[1..]);
      }
    }
  }

  /** Deleting elements from a sequence without duplicates creates none. */
  lemma {:induction false} SubsequenceNoDuplicates<T>(r: seq<T>, s: seq<T>)
    requires IsSubsequence(r, s) && NoDuplicates(s)
    ensures NoDuplicates(r)
    decreases |s|
  {
    if |r| > 0 {
      assert NoDuplicates(s[1..]) by {
        forall i, j | 0 <= i < j < |s[1..]| ensures s[1..][i] != s[1..][j] {
          assert s[1..][i] == s[i + 1] && s[1..][j] == s[j + 1];
        }
      }
      if r[0] == s[0] && IsSubsequence(r[1..], s[1..]) {
        SubsequenceNoDuplicates(r[1..], s[1..]);
        SubsequenceMembers(r[1..], s[1..]);
        assert s[0] !in s[1..] by {
          forall k | 0 <= k < |s[1..]| ensures s[1..][k] != s[0] {
            assert s[1..][k] == s[k + 1];
          }
        }
        forall i, j | 0 <= i < j < |r| ensures r[i] != r[j] {
          if i == 0 {
            assert r[j] == r[1..][j - 1];
            assert r[j] in s[1..];
          } else {
            assert r[i] == r[1..][i - 1] && r[j] == r[1..][j - 1];
          }
        }
      } else {
        SubsequenceNoDuplicates(r, s[1..]);
      }
    }
  }

  /** Filtering depends only on what the predicate says about the elements present. */
  lemma {:induction false} FilterCongruent<T>(s: seq<T>, p: T -> bool, q: T -> bool)
    requires forall x :: x in s ==> p(x) == q(x)
    ensures Filter(s, p) == Filter(s, q)
  {
    if |s| > 0 {
      assert forall x :: x in s[1..] ==> x in s;
      FilterCongruent(s[1..], p, q);
    }
  }

  /** A predicate every element satisfies filters nothing out. */
  lemma {:induction false} FilterKeepsAll<T>(s: seq<T>, p: T -> bool)
    requires forall x :: x in s ==> p(x)
    ensures Filter(s, p) == s
  {
    if |s| > 0 {
      assert forall x :: x in s[1..] ==> x in s;
      FilterKeepsAll(s[1..], p);
    }
  }

  /** Without duplicates, every value occurs at most once in the multiset. */
  lemma {:induction false} NoDuplicatesCountsOne<T>(s: seq<T>)
    requires NoDuplicates(s)
    ensures forall x :: multiset(s)[x] <= 1
  {
    if |s| > 0 {
      assert NoDuplicates(s[1..]) by {
        forall i, j | 0 <= i < j < |s[1..]| ensures s[1..][i] != s[1..][j] {
          assert s[1..][i] == s[i + 1] && s[1..][j] == s[j + 1];
        }
      }
      NoDuplicatesCountsOne(s[1..]);
      assert s[0] !in s[1..] by {
        forall k | 0 <= k < |s[1..]| ensures s[1..][k] != s[0] {
          assert s[1..][k] == s[k + 1];
        }
      }
      assert s == [s[0]] + s[1..];
      assert multiset(s) == multiset{s[0]} + multiset(s[1..]);
    }
  }

  /** A value that occurs twice counts at least two in the multiset. */
  lemma TwiceCountsTwo<T>(s: seq<T>, i: int, j: int)
    requires 0 <= i < j < |s|
    ensures s[i] == s[j] ==> multiset(s)[s[i]] >= 2
  {
    assert s == s[..j] + s[j..];
    assert s[i] == s[..j][i];
    assert s[j] == s[j..][0];
    assert multiset(s) == multiset(s[..j]) + multiset(s[j..]);
  }

  /** Taking part of a multiset of distinct values keeps them distinct. */
  lemma SubMultisetNoDuplicates<T>(r: seq<T>, s: seq<T>)
    requires multiset(r) <= multiset(s) && NoDuplicates(s)
    ensures NoDuplicates(r)
  {
    NoDuplicatesCountsOne(s);
    forall i, j | 0 <= i < j < |r| ensures r[i] != r[j] {
      TwiceCountsTwo(r, i, j);
    }
  }
}
