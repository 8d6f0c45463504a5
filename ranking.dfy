/**
 * Both rule engines of the dashboard emit their entries in a fixed check
 * order. This module states that order as a rank on the entries and proves
 * the two facts the engines rely on: a list in strictly increasing rank is
 * no longer than the number of ranks, and it is determined by the set of
 * entries it holds.
 */
module Ranking {

  /** `s` lists its entries in strictly increasing rank (so no rank repeats). */
  predicate StrictlyRanked<T>(s: seq<T>, rank: T -> nat)
  {
    forall i, j :: 0 <= i < j < |s| ==> rank(s[i]) < rank(s[j])
  }

  /** A strictly ranked list whose ranks all lie below `bound` has at most `bound` entries. */
  lemma {:induction false} RankedLengthBound<T>(s: seq<T>, rank: T -> nat, bound: nat)
    requires StrictlyRanked(s, rank)
    requires forall x :: x in s ==> rank(x) < bound
    ensures |s| <= bound
  {
    if |s| > 0 {
      var last := s[|s| - 1];
      var init := s[..|s| - 1];
      assert StrictlyRanked(init, rank);
      forall x | x in init
        ensures rank(x) < rank(last)
      {
        var i :| 0 <= i < |init| && init[i] == x;
        assert s[i] == x;
      }
      RankedLengthBound(init, rank, rank(last));
    }
  }

  /** In a strictly ranked list the head does not occur again in the tail. */
  lemma TailMembers<T>(s: seq<T>, rank: T -> nat, x: T)
    requires StrictlyRanked(s, rank) && s != []
    ensures x in s[1..] <==> x in s && x != s[0]
  {
    if x in s[1..] {
      var k :| 0 <= k < |s| - 1 && s[1..][k] == x;
      assert s[k + 1] == x;
    }
    if x in s && x != s[0] {
      var k :| 0 <= k < |s| && s[k] == x;
      assert s[1..][k - 1] == x;
    }
  }

  /** Two strictly ranked lists holding the same entries are the same list. */
  lemma {:induction false} RankedUnique<T>(a: seq<T>, b: seq<T>, rank: T -> nat)
    requires StrictlyRanked(a, rank) && StrictlyRanked(b, rank)
    requires forall x :: x in a <==> x in b
    ensures a == b
  {
    if a != [] {
      assert a[0] in b;
    }
    if b != [] {
      assert b[0] in a;
    }
    if a != [] && b != [] {
      var i :| 0 <= i < |a| && a[i] == b[0];
      var j :| 0 <= j < |b| && b[j] == a[0];
      assert a[0] == b[0];
      forall x
        ensures x in a[1..] <==> x in b[1..]
      {
        TailMembers(a, rank, x);
        TailMembers(b, rank, x);
      }
      assert StrictlyRanked(a[1..], rank);
      assert StrictlyRanked(b[1..], rank);
      RankedUnique(a[1..], b[1..], rank);
      assert a == [a[0]] + a[1..];
      assert b == [b[0]] + b[1..];
    }
  }
}
