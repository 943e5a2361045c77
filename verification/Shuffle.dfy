/**
 Fisher-Yates as a function of the picks: at each step the last unsettled slot is swapped with a
 picked one and thereby settled. The picks correspond one-to-one with the permutations.
 */
module Shuffle {

  function Swap<T>(s: seq<T>, i: nat, j: nat): (r: seq<T>)
    requires i < |s| && j < |s|
    ensures |r| == |s|
  {
    s[i := s[j]][j := s[i]]
  }

  /** Pick number m chooses among the n - m slots still unsettled. */
  predicate ValidPicks(n: nat, picks: seq<nat>) {
    |picks| < n && forall m :: 0 <= m < |picks| ==> picks[m] < n - m
  }

  lemma TailPicks(n: nat, picks: seq<nat>)
    requires ValidPicks(n, picks) && picks != []
    ensures ValidPicks(n - 1, picks[1..])
  {
  }

  /** The unsettled slots after the first step. */
  function Rest<T>(s: seq<T>, pick: nat): (r: seq<T>)
    requires pick < |s|
    ensures |r| == |s| - 1
  {
    Swap(s, |s| - 1, pick)[..|s| - 1]
  }

  /** The array after one step per pick. */
  function Settle<T>(s: seq<T>, picks: seq<nat>): (r: seq<T>)
    requires ValidPicks(|s|, picks) || picks == []
    ensures |r| == |s|
    decreases |picks|
  {
    if picks == [] then s
    else
      TailPicks(|s|, picks);
      Settle(Rest(s, picks[0]), picks[1..]) + [s[picks[0]]]
  }

  // ----- permutations -----

  lemma {:induction false} SwapMultiset<T>(s: seq<T>, i: nat, j: nat)
    requires i < |s| && j < |s|
    ensures multiset(Swap(s, i, j)) == multiset(s)
  {
  }

  lemma RestMultiset<T>(s: seq<T>, pick: nat)
    requires pick < |s|
    ensures multiset(s) == multiset(Rest(s, pick)) + multiset{s[pick]}
  {
    SwapMultiset(s, |s| - 1, pick);
    var t := Swap(s, |s| - 1, pick);
    assert t == t[..|s| - 1] + [t[|s| - 1]];
  }

  /** A shuffle loses and duplicates nothing. */
  lemma {:induction false} SettlePermutes<T>(s: seq<T>, picks: seq<nat>)
    requires ValidPicks(|s|, picks) || picks == []
    ensures multiset(Settle(s, picks)) == multiset(s)
    decreases |picks|
  {
    if picks != [] {
      TailPicks(|s|, picks);
      RestMultiset(s, picks[0]);
      SettlePermutes(Rest(s, picks[0]), picks[1..]);
    }
  }

  // ----- a partial shuffle is a prefix of the full one -----

  /** Later picks leave the settled slots alone. */
  lemma {:induction false} SettledStays<T>(s: seq<T>, picks: seq<nat>, k: nat)
    requires ValidPicks(|s|, picks) && k <= |picks|
    ensures ValidPicks(|s|, picks[..k])
    ensures Settle(s, picks)[|s| - k..] == Settle(s, picks[..k])[|s| - k..]
    decreases |picks|
  {
    if k > 0 {
      TailPicks(|s|, picks);
      SettledStays(Rest(s, picks[0]), picks[1..], k - 1);
      assert picks[..k][1..] == picks[1..][..k - 1];
      var n := |s|;
      var a, b := Settle(Rest(s, picks[0]), picks[1..]), Settle(Rest(s, picks[0]), picks[1..][..k - 1]);
      assert Settle(s, picks)[n - k..] == a[n - k..] + [s[picks[0]]];
      assert Settle(s, picks[..k])[n - k..] == b[n - k..] + [s[picks[0]]];
    }
  }

  // ----- picks and permutations, one to one -----

  ghost predicate Distinct<T>(s: seq<T>) {
    forall i, j :: 0 <= i < j < |s| ==> s[i] != s[j]
  }

  lemma RestDistinct<T>(s: seq<T>, pick: nat)
    requires Distinct(s) && pick < |s|
    ensures Distinct(Rest(s, pick)) && s[pick] !in Rest(s, pick)
  {
  }

  /** The position of `x`. */
  function Find<T(==)>(s: seq<T>, x: T): (i: nat)
    requires x in s
    ensures i < |s| && s[i] == x
  {
    if s[0] == x then 0 else 1 + Find(s[1..], x)
  }

  /** The picks that turn `s` into `t`. */
  function Unshuffle<T(==)>(s: seq<T>, t: seq<T>): (picks: seq<nat>)
    requires multiset(s) == multiset(t) && |s| == |t| > 0
    ensures |picks| == |s| - 1 && ValidPicks(|s|, picks)
    decreases |s|
  {
    if |s| == 1 then []
    else
      var last := t[|t| - 1];
      InMultiset(s, t);
      var p := Find(s, last);
      DropLast(s, t, p);
      [p] + Unshuffle(Rest(s, p), t[..|t| - 1])
  }

  lemma InMultiset<T>(s: seq<T>, t: seq<T>)
    requires multiset(s) == multiset(t) && t != []
    ensures t[|t| - 1] in s
  {
    assert t[|t| - 1] in multiset(t);
  }

  lemma DropLast<T>(s: seq<T>, t: seq<T>, p: nat)
    requires multiset(s) == multiset(t) && |s| == |t| > 0 && p < |s| && s[p] == t[|t| - 1]
    ensures multiset(Rest(s, p)) == multiset(t[..|t| - 1])
  {
    RestMultiset(s, p);
    var front, x := t[..|t| - 1], multiset{s[p]};
    assert t == front + [t[|t| - 1]];
    assert multiset(Rest(s, p)) == (multiset(Rest(s, p)) + x) - x;
    assert multiset(front) == (multiset(front) + x) - x;
  }

  /** Every arrangement is reached by some picks. */
  lemma {:induction false} ShuffleReaches<T>(s: seq<T>, t: seq<T>)
    requires multiset(s) == multiset(t) && |s| == |t| > 0
    ensures Settle(s, Unshuffle(s, t)) == t
    decreases |s|
  {
    if |s| == 1 {
      assert multiset(t) == multiset{t[0]} by { assert t == [t[0]]; }
      assert multiset(s) == multiset{s[0]} by { assert s == [s[0]]; }
      assert s[0] in multiset(s);
    } else {
      var n := |s|;
      InMultiset(s, t);
      var p := Find(s, t[n - 1]);
      DropLast(s, t, p);
      var tail := Unshuffle(Rest(s, p), t[..n - 1]);
      assert ([p] + tail)[1..] == tail;
      ShuffleReaches(Rest(s, p), t[..n - 1]);
      assert t == t[..n - 1] + [t[n - 1]];
    }
  }

  /** The settled slots determine the picks: different picks settle different values. */
  lemma {:induction false} SettledDeterminesPicks<T>(s: seq<T>, p: seq<nat>, q: seq<nat>)
    requires Distinct(s) && ValidPicks(|s|, p) && ValidPicks(|s|, q) && |p| == |q|
    requires Settle(s, p)[|s| - |p|..] == Settle(s, q)[|s| - |q|..]
    ensures p == q
    decreases |p|
  {
    if p != [] {
      var n := |s|;
      assert Settle(s, p)[n - 1] == Settle(s, p)[n - |p|..][|p| - 1];
      assert Settle(s, q)[n - 1] == Settle(s, q)[n - |p|..][|p| - 1];
      assert s[p[0]] == s[q[0]];
      assert p[0] == q[0];
      TailPicks(n, p);
      TailPicks(n, q);
      RestDistinct(s, p[0]);
      var a, b := Settle(Rest(s, p[0]), p[1..]), Settle(Rest(s, q[0]), q[1..]);
      assert Settle(s, p)[n - |p|..] == a[n - |p|..] + [s[p[0]]];
      assert Settle(s, q)[n - |p|..] == b[n - |p|..] + [s[q[0]]];
      assert a[n - |p|..] == Settle(s, p)[n - |p|..][..|p| - 1] == b[n - |p|..];
      SettledDeterminesPicks(Rest(s, p[0]), p[1..], q[1..]);
      assert p == [p[0]] + p[1..] && q == [q[0]] + q[1..];
    }
  }

  /** The bijection: the picks of a full shuffle that produce `t` are exactly `Unshuffle(s, t)`. */
  lemma ShuffleIsBijection<T>(s: seq<T>, t: seq<T>, picks: seq<nat>)
    requires Distinct(s) && multiset(s) == multiset(t) && |s| == |t| > 0
    requires |picks| == |s| - 1 && ValidPicks(|s|, picks)
    ensures Settle(s, picks) == t <==> picks == Unshuffle(s, t)
  {
    ShuffleReaches(s, t);
    if Settle(s, picks) == t {
      SettledDeterminesPicks(s, picks, Unshuffle(s, t));
    }
  }
}
