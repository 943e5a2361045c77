/**
 How uniform the shuffle is: how many vectors of random words produce a given permutation when
 each pick is a word modulo the number of unsettled slots.
 */
module ShuffleCount {
  import opened Arithmetic
  import opened Shuffle

  /** A 4-byte word. */
  const WORDS: nat := 0x1_0000_0000

  /** Pick m is word m modulo the n - m slots still unsettled. */
  function PicksOf(n: nat, words: seq<nat>): (picks: seq<nat>)
    requires |words| < n
    ensures |picks| == |words| && ValidPicks(n, picks)
    decreases |words|
  {
    if words == [] then [] else [words[0] % n] + PicksOf(n - 1, words[1..])
  }

  // ----- finite sets of vectors -----

  function Below(bound: nat): (r: set<nat>)
    ensures forall w: nat :: w in r <==> w < bound
  {
    if bound == 0 then {} else Below(bound - 1) + {bound - 1}
  }

  function Residue(bound: nat, m: nat, r: nat): set<nat>
    requires m > 0
  {
    set w: nat | w < bound && w % m == r
  }

  ghost function Cons(heads: set<nat>, tails: set<seq<nat>>): set<seq<nat>> {
    set h, t | h in heads && t in tails :: [h] + t
  }

  /** All vectors of `m` words. */
  ghost function Vectors(m: nat, bound: nat): set<seq<nat>> {
    if m == 0 then {[]} else Cons(Below(bound), Vectors(m - 1, bound))
  }

  lemma {:induction false} InVectors(v: seq<nat>, m: nat, bound: nat)
    ensures v in Vectors(m, bound) <==> |v| == m && forall i :: 0 <= i < m ==> v[i] < bound
    decreases m
  {
    if m > 0 {
      if v in Vectors(m, bound) {
        var h, t :| h in Below(bound) && t in Vectors(m - 1, bound) && v == [h] + t;
        InVectors(t, m - 1, bound);
      }
      if |v| == m && forall i :: 0 <= i < m ==> v[i] < bound {
        InVectors(v[1..], m - 1, bound);
        assert v == [v[0]] + v[1..];
      }
    }
  }

  /** The vectors whose picks are the given ones: a product of residue classes. */
  ghost function Class(n: nat, picks: seq<nat>, bound: nat): set<seq<nat>>
    requires |picks| < n
    decreases |picks|
  {
    if picks == [] then {[]} else Cons(Residue(bound, n, picks[0]), Class(n - 1, picks[1..], bound))
  }

  lemma {:induction false} InClass(v: seq<nat>, n: nat, picks: seq<nat>, bound: nat)
    requires |picks| < n
    ensures v in Class(n, picks, bound) <==> v in Vectors(|picks|, bound) && |v| == |picks| && PicksOf(n, v) == picks
    decreases |picks|
  {
    InVectors(v, |picks|, bound);
    if picks != [] {
      InCons(v, Residue(bound, n, picks[0]), Class(n - 1, picks[1..], bound));
      if v != [] {
        InClass(v[1..], n - 1, picks[1..], bound);
        InVectors(v[1..], |picks| - 1, bound);
        if |v| == |picks| && v[0] < bound {
          HeadAndTail(v, n, picks, bound);
        }
      }
    }
  }

  lemma InCons(v: seq<nat>, heads: set<nat>, tails: set<seq<nat>>)
    ensures v in Cons(heads, tails) <==> v != [] && v[0] in heads && v[1..] in tails
  {
    if v in Cons(heads, tails) {
      var h, t :| h in heads && t in tails && v == [h] + t;
      assert v[1..] == t;
    }
    if v != [] && v[0] in heads && v[1..] in tails {
      assert v == [v[0]] + v[1..];
    }
  }

  lemma HeadAndTail(v: seq<nat>, n: nat, picks: seq<nat>, bound: nat)
    requires 0 < |v| == |picks| < n && v[0] < bound
    ensures PicksOf(n, v) == picks <==> v[0] in Residue(bound, n, picks[0]) && PicksOf(n - 1, v[1..]) == picks[1..]
  {
    assert PicksOf(n, v) == [v[0] % n] + PicksOf(n - 1, v[1..]);
    assert picks == [picks[0]] + picks[1..];
    assert PicksOf(n, v)[1..] == PicksOf(n - 1, v[1..]);
  }

  /** The word vectors whose shuffle of `s` is `t`. */
  ghost function Preimages<T>(s: seq<T>, t: seq<T>, bound: nat): set<seq<nat>>
    requires |s| > 0
  {
    set v | v in Vectors(|s| - 1, bound) && |v| == |s| - 1 && Settle(s, PicksOf(|s|, v)) == t
  }

  lemma PreimagesAreAClass<T>(s: seq<T>, t: seq<T>, bound: nat)
    requires Distinct(s) && multiset(s) == multiset(t) && |s| == |t| > 0
    ensures Preimages(s, t, bound) == Class(|s|, Unshuffle(s, t), bound)
  {
    var picks := Unshuffle(s, t);
    forall v
      ensures v in Preimages(s, t, bound) <==> v in Class(|s|, picks, bound)
    {
      InClass(v, |s|, picks, bound);
      if |v| == |s| - 1 {
        ShuffleIsBijection(s, t, PicksOf(|s|, v));
      }
    }
  }

  // ----- cardinalities -----

  lemma {:induction false} ConsSize(heads: set<nat>, tails: set<seq<nat>>)
    ensures |Cons(heads, tails)| == |heads| * |tails|
    decreases heads
  {
    if heads == {} {
      assert Cons(heads, tails) == {};
    } else {
      var h :| h in heads;
      var rest := heads - {h};
      ConsSize(rest, tails);
      ConsOne(h, tails);
      ConsSplit(heads, h, tails);
      assert |heads| == |rest| + 1;
      assert (|rest| + 1) * |tails| == |rest| * |tails| + |tails|;
    }
  }

  lemma ConsSplit(heads: set<nat>, h: nat, tails: set<seq<nat>>)
    requires h in heads
    ensures |Cons(heads, tails)| == |Cons(heads - {h}, tails)| + |Cons({h}, tails)|
  {
    var a, b := Cons(heads - {h}, tails), Cons({h}, tails);
    assert Cons(heads, tails) == a + b;
    forall v | v in a
      ensures v !in b
    {
      assert v[0] in heads - {h};
    }
    assert a !! b;
  }

  lemma {:induction false} ConsOne(h: nat, tails: set<seq<nat>>)
    ensures |Cons({h}, tails)| == |tails|
    decreases tails
  {
    if tails == {} {
      assert Cons({h}, tails) == {};
    } else {
      var t :| t in tails;
      var rest := tails - {t};
      ConsOne(h, rest);
      forall v
        ensures v in Cons({h}, tails) <==> v in Cons({h}, rest) + {[h] + t}
      {
        if v in Cons({h}, tails) {
          var t' :| t' in tails && v == [h] + t';
          assert t' == t || t' in rest;
        }
      }
      assert Cons({h}, tails) == Cons({h}, rest) + {[h] + t};
      assert [h] + t !in Cons({h}, rest) by {
        forall t' | t' in rest
          ensures [h] + t != [h] + t'
        {
          assert ([h] + t)[1..] == t && ([h] + t')[1..] == t';
        }
      }
    }
  }

  /** How many words below `bound` leave remainder `r` modulo `m`. */
  function Share(bound: nat, m: nat, r: nat): nat
    requires r < m
  {
    (bound + m - 1 - r) / m
  }

  lemma ResidueShift(b: nat, m: nat, r: nat)
    requires r < m
    ensures (b + m - r) % m == 0 <==> b % m == r
  {
    var q, c := b / m, b % m;
    assert b == q * m + c;
    if c >= r {
      assert b + m - r == (q + 1) * m + (c - r);
      DivIs(b + m - r, m, q + 1, c - r);
    } else {
      DivIs(b + m - r, m, q, c + m - r);
    }
  }

  lemma {:induction false} ResidueSize(bound: nat, m: nat, r: nat)
    requires r < m
    ensures |Residue(bound, m, r)| == Share(bound, m, r)
    decreases bound
  {
    if bound == 0 {
      assert Residue(bound, m, r) == {};
      DivIs(m - 1 - r, m, 0, m - 1 - r);
    } else {
      var b := bound - 1;
      ResidueSize(b, m, r);
      ResidueShift(b, m, r);
      DivStep(b + m - 1 - r, m);
      if b % m == r {
        assert Residue(bound, m, r) == Residue(b, m, r) + {b};
      } else {
        assert Residue(bound, m, r) == Residue(b, m, r);
      }
    }
  }

  /** The share of any remainder is the floor or the ceiling of bound / m. */
  lemma ShareBounds(bound: nat, m: nat, r: nat)
    requires r < m
    ensures bound / m <= Share(bound, m, r) <= (bound + m - 1) / m
  {
    DivMonotone(bound, bound + m - 1 - r, m);
    DivMonotone(bound + m - 1 - r, bound + m - 1, m);
  }

  // ----- products of factors -----

  function Product(factors: seq<nat>): nat {
    if factors == [] then 1 else factors[0] * Product(factors[1..])
  }

  predicate Pointwise(a: seq<nat>, b: seq<nat>) {
    |a| == |b| && forall i :: 0 <= i < |a| ==> a[i] <= b[i]
  }

  lemma {:induction false} ProductMonotone(a: seq<nat>, b: seq<nat>)
    requires Pointwise(a, b)
    ensures Product(a) <= Product(b)
    decreases |a|
  {
    if a != [] {
      ProductMonotone(a[1..], b[1..]);
      MulMonotone(a[0], Product(a[1..]), b[0], Product(b[1..]));
    }
  }

  /** The shares of the picks: pick m is one remainder modulo n - m. */
  function Shares(n: nat, picks: seq<nat>, bound: nat): (r: seq<nat>)
    requires ValidPicks(n, picks) || picks == []
    ensures |r| == |picks|
    decreases |picks|
  {
    if picks == [] then []
    else
      TailPicks(n, picks);
      [Share(bound, n, picks[0])] + Shares(n - 1, picks[1..], bound)
  }

  /** floor(bound / (i + 1)) for the k values i = n - 1, n - 2, ... */
  function Floors(n: nat, k: nat, bound: nat): (r: seq<nat>)
    requires k <= n
    ensures |r| == k
    decreases k
  {
    if k == 0 then [] else [bound / n] + Floors(n - 1, k - 1, bound)
  }

  /** ceil(bound / (i + 1)) for the same values. */
  function Ceils(n: nat, k: nat, bound: nat): (r: seq<nat>)
    requires k <= n
    ensures |r| == k
    decreases k
  {
    if k == 0 then [] else [(bound + n - 1) / n] + Ceils(n - 1, k - 1, bound)
  }

  lemma {:induction false} ClassSize(n: nat, picks: seq<nat>, bound: nat)
    requires ValidPicks(n, picks)
    ensures |Class(n, picks, bound)| == Product(Shares(n, picks, bound))
    decreases |picks|
  {
    if picks != [] {
      TailPicks(n, picks);
      ClassSize(n - 1, picks[1..], bound);
      ResidueSize(bound, n, picks[0]);
      ConsSize(Residue(bound, n, picks[0]), Class(n - 1, picks[1..], bound));
      assert Shares(n, picks, bound)[1..] == Shares(n - 1, picks[1..], bound);
    }
  }

  lemma {:induction false} SharesBetween(n: nat, picks: seq<nat>, bound: nat)
    requires ValidPicks(n, picks)
    ensures Pointwise(Floors(n, |picks|, bound), Shares(n, picks, bound))
    ensures Pointwise(Shares(n, picks, bound), Ceils(n, |picks|, bound))
    decreases |picks|
  {
    if picks != [] {
      TailPicks(n, picks);
      SharesBetween(n - 1, picks[1..], bound);
      ShareBounds(bound, n, picks[0]);
    }
  }

  lemma ProductBounds(n: nat, picks: seq<nat>, bound: nat)
    requires ValidPicks(n, picks)
    ensures Product(Floors(n, |picks|, bound)) <= Product(Shares(n, picks, bound)) <= Product(Ceils(n, |picks|, bound))
  {
    SharesBetween(n, picks, bound);
    ProductMonotone(Floors(n, |picks|, bound), Shares(n, picks, bound));
    ProductMonotone(Shares(n, picks, bound), Ceils(n, |picks|, bound));
  }

  /** The exact bias of the full shuffle: the word vectors that produce a given permutation number a
      product of residue shares, between the product of the floors and the product of the ceilings. */
  lemma PermutationCount<T>(s: seq<T>, t: seq<T>)
    requires Distinct(s) && multiset(s) == multiset(t) && |s| == |t| > 0
    ensures |Preimages(s, t, WORDS)| == Product(Shares(|s|, Unshuffle(s, t), WORDS))
    ensures Product(Floors(|s|, |s| - 1, WORDS)) <= |Preimages(s, t, WORDS)| <= Product(Ceils(|s|, |s| - 1, WORDS))
  {
    var picks := Unshuffle(s, t);
    PreimagesAreAClass(s, t, WORDS);
    ClassSize(|s|, picks, WORDS);
    ProductBounds(|s|, picks, WORDS);
  }
}
