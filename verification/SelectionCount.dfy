/**
 How uniform a partial draw is: how many vectors of random words make the decoder return a given
 ordered selection. With k < n the draw uses k words, and with k = n one word less.
 */
module SelectionCount {
  import opened Octets
  import opened Arithmetic
  import opened RandomBytes
  import opened Shuffle
  import opened ShuffleCount
  import opened Decoders
  import opened DecoderLaws

  /** `t` lists different elements of `s`. */
  ghost predicate IsSelection<T(!new)>(s: seq<T>, t: seq<T>) {
    Distinct(t) && |t| <= |s| && forall i :: 0 <= i < |t| ==> t[i] in s
  }

  /** What the partial shuffle returns for the given words: the settled slots, the first settled first. */
  function Picked<T>(s: seq<T>, words: seq<nat>, k: nat): seq<T>
    requires |words| < |s| && k <= |s|
  {
    Top(Settle(s, PicksOf(|s|, words)), k)
  }

  // ----- the picks of a selection -----

  lemma RestKeepsOthers<T>(s: seq<T>, p: nat, x: T)
    requires p < |s| && x in s && x != s[p]
    ensures x in Rest(s, p)
  {
    var i :| 0 <= i < |s| && s[i] == x;
    var n := |s| - 1;
    assert Swap(s, n, p)[if i == n then p else i] == x;
    assert i != p;
  }

  lemma SelectionTail<T(!new)>(s: seq<T>, t: seq<T>, p: nat)
    requires IsSelection(s, t) && t != [] && p < |s| && s[p] == t[0]
    ensures IsSelection(Rest(s, p), t[1..])
  {
    forall i | 0 <= i < |t[1..]|
      ensures t[1..][i] in Rest(s, p)
    {
      assert t[0] != t[i + 1];
      RestKeepsOthers(s, p, t[i + 1]);
    }
  }

  /** The picks that settle `t`, shorter than `s`. */
  ghost function Unselect<T(!new)>(s: seq<T>, t: seq<T>): (picks: seq<nat>)
    requires IsSelection(s, t) && |t| < |s|
    ensures |picks| == |t| && ValidPicks(|s|, picks)
    decreases |t|
  {
    if t == [] then []
    else
      var p := Find(s, t[0]);
      SelectionTail(s, t, p);
      [p] + Unselect(Rest(s, p), t[1..])
  }

  lemma TopAppend<T>(a: seq<T>, x: T, k: nat)
    requires k <= |a|
    ensures Top(a + [x], k + 1) == [x] + Top(a, k)
  {
    var l, r := Top(a + [x], k + 1), [x] + Top(a, k);
    forall i | 0 <= i < k + 1
      ensures l[i] == r[i]
    {
    }
  }

  lemma {:induction false} SelectReaches<T(!new)>(s: seq<T>, t: seq<T>)
    requires IsSelection(s, t) && |t| < |s|
    ensures Top(Settle(s, Unselect(s, t)), |t|) == t
    decreases |t|
  {
    if t != [] {
      var p := Find(s, t[0]);
      SelectionTail(s, t, p);
      SelectReaches(Rest(s, p), t[1..]);
      var picks := Unselect(s, t);
      assert picks[1..] == Unselect(Rest(s, p), t[1..]);
      TopAppend(Settle(Rest(s, p), picks[1..]), s[p], |t| - 1);
      assert t == [t[0]] + t[1..];
    }
  }

  /** Different picks settle different selections. */
  lemma SamePicked<T(!new)>(s: seq<T>, p: seq<nat>, q: seq<nat>)
    requires Distinct(s) && |p| == |q| && ValidPicks(|s|, p) && ValidPicks(|s|, q)
    requires Top(Settle(s, p), |p|) == Top(Settle(s, q), |p|)
    ensures p == q
  {
    TopDeterminesSlice(Settle(s, p), Settle(s, q), |p|);
    SettledDeterminesPicks(s, p, q);
  }

  lemma SelectionIsBijection<T(!new)>(s: seq<T>, t: seq<T>, picks: seq<nat>)
    requires Distinct(s) && IsSelection(s, t) && |t| < |s| && |picks| == |t| && ValidPicks(|s|, picks)
    ensures Top(Settle(s, picks), |t|) == t <==> picks == Unselect(s, t)
  {
    SelectReaches(s, t);
    if Top(Settle(s, picks), |t|) == t {
      SamePicked(s, picks, Unselect(s, t));
    }
  }

  // ----- counting -----

  /** The word vectors whose partial draw is `t`. */
  ghost function Draws<T(!new)>(s: seq<T>, t: seq<T>, m: nat, bound: nat): set<seq<nat>>
    requires m < |s| && |t| <= |s|
  {
    set v | v in Vectors(m, bound) && |v| == m && Picked(s, v, |t|) == t
  }

  lemma DrawsAreAClass<T(!new)>(s: seq<T>, t: seq<T>, bound: nat)
    requires Distinct(s) && IsSelection(s, t) && |t| < |s|
    ensures Draws(s, t, |t|, bound) == Class(|s|, Unselect(s, t), bound)
  {
    var picks := Unselect(s, t);
    forall v
      ensures v in Draws(s, t, |t|, bound) <==> v in Class(|s|, picks, bound)
    {
      InClass(v, |s|, picks, bound);
      if |v| == |t| {
        SelectionIsBijection(s, t, PicksOf(|s|, v));
      }
    }
  }

  lemma ShortSelectionCount<T(!new)>(s: seq<T>, t: seq<T>)
    requires Distinct(s) && IsSelection(s, t) && |t| < |s|
    ensures |Draws(s, t, |t|, WORDS)| == Product(Shares(|s|, Unselect(s, t), WORDS))
    ensures Product(Floors(|s|, |t|, WORDS)) <= |Draws(s, t, |t|, WORDS)| <= Product(Ceils(|s|, |t|, WORDS))
  {
    DrawsAreAClass(s, t, WORDS);
    ClassSize(|s|, Unselect(s, t), WORDS);
    ProductBounds(|s|, Unselect(s, t), WORDS);
  }

  // ----- drawing everything -----

  /** A selection of all elements is an arrangement of them. */
  lemma {:induction false} SelectionOfAll<T(!new)>(s: seq<T>, t: seq<T>)
    requires Distinct(s) && IsSelection(s, t) && |t| == |s|
    ensures multiset(t) == multiset(s)
    decreases |t|
  {
    if t != [] {
      var p := Find(s, t[0]);
      SelectionTail(s, t, p);
      RestDistinct(s, p);
      SelectionOfAll(Rest(s, p), t[1..]);
      RestMultiset(s, p);
      assert t == [t[0]] + t[1..];
    }
  }

  lemma TopIsSelection<T(!new)>(s: seq<T>, t: seq<T>)
    requires IsSelection(s, t)
    ensures IsSelection(s, Top(t, |t|)) && |Top(t, |t|)| == |t|
  {
  }

  /** Reading all slots backwards twice gives them as they are. */
  lemma TopOfTop<T>(a: seq<T>)
    ensures |Top(a, |a|)| == |a| && Top(Top(a, |a|), |a|) == a
  {
    var n := |a|;
    var b := Top(a, n);
    var c := Top(b, n);
    forall i | 0 <= i < n
      ensures c[i] == a[i]
    {
      assert c[i] == b[n - 1 - i];
    }
  }

  lemma TopTwice<T>(a: seq<T>, t: seq<T>)
    requires |a| == |t|
    ensures Top(a, |a|) == t <==> a == Top(t, |t|)
  {
    TopOfTop(a);
    TopOfTop(t);
  }

  lemma FullDrawIsPermutation<T(!new)>(s: seq<T>, t: seq<T>, bound: nat)
    requires |t| == |s| > 0
    ensures Draws(s, t, |s| - 1, bound) == Preimages(s, Top(t, |t|), bound)
  {
    forall v
      ensures v in Draws(s, t, |s| - 1, bound) <==> v in Preimages(s, Top(t, |t|), bound)
    {
      if |v| == |s| - 1 {
        TopTwice(Settle(s, PicksOf(|s|, v)), t);
      }
    }
  }

  lemma FullSelectionCount<T(!new)>(s: seq<T>, t: seq<T>)
    requires Distinct(s) && IsSelection(s, t) && |t| == |s| > 0
    ensures Product(Floors(|s|, |s| - 1, WORDS)) <= |Draws(s, t, |s| - 1, WORDS)| <= Product(Ceils(|s|, |s| - 1, WORDS))
  {
    TopIsSelection(s, t);
    SelectionOfAll(s, Top(t, |t|));
    FullDrawIsPermutation(s, t, WORDS);
    PermutationCount(s, Top(t, |t|));
  }

  /** The words a draw of `k` out of `n` uses. */
  function WordsUsed(n: nat, k: nat): (m: nat)
    requires 0 < k <= n
    ensures m == if k < n then k else n - 1
  {
    n - Left(n, k)
  }

  /** The bias of the partial draw, for all 0 < k <= n: the number of word vectors that make it return a
      given ordered selection lies between the product of the floors and the product of the ceilings of
      2^32 / (i + 1) over the slots i it settles with a pick. */
  lemma SelectionsCounted<T(!new)>(s: seq<T>, t: seq<T>)
    requires Distinct(s) && IsSelection(s, t) && |t| > 0
    ensures var n, m := |s|, WordsUsed(|s|, |t|);
      Product(Floors(n, m, WORDS)) <= |Draws(s, t, m, WORDS)| <= Product(Ceils(n, m, WORDS))
  {
    if |t| < |s| {
      ShortSelectionCount(s, t);
    } else {
      FullSelectionCount(s, t);
    }
  }

  /** The decoders draw this way: `Selected` is `Picked` from the stream's words. */
  lemma SelectedIsPicked(sha: Hash, out: Bytes, n: nat, k: nat)
    requires IsHash(sha) && 0 < k <= n
    ensures Selected(sha, out, n, k) == Picked(Range(n), WordsFrom(sha, out, 0, WordsUsed(n, k)), k)
  {
  }
}
