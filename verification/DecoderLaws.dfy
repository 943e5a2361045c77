/** What the decoders' results are, for every digest and every hash. */
module DecoderLaws {
  import opened Sums
  import opened Octets
  import opened Arithmetic
  import opened RandomBytes
  import opened Shuffle
  import opened ShuffleCount
  import opened Decoders

  // ----- selection without replacement -----

  lemma {:induction false} SettleDistinct<T>(s: seq<T>, picks: seq<nat>)
    requires Distinct(s) && (ValidPicks(|s|, picks) || picks == [])
    ensures Distinct(Settle(s, picks))
    decreases |picks|
  {
    if picks != [] {
      TailPicks(|s|, picks);
      var rest, x := Rest(s, picks[0]), s[picks[0]];
      RestDistinct(s, picks[0]);
      SettleDistinct(rest, picks[1..]);
      SettlePermutes(rest, picks[1..]);
      assert x !in multiset(rest);
      assert x !in Settle(rest, picks[1..]);
    }
  }

  /** Mines and raffle: `k` different numbers below `n`. */
  lemma SelectionHasNoRepeats(sha: Hash, out: Bytes, n: nat, k: nat)
    requires IsHash(sha) && 0 < k <= n
    ensures var r := Selected(sha, out, n, k);
      |r| == k && Distinct(r) && forall i :: 0 <= i < k ==> r[i] < n
  {
    ShuffledPermutes(sha, out, Range(n), Left(n, k));
    ShuffledDistinct(sha, out, Range(n), Left(n, k));
    TopOf(Shuffled(sha, out, 0, Range(n), Left(n, k)), Range(n), k);
  }

  lemma ShuffledDistinct<T>(sha: Hash, out: Bytes, s: seq<T>, left: nat)
    requires IsHash(sha) && 1 <= left <= |s| && Distinct(s)
    ensures Distinct(Shuffled(sha, out, 0, s, left))
  {
    SettleDistinct(s, PicksOf(|s|, WordsFrom(sha, out, 0, |s| - left)));
  }

  lemma TopOf(t: seq<nat>, s: seq<nat>, k: nat)
    requires k <= |t| && Distinct(t) && multiset(t) == multiset(s)
    ensures Distinct(Top(t, k)) && forall i :: 0 <= i < k ==> Top(t, k)[i] in s
  {
    forall i | 0 <= i < k
      ensures Top(t, k)[i] in s
    {
      assert t[|t| - 1 - i] in multiset(t);
    }
  }

  lemma TopAgrees<T>(a: seq<T>, b: seq<T>, k: nat)
    requires |a| == |b| && k <= |a| && a[|a| - k..] == b[|b| - k..]
    ensures Top(a, k) == Top(b, k)
  {
    var n := |a|;
    forall i | 0 <= i < k
      ensures Top(a, k)[i] == Top(b, k)[i]
    {
      assert a[n - k..][k - 1 - i] == b[n - k..][k - 1 - i];
    }
  }

  lemma TopDeterminesSlice<T>(a: seq<T>, b: seq<T>, k: nat)
    requires |a| == |b| && k <= |a| && Top(a, k) == Top(b, k)
    ensures a[|a| - k..] == b[|b| - k..]
  {
    var n := |a|;
    forall i | n - k <= i < n
      ensures a[i] == b[i]
    {
      assert Top(a, k)[n - 1 - i] == Top(b, k)[n - 1 - i];
    }
  }

  lemma {:induction false} PicksPrefix(sha: Hash, out: Bytes, at: nat, n: nat, m: nat, k: nat)
    requires IsHash(sha) && k <= m < n
    ensures PicksOf(n, WordsFrom(sha, out, at, k)) == PicksOf(n, WordsFrom(sha, out, at, m))[..k]
    decreases m
  {
    if k > 0 {
      PicksPrefix(sha, out, at + 4, n - 1, m - 1, k - 1);
      assert WordsFrom(sha, out, at, k)[1..] == WordsFrom(sha, out, at + 4, k - 1);
      assert WordsFrom(sha, out, at, m)[1..] == WordsFrom(sha, out, at + 4, m - 1);
    }
  }

  lemma ShuffledTop<T>(sha: Hash, out: Bytes, s: seq<T>, k: nat)
    requires IsHash(sha) && 0 < k < |s|
    ensures Shuffled(sha, out, 0, s, |s| - k)[|s| - k..] == Shuffled(sha, out, 0, s, 1)[|s| - k..]
  {
    PicksPrefix(sha, out, 0, |s|, |s| - 1, k);
    SettledStays(s, PicksOf(|s|, WordsFrom(sha, out, 0, |s| - 1)), k);
  }

  /** The partial shuffle refines the full one: its result is the reversed top slice of the full
      shuffle on the same stream. */
  lemma PartialRefinesFull(sha: Hash, out: Bytes, n: nat, k: nat)
    requires IsHash(sha) && 0 < k <= n
    ensures Selected(sha, out, n, k) == Top(Shuffled(sha, out, 0, Range(n), 1), k)
  {
    if k < n {
      ShuffledTop(sha, out, Range(n), k);
      TopAgrees(Shuffled(sha, out, 0, Range(n), n - k), Shuffled(sha, out, 0, Range(n), 1), k);
    }
  }

  // ----- the shoe -----

  /** How often `c` occurs. */
  function Count(s: seq<nat>, c: nat): nat {
    if s == [] then 0 else Count(s[..|s| - 1], c) + if s[|s| - 1] == c then 1 else 0
  }

  lemma {:induction false} CountIsMultiplicity(s: seq<nat>, c: nat)
    ensures multiset(s)[c] == Count(s, c)
  {
    if s != [] {
      CountIsMultiplicity(s[..|s| - 1], c);
      assert s == s[..|s| - 1] + [s[|s| - 1]];
    }
  }

  lemma {:induction false} CountConcat(a: seq<nat>, b: seq<nat>, c: nat)
    ensures Count(a + b, c) == Count(a, c) + Count(b, c)
    decreases |b|
  {
    if b == [] {
      assert a + b == a;
    } else {
      CountConcat(a, b[..|b| - 1], c);
      assert (a + b)[..|a + b| - 1] == a + b[..|b| - 1];
    }
  }

  lemma {:induction false} RepeatCount(x: nat, k: nat, c: nat)
    ensures Count(Repeat(x, k), c) == if c == x then k else 0
  {
    if k > 0 {
      RepeatCount(x, k - 1, c);
      assert Repeat(x, k)[..k - 1] == Repeat(x, k - 1);
    }
  }

  lemma {:induction false} CopiesCount(n: nat, decks: nat, c: nat)
    ensures Count(Copies(n, decks), c) == if c < n then decks else 0
  {
    if n > 0 {
      CopiesCount(n - 1, decks, c);
      RepeatCount(n - 1, decks, c);
      CountConcat(Copies(n - 1, decks), Repeat(n - 1, decks), c);
    }
  }

  lemma ShoeCount(decks: nat, c: nat)
    ensures multiset(Shoe(decks))[c] == if c < 52 then decks else 0
  {
    CountIsMultiplicity(Shoe(decks), c);
    CopiesCount(52, decks, c);
  }

  lemma ShuffledPermutes<T>(sha: Hash, out: Bytes, s: seq<T>, left: nat)
    requires IsHash(sha) && 1 <= left <= |s|
    ensures multiset(Shuffled(sha, out, 0, s, left)) == multiset(s)
  {
    SettlePermutes(s, PicksOf(|s|, WordsFrom(sha, out, 0, |s| - left)));
  }

  /** A shuffled shoe still holds every card once per deck, and nothing else. */
  lemma ShoeKeepsCards(sha: Hash, out: Bytes, decks: nat, c: nat)
    requires IsHash(sha) && decks > 0
    ensures var r := Blackjack(sha, out, decks).value;
      |r| == 52 * decks && multiset(r)[c] == if c < 52 then decks else 0
  {
    ShuffledPermutes(sha, out, Shoe(decks), 1);
    ShoeCount(decks, c);
  }

  // ----- the public verifier pre-extends the digest -----

  const PRE_EXTENSION: nat := 4096

  /** The digest as `verify.py` and `verify.js` hand it to their decoders. */
  function Verifier(sha: Hash, out: Bytes): (r: Bytes)
    requires IsHash(sha)
    ensures |r| == PRE_EXTENSION
  {
    Prefix(sha, out, PRE_EXTENSION)
  }

  lemma {:induction false} SameWords(sha: Hash, out: Bytes, at: nat, m: nat)
    requires IsHash(sha) && at + 4 * m <= PRE_EXTENSION
    ensures WordsFrom(sha, Verifier(sha, out), at, m) == WordsFrom(sha, out, at, m)
    decreases m
  {
    if m > 0 {
      SameUint(sha, out, PRE_EXTENSION, at, 4);
      SameWords(sha, out, at + 4, m - 1);
    }
  }

  /** Decoding the pre-extended digest gives the bot's result while the decoder draws no more than
      the 4096 bytes: up to 1024 mines, 19 decks and 2048 rounds. Raffles always do. */
  lemma MinesAgree(sha: Hash, out: Bytes, mines: int, grid: int)
    requires IsHash(sha) && mines <= 1024
    ensures Mines(sha, Verifier(sha, out), mines, grid) == Mines(sha, out, mines, grid)
  {
    if 1 <= mines < grid {
      SameWords(sha, out, 0, grid - Left(grid, mines));
    }
  }

  lemma RafflesAgree(sha: Hash, out: Bytes, tickets: int)
    requires IsHash(sha)
    ensures Raffle(sha, Verifier(sha, out), tickets) == Raffle(sha, out, tickets)
  {
    if tickets >= 3 {
      SameWords(sha, out, 0, tickets - Left(tickets, 3));
    }
  }

  lemma BlackjackAgrees(sha: Hash, out: Bytes, decks: int)
    requires IsHash(sha) && decks <= 19
    ensures Blackjack(sha, Verifier(sha, out), decks) == Blackjack(sha, out, decks)
  {
    if decks > 0 {
      ShuffledAgrees(sha, out, Shoe(decks), 1);
    }
  }

  lemma ShuffledAgrees<T>(sha: Hash, out: Bytes, s: seq<T>, left: nat)
    requires IsHash(sha) && 1 <= left <= |s| && 4 * (|s| - left) <= PRE_EXTENSION
    ensures Shuffled(sha, Verifier(sha, out), 0, s, left) == Shuffled(sha, out, 0, s, left)
  {
    SameWords(sha, out, 0, |s| - left);
  }

  lemma StakingAgrees(sha: Hash, out: Bytes, rounds: int)
    requires IsHash(sha) && rounds <= 2048
    ensures Staking(sha, Verifier(sha, out), rounds) == Staking(sha, out, rounds)
  {
    if rounds > 0 {
      SameRounds(sha, out, rounds);
    }
  }

  lemma SameRounds(sha: Hash, out: Bytes, n: nat)
    requires IsHash(sha) && 2 * n <= PRE_EXTENSION
    ensures Rounds(sha, Verifier(sha, out), n) == Rounds(sha, out, n)
  {
    forall i | 0 <= i < n
      ensures RoundAt(sha, Verifier(sha, out), i) == RoundAt(sha, out, i)
    {
      ExtensionStreamsSame(sha, out, PRE_EXTENSION, 2 * i);
      ExtensionStreamsSame(sha, out, PRE_EXTENSION, 2 * i + 1);
    }
  }
}
