/** The decoders that shuffle or draw a long stream: Mines, Blackjack, Staking Duel and the raffle. */
module Decoders {
  import opened Sums
  import opened Octets
  import opened Arithmetic
  import opened RandomBytes
  import opened Shuffle
  import opened ShuffleCount

  // ----- what each decoder must return; None where the code raises ValueError -----

  /** The next `m` words of the stream. */
  function WordsFrom(sha: Hash, out: Bytes, at: nat, m: nat): (r: seq<nat>)
    requires IsHash(sha)
    ensures |r| == m
    decreases m
  {
    if m == 0 then [] else [Uint(sha, out, at, 4)] + WordsFrom(sha, out, at + 4, m - 1)
  }

  /** The last `k` elements, the very last one first. */
  function Top<T>(s: seq<T>, k: nat): (r: seq<T>)
    requires k <= |s|
    ensures |r| == k && forall i :: 0 <= i < k ==> r[i] == s[|s| - 1 - i]
  {
    if k == 0 then [] else Top(s, k - 1) + [s[|s| - k]]
  }

  /** A shuffle of `s` that stops once only `left` slots are unsettled. */
  function Shuffled<T>(sha: Hash, out: Bytes, at: nat, s: seq<T>, left: nat): (r: seq<T>)
    requires IsHash(sha) && 1 <= left <= |s|
    ensures |r| == |s|
  {
    Settle(s, PicksOf(|s|, WordsFrom(sha, out, at, |s| - left)))
  }

  /** The last slot needs no pick of its own. */
  function Left(n: nat, k: nat): nat
    requires k <= n
  {
    if n - k >= 1 then n - k else 1
  }

  function Selected(sha: Hash, out: Bytes, n: nat, k: nat): seq<nat>
    requires IsHash(sha) && 0 < k <= n
  {
    Top(Shuffled(sha, out, 0, Range(n), Left(n, k)), k)
  }

  function Mines(sha: Hash, out: Bytes, mines: int, grid: int): Option<seq<nat>>
    requires IsHash(sha)
  {
    if 1 <= mines < grid then Some(Selected(sha, out, grid, mines)) else None
  }

  function Raffle(sha: Hash, out: Bytes, tickets: int): Option<seq<nat>>
    requires IsHash(sha)
  {
    if tickets < 3 then None else Some(Selected(sha, out, tickets, 3))
  }

  function Repeat(x: nat, k: nat): (r: seq<nat>)
    ensures |r| == k
  {
    if k == 0 then [] else Repeat(x, k - 1) + [x]
  }

  /** `decks` copies of each card below `c`, card by card. */
  function Copies(c: nat, decks: nat): seq<nat> {
    if c == 0 then [] else Copies(c - 1, decks) + Repeat(c - 1, decks)
  }

  lemma {:induction false} CopiesLength(c: nat, decks: nat)
    ensures |Copies(c, decks)| == c * decks
  {
    if c > 0 {
      CopiesLength(c - 1, decks);
    }
  }

  function Shoe(decks: nat): (r: seq<nat>)
    ensures |r| == 52 * decks
  {
    CopiesLength(52, decks);
    Copies(52, decks)
  }

  function Blackjack(sha: Hash, out: Bytes, decks: int): Option<seq<nat>>
    requires IsHash(sha)
  {
    if decks <= 0 then None else Some(Shuffled(sha, out, 0, Shoe(decks), 1))
  }

  function Roll(b: Byte): int {
    b % 12 + 1
  }

  /** The player's and the bot's rolls, round by round. */
  function Staking(sha: Hash, out: Bytes, rounds: int): Option<seq<(int, int)>>
    requires IsHash(sha)
  {
    if rounds <= 0 then None
    else Some(Rounds(sha, out, rounds))
  }

  function RoundAt(sha: Hash, out: Bytes, r: nat): (int, int)
    requires IsHash(sha)
  {
    (Roll(StreamByte(sha, out, 2 * r)), Roll(StreamByte(sha, out, 2 * r + 1)))
  }

  function Rounds(sha: Hash, out: Bytes, n: nat): (r: seq<(int, int)>)
    requires IsHash(sha)
    ensures |r| == n && forall i :: 0 <= i < n ==> r[i] == RoundAt(sha, out, i)
  {
    if n == 0 then [] else Rounds(sha, out, n - 1) + [RoundAt(sha, out, n - 1)]
  }

  // ----- the loops -----

  function PickAt(sha: Hash, out: Bytes, at: nat, n: nat): (p: nat)
    requires IsHash(sha) && n > 0
    ensures p < n
  {
    Uint(sha, out, at, 4) % n
  }

  /** One step of the shuffle. */
  lemma ShuffledStep<T>(sha: Hash, out: Bytes, at: nat, s: seq<T>, left: nat)
    requires IsHash(sha) && 1 <= left < |s|
    ensures var p := PickAt(sha, out, at, |s|);
      Shuffled(sha, out, at, s, left) == Shuffled(sha, out, at + 4, Rest(s, p), left) + [s[p]]
  {
    var words := WordsFrom(sha, out, at, |s| - left);
    var picks := PicksOf(|s|, words);
    assert words[1..] == WordsFrom(sha, out, at + 4, |s| - 1 - left);
    assert picks[1..] == PicksOf(|s| - 1, words[1..]);
  }

  /** The array once the loop has run from slot `i` down to `left`. */
  function Swept(sha: Hash, out: Bytes, at: nat, s: seq<nat>, i: nat, left: nat): (r: seq<nat>)
    requires IsHash(sha) && 1 <= left <= i + 1 <= |s|
    ensures |r| == |s|
    decreases i
  {
    if i < left then s
    else Swept(sha, out, at + 4, Swap(s, i, PickAt(sha, out, at, i + 1)), i - 1, left)
  }

  /** The loop computes the shuffle. */
  lemma {:induction false} SweptIsShuffled(sha: Hash, out: Bytes, at: nat, s: seq<nat>, i: nat, left: nat)
    requires IsHash(sha) && 1 <= left <= i + 1 <= |s|
    ensures Swept(sha, out, at, s, i, left) == Shuffled(sha, out, at, s[..i + 1], left) + s[i + 1..]
    decreases i
  {
    if i < left {
      assert s == s[..i + 1] + s[i + 1..];
    } else {
      var s' := Swap(s, i, PickAt(sha, out, at, i + 1));
      SwapSettlesSlot(sha, out, at, s, s', i, left);
      SweptIsShuffled(sha, out, at + 4, s', i - 1, left);
    }
  }

  /** `for i in range(n - 1, left - 1, -1)`: swap slot i with the picked one, in place. */
  method ShuffleInPlace(a: array<nat>, sha: Hash, out: Bytes, left: nat)
    requires IsHash(sha) && 1 <= left <= a.Length
    modifies a
    ensures a[..] == Shuffled(sha, out, 0, old(a[..]), left)
  {
    var n := a.Length;
    ghost var s := a[..];
    SweepInPlace(a, sha, out, left);
    SweptIsShuffled(sha, out, 0, s, n - 1, left);
    assert s[..n] == s && s[n..] == [];
  }

  method SweepInPlace(a: array<nat>, sha: Hash, out: Bytes, left: nat)
    requires IsHash(sha) && 1 <= left <= a.Length
    modifies a
    ensures a[..] == Swept(sha, out, 0, old(a[..]), a.Length - 1, left)
  {
    var i, c := a.Length - 1, Fresh(out);
    ghost var goal := Swept(sha, out, 0, a[..], i, left);
    while i >= left
      invariant left - 1 <= i < a.Length
      invariant OnStream(sha, out, c)
      invariant goal == Swept(sha, out, Position(out, c), a[..], i, left)
    {
      var j;
      j, c := PullPick(sha, out, c, i + 1);
      SwapSlots(a, i, j);
      i := i - 1;
    }
  }

  method SwapSlots(a: array<nat>, i: nat, j: nat)
    requires i < a.Length && j < a.Length
    modifies a
    ensures a[..] == Swap(old(a[..]), i, j)
  {
    a[i], a[j] := a[j], a[i];
  }

  method PullPick(sha: Hash, out: Bytes, c: Cursor, n: nat) returns (j: nat, c': Cursor)
    requires IsHash(sha) && OnStream(sha, out, c) && n > 0
    ensures OnStream(sha, out, c') && Position(out, c') == Position(out, c) + 4
    ensures j == PickAt(sha, out, Position(out, c), n)
  {
    var word;
    word, c' := PullUint(sha, out, c, 4);
    j := word % n;
  }

  lemma SwapSettlesSlot(sha: Hash, out: Bytes, at: nat, before: seq<nat>, after: seq<nat>, i: nat, left: nat)
    requires IsHash(sha) && 1 <= left <= i < |before| && after == Swap(before, i, PickAt(sha, out, at, i + 1))
    ensures Shuffled(sha, out, at, before[..i + 1], left) + before[i + 1..]
         == Shuffled(sha, out, at + 4, after[..i], left) + after[i..]
  {
    var j := PickAt(sha, out, at, i + 1);
    ShuffledStep(sha, out, at, before[..i + 1], left);
    assert after[..i] == Rest(before[..i + 1], j);
    assert after[i..] == [before[j]] + before[i + 1..];
  }

  method FillRange(n: nat) returns (a: array<nat>)
    ensures fresh(a) && a[..] == Range(n)
  {
    a := new nat[n];
    for i := 0 to n
      invariant forall k :: 0 <= k < i ==> a[k] == k
    {
      a[i] := i;
    }
  }

  /** `_fisher_yates_partial`; None where it raises ValueError. */
  method FisherYatesPartial(sha: Hash, out: Bytes, n: int, k: int) returns (r: Option<seq<nat>>)
    requires IsHash(sha)
    ensures r == if 0 < k <= n then Some(Selected(sha, out, n, k)) else None
  {
    if !(0 < k <= n) {
      return None;
    }
    var a := FillRange(n);
    ShuffleInPlace(a, sha, out, if n - k >= 1 then n - k else 1);
    var selected := TakeTop(a, k);
    return Some(selected);
  }

  /** `arr[n - k:][::-1]`. */
  method TakeTop(a: array<nat>, k: nat) returns (r: seq<nat>)
    requires k <= a.Length
    ensures r == Top(a[..], k)
  {
    r := [];
    for i := 0 to k
      invariant r == Top(a[..], i)
    {
      r := r + [a[a.Length - 1 - i]];
    }
  }

  method DecodeMines(sha: Hash, out: Bytes, mines: int, grid: int) returns (r: Option<seq<nat>>)
    requires IsHash(sha)
    ensures r == Mines(sha, out, mines, grid)
  {
    if !(1 <= mines < grid) {
      return None;
    }
    r := FisherYatesPartial(sha, out, grid, mines);
  }

  method DecodeRaffle(sha: Hash, out: Bytes, tickets: int) returns (r: Option<seq<nat>>)
    requires IsHash(sha)
    ensures r == Raffle(sha, out, tickets)
  {
    if tickets < 3 {
      return None;
    }
    r := FisherYatesPartial(sha, out, tickets, 3);
  }

  method DecodeBlackjack(sha: Hash, out: Bytes, decks: int) returns (r: Option<seq<nat>>)
    requires IsHash(sha)
    ensures r == Blackjack(sha, out, decks)
  {
    if decks <= 0 {
      return None;
    }
    var shoe := FillShoe(decks);
    var cards := new nat[|shoe|](i requires 0 <= i < |shoe| => shoe[i]);
    assert cards[..] == shoe;
    ShuffleInPlace(cards, sha, out, 1);
    return Some(cards[..]);
  }

  /** `[c for c in range(52) for _ in range(decks)]`. */
  method FillShoe(decks: nat) returns (cards: seq<nat>)
    ensures cards == Shoe(decks)
  {
    cards := [];
    for c := 0 to 52
      invariant cards == Copies(c, decks)
    {
      for d := 0 to decks
        invariant cards == Copies(c, decks) + Repeat(c, d)
      {
        cards := cards + [c];
      }
    }
  }

  method DecodeStaking(sha: Hash, out: Bytes, rounds: int) returns (r: Option<seq<(int, int)>>)
    requires IsHash(sha)
    ensures r == Staking(sha, out, rounds)
  {
    if rounds <= 0 {
      return None;
    }
    var c := Fresh(out);
    var rolls: seq<(int, int)> := [];
    for i := 0 to rounds
      invariant OnStream(sha, out, c) && Position(out, c) == 2 * i
      invariant rolls == Rounds(sha, out, i)
    {
      var p, b;
      p, c := Next(sha, out, c);
      b, c := Next(sha, out, c);
      rolls := rolls + [(p % 12 + 1, b % 12 + 1)];
    }
    return Some(rolls);
  }
}
