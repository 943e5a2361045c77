/**
 The stream, the shuffle and the decoders' results byte by byte and swap by swap, without the recursive
 functions that define them.
 */
module StreamLaws {
  import opened Sums
  import opened Octets
  import opened Arithmetic
  import opened RandomBytes
  import opened Shuffle
  import opened Decoders
  import opened DecoderLaws

  // ----- bytes -----

  function FourBytes(a: nat, b: nat, c: nat, d: nat): nat {
    a * 0x100_0000 + b * 0x1_0000 + c * 0x100 + d
  }

  /** The four bytes of a counter below 2^32, highest first. */
  predicate IsCounter(b: Bytes, k: nat) {
    |b| == 4 && k == FourBytes(b[0], b[1], b[2], b[3])
  }

  lemma CounterBytes(k: nat)
    requires k < 0x1_0000_0000
    ensures IsCounter(BigEndian(k, 4), k)
  {
    var k1, k2, k3 := k / 256, k / 256 / 256, k / 256 / 256 / 256;
    assert BigEndian(k3, 1) == [k3 % 256];
    assert BigEndian(k2, 2) == [k3 % 256, k2 % 256];
    assert BigEndian(k1, 3) == [k3 % 256, k2 % 256, k1 % 256];
    assert BigEndian(k, 4) == [k3 % 256, k2 % 256, k1 % 256, k % 256];
  }

  /** Byte `i` is the digest's while it lasts; after it come the hashes of the digest followed by the
      counters 1, 2, ..., 32 bytes each. */
  lemma StreamByteIs(sha: Hash, out: Bytes, i: nat) returns (counter: Bytes)
    requires IsHash(sha) && (i - |out|) / 32 + 1 < 0x1_0000_0000
    ensures i < |out| ==> StreamByte(sha, out, i) == out[i]
    ensures i >= |out| ==>
      && IsCounter(counter, (i - |out|) / 32 + 1)
      && StreamByte(sha, out, i) == sha[out + counter][(i - |out|) % 32]
  {
    counter := [];
    if i < |out| {
      ByteOfChunk(sha, out, 0, i);
    } else {
      var k := (i - |out|) / 32 + 1;
      counter := BigEndian(k, 4);
      CounterBytes(k);
      ByteOfChunk(sha, out, k, (i - |out|) % 32);
    }
  }

  /** A word is four stream bytes, highest first. */
  lemma UintIs(sha: Hash, out: Bytes, at: nat)
    requires IsHash(sha)
    ensures Uint(sha, out, at, 4)
      == FourBytes(StreamByte(sha, out, at), StreamByte(sha, out, at + 1), StreamByte(sha, out, at + 2),
                   StreamByte(sha, out, at + 3))
  {
    assert Uint(sha, out, at, 1) == StreamByte(sha, out, at);
    assert Uint(sha, out, at, 2) == Uint(sha, out, at, 1) * 256 + StreamByte(sha, out, at + 1);
    assert Uint(sha, out, at, 3) == Uint(sha, out, at, 2) * 256 + StreamByte(sha, out, at + 2);
  }

  // ----- swaps -----

  /** `after` is `before` with slots `i` and `j` exchanged. */
  ghost predicate Exchanged(before: seq<nat>, after: seq<nat>, i: nat, j: nat)
    requires i < |before| && j < |before|
  {
    after == before[i := before[j]][j := before[i]]
  }

  /** The array along the loop: at step `j` the last unsettled slot is exchanged with the one that stream word
      `j` picks, modulo the number of unsettled slots. */
  ghost predicate IsSweep(sha: Hash, out: Bytes, states: seq<seq<nat>>, n: nat, left: nat)
    requires IsHash(sha) && 1 <= left <= n
  {
    && |states| == n - left + 1 && (forall j :: 0 <= j < |states| ==> |states[j]| == n)
    && forall j :: 0 <= j < n - left ==>
         Exchanged(states[j], states[j + 1], n - 1 - j, Uint(sha, out, 4 * j, 4) % (n - j))
  }

  lemma {:induction false} SweptAlong(sha: Hash, out: Bytes, states: seq<seq<nat>>, n: nat, left: nat, j: nat)
    requires IsHash(sha) && 1 <= left <= n && IsSweep(sha, out, states, n, left) && j <= n - left
    ensures Swept(sha, out, 4 * j, states[j], n - 1 - j, left) == states[n - left]
    decreases n - left - j
  {
    if j < n - left {
      SweptAlong(sha, out, states, n, left, j + 1);
      assert Exchanged(states[j], states[j + 1], n - 1 - j, Uint(sha, out, 4 * j, 4) % (n - j));
      assert states[j + 1] == Swap(states[j], n - 1 - j, PickAt(sha, out, 4 * j, n - j));
    }
  }

  /** A shuffle is the last array of the sweep that starts with its argument. */
  lemma ShuffledIsSweep(sha: Hash, out: Bytes, states: seq<seq<nat>>, n: nat, left: nat)
    requires IsHash(sha) && 1 <= left <= n && IsSweep(sha, out, states, n, left)
    ensures Shuffled(sha, out, 0, states[0], left) == states[n - left]
  {
    SweptAlong(sha, out, states, n, left, 0);
    SweptIsShuffled(sha, out, 0, states[0], n - 1, left);
    assert states[0][..n] == states[0] && states[0][n..] == [];
  }

  /** There is such a sweep from every array. */
  lemma {:induction false} SweepFrom(sha: Hash, out: Bytes, s: seq<nat>, left: nat) returns (states: seq<seq<nat>>)
    requires IsHash(sha) && 1 <= left <= |s|
    ensures IsSweep(sha, out, states, |s|, left) && states[0] == s
    decreases |s| - left
  {
    var n := |s|;
    if left == n {
      states := [s];
    } else {
      var before := SweepFrom(sha, out, s, left + 1);
      var j := n - left - 1;
      var a, p := before[j], Uint(sha, out, 4 * j, 4) % (n - j);
      states := before + [a[n - 1 - j := a[p]][p := a[n - 1 - j]]];
    }
  }

  // ----- results -----

  /** Mines and raffles list the last slots of the sweep over 0, 1, ..., n - 1, the very last one first. */
  lemma SelectedIs(sha: Hash, out: Bytes, n: nat, k: nat) returns (states: seq<seq<nat>>)
    requires IsHash(sha) && 0 < k <= n
    ensures IsSweep(sha, out, states, n, 1) && forall i :: 0 <= i < n ==> states[0][i] == i
    ensures var r := Selected(sha, out, n, k); |r| == k && forall i :: 0 <= i < k ==> r[i] == states[n - 1][n - 1 - i]
  {
    states := SweepFrom(sha, out, Range(n), 1);
    ShuffledIsSweep(sha, out, states, n, 1);
    PartialRefinesFull(sha, out, n, k);
  }

  lemma RepeatIs(x: nat, k: nat)
    ensures forall i :: 0 <= i < k ==> Repeat(x, k)[i] == x
  {
  }

  lemma {:induction false} CopiesAt(c: nat, decks: nat, card: nat, d: nat)
    requires card < c && d < decks
    ensures card * decks + d < |Copies(c, decks)| && Copies(c, decks)[card * decks + d] == card
  {
    CopiesLength(c - 1, decks);
    CopiesLength(c, decks);
    MulStep(card, c, decks);
    if card < c - 1 {
      CopiesAt(c - 1, decks, card, d);
    } else {
      RepeatIs(card, decks);
    }
  }

  /** The shoe before the shuffle: the decks' copies of each card lie together, card by card; and the sweep
      that shuffles it. */
  lemma BlackjackIs(sha: Hash, out: Bytes, decks: nat) returns (states: seq<seq<nat>>)
    requires IsHash(sha) && decks > 0
    ensures IsSweep(sha, out, states, 52 * decks, 1)
    ensures forall card: nat, d: nat :: card < 52 && d < decks ==> ShoeSlot(states[0], decks, card, d)
    ensures Blackjack(sha, out, decks) == Some(states[52 * decks - 1])
  {
    var shoe := Shoe(decks);
    states := SweepFrom(sha, out, shoe, 1);
    ShuffledIsSweep(sha, out, states, |shoe|, 1);
    forall card: nat, d: nat | card < 52 && d < decks
      ensures ShoeSlot(shoe, decks, card, d)
    {
      CopiesAt(52, decks, card, d);
    }
  }

  predicate ShoeSlot(shoe: seq<nat>, decks: nat, card: nat, d: nat) {
    card * decks + d < |shoe| && shoe[card * decks + d] == card
  }

  /** Each round takes two bytes, the player's and the bot's, and maps each onto 1 to 12. */
  lemma StakingIs(sha: Hash, out: Bytes, rounds: nat, r: nat)
    requires IsHash(sha) && r < rounds
    ensures Staking(sha, out, rounds).Some? && |Staking(sha, out, rounds).value| == rounds
    ensures var (player, bot) := Staking(sha, out, rounds).value[r];
      && 1 <= player <= 12 && (StreamByte(sha, out, 2 * r) - (player - 1)) % 12 == 0
      && 1 <= bot <= 12 && (StreamByte(sha, out, 2 * r + 1) - (bot - 1)) % 12 == 0
  {
  }
}
