/**
 Exactly which bets the public verifier can check. Beyond byte 4096 the bot goes on hashing the
 64-byte digest while the verifier starts hashing its own pre-extended copy of it, so for every
 larger parameter there is a hash and a digest on which the two disagree.
 */
module VerifierLimits {
  import opened Sums
  import opened Octets
  import opened Arithmetic
  import opened RandomBytes
  import opened Shuffle
  import opened ShuffleCount
  import opened Decoders
  import opened DecoderLaws
  import opened SelectionCount

  const DIGEST: nat := 64

  // ----- a hash that tells the two streams apart -----

  function Zeros(n: nat): (r: Bytes)
    ensures |r| == n && forall i :: 0 <= i < n ==> r[i] == 0
  {
    if n == 0 then [] else Zeros(n - 1) + [0]
  }

  /** `n` bytes: three zeros, `x`, zeros. */
  function WordBytes(x: Byte, n: nat): (r: Bytes)
    requires n >= 4
    ensures |r| == n && forall i :: 0 <= i < n ==> r[i] == if i == 3 then x else 0
  {
    Zeros(3) + [x] + Zeros(n - 4)
  }

  /** The bot reads `bot` at byte 4096, the verifier reads `verifier` there. */
  ghost function Rigged(out: Bytes, bot: Bytes, verifier: Bytes): Hash {
    imap m: Bytes ::
      if |m| == PRE_EXTENSION + 4 then verifier
      else if m == out + BigEndian(127, 4) then bot
      else Zeros(CHUNK)
  }

  lemma RiggedIsHash(out: Bytes, bot: Bytes, verifier: Bytes)
    requires |bot| == CHUNK && |verifier| == CHUNK
    ensures IsHash(Rigged(out, bot, verifier))
  {
  }

  lemma RiggedBotChunk(out: Bytes, bot: Bytes, verifier: Bytes)
    requires |out| == DIGEST && |bot| == CHUNK && |verifier| == CHUNK
    ensures IsHash(Rigged(out, bot, verifier)) && ChunkAt(Rigged(out, bot, verifier), out, 127) == bot
    ensures Offset(out, 127) == PRE_EXTENSION
  {
    RiggedIsHash(out, bot, verifier);
  }

  lemma RiggedVerifierChunk(out: Bytes, bot: Bytes, verifier: Bytes)
    requires |out| == DIGEST && |bot| == CHUNK && |verifier| == CHUNK
    ensures var sha := Rigged(out, bot, verifier);
      && IsHash(sha)
      && ChunkAt(sha, Verifier(sha, out), 1) == verifier
      && Offset(Verifier(sha, out), 1) == PRE_EXTENSION
  {
    RiggedIsHash(out, bot, verifier);
  }

  lemma RiggedBytes(out: Bytes, bot: Bytes, verifier: Bytes, k: nat)
    requires |out| == DIGEST && |bot| == CHUNK && |verifier| == CHUNK && k < CHUNK
    ensures var sha := Rigged(out, bot, verifier);
      && IsHash(sha)
      && StreamByte(sha, out, PRE_EXTENSION + k) == bot[k]
      && StreamByte(sha, Verifier(sha, out), PRE_EXTENSION + k) == verifier[k]
  {
    var sha := Rigged(out, bot, verifier);
    RiggedBotChunk(out, bot, verifier);
    RiggedVerifierChunk(out, bot, verifier);
    ByteOfChunk(sha, out, 127, k);
    ByteOfChunk(sha, Verifier(sha, out), 1, k);
  }

  /** Before byte 4096 the chunks are all zero. */
  lemma RiggedChunk(out: Bytes, bot: Bytes, verifier: Bytes, n: nat)
    requires |out| == DIGEST && |bot| == CHUNK && |verifier| == CHUNK && 1 <= n < 127
    ensures IsHash(Rigged(out, bot, verifier)) && ChunkAt(Rigged(out, bot, verifier), out, n) == Zeros(CHUNK)
  {
    LastByte(n);
    LastByte(127);
    assert (out + BigEndian(n, 4))[67] == n && (out + BigEndian(127, 4))[67] == 127;
  }

  lemma RiggedZeros(out: Bytes, bot: Bytes, verifier: Bytes, i: nat)
    requires |out| == DIGEST && |bot| == CHUNK && |verifier| == CHUNK && DIGEST <= i < PRE_EXTENSION
    ensures IsHash(Rigged(out, bot, verifier)) && StreamByte(Rigged(out, bot, verifier), out, i) == 0
  {
    var n, k := (i - DIGEST) / CHUNK + 1, (i - DIGEST) % CHUNK;
    RiggedChunk(out, bot, verifier, n);
    ByteOfChunk(Rigged(out, bot, verifier), out, n, k);
  }

  lemma LastByte(n: nat)
    requires n < 256
    ensures BigEndian(n, 4)[3] == n
  {
  }

  lemma UintOfWord(sha: Hash, out: Bytes, at: nat, x: Byte)
    requires IsHash(sha)
    requires StreamByte(sha, out, at) == StreamByte(sha, out, at + 1) == StreamByte(sha, out, at + 2) == 0
    requires StreamByte(sha, out, at + 3) == x
    ensures Uint(sha, out, at, 4) == x
  {
    assert Uint(sha, out, at, 1) == 0;
    assert Uint(sha, out, at, 2) == 0;
    assert Uint(sha, out, at, 3) == 0;
  }

  lemma WordOfChunk(sha: Hash, out: Bytes, n: nat, x: Byte)
    requires IsHash(sha) && ChunkAt(sha, out, n) == WordBytes(x, CHUNK)
    ensures Uint(sha, out, Offset(out, n), 4) == x
  {
    ByteOfChunk(sha, out, n, 0);
    ByteOfChunk(sha, out, n, 1);
    ByteOfChunk(sha, out, n, 2);
    ByteOfChunk(sha, out, n, 3);
    UintOfWord(sha, out, Offset(out, n), x);
  }

  /** A hash for which word 1024 is the first one the two read differently. */
  lemma RiggedWord(out: Bytes, bot: Byte, verifier: Byte) returns (sha: Hash)
    requires |out| == DIGEST
    ensures IsHash(sha)
    ensures sha == Rigged(out, WordBytes(bot, CHUNK), WordBytes(verifier, CHUNK))
    ensures Word(sha, out, 1024) == bot && Word(sha, Verifier(sha, out), 1024) == verifier
  {
    var a, b := WordBytes(bot, CHUNK), WordBytes(verifier, CHUNK);
    sha := Rigged(out, a, b);
    RiggedBotChunk(out, a, b);
    RiggedVerifierChunk(out, a, b);
    WordOfChunk(sha, out, 127, bot);
    WordOfChunk(sha, Verifier(sha, out), 1, verifier);
  }

  lemma DifferentWord(out: Bytes, bot: Byte, verifier: Byte) returns (sha: Hash)
    requires |out| == DIGEST
    ensures IsHash(sha)
    ensures Word(sha, out, 1024) == bot && Word(sha, Verifier(sha, out), 1024) == verifier
  {
    sha := RiggedWord(out, bot, verifier);
  }

  // ----- picks by index -----

  lemma {:induction false} WordAt(sha: Hash, out: Bytes, at: nat, m: nat, k: nat)
    requires IsHash(sha) && k < m
    ensures WordsFrom(sha, out, at, m)[k] == Uint(sha, out, at + 4 * k, 4)
    decreases k
  {
    if k > 0 {
      WordAt(sha, out, at + 4, m - 1, k - 1);
    }
  }

  lemma {:induction false} PickIs(n: nat, words: seq<nat>, k: nat)
    requires k < |words| < n
    ensures PicksOf(n, words)[k] == words[k] % (n - k)
    decreases k
  {
    if k > 0 {
      PickIs(n - 1, words[1..], k - 1);
    }
  }

  function Drawn(sha: Hash, out: Bytes, n: nat, m: nat): (picks: seq<nat>)
    requires IsHash(sha) && m < n
    ensures ValidPicks(n, picks) && |picks| == m
  {
    PicksOf(n, WordsFrom(sha, out, 0, m))
  }

  lemma DrawnAt(sha: Hash, out: Bytes, n: nat, m: nat, k: nat)
    requires IsHash(sha) && k < m < n
    ensures Drawn(sha, out, n, m)[k] == Word(sha, out, k) % (n - k)
  {
    WordAt(sha, out, 0, m, k);
    PickIs(n, WordsFrom(sha, out, 0, m), k);
  }

  /** A word below the number of unsettled slots is itself the pick. */
  lemma DrawnIsWord(sha: Hash, out: Bytes, n: nat, m: nat, k: nat)
    requires IsHash(sha) && k < m < n && Word(sha, out, k) < n - k
    ensures Drawn(sha, out, n, m)[k] == Word(sha, out, k)
  {
    DrawnAt(sha, out, n, m, k);
    DivIs(Word(sha, out, k), n - k, 0, Word(sha, out, k));
  }

  // ----- Mines -----

  ghost predicate MinesVerifiable(mines: int, grid: int) {
    forall sha: Hash, out: Bytes :: IsHash(sha) && |out| == DIGEST ==>
      Mines(sha, Verifier(sha, out), mines, grid) == Mines(sha, out, mines, grid)
  }

  lemma MinesDisagree(mines: nat, grid: nat)
    requires 1024 < mines < grid
    ensures !MinesVerifiable(mines, grid)
  {
    var out := Zeros(DIGEST);
    var sha := DifferentWord(out, 0, 1);
    var v := Verifier(sha, out);
    MinesUseWord(sha, out, v, mines, grid);
  }

  lemma MinesUseWord(sha: Hash, out: Bytes, v: Bytes, mines: nat, grid: nat)
    requires IsHash(sha) && 1024 < mines < grid
    requires Word(sha, out, 1024) == 0 && Word(sha, v, 1024) == 1
    ensures Mines(sha, v, mines, grid) != Mines(sha, out, mines, grid)
  {
    DrawnIsWord(sha, out, grid, mines, 1024);
    DrawnIsWord(sha, v, grid, mines, 1024);
    var p, q := Drawn(sha, out, grid, mines), Drawn(sha, v, grid, mines);
    assert p[1024] == 0 && q[1024] == 1;
    if Top(Settle(Range(grid), q), mines) == Top(Settle(Range(grid), p), mines) {
      SamePicked(Range(grid), q, p);
      assert false;
    }
  }

  /** The public verifier reproduces every Mines bet of these parameters, whatever the digest and
      the hash, if and only if there are at most 1024 mines (or both reject the parameters). */
  lemma MinesVerifiableIff(mines: int, grid: int)
    ensures MinesVerifiable(mines, grid) <==> mines <= 1024 || grid <= mines
  {
    if mines <= 1024 || grid <= mines {
      forall sha: Hash, out: Bytes | IsHash(sha) && |out| == DIGEST
        ensures Mines(sha, Verifier(sha, out), mines, grid) == Mines(sha, out, mines, grid)
      {
        if mines <= 1024 {
          MinesAgree(sha, out, mines, grid);
        }
      }
    } else {
      MinesDisagree(mines, grid);
    }
  }

  // ----- Staking Duel -----

  ghost predicate StakingVerifiable(rounds: int) {
    forall sha: Hash, out: Bytes :: IsHash(sha) && |out| == DIGEST ==>
      Staking(sha, Verifier(sha, out), rounds) == Staking(sha, out, rounds)
  }

  lemma StakingDisagree(rounds: nat)
    requires rounds > 2048
    ensures !StakingVerifiable(rounds)
  {
    var out := Zeros(DIGEST);
    var a, b := Zeros(CHUNK), [1] + Zeros(CHUNK - 1);
    var sha := Rigged(out, a, b);
    RiggedBytes(out, a, b, 0);
    var v := Verifier(sha, out);
    assert RoundAt(sha, out, 2048).0 == 1 && RoundAt(sha, v, 2048).0 == 2;
    assert Staking(sha, out, rounds).value[2048] != Staking(sha, v, rounds).value[2048];
  }

  lemma StakingVerifiableIff(rounds: int)
    ensures StakingVerifiable(rounds) <==> rounds <= 2048
  {
    if rounds <= 2048 {
      forall sha: Hash, out: Bytes | IsHash(sha) && |out| == DIGEST
        ensures Staking(sha, Verifier(sha, out), rounds) == Staking(sha, out, rounds)
      {
        StakingAgrees(sha, out, rounds);
      }
    } else {
      StakingDisagree(rounds);
    }
  }

  // ----- Blackjack -----

  ghost predicate BlackjackVerifiable(decks: int) {
    forall sha: Hash, out: Bytes :: IsHash(sha) && |out| == DIGEST ==>
      Blackjack(sha, Verifier(sha, out), decks) == Blackjack(sha, out, decks)
  }

  /** The unsettled slots after `m` picks. */
  function Remaining<T>(s: seq<T>, picks: seq<nat>, m: nat): (r: seq<T>)
    requires ValidPicks(|s|, picks) && m <= |picks|
    ensures |r| == |s| - m
    decreases m
  {
    if m == 0 then s
    else
      TailPicks(|s|, picks);
      Remaining(Rest(s, picks[0]), picks[1..], m - 1)
  }

  lemma {:induction false} SettledAt<T>(s: seq<T>, picks: seq<nat>, m: nat)
    requires ValidPicks(|s|, picks) && m < |picks|
    ensures Settle(s, picks)[|s| - 1 - m] == Remaining(s, picks, m)[picks[m]]
    decreases m
  {
    TailPicks(|s|, picks);
    if m > 0 {
      SettledAt(Rest(s, picks[0]), picks[1..], m - 1);
    }
  }

  /** Picking slot 0 every time leaves the slots after it as they were. */
  lemma {:induction false} ZeroPicksKeep<T>(s: seq<T>, picks: seq<nat>, m: nat, x: nat)
    requires ValidPicks(|s|, picks) && m <= |picks| && 1 <= x < |s| - m
    requires forall i :: 0 <= i < m ==> picks[i] == 0
    ensures Remaining(s, picks, m)[x] == s[x]
    decreases m
  {
    if m > 0 {
      TailPicks(|s|, picks);
      ZeroPicksKeep(Rest(s, picks[0]), picks[1..], m - 1, x);
    }
  }

  lemma {:induction false} FirstCards(n: nat, decks: nat, i: nat)
    requires n > 0 && i < decks
    ensures i < |Copies(n, decks)| && Copies(n, decks)[i] == 0
  {
    if n == 1 {
      assert Copies(1, decks) == [] + Repeat(0, decks);
      RepeatAt(0, decks, i);
    } else {
      FirstCards(n - 1, decks, i);
    }
  }

  lemma LastCard(n: nat, decks: nat)
    requires n > 0 && decks > 0
    ensures |Copies(n, decks)| > 0 && Copies(n, decks)[|Copies(n, decks)| - 1] == n - 1
  {
    RepeatAt(n - 1, decks, decks - 1);
  }

  lemma {:induction false} RepeatAt(x: nat, k: nat, i: nat)
    requires i < k
    ensures Repeat(x, k)[i] == x
  {
    if i < k - 1 {
      RepeatAt(x, k - 1, i);
    }
  }

  /** With first pick 1 and then slot 0 until pick m, that pick chooses the last or the third card. */
  lemma ShoeAfter(s: seq<nat>, picks: seq<nat>, m: nat)
    requires 0 < m < |picks| && |s| > m + 5 && ValidPicks(|s|, picks)
    requires picks[0] == 1 && forall i :: 1 <= i < m ==> picks[i] == 0
    requires picks[m] == 1 || picks[m] == 2
    ensures Settle(s, picks)[|s| - 1 - m] == if picks[m] == 1 then s[|s| - 1] else s[2]
  {
    SettledAt(s, picks, m);
    TailPicks(|s|, picks);
    var rest := Rest(s, 1);
    ZeroPicksKeep(rest, picks[1..], m - 1, picks[m]);
    assert rest[1] == s[|s| - 1] && rest[2] == s[2];
  }

  /** A digest and a hash whose first 1025 words are 1, 0, ..., 0 and then 1 or 2. */
  lemma ShoeWords() returns (sha: Hash, out: Bytes)
    ensures IsHash(sha) && |out| == DIGEST
    ensures forall k :: 0 <= k < 1024 ==> Word(sha, out, k) == if k == 0 then 1 else 0
    ensures Word(sha, out, 1024) == 1 && Word(sha, Verifier(sha, out), 1024) == 2
  {
    out := WordBytes(1, DIGEST);
    sha := RiggedWord(out, 1, 2);
    forall k | 0 <= k < 1024
      ensures Word(sha, out, k) == if k == 0 then 1 else 0
    {
      var x := if k == 0 then 1 else 0;
      if k >= 16 {
        RiggedZeros(out, WordBytes(1, CHUNK), WordBytes(2, CHUNK), 4 * k);
        RiggedZeros(out, WordBytes(1, CHUNK), WordBytes(2, CHUNK), 4 * k + 1);
        RiggedZeros(out, WordBytes(1, CHUNK), WordBytes(2, CHUNK), 4 * k + 2);
        RiggedZeros(out, WordBytes(1, CHUNK), WordBytes(2, CHUNK), 4 * k + 3);
      }
      UintOfWord(sha, out, 4 * k, x);
    }
  }

  lemma ShoePicks(sha: Hash, out: Bytes, n: nat)
    requires IsHash(sha) && n > 1030
    requires forall k :: 0 <= k < 1024 ==> Word(sha, out, k) == if k == 0 then 1 else 0
    requires Word(sha, out, 1024) == 1 || Word(sha, out, 1024) == 2
    ensures var p := Drawn(sha, out, n, n - 1);
      p[0] == 1 && (forall k :: 1 <= k < 1024 ==> p[k] == 0) && p[1024] == Word(sha, out, 1024)
  {
    var p := Drawn(sha, out, n, n - 1);
    DrawnIsWord(sha, out, n, n - 1, 0);
    DrawnIsWord(sha, out, n, n - 1, 1024);
    forall k | 1 <= k < 1024
      ensures p[k] == 0
    {
      assert Word(sha, out, k) == 0;
      DrawnIsWord(sha, out, n, n - 1, k);
    }
  }

  lemma ShoeEnds(decks: nat)
    requires decks > 2
    ensures Shoe(decks)[2] == 0 && Shoe(decks)[52 * decks - 1] == 51
  {
    FirstCards(52, decks, 2);
    LastCard(52, decks);
  }

  /** The card in the slot settled by word 1024. */
  lemma CardAt(sha: Hash, out: Bytes, decks: nat)
    requires IsHash(sha) && decks > 19
    requires forall k :: 0 <= k < 1024 ==> Word(sha, out, k) == if k == 0 then 1 else 0
    requires Word(sha, out, 1024) == 1 || Word(sha, out, 1024) == 2
    ensures Blackjack(sha, out, decks).value[52 * decks - 1025] == if Word(sha, out, 1024) == 1 then 51 else 0
  {
    var n := 52 * decks;
    ShoePicks(sha, out, n);
    ShoeAfter(Shoe(decks), Drawn(sha, out, n, n - 1), 1024);
    ShoeEnds(decks);
  }

  lemma BlackjackDisagree(decks: nat)
    requires decks > 19
    ensures !BlackjackVerifiable(decks)
  {
    var sha, out := ShoeWords();
    var v := Verifier(sha, out);
    forall k | 0 <= k < 1024
      ensures Word(sha, v, k) == if k == 0 then 1 else 0
    {
      SameUint(sha, out, PRE_EXTENSION, 4 * k, 4);
      assert Word(sha, out, k) == if k == 0 then 1 else 0;
    }
    CardAt(sha, out, decks);
    CardAt(sha, v, decks);
    assert Blackjack(sha, v, decks) != Blackjack(sha, out, decks);
  }

  lemma BlackjackVerifiableIff(decks: int)
    ensures BlackjackVerifiable(decks) <==> decks <= 19
  {
    if decks <= 19 {
      forall sha: Hash, out: Bytes | IsHash(sha) && |out| == DIGEST
        ensures Blackjack(sha, Verifier(sha, out), decks) == Blackjack(sha, out, decks)
      {
        BlackjackAgrees(sha, out, decks);
      }
    } else {
      BlackjackDisagree(decks);
    }
  }
}
