/**
 The byte stream behind every outcome: the 64-byte digest followed by the chunks
 SHA-256(digest || counter), counter = 1, 2, ... as a lazy iterator and as an extension to a
 fixed length. The hash is an arbitrary function with 32-byte results.
 */
module RandomBytes {
  import opened Octets
  import opened Arithmetic

  /** A hash as the table of all its values. */
  type Hash = imap<Bytes, Bytes>

  const CHUNK := 32

  ghost predicate IsHash(sha: Hash) {
    forall m :: m in sha && |sha[m]| == CHUNK
  }

  /** `counter.to_bytes(width, "big")`. */
  function BigEndian(n: nat, width: nat): (r: Bytes)
    ensures |r| == width
  {
    if width == 0 then [] else BigEndian(n / 256, width - 1) + [n % 256]
  }

  /** Chunk 0 is the digest itself. */
  function ChunkAt(sha: Hash, out: Bytes, counter: nat): (r: Bytes)
    requires IsHash(sha)
    ensures |r| == if counter == 0 then |out| else CHUNK
  {
    if counter == 0 then out else sha[out + BigEndian(counter, 4)]
  }

  /** Byte `i` counted from the start of a chunk. */
  function ByteFrom(sha: Hash, out: Bytes, counter: nat, i: nat): Byte
    requires IsHash(sha)
    decreases i, if counter == 0 then 1 else 0
  {
    var chunk := ChunkAt(sha, out, counter);
    if i < |chunk| then chunk[i] else ByteFrom(sha, out, counter + 1, i - |chunk|)
  }

  /** Byte `i` of the infinite stream. */
  function StreamByte(sha: Hash, out: Bytes, i: nat): Byte
    requires IsHash(sha)
  {
    ByteFrom(sha, out, 0, i)
  }

  function Prefix(sha: Hash, out: Bytes, n: nat): (r: Bytes)
    requires IsHash(sha)
    ensures |r| == n && forall i :: 0 <= i < n ==> r[i] == StreamByte(sha, out, i)
  {
    if n == 0 then [] else Prefix(sha, out, n - 1) + [StreamByte(sha, out, n - 1)]
  }

  /** The big-endian number in `width` stream bytes from `at` on. */
  function Uint(sha: Hash, out: Bytes, at: nat, width: nat): nat
    requires IsHash(sha)
  {
    if width == 0 then 0 else Uint(sha, out, at, width - 1) * 256 + StreamByte(sha, out, at + width - 1)
  }

  /** The 4-byte word number `k`. */
  function Word(sha: Hash, out: Bytes, k: nat): nat
    requires IsHash(sha)
  {
    Uint(sha, out, 4 * k, 4)
  }

  // ----- the lazy iterator -----

  /** The state of the iterator: the chunk being yielded, its number (the digest itself is chunk 0)
      and the place in it. */
  datatype Cursor = Cursor(chunk: Bytes, counter: nat, index: nat)

  /** Where a chunk starts in the stream. */
  function Offset(out: Bytes, counter: nat): nat {
    if counter == 0 then 0 else |out| + CHUNK * (counter - 1)
  }

  function Position(out: Bytes, c: Cursor): nat {
    c.index + Offset(out, c.counter)
  }

  /** Before the first byte. */
  function Fresh(out: Bytes): Cursor {
    Cursor(out, 0, 0)
  }

  predicate OnStream(sha: Hash, out: Bytes, c: Cursor)
    requires IsHash(sha)
  {
    c.index <= |c.chunk| && c.chunk == ChunkAt(sha, out, c.counter)
  }

  /** Yield one byte, moving on to the next chunk when this one is used up. */
  method Next(sha: Hash, out: Bytes, c: Cursor) returns (b: Byte, c': Cursor)
    requires IsHash(sha) && OnStream(sha, out, c)
    ensures OnStream(sha, out, c') && Position(out, c') == Position(out, c) + 1
    ensures b == StreamByte(sha, out, Position(out, c))
  {
    c' := c;
    if c'.index == |c'.chunk| {
      var counter := c'.counter + 1;
      c' := Cursor(sha[out + BigEndian(counter, 4)], counter, 0);
    }
    ByteOfChunk(sha, out, c'.counter, c'.index);
    b := c'.chunk[c'.index];
    c' := c'.(index := c'.index + 1);
  }

  /** `_pull_uint`: shift the value and or in the next byte, `width` times. */
  method PullUint(sha: Hash, out: Bytes, c: Cursor, width: nat) returns (value: nat, c': Cursor)
    requires IsHash(sha) && OnStream(sha, out, c)
    ensures OnStream(sha, out, c') && Position(out, c') == Position(out, c) + width
    ensures value == Uint(sha, out, Position(out, c), width)
  {
    value, c' := 0, c;
    for k := 0 to width
      invariant OnStream(sha, out, c') && Position(out, c') == Position(out, c) + k
      invariant value == Uint(sha, out, Position(out, c), k)
    {
      var b;
      b, c' := Next(sha, out, c');
      Pow2Of8();
      OrBelowShift(value, b, 8);
      value := BitOr(ShiftLeft(value, 8), b);
    }
  }

  /** The JavaScript verifier's `pullUint`, which multiplies and adds. */
  method PullUintByMultiplying(sha: Hash, out: Bytes, c: Cursor, width: nat) returns (value: nat, c': Cursor)
    requires IsHash(sha) && OnStream(sha, out, c)
    ensures OnStream(sha, out, c') && Position(out, c') == Position(out, c) + width
    ensures value == Uint(sha, out, Position(out, c), width)
  {
    value, c' := 0, c;
    for k := 0 to width
      invariant OnStream(sha, out, c') && Position(out, c') == Position(out, c) + k
      invariant value == Uint(sha, out, Position(out, c), k)
    {
      var b;
      b, c' := Next(sha, out, c');
      value := value * 256 + b;
    }
  }

  lemma {:induction false} SkipChunks(sha: Hash, out: Bytes, counter: nat, i: nat)
    requires IsHash(sha)
    ensures StreamByte(sha, out, Offset(out, counter) + i) == ByteFrom(sha, out, counter, i)
  {
    if counter > 0 {
      var size := |ChunkAt(sha, out, counter - 1)|;
      SkipChunks(sha, out, counter - 1, size + i);
      assert Offset(out, counter) == Offset(out, counter - 1) + size;
    }
  }

  lemma ByteOfChunk(sha: Hash, out: Bytes, counter: nat, index: nat)
    requires IsHash(sha) && index < |ChunkAt(sha, out, counter)|
    ensures StreamByte(sha, out, index + Offset(out, counter)) == ChunkAt(sha, out, counter)[index]
  {
    SkipChunks(sha, out, counter, index);
  }

  // ----- extension to a fixed length -----

  /** `_extend` and the verifiers' `extend`: exactly the first `count` bytes of the lazy stream. */
  method Extend(sha: Hash, out: Bytes, count: nat) returns (r: Bytes)
    requires IsHash(sha)
    ensures r == Prefix(sha, out, count)
  {
    if count <= |out| {
      return out[..count];
    }
    var extended, counter := out, 0;
    while |extended| < count
      invariant |extended| == Offset(out, counter + 1)
      invariant forall i :: 0 <= i < |extended| ==> extended[i] == StreamByte(sha, out, i)
      decreases count - |extended|
    {
      counter := counter + 1;
      var chunk := sha[out + BigEndian(counter, 4)];
      ghost var before := extended;
      extended := extended + chunk;
      forall i | |before| <= i < |extended|
        ensures extended[i] == StreamByte(sha, out, i)
      {
        ByteOfChunk(sha, out, counter, i - |before|);
      }
    }
    return extended[..count];
  }

  /** Streaming an extension starts with the same bytes as streaming the digest. */
  lemma ExtensionStreamsSame(sha: Hash, out: Bytes, n: nat, i: nat)
    requires IsHash(sha) && i < n
    ensures StreamByte(sha, Prefix(sha, out, n), i) == StreamByte(sha, out, i)
  {
  }

  lemma {:induction false} SameUint(sha: Hash, out: Bytes, n: nat, at: nat, width: nat)
    requires IsHash(sha) && at + width <= n
    ensures Uint(sha, Prefix(sha, out, n), at, width) == Uint(sha, out, at, width)
  {
    if width > 0 {
      SameUint(sha, out, n, at, width - 1);
      ExtensionStreamsSame(sha, out, n, at + width - 1);
    }
  }
}
