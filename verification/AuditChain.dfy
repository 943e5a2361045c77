/**
 The hash-chained audit log. Each row stores a keyed hash of the previous row's hash followed by
 its own canonical text. The keyed hash is an arbitrary function: nothing below assumes that it
 is collision free, so tamper evidence is stated as a reduction to an explicit collision.
 */
module AuditChain {
  import opened Sums
  import opened Octets

  /** HMAC under the fixed chain key: message to digest. */
  type Mac = Bytes -> Bytes

  const DIGEST_LENGTH := 32
  const OPEN_BRACE: Byte := 0x7B

  /** The block hashed in front of the first row. The literal has 128 hex digits, which is 64
      bytes and not the 32 its comment speaks of. */
  function ZeroBlock(): Bytes {
    seq(64, _ => 0)
  }

  /** `prev` is the stored prev_hash column; no check ever reads it. */
  datatype Row = Row(id: int, canonical: Bytes, prev: Option<Bytes>, hash: Bytes)

  ghost predicate IsMac(mac: Mac) {
    forall m :: |mac(m)| == DIGEST_LENGTH
  }

  function Message(prev: Option<Bytes>, canonical: Bytes): Bytes {
    (if prev.Some? then prev.value else ZeroBlock()) + canonical
  }

  /** The hash of the last row, absent for the empty log. */
  function Head(log: seq<Row>): Option<Bytes> {
    if log == [] then None else Some(log[|log| - 1].hash)
  }

  predicate RowGood(mac: Mac, log: seq<Row>, i: nat)
    requires i < |log|
  {
    mac(Message(Head(log[..i]), log[i].canonical)) == log[i].hash
  }

  ghost predicate Chained(mac: Mac, log: seq<Row>) {
    forall i :: 0 <= i < |log| ==> RowGood(mac, log, i)
  }

  predicate IsZeros(z: Bytes) {
    |z| == 64 && forall i :: 0 <= i < 64 ==> z[i] == 0
  }

  /** Row `i` hashes its text behind `z` if it is the first, and behind the hash before it otherwise. */
  predicate HashesOnto(mac: Mac, log: seq<Row>, i: nat, z: Bytes)
    requires i < |log|
  {
    log[i].hash == mac((if i == 0 then z else log[i - 1].hash) + log[i].canonical)
  }

  /** A chain, hash by hash: the first row is hashed onto 64 zero bytes. */
  lemma ChainedIff(mac: Mac, log: seq<Row>, z: Bytes)
    requires IsZeros(z)
    ensures Chained(mac, log) <==> forall i :: 0 <= i < |log| ==> HashesOnto(mac, log, i, z)
  {
    assert z == ZeroBlock();
    forall i | 0 <= i < |log|
      ensures RowGood(mac, log, i) <==> HashesOnto(mac, log, i, z)
    {
      assert i > 0 ==> log[..i][i - 1] == log[i - 1];
    }
  }

  /** JSON objects: the canonical text of every row starts with an opening brace. */
  predicate JsonRows(log: seq<Row>) {
    forall i :: 0 <= i < |log| ==> |log[i].canonical| > 0 && log[i].canonical[0] == OPEN_BRACE
  }

  function Texts(log: seq<Row>): seq<Bytes> {
    seq(|log|, i requires 0 <= i < |log| => log[i].canonical)
  }

  predicate IsCollision(mac: Mac, x: Bytes, y: Bytes) {
    x != y && mac(x) == mac(y)
  }

  /** Walk both logs back from their ends to the first pair of different messages. */
  function FindCollision(mac: Mac, a: seq<Row>, b: seq<Row>): Option<(Bytes, Bytes)>
    decreases |a|
  {
    if a == [] || b == [] then None
    else
      var a', b' := a[..|a| - 1], b[..|b| - 1];
      var x := Message(Head(a'), a[|a| - 1].canonical);
      var y := Message(Head(b'), b[|b| - 1].canonical);
      if x != y then Some((x, y)) else FindCollision(mac, a', b')
  }

  lemma ChainedPrefix(mac: Mac, log: seq<Row>)
    requires Chained(mac, log) && log != []
    ensures Chained(mac, log[..|log| - 1])
    ensures mac(Message(Head(log[..|log| - 1]), log[|log| - 1].canonical)) == log[|log| - 1].hash
  {
    var front := log[..|log| - 1];
    forall i | 0 <= i < |front|
      ensures RowGood(mac, front, i)
    {
      assert front[..i] == log[..i];
      assert RowGood(mac, log, i);
    }
    assert RowGood(mac, log, |log| - 1);
  }

  lemma ChainedAppend(mac: Mac, log: seq<Row>, r: Row)
    requires Chained(mac, log)
    requires mac(Message(Head(log), r.canonical)) == r.hash
    ensures Chained(mac, log + [r])
  {
    var all := log + [r];
    forall i | 0 <= i < |all|
      ensures RowGood(mac, all, i)
    {
      assert all[..i] == log[..i];
      if i < |log| {
        assert RowGood(mac, log, i);
      } else {
        assert log[..i] == log;
      }
    }
  }

  /** The framing of a message is unambiguous: a digest is 32 bytes and is followed by a brace,
      while byte 32 of the zero block is zero. */
  lemma FramingIsUnique(p: Option<Bytes>, c: Bytes, q: Option<Bytes>, d: Bytes)
    requires p.Some? ==> |p.value| == DIGEST_LENGTH
    requires q.Some? ==> |q.value| == DIGEST_LENGTH
    requires |c| > 0 && c[0] == OPEN_BRACE && |d| > 0 && d[0] == OPEN_BRACE
    requires Message(p, c) == Message(q, d)
    ensures p == q && c == d
  {
    var x, y := Message(p, c), Message(q, d);
    assert p.Some? ==> x[DIGEST_LENGTH] == c[0];
    assert q.Some? ==> y[DIGEST_LENGTH] == d[0];
    assert p.None? ==> x[DIGEST_LENGTH] == 0;
    assert q.None? ==> y[DIGEST_LENGTH] == 0;
    assert p.Some? == q.Some?;
    var n := if p.Some? then DIGEST_LENGTH else 64;
    assert c == x[n..] && d == y[n..];
    assert p.Some? ==> p.value == x[..n] && q.value == y[..n];
  }

  lemma HeadIsDigest(mac: Mac, log: seq<Row>)
    requires IsMac(mac) && Chained(mac, log)
    ensures Head(log).Some? ==> |Head(log).value| == DIGEST_LENGTH
  {
    if log != [] {
      ChainedPrefix(mac, log);
    }
  }

  /** Tamper evidence: two logs that both pass the walk and end in the same hash carry the same
      texts row by row, or `FindCollision` hands over a collision of the keyed hash. */
  lemma {:induction false} TamperEvidence(mac: Mac, a: seq<Row>, b: seq<Row>)
    requires IsMac(mac) && Chained(mac, a) && Chained(mac, b) && JsonRows(a) && JsonRows(b)
    requires Head(a) == Head(b)
    ensures var found := FindCollision(mac, a, b);
      if found.Some? then IsCollision(mac, found.value.0, found.value.1) else Texts(a) == Texts(b)
    decreases |a|
  {
    if a != [] && b != [] {
      var a', b' := a[..|a| - 1], b[..|b| - 1];
      ChainedPrefix(mac, a);
      ChainedPrefix(mac, b);
      var c, d := a[|a| - 1].canonical, b[|b| - 1].canonical;
      if Message(Head(a'), c) == Message(Head(b'), d) {
        HeadIsDigest(mac, a');
        HeadIsDigest(mac, b');
        FramingIsUnique(Head(a'), c, Head(b'), d);
        TamperEvidence(mac, a', b');
        if Texts(a') == Texts(b') {
          TextsPrefix(a);
          TextsPrefix(b);
        }
      }
    }
  }

  lemma TextsPrefix(log: seq<Row>)
    requires log != []
    ensures Texts(log) == Texts(log[..|log| - 1]) + [log[|log| - 1].canonical]
  {
  }
}
