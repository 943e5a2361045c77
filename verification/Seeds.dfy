/**
 The commit-reveal life of a user's seeds: bootstrap, draws, client-seed changes and rotations,
 over every run. Random seed material is supplied with the step that consumes it; HMAC-SHA512 and
 SHA-256 are arbitrary functions.
 */
module Seeds {
  import opened Sums
  import opened Octets
  import opened Arithmetic
  import opened RandomBytes

  type User = int

  /** `hmac` maps a key and a message to the 64-byte digest. */
  datatype Primitives = Primitives(sha: Hash, hmac: imap<(Bytes, string), Bytes>)

  ghost predicate ArePrimitives(p: Primitives) {
    IsHash(p.sha) && forall k, m :: (k, m) in p.hmac && |p.hmac[(k, m)]| == 64
  }

  // ----- the HMAC message -----

  function Digit(d: nat): char
    requires d < 10
  {
    ['0', '1', '2', '3', '4', '5', '6', '7', '8', '9'][d]
  }

  function Decimal(n: nat): (r: string)
    ensures |r| > 0
  {
    if n < 10 then [Digit(n)] else Decimal(n / 10) + [Digit(n % 10)]
  }

  /** `f"{client_seed}:{nonce}"`. */
  function Message(client: string, nonce: nat): string {
    client + [':'] + Decimal(nonce)
  }

  function Compute(p: Primitives, seed: Bytes, client: string, nonce: nat): (out: Bytes)
    requires ArePrimitives(p)
    ensures |out| == 64
  {
    p.hmac[(seed, Message(client, nonce))]
  }

  /** The number a string of digits stands for. */
  function ValueOf(d: string): int {
    if d == [] then 0 else ValueOf(d[..|d| - 1]) * 10 + (d[|d| - 1] as int - '0' as int)
  }

  /** `d` is how Python prints the number `n`: digits only, no leading zero, and it reads back as `n`. */
  predicate IsNumeral(d: string, n: int) {
    && d != [] && (forall i :: 0 <= i < |d| ==> '0' <= d[i] <= '9')
    && (|d| > 1 ==> d[0] != '0')
    && ValueOf(d) == n
  }

  lemma DigitIs(x: nat)
    requires x < 10
    ensures '0' <= Digit(x) <= '9' && Digit(x) as int - '0' as int == x
  {
  }

  lemma NumeralAppend(d: string, n: nat, x: nat)
    requires IsNumeral(d, n) && d[0] != '0' && x < 10
    ensures IsNumeral(d + [Digit(x)], 10 * n + x) && (d + [Digit(x)])[0] != '0'
  {
    var e := d + [Digit(x)];
    DigitIs(x);
    assert e[..|e| - 1] == d && e[|e| - 1] == Digit(x);
  }

  lemma {:induction false} DecimalIsNumeral(n: nat)
    ensures IsNumeral(Decimal(n), n)
    ensures n > 0 ==> Decimal(n)[0] != '0'
  {
    if n >= 10 {
      DecimalIsNumeral(n / 10);
      NumeralAppend(Decimal(n / 10), n / 10, n % 10);
    } else {
      DigitIs(n);
      assert [Digit(n)][..0] == [];
    }
  }

  /** The colon of the hashed text is its last one. */
  lemma NoLaterColon(c: string, d: string, n: int, k: nat)
    requires IsNumeral(d, n) && k < |c| + 1 + |d|
    ensures |c| < k ==> (c + ":" + d)[k] != ':'
  {
    var m := c + ":" + d;
    assert |c| < k ==> m[k] == d[k - |c| - 1];
  }

  /** The hashed text determines the client seed and the nonce, whatever characters the seed holds. */
  lemma MessageInjective(c: string, d: string, n: nat, c': string, d': string, n': nat)
    requires IsNumeral(d, n) && IsNumeral(d', n') && c + ":" + d == c' + ":" + d'
    ensures c == c' && n == n'
  {
    var m, m' := c + ":" + d, c' + ":" + d';
    assert |m| == |c| + 1 + |d| == |c'| + 1 + |d'|;
    assert m[|c|] == ':' && m'[|c'|] == ':';
    NoLaterColon(c, d, n, |c'|);
    NoLaterColon(c', d', n', |c|);
    assert c == m[..|c|] && c' == m'[..|c|];
    assert d == m[|c| + 1..] && d' == m'[|c| + 1..];
  }

  // ----- rows -----

  datatype SeedRow = SeedRow(seed: Bytes, hash: Bytes, client: string, nonce: nat)

  /** `lastNonce` is the next nonce the epoch would have used; `client` is only its final value. */
  datatype HistoryRow = HistoryRow(user: User, seed: Bytes, hash: Bytes, client: string, lastNonce: nat,
    rotatedBy: string)

  datatype Store = Store(users: set<User>, live: map<User, SeedRow>, history: seq<HistoryRow>)

  /** A draw as handed to the caller; `epoch` counts the user's earlier rotations. */
  datatype Ticket = Ticket(user: User, epoch: nat, client: string, nonce: nat, hash: Bytes, bytes: Bytes)

  /** The database and every ticket ever issued. */
  datatype World = World(store: Store, tickets: seq<Ticket>)

  const GENESIS := World(Store({}, map[], []), [])

  function HistoryOf(h: seq<HistoryRow>, u: User): seq<HistoryRow> {
    if h == [] then []
    else HistoryOf(h[..|h| - 1], u) + if h[|h| - 1].user == u then [h[|h| - 1]] else []
  }

  function Epoch(s: Store, u: User): nat {
    |HistoryOf(s.history, u)|
  }

  // ----- the procedures -----

  predicate SeedChar(c: char) {
    'A' <= c <= 'Z' || 'a' <= c <= 'z' || '0' <= c <= '9' || c == '_' || c == '-'
  }

  predicate ValidClientSeed(c: string) {
    1 <= |c| <= 64 && forall i :: 0 <= i < |c| ==> SeedChar(c[i])
  }

  datatype Error = InvalidRotatedBy | UnknownUser | SeedNotFound | InvalidClientSeed | InvalidByteCount

  /** `fairness.rotate_user_seed`: archive and replace, or provision the first row. */
  function Rotated(p: Primitives, s: Store, u: User, rotatedBy: string, seed: Bytes, client: string): Result<Store>
    requires ArePrimitives(p)
  {
    if rotatedBy !in ["user", "system", "admin"] then Failed(InvalidRotatedBy)
    else if u !in s.live then
      if u !in s.users then Failed(UnknownUser)
      else Done(s.(live := s.live[u := SeedRow(seed, p.sha[seed], client, 0)]))
    else
      var was := s.live[u];
      Done(s.(
        history := s.history + [HistoryRow(u, was.seed, was.hash, was.client, was.nonce, rotatedBy)],
        live := s.live[u := SeedRow(seed, p.sha[seed], was.client, 0)]))
  }

  datatype Result<+T> = Done(value: T) | Failed(error: Error)

  function Or<T>(r: Result<T>, otherwise: T): T {
    if r.Done? then r.value else otherwise
  }

  /** `request_outcome_bytes`: the row lock makes nonce, seed and client seed one consistent read. */
  function Drawn(p: Primitives, s: Store, u: User, count: int): Result<(Store, Ticket)>
    requires ArePrimitives(p)
  {
    if count <= 0 then Failed(InvalidByteCount)
    else if u !in s.live then Failed(SeedNotFound)
    else
      var row := s.live[u];
      Done((s.(live := s.live[u := row.(nonce := row.nonce + 1)]),
            Ticket(u, Epoch(s, u), row.client, row.nonce, row.hash,
                   Prefix(p.sha, Compute(p, row.seed, row.client, row.nonce), count))))
  }

  function ClientSet(s: Store, u: User, client: string): Result<Store> {
    if !ValidClientSeed(client) then Failed(InvalidClientSeed)
    else if u !in s.live then Failed(SeedNotFound)
    else Done(s.(live := s.live[u := s.live[u].(client := client)]))
  }

  /** `ensure_seeds`; whether the row exists is read without a lock, so it is a step argument. */
  datatype Step =
    | Register(user: User)
    | Rotate(user: User, rotatedBy: string, seed: Bytes, client: string)
    | Ensure(user: User, seen: bool, seed: Bytes, client: string)
    | Draw(user: User, count: int)
    | SetClientSeed(user: User, client: string)

  function Apply(p: Primitives, w: World, step: Step): World
    requires ArePrimitives(p)
  {
    match step
    case Register(u) => w.(store := w.store.(users := w.store.users + {u}))
    case Rotate(u, rotatedBy, seed, client) => w.(store := Or(Rotated(p, w.store, u, rotatedBy, seed, client), w.store))
    case Ensure(u, seen, seed, client) =>
      if seen then w else w.(store := Or(Rotated(p, w.store, u, "system", seed, client), w.store))
    case Draw(u, count) =>
      var r := Drawn(p, w.store, u, count);
      if r.Done? then World(r.value.0, w.tickets + [r.value.1]) else w
    case SetClientSeed(u, client) => w.(store := Or(ClientSet(w.store, u, client), w.store))
  }

  function Run(p: Primitives, steps: seq<Step>): World
    requires ArePrimitives(p)
  {
    if steps == [] then GENESIS else Apply(p, Run(p, steps[..|steps| - 1]), steps[|steps| - 1])
  }

  // ----- what every run keeps -----

  function NoncesOf(ts: seq<Ticket>, u: User, e: nat): seq<nat> {
    if ts == [] then []
    else
      var t := ts[|ts| - 1];
      NoncesOf(ts[..|ts| - 1], u, e) + if t.user == u && t.epoch == e then [t.nonce] else []
  }

  /** The commitment of an epoch: archived, or still live. */
  predicate HasEpoch(s: Store, u: User, e: nat) {
    e < Epoch(s, u) || (e == Epoch(s, u) && u in s.live)
  }

  function SeedOf(s: Store, u: User, e: nat): Bytes
    requires HasEpoch(s, u, e)
  {
    if e < Epoch(s, u) then HistoryOf(s.history, u)[e].seed else s.live[u].seed
  }

  function HashOf(s: Store, u: User, e: nat): Bytes
    requires HasEpoch(s, u, e)
  {
    if e < Epoch(s, u) then HistoryOf(s.history, u)[e].hash else s.live[u].hash
  }

  function DrawsOf(s: Store, u: User, e: nat): nat
    requires HasEpoch(s, u, e)
  {
    if e < Epoch(s, u) then HistoryOf(s.history, u)[e].lastNonce else s.live[u].nonce
  }

  ghost predicate EpochOk(p: Primitives, w: World, u: User, e: nat)
    requires ArePrimitives(p)
  {
    if HasEpoch(w.store, u, e) then
      && HashOf(w.store, u, e) == p.sha[SeedOf(w.store, u, e)]
      && NoncesOf(w.tickets, u, e) == Range(DrawsOf(w.store, u, e))
    else NoncesOf(w.tickets, u, e) == []
  }

  predicate Reproducible(p: Primitives, s: Store, t: Ticket)
    requires ArePrimitives(p)
  {
    && HasEpoch(s, t.user, t.epoch)
    && t.hash == HashOf(s, t.user, t.epoch)
    && t.bytes == Prefix(p.sha, Compute(p, SeedOf(s, t.user, t.epoch), t.client, t.nonce), |t.bytes|)
  }

  ghost predicate Inv(p: Primitives, w: World)
    requires ArePrimitives(p)
  {
    && (forall u, e :: EpochOk(p, w, u, e))
    && (forall i :: 0 <= i < |w.tickets| ==> Reproducible(p, w.store, w.tickets[i]))
    && (forall u :: u !in w.store.live ==> Epoch(w.store, u) == 0)
  }

  lemma HistoryAppend(h: seq<HistoryRow>, r: HistoryRow, u: User)
    ensures HistoryOf(h + [r], u) == HistoryOf(h, u) + if r.user == u then [r] else []
  {
    assert (h + [r])[..|h|] == h;
  }

  lemma NoncesAppend(ts: seq<Ticket>, t: Ticket, u: User, e: nat)
    ensures NoncesOf(ts + [t], u, e) == NoncesOf(ts, u, e) + if t.user == u && t.epoch == e then [t.nonce] else []
  {
    assert (ts + [t])[..|ts|] == ts;
  }

  /** A rotation turns the live epoch into an archived one and opens the next. */
  lemma RotateKeeps(p: Primitives, w: World, u: User, rotatedBy: string, seed: Bytes, client: string)
    requires ArePrimitives(p) && Inv(p, w) && Rotated(p, w.store, u, rotatedBy, seed, client).Done?
    ensures Inv(p, w.(store := Rotated(p, w.store, u, rotatedBy, seed, client).value))
  {
    var s, s' := w.store, Rotated(p, w.store, u, rotatedBy, seed, client).value;
    var w' := w.(store := s');
    forall v, e
      ensures EpochOk(p, w', v, e)
    {
      RotatedEpoch(p, s, u, rotatedBy, seed, client, v, e);
      assert EpochOk(p, w, v, e);
    }
    forall i | 0 <= i < |w.tickets|
      ensures Reproducible(p, s', w.tickets[i])
    {
      RotatedEpoch(p, s, u, rotatedBy, seed, client, w.tickets[i].user, w.tickets[i].epoch);
      assert Reproducible(p, s, w.tickets[i]);
    }
    forall v | v !in s'.live
      ensures Epoch(s', v) == 0
    {
      RotatedEpoch(p, s, u, rotatedBy, seed, client, v, 0);
    }
  }

  /** Rotation keeps every epoch there was; the one it opens has a matching hash and no draws. */
  lemma RotatedEpoch(p: Primitives, s: Store, u: User, rotatedBy: string, seed: Bytes, client: string, v: User, e: nat)
    requires ArePrimitives(p) && Rotated(p, s, u, rotatedBy, seed, client).Done?
    ensures var s' := Rotated(p, s, u, rotatedBy, seed, client).value;
      && (HasEpoch(s, v, e) ==> HasEpoch(s', v, e) && SeedOf(s', v, e) == SeedOf(s, v, e))
      && (HasEpoch(s, v, e) ==> HashOf(s', v, e) == HashOf(s, v, e) && DrawsOf(s', v, e) == DrawsOf(s, v, e))
      && (HasEpoch(s', v, e) && !HasEpoch(s, v, e) ==>
        HashOf(s', v, e) == p.sha[SeedOf(s', v, e)] && DrawsOf(s', v, e) == 0)
      && (v != u ==> Epoch(s', v) == Epoch(s, v))
  {
    var s' := Rotated(p, s, u, rotatedBy, seed, client).value;
    if u in s.live {
      HistoryAppend(s.history, s'.history[|s.history|], v);
    }
  }

  lemma DrawKeeps(p: Primitives, w: World, u: User, count: int)
    requires ArePrimitives(p) && Inv(p, w) && Drawn(p, w.store, u, count).Done?
    ensures Inv(p, Apply(p, w, Draw(u, count)))
  {
    var w' := Apply(p, w, Draw(u, count));
    var s, s', t := w.store, w'.store, w'.tickets[|w.tickets|];
    forall v, e
      ensures EpochOk(p, w', v, e)
    {
      assert EpochOk(p, w, v, e);
      NoncesAppend(w.tickets, t, v, e);
    }
    forall i | 0 <= i < |w'.tickets|
      ensures Reproducible(p, s', w'.tickets[i])
    {
      if i < |w.tickets| {
        assert Reproducible(p, s, w.tickets[i]);
      }
    }
  }

  lemma OthersKeep(p: Primitives, w: World, s': Store)
    requires ArePrimitives(p) && Inv(p, w)
    requires s'.history == w.store.history && s'.live.Keys == w.store.live.Keys
    requires forall u :: u in s'.live ==> s'.live[u] == w.store.live[u].(client := s'.live[u].client)
    ensures Inv(p, w.(store := s'))
  {
    forall v, e
      ensures EpochOk(p, w.(store := s'), v, e)
    {
      assert EpochOk(p, w, v, e);
    }
    forall i | 0 <= i < |w.tickets|
      ensures Reproducible(p, s', w.tickets[i])
    {
      assert Reproducible(p, w.store, w.tickets[i]);
    }
  }

  lemma StepKeepsInv(p: Primitives, w: World, step: Step)
    requires ArePrimitives(p) && Inv(p, w)
    ensures Inv(p, Apply(p, w, step))
  {
    match step
    case Register(u) => OthersKeep(p, w, Apply(p, w, step).store);
    case Rotate(u, rotatedBy, seed, client) =>
      if Rotated(p, w.store, u, rotatedBy, seed, client).Done? {
        RotateKeeps(p, w, u, rotatedBy, seed, client);
      }
    case Ensure(u, seen, seed, client) =>
      if !seen && Rotated(p, w.store, u, "system", seed, client).Done? {
        RotateKeeps(p, w, u, "system", seed, client);
      }
    case Draw(u, count) =>
      if Drawn(p, w.store, u, count).Done? {
        DrawKeeps(p, w, u, count);
      }
    case SetClientSeed(u, client) =>
      if ClientSet(w.store, u, client).Done? {
        OthersKeep(p, w, Apply(p, w, step).store);
      }
  }

  lemma {:induction false} RunKeepsInv(p: Primitives, steps: seq<Step>)
    requires ArePrimitives(p)
    ensures Inv(p, Run(p, steps))
    decreases |steps|
  {
    if steps != [] {
      RunKeepsInv(p, steps[..|steps| - 1]);
      StepKeepsInv(p, Run(p, steps[..|steps| - 1]), steps[|steps| - 1]);
    }
  }

  // ----- the guarantees -----

  /** After any run, every archived epoch carries its seed with the matching hash, its last_nonce is
      the number of draws, and the draws used the nonces 0, 1, ... in order, each once. */
  lemma RevealedEpochsAreComplete(p: Primitives, steps: seq<Step>, u: User, e: nat)
    requires ArePrimitives(p) && e < Epoch(Run(p, steps).store, u)
    ensures var w := Run(p, steps);
      var h := HistoryOf(w.store.history, u)[e];
      h.hash == p.sha[h.seed] && NoncesOf(w.tickets, u, e) == Range(h.lastNonce)
  {
    RunKeepsInv(p, steps);
    assert EpochOk(p, Run(p, steps), u, e);
  }

  /** In the live epoch the nonces issued are exactly 0 .. nonce - 1, each once, in order. */
  lemma LiveNoncesAreExact(p: Primitives, steps: seq<Step>, u: User)
    requires ArePrimitives(p) && u in Run(p, steps).store.live
    ensures var w := Run(p, steps);
      NoncesOf(w.tickets, u, Epoch(w.store, u)) == Range(w.store.live[u].nonce)
      && w.store.live[u].hash == p.sha[w.store.live[u].seed]
  {
    RunKeepsInv(p, steps);
    assert EpochOk(p, Run(p, steps), u, Epoch(Run(p, steps).store, u));
  }

  /** The bytes are the stream of the HMAC, under the seed, of the client seed, a colon and the nonce as a
      decimal numeral. */
  ghost predicate IsDrawnFrom(p: Primitives, bytes: Bytes, seed: Bytes, client: string, nonce: nat)
    requires ArePrimitives(p)
  {
    exists d :: IsNumeral(d, nonce) && bytes == Prefix(p.sha, p.hmac[(seed, client + ":" + d)], |bytes|)
  }

  lemma ComputeIsDrawn(p: Primitives, seed: Bytes, client: string, nonce: nat, n: nat)
    requires ArePrimitives(p)
    ensures IsDrawnFrom(p, Prefix(p.sha, Compute(p, seed, client, nonce), n), seed, client, nonce)
  {
    DecimalIsNumeral(nonce);
  }

  /** Once its epoch is revealed, any ticket can be recomputed from the revealed seed with the
      ticket's own client seed and nonce, and its commitment is the revealed row's hash. */
  lemma RevealReproducesTicket(p: Primitives, steps: seq<Step>, i: nat)
    requires ArePrimitives(p) && i < |Run(p, steps).tickets|
    ensures var w, t := Run(p, steps), Run(p, steps).tickets[i];
      t.epoch < Epoch(w.store, t.user) ==>
        var h := HistoryOf(w.store.history, t.user)[t.epoch];
        && t.hash == h.hash == p.sha[h.seed]
        && IsDrawnFrom(p, t.bytes, h.seed, t.client, t.nonce)
        && t.nonce < h.lastNonce
  {
    RunKeepsInv(p, steps);
    DecimalIsNumeral(Run(p, steps).tickets[i].nonce);
    var w := Run(p, steps);
    var t := w.tickets[i];
    assert Reproducible(p, w.store, t);
    assert EpochOk(p, w, t.user, t.epoch);
    NoncePlace(w.tickets, i, |w.tickets|);
    assert w.tickets[..|w.tickets|] == w.tickets;
  }

  /** Where a ticket's nonce stands among the nonces of its epoch. */
  lemma {:induction false} NoncePlace(ts: seq<Ticket>, i: nat, n: nat)
    requires i < n <= |ts|
    ensures var t := ts[i];
      var k := |NoncesOf(ts[..i], t.user, t.epoch)|;
      k < |NoncesOf(ts[..n], t.user, t.epoch)| && NoncesOf(ts[..n], t.user, t.epoch)[k] == t.nonce
    decreases n
  {
    assert ts[..n][..n - 1] == ts[..n - 1];
    if i < n - 1 {
      NoncePlace(ts, i, n - 1);
    }
  }

  /** The nonce of a ticket is the number of earlier draws in its epoch. */
  lemma NonceCountsDraws(p: Primitives, steps: seq<Step>, i: nat)
    requires ArePrimitives(p) && i < |Run(p, steps).tickets|
    ensures var ts := Run(p, steps).tickets;
      ts[i].nonce == |NoncesOf(ts[..i], ts[i].user, ts[i].epoch)|
  {
    RunKeepsInv(p, steps);
    var w := Run(p, steps);
    var t := w.tickets[i];
    assert Reproducible(p, w.store, t);
    assert EpochOk(p, w, t.user, t.epoch);
    NoncePlace(w.tickets, i, |w.tickets|);
    assert w.tickets[..|w.tickets|] == w.tickets;
  }

  /** Two draws under one seed never hash the same text, whatever the client seeds were. */
  lemma MessagesNeverRepeat(p: Primitives, steps: seq<Step>, i: nat, j: nat, d: string, d': string)
    requires ArePrimitives(p) && i < j < |Run(p, steps).tickets|
    requires var ts := Run(p, steps).tickets; ts[i].user == ts[j].user && ts[i].epoch == ts[j].epoch
    requires var ts := Run(p, steps).tickets; IsNumeral(d, ts[i].nonce) && IsNumeral(d', ts[j].nonce)
    ensures var ts := Run(p, steps).tickets; ts[i].client + ":" + d != ts[j].client + ":" + d'
  {
    var ts := Run(p, steps).tickets;
    NonceCountsDraws(p, steps, i);
    NonceCountsDraws(p, steps, j);
    NoncePlace(ts, i, j);
    if ts[i].client + ":" + d == ts[j].client + ":" + d' {
      MessageInjective(ts[i].client, d, ts[i].nonce, ts[j].client, d', ts[j].nonce);
    }
  }

  /** Under one key, different messages have different digests. */
  ghost predicate InjectivePerKey(p: Primitives)
    requires ArePrimitives(p)
  {
    forall k, m, m' :: p.hmac[(k, m)] == p.hmac[(k, m')] ==> m == m'
  }

  /** If the HMAC is injective per key, two draws of one epoch that cover the digest never repeat bytes. */
  lemma DrawsDiffer(p: Primitives, steps: seq<Step>, i: nat, j: nat)
    requires ArePrimitives(p) && InjectivePerKey(p) && i < j < |Run(p, steps).tickets|
    requires var ts := Run(p, steps).tickets; ts[i].user == ts[j].user && ts[i].epoch == ts[j].epoch
    requires var ts := Run(p, steps).tickets; |ts[i].bytes| >= 64 && |ts[j].bytes| >= 64
    ensures var ts := Run(p, steps).tickets; ts[i].bytes[..64] != ts[j].bytes[..64]
  {
    var w := Run(p, steps);
    var a, b := w.tickets[i], w.tickets[j];
    RunKeepsInv(p, steps);
    assert Reproducible(p, w.store, a) && Reproducible(p, w.store, b);
    DecimalIsNumeral(a.nonce);
    DecimalIsNumeral(b.nonce);
    MessagesNeverRepeat(p, steps, i, j, Decimal(a.nonce), Decimal(b.nonce));
    var seed := SeedOf(w.store, a.user, a.epoch);
    PrefixStartsWithDigest(p, Compute(p, seed, a.client, a.nonce), |a.bytes|);
    PrefixStartsWithDigest(p, Compute(p, seed, b.client, b.nonce), |b.bytes|);
  }

  lemma PrefixStartsWithDigest(p: Primitives, out: Bytes, n: nat)
    requires ArePrimitives(p) && |out| == 64 <= n
    ensures Prefix(p.sha, out, n)[..64] == out
  {
  }

  // ----- what the single steps do -----

  /** A draw hands out the live nonce once, with the live client seed and commitment, and moves nothing else. */
  lemma DrawIssuesTicket(p: Primitives, w: World, u: User, count: int)
    requires ArePrimitives(p) && count > 0 && u in w.store.live
    ensures var w' := Apply(p, w, Draw(u, count));
      var row := w.store.live[u];
      && |w'.tickets| == |w.tickets| + 1 && w'.tickets[..|w.tickets|] == w.tickets
      && var t := w'.tickets[|w.tickets|];
         && t == Ticket(u, Epoch(w.store, u), row.client, row.nonce, row.hash, t.bytes)
         && |t.bytes| == count && IsDrawnFrom(p, t.bytes, row.seed, row.client, row.nonce)
    ensures var row := w.store.live[u];
      Apply(p, w, Draw(u, count)).store == w.store.(live := w.store.live[u := row.(nonce := row.nonce + 1)])
  {
    var row := w.store.live[u];
    ComputeIsDrawn(p, row.seed, row.client, row.nonce, count);
  }

  /** A rotation of a live row archives it whole and starts the next epoch at nonce 0 with the same client seed. */
  lemma RotateArchives(p: Primitives, w: World, u: User, rotatedBy: string, seed: Bytes, client: string)
    requires ArePrimitives(p) && rotatedBy in ["user", "system", "admin"] && u in w.store.live
    ensures var w' := Apply(p, w, Rotate(u, rotatedBy, seed, client));
      var row := w.store.live[u];
      && w'.store.live == w.store.live[u := SeedRow(seed, p.sha[seed], row.client, 0)]
      && w'.store.history == w.store.history + [HistoryRow(u, row.seed, row.hash, row.client, row.nonce, rotatedBy)]
      && w'.store.users == w.store.users && w'.tickets == w.tickets
  {
  }

  /** The client seed changes exactly for 1 to 64 letters, digits, underscores and hyphens, and nothing
      else changes with it. */
  lemma ClientSeedChanges(p: Primitives, w: World, u: User, client: string)
    requires ArePrimitives(p) && u in w.store.live
    ensures var w' := Apply(p, w, SetClientSeed(u, client));
      if 1 <= |client| <= 64 && forall i :: 0 <= i < |client| ==>
           (var c := client[i];
            'A' <= c <= 'Z' || 'a' <= c <= 'z' || '0' <= c <= '9' || c == '_' || c == '-') then
        w' == w.(store := w.store.(live := w.store.live[u := w.store.live[u].(client := client)]))
      else w' == w
  {
  }

  /** Called one after the other, `ensure_seeds` provisions once and then changes nothing. */
  lemma EnsureIsIdempotent(p: Primitives, w: World, u: User, seed: Bytes, client: string, seed': Bytes, client': string)
    requires ArePrimitives(p) && u in w.store.users
    ensures var once := Apply(p, w, Ensure(u, u in w.store.live, seed, client));
      && u in once.store.live
      && once.store.history == w.store.history
      && Apply(p, once, Ensure(u, u in once.store.live, seed', client')) == once
  {
  }

  /** Two first calls that both saw no row: the second one rotates, and reveals an epoch without draws. */
  lemma RacingEnsureRotates(p: Primitives, w: World, u: User, seed: Bytes, client: string, seed': Bytes,
      client': string)
    requires ArePrimitives(p) && u in w.store.users && u !in w.store.live
    ensures var twice := Apply(p, Apply(p, w, Ensure(u, false, seed, client)), Ensure(u, false, seed', client'));
      && twice.store.live[u] == SeedRow(seed', p.sha[seed'], client, 0)
      && twice.store.history == w.store.history + [HistoryRow(u, seed, p.sha[seed], client, 0, "system")]
  {
  }

  /** Exactly when `ensure_seeds` rotates: its look-up saw no row, but there is one by now. In particular
      a call that saw the truth never does. */
  lemma EnsureArchivesIff(p: Primitives, w: World, u: User, seen: bool, seed: Bytes, client: string)
    requires ArePrimitives(p)
    ensures var w' := Apply(p, w, Ensure(u, seen, seed, client));
      && (w'.store.history != w.store.history <==> !seen && u in w.store.live)
      && (w'.store.history != w.store.history ==>
        Epoch(w'.store, u) == Epoch(w.store, u) + 1 && w'.store.live[u].seed == seed)
  {
    if !seen && u in w.store.live {
      var was := w.store.live[u];
      HistoryAppend(w.store.history, HistoryRow(u, was.seed, was.hash, was.client, was.nonce, "system"), u);
    }
  }

  // ----- the procedures as they are written -----

  class SeedTables {
    var store: Store

    constructor ()
      ensures store == GENESIS.store
    {
      store := Store({}, map[], []);
    }

    /** Returns the revealed seed, if any, and the new commitment. */
    method RotateUserSeed(p: Primitives, u: User, rotatedBy: string, seed: Bytes, client: string)
      returns (r: Result<(Option<Bytes>, Bytes)>)
      requires ArePrimitives(p)
      modifies this
      ensures store == Or(Rotated(p, old(store), u, rotatedBy, seed, client), old(store))
      ensures r.Done? <==> Rotated(p, old(store), u, rotatedBy, seed, client).Done?
      ensures r.Done? ==>
        && r.value.0 == (if u in old(store).live then Some(old(store).live[u].seed) else None)
        && r.value.1 == store.live[u].hash
    {
      if rotatedBy !in ["user", "system", "admin"] {
        return Failed(InvalidRotatedBy);
      }
      var hash := p.sha[seed];
      if u !in store.live {
        if u !in store.users {
          return Failed(UnknownUser);
        }
        store := store.(live := store.live[u := SeedRow(seed, hash, client, 0)]);
        return Done((None, hash));
      }
      var was := store.live[u];
      store := store.(history := store.history + [HistoryRow(u, was.seed, was.hash, was.client, was.nonce, rotatedBy)]);
      store := store.(live := store.live[u := SeedRow(seed, hash, was.client, 0)]);
      return Done((Some(was.seed), hash));
    }

    /** `fairness.next_nonce`: increment, and hand out the value before it. */
    method NextNonce(u: User) returns (r: Result<nat>)
      modifies this
      ensures var s := old(store);
        if u in s.live then
          r == Done(s.live[u].nonce) && store == s.(live := s.live[u := s.live[u].(nonce := s.live[u].nonce + 1)])
        else r == Failed(SeedNotFound) && store == s
    {
      if u !in store.live {
        return Failed(SeedNotFound);
      }
      var row := store.live[u];
      store := store.(live := store.live[u := row.(nonce := row.nonce + 1)]);
      return Done(store.live[u].nonce - 1);
    }

    method RequestOutcomeBytes(p: Primitives, u: User, count: int) returns (r: Result<Ticket>)
      requires ArePrimitives(p)
      modifies this
      ensures var d := Drawn(p, old(store), u, count);
        if d.Done? then r == Done(d.value.1) && store == d.value.0 else r == Failed(d.error) && store == old(store)
      ensures r.Done? <==> count > 0 && u in old(store).live
      ensures r.Done? ==>
        var row := old(store).live[u];
        && |r.value.bytes| == count && r.value.nonce == row.nonce && r.value.client == row.client
        && IsDrawnFrom(p, r.value.bytes, row.seed, row.client, row.nonce)
    {
      if count <= 0 {
        return Failed(InvalidByteCount);
      }
      if u !in store.live {
        return Failed(SeedNotFound);
      }
      var used := NextNonce(u);
      var row := store.live[u];
      var head := Compute(p, row.seed, row.client, used.value);
      var bytes := Extend(p.sha, head, count);
      ComputeIsDrawn(p, row.seed, row.client, used.value, count);
      return Done(Ticket(u, Epoch(store, u), row.client, used.value, row.hash, bytes));
    }

    method SetClient(u: User, client: string) returns (r: Result<()>)
      modifies this
      ensures store == Or(ClientSet(old(store), u, client), old(store))
      ensures var d := ClientSet(old(store), u, client); r == if d.Done? then Done(()) else Failed(d.error)
    {
      if !ValidClientSeed(client) {
        return Failed(InvalidClientSeed);
      }
      if u !in store.live {
        return Failed(SeedNotFound);
      }
      store := store.(live := store.live[u := store.live[u].(client := client)]);
      return Done(());
    }
  }
}
