/**
 The writer side of the audit chain: the insert helper, and every interleaving of transactions
 that call it any number of times, commit or abort at any point and leave gaps in the id sequence.
 */
module ChainWriter {
  import opened Sums
  import opened Octets
  import opened AuditChain

  type Tx = int

  /** Where a transaction stands inside the helper; between two calls it is outside. */
  datatype Phase =
    | Outside
    | Locked(prev: Option<Bytes>)
    | Hashed(prev: Option<Bytes>, canonical: Bytes, hash: Bytes)
    | Inserted(hash: Bytes)

  /** A transaction's own uncommitted rows and, once written, its version of the state row. */
  datatype Session = Session(phase: Phase, rows: seq<Row>, state: Option<Option<Bytes>>)

  const FRESH := Session(Outside, [], None)

  /** `log` is the committed table in commit order, `state` the committed chain-state row,
      `holder` the transaction that holds its row lock. The sequence is never rolled back. */
  datatype System = System(
    log: seq<Row>, state: Option<Bytes>, nextId: int, holder: Option<Tx>, sessions: map<Tx, Session>)

  const START := System([], None, 1, None, map[])

  datatype Micro =
    | LockState(tx: Tx)
    | ComputeHash(tx: Tx, canonical: Bytes)
    | InsertRow(tx: Tx)
    | UpdateState(tx: Tx)
    | CommitTx(tx: Tx)
    | AbortTx(tx: Tx)

  function SessionOf(s: System, t: Tx): Session {
    if t in s.sessions then s.sessions[t] else FRESH
  }

  /** The state row as the lock holder sees it: its own version, or the committed one. */
  function Visible(s: System, t: Session): Option<Bytes> {
    if t.state.Some? then t.state.value else s.state
  }

  predicate Enabled(s: System, m: Micro) {
    var t := SessionOf(s, m.tx);
    match m
    case LockState(tx) => t.phase.Outside? && (s.holder.None? || s.holder == Some(tx))
    case ComputeHash(_, _) => t.phase.Locked?
    case InsertRow(_) => t.phase.Hashed?
    case UpdateState(_) => t.phase.Inserted?
    case CommitTx(_) => t.phase.Outside?
    case AbortTx(_) => true
  }

  function Next(mac: Mac, s: System, m: Micro): System
    requires Enabled(s, m)
  {
    var t := SessionOf(s, m.tx);
    match m
    case LockState(tx) => s.(holder := Some(tx), sessions := s.sessions[tx := t.(phase := Locked(Visible(s, t)))])
    case ComputeHash(tx, c) =>
      s.(sessions := s.sessions[tx := t.(phase := Hashed(t.phase.prev, c, mac(Message(t.phase.prev, c))))])
    case InsertRow(tx) =>
      var r := Row(s.nextId, t.phase.canonical, t.phase.prev, t.phase.hash);
      var t' := t.(phase := Inserted(t.phase.hash), rows := t.rows + [r]);
      s.(nextId := s.nextId + 1, sessions := s.sessions[tx := t'])
    case UpdateState(tx) =>
      s.(sessions := s.sessions[tx := t.(phase := Outside, state := Some(Some(t.phase.hash)))])
    case CommitTx(tx) =>
      System(s.log + t.rows, Visible(s, t), s.nextId, Released(s.holder, tx), s.sessions - {tx})
    case AbortTx(tx) =>
      s.(holder := Released(s.holder, tx), sessions := s.sessions - {tx})
  }

  function Released(holder: Option<Tx>, tx: Tx): Option<Tx> {
    if holder == Some(tx) then None else holder
  }

  /** A blocked step waits: it changes nothing. */
  function Interleave(mac: Mac, steps: seq<Micro>): System {
    if steps == [] then START
    else
      var s := Interleave(mac, steps[..|steps| - 1]);
      var m := steps[|steps| - 1];
      if Enabled(s, m) then Next(mac, s, m) else s
  }

  // ----- the invariant -----

  ghost predicate Ascending(log: seq<Row>) {
    forall i, j :: 0 <= i < j < |log| ==> log[i].id < log[j].id
  }

  ghost predicate IdsWithin(log: seq<Row>, nextId: int) {
    forall i :: 0 <= i < |log| ==> 1 <= log[i].id < nextId
  }

  ghost predicate LinksStored(log: seq<Row>) {
    forall i :: 0 <= i < |log| ==> log[i].prev == Head(log[..i])
  }

  /** A log the helper may have written. */
  ghost predicate WellWritten(mac: Mac, log: seq<Row>, nextId: int) {
    Chained(mac, log) && Ascending(log) && IdsWithin(log, nextId) && LinksStored(log)
  }

  /** The lock holder extends the committed log; everyone else has written nothing. */
  ghost predicate SessionOk(mac: Mac, s: System, t: Session) {
    var all := s.log + t.rows;
    && WellWritten(mac, all, s.nextId)
    && match t.phase
       case Outside => Visible(s, t) == Head(all)
       case Locked(prev) => prev == Head(all)
       case Hashed(prev, c, h) => prev == Head(all) && h == mac(Message(prev, c))
       case Inserted(h) => Head(all) == Some(h)
  }

  ghost predicate WriterInv(mac: Mac, s: System) {
    && WellWritten(mac, s.log, s.nextId)
    && s.state == Head(s.log)
    && (forall t :: t in s.sessions && s.holder != Some(t) ==> s.sessions[t] == FRESH)
    && (s.holder.Some? ==> s.holder.value in s.sessions && SessionOk(mac, s, s.sessions[s.holder.value]))
  }

  lemma WellWrittenAppend(mac: Mac, log: seq<Row>, nextId: int, c: Bytes)
    requires WellWritten(mac, log, nextId) && nextId >= 1
    ensures var r := Row(nextId, c, Head(log), mac(Message(Head(log), c)));
      WellWritten(mac, log + [r], nextId + 1)
  {
    var r := Row(nextId, c, Head(log), mac(Message(Head(log), c)));
    ChainedAppend(mac, log, r);
    var all := log + [r];
    forall i | 0 <= i < |all|
      ensures all[i].prev == Head(all[..i])
    {
      assert all[..i] == log[..i];
      if i == |log| {
        assert log[..i] == log;
      }
    }
  }

  lemma HolderSteps(mac: Mac, s: System, m: Micro)
    requires WriterInv(mac, s) && s.nextId >= 1 && Enabled(s, m)
    requires m.ComputeHash? || m.UpdateState?
    ensures WriterInv(mac, Next(mac, s, m)) && Next(mac, s, m).nextId >= 1
  {
    assert s.holder == Some(m.tx);
  }

  lemma ExtendRows(mac: Mac, log: seq<Row>, rows: seq<Row>, nextId: int, c: Bytes)
    requires WellWritten(mac, log + rows, nextId) && nextId >= 1
    ensures var r := Row(nextId, c, Head(log + rows), mac(Message(Head(log + rows), c)));
      WellWritten(mac, log + (rows + [r]), nextId + 1) && Head(log + (rows + [r])) == Some(r.hash)
  {
    var r := Row(nextId, c, Head(log + rows), mac(Message(Head(log + rows), c)));
    WellWrittenAppend(mac, log + rows, nextId, c);
    assert log + (rows + [r]) == (log + rows) + [r];
  }

  lemma InsertStep(mac: Mac, s: System, tx: Tx)
    requires WriterInv(mac, s) && s.nextId >= 1 && Enabled(s, InsertRow(tx))
    ensures WriterInv(mac, Next(mac, s, InsertRow(tx))) && Next(mac, s, InsertRow(tx)).nextId >= 1
  {
    var t := s.sessions[tx];
    var r := Row(s.nextId, t.phase.canonical, t.phase.prev, t.phase.hash);
    var t' := t.(phase := Inserted(t.phase.hash), rows := t.rows + [r]);
    var s' := Next(mac, s, InsertRow(tx));
    assert s.holder == Some(tx) && s'.sessions[tx] == t';
    ExtendRows(mac, s.log, t.rows, s.nextId, t.phase.canonical);
    assert SessionOk(mac, s', t');
    WellWrittenLater(mac, s.log, s.nextId);
  }

  lemma WellWrittenLater(mac: Mac, log: seq<Row>, nextId: int)
    requires WellWritten(mac, log, nextId)
    ensures WellWritten(mac, log, nextId + 1)
  {
  }

  lemma EdgeSteps(mac: Mac, s: System, m: Micro)
    requires WriterInv(mac, s) && s.nextId >= 1 && Enabled(s, m)
    requires m.LockState? || m.CommitTx? || m.AbortTx?
    ensures WriterInv(mac, Next(mac, s, m)) && Next(mac, s, m).nextId >= 1
  {
    assert s.log + [] == s.log;
  }

  lemma {:induction false} WriterKeepsInv(mac: Mac, steps: seq<Micro>)
    ensures WriterInv(mac, Interleave(mac, steps)) && Interleave(mac, steps).nextId >= 1
    decreases |steps|
  {
    if steps != [] {
      var front, m := steps[..|steps| - 1], steps[|steps| - 1];
      WriterKeepsInv(mac, front);
      var s := Interleave(mac, front);
      if Enabled(s, m) {
        if m.LockState? || m.CommitTx? || m.AbortTx? {
          EdgeSteps(mac, s, m);
        } else if m.InsertRow? {
          InsertStep(mac, s, m.tx);
        } else {
          HolderSteps(mac, s, m);
        }
      }
    }
  }

  /** For every interleaving, with aborts and gaps: commit order is id order, the committed rows
      form a valid chain with the stored links in place, and the state row is the last row's hash. */
  lemma CommittedRowsFormAChain(mac: Mac, steps: seq<Micro>)
    ensures var s := Interleave(mac, steps);
      Chained(mac, s.log) && Ascending(s.log) && LinksStored(s.log) && s.state == Head(s.log)
      && forall i :: 0 <= i < |s.log| ==> 1 <= s.log[i].id < s.nextId
  {
    WriterKeepsInv(mac, steps);
  }

  // ----- nothing keeps a row out -----

  /** One call of the helper by a transaction that then commits. */
  function OneInsert(tx: Tx, c: Bytes): seq<Micro> {
    [LockState(tx), ComputeHash(tx, c), InsertRow(tx), UpdateState(tx), CommitTx(tx)]
  }

  lemma StepTo(mac: Mac, steps: seq<Micro>, s: System, m: Micro, s': System)
    requires Interleave(mac, steps) == s && Enabled(s, m) && Next(mac, s, m) == s'
    ensures Interleave(mac, steps + [m]) == s'
  {
    assert (steps + [m])[..|steps|] == steps;
  }

  /** When nobody holds the state row, a helper call appends its row under the next id and commits. */
  lemma InsertCommits(mac: Mac, steps: seq<Micro>, s: System, tx: Tx, c: Bytes)
    requires Interleave(mac, steps) == s && s.holder.None? && tx !in s.sessions
    ensures var hash := mac(Message(s.state, c));
      Interleave(mac, steps + OneInsert(tx, c))
      == s.(log := s.log + [Row(s.nextId, c, s.state, hash)], state := Some(hash), nextId := s.nextId + 1)
  {
    var hash := mac(Message(s.state, c));
    var r := Row(s.nextId, c, s.state, hash);
    var held := s.(holder := Some(tx));
    var s1 := held.(sessions := s.sessions[tx := Session(Locked(s.state), [], None)]);
    var s2 := held.(sessions := s.sessions[tx := Session(Hashed(s.state, c, hash), [], None)]);
    var s3 := held.(nextId := s.nextId + 1, sessions := s.sessions[tx := Session(Inserted(hash), [r], None)]);
    var s4 := s3.(sessions := s.sessions[tx := Session(Outside, [r], Some(Some(hash)))]);
    StepTo(mac, steps, s, LockState(tx), s1);
    StepTo(mac, steps + [LockState(tx)], s1, ComputeHash(tx, c), s2);
    assert Next(mac, s2, InsertRow(tx)) == s3 by {
      assert [] + [r] == [r];
      assert s2.sessions[tx := Session(Inserted(hash), [r], None)] == s3.sessions;
    }
    StepTo(mac, steps + [LockState(tx)] + [ComputeHash(tx, c)], s2, InsertRow(tx), s3);
    var three := steps + [LockState(tx)] + [ComputeHash(tx, c)] + [InsertRow(tx)];
    StepTo(mac, three, s3, UpdateState(tx), s4);
    assert s4.sessions - {tx} == s.sessions;
    StepTo(mac, three + [UpdateState(tx)], s4, CommitTx(tx), Next(mac, s4, CommitTx(tx)));
    assert three + [UpdateState(tx)] + [CommitTx(tx)] == steps + OneInsert(tx, c);
  }

  /** Every sequence of texts is the committed log of some interleaving. */
  lemma {:induction false} EveryLogIsWritten(mac: Mac, texts: seq<Bytes>) returns (steps: seq<Micro>)
    ensures var s := Interleave(mac, steps); Texts(s.log) == texts && s.holder.None? && s.sessions == map[]
    decreases |texts|
  {
    if texts == [] {
      steps := [];
    } else {
      var front, c := texts[..|texts| - 1], texts[|texts| - 1];
      steps := EveryLogIsWritten(mac, front);
      InsertCommits(mac, steps, Interleave(mac, steps), 0, c);
      var log := Interleave(mac, steps).log;
      steps := steps + OneInsert(0, c);
      assert Texts(Interleave(mac, steps).log) == Texts(log) + [c];
      assert texts == front + [c];
    }
  }

  // ----- the helper, called alone -----

  datatype InsertReply = NewRow(id: int) | KeyNotConfigured | KeyIsEmpty

  class AuditTable {
    var rows: seq<Row>
    var lastHash: Option<Bytes>
    var nextId: int
    /** The `app.audit_chain_key` setting, decoded. */
    var key: Option<Bytes>

    ghost predicate Valid(hmac: (Bytes, Bytes) -> Bytes)
      reads this
    {
      && nextId >= 1 && lastHash == Head(rows)
      && (key.Some? ==> WellWritten(Keyed(hmac, key.value), rows, nextId))
      && (key.None? ==> rows == [])
    }

    constructor (setting: Option<Bytes>, ghost hmac: (Bytes, Bytes) -> Bytes)
      ensures Valid(hmac) && rows == [] && key == setting
    {
      rows, lastHash, nextId, key := [], None, 1, setting;
    }

    method InsertWithChain(canonical: Bytes, hmac: (Bytes, Bytes) -> Bytes) returns (r: InsertReply)
      requires Valid(hmac)
      modifies this`rows, this`lastHash, this`nextId
      ensures Valid(hmac)
      ensures r.NewRow? <==> key.Some? && key.value != []
      ensures r == KeyNotConfigured <==> key.None?
      ensures if r.NewRow? then |rows| == |old(rows)| + 1 && rows[..|old(rows)|] == old(rows)
                             && rows[|old(rows)|].canonical == canonical && rows[|old(rows)|].id == r.id == old(nextId)
              else rows == old(rows)
      ensures r.NewRow? ==> exists z :: IsZeros(z) && HashesOnto(Keyed(hmac, key.value), rows, |old(rows)|, z)
    {
      if key.None? {
        return KeyNotConfigured;
      }
      if key.value == [] {
        return KeyIsEmpty;
      }
      var prev := lastHash;
      assert IsZeros(ZeroBlock());
      WellWrittenAppend(Keyed(hmac, key.value), rows, nextId, canonical);
      var hash := hmac(Message(prev, canonical), key.value);
      rows := rows + [Row(nextId, canonical, prev, hash)];
      r := NewRow(nextId);
      nextId := nextId + 1;
      lastHash := Some(hash);
    }
  }

  function Keyed(hmac: (Bytes, Bytes) -> Bytes, key: Bytes): Mac {
    m => hmac(m, key)
  }
}
