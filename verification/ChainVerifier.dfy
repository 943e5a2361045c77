/**
 The reader side of the audit chain: the capped walk from a resume id, and the worker that keeps
 its resume pointer between ticks.
 */
module ChainVerifier {
  import opened Sums
  import opened Octets
  import opened AuditChain
  import opened ChainWriter

  /** The table as a query in id order returns it; ids come from a sequence starting at 1. */
  ghost predicate IsTable(log: seq<Row>) {
    Ascending(log) && forall i :: 0 <= i < |log| ==> log[i].id >= 1
  }

  datatype Reply = Verified(checked: nat, lastId: int, broken: Option<int>) | NoKey | EmptyKey | NegativeLimit

  /** The first row at or after `i` with an id of at least `from`. */
  function StartAt(log: seq<Row>, from: int, i: nat): (r: nat)
    requires i <= |log|
    ensures i <= r <= |log|
    ensures forall k :: i <= k < r ==> log[k].id < from
    ensures r < |log| ==> log[r].id >= from
    decreases |log| - i
  {
    if i == |log| || log[i].id >= from then i else StartAt(log, from, i + 1)
  }

  /** The first row in [i, end) whose hash is not the one recomputed, or `end`. */
  function FirstBad(mac: Mac, log: seq<Row>, i: nat, end: nat): (r: nat)
    requires i <= end <= |log|
    ensures i <= r <= end
    ensures forall k :: i <= k < r ==> RowGood(mac, log, k)
    ensures r < end ==> !RowGood(mac, log, r)
    decreases end - i
  {
    if i == end || !RowGood(mac, log, i) then i else FirstBad(mac, log, i + 1, end)
  }

  /** `LIMIT NULL` is no limit. */
  function LimitOf(maxRows: Option<int>): Option<nat> {
    if maxRows.Some? && maxRows.value >= 0 then Some(maxRows.value) else None
  }

  /** One past the last row a walk from row `i` may look at. */
  function EndOf(log: seq<Row>, i: nat, cap: Option<nat>): (r: nat)
    requires i <= |log|
    ensures i <= r <= |log|
  {
    if cap.None? || i + cap.value >= |log| then |log| else i + cap.value
  }

  /** The answer of a walk over the rows [i, end): how many rows are good before the first bad one. */
  function Answer(mac: Mac, log: seq<Row>, first: int, i: nat, end: nat): Reply
    requires i <= end <= |log|
  {
    var j := FirstBad(mac, log, i, end);
    Verified(j - i, if j > i then log[j - 1].id else first, if j < end then Some(log[j].id) else None)
  }

  /** What a walk from `from` over at most `cap` rows must answer. */
  function Verdict(mac: Mac, log: seq<Row>, from: Option<int>, cap: Option<nat>): Reply {
    var first := if from.Some? then from.value else 0;
    var i := StartAt(log, first, 0);
    Answer(mac, log, first, i, EndOf(log, i, cap))
  }

  /** `core.verify_audit_chain`. */
  method VerifyAuditChain(log: seq<Row>, key: Option<Bytes>, hmac: (Bytes, Bytes) -> Bytes, from: Option<int>,
      maxRows: Option<int>)
    returns (r: Reply)
    requires IsTable(log)
    ensures key.None? <==> r == NoKey
    ensures key == Some([]) <==> r == EmptyKey
    ensures r == NegativeLimit <==> key.Some? && key.value != [] && maxRows.Some? && maxRows.value < 0
    ensures r.Verified? ==> r == Verdict(Keyed(hmac, key.value), log, from, LimitOf(maxRows))
  {
    if key.None? {
      return NoKey;
    }
    if key.value == [] {
      return EmptyKey;
    }
    if maxRows.Some? && maxRows.value < 0 {
      return NegativeLimit;
    }
    r := WalkRows(log, key.value, hmac, from, LimitOf(maxRows));
  }

  method WalkRows(log: seq<Row>, key: Bytes, hmac: (Bytes, Bytes) -> Bytes, from: Option<int>, cap: Option<nat>)
    returns (r: Reply)
    requires IsTable(log)
    ensures r == Verdict(Keyed(hmac, key), log, from, cap)
  {
    var start, prev := SeedRow(log, from);
    var end := EndOf(log, start, cap);
    r := Recompute(log, hmac, key, if from.Some? then from.value else 0, prev, start, end);
  }

  /** The position of the first row with `id >= from`, and the hash of the row before it, which is
      looked up only for a positive `from`. */
  method SeedRow(log: seq<Row>, from: Option<int>) returns (start: nat, prev: Option<Bytes>)
    requires IsTable(log)
    ensures start == StartAt(log, if from.Some? then from.value else 0, 0)
    ensures prev == Head(log[..start])
  {
    var first := if from.Some? then from.value else 0;
    start := 0;
    while start < |log| && log[start].id < first
      invariant 0 <= start <= |log|
      invariant StartAt(log, first, 0) == StartAt(log, first, start)
    {
      start := start + 1;
    }
    prev := None;
    if from.Some? && from.value > 0 && start > 0 {
      prev := Some(log[start - 1].hash);
    }
  }

  /** The loop over the selected rows, with its early exit. */
  method Recompute(log: seq<Row>, hmac: (Bytes, Bytes) -> Bytes, key: Bytes, first: int, seed: Option<Bytes>,
      start: nat, end: nat)
    returns (r: Reply)
    requires start <= end <= |log| && seed == Head(log[..start])
    ensures r == Answer(Keyed(hmac, key), log, first, start, end)
  {
    ghost var mac := Keyed(hmac, key);
    var prev, count, last, broken := seed, 0, first, None;
    for i := start to end
      invariant prev == Head(log[..i])
      invariant count == i - start
      invariant last == if i > start then log[i - 1].id else first
      invariant broken == None
      invariant FirstBad(mac, log, start, end) == FirstBad(mac, log, i, end)
    {
      var expected := hmac(Message(prev, log[i].canonical), key);
      assert RowGood(mac, log, i) <==> expected == log[i].hash;
      if expected != log[i].hash {
        broken := Some(log[i].id);
        break;
      }
      prev := Some(log[i].hash);
      last := log[i].id;
      count := count + 1;
    }
    return Verified(count, last, broken);
  }

  // ----- the worker -----

  function Resume(pointer: Option<int>): int {
    if pointer.Some? then pointer.value else 0
  }

  /** The pointer moves only past rows that were checked, and never on a break. */
  function Advance(pointer: Option<int>, r: Reply): Option<int> {
    if r.Verified? && r.broken.None? && r.checked > 0 then Some(r.lastId) else pointer
  }

  class Worker {
    /** `last_verified_audit_row_id` in `dw.global_config`. */
    var pointer: Option<int>
    const cap: nat

    constructor (cap: nat)
      ensures pointer == None && this.cap == cap
    {
      this.cap := cap;
      pointer := None;
    }

    method Tick(log: seq<Row>, key: Option<Bytes>, hmac: (Bytes, Bytes) -> Bytes) returns (r: Reply)
      requires IsTable(log)
      modifies this`pointer
      ensures key.Some? && key.value != [] ==>
        r == Verdict(Keyed(hmac, key.value), log, Some(Resume(old(pointer))), Some(cap))
      ensures pointer == Advance(old(pointer), r)
    {
      var lastId := if pointer.Some? then pointer.value else 0;
      r := VerifyAuditChain(log, key, hmac, Some(lastId), Some(cap));
      if r.Verified? && r.broken.None? && r.checked > 0 {
        pointer := Some(r.lastId);
      }
    }
  }

  function Report(mac: Mac, log: seq<Row>, cap: nat, pointer: Option<int>): Reply {
    Verdict(mac, log, Some(Resume(pointer)), Some(cap))
  }

  /** The pointer after `n` ticks on a fixed log. */
  function Ticks(mac: Mac, log: seq<Row>, cap: nat, n: nat): Option<int> {
    if n == 0 then None
    else
      var p := Ticks(mac, log, cap, n - 1);
      Advance(p, Report(mac, log, cap, p))
  }

  /** The answer of one uncapped walk over the whole log. */
  function FullBreak(mac: Mac, log: seq<Row>): Option<int> {
    Verdict(mac, log, None, None).broken
  }

  // ----- incremental verification refines the full walk -----

  /** The pointer stands on row `k`, or before the first row. */
  ghost predicate At(log: seq<Row>, pointer: Option<int>, k: int) {
    if k == -1 then Resume(pointer) == 0 else 0 <= k < |log| && pointer == Some(log[k].id)
  }

  function Bad(mac: Mac, log: seq<Row>): nat {
    FirstBad(mac, log, 0, |log|)
  }

  lemma StartsAtPointer(log: seq<Row>, pointer: Option<int>, k: int)
    requires IsTable(log) && At(log, pointer, k)
    ensures StartAt(log, Resume(pointer), 0) == if k == -1 then 0 else k
  {
  }

  lemma FullBreakIs(mac: Mac, log: seq<Row>)
    requires IsTable(log)
    ensures FullBreak(mac, log) == if Bad(mac, log) < |log| then Some(log[Bad(mac, log)].id) else None
  {
    StartsAtPointer(log, None, -1);
  }

  function Begin(k: int): int {
    if k == -1 then 0 else k
  }

  /** Where the pointer stands after one more tick. */
  function NextRow(mac: Mac, log: seq<Row>, cap: nat, k: int): int
    requires -1 <= k < |log| || k == -1
  {
    var end := EndOf(log, Begin(k), Some(cap));
    if Bad(mac, log) < end || end == Begin(k) then k else end - 1
  }

  lemma TickStep(mac: Mac, log: seq<Row>, cap: nat, pointer: Option<int>, k: int)
    requires IsTable(log) && At(log, pointer, k) && k < Bad(mac, log)
    ensures var r := Report(mac, log, cap, pointer);
      var end := EndOf(log, Begin(k), Some(cap));
      && r.broken == (if Bad(mac, log) < end then Some(log[Bad(mac, log)].id) else None)
      && At(log, Advance(pointer, r), NextRow(mac, log, cap, k))
      && k <= NextRow(mac, log, cap, k) < Bad(mac, log)
  {
    StartsAtPointer(log, pointer, k);
    var i, end := Begin(k), EndOf(log, Begin(k), Some(cap));
    var j := FirstBad(mac, log, i, end);
    var b := Bad(mac, log);
    if b < end {
      assert !RowGood(mac, log, b);
      assert j <= b;
      assert j < end && !RowGood(mac, log, j);
      assert j == b;
    } else {
      assert j == end;
    }
  }

  /** The row index the pointer stands on after `n` ticks. */
  function RowAfter(mac: Mac, log: seq<Row>, cap: nat, n: nat): (k: int)
    ensures k == -1 || 0 <= k < |log|
  {
    if n == 0 then -1 else NextRow(mac, log, cap, RowAfter(mac, log, cap, n - 1))
  }

  lemma {:induction false} PointerIsSound(mac: Mac, log: seq<Row>, cap: nat, n: nat)
    requires IsTable(log)
    ensures At(log, Ticks(mac, log, cap, n), RowAfter(mac, log, cap, n))
    ensures RowAfter(mac, log, cap, n) < Bad(mac, log)
  {
    if n > 0 {
      PointerIsSound(mac, log, cap, n - 1);
      TickStep(mac, log, cap, Ticks(mac, log, cap, n - 1), RowAfter(mac, log, cap, n - 1));
    }
  }

  /** Every tick before the break comes into range moves the pointer by at least one row. */
  lemma {:induction false} PointerProgress(mac: Mac, log: seq<Row>, cap: nat, n: nat)
    requires IsTable(log) && cap >= 2
    ensures var k := RowAfter(mac, log, cap, n);
      k >= n - 1 || Bad(mac, log) < EndOf(log, Begin(k), Some(cap)) || k == |log| - 1
  {
    if n > 0 {
      PointerProgress(mac, log, cap, n - 1);
      PointerIsSound(mac, log, cap, n - 1);
    }
  }

  /** Repeated ticks with any cap of at least two report what one uncapped walk reports: never
      anything else on the way, and always from the tick numbered by the length of the log on. */
  lemma TicksRefineFullWalk(mac: Mac, log: seq<Row>, cap: nat, n: nat)
    requires IsTable(log)
    ensures var broken := Report(mac, log, cap, Ticks(mac, log, cap, n)).broken;
      && (broken.None? || broken == FullBreak(mac, log))
      && (cap >= 2 && n >= |log| ==> broken == FullBreak(mac, log))
  {
    FullBreakIs(mac, log);
    PointerIsSound(mac, log, cap, n);
    var k := RowAfter(mac, log, cap, n);
    TickStep(mac, log, cap, Ticks(mac, log, cap, n), k);
    if cap >= 2 {
      PointerProgress(mac, log, cap, n);
    }
  }

  /** The pointer is monotone, never reaches a broken row, and reaches the end of a clean log. */
  lemma PointerIsMonotone(mac: Mac, log: seq<Row>, cap: nat, n: nat)
    requires IsTable(log)
    ensures Resume(Ticks(mac, log, cap, n)) <= Resume(Ticks(mac, log, cap, n + 1))
    ensures Bad(mac, log) < |log| ==> Resume(Ticks(mac, log, cap, n)) < log[Bad(mac, log)].id
    ensures cap >= 2 && n >= |log| > 0 && Chained(mac, log) ==> Ticks(mac, log, cap, n) == Some(log[|log| - 1].id)
  {
    PointerIsSound(mac, log, cap, n);
    PointerIsSound(mac, log, cap, n + 1);
    var k, k' := RowAfter(mac, log, cap, n), RowAfter(mac, log, cap, n + 1);
    TickStep(mac, log, cap, Ticks(mac, log, cap, n), k);
    AtIsMonotone(log, Ticks(mac, log, cap, n), k, Ticks(mac, log, cap, n + 1), k');
    if cap >= 2 && Chained(mac, log) {
      PointerProgress(mac, log, cap, n);
    }
  }

  lemma AtIsMonotone(log: seq<Row>, p: Option<int>, k: int, p': Option<int>, k': int)
    requires IsTable(log) && At(log, p, k) && At(log, p', k') && -1 <= k <= k'
    ensures Resume(p) <= Resume(p')
    ensures forall b :: k < b < |log| ==> Resume(p) < log[b].id
  {
  }

  /** Exactly which caps find a break: the boundary row is rechecked on every tick, so a cap of one
      never gets past the first row and a cap of zero never looks at all. */
  lemma CapFindsBreakIff(mac: Mac, log: seq<Row>, cap: nat, n: nat)
    requires IsTable(log) && FullBreak(mac, log).Some? && n >= |log|
    ensures Report(mac, log, cap, Ticks(mac, log, cap, n)).broken == FullBreak(mac, log)
       <==> cap >= 2 || (cap == 1 && !RowGood(mac, log, 0))
  {
    TicksRefineFullWalk(mac, log, cap, n);
    FullBreakIs(mac, log);
    PointerIsSound(mac, log, cap, n);
    TickStep(mac, log, cap, Ticks(mac, log, cap, n), RowAfter(mac, log, cap, n));
    if cap < 2 {
      SmallCapStays(mac, log, cap, n);
    }
  }

  lemma {:induction false} SmallCapStays(mac: Mac, log: seq<Row>, cap: nat, n: nat)
    requires cap < 2 && log != []
    ensures RowAfter(mac, log, cap, n) <= 0
  {
    if n > 0 {
      SmallCapStays(mac, log, cap, n - 1);
    }
  }

  /** The log may grow between ticks: a sound pointer stays sound. */
  lemma PointerStaysSoundAsLogGrows(mac: Mac, log: seq<Row>, more: seq<Row>, pointer: Option<int>, k: int)
    requires IsTable(log + more) && At(log, pointer, k) && k < Bad(mac, log)
    ensures At(log + more, pointer, k) && k < Bad(mac, log + more)
  {
    var all := log + more;
    forall i | 0 <= i < Bad(mac, log)
      ensures RowGood(mac, all, i)
    {
      assert all[..i] == log[..i];
      assert RowGood(mac, log, i);
    }
  }

  /** A log written by the helper, in any interleaving, never reports a break, from whichever id
      and over however many rows it is walked. */
  lemma WriterLogsVerify(mac: Mac, steps: seq<Micro>, from: Option<int>, cap: Option<nat>)
    ensures Verdict(mac, Interleave(mac, steps).log, from, cap).broken == None
    ensures IsTable(Interleave(mac, steps).log)
  {
    CommittedRowsFormAChain(mac, steps);
  }

  // ----- what the walk cannot see -----

  /** `other` is the beginning of `log` with ids and stored prev_hash columns rewritten. */
  predicate Rewritten(log: seq<Row>, other: seq<Row>) {
    && |other| <= |log|
    && forall i :: 0 <= i < |other| ==> other[i] == log[i].(id := other[i].id, prev := other[i].prev)
  }

  lemma RewrittenRow(mac: Mac, log: seq<Row>, other: seq<Row>, i: nat)
    requires Rewritten(log, other) && i < |other|
    ensures RowGood(mac, other, i) == RowGood(mac, log, i)
  {
    if i > 0 {
      assert other[i - 1] == log[i - 1].(id := other[i - 1].id, prev := other[i - 1].prev);
    }
    assert Head(other[..i]) == Head(log[..i]);
  }

  /** Cutting rows off the end, rewriting the prev_hash column, and renumbering rows in a way that keeps
      their order change nothing for the walk: it still stops at the same row, or accepts. Only the head
      hash pins the end of the log. */
  lemma WalkIgnores(mac: Mac, log: seq<Row>, other: seq<Row>)
    requires IsTable(log) && IsTable(other) && Rewritten(log, other)
    ensures Bad(mac, other) == if Bad(mac, log) < |other| then Bad(mac, log) else |other|
    ensures FullBreak(mac, log) == None ==> Verdict(mac, other, None, None).broken == None
  {
    FullBreakIs(mac, log);
    FullBreakIs(mac, other);
    var b, b' := Bad(mac, log), Bad(mac, other);
    if b < |other| {
      RewrittenRow(mac, log, other, b);
    }
    if b' < |other| {
      RewrittenRow(mac, log, other, b');
    }
  }
}
