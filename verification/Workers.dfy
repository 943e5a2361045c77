/**
 The periodic workers: the timeout worker cancels every expired ticket, the claim-idle worker
 releases claims without activity and cancels claims held too long. A worker may crash between
 two tickets, so what counts is the state a later full tick converges to.
 */
module Workers {
  import opened Sums
  import opened Ledger
  import opened Books
  import opened Procedures
  import opened Guarantees
  import opened Database

  /** Times are in microseconds. */
  const MINUTE: Time := 60_000_000
  const IDLE_LIMIT: Time := 30 * MINUTE
  const HOLD_LIMIT: Time := 120 * MINUTE

  // ----- one ticket -----

  function CancelPlan(s: Ledger, id: TicketId, now: Time): Outcome {
    if id.kind == DepositKind then PlanCancelDeposit(s, id.serial, SeenFor(s, id), now)
    else PlanCancelWithdraw(s, id.serial, now)
  }

  function CancelOne(s: Ledger, id: TicketId, now: Time): Ledger {
    Settle(s, CancelPlan(s, id, now))
  }

  /** The release is made in the name of the cashier the row was read with. */
  function ReleaseOne(s: Ledger, id: TicketId, now: Time): Ledger {
    if id in s.tickets && s.tickets[id].claimedBy.Some? then
      Settle(s, PlanRelease(s, id, s.tickets[id].claimedBy.value, SeenFor(s, id), now))
    else s
  }

  function CancelAll(s: Ledger, ids: seq<TicketId>, now: Time): Ledger {
    if ids == [] then s else CancelOne(CancelAll(s, ids[..|ids| - 1], now), ids[|ids| - 1], now)
  }

  function ReleaseAll(s: Ledger, ids: seq<TicketId>, now: Time): Ledger {
    if ids == [] then s else ReleaseOne(ReleaseAll(s, ids[..|ids| - 1], now), ids[|ids| - 1], now)
  }

  // ----- what the workers select -----

  predicate Live(t: Ticket) {
    t.status in {Open, Claimed}
  }

  predicate IsExpired(t: Ticket, now: Time) {
    Live(t) && t.expires < now
  }

  predicate IsIdle(t: Ticket, now: Time) {
    t.status == Claimed && t.lastActivity < now - IDLE_LIMIT
  }

  predicate IsHeldTooLong(t: Ticket, now: Time) {
    t.status == Claimed && t.claimedAt.Some? && t.claimedAt.value < now - HOLD_LIMIT
  }

  datatype Query = ExpiredDeposits | ExpiredWithdraws | IdleClaims | LongClaims

  predicate Matches(q: Query, id: TicketId, t: Ticket, now: Time) {
    match q
    case ExpiredDeposits => id.kind == DepositKind && IsExpired(t, now)
    case ExpiredWithdraws => id.kind == WithdrawKind && IsExpired(t, now)
    case IdleClaims => IsIdle(t, now)
    case LongClaims => IsHeldTooLong(t, now)
  }

  /** `ids` lists exactly the rows of the query, in any order. */
  ghost predicate Lists(q: Query, ids: seq<TicketId>, tickets: map<TicketId, Ticket>, now: Time) {
    forall i :: i in ids <==> i in tickets && Matches(q, i, tickets[i], now)
  }

  /** What a timeout does to one ticket: a live one past its expiry is cancelled, any other stays. */
  predicate TimedOutTo(t: Ticket, t': Ticket, now: Time) {
    t' == if (t.status == Open || t.status == Claimed) && t.expires < now
          then t.(status := Cancelled, lastActivity := now) else t
  }

  ghost predicate AllTimedOut(t: map<TicketId, Ticket>, t': map<TicketId, Ticket>, now: Time) {
    t'.Keys == t.Keys && forall i :: i in t ==> TimedOutTo(t[i], t'[i], now)
  }

  lemma ClosingTimesOut(t: map<TicketId, Ticket>, ids: seq<TicketId>, now: Time)
    requires ListsExpired(ids, t, now)
    ensures AllTimedOut(t, CloseAll(t, ids, now), now)
  {
    forall i | i in t
      ensures TimedOutTo(t[i], CloseAll(t, ids, now)[i], now)
    {
      assert i in ids <==> IsExpired(t[i], now);
    }
  }

  /** What a timeout tick reads: all expired tickets, of both kinds. */
  ghost predicate ListsExpired(ids: seq<TicketId>, tickets: map<TicketId, Ticket>, now: Time) {
    forall i :: i in ids <==> i in tickets && IsExpired(tickets[i], now)
  }

  // ----- effect on the tables -----

  function Closed(t: Ticket, now: Time): Ticket {
    t.(status := Cancelled, lastActivity := now)
  }

  function Freed(t: Ticket, now: Time): Ticket {
    t.(status := Open, claimedBy := None, claimedAt := None, lastActivity := now)
  }

  function CloseAll(tickets: map<TicketId, Ticket>, ids: seq<TicketId>, now: Time): map<TicketId, Ticket> {
    map i | i in tickets :: if i in ids && Live(tickets[i]) then Closed(tickets[i], now) else tickets[i]
  }

  function FreeAll(tickets: map<TicketId, Ticket>, ids: seq<TicketId>, now: Time): map<TicketId, Ticket> {
    map i | i in tickets :: if i in ids && tickets[i].status == Claimed then Freed(tickets[i], now) else tickets[i]
  }

  /** Nobody gains or loses gold: at most it moves between a user's balance and their lock. */
  ghost predicate SameGold(a: map<UserId, Account>, b: map<UserId, Account>) {
    && a.Keys == b.Keys
    && forall u :: u in a ==> Worth(a[u]) == Worth(b[u]) && a[u].wagered == b[u].wagered && a[u].won == b[u].won
  }

  ghost predicate OnlyTickets(s: Ledger, s': Ledger) {
    && s'.users == s.users && s'.bets == s.bets && s'.keys == s.keys && s'.pools == s.pools && s'.disputes == s.disputes
    && SameGold(s.accounts, s'.accounts)
  }

  lemma CancelOneKeepsInv(s: Ledger, id: TicketId, now: Time)
    requires Inv(s)
    ensures Inv(CancelOne(s, id, now))
  {
    if id.kind == DepositKind {
      StepKeepsInv(s, CancelDeposit(id.serial, SeenFor(s, id), now));
    } else {
      StepKeepsInv(s, CancelWithdraw(id.serial, now));
    }
  }

  /** A cancel succeeds exactly on a live ticket; for withdraws this rests on lock backing. */
  lemma CancelPlanCommitsIff(s: Ledger, id: TicketId, now: Time)
    requires Inv(s)
    ensures CancelPlan(s, id, now).Commit? <==> id in s.tickets && Live(s.tickets[id])
  {
    assert id == TicketId(id.kind, id.serial);
    if id.kind == DepositKind {
      CancelDepositCommitsIff(s, id, now);
    } else {
      CancelWithdrawCommitsIff(s, id.serial, now);
    }
  }

  lemma CancelDepositCommitsIff(s: Ledger, id: TicketId, now: Time)
    requires RowsOk(s) && id.kind == DepositKind
    ensures PlanCancelDeposit(s, id.serial, SeenFor(s, id), now).Commit? <==> id in s.tickets && Live(s.tickets[id])
  {
    assert id == TicketId(DepositKind, id.serial);
    if id in s.tickets {
      assert TicketOk(s.users, id, s.tickets[id]);
    }
  }

  ghost predicate Cancels(s: Ledger, s': Ledger, id: TicketId, now: Time) {
    && OnlyTickets(s, s')
    && s'.tickets ==
       if id in s.tickets && Live(s.tickets[id]) then s.tickets[id := Closed(s.tickets[id], now)] else s.tickets
  }

  lemma CancelDepositEffect(s: Ledger, id: TicketId, now: Time)
    requires Inv(s) && id.kind == DepositKind
    ensures Cancels(s, Settle(s, PlanCancelDeposit(s, id.serial, SeenFor(s, id), now)), id, now)
  {
    CancelDepositCommitsIff(s, id, now);
    assert id == TicketId(DepositKind, id.serial);
  }

  lemma CancelWithdrawEffect(s: Ledger, id: TicketId, now: Time)
    requires Inv(s) && id.kind == WithdrawKind
    ensures Cancels(s, Settle(s, PlanCancelWithdraw(s, id.serial, now)), id, now)
  {
    CancelWithdrawCommitsIff(s, id.serial, now);
    assert id == TicketId(WithdrawKind, id.serial);
  }

  lemma CancelOneEffect(s: Ledger, id: TicketId, now: Time)
    requires Inv(s)
    ensures Cancels(s, CancelOne(s, id, now), id, now)
  {
    if id.kind == DepositKind {
      CancelDepositEffect(s, id, now);
    } else {
      CancelWithdrawEffect(s, id, now);
    }
  }

  lemma {:induction false} CancelAllEffect(s: Ledger, ids: seq<TicketId>, now: Time)
    requires Inv(s)
    ensures Inv(CancelAll(s, ids, now))
    ensures OnlyTickets(s, CancelAll(s, ids, now))
    ensures CancelAll(s, ids, now).tickets == CloseAll(s.tickets, ids, now)
    decreases |ids|
  {
    if ids != [] {
      var front, id := ids[..|ids| - 1], ids[|ids| - 1];
      var mid := CancelAll(s, front, now);
      CancelAllEffect(s, front, now);
      CancelOneKeepsInv(mid, id, now);
      CancelOneEffect(mid, id, now);
      CloseAllOneMore(s.tickets, ids, now);
      SameGoldTransitive(s.accounts, mid.accounts, CancelAll(s, ids, now).accounts);
    }
  }

  lemma CloseAllOneMore(t: map<TicketId, Ticket>, ids: seq<TicketId>, now: Time)
    requires ids != []
    ensures var m, id := CloseAll(t, ids[..|ids| - 1], now), ids[|ids| - 1];
      CloseAll(t, ids, now) == if id in m && Live(m[id]) then m[id := Closed(m[id], now)] else m
  {
    assert ids == ids[..|ids| - 1] + [ids[|ids| - 1]];
  }

  lemma FreeAllOneMore(t: map<TicketId, Ticket>, ids: seq<TicketId>, now: Time)
    requires ids != []
    ensures var m, id := FreeAll(t, ids[..|ids| - 1], now), ids[|ids| - 1];
      FreeAll(t, ids, now) == if id in m && m[id].status == Claimed then m[id := Freed(m[id], now)] else m
  {
    assert ids == ids[..|ids| - 1] + [ids[|ids| - 1]];
  }

  lemma ReleaseOneKeepsInv(s: Ledger, id: TicketId, now: Time)
    requires Inv(s)
    ensures Inv(ReleaseOne(s, id, now))
  {
    if id in s.tickets && s.tickets[id].claimedBy.Some? {
      StepKeepsInv(s, ReleaseTicket(id, s.tickets[id].claimedBy.value, SeenFor(s, id), now));
    }
  }

  lemma ReleaseOneEffect(s: Ledger, id: TicketId, now: Time)
    requires Inv(s)
    ensures OnlyTickets(s, ReleaseOne(s, id, now))
    ensures var t := s.tickets;
      ReleaseOne(s, id, now).tickets == if id in t && t[id].status == Claimed then t[id := Freed(t[id], now)] else t
  {
    if id in s.tickets {
      assert TicketOk(s.users, id, s.tickets[id]);
    }
  }

  lemma {:induction false} ReleaseAllEffect(s: Ledger, ids: seq<TicketId>, now: Time)
    requires Inv(s)
    ensures Inv(ReleaseAll(s, ids, now))
    ensures OnlyTickets(s, ReleaseAll(s, ids, now))
    ensures ReleaseAll(s, ids, now).tickets == FreeAll(s.tickets, ids, now)
    decreases |ids|
  {
    if ids != [] {
      var front, id := ids[..|ids| - 1], ids[|ids| - 1];
      var mid := ReleaseAll(s, front, now);
      ReleaseAllEffect(s, front, now);
      ReleaseOneKeepsInv(mid, id, now);
      ReleaseOneEffect(mid, id, now);
      FreeAllOneMore(s.tickets, ids, now);
      SameGoldTransitive(s.accounts, mid.accounts, ReleaseAll(s, ids, now).accounts);
    }
  }

  // ----- convergence -----

  /** Lock backing makes the balances a function of the ticket table. */
  lemma TicketsDetermineGold(a: Ledger, b: Ledger)
    requires Inv(a) && Inv(b) && OnlyTickets(a, b) && a.tickets == b.tickets
    ensures a.accounts == b.accounts
  {
    forall u | u in a.accounts
      ensures a.accounts[u] == b.accounts[u]
    {
      assert LockedIn(a.accounts, u) == LockedIn(b.accounts, u);
    }
  }

  /** A timeout tick that crashes after any number of cancels, followed by a full tick at the same
      time, ends with the tables of one full tick (whatever order each of them lists the rows in);
      only the order of the audit rows may differ. Afterwards nothing expired is left. */
  lemma TimeoutTickConverges(s: Ledger, now: Time, ids: seq<TicketId>, k: nat, rest: seq<TicketId>,
      other: seq<TicketId>)
    requires Inv(s) && k <= |ids|
    requires ListsExpired(ids, s.tickets, now) && ListsExpired(other, s.tickets, now)
    requires ListsExpired(rest, CancelAll(s, ids[..k], now).tickets, now)
    ensures var redone := CancelAll(CancelAll(s, ids[..k], now), rest, now);
      && redone == CancelAll(s, other, now).(audit := redone.audit)
      && AllTimedOut(s.tickets, redone.tickets, now)
  {
    var crashed := CancelAll(s, ids[..k], now);
    CancelAllEffect(s, ids[..k], now);
    CancelAllEffect(crashed, rest, now);
    CancelAllEffect(s, other, now);
    var full, redone := CancelAll(s, other, now), CancelAll(crashed, rest, now);
    SameTickets(s.tickets, now, ids, k, rest, other);
    ClosingTimesOut(s.tickets, other, now);
    SameGoldTransitive(s.accounts, crashed.accounts, redone.accounts);
    SameGoldTransitive(full.accounts, s.accounts, redone.accounts);
    TicketsDetermineGold(full, redone);
  }

  lemma SameGoldTransitive(a: map<UserId, Account>, b: map<UserId, Account>, c: map<UserId, Account>)
    requires SameGold(b, a) || SameGold(a, b)
    requires SameGold(b, c)
    ensures SameGold(a, c)
  {
  }

  lemma SameTickets(t: map<TicketId, Ticket>, now: Time, ids: seq<TicketId>, k: nat, rest: seq<TicketId>,
      other: seq<TicketId>)
    requires k <= |ids| && ListsExpired(ids, t, now) && ListsExpired(other, t, now)
    requires ListsExpired(rest, CloseAll(t, ids[..k], now), now)
    ensures CloseAll(CloseAll(t, ids[..k], now), rest, now) == CloseAll(t, other, now)
  {
    var crashed := CloseAll(t, ids[..k], now);
    forall i | i in t
      ensures CloseAll(crashed, rest, now)[i] == CloseAll(t, other, now)[i]
    {
      if i in ids[..k] {
        assert i in ids;
      }
    }
  }

  // ----- the claim-idle worker -----

  /** The fate of one ticket, in microseconds: half an hour without activity puts a claim back to open even if
      it is also over two hours old, two hours of an active claim cancel it, and anything younger stays. */
  predicate AgedTo(t: Ticket, t': Ticket, now: Time) {
    if t.status != Claimed then t' == t
    else if t.lastActivity < now - 1_800_000_000 then
      t' == t.(status := Open, claimedBy := None, claimedAt := None, lastActivity := now)
    else if t.claimedAt.Some? && t.claimedAt.value < now - 7_200_000_000 then
      t' == t.(status := Cancelled, lastActivity := now)
    else t' == t
  }

  /** If it is a claim, neither limit has caught up with it. */
  predicate FreshClaim(t: Ticket, now: Time) {
    t.status == Claimed ==>
      && t.lastActivity >= now - 1_800_000_000
      && (t.claimedAt.Some? ==> t.claimedAt.value >= now - 7_200_000_000)
  }

  ghost predicate AllAged(t: map<TicketId, Ticket>, t': map<TicketId, Ticket>, now: Time) {
    t'.Keys == t.Keys && forall i :: i in t ==> AgedTo(t[i], t'[i], now) && FreshClaim(t'[i], now)
  }

  lemma IdleTickEffect(s: Ledger, now: Time, idle: seq<TicketId>, long: seq<TicketId>)
    requires Inv(s) && Lists(IdleClaims, idle, s.tickets, now)
    requires Lists(LongClaims, long, ReleaseAll(s, idle, now).tickets, now)
    ensures var s' := CancelAll(ReleaseAll(s, idle, now), long, now);
      && Inv(s') && OnlyTickets(s, s')
      && AllAged(s.tickets, s'.tickets, now)
  {
    var mid := ReleaseAll(s, idle, now);
    ReleaseAllEffect(s, idle, now);
    CancelAllEffect(mid, long, now);
    SameGoldTransitive(s.accounts, mid.accounts, CancelAll(mid, long, now).accounts);
    IdleFates(s.tickets, now, idle, long);
  }

  lemma IdleFates(t: map<TicketId, Ticket>, now: Time, idle: seq<TicketId>, long: seq<TicketId>)
    requires Lists(IdleClaims, idle, t, now) && Lists(LongClaims, long, FreeAll(t, idle, now), now)
    ensures var t' := CloseAll(FreeAll(t, idle, now), long, now);
      AllAged(t, t', now)
  {
    var mid := FreeAll(t, idle, now);
    var t' := CloseAll(mid, long, now);
    forall i | i in t
      ensures AgedTo(t[i], t'[i], now) && FreshClaim(t'[i], now)
    {
      IdleFateOne(t, now, idle, long, i);
    }
  }

  lemma IdleFateOne(t: map<TicketId, Ticket>, now: Time, idle: seq<TicketId>, long: seq<TicketId>, i: TicketId)
    requires Lists(IdleClaims, idle, t, now) && Lists(LongClaims, long, FreeAll(t, idle, now), now) && i in t
    ensures var t' := CloseAll(FreeAll(t, idle, now), long, now)[i]; AgedTo(t[i], t', now) && FreshClaim(t', now)
  {
    assert i in idle <==> IsIdle(t[i], now);
    assert i in long <==> IsHeldTooLong(FreeAll(t, idle, now)[i], now);
  }

  // ----- the workers' loops -----

  /** The rows of a query, in the order the scan meets them. */
  method Select(q: Query, tickets: map<TicketId, Ticket>, scan: seq<TicketId>, now: Time) returns (ids: seq<TicketId>)
    requires forall i :: i in tickets <==> i in scan
    ensures Lists(q, ids, tickets, now)
  {
    ids := [];
    for k := 0 to |scan|
      invariant forall i :: i in ids <==> i in scan[..k] && Matches(q, i, tickets[i], now)
    {
      if Matches(q, scan[k], tickets[scan[k]], now) {
        ids := ids + [scan[k]];
      }
      assert scan[..k + 1] == scan[..k] + [scan[k]];
    }
    assert scan[..|scan|] == scan;
  }

  /** True when the cancel moved the ticket; a ticket that is already terminal is left alone. */
  method CancelTicket(db: Tables, id: TicketId, now: Time) returns (moved: bool)
    requires db.Valid()
    modifies db`rows
    ensures db.rows == CancelOne(old(db.rows), id, now) && db.Valid()
    ensures moved <==> id in old(db.rows).tickets && Live(old(db.rows).tickets[id])
    ensures !moved ==> db.rows == old(db.rows)
  {
    CancelOneKeepsInv(db.rows, id, now);
    CancelPlanCommitsIff(db.rows, id, now);
    assert id == TicketId(id.kind, id.serial);
    var r;
    if id.kind == DepositKind {
      r := db.CancelDeposit(id.serial, now);
    } else {
      r := db.CancelWithdraw(id.serial, now);
    }
    moved := r.Returned?;
  }

  /** The listed tickets a cancel moves. */
  function Cancellable(t: map<TicketId, Ticket>, ids: seq<TicketId>): set<TicketId> {
    set i | i in ids && i in t && Live(t[i])
  }

  /** The listed tickets a release moves. */
  function Releasable(t: map<TicketId, Ticket>, ids: seq<TicketId>): set<TicketId> {
    set i | i in ids && i in t && t[i].status == Claimed
  }

  function ExpiredTickets(t: map<TicketId, Ticket>, now: Time): set<TicketId> {
    set i | i in t && IsExpired(t[i], now)
  }

  function Tally(moved: bool): nat {
    if moved then 1 else 0
  }

  /** A repeated row moves nothing the second time. */
  lemma CancellableOneMore(t: map<TicketId, Ticket>, ids: seq<TicketId>, k: nat, now: Time)
    requires k < |ids|
    ensures var m := CloseAll(t, ids[..k], now);
      |Cancellable(t, ids[..k + 1])| == |Cancellable(t, ids[..k])| + Tally(ids[k] in m && Live(m[ids[k]]))
  {
    var m := CloseAll(t, ids[..k], now);
    var a, b := Cancellable(t, ids[..k]), Cancellable(t, ids[..k + 1]);
    assert ids[..k + 1] == ids[..k] + [ids[k]];
    if ids[k] in m && Live(m[ids[k]]) {
      assert ids[k] !in ids[..k];
      assert b == a + {ids[k]};
    } else {
      assert b == a;
    }
  }

  lemma ReleasableOneMore(t: map<TicketId, Ticket>, ids: seq<TicketId>, k: nat, now: Time)
    requires k < |ids|
    ensures var m := FreeAll(t, ids[..k], now);
      |Releasable(t, ids[..k + 1])| == |Releasable(t, ids[..k])| + Tally(ids[k] in m && m[ids[k]].status == Claimed)
  {
    var m := FreeAll(t, ids[..k], now);
    var a, b := Releasable(t, ids[..k]), Releasable(t, ids[..k + 1]);
    assert ids[..k + 1] == ids[..k] + [ids[k]];
    if ids[k] in m && m[ids[k]].status == Claimed {
      assert ids[k] !in ids[..k];
      assert b == a + {ids[k]};
    } else {
      assert b == a;
    }
  }

  lemma CancelLoopStep(s: Ledger, ids: seq<TicketId>, k: nat, now: Time)
    requires Inv(s) && k < |ids|
    ensures var mid := CancelAll(s, ids[..k], now);
      && CancelAll(s, ids[..k + 1], now) == CancelOne(mid, ids[k], now)
      && |Cancellable(s.tickets, ids[..k + 1])|
         == |Cancellable(s.tickets, ids[..k])| + Tally(ids[k] in mid.tickets && Live(mid.tickets[ids[k]]))
  {
    assert ids[..k + 1][..k] == ids[..k];
    CancelAllEffect(s, ids[..k], now);
    CancellableOneMore(s.tickets, ids, k, now);
  }

  method CancelEach(db: Tables, ids: seq<TicketId>, now: Time) returns (cancelled: nat)
    requires db.Valid()
    modifies db`rows
    ensures db.rows == CancelAll(old(db.rows), ids, now) && db.Valid()
    ensures cancelled == |Cancellable(old(db.rows).tickets, ids)|
  {
    cancelled := 0;
    for k := 0 to |ids|
      invariant db.Valid() && db.rows == CancelAll(old(db.rows), ids[..k], now)
      invariant cancelled == |Cancellable(old(db.rows).tickets, ids[..k])|
    {
      CancelLoopStep(old(db.rows), ids, k, now);
      var moved := CancelTicket(db, ids[k], now);
      if moved {
        cancelled := cancelled + 1;
      }
    }
    assert ids[..|ids|] == ids;
  }

  /** One pass of the timeout worker. */
  method TimeoutTick(db: Tables, scan: seq<TicketId>, now: Time) returns (cancelled: nat, ghost ids: seq<TicketId>)
    requires db.Valid()
    requires forall i :: i in db.rows.tickets <==> i in scan
    modifies db`rows
    ensures ListsExpired(ids, old(db.rows).tickets, now)
    ensures db.rows == CancelAll(old(db.rows), ids, now) && db.Valid()
    ensures OnlyTickets(old(db.rows), db.rows) && AllTimedOut(old(db.rows).tickets, db.rows.tickets, now)
    ensures cancelled == |ExpiredTickets(old(db.rows).tickets, now)|
  {
    ghost var s := db.rows;
    var deposits := Select(ExpiredDeposits, db.rows.tickets, scan, now);
    cancelled := CancelEach(db, deposits, now);
    CancelAllEffect(s, deposits, now);
    var withdraws := Select(ExpiredWithdraws, db.rows.tickets, scan, now);
    var more := CancelEach(db, withdraws, now);
    cancelled := cancelled + more;
    ids := deposits + withdraws;
    TimeoutTickEffect(s, deposits, withdraws, now);
  }

  lemma TimeoutTickEffect(s: Ledger, deposits: seq<TicketId>, withdraws: seq<TicketId>, now: Time)
    requires Inv(s) && Lists(ExpiredDeposits, deposits, s.tickets, now)
    requires Lists(ExpiredWithdraws, withdraws, CloseAll(s.tickets, deposits, now), now)
    ensures ListsExpired(deposits + withdraws, s.tickets, now)
    ensures CancelAll(CancelAll(s, deposits, now), withdraws, now) == CancelAll(s, deposits + withdraws, now)
    ensures var s' := CancelAll(s, deposits + withdraws, now);
      OnlyTickets(s, s') && AllTimedOut(s.tickets, s'.tickets, now)
    ensures |Cancellable(s.tickets, deposits)| + |Cancellable(CloseAll(s.tickets, deposits, now), withdraws)|
         == |ExpiredTickets(s.tickets, now)|
  {
    var ids := deposits + withdraws;
    BothKinds(s.tickets, deposits, withdraws, now);
    BothKindsCount(s.tickets, deposits, withdraws, now);
    CancelAllAppend(s, deposits, withdraws, now);
    CancelAllEffect(s, ids, now);
    ClosingTimesOut(s.tickets, ids, now);
  }

  lemma BothKinds(t: map<TicketId, Ticket>, deposits: seq<TicketId>, withdraws: seq<TicketId>, now: Time)
    requires Lists(ExpiredDeposits, deposits, t, now)
    requires Lists(ExpiredWithdraws, withdraws, CloseAll(t, deposits, now), now)
    ensures ListsExpired(deposits + withdraws, t, now)
    ensures ListsExpired([], CloseAll(t, (deposits + withdraws)[..|deposits + withdraws|], now), now)
  {
    var ids := deposits + withdraws;
    assert ids[..|ids|] == ids;
    forall i
      ensures i in ids <==> i in t && IsExpired(t[i], now)
    {
      assert i in deposits <==> i in t && i.kind == DepositKind && IsExpired(t[i], now);
      var mid := CloseAll(t, deposits, now);
      assert i in withdraws <==> i in mid && i.kind == WithdrawKind && IsExpired(mid[i], now);
    }
  }

  lemma BothKindsCount(t: map<TicketId, Ticket>, deposits: seq<TicketId>, withdraws: seq<TicketId>, now: Time)
    requires Lists(ExpiredDeposits, deposits, t, now)
    requires Lists(ExpiredWithdraws, withdraws, CloseAll(t, deposits, now), now)
    ensures |Cancellable(t, deposits)| + |Cancellable(CloseAll(t, deposits, now), withdraws)|
         == |ExpiredTickets(t, now)|
  {
    var mid := CloseAll(t, deposits, now);
    var a, b := Cancellable(t, deposits), Cancellable(mid, withdraws);
    forall i
      ensures i in a <==> i in t && i.kind == DepositKind && IsExpired(t[i], now)
      ensures i in b <==> i in t && i.kind == WithdrawKind && IsExpired(t[i], now)
    {
      EachKind(t, deposits, withdraws, now, i);
    }
    assert a !! b;
    assert ExpiredTickets(t, now) == a + b;
  }

  lemma EachKind(t: map<TicketId, Ticket>, deposits: seq<TicketId>, withdraws: seq<TicketId>, now: Time, i: TicketId)
    requires Lists(ExpiredDeposits, deposits, t, now)
    requires Lists(ExpiredWithdraws, withdraws, CloseAll(t, deposits, now), now)
    ensures i in Cancellable(t, deposits) <==> i in t && i.kind == DepositKind && IsExpired(t[i], now)
    ensures i in Cancellable(CloseAll(t, deposits, now), withdraws) <==>
      i in t && i.kind == WithdrawKind && IsExpired(t[i], now)
  {
    var mid := CloseAll(t, deposits, now);
    assert i in deposits <==> i in t && Matches(ExpiredDeposits, i, t[i], now);
    assert i in withdraws <==> i in mid && Matches(ExpiredWithdraws, i, mid[i], now);
  }

  lemma {:induction false} CancelAllAppend(s: Ledger, a: seq<TicketId>, b: seq<TicketId>, now: Time)
    ensures CancelAll(s, a + b, now) == CancelAll(CancelAll(s, a, now), b, now)
    decreases |b|
  {
    if b == [] {
      assert a + b == a;
    } else {
      CancelAllAppend(s, a, b[..|b| - 1], now);
      assert (a + b)[..|a + b| - 1] == a + b[..|b| - 1];
    }
  }

  /** True when the release moved the ticket; it is made in the name of the cashier who holds it. */
  method ReleaseClaim(db: Tables, id: TicketId, now: Time) returns (moved: bool)
    requires db.Valid()
    modifies db`rows
    ensures db.rows == ReleaseOne(old(db.rows), id, now) && db.Valid()
    ensures moved <==> id in old(db.rows).tickets && old(db.rows).tickets[id].status == Claimed
  {
    ReleaseOneKeepsInv(db.rows, id, now);
    moved := false;
    if id in db.rows.tickets {
      ReleaseCommitsIff(db.rows, id, now);
      if db.rows.tickets[id].claimedBy.Some? {
        var r := db.ReleaseTicket(id, db.rows.tickets[id].claimedBy.value, now);
        moved := r.Returned?;
      }
    }
  }

  lemma ReleaseCommitsIff(s: Ledger, id: TicketId, now: Time)
    requires RowsOk(s) && id in s.tickets
    ensures s.tickets[id].status == Claimed ==> s.tickets[id].claimedBy.Some?
    ensures s.tickets[id].claimedBy.Some? ==>
      (PlanRelease(s, id, s.tickets[id].claimedBy.value, SeenFor(s, id), now).Commit? <==>
        s.tickets[id].status == Claimed)
  {
    assert TicketOk(s.users, id, s.tickets[id]);
  }

  lemma ReleaseLoopStep(s: Ledger, ids: seq<TicketId>, k: nat, now: Time)
    requires Inv(s) && k < |ids|
    ensures var mid := ReleaseAll(s, ids[..k], now);
      && ReleaseAll(s, ids[..k + 1], now) == ReleaseOne(mid, ids[k], now)
      && |Releasable(s.tickets, ids[..k + 1])|
         == |Releasable(s.tickets, ids[..k])| + Tally(ids[k] in mid.tickets && mid.tickets[ids[k]].status == Claimed)
  {
    assert ids[..k + 1][..k] == ids[..k];
    ReleaseAllEffect(s, ids[..k], now);
    ReleasableOneMore(s.tickets, ids, k, now);
  }

  method ReleaseEach(db: Tables, ids: seq<TicketId>, now: Time) returns (released: nat)
    requires db.Valid()
    modifies db`rows
    ensures db.rows == ReleaseAll(old(db.rows), ids, now) && db.Valid()
    ensures released == |Releasable(old(db.rows).tickets, ids)|
  {
    released := 0;
    for k := 0 to |ids|
      invariant db.Valid() && db.rows == ReleaseAll(old(db.rows), ids[..k], now)
      invariant released == |Releasable(old(db.rows).tickets, ids[..k])|
    {
      ReleaseLoopStep(old(db.rows), ids, k, now);
      var moved := ReleaseClaim(db, ids[k], now);
      if moved {
        released := released + 1;
      }
    }
    assert ids[..|ids|] == ids;
  }

  /** One pass of the claim-idle worker: releases first, then cancels what is still held. */
  method ClaimIdleTick(db: Tables, scan: seq<TicketId>, now: Time) returns (released: nat, cancelled: nat)
    requires db.Valid()
    requires forall i :: i in db.rows.tickets <==> i in scan
    modifies db`rows
    ensures db.Valid() && OnlyTickets(old(db.rows), db.rows)
    ensures AllAged(old(db.rows).tickets, db.rows.tickets, now)
    ensures var t := old(db.rows).tickets;
      && released == |set i | i in t && IsIdle(t[i], now)|
      && cancelled == |set i | i in t && !IsIdle(t[i], now) && IsHeldTooLong(t[i], now)|
  {
    ghost var s := db.rows;
    var idle := Select(IdleClaims, db.rows.tickets, scan, now);
    released := ReleaseEach(db, idle, now);
    ReleaseAllEffect(s, idle, now);
    var long := Select(LongClaims, db.rows.tickets, scan, now);
    cancelled := CancelEach(db, long, now);
    IdleTickEffect(s, now, idle, long);
    IdleTickCounts(s.tickets, now, idle, long);
  }

  lemma IdleTickCounts(t: map<TicketId, Ticket>, now: Time, idle: seq<TicketId>, long: seq<TicketId>)
    requires Lists(IdleClaims, idle, t, now) && Lists(LongClaims, long, FreeAll(t, idle, now), now)
    ensures Releasable(t, idle) == set i | i in t && IsIdle(t[i], now)
    ensures Cancellable(FreeAll(t, idle, now), long) == set i | i in t && !IsIdle(t[i], now) && IsHeldTooLong(t[i], now)
  {
    var mid := FreeAll(t, idle, now);
    forall i
      ensures i in Releasable(t, idle) <==> i in t && IsIdle(t[i], now)
      ensures i in Cancellable(mid, long) <==> i in t && !IsIdle(t[i], now) && IsHeldTooLong(t[i], now)
    {
      assert i in idle <==> i in t && Matches(IdleClaims, i, t[i], now);
      assert i in long <==> i in mid && Matches(LongClaims, i, mid[i], now);
    }
  }
}
