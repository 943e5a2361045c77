/**
 Row-lock micro-steps. Any number of transactions run at once; each takes row locks one at a time,
 keeps the row versions it read under them, and at commit installs write sets computed from those
 earlier reads (`confirm_deposit` and `cancel_withdraw` even write an absolute balance). Every
 interleaving is proved equal to running the committed calls one after the other.

 Two kinds of lock are told apart. A data row is locked by `FOR UPDATE` or by an UPDATE and is
 exclusive. The key of a row is what foreign keys, `ON CONFLICT DO NOTHING` and the unlocked look-ups
 of a ticket's owner and amount rely on: once the row exists nothing changes it, so any number of
 transactions may rely on it at the same time; only while the row does not exist is its key exclusive,
 as the unique index makes it for the transaction that inserts it.
 */
module RowLocks {
  import opened Sums
  import opened Ledger
  import opened Books
  import opened Procedures
  import opened Guarantees
  import opened History

  datatype Row =
    | UserKey(user: UserId) | UserFlag(user: UserId)
    | AccountKey(user: UserId) | AccountRow(user: UserId)
    | TicketKey(ticket: TicketId) | TicketRow(ticket: TicketId)
    | PoolKey(pool: int) | PoolRow(pool: int)
    | BetRow(bet: int) | IndexRow(user: UserId, key: string) | DisputeRow(ticket: TicketId)

  /** What `a` holds of the row is what `b` holds of it. */
  predicate Agree(a: Ledger, b: Ledger, row: Row) {
    match row
    case UserKey(u) => u in a.users <==> u in b.users
    case UserFlag(u) => u in a.users ==> u in b.users && a.users[u] == b.users[u]
    case AccountKey(u) => u in a.accounts <==> u in b.accounts
    case AccountRow(u) => u in a.accounts ==> u in b.accounts && a.accounts[u] == b.accounts[u]
    case TicketKey(t) =>
      (t in a.tickets <==> t in b.tickets) && (t in a.tickets ==> SameRequest(a.tickets[t], b.tickets[t]))
    case TicketRow(t) => t in a.tickets ==> t in b.tickets && a.tickets[t] == b.tickets[t]
    case PoolKey(p) => p in a.pools <==> p in b.pools
    case PoolRow(p) => p in a.pools ==> p in b.pools && a.pools[p] == b.pools[p]
    case BetRow(i) => (i in a.bets <==> i in b.bets) && (i in a.bets ==> a.bets[i] == b.bets[i])
    case IndexRow(u, k) =>
      ((u, k) in a.keys <==> (u, k) in b.keys) && ((u, k) in a.keys ==> a.keys[(u, k)] == b.keys[(u, k)])
    case DisputeRow(t) =>
      (t in a.disputes <==> t in b.disputes) && (t in a.disputes ==> a.disputes[t] == b.disputes[t])
  }

  /** The key of a row that exists: shared. */
  predicate Shared(s: Ledger, row: Row) {
    match row
    case UserKey(u) => u in s.users
    case AccountKey(u) => u in s.accounts
    case TicketKey(t) => t in s.tickets
    case PoolKey(p) => p in s.pools
    case _ => false
  }

  ghost predicate AgreeOn(a: Ledger, b: Ledger, rows: set<Row>) {
    forall row :: row in rows ==> Agree(a, b, row)
  }

  // ----- the locks each procedure takes -----

  /** A balance row read `FOR UPDATE` or updated. */
  function Purse(u: UserId): set<Row> {
    {AccountKey(u), AccountRow(u)}
  }

  /** A balance row that changes, with the user row its audit row refers to. */
  function Audited(u: UserId): set<Row> {
    Purse(u) + {UserKey(u)}
  }

  function TicketRows(id: TicketId): set<Row> {
    {TicketKey(id), TicketRow(id)}
  }

  predicate InState(v: Ledger, id: TicketId, states: set<TicketStatus>) {
    id in v.tickets && v.tickets[id].status in states
  }

  /** The treasury and the pool, as far as a bet's cuts move gold there. */
  function CutRows(b: Bet): set<Row> {
    (if b.commission > 0 || (b.rake > 0 && b.period.None?) then Purse(TREASURY) else {})
    + (if b.rake > 0 && b.period.Some? then {PoolKey(b.period.value), PoolRow(b.period.value)} else {})
  }

  function ResolveLocks(v: Ledger, id: int, status: BetStatus, payout: int): set<Row> {
    {BetRow(id)}
    + if id in v.bets && v.bets[id].status == BetOpen then
        Audited(v.bets[id].user) + if TreasuryGain(v.bets[id], status, payout) != 0 then Purse(TREASURY) else {}
      else {}
  }

  function RefundLocks(v: Ledger, id: int): set<Row> {
    {BetRow(id)}
    + if id in v.bets && v.bets[id].status == BetOpen then Audited(v.bets[id].user) + CutRows(v.bets[id]) else {}
  }

  function PlaceLocks(id: int, b: Bet): set<Row> {
    {BetRow(id), IndexRow(b.user, b.key)} + Audited(b.user) + CutRows(b)
    + if b.period.Some? then {PoolKey(b.period.value)} else {}
  }

  function TicketLocks(v: Ledger, step: Step): set<Row> {
    match step
    case CreateDeposit(n, u, _, _, _, _, _, seen, _) =>
      {TicketKey(TicketId(DepositKind, n)), UserKey(TargetOf(u, seen))}
    case ConfirmDeposit(n, _, _) =>
      var id := TicketId(DepositKind, n);
      TicketRows(id) + if InState(v, id, {Claimed}) then Audited(v.tickets[id].user) else {}
    case CancelDeposit(n, seen, _) =>
      var id := TicketId(DepositKind, n);
      TicketRows(id) + if id in v.tickets then {UserKey(TargetOf(v.tickets[id].user, seen))} else {}
    case ClaimTicket(id, _, _, seen, _) =>
      TicketRows(id) + if id in v.tickets then {UserKey(TargetOf(v.tickets[id].user, seen))} else {}
    case ReleaseTicket(id, _, seen, _) =>
      TicketRows(id) + if id in v.tickets then {UserKey(TargetOf(v.tickets[id].user, seen))} else {}
    case CreateWithdraw(n, u, _, _, _, _, _) => {TicketKey(TicketId(WithdrawKind, n)), UserFlag(u)} + Audited(u)
    case ConfirmWithdraw(n, _, _) =>
      var id := TicketId(WithdrawKind, n);
      TicketRows(id) + if InState(v, id, {Claimed}) then Audited(v.tickets[id].user) + Audited(TREASURY) else {}
    case CancelWithdraw(n, _) =>
      var id := TicketId(WithdrawKind, n);
      TicketRows(id) + if id in v.tickets then Audited(v.tickets[id].user) else {}
    case _ => {}
  }

  function DisputeLocks(v: Ledger, id: TicketId): set<Row> {
    {DisputeRow(id), TicketKey(id)} + if id in v.tickets then {UserKey(v.tickets[id].user)} else {}
  }

  function ResolutionLocks(v: Ledger, id: TicketId, action: Resolution, amount: int): set<Row> {
    DisputeLocks(v, id)
    + if id in v.tickets && Payout(action, amount, v.tickets[id]).Some? then
        Audited(v.tickets[id].user) + Audited(TREASURY)
      else {}
  }

  /** The rows a call locks, as far as the rows locked so far determine them. */
  function Locks(v: Ledger, step: Step): set<Row> {
    match step
    case Sweep(_) => Audited(TREASURY)
    case TreasuryToUser(_, u) => Audited(u) + Audited(TREASURY)
    case OpenDispute(id, _) => DisputeLocks(v, id)
    case ResolveDispute(id, action, amount) => ResolutionLocks(v, id, action, amount)
    case RejectDispute(id) => DisputeLocks(v, id)
    case Ban(u) => {UserKey(u), UserFlag(u), AccountKey(u)}
    case Unban(u) => {UserKey(u), UserFlag(u)}
    case OpenPeriod(p, _) => {PoolKey(p)}
    case PlaceBet(id, u, k, g, a, c, rake, p, _, d) =>
      if d.Some? || c.None? then {} else PlaceLocks(id, NewBet(u, k, g, a, c.value.commissionBps, rake, p))
    case ResolveBet(id, st, p) => ResolveLocks(v, id, st, p)
    case RefundBet(id) => RefundLocks(v, id)
    case CashoutMines(id, m) =>
      if id in v.bets then ResolveLocks(v, id, Win, CashoutPayout(v.bets[id].stake, m)) else {BetRow(id)}
    case _ => TicketLocks(v, step)
  }

  // ----- what a call writes depends only on the rows it locks -----

  /** The write set of a call that commits. A repeat of a settled call also returns a balance, which it
      reads without a lock. */
  function Effect(o: Outcome): Option<WriteSet> {
    if o.Commit? then Some(o.writes) else None
  }

  lemma CheckedLocal(v: Ledger, s: Ledger, w: WriteSet, reply: Option<int>)
    requires forall r :: r in w.audit ==> Agree(v, s, UserKey(r.target))
    ensures Checked(v, w, reply) == Checked(s, w, reply)
  {
    forall r | r in w.audit
      ensures r.target in Put(v.users, w.user) <==> r.target in Put(s.users, w.user)
    {
      assert Agree(v, s, UserKey(r.target));
    }
  }

  /** Both states hold the same balance row. */
  predicate SameAccount(v: Ledger, s: Ledger, u: UserId) {
    Agree(v, s, AccountKey(u)) && Agree(v, s, AccountRow(u))
  }

  predicate SameTicket(v: Ledger, s: Ledger, id: TicketId) {
    Agree(v, s, TicketKey(id)) && Agree(v, s, TicketRow(id))
  }

  lemma PurseAgrees(v: Ledger, s: Ledger, rows: set<Row>, u: UserId)
    requires AgreeOn(v, s, rows) && Purse(u) <= rows
    ensures SameAccount(v, s, u)
  {
    assert AccountKey(u) in Purse(u) && AccountRow(u) in Purse(u);
  }

  lemma AuditedAgrees(v: Ledger, s: Ledger, rows: set<Row>, u: UserId)
    requires AgreeOn(v, s, rows) && Audited(u) <= rows
    ensures SameAccount(v, s, u) && Agree(v, s, UserKey(u))
  {
    assert UserKey(u) in Audited(u) && Purse(u) <= Audited(u);
    PurseAgrees(v, s, rows, u);
  }

  lemma TicketAgrees(v: Ledger, s: Ledger, rows: set<Row>, id: TicketId)
    requires AgreeOn(v, s, rows) && TicketRows(id) <= rows
    ensures SameTicket(v, s, id)
  {
    assert TicketKey(id) in TicketRows(id) && TicketRow(id) in TicketRows(id);
  }

  lemma AddTreasuryLocal(v: Ledger, s: Ledger, w: WriteSet, d: int)
    requires SameAccount(v, s, TREASURY)
    ensures AddTreasury(v, w, d) == AddTreasury(s, w, d)
  {
  }

  lemma ConfirmDepositLocal(v: Ledger, s: Ledger, n: int, cashier: UserId, now: Time)
    requires AgreeOn(v, s, Locks(v, ConfirmDeposit(n, cashier, now)))
    ensures Effect(PlanConfirmDeposit(v, n, cashier, now)) == Effect(PlanConfirmDeposit(s, n, cashier, now))
  {
    var id, rows := TicketId(DepositKind, n), Locks(v, ConfirmDeposit(n, cashier, now));
    TicketAgrees(v, s, rows, id);
    if InState(v, id, {Claimed}) {
      AuditedAgrees(v, s, rows, v.tickets[id].user);
      CreditLocal(v, s, id, now);
    }
  }

  lemma CreditLocal(v: Ledger, s: Ledger, id: TicketId, now: Time)
    requires SameTicket(v, s, id) && id in v.tickets
    requires SameAccount(v, s, v.tickets[id].user) && Agree(v, s, UserKey(v.tickets[id].user))
    ensures id in s.tickets && ConfirmDepositWrites(v, id, now) == ConfirmDepositWrites(s, id, now)
    ensures Admissible(v, ConfirmDepositWrites(v, id, now)) == Admissible(s, ConfirmDepositWrites(s, id, now))
  {
    CheckedLocal(v, s, ConfirmDepositWrites(v, id, now), None);
  }

  lemma CreateDepositLocal(v: Ledger, s: Ledger, step: Step)
    requires step.CreateDeposit? && AgreeOn(v, s, Locks(v, step))
    ensures Plan(v, step) == Plan(s, step)
  {
    assert Agree(v, s, TicketKey(TicketId(DepositKind, step.serial)));
    assert Agree(v, s, UserKey(TargetOf(step.user, step.seen)));
  }

  lemma CancelDepositLocal(v: Ledger, s: Ledger, n: int, seen: Option<int>, now: Time)
    requires AgreeOn(v, s, Locks(v, CancelDeposit(n, seen, now)))
    ensures PlanCancelDeposit(v, n, seen, now) == PlanCancelDeposit(s, n, seen, now)
  {
    var id, rows := TicketId(DepositKind, n), Locks(v, CancelDeposit(n, seen, now));
    TicketAgrees(v, s, rows, id);
    assert id in v.tickets ==> UserKey(TargetOf(v.tickets[id].user, seen)) in rows;
  }

  lemma ClaimLocal(v: Ledger, s: Ledger, step: Step)
    requires step.ClaimTicket? || step.ReleaseTicket?
    requires AgreeOn(v, s, Locks(v, step))
    ensures Plan(v, step) == Plan(s, step)
  {
    var id, rows := step.id, Locks(v, step);
    TicketAgrees(v, s, rows, id);
    assert id in v.tickets ==> UserKey(TargetOf(v.tickets[id].user, step.seen)) in rows;
  }

  lemma CreateWithdrawLocal(v: Ledger, s: Ledger, step: Step)
    requires step.CreateWithdraw? && AgreeOn(v, s, Locks(v, step))
    ensures Plan(v, step) == Plan(s, step)
  {
    AuditedAgrees(v, s, Locks(v, step), step.user);
    assert Agree(v, s, TicketKey(TicketId(WithdrawKind, step.serial))) && Agree(v, s, UserFlag(step.user));
  }

  lemma CancelWithdrawLocal(v: Ledger, s: Ledger, n: int, now: Time)
    requires AgreeOn(v, s, Locks(v, CancelWithdraw(n, now)))
    ensures PlanCancelWithdraw(v, n, now) == PlanCancelWithdraw(s, n, now)
  {
    var id, rows := TicketId(WithdrawKind, n), Locks(v, CancelWithdraw(n, now));
    TicketAgrees(v, s, rows, id);
    if id in v.tickets {
      AuditedAgrees(v, s, rows, v.tickets[id].user);
    }
  }

  lemma DeliverLocal(v: Ledger, s: Ledger, id: TicketId, now: Time)
    requires SameTicket(v, s, id) && id in v.tickets && TREASURY in v.accounts && v.tickets[id].user in v.accounts
    requires SameAccount(v, s, v.tickets[id].user) && Agree(v, s, UserKey(v.tickets[id].user))
    requires SameAccount(v, s, TREASURY) && Agree(v, s, UserKey(TREASURY))
    ensures id in s.tickets && TREASURY in s.accounts && s.tickets[id].user in s.accounts
    ensures var w, w' := ConfirmWithdrawBase(v, id, now), ConfirmWithdrawBase(s, id, now);
      AddTreasury(v, w, v.tickets[id].fee) == AddTreasury(s, w', s.tickets[id].fee)
    ensures Checked(v, AddTreasury(v, ConfirmWithdrawBase(v, id, now), v.tickets[id].fee), None)
         == Checked(s, AddTreasury(s, ConfirmWithdrawBase(s, id, now), s.tickets[id].fee), None)
  {
    AddTreasuryLocal(v, s, ConfirmWithdrawBase(v, id, now), v.tickets[id].fee);
    CheckedLocal(v, s, AddTreasury(v, ConfirmWithdrawBase(v, id, now), v.tickets[id].fee), None);
  }

  lemma ConfirmWithdrawLocal(v: Ledger, s: Ledger, n: int, cashier: UserId, now: Time)
    requires AgreeOn(v, s, Locks(v, ConfirmWithdraw(n, cashier, now)))
    ensures Effect(PlanConfirmWithdraw(v, n, cashier, now)) == Effect(PlanConfirmWithdraw(s, n, cashier, now))
  {
    var id, rows := TicketId(WithdrawKind, n), Locks(v, ConfirmWithdraw(n, cashier, now));
    TicketAgrees(v, s, rows, id);
    if InState(v, id, {Claimed}) {
      AuditedAgrees(v, s, rows, v.tickets[id].user);
      AuditedAgrees(v, s, rows, TREASURY);
      if v.tickets[id].user in v.accounts && TREASURY in v.accounts {
        DeliverLocal(v, s, id, now);
      }
    }
  }

  lemma TicketPlansLocal(v: Ledger, s: Ledger, step: Step)
    requires step.CreateDeposit? || step.ConfirmDeposit? || step.CancelDeposit?
             || step.ClaimTicket? || step.ReleaseTicket?
             || step.CreateWithdraw? || step.ConfirmWithdraw? || step.CancelWithdraw?
    requires AgreeOn(v, s, Locks(v, step))
    ensures Effect(Plan(v, step)) == Effect(Plan(s, step))
  {
    match step
    case ConfirmDeposit(n, c, now) => ConfirmDepositLocal(v, s, n, c, now);
    case CreateWithdraw(_, _, _, _, _, _, _) => CreateWithdrawLocal(v, s, step);
    case ConfirmWithdraw(n, c, now) => ConfirmWithdrawLocal(v, s, n, c, now);
    case CancelWithdraw(n, now) => CancelWithdrawLocal(v, s, n, now);
    case CreateDeposit(_, _, _, _, _, _, _, _, _) => CreateDepositLocal(v, s, step);
    case CancelDeposit(n, seen, now) => CancelDepositLocal(v, s, n, seen, now);
    case _ => ClaimLocal(v, s, step);
  }

  lemma SweepLocal(v: Ledger, s: Ledger, amount: int)
    requires SameAccount(v, s, TREASURY) && Agree(v, s, UserKey(TREASURY))
    ensures PlanSweep(v, amount) == PlanSweep(s, amount)
  {
    if TREASURY in v.accounts {
      CheckedLocal(v, s, SweepWrites(v, amount), Some(v.accounts[TREASURY].balance - amount));
    }
  }

  lemma PayLocal(v: Ledger, s: Ledger, amount: int, u: UserId)
    requires SameAccount(v, s, TREASURY) && Agree(v, s, UserKey(TREASURY))
    requires SameAccount(v, s, u) && Agree(v, s, UserKey(u))
    ensures PlanTreasuryToUser(v, amount, u) == PlanTreasuryToUser(s, amount, u)
  {
    if TREASURY in v.accounts {
      assert TreasuryToUserWrites(v, amount, u) == TreasuryToUserWrites(s, amount, u);
      CheckedLocal(v, s, TreasuryToUserWrites(v, amount, u), None);
    }
  }

  lemma DisputeAgrees(v: Ledger, s: Ledger, rows: set<Row>, id: TicketId)
    requires AgreeOn(v, s, rows) && DisputeLocks(v, id) <= rows
    ensures Agree(v, s, DisputeRow(id)) && Agree(v, s, TicketKey(id))
    ensures id in v.tickets ==> Agree(v, s, UserKey(v.tickets[id].user))
  {
    var locks := DisputeLocks(v, id);
    assert DisputeRow(id) in locks && TicketKey(id) in locks;
    assert id in v.tickets ==> UserKey(v.tickets[id].user) in locks;
  }

  lemma ResolveDisputeLocal(v: Ledger, s: Ledger, id: TicketId, action: Resolution, amount: int)
    requires AgreeOn(v, s, Locks(v, ResolveDispute(id, action, amount)))
    ensures PlanResolveDispute(v, id, action, amount) == PlanResolveDispute(s, id, action, amount)
  {
    var rows := Locks(v, ResolveDispute(id, action, amount));
    DisputeAgrees(v, s, rows, id);
    if id in v.tickets {
      var t := v.tickets[id];
      var pay := Payout(action, amount, t);
      if pay.Some? {
        AuditedAgrees(v, s, rows, t.user);
        AuditedAgrees(v, s, rows, TREASURY);
        PayLocal(v, s, pay.value, t.user);
      }
      var paid := if pay.Some? then PlanTreasuryToUser(v, pay.value, t.user) else Commit(NO_WRITES, None);
      if paid.Commit? {
        PayTargets(v, pay, t.user);
        var row := AuditRow(DisputeChanged, t.user, amount, 0, 0, NoRef);
        CheckedLocal(v, s, WithDispute(paid.writes, id, DisputeResolved, row), None);
      }
    }
  }

  lemma PayTargets(v: Ledger, pay: Option<int>, u: UserId)
    ensures var paid := if pay.Some? then PlanTreasuryToUser(v, pay.value, u) else Commit(NO_WRITES, None);
      paid.Commit? ==> forall r :: r in paid.writes.audit ==> pay.Some? && r.target in {u, TREASURY}
  {
  }

  lemma OpenDisputeLocal(v: Ledger, s: Ledger, id: TicketId, roleValid: bool)
    requires AgreeOn(v, s, DisputeLocks(v, id))
    ensures PlanOpenDispute(v, id, roleValid) == PlanOpenDispute(s, id, roleValid)
  {
    DisputeAgrees(v, s, DisputeLocks(v, id), id);
  }

  lemma RejectDisputeLocal(v: Ledger, s: Ledger, id: TicketId)
    requires AgreeOn(v, s, DisputeLocks(v, id))
    ensures PlanRejectDispute(v, id) == PlanRejectDispute(s, id)
  {
    DisputeAgrees(v, s, DisputeLocks(v, id), id);
  }

  lemma BanLocal(v: Ledger, s: Ledger, u: UserId)
    requires Agree(v, s, UserKey(u)) && Agree(v, s, AccountKey(u))
    ensures PlanBan(v, u) == PlanBan(s, u)
  {
  }

  lemma UnbanLocal(v: Ledger, s: Ledger, u: UserId)
    requires Agree(v, s, UserKey(u))
    ensures PlanUnban(v, u) == PlanUnban(s, u)
  {
  }

  lemma OtherPlansLocal(v: Ledger, s: Ledger, step: Step)
    requires step.OpenDispute? || step.RejectDispute? || step.Ban? || step.Unban? || step.OpenPeriod?
    requires AgreeOn(v, s, Locks(v, step))
    ensures Plan(v, step) == Plan(s, step)
  {
    match step
    case OpenDispute(id, ok) => OpenDisputeLocal(v, s, id, ok);
    case RejectDispute(id) => RejectDisputeLocal(v, s, id);
    case Ban(u) => BanLocal(v, s, u);
    case Unban(u) => UnbanLocal(v, s, u);
    case OpenPeriod(p, _) => assert Agree(v, s, PoolKey(p));
  }

  lemma TreasuryPlansLocal(v: Ledger, s: Ledger, step: Step)
    requires step.Sweep? || step.TreasuryToUser? || step.ResolveDispute?
    requires AgreeOn(v, s, Locks(v, step))
    ensures Plan(v, step) == Plan(s, step)
  {
    match step
    case Sweep(amount) =>
      AuditedAgrees(v, s, Locks(v, step), TREASURY);
      SweepLocal(v, s, amount);
    case TreasuryToUser(amount, u) =>
      AuditedAgrees(v, s, Locks(v, step), TREASURY);
      AuditedAgrees(v, s, Locks(v, step), u);
      PayLocal(v, s, amount, u);
    case ResolveDispute(id, action, amount) => ResolveDisputeLocal(v, s, id, action, amount);
  }

  lemma MoveCutsLocal(v: Ledger, s: Ledger, w: WriteSet, b: Bet, back: bool)
    requires AgreeOn(v, s, CutRows(b))
    ensures MoveCuts(v, w, b, back) == MoveCuts(s, w, b, back)
  {
    var w1 := if b.commission > 0 then AddTreasury(v, w, Signed(back, b.commission)) else w;
    if b.commission > 0 || (b.rake > 0 && b.period.None?) {
      PurseAgrees(v, s, CutRows(b), TREASURY);
      AddTreasuryLocal(v, s, w, Signed(back, b.commission));
      AddTreasuryLocal(v, s, w1, Signed(back, b.rake));
    }
    if b.rake > 0 && b.period.Some? {
      assert PoolKey(b.period.value) in CutRows(b) && PoolRow(b.period.value) in CutRows(b);
    }
  }

  lemma PlaceWritesLocal(v: Ledger, s: Ledger, id: int, b: Bet)
    requires SameAccount(v, s, b.user) && b.user in v.accounts && AgreeOn(v, s, CutRows(b))
    ensures b.user in s.accounts
    ensures MoveCuts(v, PlaceBase(v, id, b), b, false) == MoveCuts(s, PlaceBase(s, id, b), b, false)
    ensures MoveCuts(v, PlaceBase(v, id, b), b, false).audit == PlaceBase(v, id, b).audit
  {
    MoveCutsLocal(v, s, PlaceBase(v, id, b), b, false);
    CutsFrame(v, PlaceBase(v, id, b), b, false);
  }

  lemma PlaceBetLocal(v: Ledger, s: Ledger, id: int, user: UserId, key: string, game: string, amount: int,
      config: GameConfig, rakeBps: int, period: Option<int>, bannedSeen: bool)
    requires AgreeOn(v, s, PlaceLocks(id, NewBet(user, key, game, amount, config.commissionBps, rakeBps, period)))
    ensures PlanPlaceBet(v, id, user, key, game, amount, Some(config), rakeBps, period, bannedSeen, None)
         == PlanPlaceBet(s, id, user, key, game, amount, Some(config), rakeBps, period, bannedSeen, None)
  {
    var b := NewBet(user, key, game, amount, config.commissionBps, rakeBps, period);
    PlaceAgrees(v, s, id, b);
    if user in v.accounts {
      PlaceWritesLocal(v, s, id, b);
      CheckedLocal(v, s, MoveCuts(v, PlaceBase(v, id, b), b, false), Some(id));
    }
  }

  lemma PlaceAgrees(v: Ledger, s: Ledger, id: int, b: Bet)
    requires AgreeOn(v, s, PlaceLocks(id, b))
    ensures Agree(v, s, BetRow(id)) && Agree(v, s, IndexRow(b.user, b.key)) && AgreeOn(v, s, CutRows(b))
    ensures SameAccount(v, s, b.user) && Agree(v, s, UserKey(b.user))
    ensures b.period.Some? ==> Agree(v, s, PoolKey(b.period.value))
  {
    var rows := PlaceLocks(id, b);
    assert BetRow(id) in rows && IndexRow(b.user, b.key) in rows;
    assert b.period.Some? ==> PoolKey(b.period.value) in rows;
    AuditedAgrees(v, s, rows, b.user);
  }

  lemma CloseWritesLocal(v: Ledger, s: Ledger, id: int, status: BetStatus, payout: int)
    requires AgreeOn(v, s, ResolveLocks(v, id, status, payout))
    requires id in v.bets && v.bets[id].status == BetOpen && v.bets[id].user in v.accounts
    ensures id in s.bets && s.bets[id].user in s.accounts
    ensures CloseWrites(v, id, status, payout) == CloseWrites(s, id, status, payout)
    ensures CloseWrites(v, id, status, payout).audit == CloseBase(v, id, status, payout).audit
  {
    var rows := ResolveLocks(v, id, status, payout);
    assert BetRow(id) in rows;
    AuditedAgrees(v, s, rows, v.bets[id].user);
    if TreasuryGain(v.bets[id], status, payout) != 0 {
      PurseAgrees(v, s, rows, TREASURY);
      AddTreasuryLocal(v, s, CloseBase(v, id, status, payout), TreasuryGain(v.bets[id], status, payout));
    }
  }

  lemma ResolveBetLocal(v: Ledger, s: Ledger, id: int, status: BetStatus, payout: int)
    requires AgreeOn(v, s, ResolveLocks(v, id, status, payout))
    ensures PlanResolveBet(v, id, status, payout) == PlanResolveBet(s, id, status, payout)
  {
    var rows := ResolveLocks(v, id, status, payout);
    assert BetRow(id) in rows;
    if id in v.bets && v.bets[id].status == BetOpen {
      AuditedAgrees(v, s, rows, v.bets[id].user);
      if v.bets[id].user in v.accounts {
        CloseWritesLocal(v, s, id, status, payout);
        CheckedLocal(v, s, CloseWrites(v, id, status, payout), None);
      }
    }
  }

  lemma RefundAgrees(v: Ledger, s: Ledger, id: int)
    requires AgreeOn(v, s, RefundLocks(v, id))
    ensures Agree(v, s, BetRow(id))
    ensures id in v.bets && v.bets[id].status == BetOpen ==>
      SameAccount(v, s, v.bets[id].user) && Agree(v, s, UserKey(v.bets[id].user)) && AgreeOn(v, s, CutRows(v.bets[id]))
  {
    var rows := RefundLocks(v, id);
    assert BetRow(id) in rows;
    if id in v.bets && v.bets[id].status == BetOpen {
      AuditedAgrees(v, s, rows, v.bets[id].user);
    }
  }

  lemma RefundWritesLocal(v: Ledger, s: Ledger, id: int)
    requires Agree(v, s, BetRow(id)) && id in v.bets && v.bets[id].user in v.accounts
    requires SameAccount(v, s, v.bets[id].user) && AgreeOn(v, s, CutRows(v.bets[id]))
    ensures id in s.bets && s.bets[id].user in s.accounts
    ensures MoveCuts(v, RefundBase(v, id), v.bets[id], true) == MoveCuts(s, RefundBase(s, id), s.bets[id], true)
    ensures MoveCuts(v, RefundBase(v, id), v.bets[id], true).audit == RefundBase(v, id).audit
  {
    MoveCutsLocal(v, s, RefundBase(v, id), v.bets[id], true);
    CutsFrame(v, RefundBase(v, id), v.bets[id], true);
  }

  lemma RefundBetLocal(v: Ledger, s: Ledger, id: int)
    requires AgreeOn(v, s, RefundLocks(v, id))
    ensures PlanRefundBet(v, id) == PlanRefundBet(s, id)
  {
    RefundAgrees(v, s, id);
    if id in v.bets && v.bets[id].status == BetOpen && v.bets[id].user in v.accounts {
      RefundWritesLocal(v, s, id);
      CheckedLocal(v, s, MoveCuts(v, RefundBase(v, id), v.bets[id], true), None);
    }
  }

  lemma CashoutLocal(v: Ledger, s: Ledger, id: int, multiplier: real)
    requires AgreeOn(v, s, Locks(v, CashoutMines(id, multiplier)))
    ensures PlanCashoutMines(v, id, multiplier) == PlanCashoutMines(s, id, multiplier)
  {
    assert BetRow(id) in Locks(v, CashoutMines(id, multiplier));
    if id in v.bets {
      ResolveBetLocal(v, s, id, Win, CashoutPayout(v.bets[id].stake, multiplier));
    }
  }

  lemma BetPlansLocal(v: Ledger, s: Ledger, step: Step)
    requires step.PlaceBet? || step.ResolveBet? || step.RefundBet? || step.CashoutMines?
    requires AgreeOn(v, s, Locks(v, step))
    ensures Plan(v, step) == Plan(s, step)
  {
    match step
    case PlaceBet(id, u, k, g, a, c, rake, p, banned, d) =>
      if d.None? && c.Some? {
        PlaceBetLocal(v, s, id, u, k, g, a, c.value, rake, p, banned);
      }
    case ResolveBet(id, status, payout) => ResolveBetLocal(v, s, id, status, payout);
    case RefundBet(id) => RefundBetLocal(v, s, id);
    case CashoutMines(id, m) => CashoutLocal(v, s, id, m);
  }

  /** A call whose view agrees with the state on the rows it locks has the same effect on both. */
  lemma PlanLocal(v: Ledger, s: Ledger, step: Step)
    requires AgreeOn(v, s, Locks(v, step))
    ensures Effect(Plan(v, step)) == Effect(Plan(s, step))
  {
    if step.Sweep? || step.TreasuryToUser? || step.ResolveDispute? {
      TreasuryPlansLocal(v, s, step);
    } else if step.PlaceBet? || step.ResolveBet? || step.RefundBet? || step.CashoutMines? {
      BetPlansLocal(v, s, step);
    } else if step.OpenDispute? || step.RejectDispute? || step.Ban? || step.Unban? || step.OpenPeriod? {
      OtherPlansLocal(v, s, step);
    } else {
      TicketPlansLocal(v, s, step);
    }
  }

  // ----- a call writes only rows it locks -----

  /** The rows a write set changes: the key of a row it inserts, the data of a row it updates. */
  function Touches(s: Ledger, w: WriteSet): set<Row> {
    UserTouch(s, w) + AccountTouch(s, w) + TicketTouch(s, w) + PoolTouch(s, w)
    + (if w.bet.Some? then {BetRow(w.bet.value.0)} else {})
    + (if w.key.Some? then {IndexRow(w.key.value.0.0, w.key.value.0.1)} else {})
    + (if w.dispute.Some? then {DisputeRow(w.dispute.value.0)} else {})
  }

  function UserTouch(s: Ledger, w: WriteSet): set<Row> {
    if w.user.None? then {}
    else if w.user.value.0 in s.users then {UserFlag(w.user.value.0)}
    else {UserKey(w.user.value.0)}
  }

  function AccountTouch(s: Ledger, w: WriteSet): set<Row> {
    (if w.account.None? then {} else {BalanceTouch(s, w.account.value.0)})
    + (if w.treasury.None? then {} else {BalanceTouch(s, TREASURY)})
  }

  function BalanceTouch(s: Ledger, u: UserId): Row {
    if u in s.accounts then AccountRow(u) else AccountKey(u)
  }

  function TicketTouch(s: Ledger, w: WriteSet): set<Row> {
    if w.ticket.None? then {}
    else if w.ticket.value.0 in s.tickets then {TicketRow(w.ticket.value.0)}
    else {TicketKey(w.ticket.value.0)}
  }

  function PoolTouch(s: Ledger, w: WriteSet): set<Row> {
    if w.pool.None? then {}
    else if w.pool.value.0 in s.pools then {PoolRow(w.pool.value.0)}
    else {PoolKey(w.pool.value.0)}
  }

  /** An update of a ticket keeps what was fixed when it was opened. */
  predicate KeepsRequest(s: Ledger, w: WriteSet) {
    w.ticket.Some? && w.ticket.value.0 in s.tickets ==> SameRequest(s.tickets[w.ticket.value.0], w.ticket.value.1)
  }

  lemma InstallTouchesOnly(s: Ledger, w: WriteSet, row: Row)
    requires KeepsRequest(s, w) && (row !in Touches(s, w) || Shared(s, row))
    ensures Agree(s, Install(s, w), row)
  {
  }

  lemma TouchesLocal(v: Ledger, s: Ledger, w: WriteSet, rows: set<Row>)
    requires AgreeOn(v, s, rows) && Touches(v, w) <= rows
    ensures Touches(s, w) == Touches(v, w)
  {
    if w.user.Some? {
      UserTouchLocal(v, s, w, rows);
    }
    if w.account.Some? {
      BalanceTouchLocal(v, s, w.account.value.0, rows);
    }
    if w.treasury.Some? {
      BalanceTouchLocal(v, s, TREASURY, rows);
    }
    if w.ticket.Some? {
      TicketTouchLocal(v, s, w, rows);
    }
    if w.pool.Some? {
      PoolTouchLocal(v, s, w, rows);
    }
  }

  lemma TicketTouchLocal(v: Ledger, s: Ledger, w: WriteSet, rows: set<Row>)
    requires AgreeOn(v, s, rows) && w.ticket.Some? && TicketTouch(v, w) <= rows
    ensures TicketTouch(s, w) == TicketTouch(v, w)
  {
    var id := w.ticket.value.0;
    assert (if id in v.tickets then TicketRow(id) else TicketKey(id)) in TicketTouch(v, w);
  }

  lemma PoolTouchLocal(v: Ledger, s: Ledger, w: WriteSet, rows: set<Row>)
    requires AgreeOn(v, s, rows) && w.pool.Some? && PoolTouch(v, w) <= rows
    ensures PoolTouch(s, w) == PoolTouch(v, w)
  {
    var p: int := w.pool.value.0;
    assert (if p in v.pools then PoolRow(p) else PoolKey(p)) in PoolTouch(v, w);
  }

  lemma UserTouchLocal(v: Ledger, s: Ledger, w: WriteSet, rows: set<Row>)
    requires AgreeOn(v, s, rows) && w.user.Some? && UserTouch(v, w) <= rows
    ensures UserTouch(s, w) == UserTouch(v, w)
  {
    var u := w.user.value.0;
    assert (if u in v.users then UserFlag(u) else UserKey(u)) in UserTouch(v, w);
  }

  lemma BalanceTouchLocal(v: Ledger, s: Ledger, u: UserId, rows: set<Row>)
    requires AgreeOn(v, s, rows) && BalanceTouch(v, u) in rows
    ensures BalanceTouch(s, u) == BalanceTouch(v, u)
  {
  }

  lemma TicketPlansWithin(v: Ledger, step: Step)
    requires step.CreateDeposit? || step.ConfirmDeposit? || step.CancelDeposit?
             || step.ClaimTicket? || step.ReleaseTicket?
    requires Plan(v, step).Commit?
    ensures Touches(v, Plan(v, step).writes) <= Locks(v, step)
  {
  }

  lemma WithdrawPlansWithin(v: Ledger, step: Step)
    requires step.CreateWithdraw? || step.ConfirmWithdraw? || step.CancelWithdraw?
    requires Plan(v, step).Commit?
    ensures Touches(v, Plan(v, step).writes) <= Locks(v, step)
  {
  }

  lemma PayWithin(v: Ledger, amount: int, u: UserId)
    requires PlanTreasuryToUser(v, amount, u).Commit?
    ensures Touches(v, PlanTreasuryToUser(v, amount, u).writes) <= Audited(u) + Audited(TREASURY)
  {
  }

  /** What a resolution pays, as the treasury's own write set. */
  function Paid(v: Ledger, pay: Option<int>, u: UserId): Outcome {
    if pay.Some? then PlanTreasuryToUser(v, pay.value, u) else Commit(NO_WRITES, None)
  }

  lemma ResolveWrites(v: Ledger, id: TicketId, action: Resolution, amount: int)
    requires PlanResolveDispute(v, id, action, amount).Commit?
    ensures id in v.tickets
    ensures var t := v.tickets[id];
      var paid := Paid(v, Payout(action, amount, t), t.user);
      && paid.Commit?
      && PlanResolveDispute(v, id, action, amount).writes
         == WithDispute(paid.writes, id, DisputeResolved, AuditRow(DisputeChanged, t.user, amount, 0, 0, NoRef))
  {
  }

  lemma PaidWithin(v: Ledger, pay: Option<int>, u: UserId)
    requires Paid(v, pay, u).Commit?
    ensures Touches(v, Paid(v, pay, u).writes) <= if pay.Some? then Audited(u) + Audited(TREASURY) else {}
  {
    if pay.Some? {
      PayWithin(v, pay.value, u);
    }
  }

  lemma PaidDisputeWithin(v: Ledger, id: TicketId, action: Resolution, amount: int, r: AuditRow)
    requires id in v.tickets && Paid(v, Payout(action, amount, v.tickets[id]), v.tickets[id].user).Commit?
    ensures var w := Paid(v, Payout(action, amount, v.tickets[id]), v.tickets[id].user).writes;
      Touches(v, WithDispute(w, id, DisputeResolved, r)) <= ResolutionLocks(v, id, action, amount)
  {
    var u, pay := v.tickets[id].user, Payout(action, amount, v.tickets[id]);
    PaidWithin(v, pay, u);
    DisputeTouches(v, Paid(v, pay, u).writes, id, r);
  }

  lemma ResolveDisputeWithin(v: Ledger, id: TicketId, action: Resolution, amount: int)
    requires PlanResolveDispute(v, id, action, amount).Commit?
    ensures Touches(v, PlanResolveDispute(v, id, action, amount).writes) <= ResolutionLocks(v, id, action, amount)
  {
    ResolveWrites(v, id, action, amount);
    PaidDisputeWithin(v, id, action, amount, AuditRow(DisputeChanged, v.tickets[id].user, amount, 0, 0, NoRef));
  }

  lemma DisputeTouches(v: Ledger, w: WriteSet, id: TicketId, r: AuditRow)
    ensures Touches(v, WithDispute(w, id, DisputeResolved, r)) <= Touches(v, w) + {DisputeRow(id)}
  {
  }

  lemma OtherPlansWithin(v: Ledger, step: Step)
    requires step.Sweep? || step.OpenDispute? || step.RejectDispute? || step.Ban? || step.Unban? || step.OpenPeriod?
    requires Plan(v, step).Commit?
    ensures Touches(v, Plan(v, step).writes) <= Locks(v, step)
  {
  }

  lemma CutsTouchTreasury(v: Ledger, w: WriteSet, b: Bet, back: bool)
    requires w.treasury.None? && MoveCuts(v, w, b, back).treasury.Some?
    ensures BalanceTouch(v, TREASURY) in CutRows(b)
  {
  }

  lemma CutsTouchPool(v: Ledger, w: WriteSet, b: Bet, back: bool)
    requires w.pool.None?
    ensures PoolTouch(v, MoveCuts(v, w, b, back)) <= CutRows(b)
  {
  }

  lemma CutsWithin(v: Ledger, w: WriteSet, b: Bet, back: bool)
    requires w.pool.None? && w.treasury.None?
    ensures Touches(v, MoveCuts(v, w, b, back)) <= Touches(v, w) + CutRows(b)
  {
    var w' := MoveCuts(v, w, b, back);
    CutsFrame(v, w, b, back);
    CutsTouchPool(v, w, b, back);
    if w'.treasury.Some? {
      CutsTouchTreasury(v, w, b, back);
    }
    assert UserTouch(v, w') == UserTouch(v, w) && TicketTouch(v, w') == TicketTouch(v, w);
    assert AccountTouch(v, w') <= AccountTouch(v, w) + CutRows(b);
  }

  lemma PlaceBetWithin(v: Ledger, id: int, b: Bet)
    requires b.user in v.accounts
    ensures Touches(v, MoveCuts(v, PlaceBase(v, id, b), b, false)) <= PlaceLocks(id, b)
  {
    CutsWithin(v, PlaceBase(v, id, b), b, false);
  }

  lemma CloseWithin(v: Ledger, id: int, status: BetStatus, payout: int)
    requires id in v.bets && v.bets[id].user in v.accounts && v.bets[id].status == BetOpen
    ensures Touches(v, CloseWrites(v, id, status, payout)) <= ResolveLocks(v, id, status, payout)
  {
    var w := CloseBase(v, id, status, payout);
    assert Touches(v, w) == {BetRow(id), AccountRow(v.bets[id].user)};
  }

  lemma ResolveBetWithin(v: Ledger, id: int, status: BetStatus, payout: int)
    requires PlanResolveBet(v, id, status, payout).Commit?
    ensures Touches(v, PlanResolveBet(v, id, status, payout).writes) <= ResolveLocks(v, id, status, payout)
  {
    if v.bets[id].status == BetOpen {
      CloseWithin(v, id, status, payout);
    }
  }

  lemma RefundBetWithin(v: Ledger, id: int)
    requires PlanRefundBet(v, id).Commit?
    ensures Touches(v, PlanRefundBet(v, id).writes) <= RefundLocks(v, id)
  {
    if v.bets[id].status == BetOpen {
      CutsWithin(v, RefundBase(v, id), v.bets[id], true);
    }
  }

  lemma BetPlansWithin(v: Ledger, step: Step)
    requires step.PlaceBet? || step.ResolveBet? || step.RefundBet? || step.CashoutMines?
    requires Plan(v, step).Commit?
    ensures Touches(v, Plan(v, step).writes) <= Locks(v, step)
  {
    match step
    case PlaceBet(id, u, k, g, a, c, rake, p, _, d) =>
      if d.None? {
        PlaceBetWithin(v, id, NewBet(u, k, g, a, c.value.commissionBps, rake, p));
      }
    case ResolveBet(id, status, payout) => ResolveBetWithin(v, id, status, payout);
    case RefundBet(id) => RefundBetWithin(v, id);
    case CashoutMines(id, m) => ResolveBetWithin(v, id, Win, CashoutPayout(v.bets[id].stake, m));
  }

  lemma PlanWithin(v: Ledger, step: Step)
    requires Plan(v, step).Commit?
    ensures Touches(v, Plan(v, step).writes) <= Locks(v, step)
  {
    if step.PlaceBet? || step.ResolveBet? || step.RefundBet? || step.CashoutMines? {
      BetPlansWithin(v, step);
    } else if step.TreasuryToUser? {
      PayWithin(v, step.amount, step.target);
    } else if step.ResolveDispute? {
      ResolveDisputeWithin(v, step.id, step.action, step.amount);
    } else if step.CreateWithdraw? || step.ConfirmWithdraw? || step.CancelWithdraw? {
      WithdrawPlansWithin(v, step);
    } else if step.Sweep? || step.OpenDispute? || step.RejectDispute? || step.Ban? || step.Unban? || step.OpenPeriod? {
      OtherPlansWithin(v, step);
    } else {
      TicketPlansWithin(v, step);
    }
  }

  // ----- the concurrent system -----

  /** A running call: the rows it has locked and the versions it read under those locks. */
  datatype Txn = Txn(step: Step, held: set<Row>, view: Ledger)

  /** `log` lists the committed calls in commit order. */
  datatype System = System(committed: Ledger, running: map<int, Txn>, log: seq<Step>)

  datatype Micro = Begin(txn: int, step: Step) | Lock(txn: int, row: Row) | CommitTxn(txn: int) | Rollback(txn: int)

  const NOTHING_READ := Ledger(map[], map[], map[], map[], map[], map[], map[], [])

  const IDLE := System(EMPTY, map[], [])

  /** The latest committed version of one row enters the view. */
  function CopyRow(v: Ledger, s: Ledger, row: Row): Ledger {
    match row
    case UserKey(u) => v.(users := Copied(v.users, s.users, u))
    case UserFlag(u) => v.(users := Copied(v.users, s.users, u))
    case AccountKey(u) => v.(accounts := Copied(v.accounts, s.accounts, u))
    case AccountRow(u) => v.(accounts := Copied(v.accounts, s.accounts, u))
    case TicketKey(t) => v.(tickets := Copied(v.tickets, s.tickets, t))
    case TicketRow(t) => v.(tickets := Copied(v.tickets, s.tickets, t))
    case PoolKey(p) => v.(pools := Copied(v.pools, s.pools, p))
    case PoolRow(p) => v.(pools := Copied(v.pools, s.pools, p))
    case BetRow(i) => v.(bets := Copied(v.bets, s.bets, i))
    case IndexRow(u, k) => v.(keys := Copied(v.keys, s.keys, (u, k)))
    case DisputeRow(t) => v.(disputes := Copied(v.disputes, s.disputes, t))
  }

  function Copied<K, V>(to: map<K, V>, from: map<K, V>, k: K): map<K, V> {
    if k in from then to[k := from[k]] else to - {k}
  }

  predicate Free(sys: System, row: Row) {
    forall i :: i in sys.running ==> row !in sys.running[i].held
  }

  /** One micro-step; a blocked or meaningless one changes nothing. A call that raises rolls back. */
  function Next(sys: System, m: Micro): System {
    match m
    case Begin(i, step) =>
      if i in sys.running || !ValidConfig(step) then sys
      else sys.(running := sys.running[i := Txn(step, {}, NOTHING_READ)])
    case Lock(i, row) =>
      if i !in sys.running || row !in Locks(sys.running[i].view, sys.running[i].step) then sys
      else if !Free(sys, row) && !Shared(sys.committed, row) then sys
      else
        var t := sys.running[i];
        sys.(running := sys.running[i := t.(held := t.held + {row}, view := CopyRow(t.view, sys.committed, row))])
    case CommitTxn(i) =>
      if i !in sys.running || !(Locks(sys.running[i].view, sys.running[i].step) <= sys.running[i].held) then sys
      else
        var t := sys.running[i];
        var rest := sys.running - {i};
        (match Plan(t.view, t.step)
         case Abort(_) => System(sys.committed, rest, sys.log)
         case Commit(w, _) => System(Install(sys.committed, w), rest, sys.log + [t.step]))
    case Rollback(i) => sys.(running := sys.running - {i})
  }

  function Interleave(sys: System, ms: seq<Micro>): System {
    if ms == [] then sys else Next(Interleave(sys, ms[..|ms| - 1]), ms[|ms| - 1])
  }

  predicate BothHold(a: Txn, b: Txn, row: Row) {
    row in a.held && row in b.held
  }

  /** Only keys of existing rows are held by several calls, what a call has read under its locks is
      still true, and the committed state is the serial run of the committed calls. */
  ghost predicate Serial(sys: System) {
    && (forall i, j, row :: i in sys.running && j in sys.running && BothHold(sys.running[i], sys.running[j], row) ==>
          i == j || Shared(sys.committed, row))
    && (forall i :: i in sys.running ==> AgreeOn(sys.running[i].view, sys.committed, sys.running[i].held))
    && (forall i :: i in sys.running ==> ValidConfig(sys.running[i].step))
    && ValidRun(sys.log)
    && sys.committed == Run(EMPTY, sys.log)
  }

  lemma CopyRowAgrees(v: Ledger, s: Ledger, row: Row, other: Row)
    ensures Agree(CopyRow(v, s, row), s, row)
    ensures Agree(v, s, other) ==> Agree(CopyRow(v, s, row), s, other)
  {
    match row
    case UserKey(u) => UsersAgree(v, s, u, other);
    case UserFlag(u) => UsersAgree(v, s, u, other);
    case AccountKey(u) => AccountsAgree(v, s, u, other);
    case AccountRow(u) => AccountsAgree(v, s, u, other);
    case TicketKey(t) => TicketsAgree(v, s, t, other);
    case TicketRow(t) => TicketsAgree(v, s, t, other);
    case PoolKey(p) => PoolsAgree(v, s, p, other);
    case PoolRow(p) => PoolsAgree(v, s, p, other);
    case BetRow(i) => BetsAgree(v, s, i, other);
    case IndexRow(u, k) => IndexAgrees(v, s, (u, k), other);
    case DisputeRow(t) => DisputesAgree(v, s, t, other);
  }

  lemma UsersAgree(v: Ledger, s: Ledger, u: UserId, other: Row)
    ensures var v' := v.(users := Copied(v.users, s.users, u));
      Agree(v', s, UserKey(u)) && Agree(v', s, UserFlag(u)) && (Agree(v, s, other) ==> Agree(v', s, other))
  {
  }

  lemma AccountsAgree(v: Ledger, s: Ledger, u: UserId, other: Row)
    ensures var v' := v.(accounts := Copied(v.accounts, s.accounts, u));
      Agree(v', s, AccountKey(u)) && Agree(v', s, AccountRow(u)) && (Agree(v, s, other) ==> Agree(v', s, other))
  {
  }

  lemma TicketsAgree(v: Ledger, s: Ledger, t: TicketId, other: Row)
    ensures var v' := v.(tickets := Copied(v.tickets, s.tickets, t));
      Agree(v', s, TicketKey(t)) && Agree(v', s, TicketRow(t)) && (Agree(v, s, other) ==> Agree(v', s, other))
  {
  }

  lemma PoolsAgree(v: Ledger, s: Ledger, p: int, other: Row)
    ensures var v' := v.(pools := Copied(v.pools, s.pools, p));
      Agree(v', s, PoolKey(p)) && Agree(v', s, PoolRow(p)) && (Agree(v, s, other) ==> Agree(v', s, other))
  {
  }

  lemma BetsAgree(v: Ledger, s: Ledger, i: int, other: Row)
    ensures var v' := v.(bets := Copied(v.bets, s.bets, i));
      Agree(v', s, BetRow(i)) && (Agree(v, s, other) ==> Agree(v', s, other))
  {
  }

  lemma IndexAgrees(v: Ledger, s: Ledger, k: (UserId, string), other: Row)
    ensures var v' := v.(keys := Copied(v.keys, s.keys, k));
      Agree(v', s, IndexRow(k.0, k.1)) && (Agree(v, s, other) ==> Agree(v', s, other))
  {
  }

  lemma DisputesAgree(v: Ledger, s: Ledger, t: TicketId, other: Row)
    ensures var v' := v.(disputes := Copied(v.disputes, s.disputes, t));
      Agree(v', s, DisputeRow(t)) && (Agree(v, s, other) ==> Agree(v', s, other))
  {
  }

  lemma LockStepSerial(sys: System, i: int, row: Row)
    requires Serial(sys)
    ensures Serial(Next(sys, Lock(i, row)))
  {
    var sys' := Next(sys, Lock(i, row));
    if sys' != sys {
      var t := sys.running[i];
      forall r | r in sys'.running[i].held
        ensures Agree(sys'.running[i].view, sys.committed, r)
      {
        CopyRowAgrees(t.view, sys.committed, row, r);
      }
    }
  }

  /** The commit of a locked call is that call, executed atomically now. */
  lemma CommitIsAtomic(sys: System, i: int)
    requires Serial(sys) && i in sys.running
    requires Locks(sys.running[i].view, sys.running[i].step) <= sys.running[i].held
    ensures Effect(Plan(sys.running[i].view, sys.running[i].step)) == Effect(Plan(sys.committed, sys.running[i].step))
    ensures Next(sys, CommitTxn(i)).committed == Apply(sys.committed, sys.running[i].step)
  {
    PlanLocal(sys.running[i].view, sys.committed, sys.running[i].step);
  }

  /** What a commit changes, no other running call has read under a lock that it could break. */
  lemma CommitDisturbsNobody(sys: System, i: int, w: WriteSet, j: int, row: Row)
    requires Serial(sys) && i in sys.running && j in sys.running && i != j && row in sys.running[j].held
    requires Touches(sys.committed, w) <= sys.running[i].held && KeepsRequest(sys.committed, w)
    ensures Agree(sys.running[j].view, Install(sys.committed, w), row)
  {
    assert Agree(sys.running[j].view, sys.committed, row);
    InstallTouchesOnly(sys.committed, w, row);
    AgreeTransitive(sys.running[j].view, sys.committed, Install(sys.committed, w), row);
  }

  lemma AgreeTransitive(a: Ledger, b: Ledger, c: Ledger, row: Row)
    requires Agree(a, b, row) && Agree(b, c, row)
    ensures Agree(a, c, row)
  {
  }

  /** The write set of a locked call touches only rows it holds, and keeps tickets' requests. */
  lemma CommitWrites(sys: System, i: int)
    requires Serial(sys) && i in sys.running
    requires Locks(sys.running[i].view, sys.running[i].step) <= sys.running[i].held
    requires Plan(sys.running[i].view, sys.running[i].step).Commit?
    ensures var w := Plan(sys.running[i].view, sys.running[i].step).writes;
      Touches(sys.committed, w) <= sys.running[i].held && KeepsRequest(sys.committed, w)
  {
    var t := sys.running[i];
    CommitIsAtomic(sys, i);
    PlanWithin(t.view, t.step);
    TouchesLocal(t.view, sys.committed, Plan(t.view, t.step).writes, Locks(t.view, t.step));
    ReachableInv(sys.log);
    PlanWritesOk(sys.committed, t.step);
  }

  lemma StillShared(s: Ledger, w: WriteSet, row: Row)
    requires Shared(s, row)
    ensures Shared(Install(s, w), row)
  {
  }

  lemma CommitStepSerial(sys: System, i: int)
    requires Serial(sys)
    ensures Serial(Next(sys, CommitTxn(i)))
  {
    var sys' := Next(sys, CommitTxn(i));
    if sys' != sys {
      var t := sys.running[i];
      CommitIsAtomic(sys, i);
      if Plan(t.view, t.step).Commit? {
        var w := Plan(t.view, t.step).writes;
        CommitWrites(sys, i);
        assert (sys.log + [t.step])[..|sys.log|] == sys.log;
        forall j, row | j in sys'.running && row in sys'.running[j].held
          ensures Agree(sys'.running[j].view, sys'.committed, row)
        {
          CommitDisturbsNobody(sys, i, w, j, row);
        }
        forall row | Shared(sys.committed, row)
          ensures Shared(sys'.committed, row)
        {
          StillShared(sys.committed, w, row);
        }
      }
    }
  }

  lemma MicroSerial(sys: System, m: Micro)
    requires Serial(sys)
    ensures Serial(Next(sys, m))
  {
    match m
    case Begin(_, _) =>
    case Lock(i, row) => LockStepSerial(sys, i, row);
    case CommitTxn(i) => CommitStepSerial(sys, i);
    case Rollback(_) =>
  }

  /** Every interleaving of any number of calls, with aborts anywhere, leaves the committed state
      that the committed calls give when run one after the other. */
  lemma {:induction false} InterleavingsAreSerial(ms: seq<Micro>)
    ensures Serial(Interleave(IDLE, ms))
    decreases |ms|
  {
    if ms != [] {
      InterleavingsAreSerial(ms[..|ms| - 1]);
      MicroSerial(Interleave(IDLE, ms[..|ms| - 1]), ms[|ms| - 1]);
    }
  }

  /** Hence, for any interleaving: at most one of confirm and cancel commits for a ticket, its owner's
      balance moves exactly as often and as far as its outcome means and nobody else's does, a ticket is
      never claimed twice without a release between, and one bet exists per idempotency key. */
  lemma SingleWinner(ms: seq<Micro>, id: TicketId, u: UserId, b1: int, b2: int)
    ensures var s := Interleave(IDLE, ms).committed;
      TicketSettled(s, id, u) && BetSettled(s, b1, b2) && 0 <= Held(s.audit, id) <= 1
  {
    InterleavingsAreSerial(ms);
    var log := Interleave(IDLE, ms).log;
    TicketSettlesOnce(log, id, u);
    OneClaimPerOpenPeriod(log, |log|, id);
    assert log[..|log|] == log;
    OneBetPerKey(log, b1, b2);
  }

  /** No lost update: after any interleaving every balance is the replay of the audit log. */
  lemma NoLostUpdate(ms: seq<Micro>, u: UserId)
    ensures var s := Interleave(IDLE, ms).committed;
      BalanceIn(s.accounts, u) == AuditNet(s.audit, u) + if u == TREASURY then BetTotal(TreasuryShare, s.bets) else 0
  {
    InterleavingsAreSerial(ms);
    AuditLogReplays(Interleave(IDLE, ms).log, u);
  }
}
