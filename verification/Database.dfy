/**
 The stored procedures as they are written. A transaction body is a sequence of statements that
 change its own row versions one after another, with every CHECK enforced when its statement
 runs; the procedure makes them visible at once, or not at all when one raises. Each is proved to
 have exactly the effect of its planned write set.
 */
module Database {
  import opened Sums
  import opened Ledger
  import opened Books
  import opened Procedures
  import opened Guarantees

  /** What a call returns: its value, or the exception it raised. */
  datatype Reply = Returned(value: Option<int>) | Raised(error: Error)

  function ReplyOf(o: Outcome): Reply {
    if o.Abort? then Raised(o.error) else Returned(o.reply)
  }

  // ----- single statements, on a transaction's own row versions -----

  /** `UPDATE core.balances SET ... WHERE discord_id = u`: no row, no change; a CHECK may fail. */
  method UpdateAccount(m: map<UserId, Account>, u: UserId, balance: int, locked: int, wagered: int, won: int)
    returns (ok: bool, m': map<UserId, Account>)
    ensures u !in m ==> ok && m' == m
    ensures u in m ==>
      var a := Account(m[u].balance + balance, m[u].locked + locked, m[u].wagered + wagered, m[u].won + won);
      ok == NonNegative(a) && m' == m[u := a]
  {
    ok, m' := true, m;
    if u in m {
      var a := Account(m[u].balance + balance, m[u].locked + locked, m[u].wagered + wagered, m[u].won + won);
      ok, m' := NonNegative(a), m[u := a];
    }
  }

  /** `UPDATE luck.raffle_periods SET pool_amount = pool_amount + d WHERE id = p`. */
  method UpdatePool(m: map<int, Pool>, p: int, d: int) returns (ok: bool, m': map<int, Pool>)
    ensures p !in m ==> ok && m' == m
    ensures p in m ==> ok == (m[p].amount + d >= 0) && m' == m[p := Pool(m[p].opening, m[p].amount + d)]
  {
    ok, m' := true, m;
    if p in m {
      ok, m' := m[p].amount + d >= 0, m[p := Pool(m[p].opening, m[p].amount + d)];
    }
  }

  // ----- transaction bodies -----

  /** `INSERT ... ON CONFLICT DO NOTHING` into users and balances. */
  method EnsureRows(s: Ledger, u: UserId) returns (users: map<UserId, bool>, accounts: map<UserId, Account>)
    ensures users == Put(s.users, EnsureUser(s, u))
    ensures accounts == s.accounts[u := AccountOf(s, u)]
  {
    users := if u in s.users then s.users else s.users[u := false];
    accounts := if u in s.accounts then s.accounts else s.accounts[u := NO_GOLD];
  }

  lemma PutTwice(m: map<UserId, Account>, u: UserId, a: Account, b: Account)
    ensures m[u := a][u := b] == m[u := b]
  {
  }

  method CreditDeposit(s: Ledger, id: TicketId, now: Time) returns (r: Option<Ledger>)
    requires id in s.tickets
    ensures var w := ConfirmDepositWrites(s, id, now);
      r == if Admissible(s, w) then Some(Install(s, w)) else None
  {
    var t := s.tickets[id];
    var users, accounts := EnsureRows(s, t.user);
    var before := accounts[t.user];
    var after := before.balance + t.amount;
    var credited := Account(after, before.locked, before.wagered, before.won);
    PutTwice(s.accounts, t.user, before, credited);
    accounts := accounts[t.user := credited];
    var tickets := s.tickets[id := t.(status := Confirmed, lastActivity := now)];
    var audit := s.audit + [AuditRow(DepositConfirmed, t.user, t.amount, before.balance, after, TicketRef(id))];
    ghost var w := ConfirmDepositWrites(s, id, now);
    assert w.audit[0].target == t.user;
    if NonNegative(credited) && t.amount > 0 && t.fee >= 0 && t.user in users {
      r := Some(Ledger(users, accounts, tickets, s.bets, s.keys, s.pools, s.disputes, audit));
    } else {
      r := None;
    }
  }

  method LockGold(s: Ledger, id: TicketId, user: UserId, amount: int, limits: Limits, now: Time)
    returns (r: Option<Ledger>)
    requires user in s.accounts
    ensures var w := CreateWithdrawWrites(s, id, user, amount, limits, now);
      r == if Admissible(s, w) then Some(Install(s, w)) else None
  {
    var before := s.accounts[user].balance;
    var fee := Fee(amount, limits.feeBps);
    var ok, accounts := UpdateAccount(s.accounts, user, -amount, amount, 0, 0);
    var tickets := s.tickets[id := Ticket(user, amount, fee, None, Open, None, None, now, now + limits.ttl)];
    var audit := s.audit + [AuditRow(WithdrawLocked, user, amount, before, before - amount, TicketRef(id))];
    ghost var w := CreateWithdrawWrites(s, id, user, amount, limits, now);
    assert w.audit[0].target == user;
    if ok && amount > 0 && fee >= 0 && user in s.users {
      r := Some(s.(accounts := accounts, tickets := tickets, audit := audit));
    } else {
      r := None;
    }
  }

  method DeliverGold(s: Ledger, id: TicketId, now: Time) returns (r: Option<Ledger>)
    requires id in s.tickets && s.tickets[id].user in s.accounts && TREASURY in s.accounts
    ensures var w := AddTreasury(s, ConfirmWithdrawBase(s, id, now), s.tickets[id].fee);
      r == if Admissible(s, w) then Some(Install(s, w)) else None
  {
    var t := s.tickets[id];
    var before, treasury := s.accounts[t.user].balance, s.accounts[TREASURY].balance;
    var ok1, accounts := UpdateAccount(s.accounts, t.user, 0, -t.amount, 0, 0);
    var ok2;
    ok2, accounts := UpdateAccount(accounts, TREASURY, t.fee, 0, 0, 0);
    var tickets := s.tickets[id := t.(status := Confirmed, delivered := Some(t.amount - t.fee), lastActivity := now)];
    var audit := s.audit + [
      AuditRow(WithdrawConfirmed, t.user, t.amount, before, before, TicketRef(id)),
      AuditRow(FeeCredited, TREASURY, t.fee, treasury, treasury + t.fee, TicketRef(id))];
    ghost var w := AddTreasury(s, ConfirmWithdrawBase(s, id, now), t.fee);
    assert w.audit[0].target == t.user && w.audit[1].target == TREASURY;
    if ok1 && ok2 && t.amount > 0 && t.fee >= 0 && t.user in s.users && TREASURY in s.users {
      r := Some(s.(accounts := accounts, tickets := tickets, audit := audit));
    } else {
      r := None;
    }
  }

  method ReturnGold(s: Ledger, id: TicketId, now: Time) returns (r: Option<Ledger>)
    requires id in s.tickets && s.tickets[id].user in s.accounts
    ensures var w := CancelWithdrawWrites(s, id, now);
      r == if Admissible(s, w) then Some(Install(s, w)) else None
  {
    var t := s.tickets[id];
    var before := s.accounts[t.user];
    var after := before.balance + t.amount;
    var accounts := s.accounts[t.user := Account(after, before.locked - t.amount, before.wagered, before.won)];
    var tickets := s.tickets[id := t.(status := Cancelled, lastActivity := now)];
    var audit := s.audit + [AuditRow(WithdrawRefunded, t.user, t.amount, before.balance, after, TicketRef(id))];
    ghost var w := CancelWithdrawWrites(s, id, now);
    assert w.audit[0].target == t.user;
    if NonNegative(accounts[t.user]) && t.amount > 0 && t.fee >= 0 && t.user in s.users {
      r := Some(s.(accounts := accounts, tickets := tickets, audit := audit));
    } else {
      r := None;
    }
  }

  predicate ChecksHold(m: map<UserId, Account>) {
    forall u :: u in m ==> NonNegative(m[u])
  }

  predicate CutsAdmissible(w: WriteSet) {
    && (w.treasury.Some? ==> NonNegative(w.treasury.value))
    && (w.pool.Some? ==> w.pool.value.1.amount >= 0)
  }

  /** Move a bet's commission and rake into, or back out of, the treasury and the period's pool;
      `w` is what the transaction has written so far. */
  method MoveBetCuts(ghost s: Ledger, ghost w: WriteSet, written: map<UserId, Account>, unwritten: map<int, Pool>,
      b: Bet, back: bool)
    returns (ok: bool, accounts: map<UserId, Account>, pools: map<int, Pool>)
    requires written == AccountsAfter(s.accounts, w) && unwritten == s.pools && w.pool.None? && w.treasury.None?
    requires ChecksHold(written)
    ensures var w' := MoveCuts(s, w, b, back);
      && ok == CutsAdmissible(w')
      && accounts == AccountsAfter(s.accounts, w') && pools == Put(s.pools, w'.pool)
  {
    ok, accounts, pools := true, written, unwritten;
    if b.commission > 0 {
      ok, accounts := UpdateAccount(accounts, TREASURY, Signed(back, b.commission), 0, 0, 0);
    }
    if b.rake > 0 {
      var ok2;
      if b.period.Some? {
        ok2, pools := UpdatePool(pools, b.period.value, Signed(back, b.rake));
      } else {
        ok2, accounts := UpdateAccount(accounts, TREASURY, Signed(back, b.rake), 0, 0, 0);
      }
      ok := ok && ok2;
    }
  }

  method TakeStake(s: Ledger, id: int, b: Bet) returns (r: Option<Ledger>)
    requires b.user in s.accounts && ChecksHold(s.accounts)
    ensures var w := MoveCuts(s, PlaceBase(s, id, b), b, false);
      r == if Admissible(s, w) then Some(Install(s, w)) else None
  {
    ghost var w := PlaceBase(s, id, b);
    CutsFrame(s, w, b, false);
    var before := s.accounts[b.user].balance;
    var ok, accounts := UpdateAccount(s.accounts, b.user, -b.amount, b.stake, b.amount, 0);
    if !ok {
      return None;
    }
    var pools;
    ok, accounts, pools := MoveBetCuts(s, w, accounts, s.pools, b, false);
    var audit := s.audit + [AuditRow(BetPlaced, b.user, b.amount, before, before - b.amount, BetRef(id))];
    assert w.audit[0].target == b.user;
    if ok && b.amount > 0 && b.payout >= 0 && b.user in s.users {
      return Some(s.(accounts := accounts, pools := pools, bets := s.bets[id := b],
        keys := s.keys[(b.user, b.key) := id], audit := audit));
    }
    return None;
  }

  method ReturnStake(s: Ledger, id: int) returns (r: Option<Ledger>)
    requires id in s.bets && s.bets[id].user in s.accounts && ChecksHold(s.accounts)
    ensures var w := MoveCuts(s, RefundBase(s, id), s.bets[id], true);
      r == if Admissible(s, w) then Some(Install(s, w)) else None
  {
    var b := s.bets[id];
    ghost var w := RefundBase(s, id);
    CutsFrame(s, w, b, true);
    var before := s.accounts[b.user].balance;
    var ok, accounts := UpdateAccount(s.accounts, b.user, b.amount, -b.stake, -b.amount, 0);
    if !ok {
      return None;
    }
    var pools;
    ok, accounts, pools := MoveBetCuts(s, w, accounts, s.pools, b, true);
    var audit := s.audit + [AuditRow(BetRefunded, b.user, b.amount, before, before + b.amount, BetRef(id))];
    assert w.audit[0].target == b.user;
    if ok && b.amount > 0 && b.user in s.users {
      return Some(s.(accounts := accounts, pools := pools, bets := s.bets[id := b.(status := Refunded, payout := 0)],
        audit := audit));
    }
    return None;
  }

  /** What the user is credited and what the treasury gains. */
  method Settlement(b: Bet, status: BetStatus, payout: int) returns (credit: int, gain: int)
    requires status in {Win, Loss, Tie}
    ensures credit == Credit(b, status, payout) && gain == TreasuryGain(b, status, payout)
    ensures status == Win ==> credit == payout && gain == b.stake - payout
    ensures status == Loss ==> credit == 0 && gain == b.stake
    ensures status == Tie ==> credit == b.stake && gain == 0
  {
    if status == Win {
      credit, gain := payout, b.stake - payout;
    } else if status == Loss {
      credit, gain := 0, b.stake;
    } else {
      credit, gain := b.stake, 0;
    }
  }

  /** The account updates of a resolution, with their CHECKs. */
  method PayOut(s: Ledger, id: int, status: BetStatus, payout: int) returns (ok: bool, accounts: map<UserId, Account>)
    requires id in s.bets && s.bets[id].user in s.accounts && status in {Win, Loss, Tie}
    ensures var w := CloseWrites(s, id, status, payout);
      && ok == (NonNegative(w.account.value.1) && (w.treasury.Some? ==> NonNegative(w.treasury.value)))
      && accounts == AccountsAfter(s.accounts, w)
  {
    var b := s.bets[id];
    var credit, gain := Settlement(b, status, payout);
    var ok1;
    ok1, accounts := UpdateAccount(s.accounts, b.user, credit, -b.stake, 0, credit);
    var ok2 := true;
    if gain != 0 {
      ok2, accounts := UpdateAccount(accounts, TREASURY, gain, 0, 0, 0);
    }
    ok := ok1 && ok2;
  }

  method CloseBet(s: Ledger, id: int, status: BetStatus, payout: int) returns (r: Option<Ledger>)
    requires id in s.bets && s.bets[id].user in s.accounts && status in {Win, Loss, Tie}
    ensures var w := CloseWrites(s, id, status, payout);
      r == if Admissible(s, w) then Some(Install(s, w)) else None
  {
    var b := s.bets[id];
    var ok, accounts := PayOut(s, id, status, payout);
    var before := s.accounts[b.user].balance;
    var credit, _ := Settlement(b, status, payout);
    var audit := s.audit + [AuditRow(BetResolved, b.user, payout, before, before + credit, BetRef(id))];
    ghost var w := CloseWrites(s, id, status, payout);
    CloseFrame(s, id, status, payout);
    assert w.audit[0].target == b.user;
    if ok && b.amount > 0 && payout >= 0 && b.user in s.users {
      return Some(s.(accounts := accounts, bets := s.bets[id := b.(status := status, payout := payout)],
        audit := audit));
    }
    return None;
  }

  lemma CloseFrame(s: Ledger, id: int, status: BetStatus, payout: int)
    requires id in s.bets && s.bets[id].user in s.accounts
    ensures var w, w' := CloseBase(s, id, status, payout), CloseWrites(s, id, status, payout);
      w' == w.(treasury := w'.treasury)
  {
  }

  method PayFromTreasury(s: Ledger, amount: int, target: UserId) returns (r: Option<Ledger>)
    requires amount > 0 && target != TREASURY && TREASURY in s.accounts && s.accounts[TREASURY].balance >= amount
    ensures var w := TreasuryToUserWrites(s, amount, target);
      r == if Admissible(s, w) then Some(Install(s, w)) else None
  {
    var treasury := s.accounts[TREASURY].balance;
    var users := if target in s.users then s.users else s.users[target := false];
    var accounts := if target in s.accounts then s.accounts else s.accounts[target := NO_GOLD];
    var before := accounts[target].balance;
    var after := before + amount;
    var ok;
    ok, accounts := UpdateAccount(accounts, TREASURY, -amount, 0, 0, 0);
    accounts := accounts[target := accounts[target].(balance := after)];
    var audit := s.audit + [
      AuditRow(TreasuryDebited, TREASURY, amount, treasury, treasury - amount, NoRef),
      AuditRow(TreasuryCredited, target, amount, before, after, NoRef)];
    ghost var w := TreasuryToUserWrites(s, amount, target);
    assert accounts == AccountsAfter(s.accounts, w);
    assert w.audit[0].target == TREASURY && w.audit[1].target == target;
    if ok && NonNegative(accounts[target]) && TREASURY in users && target in users {
      return Some(s.(users := users, accounts := accounts, audit := audit));
    }
    return None;
  }

  method SweepGold(s: Ledger, amount: int) returns (r: Option<Ledger>)
    requires TREASURY in s.accounts
    ensures var w := SweepWrites(s, amount);
      r == if Admissible(s, w) then Some(Install(s, w)) else None
  {
    var before := s.accounts[TREASURY];
    var after := before.balance - amount;
    var accounts := s.accounts[TREASURY := before.(balance := after)];
    var audit := s.audit + [AuditRow(TreasurySwept, TREASURY, amount, before.balance, after, NoRef)];
    ghost var w := SweepWrites(s, amount);
    assert w.audit[0].target == TREASURY;
    if NonNegative(accounts[TREASURY]) && TREASURY in s.users {
      return Some(s.(accounts := accounts, audit := audit));
    }
    return None;
  }

  /** `SELECT id FROM luck.raffle_periods WHERE status = 'active' ORDER BY id DESC LIMIT 1`. */
  method NewestActive(active: seq<int>) returns (p: Option<int>)
    ensures p.None? <==> active == []
    ensures p.Some? ==> p.value in active && forall q :: q in active ==> q <= p.value
  {
    p := None;
    for i := 0 to |active|
      invariant p.None? <==> i == 0
      invariant p.Some? ==> p.value in active && forall j :: 0 <= j < i ==> active[j] <= p.value
    {
      if p.None? || p.value < active[i] {
        p := Some(active[i]);
      }
    }
  }

  lemma InvChecks(s: Ledger)
    requires Inv(s)
    ensures ChecksHold(s.accounts)
  {
  }

  lemma CallKeepsBooks(s: Ledger, step: Step, o: Outcome)
    requires Inv(s) && ValidConfig(step) && o == Plan(s, step)
    ensures Inv(Settle(s, o)) && ChecksHold(s.accounts)
  {
    StepKeepsInv(s, step);
    InvChecks(s);
  }

  /** The stored configuration is one the admin commands accept. */
  predicate ConfigOk(withdraw: Option<Limits>, games: map<string, GameConfig>, rake: int) {
    && (withdraw.Some? ==> 0 <= withdraw.value.feeBps <= 10000)
    && 0 <= rake
    && forall g :: g in games ==> 0 <= games[g].commissionBps && games[g].commissionBps + rake <= 10000
  }

  lemma BetKeepsBooks(s: Ledger, id: int, user: UserId, key: string, game: string, amount: int,
      config: Option<GameConfig>, rake: int, period: Option<int>)
    requires Inv(s) && 0 <= rake
    requires config.Some? ==> 0 <= config.value.commissionBps && config.value.commissionBps + rake <= 10000
    ensures Inv(Settle(s, BetOutcome(s, id, user, key, game, amount, config, rake, period)))
    ensures ChecksHold(s.accounts)
  {
    var banned, duplicate := IsBanned(s, user), Duplicate(s, user, key);
    CallKeepsBooks(s, Step.PlaceBet(id, user, key, game, amount, config, rake, period, banned, duplicate),
                   BetOutcome(s, id, user, key, game, amount, config, rake, period));
  }

  /** A bet placement that looks up the ban and the duplicate now. */
  function BetOutcome(s: Ledger, id: int, user: UserId, key: string, game: string, amount: int,
      config: Option<GameConfig>, rake: int, period: Option<int>): Outcome {
    PlanPlaceBet(s, id, user, key, game, amount, config, rake, period, IsBanned(s, user), Duplicate(s, user, key))
  }

  /** A deposit request that looks up the ban and the balance now. */
  function DepositOutcome(s: Ledger, serial: int, user: UserId, amount: int, limits: Option<Limits>,
      region: string, faction: string, now: Time): Outcome {
    PlanCreateDeposit(s, serial, user, amount, limits, region, faction, IsBanned(s, user), SeenIn(s, user), now)
  }

  // ----- the procedures: guards, then one transaction body -----

  predicate IsBanned(s: Ledger, u: UserId) {
    u in s.users && s.users[u]
  }

  function Duplicate(s: Ledger, u: UserId, key: string): Option<int> {
    if (u, key) in s.keys then Some(s.keys[(u, key)]) else None
  }

  /** The new version of a ticket and its audit row, which moves no gold. */
  method MoveTicket(s: Ledger, id: TicketId, t: Ticket, action: Action) returns (r: Option<Ledger>)
    ensures var seen := SeenIn(s, t.user);
      var w := NO_WRITES.(
        ticket := Some((id, t)),
        audit := [StillRow(action, t.user, t.amount, seen, id)]);
      r == if Admissible(s, w) then Some(Install(s, w)) else None
  {
    var seen := SeenIn(s, t.user);
    var row := AuditRow(action, TargetOf(t.user, seen), t.amount, SeenBalance(seen), SeenBalance(seen), TicketRef(id));
    ghost var w := NO_WRITES.(ticket := Some((id, t)), audit := [row]);
    assert w.audit[0].target == row.target;
    if t.amount > 0 && t.fee >= 0 && row.target in s.users {
      return Some(s.(tickets := s.tickets[id := t], audit := s.audit + [row]));
    }
    return None;
  }

  method RunConfirmDeposit(s: Ledger, serial: int, cashier: UserId, now: Time) returns (r: Reply, s': Ledger)
    ensures s' == Settle(s, PlanConfirmDeposit(s, serial, cashier, now))
    ensures r == ReplyOf(PlanConfirmDeposit(s, serial, cashier, now))
  {
    var id := TicketId(DepositKind, serial);
    if id !in s.tickets {
      return Raised(TicketNotFound), s;
    }
    var t := s.tickets[id];
    if t.status == Confirmed && t.claimedBy == Some(cashier) {
      return Returned(if t.user in s.accounts then Some(s.accounts[t.user].balance) else None), s;
    }
    if t.status != Claimed {
      return Raised(TicketNotClaimed), s;
    }
    if t.claimedBy.Some? && t.claimedBy.value != cashier {
      return Raised(WrongCashier), s;
    }
    var done := CreditDeposit(s, id, now);
    if done.None? {
      return Raised(ConstraintViolation), s;
    }
    return Returned(Some(done.value.accounts[t.user].balance)), done.value;
  }

  method RunCreateWithdraw(s: Ledger, serial: int, user: UserId, amount: int, limits: Option<Limits>, region: string,
      faction: string, now: Time) returns (r: Reply, s': Ledger)
    ensures s' == Settle(s, PlanCreateWithdraw(s, serial, user, amount, limits, region, faction, now))
    ensures r == ReplyOf(PlanCreateWithdraw(s, serial, user, amount, limits, region, faction, now))
  {
    var id := TicketId(WithdrawKind, serial);
    if limits.None? {
      return Raised(ConfigMissing), s;
    }
    if amount < limits.value.min || amount > limits.value.max {
      return Raised(AmountOutOfRange), s;
    }
    if region !in ["EU", "NA"] {
      return Raised(InvalidRegion), s;
    }
    if faction !in ["Alliance", "Horde"] {
      return Raised(InvalidFaction), s;
    }
    if user !in s.users {
      return Raised(UserNotRegistered), s;
    }
    if s.users[user] {
      return Raised(UserIsBanned), s;
    }
    if user !in s.accounts {
      return Raised(NotNullViolation), s;
    }
    if s.accounts[user].balance < amount {
      return Raised(InsufficientBalance), s;
    }
    if id in s.tickets {
      return Raised(UniqueViolation), s;
    }
    var done := LockGold(s, id, user, amount, limits.value, now);
    if done.None? {
      return Raised(ConstraintViolation), s;
    }
    return Returned(Some(serial)), done.value;
  }

  method RunConfirmWithdraw(s: Ledger, serial: int, cashier: UserId, now: Time) returns (r: Reply, s': Ledger)
    ensures s' == Settle(s, PlanConfirmWithdraw(s, serial, cashier, now))
    ensures r == ReplyOf(PlanConfirmWithdraw(s, serial, cashier, now))
  {
    var id := TicketId(WithdrawKind, serial);
    if id !in s.tickets {
      return Raised(TicketNotFound), s;
    }
    var t := s.tickets[id];
    if t.status == Confirmed && t.claimedBy == Some(cashier) {
      return Returned(if t.user in s.accounts then Some(s.accounts[t.user].balance) else None), s;
    }
    if t.status != Claimed {
      return Raised(TicketNotClaimed), s;
    }
    if t.claimedBy.Some? && t.claimedBy.value != cashier {
      return Raised(WrongCashier), s;
    }
    if t.user !in s.accounts || TREASURY !in s.accounts {
      return Raised(NotNullViolation), s;
    }
    if s.accounts[t.user].locked < t.amount {
      return Raised(LockedTooLow), s;
    }
    var done := DeliverGold(s, id, now);
    if done.None? {
      return Raised(ConstraintViolation), s;
    }
    return Returned(Some(s.accounts[t.user].balance)), done.value;
  }

  method RunCancelWithdraw(s: Ledger, serial: int, now: Time) returns (r: Reply, s': Ledger)
    ensures s' == Settle(s, PlanCancelWithdraw(s, serial, now))
    ensures r == ReplyOf(PlanCancelWithdraw(s, serial, now))
  {
    var id := TicketId(WithdrawKind, serial);
    if id !in s.tickets {
      return Raised(TicketNotFound), s;
    }
    var t := s.tickets[id];
    if Terminal(t.status) {
      return Raised(TicketAlreadyTerminal), s;
    }
    if t.user !in s.accounts {
      return Raised(NotNullViolation), s;
    }
    if s.accounts[t.user].locked < t.amount {
      return Raised(LockedTooLow), s;
    }
    var done := ReturnGold(s, id, now);
    if done.None? {
      return Raised(ConstraintViolation), s;
    }
    return Returned(Some(done.value.accounts[t.user].balance)), done.value;
  }

  method RunSweep(s: Ledger, amount: int) returns (r: Reply, s': Ledger)
    ensures s' == Settle(s, PlanSweep(s, amount))
    ensures r == ReplyOf(PlanSweep(s, amount))
  {
    if amount <= 0 {
      return Raised(AmountNotPositive), s;
    }
    if TREASURY !in s.accounts {
      return Raised(TreasuryRowMissing), s;
    }
    if s.accounts[TREASURY].balance < amount {
      return Raised(InsufficientTreasury), s;
    }
    var done := SweepGold(s, amount);
    if done.None? {
      return Raised(ConstraintViolation), s;
    }
    return Returned(Some(done.value.accounts[TREASURY].balance)), done.value;
  }

  method RunTreasuryToUser(s: Ledger, amount: int, target: UserId) returns (r: Reply, s': Ledger)
    ensures s' == Settle(s, PlanTreasuryToUser(s, amount, target))
    ensures r == ReplyOf(PlanTreasuryToUser(s, amount, target))
  {
    if amount <= 0 {
      return Raised(AmountNotPositive), s;
    }
    if target == TREASURY {
      return Raised(CannotPayTreasury), s;
    }
    if TREASURY !in s.accounts {
      return Raised(TreasuryRowMissing), s;
    }
    if s.accounts[TREASURY].balance < amount {
      return Raised(InsufficientTreasury), s;
    }
    var done := PayFromTreasury(s, amount, target);
    if done.None? {
      return Raised(ConstraintViolation), s;
    }
    return Returned(None), done.value;
  }

  method RunCreateDeposit(s: Ledger, serial: int, user: UserId, amount: int, limits: Option<Limits>, region: string,
      faction: string, now: Time) returns (r: Reply, s': Ledger)
    ensures s' == Settle(s, DepositOutcome(s, serial, user, amount, limits, region, faction, now))
    ensures r == ReplyOf(DepositOutcome(s, serial, user, amount, limits, region, faction, now))
  {
    var id := TicketId(DepositKind, serial);
    if user in s.users && s.users[user] {
      return Raised(UserIsBanned), s;
    }
    if limits.None? {
      return Raised(ConfigMissing), s;
    }
    if amount < limits.value.min || amount > limits.value.max {
      return Raised(AmountOutOfRange), s;
    }
    if region !in ["EU", "NA"] {
      return Raised(InvalidRegion), s;
    }
    if faction !in ["Alliance", "Horde"] {
      return Raised(InvalidFaction), s;
    }
    if id in s.tickets {
      return Raised(UniqueViolation), s;
    }
    var t := Ticket(user, amount, 0, None, Open, None, None, now, now + limits.value.ttl);
    var done := MoveTicket(s, id, t, DepositOpened);
    if done.None? {
      return Raised(ConstraintViolation), s;
    }
    return Returned(Some(serial)), done.value;
  }

  method RunClaimTicket(s: Ledger, id: TicketId, cashier: UserId, regionMatch: bool, now: Time)
    returns (r: Reply, s': Ledger)
    ensures s' == Settle(s, PlanClaim(s, id, cashier, regionMatch, SeenFor(s, id), now))
    ensures r == ReplyOf(PlanClaim(s, id, cashier, regionMatch, SeenFor(s, id), now))
  {
    if id !in s.tickets {
      return Raised(TicketNotFound), s;
    }
    var t := s.tickets[id];
    if t.status != Open {
      return Raised(AlreadyClaimed), s;
    }
    if !regionMatch {
      return Raised(RegionMismatch), s;
    }
    t := t.(status := Claimed, claimedBy := Some(cashier), claimedAt := Some(now), lastActivity := now);
    var done := MoveTicket(s, id, t, TicketClaimed);
    if done.None? {
      return Raised(ConstraintViolation), s;
    }
    return Returned(None), done.value;
  }

  method RunReleaseTicket(s: Ledger, id: TicketId, actor: UserId, now: Time) returns (r: Reply, s': Ledger)
    ensures s' == Settle(s, PlanRelease(s, id, actor, SeenFor(s, id), now))
    ensures r == ReplyOf(PlanRelease(s, id, actor, SeenFor(s, id), now))
  {
    if id !in s.tickets {
      return Raised(TicketNotFound), s;
    }
    var t := s.tickets[id];
    if t.status != Claimed {
      return Raised(TicketNotClaimed), s;
    }
    if t.claimedBy.Some? && t.claimedBy.value != actor {
      return Raised(WrongCashier), s;
    }
    t := t.(status := Open, claimedBy := None, claimedAt := None, lastActivity := now);
    var done := MoveTicket(s, id, t, TicketReleased);
    if done.None? {
      return Raised(ConstraintViolation), s;
    }
    return Returned(None), done.value;
  }

  method RunCancelDeposit(s: Ledger, serial: int, now: Time) returns (r: Reply, s': Ledger)
    ensures s' == Settle(s, PlanCancelDeposit(s, serial, SeenFor(s, TicketId(DepositKind, serial)), now))
    ensures r == ReplyOf(PlanCancelDeposit(s, serial, SeenFor(s, TicketId(DepositKind, serial)), now))
  {
    var id := TicketId(DepositKind, serial);
    if id !in s.tickets {
      return Raised(TicketNotFound), s;
    }
    var t := s.tickets[id];
    if Terminal(t.status) {
      return Raised(TicketAlreadyTerminal), s;
    }
    t := t.(status := Cancelled, lastActivity := now);
    var done := MoveTicket(s, id, t, DepositCancelled);
    if done.None? {
      return Raised(ConstraintViolation), s;
    }
    return Returned(None), done.value;
  }

  method RunPlaceBet(s: Ledger, id: int, user: UserId, key: string, game: string, amount: int,
      config: Option<GameConfig>, rake: int, newest: Option<int>) returns (r: Reply, s': Ledger)
    requires ChecksHold(s.accounts)
    ensures s' == Settle(s, BetOutcome(s, id, user, key, game, amount, config, rake, newest))
    ensures r == ReplyOf(BetOutcome(s, id, user, key, game, amount, config, rake, newest))
  {
    if (user, key) in s.keys {
      return Returned(Some(s.keys[(user, key)])), s;
    }
    if config.None? {
      return Raised(UnknownGame), s;
    }
    if !config.value.enabled {
      return Raised(GamePaused), s;
    }
    if amount < config.value.min || amount > config.value.max {
      return Raised(BetOutOfRange), s;
    }
    if user !in s.accounts {
      return Raised(UserNotRegistered), s;
    }
    if user in s.users && s.users[user] {
      return Raised(UserIsBanned), s;
    }
    if s.accounts[user].balance < amount {
      return Raised(InsufficientBalance), s;
    }
    if id in s.bets {
      return Raised(UniqueViolation), s;
    }
    if newest.Some? && newest.value !in s.pools {
      return Raised(ConstraintViolation), s;
    }
    var done := TakeStake(s, id, NewBet(user, key, game, amount, config.value.commissionBps, rake, newest));
    if done.None? {
      return Raised(ConstraintViolation), s;
    }
    return Returned(Some(id)), done.value;
  }

  method RunResolveBet(s: Ledger, id: int, status: BetStatus, payout: int) returns (r: Reply, s': Ledger)
    ensures s' == Settle(s, PlanResolveBet(s, id, status, payout))
    ensures r == ReplyOf(PlanResolveBet(s, id, status, payout))
  {
    if status !in {Win, Loss, Tie} {
      return Raised(InvalidStatus), s;
    }
    if payout < 0 {
      return Raised(InvalidPayout), s;
    }
    if id !in s.bets {
      return Raised(BetNotFound), s;
    }
    var b := s.bets[id];
    if b.status == status && b.payout == payout {
      return Returned(None), s;
    }
    if b.status != BetOpen {
      return Raised(BetAlreadyTerminal), s;
    }
    if b.user !in s.accounts {
      return Raised(NotNullViolation), s;
    }
    var done := CloseBet(s, id, status, payout);
    if done.None? {
      return Raised(ConstraintViolation), s;
    }
    return Returned(None), done.value;
  }

  /** The payout is the stake times the multiplier, rounded down. */
  method RunCashoutMines(s: Ledger, id: int, multiplier: real) returns (r: Reply, s': Ledger)
    ensures s' == Settle(s, PlanCashoutMines(s, id, multiplier))
    ensures r == ReplyOf(PlanCashoutMines(s, id, multiplier))
  {
    if multiplier <= 0.0 {
      return Raised(InvalidMultiplier), s;
    }
    if id !in s.bets {
      return Raised(BetNotFound), s;
    }
    if s.bets[id].game != "mines" {
      return Raised(NotMinesBet), s;
    }
    if s.bets[id].status != BetOpen {
      return Raised(BetAlreadyTerminal), s;
    }
    r, s' := RunResolveBet(s, id, Win, CashoutPayout(s.bets[id].stake, multiplier));
  }

  method RunRefundBet(s: Ledger, id: int) returns (r: Reply, s': Ledger)
    requires ChecksHold(s.accounts)
    ensures s' == Settle(s, PlanRefundBet(s, id))
    ensures r == ReplyOf(PlanRefundBet(s, id))
  {
    if id !in s.bets {
      return Raised(BetNotFound), s;
    }
    var b := s.bets[id];
    if b.status == Refunded {
      return Returned(None), s;
    }
    if b.status != BetOpen {
      return Raised(BetAlreadyTerminal), s;
    }
    if b.user !in s.accounts {
      return Raised(NotNullViolation), s;
    }
    var done := ReturnStake(s, id);
    if done.None? {
      return Raised(ConstraintViolation), s;
    }
    return Returned(None), done.value;
  }

  // ----- the database -----

  /** The committed rows, and what the procedures read without a lock: configuration and the active
      raffle periods. */
  class Tables {
    var rows: Ledger
    var depositLimits: Option<Limits>
    var withdrawLimits: Option<Limits>
    var games: map<string, GameConfig>
    var rakeBps: Option<int>
    var active: seq<int>

    function Rake(): int
      reads this
    {
      if rakeBps.Some? then rakeBps.value else 0
    }

    function Config(game: string): Option<GameConfig>
      reads this
    {
      if game in games then Some(games[game]) else None
    }

    /** The committed rows keep the books, and the configuration is an accepted one. */
    ghost predicate Valid()
      reads this
    {
      Inv(rows) && ConfigOk(withdrawLimits, games, Rake())
    }

    constructor ()
      ensures Valid() && rows == EMPTY
    {
      rows := EMPTY;
      depositLimits, withdrawLimits, games, rakeBps, active := None, None, map[], None, [];
      ReachableInv([]);
    }

    method ConfirmDeposit(serial: int, cashier: UserId, now: Time) returns (r: Reply)
      requires Valid()
      modifies this`rows
      ensures Valid()
      ensures var o := PlanConfirmDeposit(old(rows), serial, cashier, now);
        rows == Settle(old(rows), o) && r == ReplyOf(o)
    {
      CallKeepsBooks(rows, Step.ConfirmDeposit(serial, cashier, now), PlanConfirmDeposit(rows, serial, cashier, now));
      r, rows := RunConfirmDeposit(rows, serial, cashier, now);
    }

    method CreateWithdrawTicket(serial: int, user: UserId, amount: int, region: string, faction: string, now: Time)
      returns (r: Reply)
      requires Valid()
      modifies this`rows
      ensures Valid()
      ensures var o := PlanCreateWithdraw(old(rows), serial, user, amount, withdrawLimits, region, faction, now);
        rows == Settle(old(rows), o) && r == ReplyOf(o)
    {
      CallKeepsBooks(rows, Step.CreateWithdraw(serial, user, amount, withdrawLimits, region, faction, now),
        PlanCreateWithdraw(rows, serial, user, amount, withdrawLimits, region, faction, now));
      r, rows := RunCreateWithdraw(rows, serial, user, amount, withdrawLimits, region, faction, now);
    }

    method ConfirmWithdraw(serial: int, cashier: UserId, now: Time) returns (r: Reply)
      requires Valid()
      modifies this`rows
      ensures Valid()
      ensures var o := PlanConfirmWithdraw(old(rows), serial, cashier, now);
        rows == Settle(old(rows), o) && r == ReplyOf(o)
    {
      CallKeepsBooks(rows, Step.ConfirmWithdraw(serial, cashier, now), PlanConfirmWithdraw(rows, serial, cashier, now));
      r, rows := RunConfirmWithdraw(rows, serial, cashier, now);
    }

    method CancelWithdraw(serial: int, now: Time) returns (r: Reply)
      requires Valid()
      modifies this`rows
      ensures Valid()
      ensures var o := PlanCancelWithdraw(old(rows), serial, now);
        rows == Settle(old(rows), o) && r == ReplyOf(o)
    {
      CallKeepsBooks(rows, Step.CancelWithdraw(serial, now), PlanCancelWithdraw(rows, serial, now));
      r, rows := RunCancelWithdraw(rows, serial, now);
    }

    method TreasurySweep(amount: int) returns (r: Reply)
      requires Valid()
      modifies this`rows
      ensures Valid()
      ensures var o := PlanSweep(old(rows), amount);
        rows == Settle(old(rows), o) && r == ReplyOf(o)
    {
      CallKeepsBooks(rows, Step.Sweep(amount), PlanSweep(rows, amount));
      r, rows := RunSweep(rows, amount);
    }

    method TreasuryToUser(amount: int, target: UserId) returns (r: Reply)
      requires Valid()
      modifies this`rows
      ensures Valid()
      ensures var o := PlanTreasuryToUser(old(rows), amount, target);
        rows == Settle(old(rows), o) && r == ReplyOf(o)
    {
      CallKeepsBooks(rows, Step.TreasuryToUser(amount, target), PlanTreasuryToUser(rows, amount, target));
      r, rows := RunTreasuryToUser(rows, amount, target);
    }

    method CreateDepositTicket(serial: int, user: UserId, amount: int, region: string, faction: string, now: Time)
      returns (r: Reply)
      requires Valid()
      modifies this`rows
      ensures Valid()
      ensures var o := DepositOutcome(old(rows), serial, user, amount, depositLimits, region, faction, now);
        rows == Settle(old(rows), o) && r == ReplyOf(o)
    {
      ghost var banned, seen := IsBanned(rows, user), SeenIn(rows, user);
      CallKeepsBooks(rows, Step.CreateDeposit(serial, user, amount, depositLimits, region, faction, banned, seen, now),
                     DepositOutcome(rows, serial, user, amount, depositLimits, region, faction, now));
      r, rows := RunCreateDeposit(rows, serial, user, amount, depositLimits, region, faction, now);
    }

    method ClaimTicket(id: TicketId, cashier: UserId, regionMatch: bool, now: Time) returns (r: Reply)
      requires Valid()
      modifies this`rows
      ensures Valid()
      ensures var o := PlanClaim(old(rows), id, cashier, regionMatch, SeenFor(old(rows), id), now);
        rows == Settle(old(rows), o) && r == ReplyOf(o)
    {
      CallKeepsBooks(rows, Step.ClaimTicket(id, cashier, regionMatch, SeenFor(rows, id), now),
        PlanClaim(rows, id, cashier, regionMatch, SeenFor(rows, id), now));
      r, rows := RunClaimTicket(rows, id, cashier, regionMatch, now);
    }

    method ReleaseTicket(id: TicketId, actor: UserId, now: Time) returns (r: Reply)
      requires Valid()
      modifies this`rows
      ensures Valid()
      ensures var o := PlanRelease(old(rows), id, actor, SeenFor(old(rows), id), now);
        rows == Settle(old(rows), o) && r == ReplyOf(o)
    {
      CallKeepsBooks(rows, Step.ReleaseTicket(id, actor, SeenFor(rows, id), now),
        PlanRelease(rows, id, actor, SeenFor(rows, id), now));
      r, rows := RunReleaseTicket(rows, id, actor, now);
    }

    method CancelDeposit(serial: int, now: Time) returns (r: Reply)
      requires Valid()
      modifies this`rows
      ensures Valid()
      ensures var o := PlanCancelDeposit(old(rows), serial, SeenFor(old(rows), TicketId(DepositKind, serial)), now);
        rows == Settle(old(rows), o) && r == ReplyOf(o)
    {
      CallKeepsBooks(rows, Step.CancelDeposit(serial, SeenFor(rows, TicketId(DepositKind, serial)), now),
        PlanCancelDeposit(rows, serial, SeenFor(rows, TicketId(DepositKind, serial)), now));
      r, rows := RunCancelDeposit(rows, serial, now);
    }

    /** `id` is the number the bets sequence hands out; `period` is the newest active raffle period. */
    method ApplyBet(id: int, user: UserId, key: string, game: string, amount: int)
      returns (r: Reply, ghost period: Option<int>)
      requires Valid()
      modifies this`rows
      ensures Valid()
      ensures period.None? <==> active == []
      ensures period.Some? ==> period.value in active && forall q :: q in active ==> q <= period.value
      ensures var o := BetOutcome(old(rows), id, user, key, game, amount, Config(game), Rake(), period);
        rows == Settle(old(rows), o) && r == ReplyOf(o)
    {
      var newest := NewestActive(active);
      period := newest;
      BetKeepsBooks(rows, id, user, key, game, amount, Config(game), Rake(), newest);
      r, rows := RunPlaceBet(rows, id, user, key, game, amount, Config(game), Rake(), newest);
    }

    method ResolveBet(id: int, status: BetStatus, payout: int) returns (r: Reply)
      requires Valid()
      modifies this`rows
      ensures Valid()
      ensures var o := PlanResolveBet(old(rows), id, status, payout);
        rows == Settle(old(rows), o) && r == ReplyOf(o)
    {
      CallKeepsBooks(rows, Step.ResolveBet(id, status, payout), PlanResolveBet(rows, id, status, payout));
      r, rows := RunResolveBet(rows, id, status, payout);
    }

    method CashoutMines(id: int, multiplier: real) returns (r: Reply)
      requires Valid()
      modifies this`rows
      ensures Valid()
      ensures var o := PlanCashoutMines(old(rows), id, multiplier);
        rows == Settle(old(rows), o) && r == ReplyOf(o)
    {
      CallKeepsBooks(rows, Step.CashoutMines(id, multiplier), PlanCashoutMines(rows, id, multiplier));
      r, rows := RunCashoutMines(rows, id, multiplier);
    }

    method RefundBet(id: int) returns (r: Reply)
      requires Valid()
      modifies this`rows
      ensures Valid()
      ensures var o := PlanRefundBet(old(rows), id);
        rows == Settle(old(rows), o) && r == ReplyOf(o)
    {
      CallKeepsBooks(rows, Step.RefundBet(id), PlanRefundBet(rows, id));
      r, rows := RunRefundBet(rows, id);
    }
  }
}
