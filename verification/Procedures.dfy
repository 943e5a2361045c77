/** Every committing procedure keeps the rows well formed and produces a balanced write set. */
module Procedures {
  import opened Sums
  import opened Ledger
  import opened Books

  // ----- well-formed rows -----

  ghost predicate TicketOk(users: map<UserId, bool>, id: TicketId, t: Ticket) {
    && t.amount > 0
    && 0 <= t.fee <= t.amount
    && t.status !in {Expired, Disputed}
    && (t.status == Claimed ==> t.claimedBy.Some? && t.claimedAt.Some?)
    && (id.kind == WithdrawKind ==> t.user in users)
    && (t.delivered == if id.kind == WithdrawKind && t.status == Confirmed then Some(t.amount - t.fee) else None)
  }

  ghost predicate BetOk(users: map<UserId, bool>, pools: map<int, Pool>, keys: map<(UserId, string), int>, id: int,
      b: Bet) {
    && b.amount > 0
    && b.stake >= 0 && b.commission >= 0 && b.rake >= 0
    && b.amount == b.stake + b.commission + b.rake
    && b.user in users
    && (b.period.Some? ==> b.period.value in pools)
    && b.status != Voided
    && b.payout >= 0
    && (b.user, b.key) in keys && keys[(b.user, b.key)] == id
  }

  /** Among others: every `core.users` row has a `core.balances` row, so no locked read is NULL. */
  ghost predicate RowsOk(s: Ledger) {
    && TREASURY in s.users
    && s.users.Keys == s.accounts.Keys
    && (forall u :: u in s.accounts ==> NonNegative(s.accounts[u]))
    && (forall i :: i in s.tickets ==> TicketOk(s.users, i, s.tickets[i]))
    && (forall b :: b in s.bets ==> BetOk(s.users, s.pools, s.keys, b, s.bets[b]))
    && (forall k :: k in s.keys ==> s.keys[k] in s.bets && (s.bets[s.keys[k]].user, s.bets[s.keys[k]].key) == k)
    && (forall p :: p in s.pools ==> s.pools[p].opening >= 0)
    && (forall d :: d in s.disputes ==> d in s.tickets)
    && (forall r :: r in s.audit ==> r.target in s.users)
  }

  // ----- arithmetic of basis points -----

  /** A cut of at most 100% is between nothing and the whole, and two cuts of together at most
      100% leave a stake that is not negative. */
  lemma CutsFit(amount: int, first: int, second: int)
    requires amount > 0 && 0 <= first && 0 <= second && first + second <= 10000
    ensures 0 <= Fee(amount, first) && 0 <= Fee(amount, second)
    ensures Fee(amount, first) + Fee(amount, second) <= amount
  {
    var x := amount * first;
    var y := amount * second;
    assert x + y == amount * (first + second) <= amount * 10000;
    assert x >= 0 && y >= 0;
  }

  // ----- audit sums of short lists -----

  lemma OneRow(r: AuditRow)
    ensures forall u: UserId :: AuditNet([r], u) == NetOf(r, u)
    ensures SweptGold([r]) == if r.action == TreasurySwept then r.amount else 0
  {
    assert [r][..0] == [];
  }

  lemma AddRow(rows: seq<AuditRow>, r: AuditRow)
    ensures forall u: UserId :: AuditNet(rows + [r], u) == AuditNet(rows, u) + NetOf(r, u)
    ensures SweptGold(rows + [r]) == SweptGold(rows) + if r.action == TreasurySwept then r.amount else 0
  {
    assert (rows + [r])[..|rows|] == rows;
  }

  lemma TwoRows(a: AuditRow, b: AuditRow)
    ensures forall u: UserId :: AuditNet([a, b], u) == NetOf(a, u) + NetOf(b, u)
    ensures b.action != TreasurySwept && a.action != TreasurySwept ==> SweptGold([a, b]) == 0
  {
    OneRow(a);
    AddRow([a], b);
    assert [a] + [b] == [a, b];
  }

  // ----- one lemma per procedure -----

  lemma NothingBalanced(s: Ledger)
    ensures Balanced(s, NO_WRITES)
  {
  }

  /** Only a deposit's ticket row and an audit row that moves nothing. */
  lemma TicketOnlyBalanced(s: Ledger, id: TicketId, t: Ticket, r: AuditRow)
    requires r.before == r.after && r.action != TreasurySwept
    requires id.kind == DepositKind ==> t.status != Confirmed && (id in s.tickets ==> s.tickets[id].status != Confirmed)
    requires id.kind == WithdrawKind ==>
      id in s.tickets && !Terminal(t.status) && !Terminal(s.tickets[id].status) && t.user == s.tickets[id].user
      && t.amount == s.tickets[id].amount
    ensures Balanced(s, NO_WRITES.(ticket := Some((id, t)), audit := [r]))
  {
    OneRow(r);
  }

  lemma ConfirmDepositBalanced(s: Ledger, serial: int, cashier: UserId, now: Time)
    requires PlanConfirmDeposit(s, serial, cashier, now).Commit?
    ensures Balanced(s, PlanConfirmDeposit(s, serial, cashier, now).writes)
  {
    var w := PlanConfirmDeposit(s, serial, cashier, now).writes;
    if w.audit != [] {
      OneRow(w.audit[0]);
    }
  }

  lemma CreateWithdrawBalanced(s: Ledger, serial: int, user: UserId, amount: int, limits: Option<Limits>,
      region: string, faction: string, now: Time)
    requires PlanCreateWithdraw(s, serial, user, amount, limits, region, faction, now).Commit?
    ensures Balanced(s, PlanCreateWithdraw(s, serial, user, amount, limits, region, faction, now).writes)
  {
    OneRow(PlanCreateWithdraw(s, serial, user, amount, limits, region, faction, now).writes.audit[0]);
  }

  lemma CancelWithdrawBalanced(s: Ledger, serial: int, now: Time)
    requires PlanCancelWithdraw(s, serial, now).Commit?
    ensures Balanced(s, PlanCancelWithdraw(s, serial, now).writes)
  {
    OneRow(PlanCancelWithdraw(s, serial, now).writes.audit[0]);
  }

  lemma DeliveryBalanced(s: Ledger, id: TicketId, now: Time)
    requires id in s.tickets && id.kind == WithdrawKind && s.tickets[id].status == Claimed
    requires s.tickets[id].user in s.accounts && TREASURY in s.accounts
    ensures Balanced(s, AddTreasury(s, ConfirmWithdrawBase(s, id, now), s.tickets[id].fee))
  {
    var t, w := s.tickets[id], ConfirmWithdrawBase(s, id, now);
    var a' := w.account.value.1;
    AccountMoves(s, w, t.user, a');
    TreasuryMoves(s, w, t.user, a', 0, t.fee);
    TwoRows(w.audit[0], w.audit[1]);
  }

  lemma ConfirmWithdrawBalanced(s: Ledger, serial: int, cashier: UserId, now: Time)
    requires PlanConfirmWithdraw(s, serial, cashier, now).Commit?
    ensures Balanced(s, PlanConfirmWithdraw(s, serial, cashier, now).writes)
  {
    var id := TicketId(WithdrawKind, serial);
    if s.tickets[id].status == Claimed {
      DeliveryBalanced(s, id, now);
    } else {
      NothingBalanced(s);
    }
  }

  lemma SweepBalanced(s: Ledger, amount: int)
    requires PlanSweep(s, amount).Commit?
    ensures Balanced(s, PlanSweep(s, amount).writes)
  {
    OneRow(PlanSweep(s, amount).writes.audit[0]);
  }

  lemma TreasuryToUserBalanced(s: Ledger, amount: int, target: UserId)
    requires PlanTreasuryToUser(s, amount, target).Commit?
    ensures Balanced(s, PlanTreasuryToUser(s, amount, target).writes)
  {
    var w := PlanTreasuryToUser(s, amount, target).writes;
    TwoRows(w.audit[0], w.audit[1]);
  }

  /** An audit row that moves nothing and a dispute row keep a balanced write set balanced. */
  lemma WithDisputeBalanced(s: Ledger, w: WriteSet, id: TicketId, status: DisputeStatus, r: AuditRow)
    requires Balanced(s, w) && r.before == r.after && r.action != TreasurySwept
    ensures Balanced(s, WithDispute(w, id, status, r))
  {
    AddRow(w.audit, r);
    SameGoldBalanced(s, w, WithDispute(w, id, status, r));
  }

  lemma SameGoldBalanced(s: Ledger, w: WriteSet, w': WriteSet)
    requires Balanced(s, w)
    requires (w.account, w.treasury, w.ticket, w.bet, w.pool) == (w'.account, w'.treasury, w'.ticket, w'.bet, w'.pool)
    requires SweptGold(w'.audit) == SweptGold(w.audit)
    requires forall u: UserId :: AuditNet(w'.audit, u) == AuditNet(w.audit, u)
    ensures Balanced(s, w')
  {
    SameDeltas(s, w, w');
    assert AuditBalanced(s, w');
  }

  /** Write sets that differ only in the user, key, dispute and audit parts move the same gold. */
  lemma SameDeltas(s: Ledger, w: WriteSet, w': WriteSet)
    requires (w.account, w.treasury, w.ticket, w.bet, w.pool) == (w'.account, w'.treasury, w'.ticket, w'.bet, w'.pool)
    ensures forall m :: TicketDelta(m, s, w') == TicketDelta(m, s, w)
    ensures forall m :: BetDelta(m, s, w') == BetDelta(m, s, w)
    ensures PooledDelta(s, w') == PooledDelta(s, w) && OpenedDelta(s, w') == OpenedDelta(s, w)
    ensures AccountsAfter(s.accounts, w') == AccountsAfter(s.accounts, w) && HoldingsDelta(s, w') == HoldingsDelta(s, w)
  {
  }

  lemma DisputeBalanced(s: Ledger, id: TicketId, action: Resolution, amount: int)
    requires PlanResolveDispute(s, id, action, amount).Commit?
    ensures Balanced(s, PlanResolveDispute(s, id, action, amount).writes)
  {
    var t := s.tickets[id];
    var row := AuditRow(DisputeChanged, t.user, amount, 0, 0, NoRef);
    var pay := Payout(action, amount, t);
    var w := if pay.Some? then PlanTreasuryToUser(s, pay.value, t.user).writes else NO_WRITES;
    assert Balanced(s, w) by {
      if pay.Some? {
        TreasuryToUserBalanced(s, pay.value, t.user);
      } else {
        NothingBalanced(s);
      }
    }
    WithDisputeBalanced(s, w, id, DisputeResolved, row);
  }

  lemma UserRowBalanced(s: Ledger, w: WriteSet)
    requires w.account.Some? ==> w.account.value.0 !in s.accounts && w.account.value.1 == NO_GOLD
    requires w == NO_WRITES.(user := w.user, account := w.account, dispute := w.dispute, audit := w.audit)
    requires |w.audit| == 1 && w.audit[0].before == w.audit[0].after && w.audit[0].action != TreasurySwept
    ensures Balanced(s, w)
  {
    OneRow(w.audit[0]);
    assert w.audit == [w.audit[0]];
  }

  lemma OpenPeriodBalanced(s: Ledger, id: int, opening: int)
    requires PlanOpenPeriod(s, id, opening).Commit?
    ensures Balanced(s, PlanOpenPeriod(s, id, opening).writes)
  {
  }

  // ----- bets -----

  /** What a bet procedure does to the accounts: `user` becomes `user'`, then the treasury gains `gain`. */
  ghost predicate Moves(s: Ledger, w: WriteSet, user: UserId, user': Account, gain: int) {
    && HoldingsDelta(s, w) == Worth(user') - Gold(s.accounts, user) + gain
    && AccountsMove(s.accounts, AccountsAfter(s.accounts, w), user, user', gain)
  }

  ghost predicate AccountsMove(before: map<UserId, Account>, after: map<UserId, Account>, user: UserId,
      user': Account, gain: int) {
    && TREASURY in after
    && (forall x: UserId :: BalanceIn(after, x)
          == (if x == user then user'.balance else BalanceIn(before, x)) + if x == TREASURY then gain else 0)
    && (forall x: UserId :: LockedIn(after, x) == if x == user then user'.locked else LockedIn(before, x))
    && (forall x: UserId :: WageredIn(after, x) == if x == user then user'.wagered else WageredIn(before, x))
  }

  lemma AccountMoves(s: Ledger, w: WriteSet, user: UserId, user': Account)
    requires TREASURY in s.accounts && user in s.accounts && w.account == Some((user, user')) && w.treasury.None?
    ensures Moves(s, w, user, user', 0)
  {
  }

  lemma PutReads(m: map<UserId, Account>, k: UserId, a: Account, x: UserId)
    ensures BalanceIn(m[k := a], x) == if x == k then a.balance else BalanceIn(m, x)
    ensures LockedIn(m[k := a], x) == if x == k then a.locked else LockedIn(m, x)
    ensures WageredIn(m[k := a], x) == if x == k then a.wagered else WageredIn(m, x)
  {
  }

  lemma TreasuryMoves(s: Ledger, w: WriteSet, user: UserId, user': Account, gain: int, d: int)
    requires Moves(s, w, user, user', gain)
    ensures Moves(s, AddTreasury(s, w, d), user, user', gain + d)
  {
    var m := AccountsAfter(s.accounts, w);
    var t := m[TREASURY];
    assert (BalanceIn(m, TREASURY), LockedIn(m, TREASURY), WageredIn(m, TREASURY)) == (t.balance, t.locked, t.wagered);
    var m' := AccountsAfter(s.accounts, AddTreasury(s, w, d));
    assert m' == m[TREASURY := Gain(t, d)];
    forall x: UserId
      ensures BalanceIn(m', x) == BalanceIn(m, x) + if x == TREASURY then d else 0
      ensures LockedIn(m', x) == LockedIn(m, x)
      ensures WageredIn(m', x) == WageredIn(m, x)
    {
      PutReads(m, TREASURY, Gain(t, d), x);
    }
  }

  /** The pool part of a bet procedure: period `p`, if any, changes by `d`. */
  ghost predicate PoolStep(s: Ledger, w: WriteSet, p: Option<int>, d: int) {
    if w.pool.None? then d == 0 || p.None?
    else
      && p.Some? && p.value in s.pools
      && w.pool.value == (p.value, Pool(s.pools[p.value].opening, s.pools[p.value].amount + d))
  }

  lemma BetLocksBalanced(s: Ledger, w: WriteSet, b: Bet, user': Account, gain: int)
    requires w.ticket.None? && w.bet.Some? && w.bet.value.1 == b
    requires w.bet.value.0 in s.bets ==> s.bets[w.bet.value.0].user == b.user
    requires Moves(s, w, b.user, user', gain)
    requires user'.locked - LockedIn(s.accounts, b.user) == BetDelta(StakedBy(b.user), s, w)
    requires user'.wagered - WageredIn(s.accounts, b.user) == BetDelta(WageredBy(b.user), s, w)
    ensures LocksBalanced(s, w) && WagersBalanced(s, w)
  {
    assert forall u: UserId :: u != b.user ==> BetDelta(StakedBy(u), s, w) == 0;
    assert forall u: UserId :: u != b.user ==> BetDelta(WageredBy(u), s, w) == 0;
  }

  lemma BetPoolsBalanced(s: Ledger, w: WriteSet, b: Bet, raked: int)
    requires w.bet.Some? && w.bet.value.1 == b
    requires w.bet.value.0 in s.bets ==> s.bets[w.bet.value.0].period == b.period
    requires PoolStep(s, w, b.period, raked)
    requires b.period.Some? ==> raked == BetDelta(RakedTo(b.period.value), s, w)
    ensures PoolsBalanced(s, w)
    ensures OpenedDelta(s, w) == 0 && PooledDelta(s, w) == if b.period.Some? then raked else 0
  {
    assert forall p: int :: b.period != Some(p) ==> BetDelta(RakedTo(p), s, w) == 0;
  }

  lemma BetAuditBalanced(s: Ledger, w: WriteSet, user: UserId, user': Account, gain: int, r: AuditRow)
    requires w.audit == [r] && r.target == user && r.action != TreasurySwept
    requires r.after - r.before == user'.balance - BalanceIn(s.accounts, user)
    requires Moves(s, w, user, user', gain)
    requires gain == BetDelta(TreasuryShare, s, w)
    ensures AuditBalanced(s, w) && SweptGold(w.audit) == 0
  {
    OneRow(r);
  }

  /** A bet procedure is balanced when the user's and treasury's changes match the bet row's. */
  lemma BetWritesBalanced(s: Ledger, w: WriteSet, b: Bet, user': Account, gain: int, raked: int, r: AuditRow)
    requires w.ticket.None? && w.bet.Some? && w.bet.value.1 == b && w.audit == [r]
    requires w.bet.value.0 in s.bets ==>
      s.bets[w.bet.value.0].user == b.user && s.bets[w.bet.value.0].period == b.period
    requires Moves(s, w, b.user, user', gain)
    requires PoolStep(s, w, b.period, raked)
    requires r.target == b.user && r.action != TreasurySwept
    requires r.after - r.before == user'.balance - BalanceIn(s.accounts, b.user)
    requires Worth(user') - Gold(s.accounts, b.user) + gain + (if b.period.Some? then raked else 0) == 0
    requires user'.locked - LockedIn(s.accounts, b.user) == BetDelta(StakedBy(b.user), s, w)
    requires user'.wagered - WageredIn(s.accounts, b.user) == BetDelta(WageredBy(b.user), s, w)
    requires gain == BetDelta(TreasuryShare, s, w)
    requires b.period.Some? ==> raked == BetDelta(RakedTo(b.period.value), s, w)
    ensures Balanced(s, w)
  {
    BetLocksBalanced(s, w, b, user', gain);
    BetPoolsBalanced(s, w, b, raked);
    BetAuditBalanced(s, w, b.user, user', gain, r);
  }

  lemma CutsMove(s: Ledger, w: WriteSet, b: Bet, user': Account, back: bool)
    requires w.pool.None? && b.commission >= 0 && b.rake >= 0
    requires b.period.Some? ==> b.period.value in s.pools
    requires Moves(s, w, b.user, user', 0)
    ensures Moves(s, MoveCuts(s, w, b, back), b.user, user',
                  Signed(back, b.commission + FallbackRake(b)))
    ensures PoolStep(s, MoveCuts(s, w, b, back), b.period, Signed(back, b.rake))
  {
    var c := Signed(back, b.commission);
    TreasuryMoves(s, w, b.user, user', 0, c);
    var w1 := if b.commission > 0 then AddTreasury(s, w, c) else w;
    assert Moves(s, w1, b.user, user', c);
    if b.rake > 0 && b.period.None? {
      TreasuryMoves(s, w1, b.user, user', c, Signed(back, b.rake));
    } else {
      assert AccountsAfter(s.accounts, MoveCuts(s, w, b, back)) == AccountsAfter(s.accounts, w1);
    }
  }

  lemma CutsFrame(s: Ledger, w: WriteSet, b: Bet, back: bool)
    ensures var w' := MoveCuts(s, w, b, back);
      w' == w.(treasury := w'.treasury, pool := w'.pool)
    ensures forall m :: BetDelta(m, s, MoveCuts(s, w, b, back)) == BetDelta(m, s, w)
  {
  }

  lemma PlaceBalanced(s: Ledger, id: int, b: Bet)
    requires TREASURY in s.accounts && b.user in s.accounts && (b.period.Some? ==> b.period.value in s.pools)
    requires id !in s.bets && b.status == BetOpen && b.commission >= 0 && b.rake >= 0
    requires b.amount == b.stake + b.commission + b.rake
    ensures Balanced(s, MoveCuts(s, PlaceBase(s, id, b), b, false))
  {
    var w := PlaceBase(s, id, b);
    var a' := w.account.value.1;
    AccountMoves(s, w, b.user, a');
    CutsMove(s, w, b, a', false);
    CutsFrame(s, w, b, false);
    BetWritesBalanced(s, MoveCuts(s, w, b, false), b, a', b.commission + FallbackRake(b), b.rake, w.audit[0]);
  }

  lemma CloseBalanced(s: Ledger, id: int, status: BetStatus, payout: int)
    requires TREASURY in s.accounts && id in s.bets && s.bets[id].user in s.accounts
    requires s.bets[id].status == BetOpen && status in {Win, Loss, Tie}
    ensures Balanced(s, CloseWrites(s, id, status, payout))
  {
    var b := s.bets[id];
    var w := CloseBase(s, id, status, payout);
    var a' := w.account.value.1;
    var gain := TreasuryGain(b, status, payout);
    AccountMoves(s, w, b.user, a');
    TreasuryMoves(s, w, b.user, a', 0, gain);
    BetWritesBalanced(s, CloseWrites(s, id, status, payout), b.(status := status, payout := payout), a', gain, 0,
      w.audit[0]);
  }

  lemma RefundDeltas(s: Ledger, id: int)
    requires id in s.bets && s.bets[id].user in s.accounts && s.bets[id].status == BetOpen
    ensures var b, w := s.bets[id], RefundBase(s, id);
      && BetDelta(StakedBy(b.user), s, w) == -b.stake
      && BetDelta(WageredBy(b.user), s, w) == -b.amount
      && BetDelta(TreasuryShare, s, w) == -b.commission - FallbackRake(b)
      && (b.period.Some? ==> BetDelta(RakedTo(b.period.value), s, w) == -b.rake)
  {
  }

  lemma RefundMovesGold(s: Ledger, id: int)
    requires TREASURY in s.accounts && id in s.bets && s.bets[id].user in s.accounts
    requires BetOk(s.users, s.pools, s.keys, id, s.bets[id])
    ensures var b, w := s.bets[id], RefundBase(s, id);
      && Moves(s, MoveCuts(s, w, b, true), b.user, w.account.value.1, -b.commission - FallbackRake(b))
      && PoolStep(s, MoveCuts(s, w, b, true), b.period, -b.rake)
  {
    var b := s.bets[id];
    var w := RefundBase(s, id);
    AccountMoves(s, w, b.user, w.account.value.1);
    CutsMove(s, w, b, w.account.value.1, true);
  }

  lemma RefundBalanced(s: Ledger, id: int)
    requires TREASURY in s.accounts && id in s.bets && s.bets[id].user in s.accounts
    requires s.bets[id].status == BetOpen && BetOk(s.users, s.pools, s.keys, id, s.bets[id])
    ensures Balanced(s, MoveCuts(s, RefundBase(s, id), s.bets[id], true))
  {
    var b := s.bets[id];
    var w := RefundBase(s, id);
    RefundDeltas(s, id);
    RefundMovesGold(s, id);
    CutsFrame(s, w, b, true);
    BetWritesBalanced(s, MoveCuts(s, w, b, true), w.bet.value.1, w.account.value.1,
                      -b.commission - FallbackRake(b), -b.rake, w.audit[0]);
  }

  // ----- every procedure -----

  lemma TicketPlansBalanced(s: Ledger, step: Step)
    requires RowsOk(s) && Plan(s, step).Commit?
    requires step.CreateDeposit? || step.CancelDeposit? || step.ClaimTicket? || step.ReleaseTicket?
    ensures Balanced(s, Plan(s, step).writes)
  {
    var w := Plan(s, step).writes;
    var (id, t) := w.ticket.value;
    TicketOnlyBalanced(s, id, t, w.audit[0]);
    assert w == NO_WRITES.(ticket := Some((id, t)), audit := [w.audit[0]]);
  }

  lemma UserPlansBalanced(s: Ledger, step: Step)
    requires Plan(s, step).Commit?
    requires step.OpenDispute? || step.RejectDispute? || step.Ban? || step.Unban?
    ensures Balanced(s, Plan(s, step).writes)
  {
    UserRowBalanced(s, Plan(s, step).writes);
  }

  lemma BetPlansBalanced(s: Ledger, step: Step)
    requires RowsOk(s) && ValidConfig(step) && Plan(s, step).Commit?
    requires step.PlaceBet? || step.ResolveBet? || step.RefundBet?
    ensures Balanced(s, Plan(s, step).writes)
  {
    NothingBalanced(s);
    match step
    case PlaceBet(id, user, key, game, amount, config, rakeBps, period, _, duplicate) =>
      if duplicate.None? {
        var b := NewBet(user, key, game, amount, config.value.commissionBps, rakeBps, period);
        CutsFrame(s, PlaceBase(s, id, b), b, false);
        CutsFit(amount, config.value.commissionBps, rakeBps);
        PlaceBalanced(s, id, b);
      }
    case ResolveBet(id, status, payout) =>
      if s.bets[id].status == BetOpen {
        CloseBalanced(s, id, status, payout);
      }
    case RefundBet(id) =>
      if s.bets[id].status == BetOpen {
        RefundBalanced(s, id);
      }
  }

  lemma WithdrawPlansBalanced(s: Ledger, step: Step)
    requires Plan(s, step).Commit?
    requires step.CreateWithdraw? || step.ConfirmWithdraw? || step.CancelWithdraw?
    ensures Balanced(s, Plan(s, step).writes)
  {
    match step
    case CreateWithdraw(n, u, a, l, r, f, now) => CreateWithdrawBalanced(s, n, u, a, l, r, f, now);
    case ConfirmWithdraw(n, c, now) => ConfirmWithdrawBalanced(s, n, c, now);
    case CancelWithdraw(n, now) => CancelWithdrawBalanced(s, n, now);
  }

  lemma TreasuryPlansBalanced(s: Ledger, step: Step)
    requires Plan(s, step).Commit?
    requires step.Sweep? || step.TreasuryToUser? || step.ResolveDispute? || step.OpenPeriod?
    ensures Balanced(s, Plan(s, step).writes)
  {
    match step
    case Sweep(a) => SweepBalanced(s, a);
    case TreasuryToUser(a, u) => TreasuryToUserBalanced(s, a, u);
    case ResolveDispute(id, act, a) => DisputeBalanced(s, id, act, a);
    case OpenPeriod(id, a) => OpenPeriodBalanced(s, id, a);
  }

  /** A mines cash-out is a win with the floored payout. */
  function Uncashed(s: Ledger, step: Step): Step {
    if step.CashoutMines? && step.bet in s.bets then
      ResolveBet(step.bet, Win, CashoutPayout(s.bets[step.bet].stake, step.multiplier))
    else step
  }

  lemma PlanBalanced(s: Ledger, step: Step)
    requires RowsOk(s) && ValidConfig(step) && Plan(s, step).Commit?
    ensures Balanced(s, Plan(s, step).writes)
  {
    if step.CreateWithdraw? || step.ConfirmWithdraw? || step.CancelWithdraw? {
      WithdrawPlansBalanced(s, step);
    } else if step.Sweep? || step.TreasuryToUser? || step.ResolveDispute? || step.OpenPeriod? {
      TreasuryPlansBalanced(s, step);
    } else if step.OpenDispute? || step.RejectDispute? || step.Ban? || step.Unban? {
      UserPlansBalanced(s, step);
    } else if step.ConfirmDeposit? {
      ConfirmDepositBalanced(s, step.serial, step.cashier, step.now);
    } else if step.CreateDeposit? || step.CancelDeposit? || step.ClaimTicket? || step.ReleaseTicket? {
      TicketPlansBalanced(s, step);
    } else {
      BetPlansBalanced(s, Uncashed(s, step));
    }
  }

  // ----- rows stay well formed -----

  /** What was fixed when the ticket was opened. */
  predicate SameRequest(t: Ticket, t': Ticket) {
    t'.user == t.user && t'.amount == t.amount && t'.fee == t.fee && t'.expires == t.expires
  }

  /** What was fixed when the bet was placed. */
  predicate SameTerms(b: Bet, b': Bet) {
    b' == b.(status := b'.status, payout := b'.payout)
  }

  ghost predicate WritesOk(s: Ledger, w: WriteSet) {
    var users := Put(s.users, w.user);
    && (w.account.Some? ==> NonNegative(w.account.value.1) && w.account.value.0 in users)
    && (w.treasury.Some? ==> NonNegative(w.treasury.value))
    && (w.user.Some? && w.user.value.0 !in s.users ==> w.account.Some? && w.account.value.0 == w.user.value.0)
    && (w.ticket.Some? ==> TicketOk(users, w.ticket.value.0, w.ticket.value.1))
    && (w.ticket.Some? && w.ticket.value.0 in s.tickets ==>
          SameRequest(s.tickets[w.ticket.value.0], w.ticket.value.1) && !Terminal(s.tickets[w.ticket.value.0].status))
    && (w.pool.Some? ==> w.pool.value.1.opening >= 0)
    && (w.dispute.Some? ==> w.dispute.value.0 in s.tickets)
    && (forall r :: r in w.audit ==> r.target in users)
    && BetWriteOk(s, w)
  }

  /** An open bet becomes one with the same terms that is not open. */
  predicate Closing(b: Bet, b': Bet) {
    SameTerms(b, b') && b.status == BetOpen && b'.status != BetOpen
  }

  ghost predicate BetWriteOk(s: Ledger, w: WriteSet) {
    if w.bet.None? then w.key.None?
    else
      var (id, b) := w.bet.value;
      && BetOk(s.users, s.pools, Put(s.keys, w.key), id, b)
      && (id in s.bets ==> Closing(s.bets[id], b) && w.key.None?)
      && (id !in s.bets ==> w.key == Some(((b.user, b.key), id)) && (b.user, b.key) !in s.keys)
  }

  lemma WritesKeepRows(s: Ledger, w: WriteSet)
    requires RowsOk(s) && WritesOk(s, w)
    ensures RowsOk(Install(s, w))
  {
    var s' := Install(s, w);
    forall i | i in s'.tickets
      ensures TicketOk(s'.users, i, s'.tickets[i])
    {
      assert i in s.tickets ==> TicketOk(s.users, i, s.tickets[i]);
    }
    BetsKeepRows(s, w);
  }

  lemma BetsKeepRows(s: Ledger, w: WriteSet)
    requires RowsOk(s) && BetWriteOk(s, w)
    ensures var s' := Install(s, w);
      && (forall b :: b in s'.bets ==> BetOk(s'.users, s'.pools, s'.keys, b, s'.bets[b]))
      && (forall k :: k in s'.keys ==>
        s'.keys[k] in s'.bets && (s'.bets[s'.keys[k]].user, s'.bets[s'.keys[k]].key) == k)
  {
    var s' := Install(s, w);
    forall b | b in s'.bets
      ensures BetOk(s'.users, s'.pools, s'.keys, b, s'.bets[b])
    {
      assert b in s.bets ==> BetOk(s.users, s.pools, s.keys, b, s.bets[b]);
    }
  }

  lemma DepositWritesOk(s: Ledger, step: Step)
    requires RowsOk(s) && Plan(s, step).Commit?
    requires step.CreateDeposit? || step.ConfirmDeposit? || step.CancelDeposit?
    ensures WritesOk(s, Plan(s, step).writes)
  {
    if !step.CreateDeposit? {
      var id := TicketId(DepositKind, step.serial);
      assert TicketOk(s.users, id, s.tickets[id]);
    }
  }

  lemma ClaimWritesOk(s: Ledger, step: Step)
    requires RowsOk(s) && Plan(s, step).Commit?
    requires step.ClaimTicket? || step.ReleaseTicket?
    ensures WritesOk(s, Plan(s, step).writes)
  {
    assert TicketOk(s.users, step.id, s.tickets[step.id]);
  }

  lemma CreateWithdrawWritesOk(s: Ledger, step: Step)
    requires RowsOk(s) && ValidConfig(step) && step.CreateWithdraw? && Plan(s, step).Commit?
    ensures WritesOk(s, Plan(s, step).writes)
  {
    CutsFit(step.amount, step.limits.value.feeBps, 0);
  }

  lemma ConfirmWithdrawWritesOk(s: Ledger, n: int, cashier: UserId, now: Time)
    requires RowsOk(s) && PlanConfirmWithdraw(s, n, cashier, now).Commit?
    ensures WritesOk(s, PlanConfirmWithdraw(s, n, cashier, now).writes)
  {
    var id := TicketId(WithdrawKind, n);
    assert TicketOk(s.users, id, s.tickets[id]);
  }

  lemma CancelWithdrawWritesOk(s: Ledger, n: int, now: Time)
    requires RowsOk(s) && PlanCancelWithdraw(s, n, now).Commit?
    ensures WritesOk(s, PlanCancelWithdraw(s, n, now).writes)
  {
    var id := TicketId(WithdrawKind, n);
    assert TicketOk(s.users, id, s.tickets[id]);
  }

  lemma WithdrawWritesOk(s: Ledger, step: Step)
    requires RowsOk(s) && ValidConfig(step) && Plan(s, step).Commit?
    requires step.CreateWithdraw? || step.ConfirmWithdraw? || step.CancelWithdraw?
    ensures WritesOk(s, Plan(s, step).writes)
  {
    match step
    case CreateWithdraw(_, _, _, _, _, _, _) => CreateWithdrawWritesOk(s, step);
    case ConfirmWithdraw(n, c, now) => ConfirmWithdrawWritesOk(s, n, c, now);
    case CancelWithdraw(n, now) => CancelWithdrawWritesOk(s, n, now);
  }

  lemma TreasuryWritesOk(s: Ledger, step: Step)
    requires RowsOk(s) && Plan(s, step).Commit?
    requires step.Sweep? || step.TreasuryToUser? || step.OpenPeriod?
    ensures WritesOk(s, Plan(s, step).writes)
  {
  }

  lemma DisputeWritesOk(s: Ledger, id: TicketId, action: Resolution, amount: int)
    requires RowsOk(s) && PlanResolveDispute(s, id, action, amount).Commit?
    ensures WritesOk(s, PlanResolveDispute(s, id, action, amount).writes)
  {
    var pay := Payout(action, amount, s.tickets[id]);
    if pay.Some? {
      TreasuryWritesOk(s, TreasuryToUser(pay.value, s.tickets[id].user));
    }
  }

  lemma UserWritesOk(s: Ledger, step: Step)
    requires RowsOk(s) && Plan(s, step).Commit?
    requires step.OpenDispute? || step.RejectDispute? || step.Ban? || step.Unban?
    ensures WritesOk(s, Plan(s, step).writes)
  {
  }

  /** The row parts of a bet procedure, which moving the cuts leaves alone. */
  lemma BaseWritesOk(s: Ledger, w: WriteSet, b: Bet, back: bool)
    requires RowsOk(s) && Admissible(s, MoveCuts(s, w, b, back))
    requires w.user.None? && w.ticket.None? && w.dispute.None? && w.pool.None?
    requires w.account.Some? && w.account.value.0 in s.users
    requires BetWriteOk(s, w)
    ensures WritesOk(s, MoveCuts(s, w, b, back))
  {
    if b.period.Some? {
      var p: int := b.period.value;
      assert p in s.pools ==> s.pools[p].opening >= 0;
    }
    CutsFrame(s, w, b, back);
  }

  lemma BetWritesOk(s: Ledger, step: Step)
    requires RowsOk(s) && ValidConfig(step) && Plan(s, step).Commit?
    requires step.PlaceBet? || step.RefundBet?
    ensures WritesOk(s, Plan(s, step).writes)
  {
    match step
    case PlaceBet(id, user, key, game, amount, config, rakeBps, period, _, duplicate) =>
      if duplicate.None? {
        var b := NewBet(user, key, game, amount, config.value.commissionBps, rakeBps, period);
        CutsFrame(s, PlaceBase(s, id, b), b, false);
        CutsFit(amount, config.value.commissionBps, rakeBps);
        BaseWritesOk(s, PlaceBase(s, id, b), b, false);
      }
    case RefundBet(id) =>
      assert BetOk(s.users, s.pools, s.keys, id, s.bets[id]);
      if s.bets[id].status == BetOpen {
        BaseWritesOk(s, RefundBase(s, id), s.bets[id], true);
      }
  }

  lemma CloseWritesOk(s: Ledger, id: int, status: BetStatus, payout: int)
    requires RowsOk(s) && PlanResolveBet(s, id, status, payout).Commit?
    ensures WritesOk(s, PlanResolveBet(s, id, status, payout).writes)
  {
    var b := s.bets[id];
    assert BetOk(s.users, s.pools, s.keys, id, b);
    if b.status == BetOpen {
      var w := CloseWrites(s, id, status, payout);
      assert w == CloseBase(s, id, status, payout).(treasury := w.treasury);
      assert BetWriteOk(s, w);
    }
  }

  lemma PlanWritesOk(s: Ledger, step: Step)
    requires RowsOk(s) && ValidConfig(step) && Plan(s, step).Commit?
    ensures WritesOk(s, Plan(s, step).writes)
  {
    if step.CreateWithdraw? || step.ConfirmWithdraw? || step.CancelWithdraw? {
      WithdrawWritesOk(s, step);
    } else if step.Sweep? || step.TreasuryToUser? || step.OpenPeriod? {
      TreasuryWritesOk(s, step);
    } else if step.ResolveDispute? {
      DisputeWritesOk(s, step.id, step.action, step.amount);
    } else if step.OpenDispute? || step.RejectDispute? || step.Ban? || step.Unban? {
      UserWritesOk(s, step);
    } else if step.CreateDeposit? || step.CancelDeposit? || step.ConfirmDeposit? {
      DepositWritesOk(s, step);
    } else if step.ClaimTicket? || step.ReleaseTicket? {
      ClaimWritesOk(s, step);
    } else if step.PlaceBet? || step.RefundBet? {
      BetWritesOk(s, step);
    } else {
      var r := Uncashed(s, step);
      CloseWritesOk(s, r.bet, r.status, r.payout);
    }
  }
}
