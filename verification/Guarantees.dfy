/** What holds after every run of both bots' procedures, in any order and with any configuration. */
module Guarantees {
  import opened Sums
  import opened Ledger
  import opened Books
  import opened Procedures

  ghost predicate Inv(s: Ledger) {
    RowsOk(s) && BooksBalance(s)
  }

  lemma StepKeepsInv(s: Ledger, step: Step)
    requires Inv(s) && ValidConfig(step)
    ensures Inv(Apply(s, step))
  {
    if Plan(s, step).Commit? {
      PlanBalanced(s, step);
      PlanWritesOk(s, step);
    }
    SettleKeepsInv(s, Plan(s, step));
  }

  lemma SettleKeepsInv(s: Ledger, o: Outcome)
    requires Inv(s) && (o.Commit? ==> Balanced(s, o.writes) && WritesOk(s, o.writes))
    ensures Inv(Settle(s, o))
  {
    if o.Commit? {
      InstallKeepsInv(s, o.writes);
    }
  }

  lemma InstallKeepsInv(s: Ledger, w: WriteSet)
    requires Inv(s) && Balanced(s, w) && WritesOk(s, w)
    ensures Inv(Install(s, w))
  {
    BalancedKeepsBooks(s, w);
    WritesKeepRows(s, w);
  }

  lemma {:induction false} RunKeepsInv(s: Ledger, steps: seq<Step>)
    requires Inv(s) && ValidRun(steps)
    ensures Inv(Run(s, steps))
    decreases |steps|
  {
    if steps != [] {
      var before := steps[..|steps| - 1];
      RunKeepsInv(s, before);
      assert ValidConfig(steps[|steps| - 1]);
      StepKeepsInv(Run(s, before), steps[|steps| - 1]);
    }
  }

  lemma ReachableInv(steps: seq<Step>)
    requires ValidRun(steps)
    ensures Inv(Run(EMPTY, steps))
  {
    EmptyBooksBalance();
    RunKeepsInv(EMPTY, steps);
  }

  /** Conservation: gold held, pooled, delivered and swept is the gold deposited plus opening pools. */
  lemma GoldIsConserved(steps: seq<Step>)
    requires ValidRun(steps)
    ensures var s := Run(EMPTY, steps);
      Holdings(s.accounts) + Pooled(s.pools) + TicketTotal(DeliveredGold, s.tickets) + SweptGold(s.audit)
      == TicketTotal(DepositedGold, s.tickets) + Opened(s.pools)
  {
    ReachableInv(steps);
  }

  /** Lock backing: the shared `locked_balance` column is exactly the two bots' outstanding claims. */
  lemma LocksAreBacked(steps: seq<Step>, u: UserId)
    requires ValidRun(steps)
    ensures var s := Run(EMPTY, steps);
      LockedIn(s.accounts, u) == TicketTotal(LockedFor(u), s.tickets) + BetTotal(StakedBy(u), s.bets)
  {
    ReachableInv(steps);
  }

  /** Audit replay: the log alone gives every balance, up to the bets' unaudited treasury share. */
  lemma AuditLogReplays(steps: seq<Step>, u: UserId)
    requires ValidRun(steps)
    ensures var s := Run(EMPTY, steps);
      BalanceIn(s.accounts, u) == AuditNet(s.audit, u) + if u == TREASURY then BetTotal(TreasuryShare, s.bets) else 0
  {
    ReachableInv(steps);
  }

  /** Each raffle pool is its opening amount plus the rakes of the bets charged to it and not refunded,
      and each `total_wagered` the amounts of the user's bets that were not refunded. */
  lemma PoolsAndWagersAreBacked(steps: seq<Step>, p: int, u: UserId)
    requires ValidRun(steps)
    ensures var s := Run(EMPTY, steps);
      && PoolOf(s, p).amount == PoolOf(s, p).opening + BetTotal(RakedTo(p), s.bets)
      && WageredIn(s.accounts, u) == BetTotal(WageredBy(u), s.bets)
  {
    ReachableInv(steps);
  }

  /** Fees, stakes and deliveries are never negative, and every user row has its balance row. */
  lemma AmountsNeverOverdraw(steps: seq<Step>)
    requires ValidRun(steps)
    ensures var s := Run(EMPTY, steps);
      && s.users.Keys == s.accounts.Keys
      && (forall u :: u in s.accounts ==> NonNegative(s.accounts[u]))
      && (forall i :: i in s.tickets ==> 0 <= s.tickets[i].fee <= s.tickets[i].amount)
      && (forall i :: i in s.tickets && s.tickets[i].delivered.Some? ==>
        s.tickets[i].delivered.value == s.tickets[i].amount - s.tickets[i].fee >= 0)
      && (forall b :: b in s.bets ==>
        s.bets[b].stake >= 0 && s.bets[b].amount == s.bets[b].stake + s.bets[b].commission + s.bets[b].rake)
  {
    ReachableInv(steps);
    var s := Run(EMPTY, steps);
    forall i | i in s.tickets
      ensures TicketOk(s.users, i, s.tickets[i])
    {
    }
    forall b | b in s.bets
      ensures BetOk(s.users, s.pools, s.keys, b, s.bets[b])
    {
    }
  }

  // ----- what the shared lock covers -----

  lemma TicketValuesNonNegative(s: Ledger, m: TicketMeasure)
    requires RowsOk(s)
    ensures AllNonNegative(TicketValues(m, s.tickets))
    ensures TicketTotal(m, s.tickets) >= 0
  {
    var v := TicketValues(m, s.tickets);
    forall i | i in v
      ensures v[i] >= 0
    {
      assert TicketOk(s.users, i, s.tickets[i]);
    }
    SumNonNegative(v);
  }

  lemma BetValuesNonNegative(s: Ledger, m: BetMeasure)
    requires RowsOk(s) && m != TreasuryShare
    ensures AllNonNegative(BetValues(m, s.bets))
    ensures BetTotal(m, s.bets) >= 0
  {
    var v := BetValues(m, s.bets);
    forall b | b in v
      ensures v[b] >= 0
    {
      assert BetOk(s.users, s.pools, s.keys, b, s.bets[b]);
    }
    SumNonNegative(v);
  }

  lemma LiveTicketIsCovered(s: Ledger, id: TicketId)
    requires Inv(s) && id in s.tickets && id.kind == WithdrawKind && !Terminal(s.tickets[id].status)
    ensures LockedIn(s.accounts, s.tickets[id].user) >= s.tickets[id].amount
  {
    var u := s.tickets[id].user;
    TicketValuesNonNegative(s, LockedFor(u));
    BetValuesNonNegative(s, StakedBy(u));
    SumAtLeast(TicketValues(LockedFor(u), s.tickets), id);
  }

  lemma OpenBetIsCovered(s: Ledger, id: int)
    requires Inv(s) && id in s.bets && s.bets[id].status == BetOpen
    ensures var b := s.bets[id];
      && LockedIn(s.accounts, b.user) >= b.stake
      && WageredIn(s.accounts, b.user) >= b.amount
      && (b.period.Some? ==> PoolOf(s, b.period.value).amount >= b.rake)
  {
    var u := s.bets[id].user;
    TicketValuesNonNegative(s, LockedFor(u));
    BetValuesNonNegative(s, StakedBy(u));
    SumAtLeast(BetValues(StakedBy(u), s.bets), id);
    BetValuesNonNegative(s, WageredBy(u));
    SumAtLeast(BetValues(WageredBy(u), s.bets), id);
    if s.bets[id].period.Some? {
      PoolCoversRake(s, id, s.bets[id].period.value);
    }
  }

  lemma PoolCoversRake(s: Ledger, id: int, p: int)
    requires Inv(s) && id in s.bets && s.bets[id].status == BetOpen && s.bets[id].period == Some(p)
    ensures PoolOf(s, p).amount >= s.bets[id].rake
  {
    assert BetOk(s.users, s.pools, s.keys, id, s.bets[id]);
    BetValuesNonNegative(s, RakedTo(p));
    SumAtLeast(BetValues(RakedTo(p), s.bets), id);
  }

  // ----- exactly when a procedure commits -----

  /** In particular the `invariant_violation_locked_too_low` guard never fires. */
  lemma CancelWithdrawCommitsIff(s: Ledger, n: int, now: Time)
    requires Inv(s)
    ensures var id := TicketId(WithdrawKind, n);
      PlanCancelWithdraw(s, n, now).Commit? <==> id in s.tickets && s.tickets[id].status in {Open, Claimed}
    ensures PlanCancelWithdraw(s, n, now) != Abort(LockedTooLow)
  {
    var id := TicketId(WithdrawKind, n);
    if id in s.tickets {
      assert TicketOk(s.users, id, s.tickets[id]);
      if !Terminal(s.tickets[id].status) {
        CancelWithdrawAdmissible(s, id, now);
      }
    }
  }

  lemma CancelWithdrawAdmissible(s: Ledger, id: TicketId, now: Time)
    requires Inv(s) && id in s.tickets && id.kind == WithdrawKind && !Terminal(s.tickets[id].status)
    ensures s.tickets[id].user in s.accounts && s.accounts[s.tickets[id].user].locked >= s.tickets[id].amount
    ensures Admissible(s, CancelWithdrawWrites(s, id, now))
  {
    assert TicketOk(s.users, id, s.tickets[id]);
    LiveTicketIsCovered(s, id);
  }

  lemma ConfirmWithdrawCommitsIff(s: Ledger, n: int, cashier: UserId, now: Time)
    requires Inv(s)
    ensures var id := TicketId(WithdrawKind, n);
      PlanConfirmWithdraw(s, n, cashier, now).Commit?
      <==> id in s.tickets && s.tickets[id].status in {Claimed, Confirmed} && s.tickets[id].claimedBy == Some(cashier)
    ensures PlanConfirmWithdraw(s, n, cashier, now) != Abort(LockedTooLow)
  {
    var id := TicketId(WithdrawKind, n);
    if id in s.tickets {
      assert TicketOk(s.users, id, s.tickets[id]);
      if s.tickets[id].status == Claimed {
        ConfirmWithdrawAdmissible(s, id, now);
      }
    }
  }

  lemma ConfirmWithdrawAdmissible(s: Ledger, id: TicketId, now: Time)
    requires Inv(s) && id in s.tickets && id.kind == WithdrawKind && s.tickets[id].status == Claimed
    ensures s.tickets[id].user in s.accounts && s.accounts[s.tickets[id].user].locked >= s.tickets[id].amount
    ensures Admissible(s, AddTreasury(s, ConfirmWithdrawBase(s, id, now), s.tickets[id].fee))
  {
    assert TicketOk(s.users, id, s.tickets[id]);
    LiveTicketIsCovered(s, id);
    DeliveryAdmissible(s, id, now);
  }

  lemma DeliveryAdmissible(s: Ledger, id: TicketId, now: Time)
    requires id in s.tickets && TicketOk(s.users, id, s.tickets[id]) && id.kind == WithdrawKind
    requires TREASURY in s.users && TREASURY in s.accounts && NonNegative(s.accounts[TREASURY])
    requires s.tickets[id].user in s.accounts && NonNegative(s.accounts[s.tickets[id].user])
    requires s.accounts[s.tickets[id].user].locked >= s.tickets[id].amount
    ensures Admissible(s, AddTreasury(s, ConfirmWithdrawBase(s, id, now), s.tickets[id].fee))
  {
  }

  /** A bet closes unless it is a win the treasury cannot pay. */
  lemma ResolveBetCommitsIff(s: Ledger, id: int, status: BetStatus, payout: int)
    requires Inv(s) && id in s.bets && s.bets[id].status == BetOpen && status in {Win, Loss, Tie} && payout >= 0
    ensures var b := s.bets[id];
      PlanResolveBet(s, id, status, payout).Commit?
      <==> (status == Win && b.user != TREASURY ==> payout - b.stake <= BalanceIn(s.accounts, TREASURY))
  {
    var b := s.bets[id];
    assert BetOk(s.users, s.pools, s.keys, id, b);
    OpenBetIsCovered(s, id);
    CloseAdmissibleIff(s, id, status, payout);
  }

  lemma CloseAdmissibleIff(s: Ledger, id: int, status: BetStatus, payout: int)
    requires id in s.bets && s.bets[id].status == BetOpen && status in {Win, Loss, Tie} && payout >= 0
    requires BetOk(s.users, s.pools, s.keys, id, s.bets[id]) && s.bets[id].user in s.accounts
    requires TREASURY in s.accounts && NonNegative(s.accounts[TREASURY]) && NonNegative(s.accounts[s.bets[id].user])
    requires s.accounts[s.bets[id].user].locked >= s.bets[id].stake
    ensures var b := s.bets[id];
      Admissible(s, CloseWrites(s, id, status, payout))
      <==> (status == Win && b.user != TREASURY ==> payout - b.stake <= s.accounts[TREASURY].balance)
  {
    var w := CloseWrites(s, id, status, payout);
    assert w.account.Some? && w.account.value == CloseBase(s, id, status, payout).account.value;
  }

  /** A refund commits unless the treasury no longer holds the bet's commission and fallback rake:
      the lock, the wagered total and the raffle pool never block it. */
  lemma RefundBetCommitsIff(s: Ledger, id: int)
    requires Inv(s) && id in s.bets && s.bets[id].status == BetOpen
    ensures var b := s.bets[id];
      PlanRefundBet(s, id).Commit?
      <==> (b.user != TREASURY ==> b.commission + FallbackRake(b) <= BalanceIn(s.accounts, TREASURY))
  {
    var b := s.bets[id];
    assert BetOk(s.users, s.pools, s.keys, id, b);
    OpenBetIsCovered(s, id);
    CutsFrame(s, RefundBase(s, id), b, true);
    RefundTreasury(s, id);
  }

  lemma RefundTreasury(s: Ledger, id: int)
    requires RowsOk(s) && id in s.bets && BetOk(s.users, s.pools, s.keys, id, s.bets[id])
    ensures var b := s.bets[id];
      var w := MoveCuts(s, RefundBase(s, id), b, true);
      var t := if b.user == TREASURY then w.account.value.1 else s.accounts[TREASURY];
      var back := b.commission + FallbackRake(b);
      w.treasury == if back > 0 then Some(Gain(t, -back)) else None
  {
  }
}
