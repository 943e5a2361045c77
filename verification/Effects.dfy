/**
 What each ticket, treasury and user procedure does, said without its plan: exactly when a call commits
 in a state that keeps the books, and how it moves the gold columns and the ticket.
 */
module Effects {
  import opened Sums
  import opened Ledger
  import opened Books
  import opened Procedures
  import opened Guarantees

  // ----- movements -----

  /** `who` gains `balance`, `locked`, `wagered` and `won`, the treasury gains `treasury`, and no other
      account changes in any of the four columns. */
  datatype Movement = Movement(who: UserId, balance: int, locked: int, wagered: int, won: int, treasury: int)

  const NOTHING := Movement(TREASURY, 0, 0, 0, 0, 0)

  ghost predicate MovesBy(m: map<UserId, Account>, m': map<UserId, Account>, d: Movement) {
    && (forall x: UserId :: BalanceIn(m', x) == BalanceIn(m, x)
          + (if x == d.who then d.balance else 0) + if x == TREASURY then d.treasury else 0)
    && (forall x: UserId :: LockedIn(m', x) == LockedIn(m, x) + if x == d.who then d.locked else 0)
    && (forall x: UserId :: WageredIn(m', x) == WageredIn(m, x) + if x == d.who then d.wagered else 0)
    && (forall x: UserId :: WonIn(m', x) == WonIn(m, x) + if x == d.who then d.won else 0)
  }

  ghost predicate Moved(s: Ledger, s': Ledger, d: Movement) {
    MovesBy(s.accounts, s'.accounts, d)
  }

  lemma ReadsAfterPut(m: map<UserId, Account>, k: UserId, a: Account, x: UserId)
    ensures BalanceIn(m[k := a], x) == if x == k then a.balance else BalanceIn(m, x)
    ensures LockedIn(m[k := a], x) == if x == k then a.locked else LockedIn(m, x)
    ensures WageredIn(m[k := a], x) == if x == k then a.wagered else WageredIn(m, x)
    ensures WonIn(m[k := a], x) == if x == k then a.won else WonIn(m, x)
  {
  }

  lemma PutMoves(m: map<UserId, Account>, k: UserId, a: Account)
    ensures MovesBy(m, m[k := a], Movement(k, a.balance - BalanceIn(m, k), a.locked - LockedIn(m, k),
                                           a.wagered - WageredIn(m, k), a.won - WonIn(m, k), 0))
  {
    var m' := m[k := a];
    forall x: UserId
      ensures BalanceIn(m', x) == if x == k then a.balance else BalanceIn(m, x)
      ensures LockedIn(m', x) == if x == k then a.locked else LockedIn(m, x)
      ensures WageredIn(m', x) == if x == k then a.wagered else WageredIn(m, x)
      ensures WonIn(m', x) == if x == k then a.won else WonIn(m, x)
    {
      ReadsAfterPut(m, k, a, x);
    }
  }

  lemma GainMoves(m0: map<UserId, Account>, m: map<UserId, Account>, d: Movement, gain: int)
    requires MovesBy(m0, m, d) && TREASURY in m
    ensures MovesBy(m0, m[TREASURY := Gain(m[TREASURY], gain)], d.(treasury := d.treasury + gain))
  {
    var a := Gain(m[TREASURY], gain);
    var m' := m[TREASURY := a];
    forall x: UserId
      ensures BalanceIn(m', x) == BalanceIn(m, x) + if x == TREASURY then gain else 0
      ensures LockedIn(m', x) == LockedIn(m, x)
      ensures WageredIn(m', x) == WageredIn(m, x)
      ensures WonIn(m', x) == WonIn(m, x)
    {
      ReadsAfterPut(m, TREASURY, a, x);
    }
  }

  /** Everything but accounts, users, tickets and the log is as before. */
  ghost predicate KeepsOthers(s: Ledger, s': Ledger) {
    s'.bets == s.bets && s'.keys == s.keys && s'.pools == s.pools && s'.disputes == s.disputes
  }

  /** A basis-point cut, rounded down. */
  predicate IsCut(cut: int, amount: int, bps: int) {
    cut * 10000 <= amount * bps < (cut + 1) * 10000
  }

  lemma FeeIsCut(amount: int, bps: int)
    requires amount >= 0 && bps >= 0
    ensures IsCut(Fee(amount, bps), amount, bps)
  {
    var x := amount * bps;
    assert x >= 0;
  }

  // ----- deposits -----

  /** The text columns an admin may enter. */
  predicate ValidPlace(region: string, faction: string) {
    (region == "EU" || region == "NA") && (faction == "Alliance" || faction == "Horde")
  }

  lemma CreateDepositCommitsIff(s: Ledger, n: int, u: UserId, amount: int, l: Option<Limits>, region: string,
      faction: string, banned: bool, seen: Option<int>, now: Time)
    requires Inv(s)
    ensures var step := CreateDeposit(n, u, amount, l, region, faction, banned, seen, now);
      var target := if seen.Some? then u else 0;
      Plan(s, step).Commit?
      <==> !banned && l.Some? && l.value.min <= amount <= l.value.max && amount > 0 && ValidPlace(region, faction)
           && TicketId(DepositKind, n) !in s.tickets && target in s.users
  {
  }

  /** A deposit request opens one ticket and moves no gold. */
  lemma CreateDepositEffect(s: Ledger, step: Step)
    requires step.CreateDeposit? && Plan(s, step).Commit?
    ensures var s' := Apply(s, step);
      var t := Ticket(step.user, step.amount, 0, None, Open, None, None, step.now, step.now + step.limits.value.ttl);
      && s'.accounts == s.accounts && s'.users == s.users && KeepsOthers(s, s')
      && s'.tickets == s.tickets[TicketId(DepositKind, step.serial) := t]
      && Plan(s, step).reply == Some(step.serial)
  {
  }

  /** Only the cashier who holds the ticket, or has already confirmed it, may confirm a deposit. */
  lemma ConfirmDepositCommitsIff(s: Ledger, n: int, cashier: UserId, now: Time)
    requires Inv(s)
    ensures var id := TicketId(DepositKind, n);
      Plan(s, ConfirmDeposit(n, cashier, now)).Commit?
      <==> id in s.tickets && s.tickets[id].status in {Claimed, Confirmed} && s.tickets[id].claimedBy == Some(cashier)
  {
    var id := TicketId(DepositKind, n);
    if id in s.tickets {
      assert TicketOk(s.users, id, s.tickets[id]);
    }
  }

  /** The first confirmation credits the amount once and returns the new balance. */
  lemma ConfirmDepositEffect(s: Ledger, n: int, cashier: UserId, now: Time)
    requires Plan(s, ConfirmDeposit(n, cashier, now)).Commit?
    requires s.tickets[TicketId(DepositKind, n)].status == Claimed
    ensures var id, s' := TicketId(DepositKind, n), Apply(s, ConfirmDeposit(n, cashier, now));
      var t := s.tickets[id];
      && Moved(s, s', Movement(t.user, t.amount, 0, 0, 0, 0)) && KeepsOthers(s, s')
      && s'.users.Keys == s.users.Keys + {t.user}
      && s'.tickets == s.tickets[id := t.(status := Confirmed, lastActivity := now)]
      && Plan(s, ConfirmDeposit(n, cashier, now)).reply == Some(BalanceIn(s.accounts, t.user) + t.amount)
  {
    CreditMoves(s, TicketId(DepositKind, n), now);
  }

  lemma CreditMoves(s: Ledger, id: TicketId, now: Time)
    requires id in s.tickets
    ensures var t, s' := s.tickets[id], Install(s, ConfirmDepositWrites(s, id, now));
      && Moved(s, s', Movement(t.user, t.amount, 0, 0, 0, 0)) && KeepsOthers(s, s')
      && s'.users.Keys == s.users.Keys + {t.user}
  {
    var t := s.tickets[id];
    PutMoves(s.accounts, t.user, Gain(AccountOf(s, t.user), t.amount));
  }

  /** A repeated confirmation changes nothing and returns the balance. */
  lemma ConfirmDepositRepeat(s: Ledger, n: int, cashier: UserId, now: Time)
    requires Plan(s, ConfirmDeposit(n, cashier, now)).Commit?
    requires s.tickets[TicketId(DepositKind, n)].status == Confirmed
    ensures var u := s.tickets[TicketId(DepositKind, n)].user;
      && Apply(s, ConfirmDeposit(n, cashier, now)) == s
      && Plan(s, ConfirmDeposit(n, cashier, now)).reply == if u in s.accounts then Some(s.accounts[u].balance) else None
  {
    assert s.audit + [] == s.audit;
  }

  lemma CancelDepositCommitsIff(s: Ledger, n: int, seen: Option<int>, now: Time)
    requires Inv(s)
    ensures var id := TicketId(DepositKind, n);
      Plan(s, CancelDeposit(n, seen, now)).Commit?
      <==> id in s.tickets && s.tickets[id].status in {Open, Claimed}
           && (if seen.Some? then s.tickets[id].user else 0) in s.users
  {
    var id := TicketId(DepositKind, n);
    if id in s.tickets {
      assert TicketOk(s.users, id, s.tickets[id]);
    }
  }

  lemma CancelDepositEffect(s: Ledger, n: int, seen: Option<int>, now: Time)
    requires Plan(s, CancelDeposit(n, seen, now)).Commit?
    ensures var id, s' := TicketId(DepositKind, n), Apply(s, CancelDeposit(n, seen, now));
      && s'.accounts == s.accounts && s'.users == s.users && KeepsOthers(s, s')
      && s'.tickets == s.tickets[id := s.tickets[id].(status := Cancelled, lastActivity := now)]
  {
  }

  // ----- withdraws -----

  lemma CreateWithdrawCommitsIff(s: Ledger, n: int, u: UserId, amount: int, l: Option<Limits>, region: string,
      faction: string, now: Time)
    requires Inv(s) && (l.Some? ==> 0 <= l.value.feeBps <= 10000)
    ensures Plan(s, CreateWithdraw(n, u, amount, l, region, faction, now)).Commit?
      <==> l.Some? && l.value.min <= amount <= l.value.max && amount > 0 && ValidPlace(region, faction)
           && u in s.users && !s.users[u] && BalanceIn(s.accounts, u) >= amount
           && TicketId(WithdrawKind, n) !in s.tickets
  {
    if l.Some? && amount > 0 {
      CutsFit(amount, l.value.feeBps, 0);
    }
  }

  /** A withdraw request moves the amount into the lock and fixes the fee: the rate, rounded down. */
  lemma CreateWithdrawEffect(s: Ledger, step: Step)
    requires ValidConfig(step) && step.CreateWithdraw? && Plan(s, step).Commit?
    ensures var id, s' := TicketId(WithdrawKind, step.serial), Apply(s, step);
      && Moved(s, s', Movement(step.user, -step.amount, step.amount, 0, 0, 0)) && KeepsOthers(s, s')
      && s'.users == s.users && id in s'.tickets
      && IsCut(s'.tickets[id].fee, step.amount, step.limits.value.feeBps)
      && s'.tickets == s.tickets[id := Ticket(step.user, step.amount, s'.tickets[id].fee, None, Open, None, None,
                                              step.now, step.now + step.limits.value.ttl)]
      && Plan(s, step).reply == Some(step.serial)
  {
    FeeIsCut(step.amount, step.limits.value.feeBps);
    LockMoves(s, TicketId(WithdrawKind, step.serial), step.user, step.amount, step.limits.value, step.now);
  }

  lemma LockMoves(s: Ledger, id: TicketId, u: UserId, amount: int, l: Limits, now: Time)
    requires u in s.accounts
    ensures var s' := Install(s, CreateWithdrawWrites(s, id, u, amount, l, now));
      Moved(s, s', Movement(u, -amount, amount, 0, 0, 0)) && KeepsOthers(s, s') && s'.users == s.users
  {
    var a := s.accounts[u];
    PutMoves(s.accounts, u, Account(a.balance - amount, a.locked + amount, a.wagered, a.won));
  }

  /** A first confirmation takes the amount out of the lock and gives the treasury the fee. */
  lemma ConfirmWithdrawEffect(s: Ledger, n: int, cashier: UserId, now: Time)
    requires Plan(s, ConfirmWithdraw(n, cashier, now)).Commit?
    requires s.tickets[TicketId(WithdrawKind, n)].status == Claimed
    ensures var id, s' := TicketId(WithdrawKind, n), Apply(s, ConfirmWithdraw(n, cashier, now));
      var t := s.tickets[id];
      && Moved(s, s', Movement(t.user, 0, -t.amount, 0, 0, t.fee)) && KeepsOthers(s, s') && s'.users == s.users
      && s'.tickets == s.tickets[id := t.(
           status := Confirmed, delivered := Some(t.amount - t.fee), lastActivity := now)]
      && Plan(s, ConfirmWithdraw(n, cashier, now)).reply == Some(BalanceIn(s.accounts, t.user))
  {
    DeliveryMoves(s, TicketId(WithdrawKind, n), now);
  }

  lemma DeliveryMoves(s: Ledger, id: TicketId, now: Time)
    requires id in s.tickets && s.tickets[id].user in s.accounts && TREASURY in s.accounts
    ensures var t := s.tickets[id];
      var s' := Install(s, AddTreasury(s, ConfirmWithdrawBase(s, id, now), t.fee));
      Moved(s, s', Movement(t.user, 0, -t.amount, 0, 0, t.fee)) && KeepsOthers(s, s') && s'.users == s.users
  {
    var t := s.tickets[id];
    var a := s.accounts[t.user];
    var a' := Account(a.balance, a.locked - t.amount, a.wagered, a.won);
    PutMoves(s.accounts, t.user, a');
    GainMoves(s.accounts, s.accounts[t.user := a'], Movement(t.user, 0, -t.amount, 0, 0, 0), t.fee);
  }

  lemma ConfirmWithdrawRepeat(s: Ledger, n: int, cashier: UserId, now: Time)
    requires Plan(s, ConfirmWithdraw(n, cashier, now)).Commit?
    requires s.tickets[TicketId(WithdrawKind, n)].status == Confirmed
    ensures var u := s.tickets[TicketId(WithdrawKind, n)].user;
      && Apply(s, ConfirmWithdraw(n, cashier, now)) == s
      && Plan(s, ConfirmWithdraw(n, cashier, now)).reply
         == if u in s.accounts then Some(s.accounts[u].balance) else None
  {
    assert s.audit + [] == s.audit;
  }

  /** A cancelled withdraw moves the amount back out of the lock and returns the new balance. */
  lemma CancelWithdrawEffect(s: Ledger, n: int, now: Time)
    requires Plan(s, CancelWithdraw(n, now)).Commit?
    ensures var id, s' := TicketId(WithdrawKind, n), Apply(s, CancelWithdraw(n, now));
      var t := s.tickets[id];
      && Moved(s, s', Movement(t.user, t.amount, -t.amount, 0, 0, 0)) && KeepsOthers(s, s') && s'.users == s.users
      && s'.tickets == s.tickets[id := t.(status := Cancelled, lastActivity := now)]
      && Plan(s, CancelWithdraw(n, now)).reply == Some(BalanceIn(s.accounts, t.user) + t.amount)
  {
    ReturnMoves(s, TicketId(WithdrawKind, n), now);
  }

  lemma ReturnMoves(s: Ledger, id: TicketId, now: Time)
    requires id in s.tickets && s.tickets[id].user in s.accounts
    ensures var t, s' := s.tickets[id], Install(s, CancelWithdrawWrites(s, id, now));
      Moved(s, s', Movement(t.user, t.amount, -t.amount, 0, 0, 0)) && KeepsOthers(s, s') && s'.users == s.users
  {
    var t := s.tickets[id];
    var a := s.accounts[t.user];
    PutMoves(s.accounts, t.user, Account(a.balance + t.amount, a.locked - t.amount, a.wagered, a.won));
  }

  // ----- claim and release -----

  lemma ClaimCommitsIff(s: Ledger, id: TicketId, cashier: UserId, regionMatch: bool, seen: Option<int>, now: Time)
    requires Inv(s)
    ensures Plan(s, ClaimTicket(id, cashier, regionMatch, seen, now)).Commit?
      <==> id in s.tickets && s.tickets[id].status == Open && regionMatch
           && (if seen.Some? then s.tickets[id].user else 0) in s.users
  {
    if id in s.tickets {
      assert TicketOk(s.users, id, s.tickets[id]);
    }
  }

  lemma ClaimEffect(s: Ledger, id: TicketId, cashier: UserId, regionMatch: bool, seen: Option<int>, now: Time)
    requires Plan(s, ClaimTicket(id, cashier, regionMatch, seen, now)).Commit?
    ensures var s' := Apply(s, ClaimTicket(id, cashier, regionMatch, seen, now));
      && s'.accounts == s.accounts && s'.users == s.users && KeepsOthers(s, s')
      && s'.tickets == s.tickets[id := s.tickets[id].(
           status := Claimed, claimedBy := Some(cashier), claimedAt := Some(now), lastActivity := now)]
  {
  }

  /** Only the cashier who holds the claim releases it. */
  lemma ReleaseCommitsIff(s: Ledger, id: TicketId, actor: UserId, seen: Option<int>, now: Time)
    requires Inv(s)
    ensures Plan(s, ReleaseTicket(id, actor, seen, now)).Commit?
      <==> id in s.tickets && s.tickets[id].status == Claimed && s.tickets[id].claimedBy == Some(actor)
           && (if seen.Some? then s.tickets[id].user else 0) in s.users
  {
    if id in s.tickets {
      assert TicketOk(s.users, id, s.tickets[id]);
    }
  }

  lemma ReleaseEffect(s: Ledger, id: TicketId, actor: UserId, seen: Option<int>, now: Time)
    requires Plan(s, ReleaseTicket(id, actor, seen, now)).Commit?
    ensures var s' := Apply(s, ReleaseTicket(id, actor, seen, now));
      && s'.accounts == s.accounts && s'.users == s.users && KeepsOthers(s, s')
      && s'.tickets == s.tickets[id := s.tickets[id].(
           status := Open, claimedBy := None, claimedAt := None, lastActivity := now)]
  {
  }

  // ----- treasury -----

  lemma SweepCommitsIff(s: Ledger, amount: int)
    requires Inv(s)
    ensures Plan(s, Sweep(amount)).Commit? <==> 0 < amount <= BalanceIn(s.accounts, TREASURY)
  {
  }

  lemma SweepEffect(s: Ledger, amount: int)
    requires Plan(s, Sweep(amount)).Commit?
    ensures var s' := Apply(s, Sweep(amount));
      && Moved(s, s', NOTHING.(treasury := -amount)) && KeepsOthers(s, s')
      && s'.users == s.users && s'.tickets == s.tickets
      && Plan(s, Sweep(amount)).reply == Some(BalanceIn(s.accounts, TREASURY) - amount)
  {
    GainMoves(s.accounts, s.accounts, NOTHING, -amount);
  }

  lemma TreasuryToUserCommitsIff(s: Ledger, amount: int, u: UserId)
    requires Inv(s)
    ensures Plan(s, TreasuryToUser(amount, u)).Commit? <==> u != 0 && 0 < amount <= BalanceIn(s.accounts, TREASURY)
  {
  }

  lemma TreasuryToUserEffect(s: Ledger, amount: int, u: UserId)
    requires Plan(s, TreasuryToUser(amount, u)).Commit?
    ensures var s' := Apply(s, TreasuryToUser(amount, u));
      && Moved(s, s', Movement(u, amount, 0, 0, 0, -amount)) && KeepsOthers(s, s')
      && s'.users.Keys == s.users.Keys + {u} && s'.tickets == s.tickets
  {
    PayMoves(s, amount, u);
  }

  lemma PayMoves(s: Ledger, amount: int, u: UserId)
    requires TREASURY in s.accounts && u != TREASURY
    ensures var m := AccountsAfter(s.accounts, TreasuryToUserWrites(s, amount, u));
      MovesBy(s.accounts, m, Movement(u, amount, 0, 0, 0, -amount))
  {
    var a := AccountOf(s, u);
    var m := s.accounts[u := a.(balance := a.balance + amount)];
    PutMoves(s.accounts, u, a.(balance := a.balance + amount));
    GainMoves(s.accounts, m, Movement(u, amount, 0, 0, 0, 0), -amount);
  }

  // ----- disputes -----

  lemma OpenDisputeCommitsIff(s: Ledger, id: TicketId, roleValid: bool)
    requires Inv(s)
    ensures Plan(s, OpenDispute(id, roleValid)).Commit?
      <==> roleValid && id in s.tickets && id !in s.disputes && s.tickets[id].user in s.users
  {
  }

  lemma OpenDisputeEffect(s: Ledger, id: TicketId, roleValid: bool)
    requires Plan(s, OpenDispute(id, roleValid)).Commit?
    ensures var s' := Apply(s, OpenDispute(id, roleValid));
      s' == s.(disputes := s.disputes[id := DisputeOpen], audit := s'.audit)
  {
  }

  /** A resolution pays out of the treasury: the caller's amount for a partial refund, the ticket's amount for
      a full refund, and nothing for the other two. */
  lemma ResolveDisputeEffect(s: Ledger, id: TicketId, action: Resolution, amount: int)
    requires Plan(s, ResolveDispute(id, action, amount)).Commit?
    ensures id in s.tickets
    ensures var s', t := Apply(s, ResolveDispute(id, action, amount)), s.tickets[id];
      && (action == PartialRefund ==> Moved(s, s', Movement(t.user, amount, 0, 0, 0, -amount)))
      && (action == RefundFull ==> Moved(s, s', Movement(t.user, t.amount, 0, 0, 0, -t.amount)))
      && (action == NoAction || action == ForceConfirm ==> s'.accounts == s.accounts)
      && s'.tickets == s.tickets && s'.bets == s.bets && s'.keys == s.keys && s'.pools == s.pools
      && s'.disputes == s.disputes[id := DisputeResolved]
  {
    var t := s.tickets[id];
    if action == PartialRefund {
      PayMoves(s, amount, t.user);
    } else if action == RefundFull {
      PayMoves(s, t.amount, t.user);
    }
  }

  /** Refunds commit exactly on an open dispute whose payout the treasury holds. */
  lemma ResolveDisputeCommitsIff(s: Ledger, id: TicketId, action: Resolution, amount: int)
    requires Inv(s)
    ensures Plan(s, ResolveDispute(id, action, amount)).Commit?
      <==> id in s.disputes && s.disputes[id] == DisputeOpen && CanResolve(s, id, action, amount)
  {
    if id in s.disputes {
      assert id in s.tickets;
      assert TicketOk(s.users, id, s.tickets[id]);
      ResolutionCommits(s, id, action, amount);
    }
  }

  lemma ResolutionCommits(s: Ledger, id: TicketId, action: Resolution, amount: int)
    requires TREASURY in s.users && TREASURY in s.accounts && NonNegative(s.accounts[TREASURY])
    requires id in s.disputes && id in s.tickets && s.tickets[id].amount > 0
    requires NonNegative(AccountOf(s, s.tickets[id].user))
    ensures PlanResolveDispute(s, id, action, amount).Commit?
      <==> s.disputes[id] == DisputeOpen && CanResolve(s, id, action, amount)
  {
  }

  predicate CanResolve(s: Ledger, id: TicketId, action: Resolution, amount: int) {
    && id in s.tickets
    && match action
       case NoAction => s.tickets[id].user in s.users
       case ForceConfirm => s.tickets[id].user in s.users
       case PartialRefund => s.tickets[id].user != 0 && 0 < amount <= BalanceIn(s.accounts, TREASURY)
       case RefundFull =>
         id.kind == WithdrawKind && s.tickets[id].user != 0 && s.tickets[id].amount <= BalanceIn(s.accounts, TREASURY)
       case OtherAction => false
  }

  lemma RejectDisputeIs(s: Ledger, id: TicketId)
    requires Inv(s)
    ensures Plan(s, RejectDispute(id)).Commit?
      <==> id in s.disputes && s.disputes[id] == DisputeOpen && s.tickets[id].user in s.users
    ensures Plan(s, RejectDispute(id)).Commit? ==>
      var s' := Apply(s, RejectDispute(id)); s' == s.(disputes := s.disputes[id := DisputeRejected], audit := s'.audit)
  {
    assert id in s.disputes ==> id in s.tickets;
  }

  // ----- users and periods -----

  /** A ban creates the user if need be, sets the flag and moves no gold. */
  lemma BanIs(s: Ledger, u: UserId)
    requires Inv(s)
    ensures Plan(s, Ban(u)).Commit? <==> u != 0
    ensures u != 0 ==>
      var s' := Apply(s, Ban(u));
      && s'.users == s.users[u := true] && Moved(s, s', NOTHING) && KeepsOthers(s, s') && s'.tickets == s.tickets
  {
    if u !in s.accounts {
      PutMoves(s.accounts, u, NO_GOLD);
    }
  }

  lemma UnbanIs(s: Ledger, u: UserId)
    requires Inv(s)
    ensures Plan(s, Unban(u)).Commit? <==> u in s.users
    ensures u in s.users ==> var s' := Apply(s, Unban(u)); s' == s.(users := s.users[u := false], audit := s'.audit)
  {
  }

  lemma OpenPeriodIs(s: Ledger, p: int, amount: int)
    requires Inv(s)
    ensures Plan(s, OpenPeriod(p, amount)).Commit? <==> p !in s.pools && amount >= 0
    ensures Plan(s, OpenPeriod(p, amount)).Commit? ==>
      Apply(s, OpenPeriod(p, amount)) == s.(pools := s.pools[p := Pool(amount, amount)])
  {
    assert s.audit + [] == s.audit;
  }
}
