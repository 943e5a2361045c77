/**
 What each bet procedure does, said without its plan: exactly when a call commits, the terms it stores,
 and the gold it moves, status by status.
 */
module BetEffects {
  import opened Sums
  import opened Ledger
  import opened Books
  import opened Procedures
  import opened Guarantees
  import opened Effects

  // ----- movements of a bet's write set -----

  lemma AddTreasuryMoves(s: Ledger, w: WriteSet, d: Movement, gain: int)
    requires TREASURY in AccountsAfter(s.accounts, w) && MovesBy(s.accounts, AccountsAfter(s.accounts, w), d)
    ensures var m := AccountsAfter(s.accounts, AddTreasury(s, w, gain));
      TREASURY in m && MovesBy(s.accounts, m, d.(treasury := d.treasury + gain))
  {
    var m := AccountsAfter(s.accounts, w);
    GainMoves(s.accounts, m, d, gain);
    assert AccountsAfter(s.accounts, AddTreasury(s, w, gain)) == m[TREASURY := Gain(m[TREASURY], gain)];
  }

  /** Commission and fallback rake move the treasury; a raked period moves its pool instead. */
  lemma CutsMoveBy(s: Ledger, w: WriteSet, d: Movement, b: Bet, back: bool)
    requires TREASURY in AccountsAfter(s.accounts, w) && MovesBy(s.accounts, AccountsAfter(s.accounts, w), d)
    requires b.commission >= 0 && b.rake >= 0
    ensures var cuts := b.commission + if b.period.None? then b.rake else 0;
      var total := if back then -cuts else cuts;
      MovesBy(s.accounts, AccountsAfter(s.accounts, MoveCuts(s, w, b, back)), d.(treasury := d.treasury + total))
  {
    var w1, d1 := w, d;
    if b.commission > 0 {
      var gain := Signed(back, b.commission);
      AddTreasuryMoves(s, w, d, gain);
      w1, d1 := AddTreasury(s, w, gain), d.(treasury := d.treasury + gain);
    }
    if b.rake > 0 && b.period.None? {
      AddTreasuryMoves(s, w1, d1, Signed(back, b.rake));
    }
  }

  /** The pools after `rake` went to the bet's period, or to no period. */
  function Raked(pools: map<int, Pool>, period: Option<int>, rake: int): map<int, Pool> {
    if period.None? || period.value !in pools then pools
    else
      var p := pools[period.value];
      pools[period.value := Pool(p.opening, p.amount + rake)]
  }

  lemma CutsRake(s: Ledger, w: WriteSet, b: Bet, back: bool)
    requires w.pool.None? && b.rake >= 0
    ensures Install(s, MoveCuts(s, w, b, back)).pools == Raked(s.pools, b.period, if back then -b.rake else b.rake)
  {
    if b.period.Some? && b.period.value in s.pools {
      assert s.pools == s.pools[b.period.value := s.pools[b.period.value]];
    }
  }

  // ----- placing -----

  /** When a call with no earlier bet under its key commits. */
  predicate CanPlace(s: Ledger, step: Step)
    requires step.PlaceBet?
  {
    && step.config.Some? && step.config.value.enabled
    && step.config.value.min <= step.amount <= step.config.value.max && step.amount > 0
    && step.user in s.users && !step.bannedSeen && step.amount <= BalanceIn(s.accounts, step.user)
    && step.bet !in s.bets && (step.user, step.key) !in s.keys
    && (step.period.Some? ==> step.period.value in s.pools)
  }

  lemma PlaceBetCommitsIff(s: Ledger, step: Step)
    requires Inv(s) && step.PlaceBet? && ValidConfig(step)
    ensures Plan(s, step).Commit? <==> step.duplicate.Some? || CanPlace(s, step)
  {
    if step.duplicate.None? && step.config.Some? && step.user in s.accounts && step.amount > 0
       && step.amount <= s.accounts[step.user].balance {
      var b := NewBet(step.user, step.key, step.game, step.amount, step.config.value.commissionBps, step.rakeBps,
        step.period);
      CutsFit(step.amount, step.config.value.commissionBps, step.rakeBps);
      if step.period.Some? {
        PoolIsNonNegative(s, step.period.value);
      }
      PlaceAdmissible(s, step.bet, b);
    }
  }

  lemma PoolIsNonNegative(s: Ledger, p: int)
    requires Inv(s)
    ensures PoolIn(s.pools, p).amount >= 0
  {
    BetValuesNonNegative(s, RakedTo(p));
    assert p in s.pools ==> s.pools[p].opening >= 0;
  }

  lemma PlaceAdmissible(s: Ledger, id: int, b: Bet)
    requires b.user in s.users && b.user in s.accounts && NonNegative(s.accounts[b.user])
    requires TREASURY in s.accounts && NonNegative(s.accounts[TREASURY])
    requires b.commission >= 0 && b.rake >= 0 && b.amount == b.stake + b.commission + b.rake && b.stake >= 0
    requires b.payout == 0 && 0 < b.amount <= s.accounts[b.user].balance
    requires b.period.Some? ==> PoolIn(s.pools, b.period.value).amount >= 0
    ensures Admissible(s, MoveCuts(s, PlaceBase(s, id, b), b, false))
  {
    CutsFrame(s, PlaceBase(s, id, b), b, false);
  }

  /** A repeated key changes nothing and returns the earlier bet. */
  lemma PlaceBetRepeat(s: Ledger, step: Step)
    requires step.PlaceBet? && step.duplicate.Some?
    ensures Plan(s, step).reply == step.duplicate && Apply(s, step) == s
  {
    assert s.audit + [] == s.audit;
  }

  /** The row a committed placement stores: each cut comes from its own rate, rounded down, and the stake is
      what both leave. */
  predicate PlacedOn(b: Bet, step: Step)
    requires step.PlaceBet? && step.config.Some?
  {
    && b.user == step.user && b.key == step.key && b.game == step.game && b.amount == step.amount
    && IsCut(b.commission, step.amount, step.config.value.commissionBps)
    && IsCut(b.rake, step.amount, step.rakeBps)
    && b.stake == step.amount - b.commission - b.rake >= 0
    && b.period == step.period && b.status == BetOpen && b.payout == 0
  }

  /** The amount leaves the balance, the stake enters the lock, the commission goes to the treasury and the
      rake to the period's pool, or to the treasury when there is no period. */
  lemma PlaceBetEffect(s: Ledger, step: Step)
    requires TREASURY in s.accounts && step.PlaceBet? && ValidConfig(step)
    requires step.duplicate.None? && Plan(s, step).Commit?
    ensures step.config.Some? && step.user in s.accounts
    ensures var s' := Apply(s, step);
      && step.bet !in s.bets && step.bet in s'.bets
      && var b := s'.bets[step.bet];
      var before := s.accounts[step.user].balance;
      && PlacedOn(b, step) && s'.bets == s.bets[step.bet := b]
      && Moved(s, s', Movement(step.user, -step.amount, b.stake, step.amount, 0,
                               b.commission + if step.period.None? then b.rake else 0))
      && s'.pools == Raked(s.pools, step.period, b.rake)
      && s'.keys == s.keys[(step.user, step.key) := step.bet]
      && s'.users == s.users && s'.tickets == s.tickets && s'.disputes == s.disputes
      && s'.audit == s.audit + [AuditRow(BetPlaced, step.user, step.amount, before, before - step.amount,
                                         BetRef(step.bet))]
      && Plan(s, step).reply == Some(step.bet)
  {
    var b := NewBet(step.user, step.key, step.game, step.amount, step.config.value.commissionBps, step.rakeBps,
      step.period);
    assert step.amount > 0 by { CutsFrame(s, PlaceBase(s, step.bet, b), b, false); }
    CutsFit(step.amount, step.config.value.commissionBps, step.rakeBps);
    FeeIsCut(step.amount, step.config.value.commissionBps);
    FeeIsCut(step.amount, step.rakeBps);
    PlaceMovesBy(s, step.bet, b);
  }

  lemma PlaceMovesBy(s: Ledger, id: int, b: Bet)
    requires TREASURY in s.accounts && b.user in s.accounts && b.commission >= 0 && b.rake >= 0
    ensures var s' := Install(s, MoveCuts(s, PlaceBase(s, id, b), b, false));
      && Moved(s, s', Movement(b.user, -b.amount, b.stake, b.amount, 0,
                               b.commission + if b.period.None? then b.rake else 0))
      && s'.pools == Raked(s.pools, b.period, b.rake)
      && s' == Install(s, PlaceBase(s, id, b)).(accounts := s'.accounts, pools := s'.pools)
  {
    var w := PlaceBase(s, id, b);
    PutMoves(s.accounts, b.user, w.account.value.1);
    CutsMoveBy(s, w, Movement(b.user, -b.amount, b.stake, b.amount, 0, 0), b, false);
    CutsRake(s, w, b, false);
    CutsFrame(s, w, b, false);
  }

  // ----- resolving -----

  /** A resolution commits on an open bet unless it is a win the treasury cannot pay, and on a closed one
      exactly when it repeats the stored outcome. */
  lemma ResolveBetCommits(s: Ledger, id: int, status: BetStatus, payout: int)
    requires Inv(s)
    ensures Plan(s, ResolveBet(id, status, payout)).Commit?
      <==> (status == Win || status == Loss || status == Tie) && payout >= 0 && id in s.bets
           && var b := s.bets[id];
              if b.status == BetOpen then
                status == Win && b.user != 0 ==> payout - b.stake <= BalanceIn(s.accounts, TREASURY)
              else b.status == status && b.payout == payout
  {
    if status in {Win, Loss, Tie} && payout >= 0 && id in s.bets && s.bets[id].status == BetOpen {
      ResolveBetCommitsIff(s, id, status, payout);
    }
  }

  /** Only accounts, the bet's status and payout, and the log change when a bet closes. */
  ghost predicate ClosesAs(s: Ledger, s': Ledger, id: int, status: BetStatus, payout: int)
    requires id in s.bets
  {
    && s'.bets == s.bets[id := s.bets[id].(status := status, payout := payout)]
    && s'.keys == s.keys && s'.users == s.users && s'.tickets == s.tickets && s'.disputes == s.disputes
  }

  /** A win credits the payout and charges the treasury what exceeds the stake; a loss gives the treasury the
      stake; a tie returns the stake and leaves the treasury alone. */
  lemma ResolveBetEffect(s: Ledger, id: int, status: BetStatus, payout: int)
    requires TREASURY in s.accounts && id in s.bets && s.bets[id].status == BetOpen
    requires Plan(s, ResolveBet(id, status, payout)).Commit?
    ensures var b, s' := s.bets[id], Apply(s, ResolveBet(id, status, payout));
      && (status == Win ==> Moved(s, s', Movement(b.user, payout, -b.stake, 0, payout, b.stake - payout)))
      && (status == Loss ==> Moved(s, s', Movement(b.user, 0, -b.stake, 0, 0, b.stake)))
      && (status == Tie ==> Moved(s, s', Movement(b.user, b.stake, -b.stake, 0, b.stake, 0)))
      && ClosesAs(s, s', id, status, payout) && s'.pools == s.pools
  {
    CloseMovesBy(s, id, status, payout);
  }

  lemma CloseMovesBy(s: Ledger, id: int, status: BetStatus, payout: int)
    requires TREASURY in s.accounts && id in s.bets && s.bets[id].user in s.accounts && status in {Win, Loss, Tie}
    ensures var b, s' := s.bets[id], Install(s, CloseWrites(s, id, status, payout));
      var credit, gain := Credit(b, status, payout), TreasuryGain(b, status, payout);
      && Moved(s, s', Movement(b.user, credit, -b.stake, 0, credit, gain))
      && ClosesAs(s, s', id, status, payout) && s'.pools == s.pools
  {
    var b, w := s.bets[id], CloseBase(s, id, status, payout);
    var credit, gain := Credit(b, status, payout), TreasuryGain(b, status, payout);
    PutMoves(s.accounts, b.user, w.account.value.1);
    var d := Movement(b.user, credit, -b.stake, 0, credit, 0);
    if gain != 0 {
      AddTreasuryMoves(s, w, d, gain);
    }
  }

  lemma ResolveBetRepeat(s: Ledger, id: int, status: BetStatus, payout: int)
    requires id in s.bets && s.bets[id].status != BetOpen && Plan(s, ResolveBet(id, status, payout)).Commit?
    ensures Apply(s, ResolveBet(id, status, payout)) == s
  {
    assert s.audit + [] == s.audit;
  }

  // ----- refunding -----

  lemma RefundBetCommits(s: Ledger, id: int)
    requires Inv(s)
    ensures Plan(s, RefundBet(id)).Commit?
      <==> id in s.bets
           && var b := s.bets[id];
              var cuts := b.commission + if b.period.None? then b.rake else 0;
              || b.status == Refunded
              || (b.status == BetOpen && (b.user != 0 ==> cuts <= BalanceIn(s.accounts, TREASURY)))
  {
    if id in s.bets && s.bets[id].status == BetOpen {
      RefundBetCommitsIff(s, id);
    }
  }

  /** A refund returns the amount, frees the lock and takes both cuts back from where they went. */
  lemma RefundBetEffect(s: Ledger, id: int)
    requires RowsOk(s) && id in s.bets && s.bets[id].status == BetOpen && Plan(s, RefundBet(id)).Commit?
    ensures var b, s' := s.bets[id], Apply(s, RefundBet(id));
      && Moved(s, s', Movement(b.user, b.amount, -b.stake, -b.amount, 0,
                               -b.commission - if b.period.None? then b.rake else 0))
      && s'.pools == Raked(s.pools, b.period, -b.rake)
      && ClosesAs(s, s', id, Refunded, 0)
  {
    assert BetOk(s.users, s.pools, s.keys, id, s.bets[id]);
    RefundMovesBy(s, id);
  }

  lemma RefundMovesBy(s: Ledger, id: int)
    requires TREASURY in s.accounts && id in s.bets && s.bets[id].user in s.accounts
    requires s.bets[id].commission >= 0 && s.bets[id].rake >= 0
    ensures var b, s' := s.bets[id], Install(s, MoveCuts(s, RefundBase(s, id), s.bets[id], true));
      && Moved(s, s', Movement(b.user, b.amount, -b.stake, -b.amount, 0,
                               -b.commission - if b.period.None? then b.rake else 0))
      && s'.pools == Raked(s.pools, b.period, -b.rake)
      && ClosesAs(s, s', id, Refunded, 0)
  {
    var b, w := s.bets[id], RefundBase(s, id);
    PutMoves(s.accounts, b.user, w.account.value.1);
    CutsMoveBy(s, w, Movement(b.user, b.amount, -b.stake, -b.amount, 0, 0), b, true);
    CutsRake(s, w, b, true);
    CutsFrame(s, w, b, true);
  }

  lemma RefundBetRepeat(s: Ledger, id: int)
    requires id in s.bets && s.bets[id].status == Refunded
    ensures Apply(s, RefundBet(id)) == s
  {
    assert s.audit + [] == s.audit;
  }

  // ----- cashing out -----

  /** The payout of a cash-out: the stake times the multiplier, rounded down. */
  predicate IsCashout(p: int, stake: int, multiplier: real) {
    p as real <= stake as real * multiplier < p as real + 1.0
  }

  /** A cash-out commits exactly on an open Mines bet whose floored win the treasury can pay, and is that win. */
  lemma CashoutIs(s: Ledger, id: int, multiplier: real) returns (p: int)
    requires Inv(s)
    ensures id in s.bets ==> IsCashout(p, s.bets[id].stake, multiplier)
    ensures Plan(s, CashoutMines(id, multiplier)).Commit?
      <==> multiplier > 0.0 && id in s.bets && s.bets[id].game == "mines" && s.bets[id].status == BetOpen
           && (s.bets[id].user != 0 ==> p - s.bets[id].stake <= BalanceIn(s.accounts, TREASURY))
    ensures Plan(s, CashoutMines(id, multiplier)).Commit? ==>
      Apply(s, CashoutMines(id, multiplier)) == Apply(s, ResolveBet(id, Win, p))
  {
    p := if id in s.bets then CashoutPayout(s.bets[id].stake, multiplier) else 0;
    if id in s.bets {
      StakeIsNonNegative(s, id);
      CashoutIsWin(s, id, multiplier, p);
      ResolveBetCommits(s, id, Win, p);
    }
  }

  lemma StakeIsNonNegative(s: Ledger, id: int)
    requires RowsOk(s) && id in s.bets
    ensures s.bets[id].stake >= 0
  {
    assert BetOk(s.users, s.pools, s.keys, id, s.bets[id]);
  }

  lemma CashoutIsWin(s: Ledger, id: int, multiplier: real, p: int)
    requires id in s.bets && s.bets[id].stake >= 0 && p == CashoutPayout(s.bets[id].stake, multiplier)
    ensures multiplier > 0.0 ==> p >= 0
    ensures Plan(s, CashoutMines(id, multiplier)).Commit?
      <==> multiplier > 0.0 && s.bets[id].game == "mines" && s.bets[id].status == BetOpen
           && Plan(s, ResolveBet(id, Win, p)).Commit?
    ensures Plan(s, CashoutMines(id, multiplier)).Commit? ==>
      Apply(s, CashoutMines(id, multiplier)) == Apply(s, ResolveBet(id, Win, p))
  {
    assert multiplier > 0.0 ==> s.bets[id].stake as real * multiplier >= 0.0;
  }
}
