/** What a ticket or bet was opened with never changes, and a refund is the exact inverse of a bet. */
module Reversal {
  import opened Sums
  import opened Ledger
  import opened Books
  import opened Procedures
  import opened Guarantees

  // ----- rows only move forward -----

  /** Every ticket and bet of `s` is still there in `s'` with the terms it was opened with, and a
      closed one is exactly as it was. */
  ghost predicate Extends(s: Ledger, s': Ledger) {
    && (forall i :: i in s.tickets ==> i in s'.tickets && TicketExtends(s.tickets[i], s'.tickets[i]))
    && (forall b :: b in s.bets ==> b in s'.bets && BetExtends(s.bets[b], s'.bets[b]))
    && s.audit <= s'.audit
  }

  predicate TicketExtends(t: Ticket, t': Ticket) {
    SameRequest(t, t') && (Terminal(t.status) ==> t' == t)
  }

  predicate BetExtends(b: Bet, b': Bet) {
    SameTerms(b, b') && (b.status != BetOpen ==> b' == b)
  }

  lemma StepExtends(s: Ledger, step: Step)
    requires RowsOk(s) && ValidConfig(step)
    ensures Extends(s, Apply(s, step))
  {
    if Plan(s, step).Commit? {
      PlanWritesOk(s, step);
      InstallExtends(s, Plan(s, step).writes);
    }
  }

  lemma InstallExtends(s: Ledger, w: WriteSet)
    requires WritesOk(s, w)
    ensures Extends(s, Install(s, w))
  {
  }

  lemma ExtendsTransitive(a: Ledger, b: Ledger, c: Ledger)
    requires Extends(a, b) && Extends(b, c)
    ensures Extends(a, c)
  {
    forall i | i in a.tickets
      ensures i in c.tickets && TicketExtends(a.tickets[i], c.tickets[i])
    {
      assert i in b.tickets && TicketExtends(a.tickets[i], b.tickets[i]);
    }
    forall i | i in a.bets
      ensures i in c.bets && BetExtends(a.bets[i], c.bets[i])
    {
      assert i in b.bets && BetExtends(a.bets[i], b.bets[i]);
    }
  }

  lemma {:induction false} RunExtends(s: Ledger, steps: seq<Step>)
    requires Inv(s) && ValidRun(steps)
    ensures Extends(s, Run(s, steps))
    decreases |steps|
  {
    if steps != [] {
      var before := steps[..|steps| - 1];
      RunExtends(s, before);
      RunKeepsInv(s, before);
      assert ValidConfig(steps[|steps| - 1]);
      StepExtends(Run(s, before), steps[|steps| - 1]);
      ExtendsTransitive(s, Run(s, before), Run(s, steps));
    }
  }

  // ----- refund undoes apply -----

  function TreasuryCut(b: Bet, u: UserId): int {
    if u == TREASURY then b.commission + FallbackRake(b) else 0
  }

  /** The gold columns of `to` differ from those of `from` by this bet's terms, taken `back` or not. */
  ghost predicate MovedBy(b: Bet, from: Ledger, to: Ledger, back: bool) {
    && (forall u: UserId :: BalanceIn(to.accounts, u) == BalanceIn(from.accounts, u)
          + Signed(back, (if u == b.user then -b.amount else 0) + TreasuryCut(b, u)))
    && (forall u: UserId :: LockedIn(to.accounts, u) == LockedIn(from.accounts, u)
          + Signed(back, if u == b.user then b.stake else 0))
    && (forall u: UserId :: WageredIn(to.accounts, u) == WageredIn(from.accounts, u)
          + Signed(back, if u == b.user then b.amount else 0))
    && (forall p: int :: PoolOf(to, p).amount == PoolOf(from, p).amount
          + Signed(back, if b.period == Some(p) then b.rake else 0))
    && to.tickets == from.tickets && to.disputes == from.disputes && to.users == from.users
  }

  lemma PlaceMoves(s: Ledger, id: int, b: Bet)
    requires TREASURY in s.accounts && b.user in s.accounts && (b.period.Some? ==> b.period.value in s.pools)
    requires b.commission >= 0 && b.rake >= 0
    ensures MovedBy(b, s, Install(s, MoveCuts(s, PlaceBase(s, id, b), b, false)), false)
  {
    var w := PlaceBase(s, id, b);
    AccountMoves(s, w, b.user, w.account.value.1);
    CutsMove(s, w, b, w.account.value.1, false);
    CutsFrame(s, w, b, false);
  }

  lemma RefundMoves(s: Ledger, id: int)
    requires RowsOk(s) && id in s.bets
    ensures MovedBy(s.bets[id], s, Install(s, MoveCuts(s, RefundBase(s, id), s.bets[id], true)), true)
  {
    var b := s.bets[id];
    assert BetOk(s.users, s.pools, s.keys, id, b);
    var w := RefundBase(s, id);
    AccountMoves(s, w, b.user, w.account.value.1);
    CutsMove(s, w, b, w.account.value.1, true);
    CutsFrame(s, w, b, true);
  }

  lemma PlaceStepMoves(s: Ledger, place: Step)
    requires RowsOk(s) && place.PlaceBet? && ValidConfig(place)
    requires place.bet !in s.bets && place.bet in Apply(s, place).bets
    ensures MovedBy(Apply(s, place).bets[place.bet], s, Apply(s, place), false)
  {
    var b := NewBet(place.user, place.key, place.game, place.amount, place.config.value.commissionBps, place.rakeBps,
      place.period);
    CutsFrame(s, PlaceBase(s, place.bet, b), b, false);
    CutsFit(place.amount, place.config.value.commissionBps, place.rakeBps);
    PlaceMoves(s, place.bet, b);
  }

  lemma RefundStepMoves(s: Ledger, id: int)
    requires RowsOk(s) && id in s.bets && s.bets[id].status == BetOpen && PlanRefundBet(s, id).Commit?
    ensures MovedBy(s.bets[id], s, Apply(s, RefundBet(id)), true)
  {
    RefundMoves(s, id);
  }

  lemma MovedBySameTerms(b: Bet, b': Bet, from: Ledger, to: Ledger)
    requires MovedBy(b', from, to, true) && SameTerms(b, b')
    ensures MovedBy(b, from, to, true)
  {
  }

  /** Placing a bet, running anything at all (other bets, withdraws, sweeps, new raffle periods,
      any configuration) while it stays open, then refunding it: each balance, lock, wagered total
      and pool moves at the refund by exactly minus what it moved at placement. */
  lemma RefundUndoesBet(s: Ledger, place: Step, s1: Ledger, steps: seq<Step>, s2: Ledger)
    requires Inv(s) && place.PlaceBet? && ValidConfig(place) && ValidRun(steps)
    requires s1 == Apply(s, place) && place.bet !in s.bets && place.bet in s1.bets
    requires s2 == Run(s1, steps) && place.bet in s2.bets && s2.bets[place.bet].status == BetOpen
    requires PlanRefundBet(s2, place.bet).Commit?
    ensures MovedBy(s1.bets[place.bet], s, s1, false)
    ensures MovedBy(s1.bets[place.bet], s2, Apply(s2, RefundBet(place.bet)), true)
  {
    PlaceStepMoves(s, place);
    StepKeepsInv(s, place);
    RunKeepsInv(s1, steps);
    RunExtends(s1, steps);
    assert BetExtends(s1.bets[place.bet], s2.bets[place.bet]);
    RefundStepMoves(s2, place.bet);
    MovedBySameTerms(s1.bets[place.bet], s2.bets[place.bet], s2, Apply(s2, RefundBet(place.bet)));
  }
}
