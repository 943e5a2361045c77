/**
 The identity in the docstring of migration 0007: user balances plus treasury plus swept gold equal
 the gold ever deposited. It leaves out gold that is locked, delivered or in a raffle pool, so it is
 false of the code; here is exactly when it holds.
 */
module DocumentedIdentity {
  import opened Sums
  import opened Ledger
  import opened Books
  import opened Procedures
  import opened Guarantees

  function BalanceColumn(accounts: map<UserId, Account>): map<UserId, int> {
    map u | u in accounts :: accounts[u].balance
  }

  function LockColumn(accounts: map<UserId, Account>): map<UserId, int> {
    map u | u in accounts :: accounts[u].locked
  }

  function RakeColumn(pools: map<int, Pool>): map<int, int> {
    map p | p in pools :: pools[p].amount - pools[p].opening
  }

  /** The documented identity. The treasury is one of the balances. */
  ghost predicate Documented(s: Ledger) {
    Sum(BalanceColumn(s.accounts)) + SweptGold(s.audit) == TicketTotal(DepositedGold, s.tickets)
  }

  /** No gold is locked, none was delivered and no pool holds a rake. */
  ghost predicate NothingElsewhere(s: Ledger) {
    && (forall u :: u in s.accounts ==> s.accounts[u].locked == 0)
    && (forall i :: i in s.tickets && i.kind == WithdrawKind && s.tickets[i].status == Confirmed ==>
          s.tickets[i].amount == s.tickets[i].fee)
    && (forall p :: p in s.pools ==> s.pools[p].amount == s.pools[p].opening)
  }

  // ----- sums -----

  lemma {:induction false} SumOfSums<K(!new)>(a: map<K, int>, b: map<K, int>, c: map<K, int>)
    requires a.Keys == b.Keys == c.Keys && forall k :: k in c ==> c[k] == a[k] + b[k]
    ensures Sum(c) == Sum(a) + Sum(b)
    decreases c.Keys
  {
    if c.Keys != {} {
      var k := Pick(c);
      SumRemove(a, k);
      SumRemove(b, k);
      SumOfSums(a - {k}, b - {k}, c - {k});
    }
  }

  ghost predicate AllZero<K(!new)>(m: map<K, int>) {
    forall k :: k in m ==> m[k] == 0
  }

  lemma {:induction false} SumIsZeroIff<K(!new)>(m: map<K, int>)
    requires AllNonNegative(m)
    ensures Sum(m) >= 0 && (Sum(m) == 0 <==> AllZero(m))
    decreases m.Keys
  {
    if m.Keys != {} {
      var k := Pick(m);
      SumIsZeroIff(m - {k});
      ZeroWithout(m, k);
    }
  }

  lemma ZeroWithout<K(!new)>(m: map<K, int>, k: K)
    requires k in m
    ensures AllZero(m) <==> m[k] == 0 && AllZero(m - {k})
  {
    var rest := m - {k};
    if AllZero(m) {
      forall x | x in rest
        ensures rest[x] == 0
      {
        assert m[x] == 0;
      }
    }
    if m[k] == 0 && AllZero(rest) {
      forall x | x in m
        ensures m[x] == 0
      {
        assert x in rest ==> rest[x] == 0;
      }
    }
  }

  // ----- exactly when the identity holds -----

  lemma HoldingsSplit(accounts: map<UserId, Account>)
    ensures Holdings(accounts) == Sum(BalanceColumn(accounts)) + Sum(LockColumn(accounts))
  {
    var a, b, c := BalanceColumn(accounts), LockColumn(accounts), Worths(accounts);
    assert a.Keys == accounts.Keys && b.Keys == accounts.Keys && c.Keys == accounts.Keys;
    forall u | u in c
      ensures c[u] == a[u] + b[u]
    {
      assert c[u] == Worth(accounts[u]);
    }
    SumOfSums(a, b, c);
  }

  lemma PooledSplit(pools: map<int, Pool>)
    ensures Pooled(pools) == Opened(pools) + Sum(RakeColumn(pools))
  {
    var a, b, c := PoolOpenings(pools), RakeColumn(pools), PoolAmounts(pools);
    assert a.Keys == pools.Keys && b.Keys == pools.Keys && c.Keys == pools.Keys;
    SumOfSums(a, b, c);
  }

  lemma LocksZeroIff(s: Ledger)
    requires Inv(s)
    ensures Sum(LockColumn(s.accounts)) >= 0
    ensures Sum(LockColumn(s.accounts)) == 0 <==> forall u :: u in s.accounts ==> s.accounts[u].locked == 0
  {
    var m := LockColumn(s.accounts);
    assert AllNonNegative(m);
    SumIsZeroIff(m);
    if AllZero(m) {
      forall u | u in s.accounts
        ensures s.accounts[u].locked == 0
      {
        assert m[u] == 0;
      }
    }
    if forall u :: u in s.accounts ==> s.accounts[u].locked == 0 {
      forall u | u in m
        ensures m[u] == 0
      {
        assert s.accounts[u].locked == 0;
      }
    }
  }

  lemma DeliveredZeroIff(s: Ledger)
    requires Inv(s)
    ensures TicketTotal(DeliveredGold, s.tickets) >= 0
    ensures TicketTotal(DeliveredGold, s.tickets) == 0 <==>
      forall i :: i in s.tickets && i.kind == WithdrawKind && s.tickets[i].status == Confirmed ==>
        s.tickets[i].amount == s.tickets[i].fee
  {
    TicketValuesNonNegative(s, DeliveredGold);
    var m := TicketValues(DeliveredGold, s.tickets);
    SumIsZeroIff(m);
    forall i | i in s.tickets
      ensures m[i] == 0 <==>
        (i.kind == WithdrawKind && s.tickets[i].status == Confirmed ==> s.tickets[i].amount == s.tickets[i].fee)
    {
    }
  }

  lemma RakesZeroIff(s: Ledger)
    requires Inv(s)
    ensures Sum(RakeColumn(s.pools)) >= 0
    ensures Sum(RakeColumn(s.pools)) == 0 <==> forall p :: p in s.pools ==> s.pools[p].amount == s.pools[p].opening
  {
    var m := RakeColumn(s.pools);
    forall p | p in m
      ensures m[p] >= 0
    {
      assert PoolOf(s, p).amount == PoolOf(s, p).opening + BetTotal(RakedTo(p), s.bets);
      BetValuesNonNegative(s, RakedTo(p));
    }
    SumIsZeroIff(m);
    if AllZero(m) {
      forall p | p in s.pools
        ensures s.pools[p].amount == s.pools[p].opening
      {
        assert m[p] == 0;
      }
    }
    if forall p :: p in s.pools ==> s.pools[p].amount == s.pools[p].opening {
      forall p | p in m
        ensures m[p] == 0
      {
        assert s.pools[p].amount == s.pools[p].opening;
      }
    }
  }

  /** The documented identity holds in a state that keeps the books if and only if no gold is locked,
      delivered or raked. */
  lemma DocumentedIff(s: Ledger)
    requires Inv(s)
    ensures Documented(s) <==> NothingElsewhere(s)
  {
    HoldingsSplit(s.accounts);
    PooledSplit(s.pools);
    LocksZeroIff(s);
    DeliveredZeroIff(s);
    RakesZeroIff(s);
  }

  /** The same over all runs. */
  lemma DocumentedOverRunsIff(steps: seq<Step>)
    requires ValidRun(steps)
    ensures Documented(Run(EMPTY, steps)) <==> NothingElsewhere(Run(EMPTY, steps))
  {
    ReachableInv(steps);
    DocumentedIff(Run(EMPTY, steps));
  }

  // ----- it fails as soon as a withdraw ticket is opened -----

  /** Whatever the state, the identity is false right after a withdraw ticket was opened. */
  lemma OpeningWithdrawBreaksIdentity(s: Ledger, step: Step)
    requires Inv(s) && step.CreateWithdraw? && ValidConfig(step) && Plan(s, step).Commit?
    ensures !Documented(Apply(s, step))
  {
    StepKeepsInv(s, step);
    OpenedWithdrawIsLive(s, step);
    LiveWithdrawBreaksIdentity(Apply(s, step), TicketId(WithdrawKind, step.serial));
  }

  lemma OpenedWithdrawIsLive(s: Ledger, step: Step)
    requires step.CreateWithdraw? && Plan(s, step).Commit?
    ensures var id, t := TicketId(WithdrawKind, step.serial), Apply(s, step).tickets;
      id in t && t[id].status == Open
  {
  }

  lemma LiveWithdrawBreaksIdentity(s: Ledger, id: TicketId)
    requires Inv(s) && id in s.tickets && id.kind == WithdrawKind && !Terminal(s.tickets[id].status)
    ensures !Documented(s)
  {
    LiveTicketIsCovered(s, id);
    assert TicketOk(s.users, id, s.tickets[id]);
    DocumentedIff(s);
  }

  // ----- a reachable failing run -----

  /** A new user deposits gold and asks to withdraw it again. */
  function OpenDeposit(u: UserId, amount: int, l: Limits): Step {
    CreateDeposit(1, u, amount, Some(l), "EU", "Horde", false, None, 0)
  }

  function ClaimDeposit(cashier: UserId): Step {
    ClaimTicket(TicketId(DepositKind, 1), cashier, true, None, 0)
  }

  function OpenWithdraw(u: UserId, amount: int, l: Limits): Step {
    CreateWithdraw(1, u, amount, Some(l), "EU", "Horde", 0)
  }

  function FailingRun(u: UserId, cashier: UserId, amount: int, l: Limits): seq<Step> {
    [OpenDeposit(u, amount, l), ClaimDeposit(cashier), ConfirmDeposit(1, cashier, 0), OpenWithdraw(u, amount, l)]
  }

  predicate Allows(l: Limits, amount: int) {
    0 < amount && l.min <= amount <= l.max && 0 <= l.feeBps <= 10000
  }

  lemma AfterOpen(s: Ledger, u: UserId, amount: int, l: Limits)
    requires s.tickets == map[] && TREASURY in s.users && Allows(l, amount)
    ensures var s' := Apply(s, OpenDeposit(u, amount, l));
      && s'.users == s.users && s'.accounts == s.accounts
      && s'.tickets == map[TicketId(DepositKind, 1) := Ticket(u, amount, 0, None, Open, None, None, 0, l.ttl)]
  {
  }

  lemma AfterClaim(s: Ledger, t: Ticket, cashier: UserId)
    requires s.tickets == map[TicketId(DepositKind, 1) := t] && t.status == Open && t.amount > 0 && t.fee >= 0
    requires TREASURY in s.users
    ensures var s' := Apply(s, ClaimDeposit(cashier));
      && s'.users == s.users && s'.accounts == s.accounts
      && s'.tickets == map[TicketId(DepositKind, 1) :=
           t.(status := Claimed, claimedBy := Some(cashier), claimedAt := Some(0), lastActivity := 0)]
  {
  }

  lemma AfterConfirm(s: Ledger, t: Ticket, cashier: UserId)
    requires s.tickets == map[TicketId(DepositKind, 1) := t] && t.status == Claimed && t.claimedBy == Some(cashier)
    requires t.amount > 0 && t.fee >= 0 && t.user !in s.users && t.user !in s.accounts
    ensures var s' := Apply(s, ConfirmDeposit(1, cashier, 0));
      && s'.users == s.users[t.user := false]
      && t.user in s'.accounts && s'.accounts[t.user].balance == t.amount && s'.accounts[t.user].locked == 0
      && NonNegative(s'.accounts[t.user])
      && s'.tickets.Keys == {TicketId(DepositKind, 1)}
  {
  }

  lemma WithdrawCommits(s: Ledger, u: UserId, amount: int, l: Limits)
    requires u in s.users && !s.users[u] && u in s.accounts && s.accounts[u].balance == amount
    requires NonNegative(s.accounts[u]) && TicketId(WithdrawKind, 1) !in s.tickets && Allows(l, amount)
    ensures Plan(s, OpenWithdraw(u, amount, l)).Commit?
  {
    CutsFit(amount, l.feeBps, 0);
  }

  lemma RunFour(a: Step, b: Step, c: Step, d: Step)
    ensures Run(EMPTY, [a, b, c]) == Apply(Apply(Apply(EMPTY, a), b), c)
    ensures Run(EMPTY, [a, b, c, d]) == Apply(Run(EMPTY, [a, b, c]), d)
  {
    assert [a, b, c, d][..3] == [a, b, c] && [a, b, c][..2] == [a, b] && [a, b][..1] == [a] && [a][..0] == [];
    assert Run(EMPTY, [a]) == Apply(EMPTY, a);
    assert Run(EMPTY, [a, b]) == Apply(Run(EMPTY, [a]), b);
  }

  lemma ReadyToWithdraw(u: UserId, cashier: UserId, amount: int, l: Limits)
    requires u != TREASURY && Allows(l, amount)
    ensures var s := Apply(Apply(Apply(EMPTY, OpenDeposit(u, amount, l)), ClaimDeposit(cashier)),
      ConfirmDeposit(1, cashier, 0));
      Plan(s, OpenWithdraw(u, amount, l)).Commit?
  {
    var t := Ticket(u, amount, 0, None, Open, None, None, 0, l.ttl);
    AfterOpen(EMPTY, u, amount, l);
    var s1 := Apply(EMPTY, OpenDeposit(u, amount, l));
    AfterClaim(s1, t, cashier);
    var s2 := Apply(s1, ClaimDeposit(cashier));
    AfterConfirm(s2, t.(status := Claimed, claimedBy := Some(cashier), claimedAt := Some(0), lastActivity := 0),
      cashier);
    WithdrawCommits(Apply(s2, ConfirmDeposit(1, cashier, 0)), u, amount, l);
  }

  lemma FailsAfter(before: seq<Step>, d: Step)
    requires ValidRun(before) && d.CreateWithdraw? && ValidConfig(d) && Plan(Run(EMPTY, before), d).Commit?
    ensures !Documented(Apply(Run(EMPTY, before), d))
  {
    ReachableInv(before);
    OpeningWithdrawBreaksIdentity(Run(EMPTY, before), d);
  }

  lemma FourFail(a: Step, b: Step, c: Step, d: Step)
    requires ValidConfig(a) && ValidConfig(b) && ValidConfig(c) && ValidConfig(d) && d.CreateWithdraw?
    requires Plan(Apply(Apply(Apply(EMPTY, a), b), c), d).Commit?
    ensures ValidRun([a, b, c, d]) && !Documented(Run(EMPTY, [a, b, c, d]))
  {
    RunFour(a, b, c, d);
    FailsAfter([a, b, c], d);
  }

  /** The documented identity is false after this run, which any new user can produce. */
  lemma IdentityFails(u: UserId, cashier: UserId, amount: int, l: Limits)
    requires u != TREASURY && Allows(l, amount)
    ensures ValidRun(FailingRun(u, cashier, amount, l))
    ensures !Documented(Run(EMPTY, FailingRun(u, cashier, amount, l)))
  {
    ReadyToWithdraw(u, cashier, amount, l);
    FourFail(OpenDeposit(u, amount, l), ClaimDeposit(cashier), ConfirmDeposit(1, cashier, 0),
      OpenWithdraw(u, amount, l));
  }
}
