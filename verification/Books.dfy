/**
 The books of the ledger: what the gold in the tables must add up to, and the proof that every
 committing procedure keeps them. Each equation compares a stored column with a sum taken over
 other tables, so it spans both bots.
 */
module Books {
  import opened Sums
  import opened Ledger

  // ----- sums over the tables -----

  datatype TicketMeasure = LockedFor(user: UserId) | DeliveredGold | DepositedGold

  function TicketValue(m: TicketMeasure, id: TicketId, t: Ticket): int {
    match m
    case LockedFor(u) => if id.kind == WithdrawKind && t.user == u && !Terminal(t.status) then t.amount else 0
    case DeliveredGold => if id.kind == WithdrawKind && t.status == Confirmed then t.amount - t.fee else 0
    case DepositedGold => if id.kind == DepositKind && t.status == Confirmed then t.amount else 0
  }

  function TicketValues(m: TicketMeasure, tickets: map<TicketId, Ticket>): map<TicketId, int> {
    map i | i in tickets :: TicketValue(m, i, tickets[i])
  }

  ghost function TicketTotal(m: TicketMeasure, tickets: map<TicketId, Ticket>): int {
    Sum(TicketValues(m, tickets))
  }

  datatype BetMeasure = StakedBy(user: UserId) | WageredBy(user: UserId) | RakedTo(period: int) | TreasuryShare

  /** `TreasuryShare` is the part of the treasury that bets moved there without an audit row. */
  function BetValue(m: BetMeasure, b: Bet): int {
    match m
    case StakedBy(u) => if b.user == u && b.status == BetOpen then b.stake else 0
    case WageredBy(u) => if b.user == u && b.status != Refunded then b.amount else 0
    case RakedTo(p) => if b.period == Some(p) && b.status != Refunded then b.rake else 0
    case TreasuryShare =>
      if b.status == Refunded then 0
      else
        var cuts := b.commission + if b.period.None? then b.rake else 0;
        if b.status == Win then cuts + b.stake - b.payout else if b.status == Loss then cuts + b.stake else cuts
  }

  function BetValues(m: BetMeasure, bets: map<int, Bet>): map<int, int> {
    map i | i in bets :: BetValue(m, bets[i])
  }

  ghost function BetTotal(m: BetMeasure, bets: map<int, Bet>): int {
    Sum(BetValues(m, bets))
  }

  function Worth(a: Account): int {
    a.balance + a.locked
  }

  function Worths(accounts: map<UserId, Account>): map<UserId, int> {
    map u | u in accounts :: Worth(accounts[u])
  }

  ghost function Holdings(accounts: map<UserId, Account>): int {
    Sum(Worths(accounts))
  }

  function PoolAmounts(pools: map<int, Pool>): map<int, int> {
    map p | p in pools :: pools[p].amount
  }

  function PoolOpenings(pools: map<int, Pool>): map<int, int> {
    map p | p in pools :: pools[p].opening
  }

  ghost function Pooled(pools: map<int, Pool>): int {
    Sum(PoolAmounts(pools))
  }

  ghost function Opened(pools: map<int, Pool>): int {
    Sum(PoolOpenings(pools))
  }

  function PoolIn(pools: map<int, Pool>, p: int): Pool {
    if p in pools then pools[p] else Pool(0, 0)
  }

  function PoolOf(s: Ledger, p: int): Pool {
    PoolIn(s.pools, p)
  }

  // ----- sums over the audit log -----

  function NetOf(r: AuditRow, u: UserId): int {
    if r.target == u then r.after - r.before else 0
  }

  function AuditNet(rows: seq<AuditRow>, u: UserId): int {
    if rows == [] then 0 else AuditNet(rows[..|rows| - 1], u) + NetOf(rows[|rows| - 1], u)
  }

  function SweptGold(rows: seq<AuditRow>): int {
    if rows == [] then 0
    else
      var r := rows[|rows| - 1];
      SweptGold(rows[..|rows| - 1]) + if r.action == TreasurySwept then r.amount else 0
  }

  lemma {:induction false} AuditAppend(a: seq<AuditRow>, b: seq<AuditRow>, u: UserId)
    ensures AuditNet(a + b, u) == AuditNet(a, u) + AuditNet(b, u)
    ensures SweptGold(a + b) == SweptGold(a) + SweptGold(b)
    decreases |b|
  {
    if b == [] {
      assert a + b == a;
    } else {
      var b' := b[..|b| - 1];
      AuditAppend(a, b', u);
      assert (a + b)[..|a + b| - 1] == a + b';
    }
  }

  // ----- the equations -----

  /** Gold in accounts and pools, delivered in game, or swept, is exactly the gold deposited plus
      the pools' opening amounts. */
  ghost predicate Conserved(s: Ledger) {
    Holdings(s.accounts) + Pooled(s.pools) + TicketTotal(DeliveredGold, s.tickets) + SweptGold(s.audit)
    == TicketTotal(DepositedGold, s.tickets) + Opened(s.pools)
  }

  /** Both bots share `locked_balance`: it is the user's live withdraws plus their open stakes. */
  ghost predicate LockBacked(s: Ledger) {
    forall u: UserId :: LockedIn(s.accounts, u) == TicketTotal(LockedFor(u), s.tickets) + BetTotal(StakedBy(u), s.bets)
  }

  ghost predicate WagerBacked(s: Ledger) {
    forall u: UserId :: WageredIn(s.accounts, u) == BetTotal(WageredBy(u), s.bets)
  }

  ghost predicate PoolBacked(s: Ledger) {
    forall p: int :: PoolOf(s, p).amount == PoolOf(s, p).opening + BetTotal(RakedTo(p), s.bets)
  }

  /** Replaying the audit log gives every balance; the treasury also holds the bets' share. */
  ghost predicate AuditReplays(s: Ledger) {
    forall u: UserId ::
      BalanceIn(s.accounts, u) == AuditNet(s.audit, u) + (if u == TREASURY then BetTotal(TreasuryShare, s.bets) else 0)
  }

  ghost predicate BooksBalance(s: Ledger) {
    Conserved(s) && LockBacked(s) && WagerBacked(s) && PoolBacked(s) && AuditReplays(s)
  }

  // ----- what a write set does to each sum -----

  function TicketDelta(m: TicketMeasure, s: Ledger, w: WriteSet): int {
    if w.ticket.None? then 0
    else
      var (i, t) := w.ticket.value;
      TicketValue(m, i, t) - (if i in s.tickets then TicketValue(m, i, s.tickets[i]) else 0)
  }

  function BetDelta(m: BetMeasure, s: Ledger, w: WriteSet): int {
    if w.bet.None? then 0
    else
      var (i, b) := w.bet.value;
      BetValue(m, b) - (if i in s.bets then BetValue(m, s.bets[i]) else 0)
  }

  function PooledDelta(s: Ledger, w: WriteSet): int {
    if w.pool.None? then 0 else w.pool.value.1.amount - PoolOf(s, w.pool.value.0).amount
  }

  function OpenedDelta(s: Ledger, w: WriteSet): int {
    if w.pool.None? then 0 else w.pool.value.1.opening - PoolOf(s, w.pool.value.0).opening
  }

  function Gold(accounts: map<UserId, Account>, u: UserId): int {
    if u in accounts then Worth(accounts[u]) else 0
  }

  function HoldingsDelta(s: Ledger, w: WriteSet): int {
    var m := Put(s.accounts, w.account);
    (if w.account.None? then 0 else Gold(m, w.account.value.0) - Gold(s.accounts, w.account.value.0))
    + (if w.treasury.None? then 0 else Worth(w.treasury.value) - Gold(m, TREASURY))
  }

  lemma TicketValuesPut(m: TicketMeasure, tickets: map<TicketId, Ticket>, i: TicketId, t: Ticket)
    ensures TicketValues(m, tickets[i := t]) == TicketValues(m, tickets)[i := TicketValue(m, i, t)]
  {
  }

  lemma BetValuesPut(m: BetMeasure, bets: map<int, Bet>, i: int, b: Bet)
    ensures BetValues(m, bets[i := b]) == BetValues(m, bets)[i := BetValue(m, b)]
  {
  }

  lemma TicketTotalPut(m: TicketMeasure, s: Ledger, w: WriteSet)
    ensures TicketTotal(m, Install(s, w).tickets) == TicketTotal(m, s.tickets) + TicketDelta(m, s, w)
  {
    if w.ticket.Some? {
      var (i, t) := w.ticket.value;
      TicketValuesPut(m, s.tickets, i, t);
      SumPut(TicketValues(m, s.tickets), i, TicketValue(m, i, t));
    }
  }

  lemma BetTotalPut(m: BetMeasure, s: Ledger, w: WriteSet)
    ensures BetTotal(m, Install(s, w).bets) == BetTotal(m, s.bets) + BetDelta(m, s, w)
  {
    if w.bet.Some? {
      var (i, b) := w.bet.value;
      BetValuesPut(m, s.bets, i, b);
      SumPut(BetValues(m, s.bets), i, BetValue(m, b));
    }
  }

  lemma PoolValuesPut(pools: map<int, Pool>, i: int, p: Pool)
    ensures PoolAmounts(pools[i := p]) == PoolAmounts(pools)[i := p.amount]
    ensures PoolOpenings(pools[i := p]) == PoolOpenings(pools)[i := p.opening]
  {
  }

  lemma PooledPut(s: Ledger, w: WriteSet)
    ensures Pooled(Install(s, w).pools) == Pooled(s.pools) + PooledDelta(s, w)
    ensures Opened(Install(s, w).pools) == Opened(s.pools) + OpenedDelta(s, w)
  {
    if w.pool.Some? {
      var (i, p) := w.pool.value;
      PoolValuesPut(s.pools, i, p);
      SumPut(PoolAmounts(s.pools), i, p.amount);
      SumPut(PoolOpenings(s.pools), i, p.opening);
    }
  }

  lemma HoldingsPutOne(accounts: map<UserId, Account>, u: UserId, a: Account)
    ensures Holdings(accounts[u := a]) == Holdings(accounts) + Worth(a) - Gold(accounts, u)
  {
    WorthsPut(accounts, u, a);
    SumPut(Worths(accounts), u, Worth(a));
  }

  lemma WorthsPut(accounts: map<UserId, Account>, u: UserId, a: Account)
    ensures Worths(accounts[u := a]) == Worths(accounts)[u := Worth(a)]
  {
  }

  lemma HoldingsPut(s: Ledger, w: WriteSet)
    ensures Holdings(AccountsAfter(s.accounts, w)) == Holdings(s.accounts) + HoldingsDelta(s, w)
  {
    if w.account.Some? {
      HoldingsPutOne(s.accounts, w.account.value.0, w.account.value.1);
    }
    if w.treasury.Some? {
      HoldingsPutOne(Put(s.accounts, w.account), TREASURY, w.treasury.value);
    }
  }

  // ----- balanced write sets -----

  ghost predicate GoldBalanced(s: Ledger, w: WriteSet) {
    HoldingsDelta(s, w) + PooledDelta(s, w) + TicketDelta(DeliveredGold, s, w) + SweptGold(w.audit)
    == TicketDelta(DepositedGold, s, w) + OpenedDelta(s, w)
  }

  ghost predicate LocksBalanced(s: Ledger, w: WriteSet) {
    forall u: UserId ::
      LockedIn(AccountsAfter(s.accounts, w), u) - LockedIn(s.accounts, u)
      == TicketDelta(LockedFor(u), s, w) + BetDelta(StakedBy(u), s, w)
  }

  ghost predicate WagersBalanced(s: Ledger, w: WriteSet) {
    forall u: UserId ::
      WageredIn(AccountsAfter(s.accounts, w), u) - WageredIn(s.accounts, u) == BetDelta(WageredBy(u), s, w)
  }

  ghost predicate PoolsBalanced(s: Ledger, w: WriteSet) {
    forall p: int ::
      PoolIn(Put(s.pools, w.pool), p).amount - PoolIn(s.pools, p).amount
      == PoolIn(Put(s.pools, w.pool), p).opening - PoolIn(s.pools, p).opening + BetDelta(RakedTo(p), s, w)
  }

  ghost predicate AuditBalanced(s: Ledger, w: WriteSet) {
    forall u: UserId ::
      BalanceIn(AccountsAfter(s.accounts, w), u) - BalanceIn(s.accounts, u)
      == AuditNet(w.audit, u) + (if u == TREASURY then BetDelta(TreasuryShare, s, w) else 0)
  }

  ghost predicate Balanced(s: Ledger, w: WriteSet) {
    GoldBalanced(s, w) && LocksBalanced(s, w) && WagersBalanced(s, w) && PoolsBalanced(s, w) && AuditBalanced(s, w)
  }

  /** A balanced write set keeps the books, whatever procedure produced it. */
  lemma BalancedKeepsBooks(s: Ledger, w: WriteSet)
    requires BooksBalance(s) && Balanced(s, w)
    ensures BooksBalance(Install(s, w))
  {
    var s' := Install(s, w);
    HoldingsPut(s, w);
    PooledPut(s, w);
    TicketTotalPut(DeliveredGold, s, w);
    TicketTotalPut(DepositedGold, s, w);
    AuditAppend(s.audit, w.audit, TREASURY);
    LocksKept(s, w);
    PoolsKept(s, w);
    AuditKept(s, w);
  }

  lemma LocksKept(s: Ledger, w: WriteSet)
    requires LockBacked(s) && WagerBacked(s) && LocksBalanced(s, w) && WagersBalanced(s, w)
    ensures LockBacked(Install(s, w)) && WagerBacked(Install(s, w))
  {
    var s' := Install(s, w);
    forall u: UserId
      ensures LockedIn(s'.accounts, u) == TicketTotal(LockedFor(u), s'.tickets) + BetTotal(StakedBy(u), s'.bets)
      ensures WageredIn(s'.accounts, u) == BetTotal(WageredBy(u), s'.bets)
    {
      TicketTotalPut(LockedFor(u), s, w);
      BetTotalPut(StakedBy(u), s, w);
      BetTotalPut(WageredBy(u), s, w);
    }
  }

  lemma PoolsKept(s: Ledger, w: WriteSet)
    requires PoolBacked(s) && PoolsBalanced(s, w)
    ensures PoolBacked(Install(s, w))
  {
    var s' := Install(s, w);
    forall p: int
      ensures PoolOf(s', p).amount == PoolOf(s', p).opening + BetTotal(RakedTo(p), s'.bets)
    {
      BetTotalPut(RakedTo(p), s, w);
    }
  }

  lemma AuditKept(s: Ledger, w: WriteSet)
    requires AuditReplays(s) && AuditBalanced(s, w)
    ensures AuditReplays(Install(s, w))
  {
    var s' := Install(s, w);
    BetTotalPut(TreasuryShare, s, w);
    forall u: UserId
      ensures BalanceIn(s'.accounts, u)
           == AuditNet(s'.audit, u) + (if u == TREASURY then BetTotal(TreasuryShare, s'.bets) else 0)
    {
      AuditAppend(s.audit, w.audit, u);
    }
  }

  lemma EmptyBooksBalance()
    ensures BooksBalance(EMPTY)
  {
    HoldingsPutOne(map[], TREASURY, NO_GOLD);
    assert EMPTY.accounts == map[][TREASURY := NO_GOLD];
  }
}
