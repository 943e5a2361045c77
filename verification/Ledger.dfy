/**
 The gold ledger shared by the deposit/withdraw bot and the Luck bot: rows, stored procedures
 as write-set planners, and the installation of a write set.

 A stored procedure reads rows under `FOR UPDATE`, decides, and either raises (nothing changes)
 or commits a write set. Every value a procedure reads WITHOUT a row lock (configuration, the
 cashier's characters, the active raffle period, the duplicate-bet look-up, a balance read only
 to be copied into an audit row) is an argument of the step: another transaction may change it
 before the commit, so the results below hold for whatever was read.
 */
module Ledger {
  import opened Sums

  type UserId = int
  type Time = int

  const TREASURY: UserId := 0

  // ----- rows -----

  datatype Account = Account(balance: int, locked: int, wagered: int, won: int)

  const NO_GOLD := Account(0, 0, 0, 0)

  datatype Kind = DepositKind | WithdrawKind

  datatype TicketId = TicketId(kind: Kind, serial: int)

  datatype TicketStatus = Open | Claimed | Confirmed | Cancelled | Expired | Disputed

  datatype Ticket = Ticket(
    user: UserId, amount: int, fee: int, delivered: Option<int>, status: TicketStatus,
    claimedBy: Option<UserId>, claimedAt: Option<Time>, lastActivity: Time, expires: Time)

  datatype BetStatus = BetOpen | Win | Loss | Tie | Refunded | Voided

  datatype Bet = Bet(
    user: UserId, key: string, game: string, amount: int, stake: int, commission: int, rake: int,
    period: Option<int>, status: BetStatus, payout: int)

  /** `opening` is the pool the period row was inserted with. */
  datatype Pool = Pool(opening: int, amount: int)

  datatype DisputeStatus = DisputeOpen | DisputeResolved | DisputeRejected

  datatype Action =
    | DepositOpened | DepositConfirmed | DepositCancelled
    | WithdrawLocked | WithdrawConfirmed | FeeCredited | WithdrawRefunded
    | TicketClaimed | TicketReleased
    | TreasurySwept | TreasuryDebited | TreasuryCredited
    | BetPlaced | BetResolved | BetRefunded
    | DisputeChanged | BanChanged

  datatype Ref = TicketRef(ticket: TicketId) | BetRef(bet: int) | NoRef

  datatype AuditRow = AuditRow(action: Action, target: UserId, amount: int, before: int, after: int, ref: Ref)

  /** `keys` is the UNIQUE index on (discord_id, idempotency_key); `users` maps to the banned flag;
      a dispute is identified by its ticket, which its UNIQUE constraint allows. */
  datatype Ledger = Ledger(
    users: map<UserId, bool>, accounts: map<UserId, Account>, tickets: map<TicketId, Ticket>,
    bets: map<int, Bet>, keys: map<(UserId, string), int>, pools: map<int, Pool>,
    disputes: map<TicketId, DisputeStatus>, audit: seq<AuditRow>)

  /** The migrated database before any call: only the treasury row at id 0. */
  const EMPTY := Ledger(map[TREASURY := false], map[TREASURY := NO_GOLD], map[], map[], map[], map[], map[], [])

  predicate Terminal(st: TicketStatus) {
    st in {Confirmed, Cancelled, Expired}
  }

  // ----- write sets -----

  /** New row versions of one transaction. `treasury` is the version of account 0 written after
      `account`, so it wins when the acting user is the treasury itself. */
  datatype WriteSet = WriteSet(
    user: Option<(UserId, bool)>, account: Option<(UserId, Account)>, treasury: Option<Account>,
    ticket: Option<(TicketId, Ticket)>, bet: Option<(int, Bet)>, key: Option<((UserId, string), int)>,
    pool: Option<(int, Pool)>, dispute: Option<(TicketId, DisputeStatus)>, audit: seq<AuditRow>)

  const NO_WRITES := WriteSet(None, None, None, None, None, None, None, None, [])

  datatype Error =
    | TicketNotFound | TicketNotClaimed | TicketAlreadyTerminal | AlreadyClaimed | WrongCashier
    | RegionMismatch | ConfigMissing | AmountOutOfRange | InvalidRegion | InvalidFaction
    | UserNotRegistered | UserIsBanned | InsufficientBalance | LockedTooLow
    | AmountNotPositive | InsufficientTreasury | CannotPayTreasury | TreasuryRowMissing | CannotBanTreasury
    | DisputeNotFound | DisputeAlreadyTerminal | InvalidAction | InvalidOpenerRole | RefundOnlyForWithdraws
    | UnknownGame | GamePaused | BetOutOfRange | BetNotFound | BetAlreadyTerminal | InvalidStatus
    | InvalidPayout | InvalidMultiplier | NotMinesBet
    | UniqueViolation | NotNullViolation | ConstraintViolation

  /** A procedure either raises or commits its write set; `reply` is the value it returns. */
  datatype Outcome = Abort(error: Error) | Commit(writes: WriteSet, reply: Option<int>)

  predicate NonNegative(a: Account) {
    a.balance >= 0 && a.locked >= 0 && a.wagered >= 0 && a.won >= 0
  }

  /** The CHECK and FOREIGN KEY constraints on the rows a transaction writes. */
  predicate Admissible(s: Ledger, w: WriteSet) {
    && (w.account.Some? ==> NonNegative(w.account.value.1))
    && (w.treasury.Some? ==> NonNegative(w.treasury.value))
    && (w.ticket.Some? ==> w.ticket.value.1.amount > 0 && w.ticket.value.1.fee >= 0)
    && (w.bet.Some? ==> w.bet.value.1.amount > 0 && w.bet.value.1.payout >= 0)
    && (w.pool.Some? ==> w.pool.value.1.amount >= 0)
    && forall r :: r in w.audit ==> r.target in Put(s.users, w.user)
  }

  function Checked(s: Ledger, w: WriteSet, reply: Option<int>): Outcome {
    if Admissible(s, w) then Commit(w, reply) else Abort(ConstraintViolation)
  }

  function PutTreasury(m: map<UserId, Account>, t: Option<Account>): map<UserId, Account> {
    if t.Some? then m[TREASURY := t.value] else m
  }

  function AccountsAfter(accounts: map<UserId, Account>, w: WriteSet): map<UserId, Account> {
    PutTreasury(Put(accounts, w.account), w.treasury)
  }

  /** The committed state after the new row versions become visible. */
  function Install(s: Ledger, w: WriteSet): Ledger {
    Ledger(
      Put(s.users, w.user), AccountsAfter(s.accounts, w), Put(s.tickets, w.ticket),
      Put(s.bets, w.bet), Put(s.keys, w.key), Put(s.pools, w.pool), Put(s.disputes, w.dispute),
      s.audit + w.audit)
  }

  // ----- small readers -----

  function AccountOf(s: Ledger, u: UserId): Account {
    if u in s.accounts then s.accounts[u] else NO_GOLD
  }

  function BalanceIn(accounts: map<UserId, Account>, u: UserId): int {
    if u in accounts then accounts[u].balance else 0
  }

  function LockedIn(accounts: map<UserId, Account>, u: UserId): int {
    if u in accounts then accounts[u].locked else 0
  }

  function WageredIn(accounts: map<UserId, Account>, u: UserId): int {
    if u in accounts then accounts[u].wagered else 0
  }

  function WonIn(accounts: map<UserId, Account>, u: UserId): int {
    if u in accounts then accounts[u].won else 0
  }

  /** `INSERT INTO core.users ... ON CONFLICT DO NOTHING`. */
  function EnsureUser(s: Ledger, u: UserId): Option<(UserId, bool)> {
    if u in s.users then None else Some((u, false))
  }

  /** The target an audit row gets when the user's row may not exist yet: COALESCE(..., 0). */
  function TargetOf(u: UserId, seen: Option<int>): UserId {
    if seen.Some? then u else TREASURY
  }

  function SeenBalance(seen: Option<int>): int {
    if seen.Some? then seen.value else 0
  }

  /** The audit row of a ticket change that moves no gold: before and after are the balance seen. */
  function StillRow(action: Action, user: UserId, amount: int, seen: Option<int>, id: TicketId): AuditRow {
    AuditRow(action, TargetOf(user, seen), amount, SeenBalance(seen), SeenBalance(seen), TicketRef(id))
  }

  /** The owner's balance as copied into an audit row; none when the user has no row yet. */
  function SeenIn(s: Ledger, u: UserId): Option<int> {
    if u !in s.users then None else Some(BalanceIn(s.accounts, u))
  }

  function SeenFor(s: Ledger, id: TicketId): Option<int> {
    if id in s.tickets then SeenIn(s, s.tickets[id].user) else None
  }

  /** BIGINT division truncates toward zero. */
  function TruncDiv(a: int, b: int): int
    requires b > 0
  {
    if a >= 0 then a / b else -((-a) / b)
  }

  function Gain(a: Account, d: int): Account {
    Account(a.balance + d, a.locked, a.wagered, a.won)
  }

  /** `UPDATE core.balances SET balance = balance + d WHERE discord_id = 0`, on top of `w`. */
  function AddTreasury(s: Ledger, w: WriteSet, d: int): WriteSet {
    var accounts := AccountsAfter(s.accounts, w);
    if TREASURY in accounts then w.(treasury := Some(Gain(accounts[TREASURY], d))) else w
  }

  // ----- deposits -----

  datatype Limits = Limits(min: int, max: int, feeBps: int, ttl: int)

  function NewTicket(user: UserId, amount: int, fee: int, ttl: int, now: Time): Ticket {
    Ticket(user, amount, fee, None, Open, None, None, now, now + ttl)
  }

  function PlanCreateDeposit(s: Ledger, serial: int, user: UserId, amount: int, limits: Option<Limits>,
      region: string, faction: string, bannedSeen: bool, seen: Option<int>, now: Time): Outcome {
    var id := TicketId(DepositKind, serial);
    if bannedSeen then Abort(UserIsBanned)
    else if limits.None? then Abort(ConfigMissing)
    else if amount < limits.value.min || amount > limits.value.max then Abort(AmountOutOfRange)
    else if region !in ["EU", "NA"] then Abort(InvalidRegion)
    else if faction !in ["Alliance", "Horde"] then Abort(InvalidFaction)
    else if id in s.tickets then Abort(UniqueViolation)
    else
      Checked(s, NO_WRITES.(
        ticket := Some((id, NewTicket(user, amount, 0, limits.value.ttl, now))),
        audit := [StillRow(DepositOpened, user, amount, seen, id)]),
        Some(serial))
  }

  function PlanConfirmDeposit(s: Ledger, serial: int, cashier: UserId, now: Time): Outcome {
    var id := TicketId(DepositKind, serial);
    if id !in s.tickets then Abort(TicketNotFound)
    else
      var t := s.tickets[id];
      if t.status == Confirmed && t.claimedBy == Some(cashier) then
        Commit(NO_WRITES, if t.user in s.accounts then Some(s.accounts[t.user].balance) else None)
      else if t.status != Claimed then Abort(TicketNotClaimed)
      else if t.claimedBy.Some? && t.claimedBy.value != cashier then Abort(WrongCashier)
      else
        Checked(s, ConfirmDepositWrites(s, id, now), Some(AccountOf(s, t.user).balance + t.amount))
  }

  function ConfirmDepositWrites(s: Ledger, id: TicketId, now: Time): WriteSet
    requires id in s.tickets
  {
    var t := s.tickets[id];
    var a := AccountOf(s, t.user);
    NO_WRITES.(
      user := EnsureUser(s, t.user),
      account := Some((t.user, Gain(a, t.amount))),
      ticket := Some((id, t.(status := Confirmed, lastActivity := now))),
      audit := [AuditRow(DepositConfirmed, t.user, t.amount, a.balance, a.balance + t.amount, TicketRef(id))])
  }

  function PlanCancelDeposit(s: Ledger, serial: int, seen: Option<int>, now: Time): Outcome {
    var id := TicketId(DepositKind, serial);
    if id !in s.tickets then Abort(TicketNotFound)
    else
      var t := s.tickets[id];
      if Terminal(t.status) then Abort(TicketAlreadyTerminal)
      else
        Checked(s, NO_WRITES.(
          ticket := Some((id, t.(status := Cancelled, lastActivity := now))),
          audit := [StillRow(DepositCancelled, t.user, t.amount, seen, id)]),
          None)
  }

  // ----- withdraws -----

  function Fee(amount: int, bps: int): int {
    TruncDiv(amount * bps, 10000)
  }

  function PlanCreateWithdraw(s: Ledger, serial: int, user: UserId, amount: int, limits: Option<Limits>,
      region: string, faction: string, now: Time): Outcome {
    var id := TicketId(WithdrawKind, serial);
    if limits.None? then Abort(ConfigMissing)
    else if amount < limits.value.min || amount > limits.value.max then Abort(AmountOutOfRange)
    else if region !in ["EU", "NA"] then Abort(InvalidRegion)
    else if faction !in ["Alliance", "Horde"] then Abort(InvalidFaction)
    else if user !in s.users then Abort(UserNotRegistered)
    else if s.users[user] then Abort(UserIsBanned)
    else if user !in s.accounts then Abort(NotNullViolation) // the audit row's balance_before is NULL
    else if s.accounts[user].balance < amount then Abort(InsufficientBalance)
    else if id in s.tickets then Abort(UniqueViolation)
    else
      Checked(s, CreateWithdrawWrites(s, id, user, amount, limits.value, now), Some(serial))
  }

  function CreateWithdrawWrites(s: Ledger, id: TicketId, user: UserId, amount: int, limits: Limits, now: Time): WriteSet
    requires user in s.accounts
  {
    var a := s.accounts[user];
    NO_WRITES.(
      account := Some((user, Account(a.balance - amount, a.locked + amount, a.wagered, a.won))),
      ticket := Some((id, NewTicket(user, amount, Fee(amount, limits.feeBps), limits.ttl, now))),
      audit := [AuditRow(WithdrawLocked, user, amount, a.balance, a.balance - amount, TicketRef(id))])
  }

  function PlanConfirmWithdraw(s: Ledger, serial: int, cashier: UserId, now: Time): Outcome {
    var id := TicketId(WithdrawKind, serial);
    if id !in s.tickets then Abort(TicketNotFound)
    else
      var t := s.tickets[id];
      if t.status == Confirmed && t.claimedBy == Some(cashier) then
        Commit(NO_WRITES, if t.user in s.accounts then Some(s.accounts[t.user].balance) else None)
      else if t.status != Claimed then Abort(TicketNotClaimed)
      else if t.claimedBy.Some? && t.claimedBy.value != cashier then Abort(WrongCashier)
      else if t.user !in s.accounts || TREASURY !in s.accounts then Abort(NotNullViolation)
      else if s.accounts[t.user].locked < t.amount then Abort(LockedTooLow)
      else
        Checked(s, AddTreasury(s, ConfirmWithdrawBase(s, id, now), t.fee), Some(s.accounts[t.user].balance))
  }

  function ConfirmWithdrawBase(s: Ledger, id: TicketId, now: Time): WriteSet
    requires id in s.tickets && s.tickets[id].user in s.accounts && TREASURY in s.accounts
  {
    var t := s.tickets[id];
    var a := s.accounts[t.user];
    var treasury := s.accounts[TREASURY].balance;
    NO_WRITES.(
      account := Some((t.user, Account(a.balance, a.locked - t.amount, a.wagered, a.won))),
      ticket := Some((id, t.(status := Confirmed, delivered := Some(t.amount - t.fee), lastActivity := now))),
      audit := [AuditRow(WithdrawConfirmed, t.user, t.amount, a.balance, a.balance, TicketRef(id)),
                AuditRow(FeeCredited, TREASURY, t.fee, treasury, treasury + t.fee, TicketRef(id))])
  }

  function PlanCancelWithdraw(s: Ledger, serial: int, now: Time): Outcome {
    var id := TicketId(WithdrawKind, serial);
    if id !in s.tickets then Abort(TicketNotFound)
    else
      var t := s.tickets[id];
      if Terminal(t.status) then Abort(TicketAlreadyTerminal)
      else if t.user !in s.accounts then Abort(NotNullViolation)
      else if s.accounts[t.user].locked < t.amount then Abort(LockedTooLow)
      else
        Checked(s, CancelWithdrawWrites(s, id, now), Some(s.accounts[t.user].balance + t.amount))
  }

  function CancelWithdrawWrites(s: Ledger, id: TicketId, now: Time): WriteSet
    requires id in s.tickets && s.tickets[id].user in s.accounts
  {
    var t := s.tickets[id];
    var a := s.accounts[t.user];
    var after := a.balance + t.amount;
    NO_WRITES.(
      account := Some((t.user, Account(after, a.locked - t.amount, a.wagered, a.won))),
      ticket := Some((id, t.(status := Cancelled, lastActivity := now))),
      audit := [AuditRow(WithdrawRefunded, t.user, t.amount, a.balance, after, TicketRef(id))])
  }

  // ----- claim and release -----

  function ClaimedBy(t: Ticket, cashier: UserId, now: Time): Ticket {
    t.(status := Claimed, claimedBy := Some(cashier), claimedAt := Some(now), lastActivity := now)
  }

  function PlanClaim(s: Ledger, id: TicketId, cashier: UserId, regionMatch: bool, seen: Option<int>,
      now: Time): Outcome {
    if id !in s.tickets then Abort(TicketNotFound)
    else
      var t := s.tickets[id];
      if t.status != Open then Abort(AlreadyClaimed)
      else if !regionMatch then Abort(RegionMismatch)
      else
        Checked(s, NO_WRITES.(
          ticket := Some((id, ClaimedBy(t, cashier, now))),
          audit := [StillRow(TicketClaimed, t.user, t.amount, seen, id)]),
          None)
  }

  function PlanRelease(s: Ledger, id: TicketId, actor: UserId, seen: Option<int>, now: Time): Outcome {
    if id !in s.tickets then Abort(TicketNotFound)
    else
      var t := s.tickets[id];
      if t.status != Claimed then Abort(TicketNotClaimed)
      else if t.claimedBy.Some? && t.claimedBy.value != actor then Abort(WrongCashier)
      else
        Checked(s, NO_WRITES.(
          ticket := Some((id, t.(status := Open, claimedBy := None, claimedAt := None, lastActivity := now))),
          audit := [StillRow(TicketReleased, t.user, t.amount, seen, id)]),
          None)
  }

  // ----- treasury and disputes -----

  function PlanSweep(s: Ledger, amount: int): Outcome {
    if amount <= 0 then Abort(AmountNotPositive)
    else if TREASURY !in s.accounts then Abort(TreasuryRowMissing)
    else if s.accounts[TREASURY].balance < amount then Abort(InsufficientTreasury)
    else Checked(s, SweepWrites(s, amount), Some(s.accounts[TREASURY].balance - amount))
  }

  function SweepWrites(s: Ledger, amount: int): WriteSet
    requires TREASURY in s.accounts
  {
    var before := s.accounts[TREASURY].balance;
    AddTreasury(s, NO_WRITES.(
      audit := [AuditRow(TreasurySwept, TREASURY, amount, before, before - amount, NoRef)]), -amount)
  }

  function PlanTreasuryToUser(s: Ledger, amount: int, target: UserId): Outcome {
    if amount <= 0 then Abort(AmountNotPositive)
    else if target == TREASURY then Abort(CannotPayTreasury)
    else if TREASURY !in s.accounts then Abort(TreasuryRowMissing)
    else if s.accounts[TREASURY].balance < amount then Abort(InsufficientTreasury)
    else Checked(s, TreasuryToUserWrites(s, amount, target), None)
  }

  function TreasuryToUserWrites(s: Ledger, amount: int, target: UserId): WriteSet
    requires TREASURY in s.accounts
  {
    var before := s.accounts[TREASURY].balance;
    var a := AccountOf(s, target);
    AddTreasury(s, NO_WRITES.(
      user := EnsureUser(s, target),
      account := Some((target, a.(balance := a.balance + amount))),
      audit := [AuditRow(TreasuryDebited, TREASURY, amount, before, before - amount, NoRef),
                AuditRow(TreasuryCredited, target, amount, a.balance, a.balance + amount, NoRef)]), -amount)
  }

  function PlanOpenDispute(s: Ledger, id: TicketId, roleValid: bool): Outcome {
    if !roleValid then Abort(InvalidOpenerRole)
    else if id !in s.tickets then Abort(TicketNotFound)
    else if id in s.disputes then Abort(UniqueViolation)
    else
      Checked(s, NO_WRITES.(
        dispute := Some((id, DisputeOpen)),
        audit := [AuditRow(DisputeChanged, s.tickets[id].user, 0, 0, 0, NoRef)]), None)
  }

  datatype Resolution = NoAction | RefundFull | ForceConfirm | PartialRefund | OtherAction

  /** The gold a resolution pays the ticket's user out of the treasury. */
  function Payout(action: Resolution, amount: int, t: Ticket): Option<int> {
    match action
    case PartialRefund => Some(amount)
    case RefundFull => Some(t.amount)
    case _ => None
  }

  function PlanResolveDispute(s: Ledger, id: TicketId, action: Resolution, amount: int): Outcome {
    if id !in s.disputes || id !in s.tickets then Abort(DisputeNotFound)
    else if s.disputes[id] != DisputeOpen then Abort(DisputeAlreadyTerminal)
    else if action == OtherAction then Abort(InvalidAction)
    else if action == PartialRefund && amount <= 0 then Abort(AmountNotPositive)
    else if action == RefundFull && id.kind != WithdrawKind then Abort(RefundOnlyForWithdraws)
    else
      var t := s.tickets[id];
      var pay := Payout(action, amount, t);
      var paid := if pay.Some? then PlanTreasuryToUser(s, pay.value, t.user) else Commit(NO_WRITES, None);
      if paid.Abort? then paid
      else
        var row := AuditRow(DisputeChanged, t.user, amount, 0, 0, NoRef);
        Checked(s, WithDispute(paid.writes, id, DisputeResolved, row), None)
  }

  function WithDispute(w: WriteSet, id: TicketId, status: DisputeStatus, r: AuditRow): WriteSet {
    w.(dispute := Some((id, status)), audit := w.audit + [r])
  }

  function PlanRejectDispute(s: Ledger, id: TicketId): Outcome {
    if id !in s.disputes || id !in s.tickets then Abort(DisputeNotFound)
    else if s.disputes[id] != DisputeOpen then Abort(DisputeAlreadyTerminal)
    else
      Checked(s, NO_WRITES.(
        dispute := Some((id, DisputeRejected)),
        audit := [AuditRow(DisputeChanged, s.tickets[id].user, 0, 0, 0, NoRef)]), None)
  }

  function PlanBan(s: Ledger, user: UserId): Outcome {
    if user == TREASURY then Abort(CannotBanTreasury)
    else
      Checked(s, NO_WRITES.(
        user := Some((user, true)),
        account := if user in s.accounts then None else Some((user, NO_GOLD)),
        audit := [AuditRow(BanChanged, user, 0, 0, 0, NoRef)]), None)
  }

  function PlanUnban(s: Ledger, user: UserId): Outcome {
    if user !in s.users then Abort(UserNotRegistered)
    else
      Checked(s, NO_WRITES.(
        user := Some((user, false)),
        audit := [AuditRow(BanChanged, user, 0, 0, 0, NoRef)]), None)
  }

  // ----- bets -----

  datatype GameConfig = GameConfig(enabled: bool, min: int, max: int, commissionBps: int)

  /** Where the rake of a bet went: the treasury when no period was active at apply time. */
  function FallbackRake(b: Bet): int {
    if b.period.None? then b.rake else 0
  }

  /** The bet row: both cuts are taken at apply time and stored, so later config changes cannot touch it. */
  function NewBet(user: UserId, key: string, game: string, amount: int, commissionBps: int, rakeBps: int,
      period: Option<int>): Bet {
    var commission := Fee(amount, commissionBps);
    var rake := Fee(amount, rakeBps);
    Bet(user, key, game, amount, amount - commission - rake, commission, rake, period, BetOpen, 0)
  }

  function PlaceBase(s: Ledger, id: int, b: Bet): WriteSet
    requires b.user in s.accounts
  {
    var a := s.accounts[b.user];
    NO_WRITES.(
      account := Some((b.user, Account(a.balance - b.amount, a.locked + b.stake, a.wagered + b.amount, a.won))),
      bet := Some((id, b)),
      key := Some(((b.user, b.key), id)),
      audit := [AuditRow(BetPlaced, b.user, b.amount, a.balance, a.balance - b.amount, BetRef(id))])
  }

  function Signed(back: bool, x: int): int {
    if back then -x else x
  }

  /** Commission and rake move to the treasury and the pool, or back out of them. */
  function MoveCuts(s: Ledger, w: WriteSet, b: Bet, back: bool): WriteSet {
    var w1 := if b.commission > 0 then AddTreasury(s, w, Signed(back, b.commission)) else w;
    if b.rake <= 0 then w1
    else if b.period.None? then AddTreasury(s, w1, Signed(back, b.rake))
    else if b.period.value in s.pools then
      w1.(pool := Some((b.period.value, Pool(s.pools[b.period.value].opening,
                                             s.pools[b.period.value].amount + Signed(back, b.rake)))))
    else w1
  }

  function PlanPlaceBet(s: Ledger, id: int, user: UserId, key: string, game: string, amount: int,
      config: Option<GameConfig>, rakeBps: int, period: Option<int>, bannedSeen: bool,
      duplicate: Option<int>): Outcome {
    if duplicate.Some? then Commit(NO_WRITES, duplicate)
    else if config.None? then Abort(UnknownGame)
    else if !config.value.enabled then Abort(GamePaused)
    else if amount < config.value.min || amount > config.value.max then Abort(BetOutOfRange)
    else if user !in s.accounts then Abort(UserNotRegistered)
    else if bannedSeen then Abort(UserIsBanned)
    else if s.accounts[user].balance < amount then Abort(InsufficientBalance)
    else if id in s.bets || (user, key) in s.keys then Abort(UniqueViolation)
    else if period.Some? && period.value !in s.pools then Abort(ConstraintViolation)
    else
      var b := NewBet(user, key, game, amount, config.value.commissionBps, rakeBps, period);
      Checked(s, MoveCuts(s, PlaceBase(s, id, b), b, false), Some(id))
  }

  /** What the user is credited and what the treasury gains when a bet closes. */
  function Credit(b: Bet, status: BetStatus, payout: int): int {
    if status == Win then payout else if status == Tie then b.stake else 0
  }

  function TreasuryGain(b: Bet, status: BetStatus, payout: int): int {
    if status == Win then b.stake - payout else if status == Loss then b.stake else 0
  }

  function PlanResolveBet(s: Ledger, id: int, status: BetStatus, payout: int): Outcome {
    if status !in {Win, Loss, Tie} then Abort(InvalidStatus)
    else if payout < 0 then Abort(InvalidPayout)
    else if id !in s.bets then Abort(BetNotFound)
    else
      var b := s.bets[id];
      if b.status == status && b.payout == payout then Commit(NO_WRITES, None)
      else if b.status != BetOpen then Abort(BetAlreadyTerminal)
      else if b.user !in s.accounts then Abort(NotNullViolation)
      else
        Checked(s, CloseWrites(s, id, status, payout), None)
  }

  function CloseBase(s: Ledger, id: int, status: BetStatus, payout: int): WriteSet
    requires id in s.bets && s.bets[id].user in s.accounts
  {
    var b := s.bets[id];
    var a := s.accounts[b.user];
    var credit := Credit(b, status, payout);
    NO_WRITES.(
      account := Some((b.user, Account(a.balance + credit, a.locked - b.stake, a.wagered, a.won + credit))),
      bet := Some((id, b.(status := status, payout := payout))),
      audit := [AuditRow(BetResolved, b.user, payout, a.balance, a.balance + credit, BetRef(id))])
  }

  function CloseWrites(s: Ledger, id: int, status: BetStatus, payout: int): WriteSet
    requires id in s.bets && s.bets[id].user in s.accounts
  {
    var gain := TreasuryGain(s.bets[id], status, payout);
    var w := CloseBase(s, id, status, payout);
    if gain != 0 then AddTreasury(s, w, gain) else w
  }

  function PlanRefundBet(s: Ledger, id: int): Outcome {
    if id !in s.bets then Abort(BetNotFound)
    else
      var b := s.bets[id];
      if b.status == Refunded then Commit(NO_WRITES, None)
      else if b.status != BetOpen then Abort(BetAlreadyTerminal)
      else if b.user !in s.accounts then Abort(NotNullViolation)
      else
        Checked(s, MoveCuts(s, RefundBase(s, id), b, true), None)
  }

  function RefundBase(s: Ledger, id: int): WriteSet
    requires id in s.bets && s.bets[id].user in s.accounts
  {
    var b := s.bets[id];
    var a := s.accounts[b.user];
    NO_WRITES.(
      account := Some((b.user, Account(a.balance + b.amount, a.locked - b.stake, a.wagered - b.amount, a.won))),
      bet := Some((id, b.(status := Refunded, payout := 0))),
      audit := [AuditRow(BetRefunded, b.user, b.amount, a.balance, a.balance + b.amount, BetRef(id))])
  }

  function PlanCashoutMines(s: Ledger, id: int, multiplier: real): Outcome {
    if multiplier <= 0.0 then Abort(InvalidMultiplier)
    else if id !in s.bets then Abort(BetNotFound)
    else if s.bets[id].game != "mines" then Abort(NotMinesBet)
    else if s.bets[id].status != BetOpen then Abort(BetAlreadyTerminal)
    else PlanResolveBet(s, id, Win, CashoutPayout(s.bets[id].stake, multiplier))
  }

  function CashoutPayout(stake: int, multiplier: real): int {
    (stake as real * multiplier).Floor
  }

  /** The operator inserts a raffle period row; no stored procedure does. */
  function PlanOpenPeriod(s: Ledger, id: int, opening: int): Outcome {
    if id in s.pools then Abort(UniqueViolation)
    else Checked(s, NO_WRITES.(pool := Some((id, Pool(opening, opening)))), Some(id))
  }

  // ----- steps and runs -----

  datatype Step =
    | CreateDeposit(serial: int, user: UserId, amount: int, limits: Option<Limits>, region: string, faction: string,
                    bannedSeen: bool, seen: Option<int>, now: Time)
    | ConfirmDeposit(serial: int, cashier: UserId, now: Time)
    | CancelDeposit(serial: int, seen: Option<int>, now: Time)
    | CreateWithdraw(serial: int, user: UserId, amount: int, limits: Option<Limits>, region: string, faction: string,
                     now: Time)
    | ConfirmWithdraw(serial: int, cashier: UserId, now: Time)
    | CancelWithdraw(serial: int, now: Time)
    | ClaimTicket(id: TicketId, cashier: UserId, regionMatch: bool, seen: Option<int>, now: Time)
    | ReleaseTicket(id: TicketId, actor: UserId, seen: Option<int>, now: Time)
    | Sweep(amount: int)
    | TreasuryToUser(amount: int, target: UserId)
    | OpenDispute(id: TicketId, roleValid: bool)
    | ResolveDispute(id: TicketId, action: Resolution, amount: int)
    | RejectDispute(id: TicketId)
    | Ban(user: UserId)
    | Unban(user: UserId)
    | PlaceBet(bet: int, user: UserId, key: string, game: string, amount: int, config: Option<GameConfig>,
               rakeBps: int, period: Option<int>, bannedSeen: bool, duplicate: Option<int>)
    | ResolveBet(bet: int, status: BetStatus, payout: int)
    | RefundBet(bet: int)
    | CashoutMines(bet: int, multiplier: real)
    | OpenPeriod(pool: int, opening: int)

  function Plan(s: Ledger, step: Step): Outcome {
    match step
    case CreateDeposit(n, u, a, l, r, f, b, seen, now) => PlanCreateDeposit(s, n, u, a, l, r, f, b, seen, now)
    case ConfirmDeposit(n, c, now) => PlanConfirmDeposit(s, n, c, now)
    case CancelDeposit(n, seen, now) => PlanCancelDeposit(s, n, seen, now)
    case CreateWithdraw(n, u, a, l, r, f, now) => PlanCreateWithdraw(s, n, u, a, l, r, f, now)
    case ConfirmWithdraw(n, c, now) => PlanConfirmWithdraw(s, n, c, now)
    case CancelWithdraw(n, now) => PlanCancelWithdraw(s, n, now)
    case ClaimTicket(id, c, m, seen, now) => PlanClaim(s, id, c, m, seen, now)
    case ReleaseTicket(id, a, seen, now) => PlanRelease(s, id, a, seen, now)
    case Sweep(a) => PlanSweep(s, a)
    case TreasuryToUser(a, u) => PlanTreasuryToUser(s, a, u)
    case OpenDispute(id, ok) => PlanOpenDispute(s, id, ok)
    case ResolveDispute(id, act, a) => PlanResolveDispute(s, id, act, a)
    case RejectDispute(id) => PlanRejectDispute(s, id)
    case Ban(u) => PlanBan(s, u)
    case Unban(u) => PlanUnban(s, u)
    case PlaceBet(id, u, k, g, a, c, r, p, b, d) => PlanPlaceBet(s, id, u, k, g, a, c, r, p, b, d)
    case ResolveBet(id, st, p) => PlanResolveBet(s, id, st, p)
    case RefundBet(id) => PlanRefundBet(s, id)
    case CashoutMines(id, m) => PlanCashoutMines(s, id, m)
    case OpenPeriod(id, a) => PlanOpenPeriod(s, id, a)
  }

  /** One call: the write set is installed, or nothing changes. */
  function Apply(s: Ledger, step: Step): Ledger {
    Settle(s, Plan(s, step))
  }

  function Settle(s: Ledger, o: Outcome): Ledger {
    if o.Abort? then s else Install(s, o.writes)
  }

  function Run(s: Ledger, steps: seq<Step>): Ledger {
    if steps == [] then s else Apply(Run(s, steps[..|steps| - 1]), steps[|steps| - 1])
  }

  /** The configuration the admin commands accept: a withdraw fee of at most 100%, and a house
      commission and a raffle rake that are not negative and together at most 100%. */
  predicate ValidConfig(step: Step) {
    match step
    case CreateWithdraw(_, _, _, l, _, _, _) => l.Some? ==> 0 <= l.value.feeBps <= 10000
    case PlaceBet(_, _, _, _, _, c, rake, _, _, _) =>
      0 <= rake && (c.Some? ==> 0 <= c.value.commissionBps && c.value.commissionBps + rake <= 10000)
    case _ => true
  }

  predicate ValidRun(steps: seq<Step>) {
    forall i :: 0 <= i < |steps| ==> ValidConfig(steps[i])
  }
}
