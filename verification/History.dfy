/**
 The audit log tells each ticket's and each bet's story exactly once: how often it was opened,
 confirmed, cancelled or closed, and how much gold that moved, is determined by its final row.
 */
module History {
  import opened Sums
  import opened Ledger
  import opened Books
  import opened Procedures
  import opened Guarantees
  import opened Reversal

  datatype Score =
    | Opens(ticket: TicketId) | Confirms(ticket: TicketId) | Cancels(ticket: TicketId)
    | TicketGold(ticket: TicketId, user: UserId) | TicketMoves(ticket: TicketId, user: UserId)
    | Places(bet: int) | Closes(bet: int) | BetGold(bet: int, user: UserId)

  function One(b: bool): int {
    if b then 1 else 0
  }

  function RowScore(m: Score, r: AuditRow): int {
    match m
    case Opens(i) => One(r.ref == TicketRef(i) && (r.action == DepositOpened || r.action == WithdrawLocked))
    case Confirms(i) => One(r.ref == TicketRef(i) && (r.action == DepositConfirmed || r.action == WithdrawConfirmed))
    case Cancels(i) => One(r.ref == TicketRef(i) && (r.action == DepositCancelled || r.action == WithdrawRefunded))
    case TicketGold(i, u) => if MovesFor(r, i, u) then r.after - r.before else 0
    case TicketMoves(i, u) => One(MovesFor(r, i, u))
    case Places(b) => One(r.ref == BetRef(b) && r.action == BetPlaced)
    case Closes(b) => One(r.ref == BetRef(b) && r.action != BetPlaced)
    case BetGold(b, u) => if r.ref == BetRef(b) && r.target == u then r.after - r.before else 0
  }

  /** The row moves the user's own balance for this ticket; the fee is the treasury's business. */
  predicate MovesFor(r: AuditRow, id: TicketId, u: UserId) {
    r.ref == TicketRef(id) && r.target == u && r.action != FeeCredited && r.after != r.before
  }

  /** The total score of the log. */
  function ScoreOf(rows: seq<AuditRow>, m: Score): int {
    if rows == [] then 0 else ScoreOf(rows[..|rows| - 1], m) + RowScore(m, rows[|rows| - 1])
  }

  /** What the ticket or bet row alone says the score must be. */
  function Expected(tickets: map<TicketId, Ticket>, bets: map<int, Bet>, m: Score): int {
    match m
    case Opens(i) => One(i in tickets)
    case Confirms(i) => One(i in tickets && tickets[i].status == Confirmed)
    case Cancels(i) => One(i in tickets && tickets[i].status == Cancelled)
    case TicketGold(i, u) => if i in tickets && tickets[i].user == u then OwnerGold(i.kind, tickets[i]) else 0
    case TicketMoves(i, u) => if i in tickets && tickets[i].user == u then OwnerMoves(i.kind, tickets[i].status) else 0
    case Places(b) => One(b in bets)
    case Closes(b) => One(b in bets && bets[b].status != BetOpen)
    case BetGold(b, u) => if b in bets && bets[b].user == u then BettorGold(bets[b]) else 0
  }

  /** What a ticket has done to its owner's balance: a deposit counts once confirmed, a withdraw
      until it is cancelled. */
  function OwnerGold(kind: Kind, t: Ticket): int {
    if kind == DepositKind then if t.status == Confirmed then t.amount else 0
    else if t.status == Cancelled then 0 else -t.amount
  }

  /** How often it has moved that balance. */
  function OwnerMoves(kind: Kind, status: TicketStatus): nat {
    if kind == DepositKind then if status == Confirmed then 1 else 0
    else if status == Cancelled then 2 else 1
  }

  /** What a bet has done to its owner's balance: a win pays its payout, a tie returns the stake, a refund
      the whole amount. */
  function BettorGold(b: Bet): int {
    match b.status
    case Win => b.payout - b.amount
    case Tie => b.stake - b.amount
    case Refunded => 0
    case BetOpen => -b.amount
    case Loss => -b.amount
    case Voided => -b.amount
  }

  ghost predicate HistoryOk(s: Ledger) {
    forall m: Score :: ScoreOf(s.audit, m) == Expected(s.tickets, s.bets, m)
  }

  /** Claims minus releases of a ticket so far. */
  function Held(rows: seq<AuditRow>, id: TicketId): int {
    if rows == [] then 0
    else
      var r := rows[|rows| - 1];
      Held(rows[..|rows| - 1], id)
      + if r.ref != TicketRef(id) then 0
        else if r.action == TicketClaimed then 1
        else if r.action == TicketReleased then -1
        else 0
  }

  ghost predicate HeldOk(s: Ledger) {
    forall i: TicketId ::
      && 0 <= Held(s.audit, i) <= 1
      && (i !in s.tickets || s.tickets[i].status == Open ==> Held(s.audit, i) == 0)
      && (i in s.tickets && s.tickets[i].status == Claimed ==> Held(s.audit, i) == 1)
  }

  // ----- sums of appended rows -----

  lemma {:induction false} ScoreAppend(a: seq<AuditRow>, b: seq<AuditRow>, m: Score)
    ensures ScoreOf(a + b, m) == ScoreOf(a, m) + ScoreOf(b, m)
    decreases |b|
  {
    if b == [] {
      assert a + b == a;
    } else {
      ScoreAppend(a, b[..|b| - 1], m);
      assert (a + b)[..|a + b| - 1] == a + b[..|b| - 1];
    }
  }

  lemma {:induction false} HeldAppend(a: seq<AuditRow>, b: seq<AuditRow>, id: TicketId)
    ensures Held(a + b, id) == Held(a, id) + Held(b, id)
    decreases |b|
  {
    if b == [] {
      assert a + b == a;
    } else {
      HeldAppend(a, b[..|b| - 1], id);
      assert (a + b)[..|a + b| - 1] == a + b[..|b| - 1];
    }
  }

  /** Rows that do not refer to a ticket or bet leave its score alone. */
  lemma {:induction false} ForeignRows(rows: seq<AuditRow>, ref: Ref)
    requires ref != NoRef && forall r :: r in rows ==> r.ref != ref
    ensures forall m: Score :: RefOf(m) == ref ==> ScoreOf(rows, m) == 0
    ensures ref.TicketRef? ==> Held(rows, ref.ticket) == 0
    decreases |rows|
  {
    if rows != [] {
      ForeignRows(rows[..|rows| - 1], ref);
    }
  }

  function RefOf(m: Score): Ref {
    match m
    case Opens(i) => TicketRef(i)
    case Confirms(i) => TicketRef(i)
    case Cancels(i) => TicketRef(i)
    case TicketGold(i, _) => TicketRef(i)
    case TicketMoves(i, _) => TicketRef(i)
    case Places(b) => BetRef(b)
    case Closes(b) => BetRef(b)
    case BetGold(b, _) => BetRef(b)
  }

  // ----- write sets -----

  /** Audit rows refer to the row written, tell of it what the new row shows, and nothing else. */
  ghost predicate Tells(s: Ledger, w: WriteSet) {
    && (forall r :: r in w.audit && r.ref.TicketRef? ==> w.ticket.Some? && w.ticket.value.0 == r.ref.ticket)
    && (forall r :: r in w.audit && r.ref.BetRef? ==> w.bet.Some? && w.bet.value.0 == r.ref.bet)
    && (forall m: Score :: TellsScore(s, w, m))
    && (w.ticket.Some? ==> TellsHeld(s, w.ticket.value.0, w.ticket.value.1, w.audit))
  }

  ghost predicate TellsScore(s: Ledger, w: WriteSet, m: Score) {
    Written(w, m) ==>
      ScoreOf(w.audit, m)
      == Expected(Put(s.tickets, w.ticket), Put(s.bets, w.bet), m) - Expected(s.tickets, s.bets, m)
  }

  predicate Written(w: WriteSet, m: Score) {
    match RefOf(m)
    case TicketRef(i) => w.ticket.Some? && w.ticket.value.0 == i
    case BetRef(b) => w.bet.Some? && w.bet.value.0 == b
    case NoRef => false
  }

  ghost predicate TellsHeld(s: Ledger, id: TicketId, t: Ticket, rows: seq<AuditRow>) {
    Held(rows, id) == One(t.status == Claimed) - One(id in s.tickets && s.tickets[id].status == Claimed)
    || (Held(rows, id) == 0 && Terminal(t.status))
  }

  lemma TellingKeepsHistory(s: Ledger, w: WriteSet)
    requires HistoryOk(s) && Tells(s, w)
    ensures HistoryOk(Install(s, w))
  {
    var s' := Install(s, w);
    forall m: Score
      ensures ScoreOf(s'.audit, m) == Expected(s'.tickets, s'.bets, m)
    {
      assert TellsScore(s, w, m);
      ScoreKept(s, w, m);
    }
  }

  lemma ScoreKept(s: Ledger, w: WriteSet, m: Score)
    requires ScoreOf(s.audit, m) == Expected(s.tickets, s.bets, m) && TellsScore(s, w, m)
    requires forall r :: r in w.audit && r.ref.TicketRef? ==> w.ticket.Some? && w.ticket.value.0 == r.ref.ticket
    requires forall r :: r in w.audit && r.ref.BetRef? ==> w.bet.Some? && w.bet.value.0 == r.ref.bet
    ensures var s' := Install(s, w);
      ScoreOf(s'.audit, m) == Expected(s'.tickets, s'.bets, m)
  {
    ScoreAppend(s.audit, w.audit, m);
    if !Written(w, m) {
      ForeignRows(w.audit, RefOf(m));
      UnwrittenScore(s, w, m);
    }
  }

  lemma UnwrittenScore(s: Ledger, w: WriteSet, m: Score)
    requires !Written(w, m)
    ensures Expected(Put(s.tickets, w.ticket), Put(s.bets, w.bet), m) == Expected(s.tickets, s.bets, m)
  {
  }

  lemma TellingKeepsHeld(s: Ledger, w: WriteSet)
    requires HeldOk(s) && Tells(s, w)
    requires w.ticket.Some? ==> w.ticket.value.1.status in {Open, Claimed, Confirmed, Cancelled}
    requires w.ticket.Some? && w.ticket.value.0 in s.tickets ==> s.tickets[w.ticket.value.0].status in {Open, Claimed}
    ensures HeldOk(Install(s, w))
  {
    var s' := Install(s, w);
    forall i: TicketId
      ensures 0 <= Held(s'.audit, i) <= 1
      ensures i !in s'.tickets || s'.tickets[i].status == Open ==> Held(s'.audit, i) == 0
      ensures i in s'.tickets && s'.tickets[i].status == Claimed ==> Held(s'.audit, i) == 1
    {
      HeldAppend(s.audit, w.audit, i);
      assert 0 <= Held(s.audit, i) <= 1;
      if w.ticket.None? || w.ticket.value.0 != i {
        ForeignRows(w.audit, TicketRef(i));
      }
    }
  }

  lemma OneRowTells(s: Ledger, w: WriteSet, r: AuditRow)
    requires w.audit == [r]
    requires r.ref.TicketRef? ==> w.ticket.Some? && w.ticket.value.0 == r.ref.ticket
    requires r.ref.BetRef? ==> w.bet.Some? && w.bet.value.0 == r.ref.bet
    requires forall m: Score :: Written(w, m) ==>
      RowScore(m, r) == Expected(Put(s.tickets, w.ticket), Put(s.bets, w.bet), m) - Expected(s.tickets, s.bets, m)
    requires w.ticket.Some? ==>
      var (id, t) := w.ticket.value;
      Held([r], id) == One(t.status == Claimed) - One(id in s.tickets && s.tickets[id].status == Claimed)
      || (Held([r], id) == 0 && Terminal(t.status))
    ensures Tells(s, w)
  {
    forall m: Score
      ensures TellsScore(s, w, m)
    {
      assert [r][..0] == [];
      assert ScoreOf([r], m) == RowScore(m, r);
    }
  }

  // ----- every procedure tells its story -----

  lemma NoRefTells(s: Ledger, w: WriteSet)
    requires w.ticket.None? && w.bet.None?
    requires forall r :: r in w.audit ==> r.ref == NoRef
    ensures Tells(s, w)
  {
  }

  /** A balance row that leaves the balance alone. */
  predicate Still(r: AuditRow) {
    r.after == r.before
  }

  /** A row that moves the owner's balance by `d`. */
  predicate Pays(r: AuditRow, t: Ticket, d: int) {
    r.target == t.user && r.after - r.before == d
  }

  /** The audit row `r` fits the new version `t` of a ticket row. */
  predicate TicketStory(s: Ledger, id: TicketId, t: Ticket, r: AuditRow) {
    && t.amount > 0 && r.ref == TicketRef(id)
    && if id !in s.tickets then
         t.status == Open
         && if id.kind == DepositKind then r.action == DepositOpened && Still(r)
            else r.action == WithdrawLocked && Pays(r, t, -t.amount)
       else
         var was := s.tickets[id];
         && was.status in {Open, Claimed} && was.user == t.user && was.amount == t.amount
         && match t.status
            case Claimed => r.action == TicketClaimed && Still(r) && was.status == Open
            case Open => r.action == TicketReleased && Still(r) && was.status == Claimed
            case Confirmed =>
              if id.kind == DepositKind then r.action == DepositConfirmed && Pays(r, t, t.amount)
              else r.action == WithdrawConfirmed && Still(r)
            case Cancelled =>
              if id.kind == DepositKind then r.action == DepositCancelled && Still(r)
              else r.action == WithdrawRefunded && Pays(r, t, t.amount)
            case _ => false
  }

  lemma TicketTells(s: Ledger, id: TicketId, t: Ticket, w: WriteSet, r: AuditRow)
    requires w.bet.None? && w.ticket == Some((id, t)) && w.audit == [r] && TicketStory(s, id, t, r)
    ensures Tells(s, w)
  {
    forall m: Score | Written(w, m)
      ensures RowScore(m, r)
           == Expected(Put(s.tickets, w.ticket), Put(s.bets, w.bet), m) - Expected(s.tickets, s.bets, m)
    {
      TicketScore(s, id, t, r, m);
    }
    assert [r][..0] == [];
    OneRowTells(s, w, r);
  }

  lemma TicketScore(s: Ledger, id: TicketId, t: Ticket, r: AuditRow, m: Score)
    requires TicketStory(s, id, t, r) && RefOf(m) == TicketRef(id)
    ensures RowScore(m, r) == Expected(s.tickets[id := t], s.bets, m) - Expected(s.tickets, s.bets, m)
  {
  }

  lemma CreateDepositTells(s: Ledger, step: Step)
    requires RowsOk(s) && step.CreateDeposit? && Plan(s, step).Commit?
    ensures Tells(s, Plan(s, step).writes)
  {
    var w := Plan(s, step).writes;
    TicketTells(s, w.ticket.value.0, w.ticket.value.1, w, w.audit[0]);
  }

  lemma ConfirmDepositTells(s: Ledger, serial: int, cashier: UserId, now: Time)
    requires RowsOk(s) && PlanConfirmDeposit(s, serial, cashier, now).Commit?
    ensures Tells(s, PlanConfirmDeposit(s, serial, cashier, now).writes)
  {
    var w := PlanConfirmDeposit(s, serial, cashier, now).writes;
    if w.audit == [] {
      NoRefTells(s, w);
    } else {
      var id := TicketId(DepositKind, serial);
      assert TicketOk(s.users, id, s.tickets[id]);
      TicketTells(s, id, w.ticket.value.1, w, w.audit[0]);
    }
  }

  lemma CancelDepositTells(s: Ledger, serial: int, seen: Option<int>, now: Time)
    requires RowsOk(s) && PlanCancelDeposit(s, serial, seen, now).Commit?
    ensures Tells(s, PlanCancelDeposit(s, serial, seen, now).writes)
  {
    var w := PlanCancelDeposit(s, serial, seen, now).writes;
    var id := TicketId(DepositKind, serial);
    assert TicketOk(s.users, id, s.tickets[id]);
    TicketTells(s, id, w.ticket.value.1, w, w.audit[0]);
  }

  lemma DepositTells(s: Ledger, step: Step)
    requires RowsOk(s) && Plan(s, step).Commit?
    requires step.CreateDeposit? || step.ConfirmDeposit? || step.CancelDeposit?
    ensures Tells(s, Plan(s, step).writes)
  {
    match step
    case CreateDeposit(_, _, _, _, _, _, _, _, _) => CreateDepositTells(s, step);
    case ConfirmDeposit(n, c, now) => ConfirmDepositTells(s, n, c, now);
    case CancelDeposit(n, seen, now) => CancelDepositTells(s, n, seen, now);
  }

  lemma ClaimTells(s: Ledger, step: Step)
    requires RowsOk(s) && Plan(s, step).Commit?
    requires step.ClaimTicket? || step.ReleaseTicket?
    ensures Tells(s, Plan(s, step).writes)
  {
    var w := Plan(s, step).writes;
    assert TicketOk(s.users, step.id, s.tickets[step.id]);
    TicketTells(s, step.id, w.ticket.value.1, w, w.audit[0]);
  }

  lemma CancelWithdrawTells(s: Ledger, serial: int, now: Time)
    requires RowsOk(s) && PlanCancelWithdraw(s, serial, now).Commit?
    ensures Tells(s, PlanCancelWithdraw(s, serial, now).writes)
  {
    var w := PlanCancelWithdraw(s, serial, now).writes;
    var id := TicketId(WithdrawKind, serial);
    assert TicketOk(s.users, id, s.tickets[id]);
    TicketTells(s, id, w.ticket.value.1, w, w.audit[0]);
  }

  lemma CreateWithdrawTells(s: Ledger, step: Step)
    requires RowsOk(s) && step.CreateWithdraw? && Plan(s, step).Commit?
    ensures Tells(s, Plan(s, step).writes)
  {
    var w := Plan(s, step).writes;
    TicketTells(s, w.ticket.value.0, w.ticket.value.1, w, w.audit[0]);
  }

  lemma WithdrawTells(s: Ledger, step: Step)
    requires RowsOk(s) && Plan(s, step).Commit?
    requires step.CreateWithdraw? || step.CancelWithdraw?
    ensures Tells(s, Plan(s, step).writes)
  {
    if step.CancelWithdraw? {
      CancelWithdrawTells(s, step.serial, step.now);
    } else {
      CreateWithdrawTells(s, step);
    }
  }

  lemma ConfirmWithdrawTells(s: Ledger, serial: int, cashier: UserId, now: Time)
    requires RowsOk(s) && PlanConfirmWithdraw(s, serial, cashier, now).Commit?
    ensures Tells(s, PlanConfirmWithdraw(s, serial, cashier, now).writes)
  {
    var w := PlanConfirmWithdraw(s, serial, cashier, now).writes;
    if w.audit == [] {
      NoRefTells(s, w);
    } else {
      var id := TicketId(WithdrawKind, serial);
      assert TicketOk(s.users, id, s.tickets[id]);
      var one := w.(audit := [w.audit[0]]);
      TicketTells(s, id, w.ticket.value.1, one, w.audit[0]);
      assert w.audit == one.audit + [w.audit[1]];
      FeeRowTells(s, one, w.audit[1], w);
    }
  }

  /** The treasury's fee row changes no ticket's score. */
  lemma FeeRowTells(s: Ledger, one: WriteSet, r: AuditRow, w: WriteSet)
    requires Tells(s, one) && w == one.(treasury := w.treasury, audit := one.audit + [r])
    requires r.action == FeeCredited && one.ticket.Some? && r.ref == TicketRef(one.ticket.value.0)
    ensures Tells(s, w)
  {
    forall m: Score
      ensures TellsScore(s, w, m)
    {
      assert (one.audit + [r])[..|one.audit|] == one.audit;
      assert TellsScore(s, one, m);
    }
  }

  /** The audit row `r` fits the new version `b` of a bet row. */
  predicate BetStory(s: Ledger, id: int, b: Bet, r: AuditRow) {
    && r.ref == BetRef(id) && r.target == b.user
    && if id !in s.bets then r.action == BetPlaced && b.status == BetOpen && r.after - r.before == -b.amount
       else
         && r.action != BetPlaced && s.bets[id].status == BetOpen && b.status != BetOpen
         && s.bets[id].amount == b.amount && s.bets[id].user == b.user
         && r.after - r.before == BettorGold(b) + b.amount
  }

  lemma BetTells(s: Ledger, id: int, b: Bet, w: WriteSet, r: AuditRow)
    requires w.ticket.None? && w.bet == Some((id, b)) && w.audit == [r] && BetStory(s, id, b, r)
    ensures Tells(s, w)
  {
    OneRowTells(s, w, r);
  }

  lemma PlaceBetTells(s: Ledger, id: int, b: Bet)
    requires b.user in s.accounts && id !in s.bets && b.status == BetOpen
    ensures Tells(s, MoveCuts(s, PlaceBase(s, id, b), b, false))
  {
    CutsFrame(s, PlaceBase(s, id, b), b, false);
    var w := MoveCuts(s, PlaceBase(s, id, b), b, false);
    BetTells(s, id, b, w, w.audit[0]);
  }

  lemma ResolveBetTells(s: Ledger, id: int, status: BetStatus, payout: int)
    requires PlanResolveBet(s, id, status, payout).Commit?
    ensures Tells(s, PlanResolveBet(s, id, status, payout).writes)
  {
    var w := PlanResolveBet(s, id, status, payout).writes;
    if s.bets[id].status == BetOpen {
      BetTells(s, id, w.bet.value.1, w, w.audit[0]);
    } else {
      NoRefTells(s, w);
    }
  }

  lemma RefundBetTells(s: Ledger, id: int)
    requires PlanRefundBet(s, id).Commit?
    ensures Tells(s, PlanRefundBet(s, id).writes)
  {
    var w := PlanRefundBet(s, id).writes;
    if s.bets[id].status == BetOpen {
      CutsFrame(s, RefundBase(s, id), s.bets[id], true);
      BetTells(s, id, w.bet.value.1, w, w.audit[0]);
    } else {
      NoRefTells(s, w);
    }
  }

  lemma BetPlansTell(s: Ledger, step: Step)
    requires RowsOk(s) && Plan(s, step).Commit?
    requires step.PlaceBet? || step.ResolveBet? || step.RefundBet?
    ensures Tells(s, Plan(s, step).writes)
  {
    match step
    case PlaceBet(id, user, key, game, amount, config, rakeBps, period, _, duplicate) =>
      if duplicate.None? {
        PlaceBetTells(s, id, NewBet(user, key, game, amount, config.value.commissionBps, rakeBps, period));
      } else {
        NoRefTells(s, Plan(s, step).writes);
      }
    case ResolveBet(id, status, payout) => ResolveBetTells(s, id, status, payout);
    case RefundBet(id) => RefundBetTells(s, id);
  }

  lemma CashoutTells(s: Ledger, id: int, multiplier: real)
    requires RowsOk(s) && PlanCashoutMines(s, id, multiplier).Commit?
    ensures Tells(s, PlanCashoutMines(s, id, multiplier).writes)
  {
    ResolveBetTells(s, id, Win, CashoutPayout(s.bets[id].stake, multiplier));
  }

  lemma ResolveDisputeTells(s: Ledger, id: TicketId, action: Resolution, amount: int)
    requires PlanResolveDispute(s, id, action, amount).Commit?
    ensures Tells(s, PlanResolveDispute(s, id, action, amount).writes)
  {
    NoRefTells(s, PlanResolveDispute(s, id, action, amount).writes);
  }

  lemma OtherPlansTell(s: Ledger, step: Step)
    requires Plan(s, step).Commit?
    requires step.Sweep? || step.TreasuryToUser? || step.ResolveDispute? || step.OpenPeriod?
             || step.OpenDispute? || step.RejectDispute? || step.Ban? || step.Unban?
    ensures Tells(s, Plan(s, step).writes)
  {
    if step.ResolveDispute? {
      ResolveDisputeTells(s, step.id, step.action, step.amount);
    } else {
      NoRefTells(s, Plan(s, step).writes);
    }
  }

  lemma TicketPlansTell(s: Ledger, step: Step)
    requires RowsOk(s) && Plan(s, step).Commit?
    requires step.CreateDeposit? || step.ConfirmDeposit? || step.CancelDeposit?
             || step.ClaimTicket? || step.ReleaseTicket?
             || step.CreateWithdraw? || step.CancelWithdraw? || step.ConfirmWithdraw?
    ensures Tells(s, Plan(s, step).writes)
  {
    if step.CreateDeposit? || step.ConfirmDeposit? || step.CancelDeposit? {
      DepositTells(s, step);
    } else if step.ClaimTicket? || step.ReleaseTicket? {
      ClaimTells(s, step);
    } else if step.CreateWithdraw? || step.CancelWithdraw? {
      WithdrawTells(s, step);
    } else {
      ConfirmWithdrawTells(s, step.serial, step.cashier, step.now);
    }
  }

  lemma PlanTells(s: Ledger, step: Step)
    requires RowsOk(s) && Plan(s, step).Commit?
    ensures Tells(s, Plan(s, step).writes)
  {
    if step.CashoutMines? {
      CashoutTells(s, step.bet, step.multiplier);
    } else if step.PlaceBet? || step.ResolveBet? || step.RefundBet? {
      BetPlansTell(s, step);
    } else if step.Sweep? || step.TreasuryToUser? || step.ResolveDispute? || step.OpenPeriod?
           || step.OpenDispute? || step.RejectDispute? || step.Ban? || step.Unban? {
      OtherPlansTell(s, step);
    } else {
      TicketPlansTell(s, step);
    }
  }

  lemma StepKeepsHistory(s: Ledger, step: Step)
    requires Inv(s) && ValidConfig(step) && HistoryOk(s) && HeldOk(s)
    ensures HistoryOk(Apply(s, step)) && HeldOk(Apply(s, step))
  {
    if Plan(s, step).Commit? {
      PlanTells(s, step);
      PlanWritesOk(s, step);
    }
    SettleKeepsHistory(s, Plan(s, step));
  }

  lemma SettleKeepsHistory(s: Ledger, o: Outcome)
    requires RowsOk(s) && HistoryOk(s) && HeldOk(s)
    requires o.Commit? ==> Tells(s, o.writes) && WritesOk(s, o.writes)
    ensures HistoryOk(Settle(s, o)) && HeldOk(Settle(s, o))
  {
    if o.Commit? {
      var w := o.writes;
      TellingKeepsHistory(s, w);
      if w.ticket.Some? && w.ticket.value.0 in s.tickets {
        assert TicketOk(s.users, w.ticket.value.0, s.tickets[w.ticket.value.0]);
      }
      TellingKeepsHeld(s, w);
    }
  }

  lemma {:induction false} RunKeepsHistory(steps: seq<Step>)
    requires ValidRun(steps)
    ensures HistoryOk(Run(EMPTY, steps)) && HeldOk(Run(EMPTY, steps))
    decreases |steps|
  {
    if steps != [] {
      var before := steps[..|steps| - 1];
      RunKeepsHistory(before);
      ReachableInv(before);
      assert ValidConfig(steps[|steps| - 1]);
      StepKeepsHistory(Run(EMPTY, before), steps[|steps| - 1]);
    }
  }

  // ----- the single-winner theorems -----

  /** What the log says of one ticket and of any user's balance. */
  ghost predicate TicketSettled(s: Ledger, id: TicketId, u: UserId) {
    && ScoreOf(s.audit, Confirms(id)) + ScoreOf(s.audit, Cancels(id)) <= ScoreOf(s.audit, Opens(id)) <= 1
    && (id in s.tickets && s.tickets[id].user == u ==>
          && ScoreOf(s.audit, TicketGold(id, u)) == OwnerGold(id.kind, s.tickets[id])
          && ScoreOf(s.audit, TicketMoves(id, u)) == OwnerMoves(id.kind, s.tickets[id].status))
    && (id in s.tickets && s.tickets[id].user != u ==>
          ScoreOf(s.audit, TicketGold(id, u)) == ScoreOf(s.audit, TicketMoves(id, u)) == 0)
  }

  /** In the log of any run a ticket is opened at most once, and confirmed or cancelled at most once in
      total. Its owner's balance moves once for a confirmed deposit, once for a withdraw, and once back
      if that is cancelled, each time by the amount; nobody else's balance moves for it. */
  lemma TicketSettlesOnce(steps: seq<Step>, id: TicketId, u: UserId)
    requires ValidRun(steps)
    ensures TicketSettled(Run(EMPTY, steps), id, u)
  {
    RunKeepsHistory(steps);
    TicketScores(Run(EMPTY, steps), id, u);
  }

  lemma TicketScores(s: Ledger, id: TicketId, u: UserId)
    requires HistoryOk(s)
    ensures TicketSettled(s, id, u)
  {
    assert ScoreOf(s.audit, Opens(id)) == Expected(s.tickets, s.bets, Opens(id));
    assert ScoreOf(s.audit, Confirms(id)) == Expected(s.tickets, s.bets, Confirms(id));
    assert ScoreOf(s.audit, Cancels(id)) == Expected(s.tickets, s.bets, Cancels(id));
    assert ScoreOf(s.audit, TicketGold(id, u)) == Expected(s.tickets, s.bets, TicketGold(id, u));
    assert ScoreOf(s.audit, TicketMoves(id, u)) == Expected(s.tickets, s.bets, TicketMoves(id, u));
  }

  /** After every prefix of a run a ticket has been claimed as often as released, or once more: one
      claim succeeds per open period. */
  lemma OneClaimPerOpenPeriod(steps: seq<Step>, k: nat, id: TicketId)
    requires ValidRun(steps) && k <= |steps|
    ensures 0 <= Held(Run(EMPTY, steps[..k]).audit, id) <= 1
  {
    RunKeepsHistory(steps[..k]);
  }

  predicate SameKey(a: Bet, b: Bet) {
    a.user == b.user && a.key == b.key
  }

  /** What the log says of the bets of one idempotency key, and of their owner's balance. */
  ghost predicate BetSettled(s: Ledger, b1: int, b2: int) {
    && (b1 in s.bets && b2 in s.bets && SameKey(s.bets[b1], s.bets[b2]) ==> b1 == b2)
    && ScoreOf(s.audit, Closes(b1)) <= ScoreOf(s.audit, Places(b1)) <= 1
    && (b1 in s.bets ==> ScoreOf(s.audit, BetGold(b1, s.bets[b1].user)) == BettorGold(s.bets[b1]))
  }

  /** At most one bet row, one placement and one closing ever exist for a user's idempotency key, and
      the owner's balance has moved for it by what that one bet's outcome means. */
  lemma OneBetPerKey(steps: seq<Step>, b1: int, b2: int)
    requires ValidRun(steps)
    ensures BetSettled(Run(EMPTY, steps), b1, b2)
  {
    RunKeepsHistory(steps);
    ReachableInv(steps);
    var s := Run(EMPTY, steps);
    if b1 in s.bets && b2 in s.bets && SameKey(s.bets[b1], s.bets[b2]) {
      KeyDeterminesBet(s, b1, b2);
    }
    BetScores(s, b1);
  }

  lemma KeyDeterminesBet(s: Ledger, b1: int, b2: int)
    requires RowsOk(s) && b1 in s.bets && b2 in s.bets
    requires SameKey(s.bets[b1], s.bets[b2])
    ensures b1 == b2
  {
    assert BetOk(s.users, s.pools, s.keys, b1, s.bets[b1]);
    assert BetOk(s.users, s.pools, s.keys, b2, s.bets[b2]);
  }

  lemma BetScores(s: Ledger, b: int)
    requires HistoryOk(s)
    ensures ScoreOf(s.audit, Closes(b)) <= ScoreOf(s.audit, Places(b)) <= 1
    ensures b in s.bets ==> ScoreOf(s.audit, BetGold(b, s.bets[b].user)) == BettorGold(s.bets[b])
  {
    assert ScoreOf(s.audit, Places(b)) == Expected(s.tickets, s.bets, Places(b));
    assert ScoreOf(s.audit, Closes(b)) == Expected(s.tickets, s.bets, Closes(b));
    if b in s.bets {
      var m := BetGold(b, s.bets[b].user);
      assert ScoreOf(s.audit, m) == Expected(s.tickets, s.bets, m);
    }
  }
}
