/**
 The concurrent system is not stuck: locks that nobody holds in the way are granted, every serial run is
 one of its interleavings, and calls that do not contend hold all their locks at the same time.
 */
module Schedules {
  import opened Sums
  import opened Ledger
  import opened Procedures
  import opened RowLocks

  /** A lock that is free or shared is held after the step, and the row as committed is in the view. */
  lemma LockIsGranted(sys: System, i: int, row: Row)
    requires i in sys.running && row in Locks(sys.running[i].view, sys.running[i].step)
    requires Free(sys, row) || Shared(sys.committed, row)
    ensures var sys' := Next(sys, Lock(i, row));
      && i in sys'.running && row in sys'.running[i].held && sys.running[i].held <= sys'.running[i].held
      && Agree(sys'.running[i].view, sys.committed, row) && Agree(sys.committed, sys'.running[i].view, row)
      && sys'.committed == sys.committed
  {
  }

  // ----- sequences of micro-steps -----

  lemma {:induction false} InterleaveAppend(sys: System, a: seq<Micro>, b: seq<Micro>)
    ensures Interleave(sys, a + b) == Interleave(Interleave(sys, a), b)
    decreases |b|
  {
    if b == [] {
      assert a + b == a;
    } else {
      InterleaveAppend(sys, a, b[..|b| - 1]);
      assert (a + b)[..|a + b| - 1] == a + b[..|b| - 1];
    }
  }

  lemma InterleaveOne(sys: System, m: Micro)
    ensures Interleave(sys, [m]) == Next(sys, m)
  {
    assert [m][..0] == [];
  }

  lemma {:induction false} StaysSerial(sys: System, ms: seq<Micro>)
    requires Serial(sys)
    ensures Serial(Interleave(sys, ms))
    decreases |ms|
  {
    if ms != [] {
      StaysSerial(sys, ms[..|ms| - 1]);
      MicroSerial(Interleave(sys, ms[..|ms| - 1]), ms[|ms| - 1]);
    }
  }

  // ----- one call takes all its locks -----

  ghost predicate Within<K(!new), V(!new)>(part: map<K, V>, whole: map<K, V>) {
    forall k :: k in part ==> k in whole && part[k] == whole[k]
  }

  /** The tickets and bets in a view are as committed; these are the rows the lock set depends on. */
  ghost predicate Fresh(v: Ledger, s: Ledger) {
    Within(v.tickets, s.tickets) && Within(v.bets, s.bets)
  }

  /** The more a call has read, the more locks it knows it needs. */
  lemma LocksGrow(v: Ledger, s: Ledger, step: Step)
    requires Fresh(v, s)
    ensures Locks(v, step) <= Locks(s, step)
  {
    if step.PlaceBet? || step.ResolveBet? || step.RefundBet? || step.CashoutMines? {
      BetLocksGrow(v, s, step);
    } else {
      OtherLocksGrow(v, s, step);
    }
  }

  lemma BetLocksGrow(v: Ledger, s: Ledger, step: Step)
    requires Fresh(v, s) && (step.PlaceBet? || step.ResolveBet? || step.RefundBet? || step.CashoutMines?)
    ensures Locks(v, step) <= Locks(s, step)
  {
  }

  lemma OtherLocksGrow(v: Ledger, s: Ledger, step: Step)
    requires Fresh(v, s) && !(step.PlaceBet? || step.ResolveBet? || step.RefundBet? || step.CashoutMines?)
    ensures Locks(v, step) <= Locks(s, step)
  {
  }

  lemma CopyStaysFresh(v: Ledger, s: Ledger, row: Row)
    requires Fresh(v, s)
    ensures Fresh(CopyRow(v, s, row), s)
  {
    if row.TicketKey? || row.TicketRow? {
      CopyOfTicket(v, s, row);
      CopyStaysWithin(v.tickets, s.tickets, row.ticket);
    } else if row.BetRow? {
      CopyOfBet(v, s, row);
      CopyStaysWithin(v.bets, s.bets, row.bet);
    } else {
      CopyOfOther(v, s, row);
    }
  }

  lemma CopyOfTicket(v: Ledger, s: Ledger, row: Row)
    requires row.TicketKey? || row.TicketRow?
    ensures CopyRow(v, s, row).tickets == Copied(v.tickets, s.tickets, row.ticket)
    ensures CopyRow(v, s, row).bets == v.bets
  {
  }

  lemma CopyOfBet(v: Ledger, s: Ledger, row: Row)
    requires row.BetRow?
    ensures CopyRow(v, s, row).bets == Copied(v.bets, s.bets, row.bet)
    ensures CopyRow(v, s, row).tickets == v.tickets
  {
  }

  lemma CopyOfOther(v: Ledger, s: Ledger, row: Row)
    requires !row.TicketKey? && !row.TicketRow? && !row.BetRow?
    ensures CopyRow(v, s, row).tickets == v.tickets && CopyRow(v, s, row).bets == v.bets
  {
  }

  lemma CopyStaysWithin<K(!new), V(!new)>(part: map<K, V>, whole: map<K, V>, k: K)
    requires Within(part, whole)
    ensures Within(Copied(part, whole, k), whole)
  {
  }

  /** Nobody else holds a lock this call will need, unless it is shared. */
  ghost predicate Uncontended(sys: System, i: int) {
    && i in sys.running
    && Fresh(sys.running[i].view, sys.committed)
    && forall row :: row in Locks(sys.committed, sys.running[i].step) ==>
         Shared(sys.committed, row) || forall j :: j in sys.running && j != i ==> row !in sys.running[j].held
  }

  /** The call has all the locks it needs, and only those. */
  ghost predicate FullyLocked(sys: System, i: int) {
    && i in sys.running
    && Fresh(sys.running[i].view, sys.committed)
    && Locks(sys.running[i].view, sys.running[i].step) <= sys.running[i].held
    && sys.running[i].held <= Locks(sys.committed, sys.running[i].step)
  }

  /** `sys'` is `sys` but for what call `i` holds and has read. */
  ghost predicate OnlyLocked(sys: System, sys': System, i: int) {
    && sys'.committed == sys.committed && sys'.log == sys.log
    && sys'.running.Keys == sys.running.Keys && i in sys.running
    && sys'.running[i].step == sys.running[i].step
    && forall j :: j in sys.running && j != i ==> sys'.running[j] == sys.running[j]
  }

  lemma LockOne(sys: System, i: int, row: Row)
    requires Uncontended(sys, i) && sys.running[i].held <= Locks(sys.committed, sys.running[i].step)
    requires row in Locks(sys.running[i].view, sys.running[i].step) && row !in sys.running[i].held
    ensures var sys' := Next(sys, Lock(i, row));
      && OnlyLocked(sys, sys', i) && Uncontended(sys', i)
      && sys'.running[i].held == sys.running[i].held + {row}
      && sys'.running[i].held <= Locks(sys.committed, sys.running[i].step)
  {
    LocksGrow(sys.running[i].view, sys.committed, sys.running[i].step);
    assert row in Locks(sys.committed, sys.running[i].step);
    CopyStaysFresh(sys.running[i].view, sys.committed, row);
  }

  /** An uncontended call gets all its locks, whatever else is running. */
  lemma {:induction false} TakeAllLocks(sys: System, i: int) returns (ms: seq<Micro>)
    requires Uncontended(sys, i) && sys.running[i].held <= Locks(sys.committed, sys.running[i].step)
    ensures var sys' := Interleave(sys, ms); OnlyLocked(sys, sys', i) && FullyLocked(sys', i)
    decreases Locks(sys.committed, sys.running[i].step) - sys.running[i].held
  {
    var t := sys.running[i];
    if Locks(t.view, t.step) <= t.held {
      ms := [];
    } else {
      var row :| row in Locks(t.view, t.step) && row !in t.held;
      var sys1 := Next(sys, Lock(i, row));
      LockOne(sys, i, row);
      LocksGrow(t.view, sys.committed, t.step);
      var rest := TakeAllLocks(sys1, i);
      ms := [Lock(i, row)] + rest;
      InterleaveOne(sys, Lock(i, row));
      InterleaveAppend(sys, [Lock(i, row)], rest);
    }
  }

  lemma BeginUncontended(sys: System, i: int, step: Step)
    requires i !in sys.running && ValidConfig(step)
    requires forall row :: row in Locks(sys.committed, step) ==>
      Shared(sys.committed, row) || forall j :: j in sys.running ==> row !in sys.running[j].held
    ensures var sys' := Next(sys, Begin(i, step));
      && Uncontended(sys', i) && sys'.running[i].held == {} && sys'.running[i].step == step
      && sys'.committed == sys.committed && sys'.log == sys.log
      && sys'.running == sys.running[i := sys'.running[i]]
  {
  }

  /** Begin a call and take all its locks. */
  lemma StartCall(sys: System, i: int, step: Step) returns (ms: seq<Micro>)
    requires i !in sys.running && ValidConfig(step)
    requires forall row :: row in Locks(sys.committed, step) ==>
      Shared(sys.committed, row) || forall j :: j in sys.running ==> row !in sys.running[j].held
    ensures var sys' := Interleave(sys, ms);
      && FullyLocked(sys', i) && sys'.running[i].step == step
      && sys'.committed == sys.committed && sys'.log == sys.log && sys'.running.Keys == sys.running.Keys + {i}
      && forall j :: j in sys.running ==> sys'.running[j] == sys.running[j]
  {
    var sys1 := Next(sys, Begin(i, step));
    BeginUncontended(sys, i, step);
    var locks := TakeAllLocks(sys1, i);
    ms := [Begin(i, step)] + locks;
    InterleaveOne(sys, Begin(i, step));
    InterleaveAppend(sys, [Begin(i, step)], locks);
  }

  // ----- serial runs -----

  /** On an idle system a call can run from beginning to end, with the effect of the call. */
  lemma RunCall(sys: System, step: Step) returns (ms: seq<Micro>)
    requires Serial(sys) && sys.running == map[] && ValidConfig(step)
    ensures var sys' := Interleave(sys, ms);
      Serial(sys') && sys'.running == map[] && sys'.committed == Apply(sys.committed, step)
  {
    var start := StartCall(sys, 0, step);
    var locked := Interleave(sys, start);
    StaysSerial(sys, start);
    CommitIsAtomic(locked, 0);
    MicroSerial(locked, CommitTxn(0));
    ms := start + [CommitTxn(0)];
    InterleaveAppend(sys, start, [CommitTxn(0)]);
    InterleaveOne(locked, CommitTxn(0));
    assert locked.running - {0} == map[];
  }

  /** Every serial run is an interleaving: the system commits whatever the procedures commit. */
  lemma {:induction false} SerialRunsAreInterleavings(steps: seq<Step>) returns (ms: seq<Micro>)
    requires ValidRun(steps)
    ensures var sys := Interleave(IDLE, ms);
      sys.committed == Run(EMPTY, steps) && sys.running == map[] && Serial(sys)
    decreases |steps|
  {
    if steps == [] {
      ms := [];
    } else {
      var front, step := steps[..|steps| - 1], steps[|steps| - 1];
      var before := SerialRunsAreInterleavings(front);
      assert ValidConfig(step);
      var more := RunCall(Interleave(IDLE, before), step);
      ms := before + more;
      InterleaveAppend(IDLE, before, more);
    }
  }

  // ----- calls that overlap -----

  /** Two calls whose lock sets meet only in shared rows hold all their locks at the same time, and then
      commit one after the other. */
  lemma IndependentCallsOverlap(sys: System, a: Step, b: Step) returns (ms: seq<Micro>)
    requires Serial(sys) && sys.running == map[] && ValidConfig(a) && ValidConfig(b)
    requires forall row :: row in Locks(sys.committed, a) && row in Locks(sys.committed, b) ==>
      Shared(sys.committed, row)
    ensures var both := Interleave(sys, ms);
      && FullyLocked(both, 1) && both.running[1].step == a
      && FullyLocked(both, 2) && both.running[2].step == b
      && both.committed == sys.committed
      && Next(both, CommitTxn(1)).committed == Apply(sys.committed, a)
      && Next(Next(both, CommitTxn(1)), CommitTxn(2)).committed == Apply(Apply(sys.committed, a), b)
  {
    var first := StartCall(sys, 1, a);
    var one := Interleave(sys, first);
    var second := StartCall(one, 2, b);
    var both := Interleave(one, second);
    ms := first + second;
    InterleaveAppend(sys, first, second);
    StaysSerial(sys, ms);
    CommitsInTurn(both, 1, 2);
  }

  lemma CommitsInTurn(sys: System, i: int, j: int)
    requires Serial(sys) && i != j && FullyLocked(sys, i) && FullyLocked(sys, j)
    ensures var sys' := Next(sys, CommitTxn(i));
      && sys'.committed == Apply(sys.committed, sys.running[i].step)
      && Next(sys', CommitTxn(j)).committed == Apply(sys'.committed, sys.running[j].step)
  {
    CommitIsAtomic(sys, i);
    MicroSerial(sys, CommitTxn(i));
    CommitIsAtomic(Next(sys, CommitTxn(i)), j);
  }

  /** Deposit confirmations for different owners, and withdraw requests of different users, are independent. */
  lemma OwnersAreIndependent(s: Ledger, a: Step, b: Step, row: Row)
    requires && (a.ConfirmDeposit? || a.CreateWithdraw?) && (b.ConfirmDeposit? || b.CreateWithdraw?)
    requires OwnerIn(s, a) != OwnerIn(s, b) && a.serial != b.serial
    requires row in Locks(s, a) && row in Locks(s, b)
    ensures Shared(s, row)
  {
  }

  function OwnerIn(s: Ledger, step: Step): Option<UserId>
    requires step.ConfirmDeposit? || step.CreateWithdraw?
  {
    match step
    case ConfirmDeposit(n, _, _) =>
      var id := TicketId(DepositKind, n);
      if id in s.tickets then Some(s.tickets[id].user) else None
    case CreateWithdraw(_, u, _, _, _, _, _) => Some(u)
  }
}
