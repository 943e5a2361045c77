/** Cashier status and the session rows that record online time. Times are in microseconds. */
module CashierSessions {
  import opened Sums

  type Cashier = int
  type Time = int

  const SECOND := 1_000_000
  const HALF := SECOND / 2

  datatype Status = Online | Offline | OnBreak

  datatype EndReason = ManualOffline | ManualBreak | TimedOut

  datatype Session = Session(cashier: Cashier, started: Time, ended: Option<Time>, duration: Option<int>,
    reason: Option<EndReason>)

  /** `users` are the rows of `core.users`, which the audit log refers to. */
  datatype State = State(users: set<int>, status: map<Cashier, Status>, sessions: seq<Session>)

  datatype Error = InvalidStatus | CashierNotOnline | ForeignKeyViolation

  predicate IsOnline(s: State, c: Cashier) {
    c in s.status && s.status[c] == Online
  }

  /** `EXTRACT(EPOCH FROM d)::BIGINT`: seconds, rounded to the nearest, halves away from zero. */
  function Rounded(d: int): int {
    if d >= 0 then (d + HALF) / SECOND else -((-d + HALF) / SECOND)
  }

  function CloseOne(r: Session, c: Cashier, now: Time, why: EndReason): Session {
    if r.cashier == c && r.ended.None? then
      r.(ended := Some(now), duration := Some(Rounded(now - r.started)), reason := Some(why))
    else r
  }

  /** `UPDATE dw.cashier_sessions ... WHERE discord_id = c AND ended_at IS NULL`. */
  function Close(ss: seq<Session>, c: Cashier, now: Time, why: EndReason): (r: seq<Session>)
    ensures |r| == |ss| && forall i :: 0 <= i < |ss| ==> r[i] == CloseOne(ss[i], c, now, why)
  {
    if ss == [] then [] else Close(ss[..|ss| - 1], c, now, why) + [CloseOne(ss[|ss| - 1], c, now, why)]
  }

  function Opened(c: Cashier, now: Time): Session {
    Session(c, now, None, None, None)
  }

  /** None stands for a status text outside the three allowed ones. */
  datatype Step =
    | Register(user: int, now: Time)
    | SetStatus(cashier: Cashier, status: Option<Status>, now: Time)
    | Expire(cashier: Cashier, now: Time)

  datatype Outcome = Commit(state: State) | Abort(error: Error)

  function PlanSetStatus(s: State, c: Cashier, status: Option<Status>, now: Time): Outcome {
    if status.None? then Abort(InvalidStatus)
    else
      var s' := s.(status := s.status[c := status.value]);
      if status.value == Online && !IsOnline(s, c) then Commit(s'.(sessions := s.sessions + [Opened(c, now)]))
      else if IsOnline(s, c) && status.value != Online then
        Commit(s'.(sessions := Close(s.sessions, c, now,
          if status.value == OnBreak then ManualBreak else ManualOffline)))
      else Commit(s')
  }

  /** Its audit row targets the cashier directly, so it needs the cashier's own user row. */
  function PlanExpire(s: State, c: Cashier, now: Time): Outcome {
    if !IsOnline(s, c) then Abort(CashierNotOnline)
    else if c !in s.users then Abort(ForeignKeyViolation)
    else Commit(s.(status := s.status[c := Offline], sessions := Close(s.sessions, c, now, TimedOut)))
  }

  function Settle(s: State, o: Outcome): State {
    if o.Commit? then o.state else s
  }

  function Apply(s: State, step: Step): State {
    match step
    case Register(u, _) => s.(users := s.users + {u})
    case SetStatus(c, st, now) => Settle(s, PlanSetStatus(s, c, st, now))
    case Expire(c, now) => Settle(s, PlanExpire(s, c, now))
  }

  const EMPTY := State({0}, map[], [])

  function Run(steps: seq<Step>): State {
    if steps == [] then EMPTY else Apply(Run(steps[..|steps| - 1]), steps[|steps| - 1])
  }

  ghost predicate Monotone(steps: seq<Step>, start: Time) {
    && (forall i :: 0 <= i < |steps| ==> start <= steps[i].now)
    && (forall i, j :: 0 <= i < j < |steps| ==> steps[i].now <= steps[j].now)
  }

  function Clock(steps: seq<Step>, start: Time): Time {
    if steps == [] then start else steps[|steps| - 1].now
  }

  // ----- what every run keeps -----

  predicate RowOk(r: Session, start: Time, clock: Time) {
    && start <= r.started <= clock
    && (r.ended.Some? ==> r.started <= r.ended.value <= clock && r.duration == Some(Rounded(r.ended.value - r.started)))
    && (r.ended.None? ==> r.duration.None?)
  }

  /** Two sessions of one cashier: the earlier one is closed before the later one starts. */
  predicate Disjoint(a: Session, b: Session) {
    a.cashier == b.cashier ==> a.ended.Some? && a.ended.value <= b.started
  }

  ghost predicate HasOpen(ss: seq<Session>, c: Cashier) {
    exists i :: 0 <= i < |ss| && ss[i].cashier == c && ss[i].ended.None?
  }

  /** An earlier session of the same cashier has ended. */
  predicate Succeeds(a: Session, b: Session) {
    a.cashier == b.cashier ==> a.ended.Some?
  }

  /** What holds whatever the clock does. */
  ghost predicate StatusInv(s: State) {
    && (forall i, j :: 0 <= i < j < |s.sessions| ==> Succeeds(s.sessions[i], s.sessions[j]))
    && (forall c :: HasOpen(s.sessions, c) <==> IsOnline(s, c))
  }

  /** What holds under a monotone clock. */
  ghost predicate Inv(s: State, start: Time, clock: Time) {
    && start <= clock
    && StatusInv(s)
    && (forall i :: 0 <= i < |s.sessions| ==> RowOk(s.sessions[i], start, clock))
    && (forall i, j :: 0 <= i < j < |s.sessions| ==> Disjoint(s.sessions[i], s.sessions[j]))
  }

  function WithClosed(s: State, c: Cashier, st: Status, now: Time, why: EndReason): State {
    s.(status := s.status[c := st], sessions := Close(s.sessions, c, now, why))
  }

  function WithOpened(s: State, c: Cashier, now: Time): State {
    s.(status := s.status[c := Online], sessions := s.sessions + [Opened(c, now)])
  }

  lemma CloseKeepsStatus(s: State, c: Cashier, st: Status, now: Time, why: EndReason)
    requires StatusInv(s) && st != Online
    ensures StatusInv(WithClosed(s, c, st, now, why))
  {
    var ss, s' := s.sessions, WithClosed(s, c, st, now, why);
    forall i, j | 0 <= i < j < |ss|
      ensures Succeeds(s'.sessions[i], s'.sessions[j])
    {
      assert Succeeds(ss[i], ss[j]);
    }
    forall d
      ensures HasOpen(s'.sessions, d) <==> IsOnline(s', d)
    {
      assert HasOpen(ss, d) <==> IsOnline(s, d);
      CloseLeavesOthers(ss, c, now, why, d);
    }
  }

  lemma CloseLeavesOthers(ss: seq<Session>, c: Cashier, now: Time, why: EndReason, d: Cashier)
    ensures HasOpen(Close(ss, c, now, why), d) <==> HasOpen(ss, d) && d != c
  {
    var ss' := Close(ss, c, now, why);
    forall i | 0 <= i < |ss|
      ensures ss'[i].cashier == d && ss'[i].ended.None? <==> ss[i].cashier == d && ss[i].ended.None? && d != c
    {
      assert ss'[i] == CloseOne(ss[i], c, now, why);
    }
  }

  lemma OpenKeepsStatus(s: State, c: Cashier, now: Time)
    requires StatusInv(s) && !IsOnline(s, c)
    ensures StatusInv(WithOpened(s, c, now))
  {
    var ss, s' := s.sessions, WithOpened(s, c, now);
    forall i, j | 0 <= i < j < |s'.sessions|
      ensures Succeeds(s'.sessions[i], s'.sessions[j])
    {
      assert ss[i].ended.None? && ss[i].cashier == c ==> HasOpen(ss, c);
      if j < |ss| {
        assert Succeeds(ss[i], ss[j]);
      }
    }
    forall d
      ensures HasOpen(s'.sessions, d) <==> IsOnline(s', d)
    {
      assert HasOpen(ss, d) <==> IsOnline(s, d);
      OpenAddsOne(ss, c, now, d);
    }
  }

  lemma OpenAddsOne(ss: seq<Session>, c: Cashier, now: Time, d: Cashier)
    ensures HasOpen(ss + [Opened(c, now)], d) <==> HasOpen(ss, d) || d == c
  {
    var ss' := ss + [Opened(c, now)];
    assert ss'[|ss|].cashier == c;
    if HasOpen(ss, d) {
      var i :| 0 <= i < |ss| && ss[i].cashier == d && ss[i].ended.None?;
      assert ss'[i].cashier == d;
    }
    if HasOpen(ss', d) && d != c {
      var i :| 0 <= i < |ss'| && ss'[i].cashier == d && ss'[i].ended.None?;
      assert ss[i].cashier == d;
    }
  }

  lemma StepKeepsStatus(s: State, step: Step)
    requires StatusInv(s)
    ensures StatusInv(Apply(s, step))
  {
    match step
    case Register(u, now) => assert forall c :: IsOnline(Apply(s, step), c) == IsOnline(s, c);
    case SetStatus(c, st, now) =>
      if st.Some? {
        if st.value == Online && !IsOnline(s, c) {
          OpenKeepsStatus(s, c, now);
        } else if IsOnline(s, c) && st.value != Online {
          CloseKeepsStatus(s, c, st.value, now, if st.value == OnBreak then ManualBreak else ManualOffline);
        } else {
          assert forall d :: IsOnline(Apply(s, step), d) == IsOnline(s, d);
        }
      }
    case Expire(c, now) =>
      if PlanExpire(s, c, now).Commit? {
        CloseKeepsStatus(s, c, Offline, now, TimedOut);
      }
  }

  lemma {:induction false} RunKeepsStatus(steps: seq<Step>)
    ensures StatusInv(Run(steps))
    decreases |steps|
  {
    if steps != [] {
      RunKeepsStatus(steps[..|steps| - 1]);
      StepKeepsStatus(Run(steps[..|steps| - 1]), steps[|steps| - 1]);
    }
  }

  lemma CloseKeeps(s: State, c: Cashier, st: Status, now: Time, why: EndReason, start: Time, clock: Time)
    requires Inv(s, start, clock) && clock <= now && st != Online
    ensures Inv(WithClosed(s, c, st, now, why), start, now)
  {
    var ss, s' := s.sessions, WithClosed(s, c, st, now, why);
    CloseKeepsStatus(s, c, st, now, why);
    forall i | 0 <= i < |ss|
      ensures RowOk(s'.sessions[i], start, now)
    {
      assert RowOk(ss[i], start, clock);
    }
    forall i, j | 0 <= i < j < |ss|
      ensures Disjoint(s'.sessions[i], s'.sessions[j])
    {
      assert Disjoint(ss[i], ss[j]);
    }
  }

  lemma OpenKeeps(s: State, c: Cashier, now: Time, start: Time, clock: Time)
    requires Inv(s, start, clock) && clock <= now && !IsOnline(s, c)
    ensures Inv(WithOpened(s, c, now), start, now)
  {
    var ss, s' := s.sessions, WithOpened(s, c, now);
    OpenKeepsStatus(s, c, now);
    forall i | 0 <= i < |s'.sessions|
      ensures RowOk(s'.sessions[i], start, now)
    {
      assert i < |ss| ==> RowOk(ss[i], start, clock);
    }
    forall i, j | 0 <= i < j < |s'.sessions|
      ensures Disjoint(s'.sessions[i], s'.sessions[j])
    {
      assert RowOk(ss[i], start, clock);
      assert Succeeds(s'.sessions[i], s'.sessions[j]);
      if j < |ss| {
        assert Disjoint(ss[i], ss[j]);
      }
    }
  }

  lemma SameKeeps(s: State, s': State, start: Time, clock: Time, now: Time)
    requires Inv(s, start, clock) && clock <= now && s'.sessions == s.sessions
    requires forall c :: IsOnline(s', c) == IsOnline(s, c)
    ensures Inv(s', start, now)
  {
    forall i | 0 <= i < |s.sessions|
      ensures RowOk(s.sessions[i], start, now)
    {
      assert RowOk(s.sessions[i], start, clock);
    }
  }

  lemma StepKeepsInv(s: State, step: Step, start: Time, clock: Time)
    requires Inv(s, start, clock) && clock <= step.now
    ensures Inv(Apply(s, step), start, step.now)
  {
    SameKeeps(s, s, start, clock, step.now);
    match step
    case Register(u, now) => SameKeeps(s, Apply(s, step), start, clock, now);
    case SetStatus(c, st, now) =>
      if st.Some? {
        if st.value == Online && !IsOnline(s, c) {
          OpenKeeps(s, c, now, start, clock);
        } else if IsOnline(s, c) && st.value != Online {
          CloseKeeps(s, c, st.value, now, if st.value == OnBreak then ManualBreak else ManualOffline, start, clock);
        } else {
          SameKeeps(s, Apply(s, step), start, clock, now);
        }
      }
    case Expire(c, now) =>
      if PlanExpire(s, c, now).Commit? {
        CloseKeeps(s, c, Offline, now, TimedOut, start, clock);
      }
  }

  lemma {:induction false} RunKeepsInv(steps: seq<Step>, start: Time)
    requires Monotone(steps, start)
    ensures Inv(Run(steps), start, Clock(steps, start))
    decreases |steps|
  {
    if steps != [] {
      var front := steps[..|steps| - 1];
      RunKeepsInv(front, start);
      StepKeepsInv(Run(front), steps[|steps| - 1], start, Clock(front, start));
    }
  }

  // ----- the guarantees -----

  /** A cashier has an open session exactly when online, and never two, whatever the clock shows:
      `NOW()` is the start of a transaction, so serialised calls may carry decreasing times. */
  lemma OpenSessionIffOnline(steps: seq<Step>, c: Cashier)
    ensures HasOpen(Run(steps).sessions, c) <==> IsOnline(Run(steps), c)
    ensures var ss := Run(steps).sessions;
      forall i, j :: 0 <= i < j < |ss| && ss[i].cashier == ss[j].cashier == c ==> ss[i].ended.Some?
  {
    RunKeepsStatus(steps);
    var ss := Run(steps).sessions;
    forall i, j | 0 <= i < j < |ss| && ss[i].cashier == ss[j].cashier == c
      ensures ss[i].ended.Some?
    {
      assert Succeeds(ss[i], ss[j]);
    }
  }

  /** The sessions of one cashier do not overlap. */
  lemma SessionsDoNotOverlap(steps: seq<Step>, start: Time, i: nat, j: nat)
    requires Monotone(steps, start) && i < j < |Run(steps).sessions|
    requires Run(steps).sessions[i].cashier == Run(steps).sessions[j].cashier
    ensures var ss := Run(steps).sessions;
      ss[i].ended.Some? && ss[i].started <= ss[i].ended.value <= ss[j].started
  {
    RunKeepsInv(steps, start);
    var ss := Run(steps).sessions;
    assert RowOk(ss[i], start, Clock(steps, start)) && Disjoint(ss[i], ss[j]);
  }

  /** Online time of the closed sessions, before and after rounding, and their number. */
  function TimeSpent(ss: seq<Session>, c: Cashier): int {
    if ss == [] then 0
    else
      var r := ss[|ss| - 1];
      TimeSpent(ss[..|ss| - 1], c) + if r.cashier == c && r.ended.Some? then r.ended.value - r.started else 0
  }

  function RoundedSpent(ss: seq<Session>, c: Cashier): int {
    if ss == [] then 0
    else
      var r := ss[|ss| - 1];
      RoundedSpent(ss[..|ss| - 1], c) + if r.cashier == c && r.duration.Some? then r.duration.value else 0
  }

  function ClosedCount(ss: seq<Session>, c: Cashier): nat {
    if ss == [] then 0
    else
      var r := ss[|ss| - 1];
      ClosedCount(ss[..|ss| - 1], c) + if r.cashier == c && r.ended.Some? then 1 else 0
  }

  lemma {:induction false} TimeFits(ss: seq<Session>, k: nat, c: Cashier, start: Time, clock: Time, x: Time)
    requires k <= |ss| && start <= x
    requires forall i :: 0 <= i < |ss| ==> RowOk(ss[i], start, clock)
    requires forall i, j :: 0 <= i < j < |ss| ==> Disjoint(ss[i], ss[j])
    requires forall i :: 0 <= i < k && ss[i].cashier == c && ss[i].ended.Some? ==> ss[i].ended.value <= x
    ensures TimeSpent(ss[..k], c) <= x - start
    decreases k
  {
    if k > 0 {
      var r := ss[k - 1];
      assert ss[..k][..k - 1] == ss[..k - 1];
      assert RowOk(r, start, clock);
      if r.cashier == c && r.ended.Some? {
        forall i | 0 <= i < k - 1 && ss[i].cashier == c && ss[i].ended.Some?
          ensures ss[i].ended.value <= r.started
        {
          assert Disjoint(ss[i], ss[k - 1]);
        }
        TimeFits(ss, k - 1, c, start, clock, r.started);
      } else {
        TimeFits(ss, k - 1, c, start, clock, x);
      }
    }
  }

  /** The online time of a cashier never exceeds the time that has passed. */
  lemma OnlineTimeFits(steps: seq<Step>, start: Time, c: Cashier)
    requires Monotone(steps, start)
    ensures TimeSpent(Run(steps).sessions, c) <= Clock(steps, start) - start
  {
    RunKeepsInv(steps, start);
    var ss, clock := Run(steps).sessions, Clock(steps, start);
    forall i | 0 <= i < |ss| && ss[i].cashier == c && ss[i].ended.Some?
      ensures ss[i].ended.value <= clock
    {
      assert RowOk(ss[i], start, clock);
    }
    TimeFits(ss, |ss|, c, start, clock, clock);
    assert ss[..|ss|] == ss;
  }

  /** A stored duration stays within the true one exactly when the fraction rounds down. */
  lemma RoundsDownIff(d: int)
    requires d >= 0
    ensures Rounded(d) * SECOND <= d <==> d % SECOND < HALF
    ensures Rounded(d) * SECOND <= d + HALF
  {
  }

  lemma RowFits(r: Session, start: Time, clock: Time)
    requires RowOk(r, start, clock)
    ensures r.ended.Some? <==> r.duration.Some?
    ensures r.ended.Some? ==> r.duration.value * SECOND <= r.ended.value - r.started + HALF
  {
    if r.ended.Some? {
      RoundsDownIff(r.ended.value - r.started);
    }
  }

  lemma {:induction false} RoundedFits(ss: seq<Session>, c: Cashier, start: Time, clock: Time)
    requires forall i :: 0 <= i < |ss| ==> RowOk(ss[i], start, clock)
    ensures RoundedSpent(ss, c) * SECOND <= TimeSpent(ss, c) + ClosedCount(ss, c) * HALF
    decreases |ss|
  {
    if ss != [] {
      RoundedFits(ss[..|ss| - 1], c, start, clock);
      RowFits(ss[|ss| - 1], start, clock);
    }
  }

  /** The stored durations add at most half a second per closed session. */
  lemma StoredDurationsFit(steps: seq<Step>, start: Time, c: Cashier)
    requires Monotone(steps, start)
    ensures RoundedSpent(Run(steps).sessions, c) * SECOND
         <= Clock(steps, start) - start + ClosedCount(Run(steps).sessions, c) * HALF
  {
    RunKeepsInv(steps, start);
    OnlineTimeFits(steps, start, c);
    RoundedFits(Run(steps).sessions, c, start, Clock(steps, start));
  }

  // ----- exactly when the stored durations fit -----

  /** The length of every closed session of `c` is one of `lengths`. */
  ghost predicate LengthsIn(ss: seq<Session>, c: Cashier, lengths: iset<int>) {
    forall i :: 0 <= i < |ss| && ss[i].cashier == c && ss[i].ended.Some? ==>
      ss[i].ended.value - ss[i].started in lengths
  }

  /** In every monotone run with sessions of these lengths, the stored sum is within the elapsed time. */
  ghost predicate AlwaysFits(c: Cashier, lengths: iset<int>) {
    forall steps, start :: Monotone(steps, start) && LengthsIn(Run(steps).sessions, c, lengths) ==>
      RoundedSpent(Run(steps).sessions, c) * SECOND <= Clock(steps, start) - start
  }

  ghost predicate RoundDown(lengths: iset<int>) {
    forall d :: d in lengths ==> d % SECOND < HALF
  }

  lemma {:induction false} RoundedWithin(ss: seq<Session>, c: Cashier, lengths: iset<int>, start: Time, clock: Time)
    requires forall i :: 0 <= i < |ss| ==> RowOk(ss[i], start, clock)
    requires LengthsIn(ss, c, lengths) && RoundDown(lengths)
    ensures RoundedSpent(ss, c) * SECOND <= TimeSpent(ss, c)
    decreases |ss|
  {
    if ss != [] {
      var r := ss[|ss| - 1];
      RoundedWithin(ss[..|ss| - 1], c, lengths, start, clock);
      assert RowOk(r, start, clock);
      if r.cashier == c && r.ended.Some? {
        RoundsDownIff(r.ended.value - r.started);
      }
    }
  }

  function On(c: Cashier, t: Time): Step {
    SetStatus(c, Some(Online), t)
  }

  function Off(c: Cashier, t: Time): Step {
    SetStatus(c, Some(Offline), t)
  }

  /** One shift of length `d`. */
  function OneShift(c: Cashier, d: Time): seq<Step> {
    [On(c, 0), Off(c, d)]
  }

  function ShiftRow(c: Cashier, d: Time): Session {
    Session(c, 0, Some(d), Some(Rounded(d)), Some(ManualOffline))
  }

  lemma RunPair(a: Step, b: Step)
    ensures Run([a, b]) == Apply(Apply(EMPTY, a), b)
  {
    assert [a, b][..1] == [a] && [a][..0] == [];
    assert Run([a]) == Apply(EMPTY, a);
  }

  lemma CloseSingle(r: Session, c: Cashier, now: Time, why: EndReason)
    ensures Close([r], c, now, why) == [CloseOne(r, c, now, why)]
  {
  }

  lemma OnOpens(s: State, c: Cashier, t: Time)
    requires !IsOnline(s, c)
    ensures Apply(s, On(c, t)) == WithOpened(s, c, t)
  {
  }

  lemma OffCloses(s: State, c: Cashier, t: Time)
    requires IsOnline(s, c)
    ensures Apply(s, Off(c, t)) == WithClosed(s, c, Offline, t, ManualOffline)
  {
  }

  lemma FirstShift(s: State, c: Cashier, d: Time)
    requires s.sessions == [] && !IsOnline(s, c)
    ensures Apply(Apply(s, On(c, 0)), Off(c, d)).sessions == [ShiftRow(c, d)]
  {
    OnOpens(s, c, 0);
    OffCloses(WithOpened(s, c, 0), c, d);
    assert s.sessions + [Opened(c, 0)] == [Opened(c, 0)];
    CloseSingle(Opened(c, 0), c, d, ManualOffline);
  }

  lemma OneShiftStores(c: Cashier, d: Time)
    ensures Run(OneShift(c, d)).sessions == [ShiftRow(c, d)]
  {
    RunPair(On(c, 0), Off(c, d));
    FirstShift(EMPTY, c, d);
  }

  lemma OneRowSpent(c: Cashier, d: Time)
    ensures RoundedSpent([ShiftRow(c, d)], c) == Rounded(d)
  {
    assert [ShiftRow(c, d)][..0] == [];
  }

  lemma OneShiftIsMonotone(c: Cashier, d: Time)
    requires d >= 0
    ensures Monotone(OneShift(c, d), 0) && Clock(OneShift(c, d), 0) == d
  {
  }

  /** The failing case: one shift whose fraction of a second is at least one half. */
  lemma StoredDurationsCanExceedElapsed(c: Cashier, d: Time)
    requires d >= 0 && d % SECOND >= HALF
    ensures Monotone(OneShift(c, d), 0)
    ensures RoundedSpent(Run(OneShift(c, d)).sessions, c) * SECOND > Clock(OneShift(c, d), 0)
  {
    OneShiftStores(c, d);
    OneRowSpent(c, d);
    RoundsDownIff(d);
    OneShiftIsMonotone(c, d);
  }

  lemma OneShiftExceeds(c: Cashier, d: Time, lengths: iset<int>)
    requires d >= 0 && d in lengths && d % SECOND >= HALF
    ensures !AlwaysFits(c, lengths)
  {
    StoredDurationsCanExceedElapsed(c, d);
    OneShiftStores(c, d);
    assert LengthsIn([ShiftRow(c, d)], c, lengths);
  }

  /** The exact condition: whatever a cashier does with sessions of the given lengths, the stored
      durations stay within the elapsed time if and only if every length has a fraction below one half. */
  lemma StoredDurationsFitIff(c: Cashier, lengths: iset<int>)
    requires forall d :: d in lengths ==> d >= 0
    ensures AlwaysFits(c, lengths) <==> RoundDown(lengths)
  {
    if RoundDown(lengths) {
      forall steps, start | Monotone(steps, start) && LengthsIn(Run(steps).sessions, c, lengths)
        ensures RoundedSpent(Run(steps).sessions, c) * SECOND <= Clock(steps, start) - start
      {
        RunKeepsInv(steps, start);
        OnlineTimeFits(steps, start, c);
        RoundedWithin(Run(steps).sessions, c, lengths, start, Clock(steps, start));
      }
    } else {
      var d :| d in lengths && d % SECOND >= HALF;
      OneShiftExceeds(c, d, lengths);
    }
  }

  // ----- expiry -----

  /** The idle worker's expiry commits exactly for an online cashier who has a user row. */
  lemma ExpireCommitsIff(s: State, c: Cashier, now: Time)
    ensures PlanExpire(s, c, now).Commit? <==> IsOnline(s, c) && c in s.users
  {
  }

  /** Going online needs no user row, so a cashier can be online for good as far as expiry goes. */
  lemma UnregisteredNeverExpires(c: Cashier, t: Time, now: Time)
    requires c != 0
    ensures IsOnline(Run([On(c, t)]), c) && PlanExpire(Run([On(c, t)]), c, now) == Abort(ForeignKeyViolation)
  {
    assert [On(c, t)][..0] == [];
    assert Run([On(c, t)]) == Apply(EMPTY, On(c, t));
  }

  /** With a user row the shift is closed at the expiry, as timed out. */
  lemma RegisteredExpires(c: Cashier, t0: Time, t: Time, now: Time)
    ensures var s := Run([Register(c, t0), On(c, t), Expire(c, now)]);
      && s.sessions == [Session(c, t, Some(now), Some(Rounded(now - t)), Some(TimedOut))]
      && s.status == map[c := Offline]
  {
    var s0 := Apply(EMPTY, Register(c, t0));
    RunPair(Register(c, t0), On(c, t));
    assert [Register(c, t0), On(c, t), Expire(c, now)][..2] == [Register(c, t0), On(c, t)];
    OnOpens(s0, c, t);
    assert s0.sessions + [Opened(c, t)] == [Opened(c, t)];
    CloseSingle(Opened(c, t), c, now, TimedOut);
  }

  // ----- what the steps do, row by row -----

  /** Seconds, to the nearest one, with halves away from zero. */
  lemma RoundedIs(d: int)
    ensures d >= 0 ==> Rounded(d) * 1_000_000 - 500_000 <= d < Rounded(d) * 1_000_000 + 500_000
    ensures Rounded(-d) == -Rounded(d)
  {
  }

  /** The open rows of `c` are ended now, with the elapsed time rounded to seconds; no other row changes. */
  ghost predicate Ended(ss: seq<Session>, ss': seq<Session>, c: Cashier, now: Time, why: EndReason) {
    && |ss'| == |ss|
    && forall i :: 0 <= i < |ss| ==>
         ss'[i] == if ss[i].cashier == c && ss[i].ended.None?
                   then Session(c, ss[i].started, Some(now), Some(Rounded(now - ss[i].started)), Some(why)) else ss[i]
  }

  /** Going online opens a session, leaving online ends it under the reason of the new status. */
  lemma SetStatusEffect(s: State, c: Cashier, to: Status, now: Time)
    ensures var s' := Apply(s, SetStatus(c, Some(to), now));
      && s'.status == s.status[c := to] && s'.users == s.users
      && (to == Online && !IsOnline(s, c) ==> s'.sessions == s.sessions + [Session(c, now, None, None, None)])
      && (to == OnBreak && IsOnline(s, c) ==> Ended(s.sessions, s'.sessions, c, now, ManualBreak))
      && (to == Offline && IsOnline(s, c) ==> Ended(s.sessions, s'.sessions, c, now, ManualOffline))
      && ((to == Online) == IsOnline(s, c) ==> s'.sessions == s.sessions)
  {
  }

  lemma ExpireEffect(s: State, c: Cashier, now: Time)
    requires IsOnline(s, c) && c in s.users
    ensures var s' := Apply(s, Expire(c, now));
      && s'.status == s.status[c := Offline] && s'.users == s.users
      && Ended(s.sessions, s'.sessions, c, now, TimedOut)
  {
  }

  // ----- the procedures as they are written -----

  class CashierTables {
    var users: set<int>
    var status: map<Cashier, Status>
    var sessions: seq<Session>

    function Snapshot(): State
      reads this
    {
      State(users, status, sessions)
    }

    constructor ()
      ensures Snapshot() == EMPTY
    {
      users, status, sessions := {0}, map[], [];
    }

    /** End every open session of the cashier. */
    method CloseSessions(c: Cashier, now: Time, why: EndReason)
      modifies this`sessions
      ensures sessions == Close(old(sessions), c, now, why)
    {
      var done: seq<Session> := [];
      for i := 0 to |sessions|
        invariant sessions == old(sessions)
        invariant done == Close(sessions[..i], c, now, why)
      {
        assert sessions[..i + 1][..i] == sessions[..i];
        var r := sessions[i];
        if r.cashier == c && r.ended.None? {
          r := r.(ended := Some(now), duration := Some(Rounded(now - r.started)), reason := Some(why));
        }
        done := done + [r];
      }
      assert sessions[..|sessions|] == sessions;
      sessions := done;
    }

    method SetCashierStatus(c: Cashier, to: Option<Status>, now: Time) returns (error: Option<Error>)
      modifies this`status, this`sessions
      ensures Snapshot() == Settle(old(Snapshot()), PlanSetStatus(old(Snapshot()), c, to, now))
      ensures error == if to.None? then Some(InvalidStatus) else None
    {
      if to.None? {
        return Some(InvalidStatus);
      }
      var was := if c in status then Some(status[c]) else None;
      status := status[c := to.value];
      if to.value == Online && was != Some(Online) {
        sessions := sessions + [Session(c, now, None, None, None)];
      } else if was == Some(Online) && to.value != Online {
        CloseSessions(c, now, if to.value == OnBreak then ManualBreak else ManualOffline);
      }
      return None;
    }

    method ExpireCashier(c: Cashier, now: Time) returns (error: Option<Error>)
      modifies this`status, this`sessions
      ensures Snapshot() == Settle(old(Snapshot()), PlanExpire(old(Snapshot()), c, now))
      ensures var o := PlanExpire(old(Snapshot()), c, now); error == if o.Abort? then Some(o.error) else None
    {
      if c !in status || status[c] != Online {
        return Some(CashierNotOnline);
      }
      if c !in users {
        return Some(ForeignKeyViolation);
      }
      status := status[c := Offline];
      CloseSessions(c, now, TimedOut);
      return None;
    }
  }
}
