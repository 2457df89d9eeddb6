/** Two runs that pass a daily cap of 10, although every record is counted in the first one, and the checks
    of the second one are undisturbed. */
module SpendingRaces {
  import opened Base
  import opened Calendar
  import opened Spending
  import opened SpendingCaps
  import opened SpendingSerial

  const CAP: seq<Limit> := [Limit(Daily, 10)]

  /** Whether writes of counters cover, or checks are undisturbed. */
  datatype Mode = Covering | Undisturbed

  predicate Meets(m: Mode, s: State, a: Action) { if m.Covering? then Covers(s, a, CAP) else Serial(s, a, CAP) }

  predicate MeetsRun(m: Mode, actions: seq<Action>) { if m.Covering? then CoversRun(actions, CAP) else SerialRun(actions, CAP) }

  ghost predicate Reached(m: Mode, s: State) { exists actions :: Run(actions, CAP) == s && MeetsRun(m, actions) }

  ghost predicate ClosedUnder(r: iset<State>, m: Mode) {
    forall s, a {:trigger Apply(s, a, CAP)} :: s in r && Meets(m, s, a) ==> Apply(s, a, CAP) in r
  }

  lemma ReachedIsClosed(m: Mode)
    ensures var r := iset s | Reached(m, s); ClosedUnder(r, m) && START in r
  {
    var r := iset s | Reached(m, s);
    assert Run([], CAP) == START && MeetsRun(m, []);
    forall s, a | s in r && Meets(m, s, a) ensures Apply(s, a, CAP) in r {
      var actions :| Run(actions, CAP) == s && MeetsRun(m, actions);
      var more := actions + [a];
      assert more[..|actions|] == actions && more[|actions|] == a;
      assert Run(more, CAP) == Apply(s, a, CAP) && MeetsRun(m, more);
    }
  }

  lemma Do(r: iset<State>, m: Mode, s: State, a: Action, s': State)
    requires ClosedUnder(r, m) && s in r && Meets(m, s, a) && Apply(s, a, CAP) == s'
    ensures s' in r
  {}

  /** The counter is there, and the payout passes, is created and completes, all at once. */
  lemma Passes(r: iset<State>, m: Mode, s: State, i: nat)
    requires ClosedUnder(r, m) && s in r && i < |s.payouts| && (m.Undisturbed? ==> OthersIdle(s, i, CAP))
    requires var q := s.payouts[i]; q.pc == Look(0, []) && !q.completed && q.counted == {}
    requires Present(s, Daily) && s.counters[Daily].value + s.payouts[i].amount <= 10
    ensures Put(s, i, s.payouts[i].(at := s.now, completed := true, pc := Incr(0))) in r
  {
    var q := s.payouts[i];
    var q1 := q.(pc := Look(1, [] + [s.counters[Daily].value]));
    Do(r, m, s, Step(i), Put(s, i, q1));
    PassesOn(r, m, s, i, q1);
  }

  lemma PassesOn(r: iset<State>, m: Mode, s: State, i: nat, q: Payout)
    requires ClosedUnder(r, m) && i < |s.payouts| && (m.Undisturbed? ==> OthersIdle(s, i, CAP))
    requires Put(s, i, q) in r && q.pc.Look? && q.pc.k == 1 && q.counted == {}
    ensures Put(s, i, q.(at := s.now, completed := true, pc := Incr(0))) in r
  {
    var q1 := q.(pc := Passed(q.pc.seen), at := s.now);
    PutTwice(s, i, q, q1);
    Do(r, m, Put(s, i, q), Step(i), Put(s, i, q1));
    var q2 := q1.(pc := Created);
    PutTwice(s, i, q1, q2);
    Do(r, m, Put(s, i, q1), Step(i), Put(s, i, q2));
    var q3 := q2.(completed := true, pc := Incr(0));
    PutTwice(s, i, q2, q3);
    Do(r, m, Put(s, i, q2), Complete(i), Put(s, i, q3));
  }

  /** The record runs to its end. */
  lemma Records(r: iset<State>, m: Mode, s: State, i: nat)
    requires ClosedUnder(r, m) && s in r && i < |s.payouts| && s.payouts[i].pc == Incr(0) && s.payouts[i].counted == {}
    requires m.Covering? ==> Present(s, Daily)
    ensures Put(Bump(s, Daily, s.payouts[i].amount), i, s.payouts[i].(counted := {Daily}, pc := Ended)) in r
  {
    var q := s.payouts[i];
    assert {} + {Daily} == {Daily};
    var q1 := q.(counted := {Daily}, pc := Expire(0, SecondsUntilReset(Daily, s.now)));
    var s1 := Put(Raise(s, Daily, q.amount), i, q1);
    Do(r, m, s, Step(i), s1);
    var q2 := q1.(pc := Incr(1));
    PutTwice(Raise(s, Daily, q.amount), i, q1, q2);
    var s2 := Put(Bump(s, Daily, q.amount), i, q2);
    Do(r, m, s1, Step(i), s2);
    PutTwice(Bump(s, Daily, q.amount), i, q2, q2.(pc := Ended));
    Do(r, m, s2, Step(i), Put(Bump(s, Daily, q.amount), i, q2.(pc := Ended)));
  }

  /** With one payout that is not completed there is nothing to sum up, and nothing recorded. */
  lemma NothingYet(s: State, q: Payout)
    requires s.payouts == [q] && !q.completed && q.counted == {}
    ensures Aggregate(s, Daily) == 0 && WindowTotal(s, Recorded(Daily), Daily, s.now) == 0
  {
    assert [q][..0] == [] && [] + [q] == [q];
    TotalAdd([], q, Recorded(Daily), PeriodStart(Daily, s.now), PeriodReset(Daily, s.now));
    assert TotalSince([q], PeriodStart(Daily, s.now)) == 0;
  }

  lemma DoNext(r: iset<State>, m: Mode, s: State, q: Payout, q': Payout)
    requires ClosedUnder(r, m) && s in r && s.payouts == [q] && Next(s, 0, CAP) == s.(payouts := [q'])
    requires q.pc.Look? || q.pc.Sum?
    ensures s.(payouts := [q']) in r
  {
    Do(r, m, s, Step(0), s.(payouts := [q']));
  }

  /** The very first check finds no counter and caches zero. */
  lemma FirstCaches(r: iset<State>, m: Mode, now: nat, q: Payout)
    requires ClosedUnder(r, m) && q.pc == Look(0, []) && !q.completed && q.counted == {} && State(now, map[], [q]) in r
    ensures State(now, map[Daily := Counter(0, Some(Expiry(Daily, now)))], [q.(pc := Judge(q.amount, 0, [], 0, CAP))]) in r
  {
    var s := State(now, map[], [q]);
    var q1, q2 := q.(pc := Sum(0, [])), q.(pc := Fill(0, [], 0));
    assert [q][0 := q1] == [q1] && [q1][0 := q2] == [q2];
    DoNext(r, m, s, q, q1);
    var s1 := s.(payouts := [q1]);
    NothingYet(s1, q1);
    DoNext(r, m, s1, q1, q2);
    FirstFills(r, m, s.(payouts := [q2]), q2);
  }

  lemma FirstFills(r: iset<State>, m: Mode, s: State, q: Payout)
    requires ClosedUnder(r, m) && s in r && s.payouts == [q] && s.counters == map[] && q.pc == Fill(0, [], 0) && !q.completed && q.counted == {}
    ensures State(s.now, map[Daily := Counter(0, Some(Expiry(Daily, s.now)))], [q.(pc := Judge(q.amount, 0, [], 0, CAP))]) in r
  {
    NothingYet(s, q);
    var q' := q.(pc := Judge(q.amount, 0, [], 0, CAP));
    assert [q][0 := q'] == [q'];
    Do(r, m, s, Step(0), State(s.now, map[Daily := Counter(0, Some(Expiry(Daily, s.now)))], [q']));
  }

  lemma DailyWindow(t: nat)
    ensures PeriodStart(Daily, t) == t / DAY * DAY && PeriodReset(Daily, t) == t / DAY * DAY + DAY
  {
    WindowsAreDays(Daily, t);
  }

  // ----- Two checks before the first record -------------------------------------------------------------------

  function Fresh(amount: nat, now: nat): Payout { Payout(amount, now, false, {}, Look(0, [])) }

  function Paid(amount: nat, at: nat, pc: Pc): Payout { Payout(amount, at, true, if pc.Ended? then {Daily} else {}, pc) }

  function Day(now: nat, c: Counter, payouts: seq<Payout>): State { State(now, map[Daily := c], payouts) }

  function C(value: nat): Counter { Counter(value, Some(DAY)) }

  lemma ZeroIsCached()
    ensures Expiry(Daily, 0) == DAY
  {
    DailyWindow(0);
    assert PeriodReset(Daily, 0) == DAY;
  }

  /** The first payout is completed, and not yet recorded. */
  lemma FirstCompletes(r: iset<State>)
    requires ClosedUnder(r, Covering) && START in r
    ensures Day(0, C(0), [Paid(6, 0, Incr(0))]) in r
  {
    var s := State(0, map[], [Fresh(6, 0)]);
    Do(r, Covering, START, Start(6), s);
    FirstCaches(r, Covering, 0, Fresh(6, 0));
    ZeroIsCached();
    var q := Fresh(6, 0).(pc := Look(1, [] + [0]));
    var s1 := Day(0, C(0), [q]);
    assert Put(s1, 0, q) == s1;
    PassesOn(r, Covering, s1, 0, q);
    assert Put(s1, 0, Paid(6, 0, Incr(0))).payouts == [Paid(6, 0, Incr(0))];
  }

  /** The second one is checked on the same counter, and completed. */
  lemma SecondCompletes(r: iset<State>)
    requires ClosedUnder(r, Covering) && START in r
    ensures Day(0, C(0), [Paid(6, 0, Incr(0)), Paid(6, 0, Incr(0))]) in r
  {
    FirstCompletes(r);
    var a := Paid(6, 0, Incr(0));
    var s1 := Day(0, C(0), [a, Fresh(6, 0)]);
    assert [a] + [Fresh(6, 0)] == s1.payouts;
    Do(r, Covering, Day(0, C(0), [a]), Start(6), s1);
    Passes(r, Covering, s1, 1);
    assert s1.payouts[1 := a] == [a, a];
  }

  lemma BumpLive(s: State, amount: nat)
    requires Present(s, Daily) && s.counters[Daily].expires.Some?
    ensures Bump(s, Daily, amount) == s.(counters := s.counters[Daily := s.counters[Daily].(value := s.counters[Daily].value + amount)])
  {}

  lemma RecordsLive(r: iset<State>, s: State, i: nat)
    requires ClosedUnder(r, Covering) && s in r && i < |s.payouts| && s.payouts[i].pc == Incr(0) && s.payouts[i].counted == {}
    requires Present(s, Daily) && s.counters[Daily].expires.Some?
    ensures var q := s.payouts[i]; var c := s.counters[Daily];
      Put(s, i, q.(counted := {Daily}, pc := Ended)).(counters := s.counters[Daily := c.(value := c.value + q.amount)]) in r
  {
    Records(r, Covering, s, i);
    BumpLive(s, s.payouts[i].amount);
  }

  lemma RecordsDay(r: iset<State>, value: nat, payouts: seq<Payout>, i: nat)
    requires ClosedUnder(r, Covering) && i < |payouts| && payouts[i] == Paid(6, 0, Incr(0)) && Day(0, C(value), payouts) in r
    ensures Day(0, C(value + 6), payouts[i := Paid(6, 0, Ended)]) in r
  {
    var s := Day(0, C(value), payouts);
    RecordsLive(r, s, i);
    assert s.counters[Daily := C(value + 6)] == map[Daily := C(value + 6)];
  }

  /** Both are recorded. */
  lemma BothAreRecorded(r: iset<State>)
    requires ClosedUnder(r, Covering) && START in r
    ensures Day(0, C(12), [Paid(6, 0, Ended), Paid(6, 0, Ended)]) in r
  {
    SecondCompletes(r);
    var a, b := Paid(6, 0, Incr(0)), Paid(6, 0, Ended);
    RecordsDay(r, 0, [a, a], 0);
    assert [a, a][0 := b] == [b, a] && [b, a][1 := b] == [b, b];
    RecordsDay(r, 6, [b, a], 1);
  }

  /** Two payouts of 6 within one day, both checked before the first is recorded: 12 are completed under a cap
      of 10, although every write of the counter covers. */
  lemma TwoChecksBreakTheCap()
    ensures exists s :: Reached(Covering, s) && Overspent(s, CAP, 0)
  {
    ReachedIsClosed(Covering);
    BothAreRecorded(iset s | Reached(Covering, s));
    var b := Paid(6, 0, Ended);
    var s := Day(0, C(12), [b, b]);
    DailyWindow(0);
    TotalAdd([b], b, Done, PeriodStart(Daily, 0), PeriodReset(Daily, 0));
    TotalAdd([], b, Done, PeriodStart(Daily, 0), PeriodReset(Daily, 0));
    assert [] + [b] == [b] && [b] + [b] == [b, b];
    assert Reached(Covering, s) && Overspent(s, CAP, 0);
  }

  // ----- A late record ----------------------------------------------------------------------------------------

  function Old(value: nat): Counter { Counter(value, Some(DAY + 700)) }

  const REFUSED: Payout := Payout(11, DAY - 300, false, {}, Ended)

  lemma OldKeyIsCached()
    ensures Expiry(Daily, DAY - 300) == DAY + 700
  {
    DailyWindow(DAY - 300);
    assert PeriodReset(Daily, DAY - 300) == DAY;
    assert SecondsUntilReset(Daily, DAY - 300) == 1;
  }

  /** A refused check 0.3 s before midnight leaves a counter that lives until 0.7 s after it. */
  lemma KeyOutlivesTheDay(r: iset<State>)
    requires ClosedUnder(r, Undisturbed) && START in r
    ensures Day(DAY, Old(0), [REFUSED]) in r
  {
    var s0 := State(DAY - 300, map[], []);
    Do(r, Undisturbed, START, Wait(DAY - 300), s0);
    var q := Fresh(11, DAY - 300);
    assert [] + [q] == [q];
    Do(r, Undisturbed, s0, Start(11), State(DAY - 300, map[], [q]));
    FirstCaches(r, Undisturbed, DAY - 300, q);
    OldKeyIsCached();
    Do(r, Undisturbed, Day(DAY - 300, Old(0), [REFUSED]), Wait(300), Day(DAY, Old(0), [REFUSED]));
  }

  lemma Starts(r: iset<State>, s: State, amount: nat)
    requires ClosedUnder(r, Undisturbed) && s in r && (forall j :: 0 <= j < |s.payouts| ==> Idle(s.payouts[j], CAP))
    requires Present(s, Daily) && s.counters[Daily].value + amount <= 10
    ensures s.(payouts := s.payouts + [Paid(amount, s.now, Incr(0))]) in r
  {
    var s1 := s.(payouts := s.payouts + [Fresh(amount, s.now)]);
    Do(r, Undisturbed, s, Start(amount), s1);
    Passes(r, Undisturbed, s1, |s.payouts|);
    assert s1.payouts[|s.payouts| := Paid(amount, s.now, Incr(0))] == s.payouts + [Paid(amount, s.now, Incr(0))];
  }

  lemma RecordsLast(r: iset<State>, s: State, before: seq<Payout>, amount: nat, at: nat)
    requires ClosedUnder(r, Undisturbed) && s in r && s.payouts == before + [Paid(amount, at, Incr(0))]
    ensures Bump(s, Daily, amount).(payouts := before + [Paid(amount, at, Ended)]) in r
  {
    Records(r, Undisturbed, s, |before|);
    assert s.payouts[|before| := Paid(amount, at, Ended)] == before + [Paid(amount, at, Ended)];
  }

  lemma AllIdle(payouts: seq<Payout>)
    requires forall j :: 0 <= j < |payouts| ==> payouts[j].pc.Ended? && (payouts[j].completed ==> payouts[j].counted == {Daily})
    ensures forall j :: 0 <= j < |payouts| ==> Idle(payouts[j], CAP)
  {
    assert Periods(CAP, |CAP|) == {Daily} by { assert CAP[0].period in Periods(CAP, |CAP|); }
  }

  const BEFORE: seq<Payout> := [REFUSED, Paid(6, DAY, Ended)]

  /** A payout of the new day is counted on the old key. */
  lemma OldKeyCounts(r: iset<State>)
    requires ClosedUnder(r, Undisturbed) && START in r
    ensures Day(DAY + 100, Old(6), BEFORE) in r
  {
    KeyOutlivesTheDay(r);
    var s := Day(DAY, Old(0), [REFUSED]);
    AllIdle(s.payouts);
    Starts(r, s, 6);
    var s1 := s.(payouts := [REFUSED] + [Paid(6, DAY, Incr(0))]);
    RecordsLast(r, s1, [REFUSED], 6, DAY);
    BumpLive(s1, 6);
    assert s.counters[Daily := Old(6)] == map[Daily := Old(6)] && [REFUSED] + [Paid(6, DAY, Ended)] == BEFORE;
    Do(r, Undisturbed, Day(DAY, Old(6), BEFORE), Wait(100), Day(DAY + 100, Old(6), BEFORE));
  }

  /** The next one passes its check on it, and is recorded when it is gone: the counter restarts. */
  lemma CounterRestarts(r: iset<State>)
    requires ClosedUnder(r, Undisturbed) && START in r
    ensures exists c: Counter :: c.value == 2 && c.Live(DAY + 800) && Day(DAY + 800, c, BEFORE + [Paid(2, DAY + 100, Ended)]) in r
  {
    OldKeyCounts(r);
    AllIdle(BEFORE);
    Starts(r, Day(DAY + 100, Old(6), BEFORE), 2);
    var s := Day(DAY + 100, Old(6), BEFORE + [Paid(2, DAY + 100, Incr(0))]);
    var s' := s.(now := DAY + 800);
    Do(r, Undisturbed, s, Wait(700), s');
    RecordsLast(r, s', BEFORE, 2, DAY + 100);
    Restarted(s');
  }

  lemma Restarted(s: State)
    requires s.now == DAY + 800 && s.counters == map[Daily := Old(6)]
    ensures exists c: Counter :: c.value == 2 && c.Live(DAY + 800) && Bump(s, Daily, 2) == s.(counters := map[Daily := c])
  {
    TtlCoversWindow(Daily, s.now);
    var c := Counter(2, Some(Expiry(Daily, s.now)));
    assert s.counters[Daily := c] == map[Daily := c];
    assert Bump(s, Daily, 2) == s.(counters := map[Daily := c]);
  }

  /** A payout of 8 passes the daily cap of 10 although 8 have been paid out already; no check was disturbed. */
  lemma LateRecordBreaksTheCap()
    ensures exists s :: Reached(Undisturbed, s) && Overspent(s, CAP, 0)
  {
    ReachedIsClosed(Undisturbed);
    var r := iset s | Reached(Undisturbed, s);
    CounterRestarts(r);
    var ps := BEFORE + [Paid(2, DAY + 100, Ended)];
    var c: Counter :| c.value == 2 && c.Live(DAY + 800) && Day(DAY + 800, c, ps) in r;
    AllIdle(ps);
    Starts(r, Day(DAY + 800, c, ps), 8);
    var s := Day(DAY + 800, c, ps + [Paid(8, DAY + 800, Incr(0))]);
    SixTwoEight(s);
    assert Reached(Undisturbed, s) && Overspent(s, CAP, 0);
  }

  lemma SixTwoEight(s: State)
    requires s.now == DAY + 800 && s.payouts == BEFORE + [Paid(2, DAY + 100, Ended)] + [Paid(8, DAY + 800, Incr(0))]
    ensures Overspent(s, CAP, 0)
  {
    var x := Paid(6, DAY, Ended);
    DailyWindow(DAY + 800);
    TotalAdd([], REFUSED, Done, DAY, DAY + DAY);
    TotalAdd([REFUSED], x, Done, DAY, DAY + DAY);
    TotalAdd(BEFORE, Paid(2, DAY + 100, Ended), Done, DAY, DAY + DAY);
    TotalAdd(BEFORE + [Paid(2, DAY + 100, Ended)], Paid(8, DAY + 800, Incr(0)), Done, DAY, DAY + DAY);
    assert [] + [REFUSED] == [REFUSED] && [REFUSED] + [x] == BEFORE;
  }
}
