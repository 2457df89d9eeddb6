/** Checks that nothing disturbs, and what follows when a payout is admitted that does not fit. */
module SpendingSerial {
  import opened Base
  import opened Calendar
  import opened Spending
  import opened SpendingCaps

  // ----- One payout at a time ---------------------------------------------------------------------------

  predicate Checking(q: Payout) { q.pc.Look? || q.pc.Sum? || q.pc.Fill? || q.pc.Passed? }

  predicate Touched(q: Payout) { Checking(q) && q.pc != Look(0, []) }

  /** Not begun, or over, and then recorded in every period if it was completed. */
  predicate Idle(q: Payout, limits: seq<Limit>) {
    q.pc == Look(0, []) || (q.pc.Ended? && (q.completed ==> q.counted == Periods(limits, |limits|)))
  }

  predicate OthersIdle(s: State, i: nat, limits: seq<Limit>) {
    forall j :: 0 <= j < |s.payouts| && j != i ==> Idle(s.payouts[j], limits)
  }

  /** No step of a check, up to the creation of the transaction, is taken while another payout is checked,
      open, or completed and not recorded. */
  predicate Serial(s: State, a: Action, limits: seq<Limit>) {
    a.Step? && a.i < |s.payouts| && Checking(s.payouts[a.i]) ==> OthersIdle(s, a.i, limits)
  }

  predicate SerialRun(actions: seq<Action>, limits: seq<Limit>) {
    actions == [] ||
    var n := |actions| - 1;
    SerialRun(actions[..n], limits) && Serial(Run(actions[..n], limits), actions[n], limits)
  }

  /** The usages that payout `i` has found are at least what the others hold. */
  predicate Knows(s: State, i: nat, limits: seq<Limit>)
    requires i < |s.payouts|
  {
    var pc := s.payouts[i].pc;
    && (pc.Look? || pc.Sum? || pc.Fill? || pc.Passed? ==> SeenCovers(s, i, pc.seen, limits))
    && (pc.Fill? ==> pc.k < |limits| ==> Others(s, i, Held, limits[pc.k].period) <= pc.total)
  }

  predicate SeenCovers(s: State, i: nat, seen: seq<nat>, limits: seq<Limit>)
    requires i < |s.payouts|
  {
    forall k :: 0 <= k < |seen| && k < |limits| ==> Others(s, i, Held, limits[k].period) <= seen[k]
  }

  predicate AloneOk(s: State, i: nat, limits: seq<Limit>)
    requires i < |s.payouts|
  {
    Touched(s.payouts[i]) ==> OthersIdle(s, i, limits) && Knows(s, i, limits)
  }

  predicate AllAlone(s: State, limits: seq<Limit>) { forall i :: 0 <= i < |s.payouts| ==> AloneOk(s, i, limits) }

  lemma {:induction false} TotalMono(ps: seq<Payout>, qs: seq<Payout>, sel: Sel, sel': Sel, start: int, reset: int)
    requires |ps| == |qs|
    requires forall j :: 0 <= j < |ps| ==> Weight(ps[j], sel, start, reset) <= Weight(qs[j], sel', start, reset)
    ensures Total(ps, sel, start, reset) <= Total(qs, sel', start, reset)
  {
    if ps != [] { TotalMono(ps[..|ps| - 1], qs[..|qs| - 1], sel, sel', start, reset); }
  }

  /** What the idle others hold has been recorded. */
  lemma IdleHeld(s: State, i: nat, k: nat, limits: seq<Limit>)
    requires i < |s.payouts| && OthersIdle(s, i, limits) && AllOk(s, limits) && k < |limits|
    ensures Others(s, i, Held, limits[k].period) <= WindowTotal(s, Recorded(limits[k].period), limits[k].period, s.now)
    ensures Others(s, i, Held, limits[k].period) <= WindowTotal(s, Done, limits[k].period, s.now)
  {
    var p := limits[k].period;
    assert p in Periods(limits, |limits|);
    var ps, start, reset := Without(s, i), PeriodStart(p, s.now), PeriodReset(p, s.now);
    forall j | 0 <= j < |ps|
      ensures Weight(ps[j], Held, start, reset) <= Weight(s.payouts[j], Recorded(p), start, reset)
      ensures Weight(ps[j], Held, start, reset) <= Weight(s.payouts[j], Done, start, reset)
    {
      assert PayoutOk(s.payouts[j], s.now, limits);
      if j != i { assert Idle(s.payouts[j], limits); }
    }
    TotalMono(ps, s.payouts, Held, Recorded(p), start, reset);
    TotalMono(ps, s.payouts, Held, Done, start, reset);
  }

  /** A reading of an undisturbed check sees what the others hold. */
  lemma UsageCovers(s: State, i: nat, k: nat, limits: seq<Limit>)
    requires i < |s.payouts| && OthersIdle(s, i, limits) && AllOk(s, limits) && AllCovered(s) && k < |limits|
    ensures Others(s, i, Held, limits[k].period) <= Aggregate(s, limits[k].period)
    ensures Present(s, limits[k].period) ==> Others(s, i, Held, limits[k].period) <= s.counters[limits[k].period].value
  {
    IdleHeld(s, i, k, limits);
    AggregateIsDone(s, limits[k].period, limits);
    assert CoverOk(s, limits[k].period);
  }

  /** The others are the same, and so is what they hold. */
  lemma SameOthers(s: State, s': State, i: nat, k: nat, limits: seq<Limit>)
    requires i < |s.payouts| == |s'.payouts| && s'.now == s.now && s'.payouts == s.payouts[i := s'.payouts[i]] && k < |limits|
    ensures Others(s', i, Held, limits[k].period) == Others(s, i, Held, limits[k].period)
  {
    var p := limits[k].period;
    var start, reset := PeriodStart(p, s.now), PeriodReset(p, s.now);
    var q, q' := Without(s, i)[i], Without(s', i)[i];
    assert Without(s', i) == s.payouts[i := q'];
    TotalPut(s.payouts, i, q, Held, start, reset);
    TotalPut(s.payouts, i, q', Held, start, reset);
  }

  lemma CheckSeen(s: State, i: nat, limits: seq<Limit>)
    requires AllOk(s, limits) && AllAlone(s, limits) && i < |s.payouts| && Checking(s.payouts[i])
    ensures SeenCovers(s, i, s.payouts[i].pc.seen, limits)
    ensures s.payouts[i].pc.Fill? ==> s.payouts[i].pc.k < |limits| && Others(s, i, Held, limits[s.payouts[i].pc.k].period) <= s.payouts[i].pc.total
    ensures var q := s.payouts[i]; !q.pc.Passed? ==> |q.pc.seen| == q.pc.k
  {
    assert PayoutOk(s.payouts[i], s.now, limits) && AloneOk(s, i, limits);
  }

  lemma SeenMore(s: State, i: nat, seen: seq<nat>, u: nat, limits: seq<Limit>)
    requires i < |s.payouts| && SeenCovers(s, i, seen, limits)
    requires |seen| < |limits| ==> Others(s, i, Held, limits[|seen|].period) <= u
    ensures SeenCovers(s, i, seen + [u], limits)
  {}

  lemma SameSeen(s: State, s': State, i: nat, seen: seq<nat>, limits: seq<Limit>)
    requires i < |s.payouts| == |s'.payouts| && s'.now == s.now && s'.payouts == s.payouts[i := s'.payouts[i]]
    requires SeenCovers(s, i, seen, limits)
    ensures SeenCovers(s', i, seen, limits)
  {
    forall k | 0 <= k < |limits| ensures Others(s', i, Held, limits[k].period) == Others(s, i, Held, limits[k].period) {
      SameOthers(s, s', i, k, limits);
    }
  }

  /** The reading that a step takes, and what it leaves. */
  function Reading(s: State, q: Payout, limits: seq<Limit>): nat
    requires (q.pc.Look? || q.pc.Sum? || q.pc.Fill?) && q.pc.k < |limits|
  {
    var p := limits[q.pc.k].period;
    if q.pc.Fill? then q.pc.total else if q.pc.Look? && Present(s, p) then s.counters[p].value else Aggregate(s, p)
  }

  lemma NextSeen(s: State, i: nat, limits: seq<Limit>)
    requires AllOk(s, limits) && i < |s.payouts| && Checking(s.payouts[i])
    ensures var q := s.payouts[i]; var pc' := Next(s, i, limits).payouts[i].pc;
      && (pc'.Passed? || pc'.Sum? ==> pc'.seen == q.pc.seen)
      && (pc'.Fill? ==> q.pc.Sum? && q.pc.k < |limits| && pc' == Fill(q.pc.k, q.pc.seen, Reading(s, q, limits)))
      && (pc'.Look? ==> !q.pc.Passed? && q.pc.k < |limits| && pc'.seen == q.pc.seen + [Reading(s, q, limits)])
  {
    assert PayoutOk(s.payouts[i], s.now, limits);
  }

  /** A step of the check. */
  lemma CheckKnows(s: State, i: nat, limits: seq<Limit>)
    requires AllOk(s, limits) && AllCovered(s) && AllAlone(s, limits)
    requires i < |s.payouts| && Checking(s.payouts[i]) && OthersIdle(s, i, limits)
    ensures var s' := Next(s, i, limits); i < |s'.payouts| && Knows(s', i, limits)
  {
    var q := s.payouts[i];
    var s' := Next(s, i, limits);
    CheckSeen(s, i, limits);
    NextHeld(s, i, limits);
    NextSeen(s, i, limits);
    SameSeen(s, s', i, q.pc.seen, limits);
    if !q.pc.Passed? && q.pc.k < |limits| { ReadingKnows(s, s', i, limits); }
  }

  lemma ReadingKnows(s: State, s': State, i: nat, limits: seq<Limit>)
    requires AllOk(s, limits) && AllCovered(s) && AllAlone(s, limits)
    requires i < |s.payouts| && Checking(s.payouts[i]) && OthersIdle(s, i, limits) && !s.payouts[i].pc.Passed? && s.payouts[i].pc.k < |limits|
    requires i < |s'.payouts| == |s.payouts| && s'.now == s.now && s'.payouts == s.payouts[i := s'.payouts[i]]
    ensures var q := s.payouts[i]; var u := Reading(s, q, limits);
      Others(s', i, Held, limits[q.pc.k].period) <= u && SeenCovers(s', i, q.pc.seen + [u], limits)
  {
    var q := s.payouts[i];
    CheckSeen(s, i, limits);
    UsageCovers(s, i, q.pc.k, limits);
    SameOthers(s, s', i, q.pc.k, limits);
    SameSeen(s, s', i, q.pc.seen, limits);
    SeenMore(s', i, q.pc.seen, Reading(s, q, limits), limits);
  }

  lemma CheckingAlone(s: State, i: nat, limits: seq<Limit>)
    requires AllOk(s, limits) && AllCovered(s) && AllAlone(s, limits)
    requires i < |s.payouts| && Checking(s.payouts[i]) && OthersIdle(s, i, limits)
    ensures AllAlone(Next(s, i, limits), limits)
  {
    var s' := Next(s, i, limits);
    CheckKnows(s, i, limits);
    NextHeld(s, i, limits);
    forall j | 0 <= j < |s'.payouts| ensures AloneOk(s', j, limits) {
      if j != i { assert Idle(s.payouts[j], limits); }
    }
  }

  /** While a payout is checked, nothing but that check changes the payouts, except that they begin, or that
      one that has not begun is given up. */
  lemma OtherAlone(s: State, s': State, i: nat, limits: seq<Limit>)
    requires AllAlone(s, limits) && i < |s.payouts| == |s'.payouts| && s'.now == s.now && s'.payouts == s.payouts[i := s'.payouts[i]]
    requires !Touched(s'.payouts[i]) && (s' == s || (Idle(s.payouts[i], limits) ==> Idle(s'.payouts[i], limits) && !Counts(s'.payouts[i], Held)))
    ensures AllAlone(s', limits)
  {
    forall j | 0 <= j < |s'.payouts| ensures AloneOk(s', j, limits) {
      assert AloneOk(s, j, limits);
      if j != i && Touched(s'.payouts[j]) && s' != s {
        assert Idle(s.payouts[i], limits);
        OtherKnows(s, s', i, j, limits);
      }
    }
  }

  lemma OtherKnows(s: State, s': State, i: nat, j: nat, limits: seq<Limit>)
    requires i < |s.payouts| == |s'.payouts| && s'.now == s.now && s'.payouts == s.payouts[i := s'.payouts[i]]
    requires j < |s.payouts| && j != i && Knows(s, j, limits) && !Counts(s'.payouts[i], Held)
    ensures Knows(s', j, limits)
  {
    forall k | 0 <= k < |limits| ensures Others(s', j, Held, limits[k].period) <= Others(s, j, Held, limits[k].period) {
      var p := limits[k].period;
      assert Without(s', j) == Without(s, j)[i := s'.payouts[i]];
      TotalPut(Without(s, j), i, s'.payouts[i], Held, PeriodStart(p, s.now), PeriodReset(p, s.now));
    }
  }

  lemma StartAlone(s: State, amount: nat, limits: seq<Limit>)
    requires AllAlone(s, limits)
    ensures AllAlone(Apply(s, Start(amount), limits), limits)
  {
    var s' := Apply(s, Start(amount), limits);
    var q := s'.payouts[|s.payouts|];
    forall j | 0 <= j < |s'.payouts| ensures AloneOk(s', j, limits) {
      if j < |s.payouts| {
        assert AloneOk(s, j, limits);
        forall k | 0 <= k < |limits| ensures Others(s', j, Held, limits[k].period) == Others(s, j, Held, limits[k].period) {
          var p := limits[k].period;
          assert Without(s', j) == Without(s, j) + [q];
          TotalAdd(Without(s, j), q, Held, PeriodStart(p, s.now), PeriodReset(p, s.now));
        }
        if Touched(s.payouts[j]) { LessKnows(s, s', j, limits); }
      }
    }
  }

  lemma WithoutOk(s: State, i: nat, limits: seq<Limit>)
    requires AllOk(s, limits) && i < |s.payouts|
    ensures AllOk(s.(payouts := Without(s, i)), limits)
  {
    var alone := s.(payouts := Without(s, i));
    forall j | 0 <= j < |alone.payouts| ensures PayoutOk(alone.payouts[j], alone.now, limits) { assert PayoutOk(s.payouts[j], s.now, limits); }
  }

  lemma LaterTotal(s: State, t: nat, p: Period, limits: seq<Limit>)
    requires AllOk(s, limits) && s.now <= t
    ensures WindowTotal(s, Held, p, t) <= WindowTotal(s, Held, p, s.now)
  {
    WaitTotal(s, t, Held, p, limits);
  }

  lemma OthersAt(s: State, i: nat, p: Period)
    requires i < |s.payouts|
    ensures Others(s, i, Held, p) == Total(Without(s, i), Held, PeriodStart(p, s.now), PeriodReset(p, s.now))
  {}

  lemma WaitOthers(s: State, s': State, i: nat, p: Period, limits: seq<Limit>)
    requires AllOk(s, limits) && i < |s.payouts| && s'.payouts == s.payouts && s.now <= s'.now
    ensures Others(s', i, Held, p) <= Others(s, i, Held, p)
  {
    WithoutOk(s, i, limits);
    OthersAt(s, i, p);
    OthersAt(s', i, p);
    LaterTotal(s.(payouts := Without(s, i)), s'.now, p, limits);
  }

  lemma LessKnows(s: State, s': State, i: nat, limits: seq<Limit>)
    requires i < |s.payouts| && i < |s'.payouts| && s'.payouts[i] == s.payouts[i] && Knows(s, i, limits)
    requires forall k :: 0 <= k < |limits| ==> Others(s', i, Held, limits[k].period) <= Others(s, i, Held, limits[k].period)
    ensures Knows(s', i, limits)
  {}

  lemma WaitAlone(s: State, s': State, limits: seq<Limit>)
    requires AllOk(s, limits) && AllAlone(s, limits) && s'.payouts == s.payouts && s.now <= s'.now
    ensures AllAlone(s', limits)
  {
    forall j | 0 <= j < |s'.payouts| ensures AloneOk(s', j, limits) {
      assert AloneOk(s, j, limits);
      forall k | 0 <= k < |limits| ensures Others(s', j, Held, limits[k].period) <= Others(s, j, Held, limits[k].period) {
        WaitOthers(s, s', j, limits[k].period, limits);
      }
      if Touched(s.payouts[j]) { LessKnows(s, s', j, limits); }
    }
  }

  lemma StepAlone(s: State, i: nat, limits: seq<Limit>)
    requires AllOk(s, limits) && AllCovered(s) && AllAlone(s, limits) && i < |s.payouts| && Serial(s, Step(i), limits)
    ensures AllAlone(Next(s, i, limits), limits)
  {
    if Checking(s.payouts[i]) {
      CheckingAlone(s, i, limits);
    } else {
      assert PayoutOk(s.payouts[i], s.now, limits);
      assert s.payouts[i := s.payouts[i]] == s.payouts;
      OtherAlone(s, Next(s, i, limits), i, limits);
    }
  }

  lemma ApplyAlone(s: State, a: Action, limits: seq<Limit>)
    requires AllOk(s, limits) && AllCovered(s) && AllAlone(s, limits) && Serial(s, a, limits)
    ensures AllAlone(Apply(s, a, limits), limits)
  {
    match a
    case Wait(ms) => WaitAlone(s, Apply(s, a, limits), limits);
    case Start(amount) => StartAlone(s, amount, limits);
    case Step(i) => if i < |s.payouts| { StepAlone(s, i, limits); }
    case Complete(i) => if Apply(s, a, limits) != s { OtherAlone(s, Apply(s, a, limits), i, limits); }
    case Fail(i) => if Apply(s, a, limits) != s { OtherAlone(s, Apply(s, a, limits), i, limits); }
    case Lose(i) => if Apply(s, a, limits) != s { OtherAlone(s, Apply(s, a, limits), i, limits); }
  }

  lemma {:induction false} RunAlone(actions: seq<Action>, limits: seq<Limit>)
    requires Distinct(limits) && SerialRun(actions, limits) && CoversRun(actions, limits)
    ensures AllAlone(Run(actions, limits), limits)
  {
    if actions != [] {
      var n := |actions| - 1;
      RunAlone(actions[..n], limits);
      RunOk(actions[..n], limits);
      CoverageIff(actions[..n], limits);
      CoveredNow(actions[..n], limits);
      ApplyAlone(Run(actions[..n], limits), actions[n], limits);
    }
  }

  lemma AloneInformed(s: State, a: Action, limits: seq<Limit>)
    requires AllOk(s, limits) && AllAlone(s, limits)
    ensures Informed(s, a, limits)
  {
    if Admits(s, a, limits) {
      var q := s.payouts[a.i];
      assert PayoutOk(q, s.now, limits) && AloneOk(s, a.i, limits);
    }
  }

  lemma {:induction false} SerialInformed(actions: seq<Action>, limits: seq<Limit>)
    requires Distinct(limits) && SerialRun(actions, limits) && CoversRun(actions, limits)
    ensures InformedRun(actions, limits)
  {
    if actions != [] {
      var n := |actions| - 1;
      SerialInformed(actions[..n], limits);
      RunAlone(actions[..n], limits);
      RunOk(actions[..n], limits);
      AloneInformed(Run(actions[..n], limits), actions[n], limits);
    }
  }

  /** While counters cover what they should, and every step of a check finds each other payout not begun, or
      over and recorded, no window of any time ever completes more than a limit. */
  lemma {:induction false} SerialLimitsHold(actions: seq<Action>, limits: seq<Limit>, k: nat, t: nat)
    requires Distinct(limits) && SerialRun(actions, limits) && CoversRun(actions, limits) && k < |limits|
    ensures WindowTotal(Run(actions, limits), Done, limits[k].period, t) <= limits[k].amount
  {
    SerialInformed(actions, limits);
    LimitsHold(actions, limits, k, t);
  }

  // ----- Room that is not there ---------------------------------------------------------------------------

  lemma OneMore(actions: seq<Action>, a: Action, limits: seq<Limit>)
    ensures Run(actions + [a], limits) == Apply(Run(actions, limits), a, limits)
  {
    assert (actions + [a])[..|actions|] == actions;
  }

  function HeldIn(s: State, start: int, reset: int): nat { Total(s.payouts, Held, start, reset) }

  /** The run goes on at the same moment, holds as much of the window, and leaves none of the first `n` payouts
      open. */
  predicate Further(actions: seq<Action>, longer: seq<Action>, n: nat, start: int, reset: int, limits: seq<Limit>) {
    var s, s' := Run(actions, limits), Run(longer, limits);
    && actions <= longer && s'.now == s.now && n <= |s'.payouts| == |s.payouts|
    && HeldIn(s', start, reset) >= HeldIn(s, start, reset)
    && forall j :: 0 <= j < n ==> !Counts(s'.payouts[j], Open)
  }

  predicate Opens(q: Payout, a: Action, n: nat) { (q.pc.Passed? && a == Step(n)) || (q.pc == Created && a == Complete(n)) }

  lemma OpensHeld(s: State, a: Action, n: nat, start: int, reset: int, limits: seq<Limit>)
    requires n < |s.payouts| && Opens(s.payouts[n], a, n) && start <= s.now < reset
    ensures HeldIn(Apply(s, a, limits), start, reset) >= HeldIn(s, start, reset)
  {
    TotalPut(s.payouts, n, Apply(s, a, limits).payouts[n], Held, start, reset);
  }

  /** One operation of an open payout changes no other. */
  lemma OneFurther(actions: seq<Action>, before: seq<Action>, a: Action, n: nat, start: int, reset: int, limits: seq<Limit>)
    requires Further(actions, before, n, start, reset, limits) && start <= Run(actions, limits).now < reset
    requires n < |Run(before, limits).payouts| && Opens(Run(before, limits).payouts[n], a, n)
    ensures Further(actions, before + [a], n, start, reset, limits) && Run(before + [a], limits) == Apply(Run(before, limits), a, limits)
  {
    var s := Run(before, limits);
    OneMore(before, a, limits);
    OpensHeld(s, a, n, start, reset, limits);
    forall j | 0 <= j < n ensures Apply(s, a, limits).payouts[j] == s.payouts[j] {}
  }

  /** An open payout completes at once. */
  lemma FinishOne(actions: seq<Action>, before: seq<Action>, n: nat, start: int, reset: int, limits: seq<Limit>) returns (longer: seq<Action>)
    requires n < |Run(actions, limits).payouts| && Further(actions, before, n, start, reset, limits)
    requires start <= Run(actions, limits).now < reset
    ensures Further(actions, longer, n + 1, start, reset, limits)
  {
    longer := before;
    if Run(before, limits).payouts[n].pc.Passed? {
      OneFurther(actions, before, Step(n), n, start, reset, limits);
      longer := before + [Step(n)];
    }
    if Run(longer, limits).payouts[n].pc == Created {
      OneFurther(actions, longer, Complete(n), n, start, reset, limits);
      longer := longer + [Complete(n)];
    }
  }

  lemma {:induction false} Finish(actions: seq<Action>, n: nat, start: int, reset: int, limits: seq<Limit>) returns (longer: seq<Action>)
    requires n <= |Run(actions, limits).payouts| && start <= Run(actions, limits).now < reset
    ensures Further(actions, longer, n, start, reset, limits)
  {
    if n == 0 {
      longer := actions;
    } else {
      var before := Finish(actions, n - 1, start, reset, limits);
      longer := FinishOne(actions, before, n - 1, start, reset, limits);
    }
  }

  lemma {:induction false} NoneOpen(ps: seq<Payout>, start: int, reset: int)
    requires forall j :: 0 <= j < |ps| ==> !Counts(ps[j], Open)
    ensures Total(ps, Open, start, reset) == 0
  {
    if ps != [] { NoneOpen(ps[..|ps| - 1], start, reset); }
  }

  predicate Overspent(s: State, limits: seq<Limit>, k: nat)
    requires k < |limits|
  {
    WindowTotal(s, Done, limits[k].period, s.now) > limits[k].amount
  }

  /** What is held can be spent. */
  lemma HeldIsSpent(actions: seq<Action>, limits: seq<Limit>, k: nat) returns (longer: seq<Action>)
    requires Distinct(limits) && k < |limits|
    requires var s := Run(actions, limits); WindowTotal(s, Held, limits[k].period, s.now) > limits[k].amount
    ensures actions <= longer && Overspent(Run(longer, limits), limits, k)
  {
    var p, s := limits[k].period, Run(actions, limits);
    WindowsTile(p, s.now, s.now);
    longer := Finish(actions, |s.payouts|, PeriodStart(p, s.now), PeriodReset(p, s.now), limits);
    var s' := Run(longer, limits);
    RunOk(longer, limits);
    NoneOpen(s'.payouts, PeriodStart(p, s.now), PeriodReset(p, s.now));
    Parts(s', p, s.now, limits);
  }

  /** An admitted payout counts in the current window, beside the others. */
  lemma AdmittedHeld(s: State, i: nat, p: Period, limits: seq<Limit>)
    requires AllOk(s, limits) && Admits(s, Step(i), limits)
    ensures WindowTotal(Next(s, i, limits), Held, p, s.now) == Others(s, i, Held, p) + s.payouts[i].amount
  {
    var s' := Next(s, i, limits);
    NextHeld(s, i, limits);
    WindowsTile(p, s.now, s.now);
    var start, reset := PeriodStart(p, s.now), PeriodReset(p, s.now);
    TotalPut(s.payouts, i, s'.payouts[i], Held, start, reset);
    TotalPut(s.payouts, i, Without(s, i)[i], Held, start, reset);
  }

  lemma UnfitOverspends(actions: seq<Action>, a: Action, limits: seq<Limit>)
    requires Distinct(limits) && !Fits(Run(actions, limits), a, limits)
    ensures exists longer, k :: actions <= longer && 0 <= k < |limits| && Overspent(Run(longer, limits), limits, k)
  {
    var s := Run(actions, limits);
    RunOk(actions, limits);
    var k :| 0 <= k < |limits| && Others(s, a.i, Held, limits[k].period) + s.payouts[a.i].amount > limits[k].amount;
    AdmittedHeld(s, a.i, limits[k].period, limits);
    NextHeld(s, a.i, limits);
    OneMore(actions, a, limits);
    var longer := HeldIsSpent(actions + [a], limits, k);
    assert actions <= longer;
  }

  /** The cap, exactly: where every admitted payout fits, no window of any time ever completes more than a
      limit; and where one does not, the run up to there goes on to complete more than a limit. */
  lemma {:induction false} CapIsTight(actions: seq<Action>, limits: seq<Limit>)
    requires Distinct(limits)
    ensures FitsRun(actions, limits) ==>
      forall k, t: nat :: 0 <= k < |limits| ==> WindowTotal(Run(actions, limits), Done, limits[k].period, t) <= limits[k].amount
    ensures !FitsRun(actions, limits) ==>
      exists n, longer, k :: 0 <= n <= |actions| && actions[..n] <= longer && 0 <= k < |limits| && Overspent(Run(longer, limits), limits, k)
  {
    if FitsRun(actions, limits) {
      forall k, t: nat | 0 <= k < |limits| ensures WindowTotal(Run(actions, limits), Done, limits[k].period, t) <= limits[k].amount {
        CapIff(actions, limits);
        NowWithin(actions, limits);
        RunOk(actions, limits);
        DoneWithin(Run(actions, limits), limits, k, t);
      }
    } else {
      var n := |actions| - 1;
      if FitsRun(actions[..n], limits) {
        UnfitOverspends(actions[..n], actions[n], limits);
      } else {
        CapIsTight(actions[..n], limits);
        var m, longer, k :| 0 <= m <= n && actions[..n][..m] <= longer && 0 <= k < |limits| && Overspent(Run(longer, limits), limits, k);
        assert actions[..n][..m] == actions[..m];
      }
    }
  }
}
