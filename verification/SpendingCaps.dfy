/** Counters and caps over all runs. */
module SpendingCaps {
  import opened Base
  import opened Calendar
  import opened Spending

  // ----- Totals of windows ------------------------------------------------------------------------------

  /** Completed payouts; those that passed their check and may still complete; both; and for a period, the
      completed ones whose counter was increased, or not. */
  datatype Sel = Done | Open | Held | Recorded(p: Period) | Unrecorded(p: Period)

  predicate Counts(q: Payout, sel: Sel) {
    match sel
    case Done => q.completed
    case Open => !q.completed && (q.pc.Passed? || q.pc.Created?)
    case Held => q.completed || q.pc.Passed? || q.pc.Created?
    case Recorded(p) => p in q.counted
    case Unrecorded(p) => q.completed && p !in q.counted
  }

  function Weight(q: Payout, sel: Sel, start: int, reset: int): nat { if Counts(q, sel) && start <= q.at < reset then q.amount else 0 }

  function Total(ps: seq<Payout>, sel: Sel, start: int, reset: int): nat {
    if ps == [] then 0 else Total(ps[..|ps| - 1], sel, start, reset) + Weight(ps[|ps| - 1], sel, start, reset)
  }

  /** The total of the window of instant `t`, past or present. */
  function WindowTotal(s: State, sel: Sel, p: Period, t: nat): nat { Total(s.payouts, sel, PeriodStart(p, t), PeriodReset(p, t)) }

  lemma {:induction false} TotalPut(ps: seq<Payout>, i: nat, q: Payout, sel: Sel, start: int, reset: int)
    requires i < |ps|
    ensures Total(ps[i := q], sel, start, reset) == Total(ps, sel, start, reset) - Weight(ps[i], sel, start, reset) + Weight(q, sel, start, reset)
  {
    var n := |ps| - 1;
    if i == n {
      assert ps[i := q][..n] == ps[..n];
    } else {
      TotalPut(ps[..n], i, q, sel, start, reset);
      assert ps[i := q][..n] == ps[..n][i := q];
    }
  }

  lemma TotalAdd(ps: seq<Payout>, q: Payout, sel: Sel, start: int, reset: int)
    ensures Total(ps + [q], sel, start, reset) == Total(ps, sel, start, reset) + Weight(q, sel, start, reset)
  {
    assert (ps + [q])[..|ps|] == ps;
  }

  /** What is held is completed or open; what is completed is recorded or not. */
  lemma {:induction false} TotalParts(ps: seq<Payout>, p: Period, start: int, reset: int)
    requires forall i :: 0 <= i < |ps| ==> (ps[i].counted != {} ==> ps[i].completed)
    ensures Total(ps, Held, start, reset) == Total(ps, Done, start, reset) + Total(ps, Open, start, reset)
    ensures Total(ps, Done, start, reset) == Total(ps, Recorded(p), start, reset) + Total(ps, Unrecorded(p), start, reset)
  {
    if ps != [] {
      TotalParts(ps[..|ps| - 1], p, start, reset);
      var q := ps[|ps| - 1];
      assert p in q.counted ==> q.completed;
    }
  }

  lemma Parts(s: State, p: Period, t: nat, limits: seq<Limit>)
    requires AllOk(s, limits)
    ensures WindowTotal(s, Held, p, t) == WindowTotal(s, Done, p, t) + WindowTotal(s, Open, p, t)
    ensures WindowTotal(s, Done, p, t) == WindowTotal(s, Recorded(p), p, t) + WindowTotal(s, Unrecorded(p), p, t)
  {
    forall i | 0 <= i < |s.payouts| ensures s.payouts[i].counted != {} ==> s.payouts[i].completed { assert PayoutOk(s.payouts[i], s.now, limits); }
    TotalParts(s.payouts, p, PeriodStart(p, t), PeriodReset(p, t));
  }

  lemma {:induction false} NothingIn(ps: seq<Payout>, sel: Sel, start: int, reset: int)
    requires forall i :: 0 <= i < |ps| ==> ps[i].at < start
    ensures Total(ps, sel, start, reset) == 0
  {
    if ps != [] { NothingIn(ps[..|ps| - 1], sel, start, reset); }
  }

  lemma {:induction false} SinceIsTotal(ps: seq<Payout>, start: int, reset: int)
    requires forall i :: 0 <= i < |ps| ==> ps[i].at < reset
    ensures TotalSince(ps, start) == Total(ps, Done, start, reset)
  {
    if ps != [] { SinceIsTotal(ps[..|ps| - 1], start, reset); }
  }

  /** The aggregate is the completed total of the current window. */
  lemma AggregateIsDone(s: State, p: Period, limits: seq<Limit>)
    requires AllOk(s, limits)
    ensures Aggregate(s, p) == WindowTotal(s, Done, p, s.now)
  {
    WindowsTile(p, s.now, s.now);
    forall i | 0 <= i < |s.payouts| ensures s.payouts[i].at < PeriodReset(p, s.now) { assert PayoutOk(s.payouts[i], s.now, limits); }
    SinceIsTotal(s.payouts, PeriodStart(p, s.now), PeriodReset(p, s.now));
  }

  lemma WindowLasts(p: Period, now: nat)
    ensures PeriodStart(p, now) + DAY <= PeriodReset(p, now)
  {
    WindowsAreDays(p, now);
  }

  /** Time passes: a window goes on, or a new one begins empty. */
  lemma WindowMoves(p: Period, now: nat, later: nat)
    requires now <= later
    ensures (PeriodStart(p, later) == PeriodStart(p, now) && PeriodReset(p, later) == PeriodReset(p, now))
         || (PeriodStart(p, later) >= PeriodReset(p, now) > now && PeriodReset(p, later) >= PeriodReset(p, now) + DAY)
  {
    WindowsTile(p, now, later);
    WindowsTile(p, later, now);
    WindowLasts(p, later);
    if later >= PeriodReset(p, now) && PeriodStart(p, later) < PeriodReset(p, now) {
      WindowsTile(p, later, if PeriodStart(p, later) <= now then now else PeriodReset(p, now) - 1);
      WindowsTile(p, now, if PeriodStart(p, later) <= now then now else PeriodReset(p, now) - 1);
    }
  }

  lemma NothingAhead(s: State, sel: Sel, start: int, reset: int, limits: seq<Limit>)
    requires AllOk(s, limits) && s.now < start
    ensures Total(s.payouts, sel, start, reset) == 0
  {
    forall i | 0 <= i < |s.payouts| ensures s.payouts[i].at < start { assert PayoutOk(s.payouts[i], s.now, limits); }
    NothingIn(s.payouts, sel, start, reset);
  }

  lemma TotalMoves(s: State, sel: Sel, start: int, reset: int, start': int, reset': int, limits: seq<Limit>)
    requires AllOk(s, limits) && ((start' == start && reset' == reset) || s.now < start')
    ensures Total(s.payouts, sel, start', reset') == Total(s.payouts, sel, start, reset) || Total(s.payouts, sel, start', reset') == 0
    ensures start' != start ==> Total(s.payouts, sel, start', reset') == 0
  {
    if s.now < start' { NothingAhead(s, sel, start', reset', limits); }
  }

  lemma WaitTotal(s: State, t: nat, sel: Sel, p: Period, limits: seq<Limit>)
    requires AllOk(s, limits) && s.now <= t
    ensures WindowTotal(s, sel, p, t) == WindowTotal(s, sel, p, s.now) || WindowTotal(s, sel, p, t) == 0
    ensures PeriodStart(p, t) != PeriodStart(p, s.now) ==> WindowTotal(s, sel, p, t) == 0
  {
    WindowMoves(p, s.now, t);
    TotalMoves(s, sel, PeriodStart(p, s.now), PeriodReset(p, s.now), PeriodStart(p, t), PeriodReset(p, t), limits);
  }

  // ----- Counters cover what is recorded ------------------------------------------------------------------

  /** A live counter is at least what has been recorded of its window. */
  predicate CoverOk(s: State, p: Period) {
    Present(s, p) ==> s.counters[p].value >= WindowTotal(s, Recorded(p), p, s.now)
  }

  ghost predicate AllCovered(s: State) { forall p :: CoverOk(s, p) }

  predicate InWindow(q: Payout, p: Period, now: nat) { q.at >= PeriodStart(p, now) }

  /** The increase finds the counter, or a window of which nothing has been recorded; a payout of an earlier
      window may make up for that. */
  predicate Counted(s: State, q: Payout, p: Period) {
    Present(s, p) || WindowTotal(s, Recorded(p), p, s.now) <= (if InWindow(q, p, s.now) then 0 else q.amount)
  }

  /** A step that writes a counter: the cached aggregate still covers what has been recorded by now, and an
      increase is counted. */
  predicate Covers(s: State, a: Action, limits: seq<Limit>) {
    a.Step? && a.i < |s.payouts| ==>
      var q := s.payouts[a.i];
      match q.pc
      case Fill(k, _, total) => k < |limits| ==> total >= WindowTotal(s, Recorded(limits[k].period), limits[k].period, s.now)
      case Incr(j) => j < |limits| ==> Counted(s, q, limits[j].period)
      case _ => true
  }

  predicate CoversRun(actions: seq<Action>, limits: seq<Limit>) {
    actions == [] ||
    var n := |actions| - 1;
    CoversRun(actions[..n], limits) && Covers(Run(actions[..n], limits), actions[n], limits)
  }

  ghost predicate AlwaysCovered(actions: seq<Action>, limits: seq<Limit>) {
    AllCovered(Run(actions, limits)) && (actions == [] || AlwaysCovered(actions[..|actions| - 1], limits))
  }

  lemma CounterLives(p: Period, now: nat)
    ensures Expiry(p, now) > now
  {
    TtlCoversWindow(p, now);
  }

  /** A step on payout `i` that leaves the counters alone, and what has been recorded. */
  lemma QuietCovers(s: State, s': State, i: nat)
    requires AllCovered(s) && i < |s.payouts| && s'.now == s.now && s'.counters == s.counters
    requires |s'.payouts| == |s.payouts| && s'.payouts == s.payouts[i := s'.payouts[i]]
    requires s'.payouts[i].counted == s.payouts[i].counted && s'.payouts[i].amount == s.payouts[i].amount
    requires s.payouts[i].counted == {} || s'.payouts[i].at == s.payouts[i].at
    ensures AllCovered(s')
  {
    forall p: Period ensures CoverOk(s', p) {
      assert CoverOk(s, p);
      TotalPut(s.payouts, i, s'.payouts[i], Recorded(p), PeriodStart(p, s.now), PeriodReset(p, s.now));
    }
  }

  lemma FillCovers(s: State, i: nat, limits: seq<Limit>)
    requires AllCovered(s) && AllOk(s, limits) && i < |s.payouts| && s.payouts[i].pc.Fill? && s.payouts[i].pc.k < |limits|
    ensures AllCovered(Next(s, i, limits)) <==> Covers(s, Step(i), limits)
  {
    var p0 := limits[s.payouts[i].pc.k].period;
    var s' := Next(s, i, limits);
    assert PayoutOk(s.payouts[i], s.now, limits);
    CounterLives(p0, s.now);
    forall p: Period ensures WindowTotal(s', Recorded(p), p, s.now) == WindowTotal(s, Recorded(p), p, s.now) {
      TotalPut(s.payouts, i, s'.payouts[i], Recorded(p), PeriodStart(p, s.now), PeriodReset(p, s.now));
    }
    forall p: Period ensures CoverOk(s', p) <==> (p == p0 ==> s.payouts[i].pc.total >= WindowTotal(s, Recorded(p0), p0, s.now)) {
      assert CoverOk(s, p);
    }
    assert AllCovered(s') ==> CoverOk(s', p0);
  }

  lemma IncrTotals(s: State, i: nat, limits: seq<Limit>, p: Period)
    requires AllOk(s, limits) && Distinct(limits) && i < |s.payouts| && s.payouts[i].pc.Incr? && s.payouts[i].pc.j < |limits|
    ensures var q := s.payouts[i]; var p0 := limits[q.pc.j].period;
      WindowTotal(Next(s, i, limits), Recorded(p), p, s.now) ==
      WindowTotal(s, Recorded(p), p, s.now) + if p == p0 && InWindow(q, p0, s.now) then q.amount else 0
  {
    var q := s.payouts[i];
    assert PayoutOk(q, s.now, limits);
    PeriodsGrow(limits, q.pc.j);
    WindowsTile(p, s.now, s.now);
    TotalPut(s.payouts, i, Next(s, i, limits).payouts[i], Recorded(p), PeriodStart(p, s.now), PeriodReset(p, s.now));
  }

  lemma IncrCovers(s: State, i: nat, limits: seq<Limit>)
    requires AllCovered(s) && AllOk(s, limits) && Distinct(limits)
    requires i < |s.payouts| && s.payouts[i].pc.Incr? && s.payouts[i].pc.j < |limits|
    ensures AllCovered(Next(s, i, limits)) <==> Counted(s, s.payouts[i], limits[s.payouts[i].pc.j].period)
  {
    var q := s.payouts[i];
    var p0 := limits[q.pc.j].period;
    var s' := Next(s, i, limits);
    forall p: Period ensures CoverOk(s', p) <==> (p == p0 ==> Counted(s, q, p0)) {
      assert CoverOk(s, p);
      IncrTotals(s, i, limits, p);
    }
    assert AllCovered(s') ==> CoverOk(s', p0);
  }

  lemma ExpireCovers(s: State, i: nat, limits: seq<Limit>)
    requires AllCovered(s) && i < |s.payouts| && s.payouts[i].pc.Expire?
    ensures AllCovered(Next(s, i, limits))
  {
    var s' := Next(s, i, limits);
    forall p: Period ensures CoverOk(s', p) {
      assert CoverOk(s, p);
      TotalPut(s.payouts, i, s'.payouts[i], Recorded(p), PeriodStart(p, s.now), PeriodReset(p, s.now));
    }
  }

  lemma OtherCovers(s: State, i: nat, limits: seq<Limit>)
    requires AllCovered(s) && AllOk(s, limits) && i < |s.payouts|
    requires var pc := s.payouts[i].pc; pc.Look? || pc.Sum? || pc.Passed? || pc.Created? || pc.Ended? || (pc.Incr? && pc.j >= |limits|)
    ensures AllCovered(Next(s, i, limits))
  {
    assert PayoutOk(s.payouts[i], s.now, limits);
    var s' := Next(s, i, limits);
    assert s.payouts[i := s.payouts[i]] == s.payouts;
    QuietCovers(s, s', i);
  }

  lemma StepCovers(s: State, i: nat, limits: seq<Limit>)
    requires AllCovered(s) && AllOk(s, limits) && Distinct(limits) && i < |s.payouts|
    ensures AllCovered(Next(s, i, limits)) <==> Covers(s, Step(i), limits)
  {
    var pc := s.payouts[i].pc;
    assert PayoutOk(s.payouts[i], s.now, limits);
    if pc.Fill? {
      FillCovers(s, i, limits);
    } else if pc.Incr? && pc.j < |limits| {
      IncrCovers(s, i, limits);
    } else if pc.Expire? {
      ExpireCovers(s, i, limits);
    } else {
      OtherCovers(s, i, limits);
    }
  }

  lemma WaitCovers(s: State, ms: nat, limits: seq<Limit>)
    requires AllCovered(s) && AllOk(s, limits)
    ensures AllCovered(s.(now := s.now + ms))
  {
    var s' := s.(now := s.now + ms);
    forall p: Period ensures CoverOk(s', p) {
      assert CoverOk(s, p);
      WaitTotal(s, s'.now, Recorded(p), p, limits);
    }
  }

  lemma StartCovers(s: State, amount: nat, limits: seq<Limit>)
    requires AllCovered(s)
    ensures AllCovered(Apply(s, Start(amount), limits))
  {
    var s' := Apply(s, Start(amount), limits);
    forall p: Period ensures CoverOk(s', p) {
      assert CoverOk(s, p);
      TotalAdd(s.payouts, s'.payouts[|s.payouts|], Recorded(p), PeriodStart(p, s.now), PeriodReset(p, s.now));
    }
  }

  lemma ApplyCovers(s: State, a: Action, limits: seq<Limit>)
    requires AllCovered(s) && AllOk(s, limits) && Distinct(limits)
    ensures AllCovered(Apply(s, a, limits)) <==> Covers(s, a, limits)
  {
    match a
    case Wait(ms) => WaitCovers(s, ms, limits);
    case Start(amount) => StartCovers(s, amount, limits);
    case Step(i) => if i < |s.payouts| { StepCovers(s, i, limits); }
    case Complete(i) => if Apply(s, a, limits) != s { QuietCovers(s, Apply(s, a, limits), i); }
    case Fail(i) => if Apply(s, a, limits) != s { QuietCovers(s, Apply(s, a, limits), i); }
    case Lose(i) => if Apply(s, a, limits) != s { QuietCovers(s, Apply(s, a, limits), i); }
  }

  /** Over all runs: no live counter ever falls below what has been recorded of its window if and only if
      every write of a counter covers it. */
  lemma {:induction false} CoverageIff(actions: seq<Action>, limits: seq<Limit>)
    requires Distinct(limits)
    ensures AlwaysCovered(actions, limits) <==> CoversRun(actions, limits)
  {
    if actions != [] {
      var n := |actions| - 1;
      CoverageIff(actions[..n], limits);
      RunOk(actions[..n], limits);
      if CoversRun(actions[..n], limits) {
        CoveredNow(actions[..n], limits);
        ApplyCovers(Run(actions[..n], limits), actions[n], limits);
      }
    }
  }

  lemma {:induction false} CoveredNow(actions: seq<Action>, limits: seq<Limit>)
    requires AlwaysCovered(actions, limits)
    ensures AllCovered(Run(actions, limits))
  {}

  // ----- Caps -----------------------------------------------------------------------------------------

  /** No window of any time holds more than the limit, completed and open payouts together. */
  ghost predicate Within(s: State, l: Limit) { forall t: nat :: WindowTotal(s, Held, l.period, t) <= l.amount }

  ghost predicate AllWithin(s: State, limits: seq<Limit>) { forall k :: 0 <= k < |limits| ==> Within(s, limits[k]) }

  /** The step admits a payout into the current window: past its checks, or with its createdAt. */
  predicate Admits(s: State, a: Action, limits: seq<Limit>) {
    && a.Step? && a.i < |s.payouts|
    && (s.payouts[a.i].pc.Passed? || (s.payouts[a.i].pc.Look? && s.payouts[a.i].pc.k >= |limits|))
  }

  function Without(s: State, i: nat): seq<Payout>
    requires i < |s.payouts|
  {
    s.payouts[i := s.payouts[i].(pc := Ended, completed := false, counted := {})]
  }

  /** What the other payouts hold of the current window. */
  function Others(s: State, i: nat, sel: Sel, p: Period): nat
    requires i < |s.payouts|
  {
    Total(Without(s, i), sel, PeriodStart(p, s.now), PeriodReset(p, s.now))
  }

  /** There is room for an admitted payout beside the others, recorded or not, completed or not. */
  predicate Fits(s: State, a: Action, limits: seq<Limit>) {
    Admits(s, a, limits) ==>
      forall k :: 0 <= k < |limits| ==> Others(s, a.i, Held, limits[k].period) + s.payouts[a.i].amount <= limits[k].amount
  }

  predicate FitsRun(actions: seq<Action>, limits: seq<Limit>) {
    actions == [] ||
    var n := |actions| - 1;
    FitsRun(actions[..n], limits) && Fits(Run(actions[..n], limits), actions[n], limits)
  }

  ghost predicate AlwaysWithin(actions: seq<Action>, limits: seq<Limit>) {
    AllWithin(Run(actions, limits), limits) && (actions == [] || AlwaysWithin(actions[..|actions| - 1], limits))
  }

  /** Away from an admission a payout holds no more than before. */
  lemma HeldShrinks(s: State, s': State, i: nat, l: Limit)
    requires Within(s, l) && i < |s.payouts| == |s'.payouts| && s'.payouts == s.payouts[i := s'.payouts[i]]
    requires s'.payouts[i].amount == s.payouts[i].amount && s'.payouts[i].at == s.payouts[i].at
    requires Counts(s'.payouts[i], Held) ==> Counts(s.payouts[i], Held)
    ensures Within(s', l)
  {
    forall t: nat ensures WindowTotal(s', Held, l.period, t) <= l.amount {
      assert WindowTotal(s, Held, l.period, t) <= l.amount;
      TotalPut(s.payouts, i, s'.payouts[i], Held, PeriodStart(l.period, t), PeriodReset(l.period, t));
    }
  }

  lemma AdmitIff(s: State, s': State, i: nat, l: Limit)
    requires Within(s, l) && i < |s.payouts| == |s'.payouts| && s'.now == s.now && s'.payouts == s.payouts[i := s'.payouts[i]]
    requires s'.payouts[i].amount == s.payouts[i].amount && s'.payouts[i].at == s.now && Counts(s'.payouts[i], Held)
    ensures Within(s', l) <==> Others(s, i, Held, l.period) + s.payouts[i].amount <= l.amount
  {
    var p := l.period;
    forall t: nat ensures WindowTotal(s', Held, p, t) == Total(Without(s, i), Held, PeriodStart(p, t), PeriodReset(p, t)) +
        (if PeriodStart(p, t) <= s.now < PeriodReset(p, t) then s.payouts[i].amount else 0)
      && Total(Without(s, i), Held, PeriodStart(p, t), PeriodReset(p, t)) <= WindowTotal(s, Held, p, t)
    {
      TotalPut(s.payouts, i, s'.payouts[i], Held, PeriodStart(p, t), PeriodReset(p, t));
      TotalPut(s.payouts, i, Without(s, i)[i], Held, PeriodStart(p, t), PeriodReset(p, t));
    }
    WindowsTile(p, s.now, s.now);
    if Within(s', l) { assert WindowTotal(s', Held, p, s.now) <= l.amount; }
    forall t: nat | Others(s, i, Held, p) + s.payouts[i].amount <= l.amount ensures WindowTotal(s', Held, p, t) <= l.amount {
      WindowsTile(p, t, s.now);
    }
  }

  lemma NextHeld(s: State, i: nat, limits: seq<Limit>)
    requires AllOk(s, limits) && i < |s.payouts|
    ensures var s' := Next(s, i, limits);
      && s'.now == s.now && |s'.payouts| == |s.payouts| && s'.payouts == s.payouts[i := s'.payouts[i]]
      && s'.payouts[i].amount == s.payouts[i].amount
      && (Admits(s, Step(i), limits) ==> s'.payouts[i].at == s.now && Counts(s'.payouts[i], Held))
      && (!Admits(s, Step(i), limits) ==>
            s'.payouts[i].at == s.payouts[i].at && (Counts(s'.payouts[i], Held) ==> Counts(s.payouts[i], Held)))
  {
    assert PayoutOk(s.payouts[i], s.now, limits);
    assert s.payouts[i := s.payouts[i]] == s.payouts;
  }

  lemma StepWithin(s: State, i: nat, limits: seq<Limit>)
    requires AllWithin(s, limits) && AllOk(s, limits) && i < |s.payouts|
    ensures AllWithin(Next(s, i, limits), limits) <==> Fits(s, Step(i), limits)
  {
    var s' := Next(s, i, limits);
    NextHeld(s, i, limits);
    forall k | 0 <= k < |limits|
      ensures Within(s', limits[k]) <==>
              (Admits(s, Step(i), limits) ==> Others(s, i, Held, limits[k].period) + s.payouts[i].amount <= limits[k].amount)
    {
      assert Within(s, limits[k]);
      if Admits(s, Step(i), limits) { AdmitIff(s, s', i, limits[k]); } else { HeldShrinks(s, s', i, limits[k]); }
    }
  }

  lemma SmallStepWithin(s: State, s': State, i: nat, limits: seq<Limit>)
    requires AllWithin(s, limits) && i < |s.payouts| == |s'.payouts| && s'.payouts == s.payouts[i := s'.payouts[i]]
    requires s'.payouts[i].amount == s.payouts[i].amount && s'.payouts[i].at == s.payouts[i].at
    requires Counts(s'.payouts[i], Held) ==> Counts(s.payouts[i], Held)
    ensures AllWithin(s', limits)
  {
    forall k | 0 <= k < |limits| ensures Within(s', limits[k]) { HeldShrinks(s, s', i, limits[k]); }
  }

  lemma StartWithin(s: State, amount: nat, limits: seq<Limit>)
    requires AllWithin(s, limits)
    ensures AllWithin(Apply(s, Start(amount), limits), limits)
  {
    var s' := Apply(s, Start(amount), limits);
    forall k, t: nat | 0 <= k < |limits| ensures WindowTotal(s', Held, limits[k].period, t) <= limits[k].amount {
      var p := limits[k].period;
      assert Within(s, limits[k]) && WindowTotal(s, Held, p, t) <= limits[k].amount;
      TotalAdd(s.payouts, s'.payouts[|s.payouts|], Held, PeriodStart(p, t), PeriodReset(p, t));
    }
    forall k | 0 <= k < |limits| ensures Within(s', limits[k]) {
      forall t: nat ensures WindowTotal(s', Held, limits[k].period, t) <= limits[k].amount {}
    }
  }

  lemma ApplyWithin(s: State, a: Action, limits: seq<Limit>)
    requires AllWithin(s, limits) && AllOk(s, limits)
    ensures AllWithin(Apply(s, a, limits), limits) <==> Fits(s, a, limits)
  {
    match a
    case Wait(ms) => LaterWithin(s, ms, limits);
    case Start(amount) => StartWithin(s, amount, limits);
    case Step(i) => if i < |s.payouts| { StepWithin(s, i, limits); }
    case Complete(i) => if Apply(s, a, limits) != s { SmallStepWithin(s, Apply(s, a, limits), i, limits); }
    case Fail(i) => if Apply(s, a, limits) != s { SmallStepWithin(s, Apply(s, a, limits), i, limits); }
    case Lose(i) =>
      if Apply(s, a, limits) != s {
        assert PayoutOk(s.payouts[i], s.now, limits);
        SmallStepWithin(s, Apply(s, a, limits), i, limits);
      }
  }

  lemma LaterWithin(s: State, ms: nat, limits: seq<Limit>)
    requires AllWithin(s, limits)
    ensures AllWithin(s.(now := s.now + ms), limits)
  {
    var s' := s.(now := s.now + ms);
    forall k | 0 <= k < |limits| ensures Within(s', limits[k]) {
      assert Within(s, limits[k]);
      forall t: nat ensures WindowTotal(s', Held, limits[k].period, t) <= limits[k].amount {
        assert WindowTotal(s, Held, limits[k].period, t) <= limits[k].amount;
      }
    }
  }

  lemma {:induction false} NowWithin(actions: seq<Action>, limits: seq<Limit>)
    requires AlwaysWithin(actions, limits)
    ensures AllWithin(Run(actions, limits), limits)
  {}

  /** Over all runs: no window ever holds more than a limit, in completed and open payouts together, if and
      only if every payout fits when it passes its check, and again when it is created. */
  lemma {:induction false} CapIff(actions: seq<Action>, limits: seq<Limit>)
    requires Distinct(limits)
    ensures AlwaysWithin(actions, limits) <==> FitsRun(actions, limits)
  {
    if actions == [] {
      forall k | 0 <= k < |limits| ensures Within(START, limits[k]) {}
    } else {
      var n := |actions| - 1;
      CapIff(actions[..n], limits);
      RunOk(actions[..n], limits);
      if FitsRun(actions[..n], limits) {
        NowWithin(actions[..n], limits);
        ApplyWithin(Run(actions[..n], limits), actions[n], limits);
      }
    }
  }

  // ----- What a check must have seen ------------------------------------------------------------------------

  /** The usages that the check found are at least what the other payouts hold when the payout is admitted. */
  predicate Informed(s: State, a: Action, limits: seq<Limit>) {
    Admits(s, a, limits) ==>
      forall k :: 0 <= k < |limits| ==> k < |s.payouts[a.i].pc.seen| && Others(s, a.i, Held, limits[k].period) <= s.payouts[a.i].pc.seen[k]
  }

  predicate InformedRun(actions: seq<Action>, limits: seq<Limit>) {
    actions == [] ||
    var n := |actions| - 1;
    InformedRun(actions[..n], limits) && Informed(Run(actions[..n], limits), actions[n], limits)
  }

  lemma InformedFits(s: State, a: Action, limits: seq<Limit>)
    requires AllOk(s, limits) && Informed(s, a, limits)
    ensures Fits(s, a, limits)
  {
    if Admits(s, a, limits) { assert PayoutOk(s.payouts[a.i], s.now, limits); }
  }

  lemma {:induction false} InformedFitsRun(actions: seq<Action>, limits: seq<Limit>)
    requires Distinct(limits) && InformedRun(actions, limits)
    ensures FitsRun(actions, limits)
  {
    if actions != [] {
      var n := |actions| - 1;
      InformedFitsRun(actions[..n], limits);
      RunOk(actions[..n], limits);
      InformedFits(Run(actions[..n], limits), actions[n], limits);
    }
  }

  /** While every check is informed, no window of any time ever completes more than a limit, however the
      checks, completions, failures and records of any number of payouts interleave. */
  lemma {:induction false} LimitsHold(actions: seq<Action>, limits: seq<Limit>, k: nat, t: nat)
    requires Distinct(limits) && InformedRun(actions, limits) && k < |limits|
    ensures WindowTotal(Run(actions, limits), Done, limits[k].period, t) <= limits[k].amount
  {
    InformedFitsRun(actions, limits);
    CapIff(actions, limits);
    NowWithin(actions, limits);
    RunOk(actions, limits);
    DoneWithin(Run(actions, limits), limits, k, t);
  }

  lemma DoneWithin(s: State, limits: seq<Limit>, k: nat, t: nat)
    requires AllOk(s, limits) && AllWithin(s, limits) && k < |limits|
    ensures WindowTotal(s, Done, limits[k].period, t) <= limits[k].amount
  {
    var p := limits[k].period;
    assert Within(s, limits[k]) && WindowTotal(s, Held, p, t) <= limits[k].amount;
    Parts(s, p, t, limits);
  }

  predicate Allows(seen: seq<nat>, amount: nat, caps: seq<nat>) { |caps| == |seen| && forall k :: 0 <= k < |seen| ==> seen[k] + amount <= caps[k] }

  /** The admission is safe for whatever limits the check may have allowed it under if and only if the check
      is informed. */
  lemma TrustIff(s: State, i: nat, limits: seq<Limit>)
    requires AllOk(s, limits) && Admits(s, Step(i), limits)
    ensures Informed(s, Step(i), limits) <==>
      forall caps :: Allows(s.payouts[i].pc.seen, s.payouts[i].amount, caps) ==>
        forall k :: 0 <= k < |limits| ==> k < |caps| && Others(s, i, Held, limits[k].period) + s.payouts[i].amount <= caps[k]
  {
    var q := s.payouts[i];
    assert PayoutOk(q, s.now, limits);
    var tight := seq(|q.pc.seen|, k requires 0 <= k < |q.pc.seen| => q.pc.seen[k] + q.amount);
    assert Allows(q.pc.seen, q.amount, tight);
  }

  // ----- Exact counters -----------------------------------------------------------------------------------

  /** The counter that is there will still be when the window ends; one of the window before lapses sooner. */
  predicate Current(s: State, p: Period) {
    Present(s, p) && (s.counters[p].expires.None? || s.counters[p].expires.value >= PeriodReset(p, s.now))
  }

  predicate ExactOk(s: State, p: Period) { Current(s, p) ==> s.counters[p].value == WindowTotal(s, Recorded(p), p, s.now) }

  ghost predicate AllExact(s: State) { forall p :: ExactOk(s, p) }

  /** A cached aggregate is just what has been recorded; an increase finds its counter in the window of the
      payout, or creates what makes up the total; and a counter ends with its window, unless it is zero. */
  ghost predicate Tells(s: State, a: Action, limits: seq<Limit>) {
    match a
    case Wait(ms) => AllEndZero(s, s.now + ms)
    case Step(i) =>
      i < |s.payouts| ==>
        (var q := s.payouts[i];
         match q.pc
         case Fill(k, _, total) => k < |limits| ==> total == WindowTotal(s, Recorded(limits[k].period), limits[k].period, s.now)
         case Incr(j) => j < |limits| ==> IncrTells(s, q, limits[j].period)
         case _ => true)
    case _ => true
  }

  ghost predicate AllEndZero(s: State, t: nat) { forall p: Period :: EndsZero(s, p, t) }

  predicate EndsZero(s: State, p: Period, t: nat) { Outlives(s, p, t) ==> s.counters[p].value == 0 }

  predicate Outlives(s: State, p: Period, t: nat) {
    PeriodStart(p, t) != PeriodStart(p, s.now) && Current(s.(now := t), p)
  }

  predicate IncrTells(s: State, q: Payout, p: Period) {
    && (Current(s, p) ==> InWindow(q, p, s.now) || q.amount == 0)
    && (!Present(s, p) ==> WindowTotal(s, Recorded(p), p, s.now) == if InWindow(q, p, s.now) then 0 else q.amount)
  }

  ghost predicate TellsRun(actions: seq<Action>, limits: seq<Limit>) {
    actions == [] ||
    var n := |actions| - 1;
    TellsRun(actions[..n], limits) && Tells(Run(actions[..n], limits), actions[n], limits)
  }

  ghost predicate AlwaysExact(actions: seq<Action>, limits: seq<Limit>) {
    AllExact(Run(actions, limits)) && (actions == [] || AlwaysExact(actions[..|actions| - 1], limits))
  }

  lemma QuietExact(s: State, s': State, i: nat)
    requires AllExact(s) && i < |s.payouts| && s'.now == s.now && s'.counters == s.counters
    requires |s'.payouts| == |s.payouts| && s'.payouts == s.payouts[i := s'.payouts[i]]
    requires s'.payouts[i].counted == s.payouts[i].counted && s'.payouts[i].amount == s.payouts[i].amount
    requires s.payouts[i].counted == {} || s'.payouts[i].at == s.payouts[i].at
    ensures AllExact(s')
  {
    forall p: Period ensures ExactOk(s', p) {
      assert ExactOk(s, p);
      TotalPut(s.payouts, i, s'.payouts[i], Recorded(p), PeriodStart(p, s.now), PeriodReset(p, s.now));
    }
  }

  lemma FillExact(s: State, i: nat, limits: seq<Limit>)
    requires AllExact(s) && AllOk(s, limits) && i < |s.payouts| && s.payouts[i].pc.Fill? && s.payouts[i].pc.k < |limits|
    ensures AllExact(Next(s, i, limits)) <==> Tells(s, Step(i), limits)
  {
    var p0 := limits[s.payouts[i].pc.k].period;
    var s' := Next(s, i, limits);
    assert PayoutOk(s.payouts[i], s.now, limits);
    TtlCoversWindow(p0, s.now);
    WindowsTile(p0, s.now, s.now);
    forall p: Period ensures ExactOk(s', p) <==> (p == p0 ==> s.payouts[i].pc.total == WindowTotal(s, Recorded(p0), p0, s.now)) {
      assert ExactOk(s, p);
      TotalPut(s.payouts, i, s'.payouts[i], Recorded(p), PeriodStart(p, s.now), PeriodReset(p, s.now));
    }
    assert AllExact(s') ==> ExactOk(s', p0);
  }

  lemma IncrExact(s: State, i: nat, limits: seq<Limit>)
    requires AllExact(s) && AllOk(s, limits) && Distinct(limits)
    requires i < |s.payouts| && s.payouts[i].pc.Incr? && s.payouts[i].pc.j < |limits|
    ensures AllExact(Next(s, i, limits)) <==> IncrTells(s, s.payouts[i], limits[s.payouts[i].pc.j].period)
  {
    var p0 := limits[s.payouts[i].pc.j].period;
    var s' := Next(s, i, limits);
    forall p: Period ensures ExactOk(s', p) <==> (p == p0 ==> IncrTells(s, s.payouts[i], p0)) {
      assert ExactOk(s, p);
      IncrTotals(s, i, limits, p);
    }
    assert AllExact(s') ==> ExactOk(s', p0);
  }

  lemma ExpireExact(s: State, i: nat, limits: seq<Limit>)
    requires AllExact(s) && i < |s.payouts| && s.payouts[i].pc.Expire?
    ensures AllExact(Next(s, i, limits))
  {
    var s' := Next(s, i, limits);
    forall p: Period ensures ExactOk(s', p) {
      assert ExactOk(s, p);
      TotalPut(s.payouts, i, s'.payouts[i], Recorded(p), PeriodStart(p, s.now), PeriodReset(p, s.now));
    }
  }

  lemma OtherExact(s: State, i: nat, limits: seq<Limit>)
    requires AllExact(s) && AllOk(s, limits) && i < |s.payouts|
    requires var pc := s.payouts[i].pc; pc.Look? || pc.Sum? || pc.Passed? || pc.Created? || pc.Ended? || (pc.Incr? && pc.j >= |limits|)
    ensures AllExact(Next(s, i, limits))
  {
    assert PayoutOk(s.payouts[i], s.now, limits);
    assert s.payouts[i := s.payouts[i]] == s.payouts;
    QuietExact(s, Next(s, i, limits), i);
  }

  lemma StepExact(s: State, i: nat, limits: seq<Limit>)
    requires AllExact(s) && AllOk(s, limits) && Distinct(limits) && i < |s.payouts|
    ensures AllExact(Next(s, i, limits)) <==> Tells(s, Step(i), limits)
  {
    var pc := s.payouts[i].pc;
    assert PayoutOk(s.payouts[i], s.now, limits);
    if pc.Fill? {
      FillExact(s, i, limits);
    } else if pc.Incr? && pc.j < |limits| {
      IncrExact(s, i, limits);
    } else if pc.Expire? {
      ExpireExact(s, i, limits);
    } else {
      OtherExact(s, i, limits);
    }
  }

  lemma WaitExactOn(s: State, s': State, p: Period, limits: seq<Limit>)
    requires ExactOk(s, p) && AllOk(s, limits) && s'.counters == s.counters && s'.payouts == s.payouts && s.now <= s'.now
    ensures ExactOk(s', p) <==> EndsZero(s, p, s'.now)
  {
    WindowMoves(p, s.now, s'.now);
    WaitTotal(s, s'.now, Recorded(p), p, limits);
    assert Present(s', p) ==> Present(s, p);
  }

  lemma WaitExact(s: State, ms: nat, limits: seq<Limit>)
    requires AllExact(s) && AllOk(s, limits)
    ensures AllExact(Apply(s, Wait(ms), limits)) <==> Tells(s, Wait(ms), limits)
  {
    var s' := s.(now := s.now + ms);
    forall p: Period ensures ExactOk(s', p) <==> EndsZero(s, p, s'.now) {
      assert ExactOk(s, p);
      WaitExactOn(s, s', p, limits);
    }
  }

  lemma StartExact(s: State, amount: nat, limits: seq<Limit>)
    requires AllExact(s)
    ensures AllExact(Apply(s, Start(amount), limits))
  {
    var s' := Apply(s, Start(amount), limits);
    forall p: Period ensures ExactOk(s', p) {
      assert ExactOk(s, p);
      TotalAdd(s.payouts, s'.payouts[|s.payouts|], Recorded(p), PeriodStart(p, s.now), PeriodReset(p, s.now));
    }
  }

  lemma ApplyExact(s: State, a: Action, limits: seq<Limit>)
    requires AllExact(s) && AllOk(s, limits) && Distinct(limits)
    ensures AllExact(Apply(s, a, limits)) <==> Tells(s, a, limits)
  {
    match a
    case Wait(ms) => WaitExact(s, ms, limits);
    case Start(amount) => StartExact(s, amount, limits);
    case Step(i) => if i < |s.payouts| { StepExact(s, i, limits); }
    case Complete(i) => if Apply(s, a, limits) != s { QuietExact(s, Apply(s, a, limits), i); }
    case Fail(i) => if Apply(s, a, limits) != s { QuietExact(s, Apply(s, a, limits), i); }
    case Lose(i) => if Apply(s, a, limits) != s { QuietExact(s, Apply(s, a, limits), i); }
  }

  /** Over all runs: every current counter always equals what has been recorded of its window if and only if
      every step tells. */
  lemma {:induction false} CountersExactIff(actions: seq<Action>, limits: seq<Limit>)
    requires Distinct(limits)
    ensures AlwaysExact(actions, limits) <==> TellsRun(actions, limits)
  {
    if actions != [] {
      var n := |actions| - 1;
      CountersExactIff(actions[..n], limits);
      RunOk(actions[..n], limits);
      if TellsRun(actions[..n], limits) {
        ExactNow(actions[..n], limits);
        ApplyExact(Run(actions[..n], limits), actions[n], limits);
      }
    }
  }

  lemma {:induction false} ExactNow(actions: seq<Action>, limits: seq<Limit>)
    requires AlwaysExact(actions, limits)
    ensures AllExact(Run(actions, limits))
  {}

  /** Then a counter lags behind the completed payouts of its window by those that are not recorded yet. */
  lemma {:induction false} CountersLag(actions: seq<Action>, limits: seq<Limit>, p: Period)
    requires Distinct(limits) && TellsRun(actions, limits) && Current(Run(actions, limits), p)
    ensures var s := Run(actions, limits);
      s.counters[p].value + WindowTotal(s, Unrecorded(p), p, s.now) == WindowTotal(s, Done, p, s.now)
  {
    var s := Run(actions, limits);
    CountersExactIff(actions, limits);
    ExactNow(actions, limits);
    RunOk(actions, limits);
    assert ExactOk(s, p);
    Parts(s, p, s.now, limits);
  }

  /** At every moment of such a run a check that reads its counter, or sums up where there is none, sees all
      that the window holds if and only if no payout of the window is open, and no completed one is missing in
      the counter. */
  lemma {:induction false} SeesAllIff(actions: seq<Action>, limits: seq<Limit>, p: Period)
    requires Distinct(limits) && TellsRun(actions, limits)
    requires var s := Run(actions, limits); Present(s, p) ==> Current(s, p)
    ensures var s := Run(actions, limits);
      Usage(s, p) >= WindowTotal(s, Held, p, s.now) <==>
      WindowTotal(s, Open, p, s.now) == 0 && (Present(s, p) ==> WindowTotal(s, Unrecorded(p), p, s.now) == 0)
  {
    var s := Run(actions, limits);
    RunOk(actions, limits);
    AggregateIsDone(s, p, limits);
    Parts(s, p, s.now, limits);
    if Present(s, p) { CountersLag(actions, limits, p); }
  }
}
