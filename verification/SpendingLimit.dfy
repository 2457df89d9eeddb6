/** Spending limits and their cached counters, for one user with a fixed set of active limits.  Every
    Redis and Mongo operation of a check and of a record is one step, and the steps of any number of
    payouts interleave. */
module Spending {
  import opened Base
  import opened Calendar

  datatype Limit = Limit(period: Period, amount: nat)

  /** A usage key: value and expiry. */
  datatype Counter = Counter(value: nat, expires: Option<int>) {
    predicate Live(now: nat) { expires.None? || now < expires.value }
  }

  /** Where a payout is: reading the counter of limit `k`, summing up and caching where there is none,
      past its checks, on record, completed and recording period `j`, or over.  `seen` are the usages that
      the check has found. */
  datatype Pc =
    | Look(k: nat, seen: seq<nat>)
    | Sum(k: nat, seen: seq<nat>)
    | Fill(k: nat, seen: seq<nat>, total: nat)
    | Passed(seen: seq<nat>)
    | Created
    | Incr(j: nat)
    | Expire(j: nat, ttl: int)
    | Ended

  /** `at` is when the payout passed its check, and from its creation on its createdAt.
      `counted` is history: the periods whose counters were increased for it. */
  datatype Payout = Payout(amount: nat, at: nat, completed: bool, counted: set<Period>, pc: Pc)

  datatype State = State(now: nat, counters: map<Period, Counter>, payouts: seq<Payout>)

  // ----- One check and one record, alone ------------------------------------------------------------

  /** The aggregate over the completed transactions created since `start`. */
  function TotalSince(payouts: seq<Payout>, start: int): nat {
    if payouts == [] then 0
    else
      var last := payouts[|payouts| - 1];
      TotalSince(payouts[..|payouts| - 1], start) + if last.completed && last.at >= start then last.amount else 0
  }

  function Aggregate(s: State, p: Period): nat { TotalSince(s.payouts, PeriodStart(p, s.now)) }

  predicate Present(s: State, p: Period) { p in s.counters && s.counters[p].Live(s.now) }

  function Expiry(p: Period, now: nat): int { now + 1000 * SecondsUntilReset(p, now) }

  /** getCurrentUsage: the counter when it is there, and otherwise the aggregate, which is cached. */
  function Cached(s: State, p: Period): State {
    if Present(s, p) then s
    else s.(counters := s.counters[p := Counter(Aggregate(s, p), Some(Expiry(p, s.now)))])
  }

  function Usage(s: State, p: Period): nat { if Present(s, p) then s.counters[p].value else Aggregate(s, p) }

  /** checkLimits from limit `i` on: the first limit that would be exceeded refuses. */
  function CheckFrom(s: State, limits: seq<Limit>, amount: nat, i: nat): (State, bool)
    requires i <= |limits|
    decreases |limits| - i
  {
    if i == |limits| then (s, true)
    else
      var s' := Cached(s, limits[i].period);
      if Usage(s, limits[i].period) + amount > limits[i].amount then (s', false) else CheckFrom(s', limits, amount, i + 1)
  }

  /** incrbyfloat on one key: a key that is not there starts from zero and has no TTL. */
  function Raise(s: State, p: Period, amount: nat): State {
    s.(counters := s.counters[p := if Present(s, p) then s.counters[p].(value := s.counters[p].value + amount) else Counter(amount, None)])
  }

  /** ttl and expire: a key without TTL gets one. */
  function Restrict(s: State, p: Period, ttl: int): State {
    if Present(s, p) && s.counters[p].expires.None?
    then s.(counters := s.counters[p := s.counters[p].(expires := Some(s.now + 1000 * ttl))]) else s
  }

  function Bump(s: State, p: Period, amount: nat): State { Restrict(Raise(s, p, amount), p, SecondsUntilReset(p, s.now)) }

  function RecordFrom(s: State, limits: seq<Limit>, amount: nat, i: nat): State
    requires i <= |limits|
    decreases |limits| - i
  {
    if i == |limits| then s else RecordFrom(Bump(s, limits[i].period, amount), limits, amount, i + 1)
  }

  lemma CachedElsewhere(s: State, p: Period, q: Period)
    requires p != q
    ensures Usage(Cached(s, p), q) == Usage(s, q) && (Present(Cached(s, p), q) <==> Present(s, q))
  {}

  lemma CachedHere(s: State, p: Period)
    ensures var s' := Cached(s, p); Present(s', p) && s'.counters[p].value == Usage(s, p) && (Present(s, p) ==> s' == s)
  {
    TtlCoversWindow(p, s.now);
  }

  /** One limit per period, as the unique index demands. */
  predicate Distinct(limits: seq<Limit>) {
    forall i, j :: 0 <= i < j < |limits| ==> limits[i].period != limits[j].period
  }

  /** Limit `k` is the first one that the amount would exceed. */
  predicate FirstExceeded(s: State, limits: seq<Limit>, amount: nat, k: nat) {
    && k < |limits| && Usage(s, limits[k].period) + amount > limits[k].amount
    && forall j :: 0 <= j < k ==> Usage(s, limits[j].period) + amount <= limits[j].amount
  }

  /** From `s0` a check has passed `i` limits, and leaves the readings of the others as they were. */
  predicate PassedUpTo(s0: State, s: State, limits: seq<Limit>, amount: nat, i: nat) {
    && (forall j :: 0 <= j < |limits| && j < i ==> Usage(s0, limits[j].period) + amount <= limits[j].amount)
    && (forall j :: i <= j < |limits| ==> Usage(s, limits[j].period) == Usage(s0, limits[j].period))
  }

  lemma PassNext(s0: State, s: State, limits: seq<Limit>, amount: nat, i: nat)
    requires i < |limits| && Distinct(limits) && PassedUpTo(s0, s, limits, amount, i)
    ensures if Usage(s, limits[i].period) + amount > limits[i].amount then FirstExceeded(s0, limits, amount, i)
            else PassedUpTo(s0, Cached(s, limits[i].period), limits, amount, i + 1)
  {
    forall j | i < j < |limits| ensures Usage(Cached(s, limits[i].period), limits[j].period) == Usage(s0, limits[j].period) {
      CachedElsewhere(s, limits[i].period, limits[j].period);
    }
  }

  /** A check allows the amount exactly when it leaves every usage within its limit; it only fills counters,
      and then all of them are there with the usages that it found. */
  lemma {:induction false} CheckFromIff(s: State, limits: seq<Limit>, amount: nat, i: nat)
    requires i <= |limits| && Distinct(limits)
    ensures var (s', allowed) := CheckFrom(s, limits, amount, i);
      && s'.now == s.now && s'.payouts == s.payouts
      && (forall p :: Present(s, p) ==> Present(s', p) && s'.counters[p] == s.counters[p])
      && (allowed <==> forall j :: i <= j < |limits| ==> Usage(s, limits[j].period) + amount <= limits[j].amount)
      && (allowed ==> forall j :: i <= j < |limits| ==>
            Present(s', limits[j].period) && s'.counters[limits[j].period].value == Usage(s, limits[j].period))
    decreases |limits| - i
  {
    if i < |limits| {
      var p := limits[i].period;
      var s1 := Cached(s, p);
      CachedHere(s, p);
      forall j | i < j < |limits| ensures Usage(s1, limits[j].period) == Usage(s, limits[j].period) { CachedElsewhere(s, p, limits[j].period); }
      CheckFromIff(s1, limits, amount, i + 1);
      assert forall q :: Present(s, q) ==> Present(s1, q) && s1.counters[q] == s.counters[q];
    }
  }

  /** The counter is increased, from zero when it is gone; its TTL is kept, and set where there is none. */
  predicate Increased(s: State, s': State, p: Period, amount: nat) {
    var live := p in s.counters && (s.counters[p].expires == None || s.now < s.counters[p].expires.value);
    && p in s'.counters
    && s'.counters[p].value == (if live then s.counters[p].value else 0) + amount
    && s'.counters[p].expires == if live && s.counters[p].expires.Some? then s.counters[p].expires else Some(Expiry(p, s.now))
  }

  predicate SameCounter(s: State, s': State, q: Period) {
    (q in s'.counters <==> q in s.counters) && (q in s.counters ==> s'.counters[q] == s.counters[q])
  }

  lemma IncreasedThen(s: State, s1: State, s': State, p: Period, amount: nat)
    requires Increased(s, s1, p, amount) && SameCounter(s1, s', p)
    ensures Increased(s, s', p, amount)
  {}

  lemma ThenIncreased(s: State, s1: State, s': State, p: Period, amount: nat)
    requires s1.now == s.now && SameCounter(s, s1, p) && Increased(s1, s', p, amount)
    ensures Increased(s, s', p, amount)
  {}

  lemma IncreaseIs(s: State, p: Period, amount: nat, ttl: int, q: Period)
    ensures var s' := Restrict(Raise(s, p, amount), p, ttl); var expiry := s.now + 1000 * ttl;
      && s'.now == s.now && s'.payouts == s.payouts
      && (q != p ==> (q in s'.counters <==> q in s.counters) && (q in s.counters ==> s'.counters[q] == s.counters[q]))
      && p in s'.counters && s'.counters[p].value == (if Present(s, p) then s.counters[p].value else 0) + amount
      && s'.counters[p].expires == (if Present(s, p) && s.counters[p].expires.Some? then s.counters[p].expires else Some(expiry))
  {}

  lemma BumpIs(s: State, p: Period, amount: nat, q: Period)
    ensures var s' := Bump(s, p, amount);
      && s'.now == s.now
      && (q != p ==> SameCounter(s, s', q))
      && Increased(s, s', p, amount)
  {
    IncreaseIs(s, p, amount, SecondsUntilReset(p, s.now), q);
  }

  /** A record increases each of its periods once, and no other. */
  lemma {:induction false} RecordFromIs(s: State, limits: seq<Limit>, amount: nat, i: nat)
    requires i <= |limits| && Distinct(limits)
    ensures var s' := RecordFrom(s, limits, amount, i);
      && s'.now == s.now
      && (forall q :: (forall j :: i <= j < |limits| ==> limits[j].period != q) ==> SameCounter(s, s', q))
      && (forall j :: i <= j < |limits| ==> Increased(s, s', limits[j].period, amount))
    decreases |limits| - i
  {
    if i < |limits| {
      var p := limits[i].period;
      var s1 := Bump(s, p, amount);
      forall q ensures q != p ==> SameCounter(s, s1, q) {
        BumpIs(s, p, amount, q);
      }
      BumpIs(s, p, amount, p);
      RecordFromIs(s1, limits, amount, i + 1);
      var s' := RecordFrom(s, limits, amount, i);
      assert SameCounter(s1, s', p);
      forall j | i <= j < |limits| ensures Increased(s, s', limits[j].period, amount) {
        if j == i { IncreasedThen(s, s1, s', p, amount); } else { ThenIncreased(s, s1, s', limits[j].period, amount); }
      }
    }
  }

  // ----- All together ---------------------------------------------------------------------------------

  datatype Action =
    | Wait(ms: nat)
    | Start(amount: nat)
    | Step(i: nat)
    | Complete(i: nat)
    | Fail(i: nat)
    | Lose(i: nat)

  function Put(s: State, i: nat, q: Payout): State
    requires i < |s.payouts|
  {
    s.(payouts := s.payouts[i := q])
  }

  /** The comparison with limit `k`. */
  function Judge(amount: nat, k: nat, seen: seq<nat>, usage: nat, limits: seq<Limit>): Pc
    requires k < |limits|
  {
    if usage + amount > limits[k].amount then Ended else Look(k + 1, seen + [usage])
  }

  /** The next operation of payout `i`. */
  function Next(s: State, i: nat, limits: seq<Limit>): State
    requires i < |s.payouts|
  {
    var q := s.payouts[i];
    match q.pc
    case Look(k, seen) =>
      if k >= |limits| then Put(s, i, q.(pc := Passed(seen), at := s.now))
      else if Present(s, limits[k].period)
      then Put(s, i, q.(pc := Judge(q.amount, k, seen, s.counters[limits[k].period].value, limits)))
      else Put(s, i, q.(pc := Sum(k, seen)))
    case Sum(k, seen) =>
      if k >= |limits| then s else Put(s, i, q.(pc := Fill(k, seen, Aggregate(s, limits[k].period))))
    case Fill(k, seen, total) =>
      if k >= |limits| then s
      else
        var p := limits[k].period;
        Put(s, i, q.(pc := Judge(q.amount, k, seen, total, limits))).(counters := s.counters[p := Counter(total, Some(Expiry(p, s.now)))])
    case Passed(_) => Put(s, i, q.(pc := Created, at := s.now))
    case Incr(j) =>
      if j >= |limits| then Put(s, i, q.(pc := Ended))
      else
        var p := limits[j].period;
        Put(Raise(s, p, q.amount), i, q.(pc := Expire(j, SecondsUntilReset(p, s.now)), counted := q.counted + {p}))
    case Expire(j, ttl) =>
      if j >= |limits| then s else Put(Restrict(s, limits[j].period, ttl), i, q.(pc := Incr(j + 1)))
    case _ => s
  }

  /** `Complete` marks a created payout as completed, after which it is recorded in the background.  A payout
      may fail until then, and even after it was marked; a record may break off at any point. */
  function Apply(s: State, a: Action, limits: seq<Limit>): State {
    match a
    case Wait(ms) => s.(now := s.now + ms)
    case Start(amount) => s.(payouts := s.payouts + [Payout(amount, s.now, false, {}, Look(0, []))])
    case Step(i) => if i < |s.payouts| then Next(s, i, limits) else s
    case Complete(i) =>
      if i < |s.payouts| && s.payouts[i].pc == Created then Put(s, i, s.payouts[i].(pc := Incr(0), completed := true)) else s
    case Fail(i) =>
      if i < |s.payouts| && s.payouts[i].pc != Ended && s.payouts[i].counted == {}
      then Put(s, i, s.payouts[i].(pc := Ended, completed := false)) else s
    case Lose(i) =>
      if i < |s.payouts| && (s.payouts[i].pc.Incr? || s.payouts[i].pc.Expire?) then Put(s, i, s.payouts[i].(pc := Ended)) else s
  }

  const START: State := State(0, map[], [])

  function Run(actions: seq<Action>, limits: seq<Limit>): State {
    if actions == [] then START else Apply(Run(actions[..|actions| - 1], limits), actions[|actions| - 1], limits)
  }

  // ----- What a payout knows --------------------------------------------------------------------------

  predicate SeenOk(amount: nat, seen: seq<nat>, limits: seq<Limit>) {
    |seen| <= |limits| && forall k :: 0 <= k < |seen| ==> seen[k] + amount <= limits[k].amount
  }

  function Periods(limits: seq<Limit>, n: nat): set<Period>
    requires n <= |limits|
  {
    set k | 0 <= k < n :: limits[k].period
  }

  predicate PayoutOk(q: Payout, now: nat, limits: seq<Limit>) {
    && q.at <= now
    && (q.counted != {} ==> q.completed)
    && match q.pc
       case Look(k, seen) => !q.completed && |seen| == k && SeenOk(q.amount, seen, limits)
       case Sum(k, seen) => !q.completed && |seen| == k < |limits| && SeenOk(q.amount, seen, limits)
       case Fill(k, seen, _) => !q.completed && |seen| == k < |limits| && SeenOk(q.amount, seen, limits)
       case Passed(seen) => !q.completed && |seen| == |limits| && SeenOk(q.amount, seen, limits)
       case Created => !q.completed
       case Incr(j) => q.completed && j <= |limits| && q.counted == Periods(limits, j)
       case Expire(j, ttl) => q.completed && j < |limits| && q.counted == Periods(limits, j + 1)
       case Ended => true
  }

  predicate AllOk(s: State, limits: seq<Limit>) { forall i :: 0 <= i < |s.payouts| ==> PayoutOk(s.payouts[i], s.now, limits) }

  lemma PeriodsGrow(limits: seq<Limit>, j: nat)
    requires Distinct(limits) && j < |limits|
    ensures Periods(limits, j + 1) == Periods(limits, j) + {limits[j].period} && limits[j].period !in Periods(limits, j)
  {}

  lemma NextOk(s: State, i: nat, limits: seq<Limit>)
    requires Distinct(limits) && i < |s.payouts| && PayoutOk(s.payouts[i], s.now, limits)
    ensures var s' := Next(s, i, limits);
      s'.now == s.now && |s'.payouts| == |s.payouts| && s'.payouts == s.payouts[i := s'.payouts[i]] && PayoutOk(s'.payouts[i], s.now, limits)
  {
    var q := s.payouts[i];
    if q.pc.Incr? && q.pc.j < |limits| { PeriodsGrow(limits, q.pc.j); }
  }

  lemma ApplyOk(s: State, a: Action, limits: seq<Limit>)
    requires Distinct(limits) && AllOk(s, limits)
    ensures AllOk(Apply(s, a, limits), limits)
  {
    var s' := Apply(s, a, limits);
    if a.Step? && a.i < |s.payouts| { NextOk(s, a.i, limits); }
    forall i | 0 <= i < |s'.payouts| ensures PayoutOk(s'.payouts[i], s'.now, limits) {
      if i < |s.payouts| { assert PayoutOk(s.payouts[i], s.now, limits); }
    }
  }

  lemma {:induction false} RunOk(actions: seq<Action>, limits: seq<Limit>)
    requires Distinct(limits)
    ensures AllOk(Run(actions, limits), limits)
  {
    if actions != [] {
      RunOk(actions[..|actions| - 1], limits);
      ApplyOk(Run(actions[..|actions| - 1], limits), actions[|actions| - 1], limits);
    }
  }

  // ----- The steps of one payout, uninterrupted ---------------------------------------------------------

  /** The states that payout `i` goes through when nothing else happens. */
  ghost predicate Closed(r: iset<State>, i: nat, limits: seq<Limit>) {
    forall s {:trigger Next(s, i, limits)} :: s in r && i < |s.payouts| ==> Next(s, i, limits) in r
  }

  /** The usages that a check finds from limit `k` on. */
  function Usages(s: State, limits: seq<Limit>, k: nat): seq<nat>
    requires k <= |limits|
    decreases |limits| - k
  {
    if k == |limits| then [] else [Usage(s, limits[k].period)] + Usages(Cached(s, limits[k].period), limits, k + 1)
  }

  lemma PutTwice(s: State, i: nat, q: Payout, q': Payout)
    requires i < |s.payouts|
    ensures Put(Put(s, i, q), i, q') == Put(s, i, q')
  {
    assert s.payouts[i := q][i := q'] == s.payouts[i := q'];
  }

  lemma {:induction false} TotalSincePut(payouts: seq<Payout>, i: nat, q: Payout, start: int)
    requires i < |payouts| && !q.completed && !payouts[i].completed
    ensures TotalSince(payouts[i := q], start) == TotalSince(payouts, start)
  {
    var n := |payouts| - 1;
    if i == n {
      assert payouts[i := q][..n] == payouts[..n];
    } else {
      TotalSincePut(payouts[..n], i, q, start);
      assert payouts[i := q][..n] == payouts[..n][i := q];
    }
  }

  /** What an uncompleted payout is doing makes no difference to the reading of a limit. */
  lemma SameReading(s: State, i: nat, q: Payout, p: Period)
    requires i < |s.payouts| && !q.completed && !s.payouts[i].completed
    ensures Aggregate(Put(s, i, q), p) == Aggregate(s, p) && Usage(Put(s, i, q), p) == Usage(s, p)
    ensures Cached(Put(s, i, q), p) == Put(Cached(s, p), i, q)
  {
    TotalSincePut(s.payouts, i, q, PeriodStart(p, s.now));
  }

  lemma {:induction false} SameCheck(s: State, i: nat, q: Payout, limits: seq<Limit>, amount: nat, k: nat)
    requires i < |s.payouts| && !q.completed && !s.payouts[i].completed && k <= |limits|
    ensures CheckFrom(Put(s, i, q), limits, amount, k) == (var c := CheckFrom(s, limits, amount, k); (c.0.(payouts := s.payouts[i := q]), c.1))
    ensures CheckFrom(s, limits, amount, k).0.payouts == s.payouts
    ensures Usages(Put(s, i, q), limits, k) == Usages(s, limits, k)
    decreases |limits| - k
  {
    if k < |limits| {
      SameReading(s, i, q, limits[k].period);
      SameCheck(Cached(s, limits[k].period), i, q, limits, amount, k + 1);
    }
  }

  /** Reading one limit takes one operation, or three. */
  lemma ReadAlone(r: iset<State>, s: State, i: nat, limits: seq<Limit>)
    requires Closed(r, i, limits) && s in r && i < |s.payouts| && s.payouts[i].pc.Look? && s.payouts[i].pc.k < |limits|
    requires !s.payouts[i].completed
    ensures var q := s.payouts[i]; var k := q.pc.k; var p := limits[k].period;
      Put(Cached(s, p), i, q.(pc := Judge(q.amount, k, q.pc.seen, Usage(s, p), limits))) in r
  {
    var q := s.payouts[i];
    var k, seen := q.pc.k, q.pc.seen;
    var p := limits[k].period;
    if !Present(s, p) {
      var summing := q.(pc := Sum(k, seen));
      assert Next(s, i, limits) == Put(s, i, summing);
      SameReading(s, i, summing, p);
      var filling := q.(pc := Fill(k, seen, Aggregate(s, p)));
      PutTwice(s, i, summing, filling);
      assert Next(Put(s, i, summing), i, limits) == Put(s, i, filling);
      PutTwice(s, i, filling, q.(pc := Judge(q.amount, k, seen, Aggregate(s, p), limits)));
      assert Next(Put(s, i, filling), i, limits) in r;
    } else {
      assert Next(s, i, limits) in r;
    }
  }

  /** The check of payout `i` ends with the counters of `c`: passed with these further usages, or refused. */
  ghost predicate Ends(r: iset<State>, s: State, i: nat, c: State, allowed: bool, usages: seq<nat>)
    requires i < |s.payouts| && s.payouts[i].pc.Look?
  {
    var q := s.payouts[i];
    && c.now == s.now && c.payouts == s.payouts
    && if allowed then Put(c, i, q.(pc := Passed(q.pc.seen + usages), at := s.now)) in r else Put(c, i, q.(pc := Ended)) in r
  }

  lemma PassAlone(r: iset<State>, s: State, i: nat, limits: seq<Limit>)
    requires Closed(r, i, limits) && s in r && i < |s.payouts| && s.payouts[i].pc.Look? && s.payouts[i].pc.k == |limits|
    ensures Ends(r, s, i, s, true, [])
  {
    var q := s.payouts[i];
    assert q.pc.seen + [] == q.pc.seen;
    assert Next(s, i, limits) == Put(s, i, q.(pc := Passed(q.pc.seen), at := s.now));
  }

  /** One more usage in front. */
  lemma EndsFurther(r: iset<State>, s: State, i: nat, q': Payout, c: State, d: State, allowed: bool, u: nat, usages: seq<nat>)
    requires i < |s.payouts| && s.payouts[i].pc.Look?
    requires q' == s.payouts[i].(pc := Look(s.payouts[i].pc.k + 1, s.payouts[i].pc.seen + [u]))
    requires c.now == s.now && c.payouts == s.payouts && d.payouts == s.payouts
    requires Ends(r, Put(c, i, q'), i, Put(d, i, q'), allowed, usages)
    ensures Ends(r, s, i, d, allowed, [u] + usages)
  {
    var q := s.payouts[i];
    assert (q.pc.seen + [u]) + usages == q.pc.seen + ([u] + usages);
    PutTwice(d, i, q', q.(pc := Passed(q.pc.seen + ([u] + usages)), at := s.now));
    PutTwice(d, i, q', q.(pc := Ended));
  }

  /** Without interruption the steps of a payout are `checkLimits`: it passes exactly when that allows it,
      with the usages that it finds, and leaves the same counters. */
  lemma {:induction false} CheckAlone(r: iset<State>, s: State, i: nat, limits: seq<Limit>)
    requires Closed(r, i, limits) && s in r && i < |s.payouts| && s.payouts[i].pc.Look? && s.payouts[i].pc.k <= |limits|
    requires !s.payouts[i].completed
    ensures var q := s.payouts[i]; var (c, allowed) := CheckFrom(s, limits, q.amount, q.pc.k);
      Ends(r, s, i, c, allowed, Usages(s, limits, q.pc.k))
    decreases |limits| - s.payouts[i].pc.k
  {
    var q := s.payouts[i];
    var k := q.pc.k;
    if k == |limits| {
      PassAlone(r, s, i, limits);
    } else {
      ReadAlone(r, s, i, limits);
      var u, c := Usage(s, limits[k].period), Cached(s, limits[k].period);
      if u + q.amount <= limits[k].amount {
        var q' := q.(pc := Look(k + 1, q.pc.seen + [u]));
        CheckAlone(r, Put(c, i, q'), i, limits);
        SameCheck(c, i, q', limits, q.amount, k + 1);
        var (d, allowed) := CheckFrom(c, limits, q.amount, k + 1);
        EndsFurther(r, s, i, q', c, d, allowed, u, Usages(c, limits, k + 1));
      }
    }
  }

  lemma {:induction false} SameRecord(s: State, i: nat, q: Payout, limits: seq<Limit>, amount: nat, j: nat)
    requires i < |s.payouts| && j <= |limits|
    ensures RecordFrom(Put(s, i, q), limits, amount, j) == RecordFrom(s, limits, amount, j).(payouts := s.payouts[i := q])
    ensures RecordFrom(s, limits, amount, j).payouts == s.payouts
    decreases |limits| - j
  {
    if j < |limits| {
      SameBump(s, i, q, limits[j].period, amount);
      SameRecord(Bump(s, limits[j].period, amount), i, q, limits, amount, j + 1);
    }
  }

  lemma SameBump(s: State, i: nat, q: Payout, p: Period, amount: nat)
    requires i < |s.payouts|
    ensures Bump(Put(s, i, q), p, amount) == Put(Bump(s, p, amount), i, q) && Bump(s, p, amount).payouts == s.payouts
  {}

  lemma ExpireAlone(r: iset<State>, s: State, i: nat, limits: seq<Limit>)
    requires Closed(r, i, limits) && s in r && i < |s.payouts| && s.payouts[i].pc.Expire? && s.payouts[i].pc.j < |limits|
    ensures var q := s.payouts[i]; Put(Restrict(s, limits[q.pc.j].period, q.pc.ttl), i, q.(pc := Incr(q.pc.j + 1))) in r
  {
    assert Next(s, i, limits) in r;
  }

  lemma SameRestrict(s: State, i: nat, q: Payout, q': Payout, p: Period, ttl: int)
    requires i < |s.payouts|
    ensures Restrict(s, p, ttl).payouts == s.payouts && Put(Restrict(Put(s, i, q), p, ttl), i, q') == Put(Restrict(s, p, ttl), i, q')
  {
    PutTwice(Restrict(s, p, ttl), i, q, q');
  }

  lemma BumpAlone(r: iset<State>, s: State, i: nat, limits: seq<Limit>)
    requires Closed(r, i, limits) && s in r && i < |s.payouts| && s.payouts[i].pc.Incr? && s.payouts[i].pc.j < |limits|
    ensures var q := s.payouts[i]; var j := q.pc.j; var p := limits[j].period;
      Put(Bump(s, p, q.amount), i, q.(pc := Incr(j + 1), counted := q.counted + {p})) in r
  {
    var q := s.payouts[i];
    var j := q.pc.j;
    var p := limits[j].period;
    var mid := q.(pc := Expire(j, SecondsUntilReset(p, s.now)), counted := q.counted + {p});
    assert Next(s, i, limits) == Put(Raise(s, p, q.amount), i, mid);
    ExpireAlone(r, Put(Raise(s, p, q.amount), i, mid), i, limits);
    SameRestrict(Raise(s, p, q.amount), i, mid, mid.(pc := Incr(j + 1)), p, mid.pc.ttl);
  }

  /** Without interruption a record is `recordSpend`. */
  lemma {:induction false} RecordAlone(r: iset<State>, s: State, i: nat, limits: seq<Limit>)
    requires Closed(r, i, limits) && s in r && i < |s.payouts| && s.payouts[i].pc.Incr? && s.payouts[i].pc.j <= |limits|
    ensures exists counted :: RecordEnds(r, s, i, limits, counted)
    decreases |limits| - s.payouts[i].pc.j
  {
    var q := s.payouts[i];
    var j := q.pc.j;
    if j == |limits| {
      assert Next(s, i, limits) == Put(s, i, q.(pc := Ended));
      assert RecordEnds(r, s, i, limits, q.counted);
    } else {
      var p := limits[j].period;
      var b := Bump(s, p, q.amount);
      var q' := q.(pc := Incr(j + 1), counted := q.counted + {p});
      BumpAlone(r, s, i, limits);
      RecordAlone(r, Put(b, i, q'), i, limits);
      var counted :| RecordEnds(r, Put(b, i, q'), i, limits, counted);
      SameRecord(b, i, q', limits, q.amount, j + 1);
      PutTwice(RecordFrom(b, limits, q.amount, j + 1), i, q', q'.(pc := Ended, counted := counted));
      assert RecordEnds(r, s, i, limits, counted);
    }
  }

  ghost predicate RecordEnds(r: iset<State>, s: State, i: nat, limits: seq<Limit>, counted: set<Period>)
    requires i < |s.payouts| && s.payouts[i].pc.Incr? && s.payouts[i].pc.j <= |limits|
  {
    var q := s.payouts[i];
    var end := RecordFrom(s, limits, q.amount, q.pc.j);
    |end.payouts| == |s.payouts| && Put(end, i, q.(pc := Ended, counted := counted)) in r
  }
}

module SpendingServices {
  import opened Base
  import opened Calendar
  import opened Spending

  /** The usage keys of one user and the payout documents behind them. */
  class SpendingLimitService {
    var now: nat
    var counters: map<Period, Counter>
    var payouts: seq<Payout>
    const limits: seq<Limit>

    constructor (limits: seq<Limit>)
      ensures this.limits == limits && View() == START
    {
      this.limits, now, counters, payouts := limits, 0, map[], [];
    }

    ghost function View(): State
      reads this
    {
      State(now, counters, payouts)
    }

    /** The aggregation over the completed transactions. */
    method Aggregate(start: int) returns (total: nat)
      ensures total == TotalSince(payouts, start)
    {
      total := 0;
      var i := 0;
      while i < |payouts|
        invariant i <= |payouts| && total == TotalSince(payouts[..i], start)
      {
        assert payouts[..i + 1][..i] == payouts[..i];
        if payouts[i].completed && payouts[i].at >= start { total := total + payouts[i].amount; }
        i := i + 1;
      }
      assert payouts[..i] == payouts;
    }

    method GetCurrentUsage(p: Period) returns (usage: nat)
      modifies this`counters
      ensures usage == Usage(old(View()), p) && View() == Cached(old(View()), p)
      // The value of a live counter, or the aggregate of the window, cached until the reset.
      ensures var live := p in old(counters) && (old(counters)[p].expires == None || old(now) < old(counters)[p].expires.value);
        if live then usage == old(counters)[p].value && counters == old(counters)
        else
          && usage == TotalSince(payouts, PeriodStart(p, now))
          && counters == old(counters)[p := Counter(usage, Some(Expiry(p, now)))]
    {
      if p in counters && counters[p].Live(now) { return counters[p].value; }
      usage := Aggregate(PeriodStart(p, now));
      counters := counters[p := Counter(usage, Some(Expiry(p, now)))];
    }

    /** The limit that refuses, or nothing when the payout is allowed. */
    method CheckLimits(amount: nat) returns (refusedBy: Option<Limit>)
      modifies this`counters
      ensures (View(), refusedBy.None?) == CheckFrom(old(View()), limits, amount, 0)
      ensures refusedBy.Some? ==> refusedBy.value in limits
      // The first limit that would be exceeded refuses.
      ensures Distinct(limits) ==>
        (refusedBy == None <==> forall j :: 0 <= j < |limits| ==> Usage(old(View()), limits[j].period) + amount <= limits[j].amount)
      ensures Distinct(limits) && refusedBy.Some? ==> exists k: nat :: FirstExceeded(old(View()), limits, amount, k) && limits[k] == refusedBy.value
    {
      if Distinct(limits) { CheckFromIff(View(), limits, amount, 0); }
      var i := 0;
      while i < |limits|
        invariant i <= |limits| && now == old(now) && payouts == old(payouts)
        invariant CheckFrom(old(View()), limits, amount, 0) == CheckFrom(View(), limits, amount, i)
        invariant Distinct(limits) ==> PassedUpTo(old(View()), View(), limits, amount, i)
      {
        if Distinct(limits) { PassNext(old(View()), View(), limits, amount, i); }
        var usage := GetCurrentUsage(limits[i].period);
        if usage + amount > limits[i].amount { return Some(limits[i]); }
        i := i + 1;
      }
      refusedBy := None;
    }

    method RecordSpend(amount: nat)
      modifies this`counters
      ensures View() == RecordFrom(old(View()), limits, amount, 0)
      // Every limited period is increased once.
      ensures Distinct(limits) ==> forall j :: 0 <= j < |limits| ==> Increased(old(View()), View(), limits[j].period, amount)
    {
      if Distinct(limits) { RecordFromIs(View(), limits, amount, 0); }
      var i := 0;
      while i < |limits|
        invariant i <= |limits| && now == old(now) && payouts == old(payouts)
        invariant RecordFrom(old(View()), limits, amount, 0) == RecordFrom(View(), limits, amount, i)
      {
        Increment(limits[i].period, amount);
        i := i + 1;
      }
    }

    /** One round of the loop over the periods. */
    method Increment(p: Period, amount: nat)
      modifies this`counters
      ensures View() == Bump(old(View()), p, amount)
    {
      var ttl := SecondsUntilReset(p, now);
      IncrByFloat(p, amount);
      var lacks := LacksTtl(p);
      if lacks { SetExpire(p, ttl); }
    }

    method IncrByFloat(p: Period, amount: nat)
      modifies this`counters
      ensures View() == Raise(old(View()), p, amount)
    {
      var c := if p in counters && counters[p].Live(now) then counters[p] else Counter(0, None);
      counters := counters[p := c.(value := c.value + amount)];
    }

    /** Whether the reply to `ttl` is negative: no such key, or no TTL. */
    method LacksTtl(p: Period) returns (lacks: bool)
      ensures lacks <==> !(Present(View(), p) && View().counters[p].expires.Some?)
    {
      lacks := !(p in counters && counters[p].Live(now) && counters[p].expires.Some?);
    }

    method SetExpire(p: Period, ttl: int)
      modifies this`counters
      ensures View() ==
        var s := old(View());
        if Present(s, p) then s.(counters := s.counters[p := s.counters[p].(expires := Some(now + 1000 * ttl))]) else s
    {
      if p in counters && counters[p].Live(now) { counters := counters[p := counters[p].(expires := Some(now + 1000 * ttl))]; }
    }
  }
}
