/** Scheduled payouts: any number of scheduler instances and of cancel and update requests, interleaved
    at every database and Redis operation. */
module SchedulerProtocol {
  import opened Base

  datatype Status = Pending | Processing | Completed | Failed | Cancelled

  /** `calls` counts the calls of `initiatePayout`, and `under` is the leadership under which the
      payout was claimed; both are history. */
  datatype Payout = Payout(at: nat, amount: nat, status: Status, calls: nat, under: Option<nat>)

  /** One run of `_tick`. */
  datatype Pc =
    | Lead
    | ClaimDue(under: Option<nat>)
    | Initiate(p: nat)
    | SaveCompleted(p: nat)
    | SaveFailed(p: nat)
    | Done

  /** A request of the controller; `Update` carries the new amount and time when given. */
  datatype Kind = Cancel | Update(amount: Option<nat>, at: Option<nat>)

  datatype Request = Request(kind: Kind, p: nat, pc: RequestPc)

  datatype RequestPc = Load | Save | Accepted | Rejected

  /** `leader` is the expiry of the scheduler:leader key; `grants` are the times it was set. */
  datatype State = State(now: nat, leader: Option<nat>, payouts: seq<Payout>, ticks: seq<Pc>, requests: seq<Request>, grants: seq<nat>)

  /** `redis` is false for the single-instance mode without a leader lock. */
  datatype Config = Config(ttl: nat, redis: bool)

  datatype Action =
    | Wait(ms: nat)
    | Schedule(at: nat, amount: nat)
    | NewTick
    | StepTick(i: nat, choice: nat, o: Outcome, ok: bool)
    | NewRequest(kind: Kind, p: nat)
    | StepRequest(i: nat, o: Outcome)

  predicate LeaderFree(s: State) { s.leader.None? || s.leader.value <= s.now }

  predicate Due(s: State, p: nat) { p < |s.payouts| && s.payouts[p].status == Pending && s.payouts[p].at <= s.now }

  function SetStatus(s: State, p: nat, st: Status): State {
    if p < |s.payouts| then s.(payouts := s.payouts[p := s.payouts[p].(status := st)]) else s
  }

  /** One awaited operation of a tick.  `choice` is the due payout the database picks; `ok` is whether
      `initiatePayout` succeeds. */
  function TickStep(s: State, pc: Pc, choice: nat, o: Outcome, ok: bool, cfg: Config): (State, Pc) {
    match pc
    case Lead =>
      if !cfg.redis then (s, ClaimDue(None))
      else
        var granted := o.Ran() && LeaderFree(s);
        var s' := if granted then s.(leader := Some(s.now + cfg.ttl), grants := s.grants + [s.now]) else s;
        (s', if o == Replied && granted then ClaimDue(Some(|s.grants|)) else Done)
    case ClaimDue(under) =>
      var found := Due(s, choice);
      var s' := if o.Ran() && found
                then s.(payouts := s.payouts[choice := s.payouts[choice].(status := Processing, under := under)]) else s;
      (s', if o == Replied && found then Initiate(choice) else Done)
    case Initiate(p) =>
      (if p < |s.payouts| then s.(payouts := s.payouts[p := s.payouts[p].(calls := s.payouts[p].calls + 1)]) else s,
       if ok then SaveCompleted(p) else SaveFailed(p))
    case SaveCompleted(p) =>
      (if o.Ran() then SetStatus(s, p, Completed) else s, if o == Replied then Done else SaveFailed(p))
    case SaveFailed(p) => (if o.Ran() then SetStatus(s, p, Failed) else s, Done)
    case Done => (s, Done)
  }

  /** One awaited operation of a controller request: the document is loaded and checked, then saved. */
  function RequestStep(s: State, r: Request, o: Outcome): (State, Request) {
    match r.pc
    case Load =>
      (s, r.(pc := if o == Replied && r.p < |s.payouts| && s.payouts[r.p].status == Pending then Save else Rejected))
    case Save =>
      var s' := if !o.Ran() || r.p >= |s.payouts| then s
        else match r.kind
          case Cancel => SetStatus(s, r.p, Cancelled)
          case Update(amount, at) =>
            var p := s.payouts[r.p];
            s.(payouts := s.payouts[r.p := p.(amount := if amount.GetOr(0) != 0 then amount.value else p.amount, at := at.GetOr(p.at))]);
      (s', r.(pc := if o == Replied then Accepted else Rejected))
    case _ => (s, r)
  }

  function Apply(s: State, a: Action, cfg: Config): State {
    match a
    case Wait(ms) => s.(now := s.now + ms)
    case Schedule(at, amount) => s.(payouts := s.payouts + [Payout(at, amount, Pending, 0, None)])
    case NewTick => s.(ticks := s.ticks + [Lead])
    case StepTick(i, choice, o, ok) =>
      if i >= |s.ticks| then s
      else var (s', pc') := TickStep(s, s.ticks[i], choice, o, ok, cfg); s'.(ticks := s.ticks[i := pc'])
    case NewRequest(kind, p) => s.(requests := s.requests + [Request(kind, p, Load)])
    case StepRequest(i, o) =>
      if i >= |s.requests| then s
      else var (s', r') := RequestStep(s, s.requests[i], o); s'.(requests := s.requests[i := r'])
  }

  function Run(s: State, actions: seq<Action>, cfg: Config): State
    decreases |actions|
  {
    if actions == [] then s else Apply(Run(s, actions[..|actions| - 1], cfg), actions[|actions| - 1], cfg)
  }

  const START := State(0, None, [], [], [], [])

  // ----- The invariant --------------------------------------------------------------------------

  predicate TickOk(s: State, pc: Pc) {
    match pc
    case ClaimDue(under) =>
      under.Some? ==> under.value < |s.grants| && forall p :: 0 <= p < |s.payouts| ==> s.payouts[p].under != under
    case Initiate(p) => p < |s.payouts| && s.payouts[p].calls == 0 && s.payouts[p].status != Pending
    case _ => true
  }

  /** Two ticks never work on the same payout, nor under the same leadership. */
  predicate Apart(a: Pc, b: Pc) {
    && (a.Initiate? && b.Initiate? ==> a.p != b.p)
    && (a.ClaimDue? && b.ClaimDue? && a.under.Some? ==> a.under != b.under)
  }

  predicate PayoutOk(s: State, p: Payout) {
    && p.calls <= 1
    && (p.status == Pending ==> p.calls == 0 && p.under.None?)
    && (p.under.Some? ==> p.under.value < |s.grants|)
  }

  ghost predicate GrantsOk(s: State, cfg: Config) {
    && (forall i, j :: 0 <= i < j < |s.grants| ==> s.grants[i] + cfg.ttl <= s.grants[j])
    && (|s.grants| > 0 ==> s.leader == Some(s.grants[|s.grants| - 1] + cfg.ttl))
  }

  ghost predicate Inv(s: State, cfg: Config) {
    && GrantsOk(s, cfg)
    && (forall p :: 0 <= p < |s.payouts| ==> PayoutOk(s, s.payouts[p]))
    && (forall p, q :: 0 <= p < q < |s.payouts| && s.payouts[p].under.Some? ==> s.payouts[p].under != s.payouts[q].under)
    && (forall i :: 0 <= i < |s.ticks| ==> TickOk(s, s.ticks[i]))
    && (forall i, j :: 0 <= i < |s.ticks| && 0 <= j < |s.ticks| && i != j ==> Apart(s.ticks[i], s.ticks[j]))
  }

  /** A step of tick `i`: everything but the other ticks. */
  lemma TickStepSelf(s: State, i: nat, choice: nat, o: Outcome, ok: bool, cfg: Config)
    requires Inv(s, cfg) && i < |s.ticks|
    ensures var (s', pc') := TickStep(s, s.ticks[i], choice, o, ok, cfg);
      && GrantsOk(s', cfg) && TickOk(s', pc') && |s'.payouts| == |s.payouts|
      && (forall p :: 0 <= p < |s'.payouts| ==> PayoutOk(s', s'.payouts[p]))
  {
    match s.ticks[i]
    case Lead => LeadSelf(s, choice, o, ok, cfg);
    case ClaimDue(_) => ClaimSelf(s, i, choice, o, ok, cfg);
    case Initiate(_) => InitiateSelf(s, i, choice, o, ok, cfg);
    case _ =>
  }

  lemma LeadSelf(s: State, choice: nat, o: Outcome, ok: bool, cfg: Config)
    requires Inv(s, cfg)
    ensures var (s', pc') := TickStep(s, Lead, choice, o, ok, cfg);
      && GrantsOk(s', cfg) && TickOk(s', pc') && |s'.payouts| == |s.payouts|
      && (forall p :: 0 <= p < |s'.payouts| ==> PayoutOk(s', s'.payouts[p]))
  {}

  lemma ClaimSelf(s: State, i: nat, choice: nat, o: Outcome, ok: bool, cfg: Config)
    requires Inv(s, cfg) && i < |s.ticks| && s.ticks[i].ClaimDue?
    ensures var (s', pc') := TickStep(s, s.ticks[i], choice, o, ok, cfg);
      && GrantsOk(s', cfg) && TickOk(s', pc') && |s'.payouts| == |s.payouts|
      && (forall p :: 0 <= p < |s'.payouts| ==> PayoutOk(s', s'.payouts[p]))
  {
    assert TickOk(s, s.ticks[i]);
    if Due(s, choice) { assert PayoutOk(s, s.payouts[choice]); }
  }

  lemma InitiateSelf(s: State, i: nat, choice: nat, o: Outcome, ok: bool, cfg: Config)
    requires Inv(s, cfg) && i < |s.ticks| && s.ticks[i].Initiate?
    ensures var (s', pc') := TickStep(s, s.ticks[i], choice, o, ok, cfg);
      && GrantsOk(s', cfg) && TickOk(s', pc') && |s'.payouts| == |s.payouts|
      && (forall p :: 0 <= p < |s'.payouts| ==> PayoutOk(s', s'.payouts[p]))
  {
    assert TickOk(s, s.ticks[i]);
  }

  lemma TickStepUnder(s: State, i: nat, choice: nat, o: Outcome, ok: bool, cfg: Config)
    requires Inv(s, cfg) && i < |s.ticks|
    ensures var s' := TickStep(s, s.ticks[i], choice, o, ok, cfg).0;
      forall p, q :: 0 <= p < q < |s'.payouts| && s'.payouts[p].under.Some? ==> s'.payouts[p].under != s'.payouts[q].under
  {
    assert TickOk(s, s.ticks[i]);
  }

  lemma TickStepOther(s: State, i: nat, choice: nat, o: Outcome, ok: bool, cfg: Config, j: nat)
    requires Inv(s, cfg) && i < |s.ticks| && j < |s.ticks| && i != j
    ensures var (s', pc') := TickStep(s, s.ticks[i], choice, o, ok, cfg);
      TickOk(s', s.ticks[j]) && Apart(pc', s.ticks[j])
  {
    assert TickOk(s, s.ticks[i]) && TickOk(s, s.ticks[j]) && Apart(s.ticks[i], s.ticks[j]);
    if Due(s, choice) { assert PayoutOk(s, s.payouts[choice]); }
  }

  lemma StepTickInv(s: State, i: nat, choice: nat, o: Outcome, ok: bool, cfg: Config)
    requires Inv(s, cfg) && i < |s.ticks|
    ensures Inv(Apply(s, StepTick(i, choice, o, ok), cfg), cfg)
  {
    var s' := Apply(s, StepTick(i, choice, o, ok), cfg);
    TickStepSelf(s, i, choice, o, ok, cfg);
    TickStepUnder(s, i, choice, o, ok, cfg);
    forall j | 0 <= j < |s'.ticks| ensures TickOk(s', s'.ticks[j]) {
      if j != i { TickStepOther(s, i, choice, o, ok, cfg, j); }
    }
    forall j, k | 0 <= j < |s'.ticks| && 0 <= k < |s'.ticks| && j != k ensures Apart(s'.ticks[j], s'.ticks[k]) {
      assert Apart(s.ticks[j], s.ticks[k]);
      if k == i { TickStepOther(s, i, choice, o, ok, cfg, j); }
      if j == i { TickStepOther(s, i, choice, o, ok, cfg, k); }
    }
  }

  /** Requests change a status only away from `Pending`, and no history. */
  lemma StepRequestInv(s: State, i: nat, o: Outcome, cfg: Config)
    requires Inv(s, cfg) && i < |s.requests|
    ensures Inv(Apply(s, StepRequest(i, o), cfg), cfg)
  {
    var s' := Apply(s, StepRequest(i, o), cfg);
    assert |s'.payouts| == |s.payouts| && s'.grants == s.grants && s'.ticks == s.ticks;
    forall p | 0 <= p < |s.payouts|
      ensures s'.payouts[p].under == s.payouts[p].under && s'.payouts[p].calls == s.payouts[p].calls
      ensures s'.payouts[p].status == Pending ==> s.payouts[p].status == Pending
      ensures s'.payouts[p].status != Pending || s.payouts[p].status == Pending
    {}
    forall p | 0 <= p < |s.payouts| ensures PayoutOk(s', s'.payouts[p]) { assert PayoutOk(s, s.payouts[p]); }
    forall j | 0 <= j < |s.ticks| ensures TickOk(s', s.ticks[j]) { assert TickOk(s, s.ticks[j]); }
  }

  lemma ApplyInv(s: State, a: Action, cfg: Config)
    requires Inv(s, cfg)
    ensures Inv(Apply(s, a, cfg), cfg)
  {
    match a
    case StepTick(i, choice, o, ok) => if i < |s.ticks| { StepTickInv(s, i, choice, o, ok, cfg); }
    case StepRequest(i, o) => if i < |s.requests| { StepRequestInv(s, i, o, cfg); }
    case Schedule(at, amount) =>
      var s' := Apply(s, a, cfg);
      forall j | 0 <= j < |s.ticks| ensures TickOk(s', s.ticks[j]) { assert TickOk(s, s.ticks[j]); }
    case _ =>
  }

  lemma {:induction false} RunInv(actions: seq<Action>, cfg: Config)
    ensures Inv(Run(START, actions, cfg), cfg)
    decreases |actions|
  {
    if actions != [] {
      var n := |actions| - 1;
      RunInv(actions[..n], cfg);
      ApplyInv(Run(START, actions[..n], cfg), actions[n], cfg);
    }
  }

  // ----- Results ------------------------------------------------------------------------------------

  /** Each scheduled payout is initiated at most once, however instances, cancellations and updates
      interleave and whatever fails. */
  lemma InitiatedAtMostOnce(actions: seq<Action>, cfg: Config, p: nat)
    ensures var s := Run(START, actions, cfg); p < |s.payouts| ==> s.payouts[p].calls <= 1
  {
    RunInv(actions, cfg);
    var s := Run(START, actions, cfg);
    if p < |s.payouts| { assert PayoutOk(s, s.payouts[p]); }
  }

  /** The leader lock is granted at most once in any window of its TTL. */
  lemma OneLeaderPerWindow(actions: seq<Action>, cfg: Config, i: nat, j: nat)
    ensures var s := Run(START, actions, cfg);
      i < j < |s.grants| ==> s.grants[j] >= s.grants[i] + cfg.ttl
  {
    RunInv(actions, cfg);
  }

  /** Two payouts claimed under leadership are claimed under leaderships that began at least a TTL apart: the
      immediate next tick after a payout never gets past the lock, which is not released. */
  lemma OnePayoutPerWindow(actions: seq<Action>, cfg: Config, p: nat, q: nat)
    requires var s := Run(START, actions, cfg);
      p < |s.payouts| && q < |s.payouts| && p != q && s.payouts[p].under.Some? && s.payouts[q].under.Some?
    ensures var s := Run(START, actions, cfg);
      var g, h := s.payouts[p].under.value, s.payouts[q].under.value;
      g < |s.grants| && h < |s.grants| && (s.grants[g] + cfg.ttl <= s.grants[h] || s.grants[h] + cfg.ttl <= s.grants[g])
  {
    RunInv(actions, cfg);
    var s := Run(START, actions, cfg);
    assert PayoutOk(s, s.payouts[p]) && PayoutOk(s, s.payouts[q]);
  }

  /** How many payouts have been claimed under leadership. */
  function Led(payouts: seq<Payout>): nat {
    if payouts == [] then 0 else Led(payouts[..|payouts| - 1]) + if payouts[|payouts| - 1].under.Some? then 1 else 0
  }

  function Leaderships(payouts: seq<Payout>): set<nat> { set p | 0 <= p < |payouts| && payouts[p].under.Some? :: payouts[p].under.value }

  predicate Distinct(payouts: seq<Payout>) {
    forall p, q :: 0 <= p < q < |payouts| && payouts[p].under.Some? ==> payouts[p].under != payouts[q].under
  }

  lemma LeadershipsGrow(front: seq<Payout>, last: Payout)
    ensures last.under.None? ==> Leaderships(front + [last]) == Leaderships(front)
    ensures last.under.Some? ==> Leaderships(front + [last]) == Leaderships(front) + {last.under.value}
    ensures last.under.Some? && Distinct(front + [last]) ==> last.under.value !in Leaderships(front)
  {
    var payouts := front + [last];
    forall x ensures x in Leaderships(payouts) <==> x in Leaderships(front) || last.under == Some(x) {
      if x in Leaderships(front) {
        var p :| 0 <= p < |front| && front[p].under == Some(x);
        assert payouts[p].under == Some(x);
      }
      if last.under == Some(x) { assert payouts[|front|].under == Some(x); }
    }
    if last.under.Some? && last.under.value in Leaderships(front) {
      var p :| 0 <= p < |front| && front[p].under == last.under;
      assert payouts[p].under == payouts[|front|].under;
    }
  }

  lemma {:induction false} LedSize(payouts: seq<Payout>)
    requires Distinct(payouts)
    ensures Led(payouts) == |Leaderships(payouts)|
  {
    if payouts == [] {
      assert Leaderships(payouts) == {};
    } else {
      LedSize(payouts[..|payouts| - 1]);
      LeadershipsGrow(payouts[..|payouts| - 1], payouts[|payouts| - 1]);
      assert payouts == payouts[..|payouts| - 1] + [payouts[|payouts| - 1]];
    }
  }

  lemma {:induction false} BelowSize(xs: set<nat>, n: nat)
    requires forall x :: x in xs ==> x < n
    ensures |xs| <= n
  {
    if n == 0 {
      assert xs == {};
    } else {
      BelowSize(xs - {n - 1}, n - 1);
    }
  }

  predicate GrantsPast(s: State) { forall i :: 0 <= i < |s.grants| ==> s.grants[i] <= s.now }

  lemma GrantsStep(s: State, a: Action, cfg: Config)
    requires GrantsPast(s)
    ensures GrantsPast(Apply(s, a, cfg))
  {
    if a.StepTick? && a.i < |s.ticks| {
      var s' := TickStep(s, s.ticks[a.i], a.choice, a.o, a.ok, cfg).0;
      assert s'.now == s.now && (s'.grants == s.grants || s'.grants == s.grants + [s.now]);
    }
  }

  lemma {:induction false} GrantsPassed(actions: seq<Action>, cfg: Config)
    ensures GrantsPast(Run(START, actions, cfg))
    decreases |actions|
  {
    if actions != [] {
      GrantsPassed(actions[..|actions| - 1], cfg);
      GrantsStep(Run(START, actions[..|actions| - 1], cfg), actions[|actions| - 1], cfg);
    }
  }

  lemma {:induction false} GrantsSpread(grants: seq<nat>, ttl: nat, i: nat)
    requires i < |grants| && forall i, j :: 0 <= i < j < |grants| ==> grants[i] + ttl <= grants[j]
    ensures i * ttl <= grants[i]
  {
    if i > 0 {
      GrantsSpread(grants, ttl, i - 1);
      assert i * ttl == (i - 1) * ttl + ttl;
    }
  }

  /** However late claims are made, after `n` of them under leadership, `n - 1` TTLs have passed. */
  lemma ClaimsAreSlow(actions: seq<Action>, cfg: Config)
    ensures var s := Run(START, actions, cfg); Led(s.payouts) > 0 ==> (Led(s.payouts) - 1) * cfg.ttl <= s.now
  {
    var s := Run(START, actions, cfg);
    RunInv(actions, cfg);
    GrantsPassed(actions, cfg);
    LedSize(s.payouts);
    forall x | x in Leaderships(s.payouts) ensures x < |s.grants| {
      var p :| 0 <= p < |s.payouts| && s.payouts[p].under == Some(x);
      assert PayoutOk(s, s.payouts[p]);
    }
    BelowSize(Leaderships(s.payouts), |s.grants|);
    if Led(s.payouts) > 0 { GrantsSpread(s.grants, cfg.ttl, Led(s.payouts) - 1); }
  }

  // ----- Cancellation -------------------------------------------------------------------------------

  ghost predicate Claimed(s: State, p: nat) {
    p < |s.payouts| && (s.payouts[p].calls > 0 || exists i :: 0 <= i < |s.ticks| && s.ticks[i] == Initiate(p))
  }

  /** The payout exists, is no longer pending, and nobody has started on it. */
  ghost predicate Dead(s: State, p: nat) {
    p < |s.payouts| && s.payouts[p].status != Pending && !Claimed(s, p)
  }

  lemma TickStepDead(s: State, i: nat, choice: nat, o: Outcome, ok: bool, cfg: Config, p: nat)
    requires Dead(s, p) && i < |s.ticks|
    ensures var (s', pc') := TickStep(s, s.ticks[i], choice, o, ok, cfg);
      pc' != Initiate(p) && p < |s'.payouts| && s'.payouts[p].calls == 0 && s'.payouts[p].status != Pending
  {}

  lemma ApplyDead(s: State, a: Action, cfg: Config, p: nat)
    requires Dead(s, p)
    ensures Dead(Apply(s, a, cfg), p)
  {
    if a.StepTick? && a.i < |s.ticks| { TickStepDead(s, a.i, a.choice, a.o, a.ok, cfg, p); }
  }

  lemma {:induction false} RunDead(s: State, actions: seq<Action>, cfg: Config, p: nat)
    requires Dead(s, p)
    ensures Dead(Run(s, actions, cfg), p)
    decreases |actions|
  {
    if actions != [] {
      RunDead(s, actions[..|actions| - 1], cfg, p);
      ApplyDead(Run(s, actions[..|actions| - 1], cfg), actions[|actions| - 1], cfg, p);
    }
  }

  /** Payout `p` has not been initiated by the end of the run. */
  predicate Idle(s: State, actions: seq<Action>, cfg: Config, p: nat) {
    var t := Run(s, actions, cfg); p < |t.payouts| && t.payouts[p].calls == 0
  }

  /** A cancellation that was accepted keeps the payout from ever being initiated if and only if no
      scheduler had claimed the payout by the time of the save: the save does not check again. */
  lemma CancelIff(s: State, r: nat, cfg: Config)
    requires r < |s.requests| && s.requests[r].kind == Cancel && s.requests[r].pc == Save && s.requests[r].p < |s.payouts|
    ensures var p := s.requests[r].p;
      var s' := Apply(s, StepRequest(r, Replied), cfg);
      && s'.requests[r].pc == Accepted && s'.payouts[p].status == Cancelled
      && ((forall actions :: Idle(s', actions, cfg, p)) <==> !Claimed(s, p))
  {
    var p := s.requests[r].p;
    var s' := Apply(s, StepRequest(r, Replied), cfg);
    assert s'.ticks == s.ticks && s'.payouts[p].calls == s.payouts[p].calls;
    if !Claimed(s, p) {
      assert Dead(s', p);
      forall actions ensures Idle(s', actions, cfg, p) {
        RunDead(s', actions, cfg, p);
      }
    } else if s.payouts[p].calls > 0 {
      assert !Idle(s', [], cfg, p);
    } else {
      var i :| 0 <= i < |s.ticks| && s.ticks[i] == Initiate(p);
      var a := StepTick(i, 0, Replied, true);
      assert [a][..0] == [] && Run(s', [], cfg) == s';
      assert Run(s', [a], cfg) == Apply(s', a, cfg);
      assert !Idle(s', [a], cfg, p);
    }
  }

  ghost predicate Reachable(s: State, cfg: Config) { exists actions :: Run(START, actions, cfg) == s }

  lemma Reach(s: State, a: Action, cfg: Config)
    requires Reachable(s, cfg)
    ensures Reachable(Apply(s, a, cfg), cfg)
  {
    var actions :| Run(START, actions, cfg) == s;
    assert (actions + [a])[..|actions|] == actions;
    assert Run(START, actions + [a], cfg) == Apply(s, a, cfg);
  }

  // ----- What a request has seen --------------------------------------------------------------------------

  /** A request that was loaded goes on if and only if it was answered and found the payout pending. */
  lemma LoadIff(s: State, r: nat, o: Outcome, cfg: Config)
    requires r < |s.requests| && s.requests[r].pc == Load
    ensures var s' := Apply(s, StepRequest(r, o), cfg); var p := s.requests[r].p;
      && s'.payouts == s.payouts && s'.requests[r].p == p && s'.requests[r].kind == s.requests[r].kind
      && s'.requests[r].pc == (if o == Replied && p < |s.payouts| && s.payouts[p].status == Pending then Save else Rejected)
  {}

  /** Step `n` of the run is the load of request `r`, and finds its payout pending. */
  predicate LoadedPending(actions: seq<Action>, cfg: Config, r: nat, n: nat)
    requires n < |actions|
  {
    var s := Run(START, actions[..n], cfg);
    && actions[n] == StepRequest(r, Replied) && r < |s.requests| && s.requests[r].pc == Load
    && s.requests[r].p < |s.payouts| && s.payouts[s.requests[r].p].status == Pending
  }

  lemma RequestsKeep(s: State, a: Action, cfg: Config, r: nat)
    requires r < |s.requests|
    ensures var s' := Apply(s, a, cfg); r < |s'.requests| && s'.requests[r].p == s.requests[r].p && s'.requests[r].kind == s.requests[r].kind
    ensures !(a.StepRequest? && a.i == r) ==> Apply(s, a, cfg).requests[r] == s.requests[r]
  {}

  /** Over all runs: a request is past its load only if its payout was pending at that very step. */
  lemma {:induction false} SavedWasPending(actions: seq<Action>, cfg: Config, r: nat)
    requires var s := Run(START, actions, cfg); r < |s.requests| && (s.requests[r].pc == Save || s.requests[r].pc == Accepted)
    ensures exists n :: 0 <= n < |actions| && LoadedPending(actions, cfg, r, n)
    decreases |actions|
  {
    var n := |actions| - 1;
    var s, a := Run(START, actions[..n], cfg), actions[n];
    if r < |s.requests| && (s.requests[r].pc == Save || s.requests[r].pc == Accepted) {
      SavedWasPending(actions[..n], cfg, r);
      var m :| 0 <= m < n && LoadedPending(actions[..n], cfg, r, m);
      assert actions[..n][..m] == actions[..m];
      assert LoadedPending(actions, cfg, r, m);
    } else {
      assert a.StepRequest? && a.i == r && s.requests[r].pc == Load;
      LoadIff(s, r, a.o, cfg);
      assert LoadedPending(actions, cfg, r, n);
    }
  }

  // ----- Updates --------------------------------------------------------------------------------------

  /** The payout is settled for good, and no tick that began after the first `n` has taken it. */
  ghost predicate Taken(s: State, n: nat, p: nat) {
    p < |s.payouts| && s.payouts[p].status != Pending && n <= |s.ticks| && forall i :: n <= i < |s.ticks| ==> s.ticks[i] != Initiate(p)
  }

  lemma TickStepTaken(s: State, i: nat, choice: nat, o: Outcome, ok: bool, cfg: Config, n: nat, p: nat)
    requires Taken(s, n, p) && i < |s.ticks|
    ensures var (s', pc') := TickStep(s, s.ticks[i], choice, o, ok, cfg);
      p < |s'.payouts| && s'.payouts[p].status != Pending && (i >= n ==> pc' != Initiate(p)) && s'.ticks == s.ticks
  {}

  lemma ApplyTaken(s: State, a: Action, cfg: Config, n: nat, p: nat)
    requires Taken(s, n, p)
    ensures Taken(Apply(s, a, cfg), n, p)
  {
    if a.StepTick? && a.i < |s.ticks| { TickStepTaken(s, a.i, a.choice, a.o, a.ok, cfg, n, p); }
  }

  lemma {:induction false} RunTaken(s: State, actions: seq<Action>, cfg: Config, n: nat, p: nat)
    requires Taken(s, n, p)
    ensures Taken(Run(s, actions, cfg), n, p)
    decreases |actions|
  {
    if actions != [] {
      RunTaken(s, actions[..|actions| - 1], cfg, n, p);
      ApplyTaken(Run(s, actions[..|actions| - 1], cfg), actions[|actions| - 1], cfg, n, p);
    }
  }

  /** A tick that begins after `s` takes payout `p`. */
  predicate TakenLater(s: State, actions: seq<Action>, cfg: Config, p: nat) {
    var t := Run(s, actions, cfg);
    exists i :: |s.ticks| <= i < |t.ticks| && t.ticks[i] == Initiate(p)
  }

  /** ... by the last step of the run, with this amount in the document that it gets. */
  predicate TakenWith(s: State, actions: seq<Action>, cfg: Config, p: nat, amount: nat) {
    var t := Run(s, actions, cfg);
    && TakenLater(s, actions, cfg, p) && (actions == [] || !TakenLater(s, actions[..|actions| - 1], cfg, p))
    && p < |t.payouts| && t.payouts[p].amount == amount
  }

  lemma RunThree(s: State, a: Action, b: Action, c: Action, cfg: Config)
    ensures Run(s, [a, b, c], cfg) == Apply(Apply(Apply(s, a, cfg), b, cfg), c, cfg)
  {
    assert [a, b, c][..2] == [a, b] && [a, b][..1] == [a] && [a][..0] == [];
    assert Run(s, [], cfg) == s && Run(s, [a], cfg) == Apply(s, a, cfg);
    assert Run(s, [a, b], cfg) == Apply(Run(s, [a], cfg), b, cfg);
  }

  lemma RunFour(s: State, a: Action, b: Action, c: Action, d: Action, cfg: Config)
    ensures Run(s, [a, b, c, d], cfg) == Apply(Apply(Apply(Apply(s, a, cfg), b, cfg), c, cfg), d, cfg)
  {
    assert [a, b, c, d][..3] == [a, b, c];
    RunThree(s, a, b, c, cfg);
  }

  /** A pending payout can still be taken as it is: when it is due and the leader key has lapsed, by the next
      tick. */
  lemma PendingIsTaken(s: State, cfg: Config, p: nat) returns (actions: seq<Action>)
    requires p < |s.payouts| && s.payouts[p].status == Pending
    ensures TakenWith(s, actions, cfg, p, s.payouts[p].amount)
  {
    var k := |s.ticks|;
    var wait := s.payouts[p].at + s.leader.GetOr(0);
    var s1 := Apply(s, Wait(wait), cfg);
    var s2 := Apply(s1, NewTick, cfg);
    var s3 := Apply(s2, StepTick(k, p, Replied, true), cfg);
    assert s2.ticks[k] == Lead && LeaderFree(s2);
    assert s3.ticks[k].ClaimDue? && Due(s3, p);
    var s4 := Apply(s3, StepTick(k, p, Replied, true), cfg);
    assert s4.ticks[k] == Initiate(p);
    actions := [Wait(wait), NewTick, StepTick(k, p, Replied, true), StepTick(k, p, Replied, true)];
    RunFour(s, actions[0], actions[1], actions[2], actions[3], cfg);
    assert Run(s, actions, cfg) == s4 && TakenLater(s, actions, cfg, p);
    assert Apply(Run(s, actions[..3], cfg), actions[3], cfg) == s4;
    RunThree(s, actions[0], actions[1], actions[2], cfg);
    assert actions[..3] == [actions[0], actions[1], actions[2]];
    assert Run(s, actions[..3], cfg) == s3 && s3.ticks[..k] == s.ticks;
  }

  /** An accepted update is in the record; a scheduler can still take the payout, and then with the new
      amount, if and only if it is still pending at the save, which does not check again: no scheduler has
      claimed it by then, and no other request has cancelled it. */
  lemma UpdateIff(s: State, r: nat, cfg: Config)
    requires r < |s.requests| && s.requests[r].kind.Update? && s.requests[r].pc == Save && s.requests[r].p < |s.payouts|
    ensures var p, kind := s.requests[r].p, s.requests[r].kind;
      var s' := Apply(s, StepRequest(r, Replied), cfg);
      && s'.requests[r].pc == Accepted && s'.payouts[p].status == s.payouts[p].status
      && s'.payouts[p].at == kind.at.GetOr(s.payouts[p].at) && (kind.amount.GetOr(0) != 0 ==> s'.payouts[p].amount == kind.amount.value)
      && (kind.amount.GetOr(0) == 0 ==> s'.payouts[p].amount == s.payouts[p].amount)
      && ((exists actions :: TakenWith(s', actions, cfg, p, s'.payouts[p].amount)) <==> s.payouts[p].status == Pending)
      && ((exists actions :: TakenLater(s', actions, cfg, p)) <==> s.payouts[p].status == Pending)
  {
    var p := s.requests[r].p;
    var s' := Apply(s, StepRequest(r, Replied), cfg);
    if s.payouts[p].status == Pending {
      var actions := PendingIsTaken(s', cfg, p);
    } else {
      assert Taken(s', |s'.ticks|, p);
      forall actions ensures !TakenLater(s', actions, cfg, p) { RunTaken(s', actions, cfg, |s'.ticks|, p); }
    }
  }

  // ----- A cancellation that comes too late -------------------------------------------------------------

  /** The cancellation has found the payout pending, and a tick has begun. */
  function Raced(p: Payout, pc: Pc): State { State(0, None, [p], [pc], [Request(Cancel, 0, Save)], []) }

  lemma RaceBegins(cfg: Config)
    ensures Reachable(Raced(Payout(0, 1, Pending, 0, None), Lead), cfg)
  {
    var p := Payout(0, 1, Pending, 0, None);
    assert Run(START, [], cfg) == START;
    Reach(START, Schedule(0, 1), cfg);
    var s1 := State(0, None, [p], [], [], []);
    Reach(s1, NewTick, cfg);
    var s2 := State(0, None, [p], [Lead], [], []);
    Reach(s2, NewRequest(Cancel, 0), cfg);
    var s3 := State(0, None, [p], [Lead], [Request(Cancel, 0, Load)], []);
    Reach(s3, StepRequest(0, Replied), cfg);
  }

  lemma RaceInitiates(cfg: Config)
    requires !cfg.redis
    ensures Reachable(Raced(Payout(0, 1, Processing, 1, None), SaveCompleted(0)), cfg)
  {
    RaceBegins(cfg);
    var s1 := Raced(Payout(0, 1, Pending, 0, None), Lead);
    Reach(s1, StepTick(0, 0, Replied, true), cfg);
    var s2 := Raced(Payout(0, 1, Pending, 0, None), ClaimDue(None));
    Reach(s2, StepTick(0, 0, Replied, true), cfg);
    var s3 := Raced(Payout(0, 1, Processing, 0, None), Initiate(0));
    Reach(s3, StepTick(0, 0, Replied, true), cfg);
  }

  /** The only payout has been initiated, and the only request, its cancellation, accepted. */
  predicate Contradicted(s: State) {
    && |s.payouts| == 1 && s.payouts[0].calls == 1 && s.payouts[0].status == Cancelled
    && |s.requests| == 1 && s.requests[0].kind == Cancel && s.requests[0].p == 0 && s.requests[0].pc == Accepted
  }

  /** Such a state is reachable: a payout both cancelled with success and initiated. */
  lemma CancelledAndInitiated(ttl: nat)
    ensures exists s :: Reachable(s, Config(ttl, false)) && Contradicted(s)
  {
    var cfg := Config(ttl, false);
    var s := Raced(Payout(0, 1, Processing, 1, None), SaveCompleted(0));
    RaceInitiates(cfg);
    Reach(s, StepRequest(0, Replied), cfg);
    var t := Apply(s, StepRequest(0, Replied), cfg);
    assert Contradicted(t);
  }
}

/** Starting and stopping the polling loop: the interval timers that are running, and the one remembered. */
module SchedulerControl {
  import opened Base

  datatype Control = Control(running: bool, timer: Option<nat>, live: set<nat>, nextTimer: nat)

  function Started(c: Control): Control {
    if c.running then c else Control(true, Some(c.nextTimer), c.live + {c.nextTimer}, c.nextTimer + 1)
  }

  function Stopped(c: Control): Control {
    c.(running := false, timer := None, live := if c.timer.Some? then c.live - {c.timer.value} else c.live)
  }

  /** A list of starts (`true`) and stops. */
  function Run(ops: seq<bool>): Control {
    if ops == [] then Control(false, None, {}, 0)
    else
      var before := Run(ops[..|ops| - 1]);
      if ops[|ops| - 1] then Started(before) else Stopped(before)
  }

  /** However often and in whatever order it is started and stopped, one timer polls exactly while the
      last operation was a start, and none otherwise. */
  lemma {:induction false} OneTimer(ops: seq<bool>)
    ensures var c := Run(ops);
      && (c.running <==> ops != [] && ops[|ops| - 1])
      && (c.running <==> c.timer.Some?) && c.live == (if c.timer.Some? then {c.timer.value} else {})
  {
    if ops != [] { OneTimer(ops[..|ops| - 1]); }
  }
}

module SchedulerServices {
  import opened Base
  import opened SchedulerProtocol
  import SchedulerControl

  /** The fate of the operations of one tick; `ok` is whether `initiatePayout` succeeds. */
  datatype Faults = Faults(lead: Outcome, claim: Outcome, ok: bool, completed: Outcome, failed: Outcome) {
    function At(pc: Pc): Outcome {
      match pc
      case Lead => lead
      case ClaimDue(_) => claim
      case SaveCompleted(_) => completed
      case SaveFailed(_) => failed
      case _ => Replied
    }
  }

  function Rank(pc: Pc): nat {
    match pc
    case Lead => 5
    case ClaimDue(_) => 4
    case Initiate(_) => 3
    case SaveCompleted(_) => 2
    case SaveFailed(_) => 1
    case Done => 0
  }

  /** The first due payout at or after position `i`; the number of payouts when there is none. */
  function FirstDue(s: State, i: nat): (p: nat)
    requires i <= |s.payouts|
    ensures i <= p <= |s.payouts| && (p < |s.payouts| ==> Due(s, p)) && (forall k :: i <= k < p ==> !Due(s, k))
    decreases |s.payouts| - i
  {
    if i == |s.payouts| || Due(s, i) then i else FirstDue(s, i + 1)
  }

  /** A tick with nobody in between. */
  function Tick(s: State, pc: Pc, f: Faults, cfg: Config): State
    decreases Rank(pc)
  {
    if Rank(pc) == 0 then s
    else var (s', pc') := TickStep(s, pc, FirstDue(s, 0), f.At(pc), f.ok, cfg); Tick(s', pc', f, cfg)
  }

  /** The status of a payout that this tick has claimed: completed when it went through and the save was
      answered, and otherwise failed, unless that save is lost as well. */
  function Settled(f: Faults): Status {
    if f.ok && f.completed == Replied then Completed
    else if f.failed.Ran() then Failed
    else if f.ok && f.completed.Ran() then Completed
    else Processing
  }

  datatype Doc = Doc(at: nat, amount: nat, status: Status)

  /** Position `p` is that of the first pending document whose time has come, or the end. */
  predicate FirstDueDoc(docs: seq<Doc>, now: nat, p: nat) {
    && p <= |docs| && (forall k :: 0 <= k < p ==> docs[k].status != Pending || docs[k].at > now)
    && (p < |docs| ==> docs[p].status == Pending && docs[p].at <= now)
  }

  /** What one cycle makes of the documents: nothing without the lead or a due payout; otherwise the first due
      one is claimed, and when the claim is answered it is executed. */
  predicate Polled(docs: seq<Doc>, now: nat, leads: bool, f: Faults, docs': seq<Doc>, initiated: Option<nat>) {
    exists p :: 0 <= p <= |docs| && FirstDueDoc(docs, now, p) && PolledAt(docs, p, leads, f, docs', initiated)
  }

  predicate PolledAt(docs: seq<Doc>, p: nat, leads: bool, f: Faults, docs': seq<Doc>, initiated: Option<nat>)
    requires p <= |docs|
  {
    if !leads || p == |docs| || f.claim == Unsent then initiated == None && docs' == docs
    else if f.claim == Replied then initiated == Some(p) && docs' == docs[p := docs[p].(status := Settled(f))]
    else initiated == None && docs' == docs[p := docs[p].(status := Processing)]
  }

  function ToPayouts(docs: seq<Doc>): seq<Payout> {
    seq(|docs|, i requires 0 <= i < |docs| => Payout(docs[i].at, docs[i].amount, docs[i].status, 0, None))
  }

  /** What is really stored: no history. */
  function Forget(s: State): State {
    s.(payouts := seq(|s.payouts|, i requires 0 <= i < |s.payouts| => s.payouts[i].(calls := 0, under := None)), grants := [])
  }

  lemma UpdateInView(docs: seq<Doc>, s: State, p: nat, d: Doc, t: Payout)
    requires p < |docs| && Forget(s).payouts == ToPayouts(docs)
    requires t.at == d.at && t.amount == d.amount && t.status == d.status
    ensures |s.payouts| == |docs|
    ensures Forget(s.(payouts := s.payouts[p := t])).payouts == ToPayouts(docs[p := d])
  {
    assert |docs| == |ToPayouts(docs)| == |s.payouts|;
    var s' := s.(payouts := s.payouts[p := t]);
    var docs' := docs[p := d];
    forall k | 0 <= k < |docs| ensures Forget(s').payouts[k] == ToPayouts(docs')[k] {
      assert Forget(s).payouts[k] == ToPayouts(docs)[k];
    }
  }

  lemma SameDue(docs: seq<Doc>, s: State)
    requires Forget(s).payouts == ToPayouts(docs)
    ensures |s.payouts| == |docs|
    ensures forall p :: 0 <= p < |docs| ==> (Due(s, p) <==> docs[p].status == Pending && docs[p].at <= s.now)
    ensures forall p :: 0 <= p < |docs| ==> s.payouts[p].at == docs[p].at && s.payouts[p].amount == docs[p].amount && s.payouts[p].status == docs[p].status
  {
    assert |docs| == |ToPayouts(docs)|;
    forall p | 0 <= p < |docs|
      ensures s.payouts[p].at == docs[p].at && s.payouts[p].amount == docs[p].amount && s.payouts[p].status == docs[p].status
    {
      assert Forget(s).payouts[p] == ToPayouts(docs)[p];
    }
  }

  lemma {:induction false} FirstDueIs(s: State, i: nat, p: nat)
    requires i <= p <= |s.payouts| && (forall k :: i <= k < p ==> !Due(s, k)) && (p == |s.payouts| || Due(s, p))
    ensures FirstDue(s, i) == p
    decreases p - i
  {
    if i < p { FirstDueIs(s, i + 1, p); }
  }

  lemma FirstDueIsDoc(docs: seq<Doc>, s: State)
    requires Forget(s).payouts == ToPayouts(docs)
    ensures |s.payouts| == |docs| && FirstDueDoc(docs, s.now, FirstDue(s, 0))
  {
    SameDue(docs, s);
    var p := FirstDue(s, 0);
    forall k | 0 <= k < p ensures docs[k].status != Pending || docs[k].at > s.now { assert !Due(s, k); }
  }

  lemma SameFirst(s: State, t: State)
    requires |s.payouts| == |t.payouts|
    requires forall p :: 0 <= p < |s.payouts| ==> (Due(s, p) <==> Due(t, p))
    ensures FirstDue(s, 0) == FirstDue(t, 0)
  {
    FirstDueIs(t, 0, FirstDue(s, 0));
  }

  /** The scheduled-payout collection and the leader key. */
  class ScheduleStore {
    var now: nat
    var leader: Option<nat>
    var docs: seq<Doc>

    constructor ()
      ensures now == 0 && leader == None && docs == []
    {
      now, leader, docs := 0, None, [];
    }

    ghost function View(): State
      reads this
    {
      State(now, leader, ToPayouts(docs), [], [], [])
    }

    /** findOneAndUpdate of a pending payout whose time has come; here the first in the collection. */
    method ClaimFirstDue(o: Outcome) returns (p: nat)
      modifies this`docs
      ensures p == FirstDue(old(View()), 0) && |docs| == |old(docs)|
      ensures docs == if o.Ran() && p < |old(docs)| then old(docs)[p := old(docs)[p].(status := Processing)] else old(docs)
    {
      p := 0;
      while p < |docs| && !(docs[p].status == Pending && docs[p].at <= now)
        invariant p <= |docs|
        invariant forall k :: 0 <= k < p ==> !Due(View(), k)
      {
        p := p + 1;
      }
      FirstDueIs(View(), 0, p);
      if o.Ran() && p < |docs| { docs := docs[p := docs[p].(status := Processing)]; }
    }

    method Save(p: nat, d: Doc, o: Outcome)
      requires p < |docs|
      modifies this`docs
      ensures docs == if o.Ran() then old(docs)[p := d] else old(docs)
    {
      if o.Ran() { docs := docs[p := d]; }
    }
  }

  class SchedulerService {
    const store: ScheduleStore
    const cfg: Config
    var running: bool
    var timer: Option<nat>
    var timers: set<nat>
    var nextTimer: nat

    constructor (store: ScheduleStore, cfg: Config)
      ensures this.store == store && this.cfg == cfg && Control() == SchedulerControl.Run([])
    {
      this.store, this.cfg, running, timer, timers, nextTimer := store, cfg, false, None, {}, 0;
    }

    /** `timers` are the intervals that the runtime keeps. */
    ghost function Control(): SchedulerControl.Control
      reads this
    {
      SchedulerControl.Control(running, timer, timers, nextTimer)
    }

    method Start()
      modifies this
      ensures Control() == SchedulerControl.Started(old(Control()))
    {
      if running { return; }
      running := true;
      timers, timer, nextTimer := timers + {nextTimer}, Some(nextTimer), nextTimer + 1;
    }

    method Stop()
      modifies this
      ensures Control() == SchedulerControl.Stopped(old(Control()))
    {
      if timer.Some? { timers, timer := timers - {timer.value}, None; }
      running := false;
    }

    /** One polling cycle; `initiated` is the payout handed to `initiatePayout`, if any. */
    method RunTick(f: Faults) returns (initiated: Option<nat>)
      modifies store
      ensures store.View() == Forget(Tick(old(store.View()), Lead, f, cfg))
      ensures initiated.Some? <==> (cfg.redis ==> f.lead == Replied && LeaderFree(old(store.View())))
                                   && f.claim == Replied && FirstDue(old(store.View()), 0) < |old(store.docs)|
      ensures initiated.Some? ==> initiated.value == FirstDue(old(store.View()), 0)
      // In terms of the documents and of the key: who leads claims the first that is due.
      ensures var free := old(store.leader) == None || old(store.leader).value <= old(store.now);
        && Polled(old(store.docs), old(store.now), !cfg.redis || (f.lead == Replied && free), f, store.docs, initiated)
        && store.leader == (if cfg.redis && f.lead.Ran() && free then Some(old(store.now) + cfg.ttl) else old(store.leader))
        && store.now == old(store.now)
      ensures initiated.Some? && cfg.redis ==> store.leader == Some(store.now + cfg.ttl)
    {
      initiated := None;
      ghost var end := Tick(store.View(), Lead, f, cfg);
      ghost var s, pc := store.View(), Lead;
      assert Forget(s).payouts == s.payouts;
      if cfg.redis {
        var free := store.leader.None? || store.leader.value <= store.now;
        if f.lead.Ran() && free { store.leader := Some(store.now + cfg.ttl); }
        s, pc := TickStep(s, pc, FirstDue(s, 0), f.lead, f.ok, cfg).0, TickStep(s, pc, FirstDue(s, 0), f.lead, f.ok, cfg).1;
        assert Forget(s) == store.View() && Tick(s, pc, f, cfg) == end;
        if f.lead != Replied || !free {
          FirstDueIsDoc(store.docs, old(store.View()));
          assert PolledAt(store.docs, FirstDue(old(store.View()), 0), false, f, store.docs, initiated);
          return;
        }
      } else {
        pc := ClaimDue(None);
      }
      SameFirst(s, old(store.View()));
      initiated := ClaimAndExecute(f, s, pc);
    }

    method ClaimAndExecute(f: Faults, ghost s0: State, ghost pc0: Pc) returns (initiated: Option<nat>)
      requires Forget(s0) == store.View() && pc0.ClaimDue?
      modifies store`docs
      ensures store.View() == Forget(Tick(s0, pc0, f, cfg))
      ensures initiated.Some? <==> f.claim == Replied && FirstDue(s0, 0) < |old(store.docs)|
      ensures initiated.Some? ==> initiated.value == FirstDue(s0, 0)
      ensures Polled(old(store.docs), store.now, true, f, store.docs, initiated)
    {
      initiated := None;
      ghost var choice := FirstDue(s0, 0);
      ghost var (s1, pc1) := TickStep(s0, pc0, choice, f.claim, f.ok, cfg);
      SameDue(store.docs, s0);
      SameFirst(s0, store.View());
      FirstDueIsDoc(store.docs, s0);
      if choice < |store.docs| {
        UpdateInView(store.docs, s0, choice, store.docs[choice].(status := Processing),
                     s0.payouts[choice].(status := Processing, under := pc0.under));
      }
      var p := store.ClaimFirstDue(f.claim);
      assert Forget(s1) == store.View();
      if f.claim != Replied || p == |store.docs| {
        assert PolledAt(old(store.docs), p, true, f, store.docs, None);
        return;
      }
      Execute(p, f, s1);
      initiated := Some(p);
      assert PolledAt(old(store.docs), p, true, f, store.docs, Some(p));
    }

    /** The payout runs; its record is marked completed, or failed when anything went wrong. */
    method Execute(p: nat, f: Faults, ghost s0: State)
      requires p < |store.docs| && Forget(s0) == store.View()
      modifies store`docs
      ensures store.View() == Forget(Tick(s0, Initiate(p), f, cfg))
      ensures old(store.docs)[p].status == Processing ==> store.docs == old(store.docs)[p := old(store.docs)[p].(status := Settled(f))]
    {
      SameDue(store.docs, s0);
      ghost var (s1, pc1) := TickStep(s0, Initiate(p), FirstDue(s0, 0), Replied, f.ok, cfg);
      assert Forget(s1).payouts == Forget(s0).payouts;
      ghost var s2, pc2 := s1, pc1;
      if f.ok {
        s2, pc2 := TickStep(s1, pc1, FirstDue(s1, 0), f.completed, f.ok, cfg).0, TickStep(s1, pc1, FirstDue(s1, 0), f.completed, f.ok, cfg).1;
        UpdateInView(store.docs, s1, p, store.docs[p].(status := Completed), s1.payouts[p].(status := Completed));
        store.Save(p, store.docs[p].(status := Completed), f.completed);
        assert Forget(s2) == store.View() && Tick(s1, pc1, f, cfg) == Tick(s2, pc2, f, cfg);
      }
      if pc2 == SaveFailed(p) {
        UpdateInView(store.docs, s2, p, store.docs[p].(status := Failed), s2.payouts[p].(status := Failed));
      }
      if !f.ok || f.completed != Replied {
        store.Save(p, store.docs[p].(status := Failed), f.failed);
        ghost var s3 := TickStep(s2, pc2, FirstDue(s2, 0), f.failed, f.ok, cfg).0;
        assert Forget(s3) == store.View() && Tick(s2, pc2, f, cfg) == s3;
      }
    }
  }

  class SchedulerController {
    const store: ScheduleStore

    constructor (store: ScheduleStore)
      ensures this.store == store
    {
      this.store := store;
    }

    /** Cancel and update alone with the store: an accepted request found the payout pending. */
    method Request(kind: Kind, p: nat, load: Outcome, save: Outcome) returns (accepted: bool)
      modifies store`docs
      ensures var (s1, r1) := RequestStep(old(store.View()), SchedulerProtocol.Request(kind, p, Load), load);
        var (s2, r2) := RequestStep(s1, r1, save);
        store.View() == s2 && accepted == (r2.pc == Accepted)
      // In plain terms: accepted exactly when both operations are answered and the payout was pending, which is
      // also what it takes to change it.
      ensures var found := load == Replied && p < |old(store.docs)| && old(store.docs)[p].status == Pending;
        && (accepted <==> found && save == Replied)
        && (!(found && save.Ran()) ==> store.docs == old(store.docs))
        && (found && save.Ran() ==> |store.docs| == |old(store.docs)| && store.docs == old(store.docs)[p := store.docs[p]])
        && (found && save.Ran() ==>
              var before, after := old(store.docs)[p], store.docs[p];
              match kind
              case Cancel => after == before.(status := Cancelled)
              case Update(amount, at) =>
                && after.status == before.status
                && (amount == None || amount == Some(0) ==> after.amount == before.amount)
                && (amount.Some? && amount.value > 0 ==> after.amount == amount.value)
                && after.at == (if at.Some? then at.value else before.at))
    {
      if load != Replied || p >= |store.docs| || store.docs[p].status != Pending { return false; }
      var d := store.docs[p];
      match kind {
        case Cancel => d := d.(status := Cancelled);
        case Update(amount, at) =>
          if amount.GetOr(0) != 0 { d := d.(amount := amount.value); }
          d := d.(at := at.GetOr(d.at));
      }
      var t := Payout(d.at, d.amount, d.status, 0, None);
      UpdateInView(store.docs, store.View(), p, d, t);
      store.Save(p, d, save);
      accepted := save == Replied;
    }
  }
}
