/** Delivery, retry and dead-lettering on `payout_queue`, for any number of messages, any prefetch and
    any handler outcomes. */
module RetryProtocol {

  /** One copy on its way: which message, and its x-retry-count header. */
  datatype Msg = Msg(id: nat, retries: nat)

  /** What the consumer makes of a payload: it passes the checks; it is not JSON, lacks a field or has no
      positive amount; or it is the JSON value null, which has no fields to look at, so that the checks
      throw. */
  datatype Kind = Good | Bad | NullBody

  /** `kinds[id]` is the kind of the payload of message `id`.  `dlq` and `acks` count per
      message; `runs` and `fails` are history: how often the handler started, and failed. */
  datatype State = State(kinds: seq<Kind>, queue: multiset<Msg>, inHand: multiset<Msg>, delayed: multiset<Msg>,
                         dlq: multiset<nat>, acks: multiset<nat>, runs: multiset<nat>, fails: multiset<nat>)

  datatype Action =
    | Publish(kind: Kind)
    | Deliver(m: Msg)
    | Handle(m: Msg, ok: bool)
    | Republish(m: Msg)

  const EMPTY := State([], multiset{}, multiset{}, multiset{}, multiset{}, multiset{}, multiset{}, multiset{})

  predicate Enabled(s: State, a: Action) {
    match a
    case Publish(_) => true
    case Deliver(m) => m in s.queue
    case Handle(m, _) => m in s.inHand && m.id < |s.kinds|
    case Republish(m) => m in s.delayed
  }

  /** Nack without requeue: the queue's dead-letter exchange keeps a copy. */
  function DeadLetter(s: State, m: Msg): State {
    s.(inHand := s.inHand - multiset{m}, dlq := s.dlq + multiset{m.id})
  }

  /** `_handleFailure`: every failed attempt is dead-lettered, and republished while retries remain. */
  function HandleFailure(s: State, m: Msg, max: nat): State {
    var again := Msg(m.id, m.retries + 1);
    var s' := DeadLetter(s, m).(fails := s.fails + multiset{m.id});
    if again.retries <= max then s'.(delayed := s'.delayed + multiset{again}) else s'
  }

  /** `_handleMessage`. */
  function HandleMessage(s: State, m: Msg, kind: Kind, ok: bool, max: nat): State {
    if kind == Bad then DeadLetter(s, m)
    else if kind == NullBody then HandleFailure(s, m, max)
    else
      var s' := s.(runs := s.runs + multiset{m.id});
      if ok then s'.(inHand := s'.inHand - multiset{m}, acks := s'.acks + multiset{m.id}) else HandleFailure(s', m, max)
  }

  function Apply(s: State, a: Action, max: nat): State
    requires Enabled(s, a)
  {
    match a
    case Publish(kind) => s.(kinds := s.kinds + [kind], queue := s.queue + multiset{Msg(|s.kinds|, 0)})
    case Deliver(m) => s.(queue := s.queue - multiset{m}, inHand := s.inHand + multiset{m})
    case Handle(m, ok) => HandleMessage(s, m, s.kinds[m.id], ok, max)
    case Republish(m) => s.(delayed := s.delayed - multiset{m}, queue := s.queue + multiset{m})
  }

  /** The states reached from `s` by a list of enabled actions. */
  ghost predicate Runs(s: State, actions: seq<Action>, max: nat, t: State)
    decreases |actions|
  {
    if actions == [] then s == t
    else Enabled(s, actions[0]) && Runs(Apply(s, actions[0], max), actions[1..], max, t)
  }

  // ----- The invariant --------------------------------------------------------------------------

  function Copies(s: State, m: Msg): nat { s.queue[m] + s.inHand[m] + s.delayed[m] }

  /** The only copy of a message there can be carries its number of failures. */
  function Current(s: State, id: nat): Msg { Msg(id, s.fails[id]) }

  predicate Live(s: State, id: nat) { Copies(s, Current(s, id)) > 0 }

  function One(b: bool): nat { if b then 1 else 0 }

  ghost predicate IdOk(s: State, id: nat, max: nat) {
    var m := Current(s, id);
    && Copies(s, m) <= 1
    && (forall r :: r != s.fails[id] ==> Copies(s, Msg(id, r)) == 0)
    && (id >= |s.kinds| ==> !Live(s, id) && s.fails[id] == s.dlq[id] == s.acks[id] == s.runs[id] == 0)
    && (id < |s.kinds| && s.kinds[id] == Bad ==>
          s.fails[id] == s.acks[id] == s.runs[id] == 0 && s.dlq[id] == One(!Live(s, id)))
    && (id < |s.kinds| && s.kinds[id] != Bad ==>
          && s.dlq[id] == s.fails[id]
          && s.runs[id] == (if s.kinds[id] == Good then s.fails[id] + s.acks[id] else 0)
          && (s.kinds[id] == NullBody ==> s.acks[id] == 0)
          && (Live(s, id) ==> s.acks[id] == 0 && s.fails[id] <= max)
          && (!Live(s, id) ==> (s.acks[id] == 1 && s.fails[id] <= max) || (s.acks[id] == 0 && s.fails[id] == max + 1)))
  }

  ghost predicate Inv(s: State, max: nat) { forall id: nat :: IdOk(s, id, max) }

  /** The message an action is about. */
  function Subject(s: State, a: Action): nat { if a.Publish? then |s.kinds| else a.m.id }

  /** Nothing changes for the other messages. */
  ghost predicate SameAccounts(s: State, s': State, k: nat) {
    && (forall r :: Copies(s', Msg(k, r)) == Copies(s, Msg(k, r)))
    && s'.fails[k] == s.fails[k] && s'.dlq[k] == s.dlq[k] && s'.acks[k] == s.acks[k] && s'.runs[k] == s.runs[k]
  }

  lemma OthersSame(s: State, a: Action, max: nat, k: nat)
    requires Enabled(s, a) && k != Subject(s, a) && !a.Handle?
    ensures SameAccounts(s, Apply(s, a, max), k)
  {}

  lemma OthersSameHandle(s: State, m: Msg, ok: bool, max: nat, k: nat)
    requires Enabled(s, Handle(m, ok)) && k != m.id
    ensures SameAccounts(s, Apply(s, Handle(m, ok), max), k)
  {
    forall r ensures Copies(Apply(s, Handle(m, ok), max), Msg(k, r)) == Copies(s, Msg(k, r)) { OtherCopies(s, m, ok, max, k, r); }
    OtherCounts(s, m, ok, max, k);
  }

  lemma OtherCopies(s: State, m: Msg, ok: bool, max: nat, k: nat, r: nat)
    requires Enabled(s, Handle(m, ok)) && k != m.id
    ensures Copies(Apply(s, Handle(m, ok), max), Msg(k, r)) == Copies(s, Msg(k, r))
  {}

  lemma OtherCounts(s: State, m: Msg, ok: bool, max: nat, k: nat)
    requires Enabled(s, Handle(m, ok)) && k != m.id
    ensures var s' := Apply(s, Handle(m, ok), max);
      s'.fails[k] == s.fails[k] && s'.dlq[k] == s.dlq[k] && s'.acks[k] == s.acks[k] && s'.runs[k] == s.runs[k]
  {}

  lemma OthersKeep(s: State, s': State, max: nat, k: nat)
    requires SameAccounts(s, s', k) && IdOk(s, k, max)
    requires s.kinds <= s'.kinds && (k < |s'.kinds| ==> k < |s.kinds|)
    ensures IdOk(s', k, max)
  {
    assert Copies(s', Current(s', k)) == Copies(s, Current(s, k));
  }

  lemma MoveKeeps(s: State, a: Action, max: nat)
    requires (a.Deliver? || a.Republish?) && Enabled(s, a) && IdOk(s, a.m.id, max)
    ensures IdOk(Apply(s, a, max), a.m.id, max)
  {
    var s' := Apply(s, a, max);
    assert forall r :: Copies(s', Msg(a.m.id, r)) == Copies(s, Msg(a.m.id, r));
  }

  predicate Fails(s: State, m: Msg, ok: bool)
    requires m.id < |s.kinds|
  {
    s.kinds[m.id] == NullBody || (s.kinds[m.id] == Good && !ok)
  }

  lemma HandleCounts(s: State, m: Msg, ok: bool, max: nat)
    requires Enabled(s, Handle(m, ok))
    ensures var s' := Apply(s, Handle(m, ok), max); var kind := s.kinds[m.id];
      && s'.kinds == s.kinds
      && s'.fails[m.id] == s.fails[m.id] + One(Fails(s, m, ok))
      && s'.dlq[m.id] == s.dlq[m.id] + One(kind == Bad || Fails(s, m, ok))
      && s'.acks[m.id] == s.acks[m.id] + One(kind == Good && ok)
      && s'.runs[m.id] == s.runs[m.id] + One(kind == Good)
  {}

  lemma HandleCopies(s: State, m: Msg, ok: bool, max: nat, r: nat)
    requires Enabled(s, Handle(m, ok)) && Copies(s, m) == 1 && (r != m.retries ==> Copies(s, Msg(m.id, r)) == 0)
    ensures Copies(Apply(s, Handle(m, ok), max), Msg(m.id, r)) == One(Fails(s, m, ok) && r == m.retries + 1 && r <= max)
  {}

  lemma HandleKeeps(s: State, m: Msg, ok: bool, max: nat)
    requires Enabled(s, Handle(m, ok)) && IdOk(s, m.id, max)
    ensures IdOk(Apply(s, Handle(m, ok), max), m.id, max)
  {
    assert Copies(s, m) > 0 && m == Current(s, m.id);
    var s' := Apply(s, Handle(m, ok), max);
    HandleCounts(s, m, ok, max);
    forall r: nat ensures Copies(s', Msg(m.id, r)) == One(Fails(s, m, ok) && r == m.retries + 1 && r <= max) {
      HandleCopies(s, m, ok, max, r);
    }
  }

  lemma ApplyInv(s: State, a: Action, max: nat)
    requires Inv(s, max) && Enabled(s, a)
    ensures Inv(Apply(s, a, max), max)
  {
    forall k: nat ensures IdOk(Apply(s, a, max), k, max) {
      assert IdOk(s, k, max);
      if k != Subject(s, a) { ApplyOther(s, a, max, k); } else { ApplySubject(s, a, max); }
    }
  }

  lemma ApplyOther(s: State, a: Action, max: nat, k: nat)
    requires Enabled(s, a) && IdOk(s, k, max) && k != Subject(s, a)
    ensures IdOk(Apply(s, a, max), k, max)
  {
    if a.Handle? { OthersSameHandle(s, a.m, a.ok, max, k); } else { OthersSame(s, a, max, k); }
    KindsGrow(s, a, max);
    OthersKeep(s, Apply(s, a, max), max, k);
  }

  lemma KindsGrow(s: State, a: Action, max: nat)
    requires Enabled(s, a)
    ensures Apply(s, a, max).kinds == if a.Publish? then s.kinds + [a.kind] else s.kinds
  {}

  lemma ApplySubject(s: State, a: Action, max: nat)
    requires Enabled(s, a) && IdOk(s, Subject(s, a), max)
    ensures IdOk(Apply(s, a, max), Subject(s, a), max)
  {
    match a
    case Publish(_) =>
    case Handle(m, ok) => HandleKeeps(s, m, ok, max);
    case _ => MoveKeeps(s, a, max);
  }

  lemma {:induction false} RunsInv(s: State, actions: seq<Action>, max: nat, t: State)
    requires Inv(s, max) && Runs(s, actions, max, t)
    ensures Inv(t, max)
    decreases |actions|
  {
    if actions != [] {
      ApplyInv(s, actions[0], max);
      RunsInv(Apply(s, actions[0], max), actions[1..], max, t);
    }
  }

  /** However deliveries interleave, the handler starts at most max + 1 times per message. */
  lemma AttemptsBounded(actions: seq<Action>, max: nat, t: State, id: nat)
    requires Runs(EMPTY, actions, max, t)
    ensures t.runs[id] <= max + 1
  {
    RunsInv(EMPTY, actions, max, t);
    assert IdOk(t, id, max);
  }

  predicate Drained(s: State) { s.queue == s.inHand == s.delayed == multiset{} }

  /** Once drained: a well-formed message has exactly one dead-lettered copy per failing attempt, and
      one ack if and only if some attempt did not fail; without one, all max + 1 attempts failed.  A
      malformed message has exactly one copy and never reached the handler; a null one never reached it
      either, but is retried all the same. */
  lemma DrainedAccounts(actions: seq<Action>, max: nat, t: State, id: nat)
    requires Runs(EMPTY, actions, max, t) && Drained(t) && id < |t.kinds|
    ensures t.kinds[id] == Good ==>
      && t.dlq[id] == t.fails[id] <= t.runs[id]
      && t.acks[id] == One(t.runs[id] > t.fails[id])
      && (t.acks[id] == 0 ==> t.fails[id] == max + 1)
    ensures t.kinds[id] == Bad ==> t.dlq[id] == 1 && t.acks[id] == t.runs[id] == 0
    ensures t.kinds[id] == NullBody ==> t.dlq[id] == max + 1 && t.acks[id] == t.runs[id] == 0
  {
    RunsInv(EMPTY, actions, max, t);
    assert IdOk(t, id, max);
  }

  // ----- Termination ------------------------------------------------------------------------------

  /** The steps message `id` can still take. */
  function Remaining(s: State, id: nat, max: nat): nat {
    var m := Current(s, id);
    if !Live(s, id) || m.retries > max then 0
    else 3 * (max - m.retries) + (if m in s.queue then 2 else if m in s.inHand then 1 else 3)
  }

  function Total(s: State, n: nat, max: nat): nat { if n == 0 then 0 else Total(s, n - 1, max) + Remaining(s, n - 1, max) }

  lemma {:induction false} TotalChanges(s: State, s': State, n: nat, id: nat, max: nat)
    requires forall k: nat :: k < n && k != id ==> Remaining(s', k, max) == Remaining(s, k, max)
    ensures Total(s', n, max) - Total(s, n, max) == if id < n then Remaining(s', id, max) - Remaining(s, id, max) else 0
  {
    if n > 0 { TotalChanges(s, s', n - 1, id, max); }
  }

  lemma MoveDecreases(s: State, a: Action, max: nat)
    requires Enabled(s, a) && (a.Deliver? || a.Republish?) && IdOk(s, a.m.id, max)
    ensures a.m.id < |s.kinds| && Remaining(Apply(s, a, max), a.m.id, max) < Remaining(s, a.m.id, max)
  {
    assert Copies(s, a.m) > 0 && a.m == Current(s, a.m.id);
  }

  lemma HandleDecreases(s: State, m: Msg, ok: bool, max: nat)
    requires Enabled(s, Handle(m, ok)) && IdOk(s, m.id, max)
    ensures Remaining(Apply(s, Handle(m, ok), max), m.id, max) < Remaining(s, m.id, max)
  {
    assert Copies(s, m) > 0 && m == Current(s, m.id) && s.inHand[m] == 1;
    var s' := Apply(s, Handle(m, ok), max);
    HandleCounts(s, m, ok, max);
    HandleCopies(s, m, ok, max, Current(s', m.id).retries);
  }

  lemma OthersRemain(s: State, a: Action, max: nat, k: nat)
    requires Enabled(s, a) && !a.Publish? && k != a.m.id
    ensures Remaining(Apply(s, a, max), k, max) == Remaining(s, k, max)
  {
    if a.Handle? { OthersRemainHandle(s, a.m, a.ok, max, k); }
  }

  lemma OthersRemainHandle(s: State, m: Msg, ok: bool, max: nat, k: nat)
    requires Enabled(s, Handle(m, ok)) && k != m.id
    ensures Remaining(Apply(s, Handle(m, ok), max), k, max) == Remaining(s, k, max)
  {
    OtherCounts(s, m, ok, max, k);
    OtherCopies(s, m, ok, max, k, s.fails[k]);
  }

  /** Every step but a new publication uses up one of the remaining steps of the whole queue. */
  lemma StepDecreases(s: State, a: Action, max: nat)
    requires Inv(s, max) && Enabled(s, a) && !a.Publish?
    ensures Total(Apply(s, a, max), |s.kinds|, max) < Total(s, |s.kinds|, max)
    ensures |Apply(s, a, max).kinds| == |s.kinds|
  {
    assert IdOk(s, a.m.id, max);
    if a.Handle? { HandleDecreases(s, a.m, a.ok, max); } else { MoveDecreases(s, a, max); }
    forall k: nat | k < |s.kinds| && k != a.m.id ensures Remaining(Apply(s, a, max), k, max) == Remaining(s, k, max) {
      OthersRemain(s, a, max, k);
    }
    TotalChanges(s, Apply(s, a, max), |s.kinds|, a.m.id, max);
  }

  /** So a run without new publications has at most that many steps: the queue always drains. */
  lemma {:induction false} RunsAreShort(s: State, actions: seq<Action>, max: nat, t: State)
    requires Inv(s, max) && Runs(s, actions, max, t)
    requires forall k :: 0 <= k < |actions| ==> !actions[k].Publish?
    ensures |actions| <= Total(s, |s.kinds|, max)
    decreases |actions|
  {
    if actions != [] {
      StepDecreases(s, actions[0], max);
      ApplyInv(s, actions[0], max);
      RunsAreShort(Apply(s, actions[0], max), actions[1..], max, t);
    }
  }

  /** And as long as it has not drained, some step is enabled. */
  lemma NotStuck(s: State, max: nat)
    requires Inv(s, max) && !Drained(s)
    ensures exists a: Action :: !a.Publish? && Enabled(s, a)
  {
    if m :| m in s.queue {
      assert Enabled(s, Deliver(m));
    } else if m :| m in s.delayed {
      assert Enabled(s, Republish(m));
    } else {
      var m :| m in s.inHand;
      assert IdOk(s, m.id, max) && Copies(s, m) > 0;
      assert Enabled(s, Handle(m, true));
    }
  }
}

/** Starting and stopping the consumer: the tags that are alive at the broker, and the one remembered. */
module ConsumerControl {
  import opened Base

  datatype Control = Control(tag: Option<nat>, live: set<nat>, nextTag: nat)

  /** The broker makes a new tag, which replaces the one remembered. */
  function Started(c: Control): Control { Control(Some(c.nextTag), c.live + {c.nextTag}, c.nextTag + 1) }

  /** The tag remembered, if any, is cancelled and forgotten. */
  function Stopped(c: Control): Control { if c.tag.Some? then c.(tag := None, live := c.live - {c.tag.value}) else c }

  /** A list of starts (`true`) and stops. */
  function Run(ops: seq<bool>): Control {
    if ops == [] then Control(None, {}, 0)
    else
      var before := Run(ops[..|ops| - 1]);
      if ops[|ops| - 1] then Started(before) else Stopped(before)
  }

  /** The last operation is a start. */
  predicate Running(ops: seq<bool>) { ops != [] && ops[|ops| - 1] }

  /** No start follows a start. */
  predicate Alternates(ops: seq<bool>) {
    ops == [] || (Alternates(ops[..|ops| - 1]) && (ops[|ops| - 1] ==> !Running(ops[..|ops| - 1])))
  }

  predicate Leaked(c: Control) { exists t :: t in c.live && c.tag != Some(t) }

  lemma {:induction false} RunShape(ops: seq<bool>)
    ensures var c := Run(ops);
      && (forall t :: t in c.live ==> t < c.nextTag)
      && (c.tag.Some? ==> c.tag.value in c.live) && (c.tag.Some? <==> Running(ops))
      && (Leaked(c) <==> !Alternates(ops))
  {
    if ops != [] {
      var front := ops[..|ops| - 1];
      var before, after := Run(front), Run(ops);
      RunShape(front);
      if Leaked(before) {
        var t :| t in before.live && before.tag != Some(t);
        assert t in after.live && after.tag != Some(t);
      } else if ops[|ops| - 1] && before.tag.Some? {
        assert before.tag.value in after.live && after.tag != before.tag;
      }
    }
  }

  /** Stopping leaves no consumer at the broker if and only if it was never started while it ran: the
      source does not guard against that, and the first tag is lost. */
  lemma {:induction false} StopEndsIff(ops: seq<bool>)
    ensures Stopped(Run(ops)).live == {} <==> Alternates(ops)
  {
    RunShape(ops);
    var c := Run(ops);
    if Leaked(c) {
      var t :| t in c.live && c.tag != Some(t);
      assert t in Stopped(c).live;
    } else {
      assert forall t :: t in c.live ==> c.tag == Some(t);
    }
  }
}

module Consumer {
  import opened Base
  import opened RetryProtocol
  import ConsumerControl

  /** A message body: not JSON, the value null, or JSON with some fields set and perhaps a numeric amount. */
  datatype Body = NotJson | Null | Json(fields: set<string>, amount: Option<int>)

  const REQUIRED := {"transactionId", "userId", "amount", "currency"}

  function KindOf(b: Body): Kind {
    match b
    case NotJson => Bad
    case Null => NullBody
    case Json(fields, amount) => if REQUIRED <= fields && amount.Some? && amount.value > 0 then Good else Bad
  }

  /** What the protocol's step means for a body. */
  lemma HandleIs(s: State, m: Msg, body: Body, ok: bool, max: nat)
    requires Enabled(s, Handle(m, ok)) && s.kinds[m.id] == KindOf(body)
    ensures var good := body.Json? && "transactionId" in body.fields && "userId" in body.fields && "amount" in body.fields
                        && "currency" in body.fields && body.amount.Some? && body.amount.value > 0;
      var again := Msg(m.id, m.retries + 1);
      var s' := Apply(s, Handle(m, ok), max);
      && s'.runs == (if good then s.runs + multiset{m.id} else s.runs)
      && s'.acks == (if good && ok then s.acks + multiset{m.id} else s.acks)
      && s'.dlq == (if good && ok then s.dlq else s.dlq + multiset{m.id})
      && s'.delayed == (if ((good && !ok) || body.Null?) && again.retries <= max then s.delayed + multiset{again} else s.delayed)
      && s'.inHand == s.inHand - multiset{m} && s'.queue == s.queue
  {
    KindIs(body);
    HandleKind(s, m, s.kinds[m.id], ok, max);
  }

  lemma KindIs(b: Body)
    ensures KindOf(b) == Good <==>
      b.Json? && "transactionId" in b.fields && "userId" in b.fields && "amount" in b.fields && "currency" in b.fields
      && b.amount.Some? && b.amount.value > 0
    ensures KindOf(b) == NullBody <==> b.Null?
  {}

  lemma HandleKind(s: State, m: Msg, kind: Kind, ok: bool, max: nat)
    ensures var s' := RetryProtocol.HandleMessage(s, m, kind, ok, max); var again := Msg(m.id, m.retries + 1); var good := kind == Good;
      && s'.runs == (if good then s.runs + multiset{m.id} else s.runs)
      && s'.acks == (if good && ok then s.acks + multiset{m.id} else s.acks)
      && s'.dlq == (if good && ok then s.dlq else s.dlq + multiset{m.id})
      && s'.delayed == (if ((good && !ok) || kind == NullBody) && again.retries <= max then s.delayed + multiset{again} else s.delayed)
      && s'.inHand == s.inHand - multiset{m} && s'.queue == s.queue
  {}

  /** The queue, its dead-letter exchange and the pending republish timers.  The ghost fields are the
      history of the handler. */
  class Channel {
    var queue: multiset<Msg>
    var inHand: multiset<Msg>
    var timers: multiset<Msg>
    var dlq: multiset<nat>
    var acks: multiset<nat>
    var consumers: set<nat>
    var nextTag: nat
    ghost var kinds: seq<Kind>
    ghost var runs: multiset<nat>
    ghost var fails: multiset<nat>

    constructor ()
      ensures View() == EMPTY && consumers == {} && nextTag == 0
    {
      consumers, nextTag := {}, 0;
      queue, inHand, timers, dlq, acks := multiset{}, multiset{}, multiset{}, multiset{}, multiset{};
      kinds, runs, fails := [], multiset{}, multiset{};
    }

    ghost function View(): State
      reads this
    {
      State(kinds, queue, inHand, timers, dlq, acks, runs, fails)
    }

    method Ack(m: Msg)
      requires m in inHand
      modifies this`inHand, this`acks
      ensures inHand == old(inHand) - multiset{m} && acks == old(acks) + multiset{m.id}
    {
      inHand, acks := inHand - multiset{m}, acks + multiset{m.id};
    }

    /** nack(msg, false, false) */
    method Nack(m: Msg)
      requires m in inHand
      modifies this`inHand, this`dlq
      ensures View() == DeadLetter(old(View()), m)
    {
      inHand, dlq := inHand - multiset{m}, dlq + multiset{m.id};
    }

    method SendLater(m: Msg)
      modifies this`timers
      ensures timers == old(timers) + multiset{m}
    {
      timers := timers + multiset{m};
    }
  }

  class MessageConsumer {
    const channel: Channel
    const maxRetries: nat
    var consumerTag: Option<nat>

    constructor (channel: Channel, maxRetries: nat)
      ensures this.channel == channel && this.maxRetries == maxRetries && consumerTag.None?
    {
      this.channel, this.maxRetries, consumerTag := channel, maxRetries, None;
    }

    ghost function Control(): ConsumerControl.Control
      reads this, channel
    {
      ConsumerControl.Control(consumerTag, channel.consumers, channel.nextTag)
    }

    method StartConsuming()
      modifies this, channel`consumers, channel`nextTag
      ensures Control() == ConsumerControl.Started(old(Control()))
    {
      var tag := channel.nextTag;
      channel.consumers, channel.nextTag := channel.consumers + {tag}, tag + 1;
      consumerTag := Some(tag);
    }

    method StopConsuming()
      modifies this, channel`consumers
      ensures Control() == ConsumerControl.Stopped(old(Control()))
    {
      if consumerTag.Some? {
        channel.consumers := channel.consumers - {consumerTag.value};
        consumerTag := None;
      }
    }

    /** `ok` is whether the handler returns normally; `good` is that the body may reach it. */
    method HandleMessage(m: Msg, body: Body, ok: bool)
      requires m in channel.inHand && m.id < |channel.kinds| && channel.kinds[m.id] == KindOf(body)
      modifies channel
      ensures channel.View() == Apply(old(channel.View()), Handle(m, ok), maxRetries)
      // In terms of the body: what reaches the handler is acknowledged exactly when it succeeds ...
      ensures var good := body.Json? && "transactionId" in body.fields && "userId" in body.fields && "amount" in body.fields
                          && "currency" in body.fields && body.amount.Some? && body.amount.value > 0;
        var again := Msg(m.id, m.retries + 1);
        && channel.runs == (if good then old(channel.runs) + multiset{m.id} else old(channel.runs))
        && channel.acks == (if good && ok then old(channel.acks) + multiset{m.id} else old(channel.acks))
        // ... everything else is dead-lettered, and only failures and null bodies are sent again.
        && channel.dlq == (if good && ok then old(channel.dlq) else old(channel.dlq) + multiset{m.id})
        && channel.timers == (if ((good && !ok) || body.Null?) && again.retries <= maxRetries
                              then old(channel.timers) + multiset{again} else old(channel.timers))
      ensures channel.inHand == old(channel.inHand) - multiset{m} && channel.queue == old(channel.queue)
    {
      HandleIs(channel.View(), m, body, ok, maxRetries);
      if body.Null? {
        HandleFailure(m);
        return;
      }
      if body.NotJson? || !(REQUIRED <= body.fields) || body.amount.None? || body.amount.value <= 0 {
        channel.Nack(m);
        return;
      }
      CallHandler(m, ok);
    }

    method CallHandler(m: Msg, ok: bool)
      requires m in channel.inHand
      modifies channel
      ensures channel.View() == RetryProtocol.HandleMessage(old(channel.View()), m, Good, ok, maxRetries)
    {
      channel.runs := channel.runs + multiset{m.id};
      ghost var s := channel.View();
      if ok {
        channel.Ack(m);
      } else {
        HandleFailure(m);
        assert channel.View() == RetryProtocol.HandleFailure(s, m, maxRetries);
      }
    }

    method HandleFailure(m: Msg)
      requires m in channel.inHand
      modifies channel
      ensures channel.View() == RetryProtocol.HandleFailure(old(channel.View()), m, maxRetries)
      ensures var again := Msg(m.id, m.retries + 1);
        && channel.dlq == old(channel.dlq) + multiset{m.id}
        && channel.timers == (if again.retries <= maxRetries then old(channel.timers) + multiset{again} else old(channel.timers))
    {
      channel.fails := channel.fails + multiset{m.id};
      var retryCount := m.retries + 1;
      channel.Nack(m);
      if retryCount <= maxRetries {
        channel.SendLater(Msg(m.id, retryCount));
      }
    }
  }
}
