/** How often a transaction is credited back: rollbacks, retries and redeliveries over all runs. */
module PayoutCredits {
  import opened Base
  import opened PayoutProtocol
  import opened PayoutLedger
  import opened PayoutTheorems
  import RetryProtocol

  function One(b: bool): nat { if b then 1 else 0 }

  /** The deliveries of a transaction so far. */
  function Deliveries(hs: seq<Handler>, i: TxId): nat {
    if hs == [] then 0 else Deliveries(hs[..|hs| - 1], i) + One(hs[|hs| - 1].msg.tx == i)
  }

  predicate Past(pc: HandlerPc) { pc in {MarkFailed, Ack, Nack, Finished} }

  /** Those whose rollback, if any, is over. */
  function Spent(hs: seq<Handler>, i: TxId): nat {
    if hs == [] then 0 else Spent(hs[..|hs| - 1], i) + One(hs[|hs| - 1].msg.tx == i && Past(hs[|hs| - 1].pc))
  }

  lemma {:induction false} SpentWithin(hs: seq<Handler>, i: TxId)
    ensures Spent(hs, i) <= Deliveries(hs, i)
  {
    if hs != [] { SpentWithin(hs[..|hs| - 1], i); }
  }

  lemma {:induction false} Updated(hs: seq<Handler>, j: nat, h: Handler, i: TxId)
    requires j < |hs| && h.msg == hs[j].msg
    ensures Deliveries(hs[j := h], i) == Deliveries(hs, i)
    ensures Spent(hs[j := h], i) == Spent(hs, i) + One(h.msg.tx == i && Past(h.pc)) - One(h.msg.tx == i && Past(hs[j].pc))
  {
    var n := |hs| - 1;
    if j == n {
      assert hs[j := h][..n] == hs[..n];
    } else {
      Updated(hs[..n], j, h, i);
      assert hs[j := h][..n] == hs[..n][j := h];
    }
  }

  lemma Appended(hs: seq<Handler>, h: Handler, i: TxId)
    ensures Deliveries(hs + [h], i) == Deliveries(hs, i) + One(h.msg.tx == i)
    ensures Spent(hs + [h], i) == Spent(hs, i) + One(h.msg.tx == i && Past(h.pc))
  {
    assert (hs + [h])[..|hs|] == hs;
  }

  // ----- One credit per delivery --------------------------------------------------------------------------

  ghost predicate CreditsOk(s: State) {
    forall i :: 0 <= i < |s.db.txs| ==> s.db.txs[i].restores <= Spent(s.handlers, i)
  }

  lemma RollbackCredits(db: Db, h: Handler, o: Outcome)
    requires h.msg.tx < |db.txs|
    ensures var (db', h') := HandlerStep(db, h, o);
      && h'.msg == h.msg && (Past(h.pc) ==> Past(h'.pc))
      && (h.pc == Rollback ==> Past(h'.pc))
      && |db'.txs| == |db.txs| && db'.txs[h.msg.tx].restores <= db.txs[h.msg.tx].restores + One(h.pc == Rollback)
  {
    HandlerTx(db, h, o);
    MovesOn(db, h, o);
  }

  lemma MovesOn(db: Db, h: Handler, o: Outcome)
    ensures var h' := HandlerStep(db, h, o).1; h'.msg == h.msg && (Past(h.pc) || h.pc == Rollback ==> Past(h'.pc))
  {}

  lemma WorkCredits(s: State, j: nat, o: Outcome, maxRetries: nat)
    requires Inv(s) && CreditsOk(s) && j < |s.handlers| && s.handlers[j].pc != Ack && s.handlers[j].pc != Nack
    ensures CreditsOk(Apply(s, StepHandler(j, o), maxRetries))
  {
    var h := s.handlers[j];
    var (db', h') := HandlerStep(s.db, h, o);
    assert HandlerOk(s.db.txs, h);
    RollbackCredits(s.db, h, o);
    HandlerStepFrame(s.db, h, o);
    forall i | 0 <= i < |db'.txs| ensures db'.txs[i].restores <= Spent(s.handlers[j := h'], i) {
      Updated(s.handlers, j, h', i);
    }
  }

  lemma StepHandlerCredits(s: State, j: nat, o: Outcome, maxRetries: nat)
    requires Inv(s) && CreditsOk(s) && j < |s.handlers|
    ensures CreditsOk(Apply(s, StepHandler(j, o), maxRetries))
  {
    if s.handlers[j].pc == Ack || s.handlers[j].pc == Nack {
      forall i | 0 <= i < |s.db.txs| ensures s.db.txs[i].restores <= Spent(s.handlers[j := s.handlers[j].(pc := Finished)], i) {
        Updated(s.handlers, j, s.handlers[j].(pc := Finished), i);
      }
    } else {
      WorkCredits(s, j, o, maxRetries);
    }
  }

  lemma OtherCredits(s: State, a: Action, maxRetries: nat)
    requires CreditsOk(s) && !a.StepHandler?
    ensures CreditsOk(Apply(s, a, maxRetries))
  {
    ElsewhereGrows(s, a, maxRetries);
    var s' := Apply(s, a, maxRetries);
    NewRestores(s, a, maxRetries);
    forall i | 0 <= i < |s'.db.txs| ensures s'.db.txs[i].restores <= Spent(s'.handlers, i) {
      if a.Deliver? && s'.handlers != s.handlers { Appended(s.handlers, Handler(a.m, false, Claim), i); }
    }
  }

  lemma NewRestores(s: State, a: Action, maxRetries: nat)
    requires !a.StepHandler?
    ensures var s' := Apply(s, a, maxRetries);
      && (forall k :: |s.db.txs| <= k < |s'.db.txs| ==> s'.db.txs[k].restores == 0)
      && (s'.handlers == s.handlers || (a.Deliver? && s'.handlers == s.handlers + [Handler(a.m, false, Claim)]))
  {}

  lemma {:induction false} RunCredits(s: State, actions: seq<Action>, maxRetries: nat)
    requires Initial(s)
    ensures CreditsOk(Run(s, actions, maxRetries))
    decreases |actions|
  {
    if actions != [] {
      var n := |actions| - 1;
      var before := Run(s, actions[..n], maxRetries);
      RunCredits(s, actions[..n], maxRetries);
      RunOk(s, actions[..n], maxRetries);
      if actions[n].StepHandler? {
        if actions[n].i < |before.handlers| { StepHandlerCredits(before, actions[n].i, actions[n].o, maxRetries); }
      } else {
        OtherCredits(before, actions[n], maxRetries);
      }
    }
  }

  /** Whatever fails and however deliveries interleave, a transaction is credited at most once per
      delivery. */
  lemma {:induction false} CreditPerDelivery(s: State, actions: seq<Action>, maxRetries: nat, i: TxId)
    requires Initial(s)
    ensures var t := Run(s, actions, maxRetries); i < |t.db.txs| ==> t.db.txs[i].restores <= Deliveries(t.handlers, i)
  {
    RunCredits(s, actions, maxRetries);
    SpentWithin(Run(s, actions, maxRetries).handlers, i);
  }

  // ----- At most max + 1 deliveries -----------------------------------------------------------------------

  /** The copies of messages that wait for a delivery. */
  function Pending(s: State): multiset<Message> { s.queue + s.delayed }

  predicate InHand(hs: seq<Handler>, i: TxId) { exists j :: 0 <= j < |hs| && hs[j].msg.tx == i && hs[j].pc != Finished }

  /** A waiting copy is the only one of its transaction, and counts the deliveries before it. */
  predicate CopyOk(s: State, m: Message, maxRetries: nat) {
    Pending(s)[m] == 1 && Deliveries(s.handlers, m.tx) == m.retries <= maxRetries && !InHand(s.handlers, m.tx)
  }

  predicate HandOk(hs: seq<Handler>, j: nat)
    requires j < |hs|
  {
    hs[j].pc != Finished ==> Deliveries(hs, hs[j].msg.tx) == hs[j].msg.retries + 1
  }

  /** A call about to publish holds a transaction that nobody else knows. */
  predicate NewOk(s: State, c: Call) {
    c.pc == Publish ==> Deliveries(s.handlers, c.tx) == 0 && forall m :: m in Pending(s) ==> m.tx != c.tx
  }

  ghost predicate SingleCopies(s: State, maxRetries: nat) {
    && (forall m :: m in Pending(s) ==> CopyOk(s, m, maxRetries))
    && (forall m, m' :: m in Pending(s) && m' in Pending(s) && m.tx == m'.tx ==> m == m')
  }

  ghost predicate SingleHands(s: State, maxRetries: nat) {
    && (forall j :: 0 <= j < |s.handlers| ==> HandOk(s.handlers, j))
    && (forall j, k :: 0 <= j < k < |s.handlers| && s.handlers[j].pc != Finished && s.handlers[k].pc != Finished ==>
          s.handlers[j].msg.tx != s.handlers[k].msg.tx)
    && (forall i: TxId :: Deliveries(s.handlers, i) <= maxRetries + 1)
  }

  ghost predicate SingleCalls(s: State) {
    && (forall i :: 0 <= i < |s.calls| ==> NewOk(s, s.calls[i]))
    && (forall i, j :: 0 <= i < j < |s.calls| && s.calls[i].pc == Publish && s.calls[j].pc == Publish ==> s.calls[i].tx != s.calls[j].tx)
  }

  ghost predicate Single(s: State, maxRetries: nat) {
    SingleCopies(s, maxRetries) && SingleHands(s, maxRetries) && SingleCalls(s)
  }

  /** Steps that leave messages and deliveries alone. */
  lemma QuietSingle(s: State, s': State, maxRetries: nat)
    requires Single(s, maxRetries) && Pending(s') == Pending(s) && s'.handlers == s.handlers
    requires |s.calls| <= |s'.calls|
    requires forall i :: 0 <= i < |s'.calls| && s'.calls[i].pc == Publish ==> i < |s.calls| && s.calls[i].pc == Publish && s.calls[i].tx == s'.calls[i].tx
    ensures Single(s', maxRetries)
  {
    forall m | m in Pending(s') ensures CopyOk(s', m, maxRetries) { assert CopyOk(s, m, maxRetries); }
    forall i | 0 <= i < |s'.calls| ensures NewOk(s', s'.calls[i]) { assert i < |s.calls| ==> NewOk(s, s.calls[i]); }
  }

  lemma {:induction false} NoDeliveries(txs: seq<Tx>, hs: seq<Handler>, i: TxId)
    requires (forall j :: 0 <= j < |hs| ==> HandlerOk(txs, hs[j])) && i >= |txs|
    ensures Deliveries(hs, i) == 0
  {
    if hs != [] {
      assert HandlerOk(txs, hs[|hs| - 1]);
      NoDeliveries(txs, hs[..|hs| - 1], i);
    }
  }

  lemma CreateOnly(db: Db, c: Call, o: Outcome, verdict: bool)
    requires c.pc != Publish
    ensures var c' := CallStep(db, c, o, verdict).1; c'.pc == Publish ==> c'.tx == |db.txs|
  {}

  /** A call gets a new transaction to publish, or none. */
  lemma CallFrame(s: State, s': State, i: nat, maxRetries: nat)
    requires Inv(s) && Single(s, maxRetries) && i < |s.calls| && |s'.calls| == |s.calls|
    requires s'.queue == s.queue && s'.delayed == s.delayed && s'.handlers == s.handlers
    requires s'.calls == s.calls[i := s'.calls[i]] && (s'.calls[i].pc == Publish ==> s'.calls[i].tx == |s.db.txs|)
    ensures Single(s', maxRetries)
  {
    NoDeliveries(s.db.txs, s.handlers, |s.db.txs|);
    forall m | m in Pending(s) ensures CopyOk(s', m, maxRetries) && m.tx < |s.db.txs| {
      assert CopyOk(s, m, maxRetries) && Matches(s.db.txs, m);
    }
    forall j | 0 <= j < |s.calls| && j != i ensures NewOk(s', s.calls[j]) && (s.calls[j].pc == Publish ==> s.calls[j].tx < |s.db.txs|) {
      assert NewOk(s, s.calls[j]) && CallOk(s.db.txs, s.calls[j]);
    }
  }

  lemma CallSingle(s: State, i: nat, o: Outcome, verdict: bool, maxRetries: nat)
    requires Inv(s) && Single(s, maxRetries) && i < |s.calls| && s.calls[i].pc != Publish
    ensures Single(Apply(s, StepCall(i, o, verdict), maxRetries), maxRetries)
  {
    CreateOnly(s.db, s.calls[i], o, verdict);
    CallFrame(s, Apply(s, StepCall(i, o, verdict), maxRetries), i, maxRetries);
  }

  lemma PublishSingle(s: State, i: nat, o: Outcome, maxRetries: nat)
    requires Single(s, maxRetries) && i < |s.calls| && s.calls[i].pc == Publish
    ensures Single(PublishStep(s, i, o), maxRetries)
  {
    var s' := PublishStep(s, i, o);
    var c := s.calls[i];
    var m0 := PublishedMessage(c);
    assert NewOk(s, c);
    assert o.Ran() ==> Pending(s') == Pending(s) + multiset{m0};
    assert !o.Ran() ==> Pending(s') == Pending(s);
    forall m | m in Pending(s') ensures CopyOk(s', m, maxRetries) && (m.tx == c.tx ==> m == m0) {
      if m != m0 { assert CopyOk(s, m, maxRetries); } else { NotInHand(s, c.tx, maxRetries); }
    }
    forall j | 0 <= j < |s'.calls| ensures NewOk(s', s'.calls[j]) { assert NewOk(s, s.calls[j]); }
  }

  lemma NotInHand(s: State, i: TxId, maxRetries: nat)
    requires SingleHands(s, maxRetries)
    ensures InHand(s.handlers, i) ==> Deliveries(s.handlers, i) > 0
  {
    if InHand(s.handlers, i) {
      var j :| 0 <= j < |s.handlers| && s.handlers[j].msg.tx == i && s.handlers[j].pc != Finished;
      assert HandOk(s.handlers, j);
    }
  }

  lemma InHandAppended(hs: seq<Handler>, h: Handler, i: TxId)
    ensures InHand(hs + [h], i) ==> InHand(hs, i) || (h.msg.tx == i && h.pc != Finished)
  {
    if InHand(hs + [h], i) {
      var j :| 0 <= j < |hs + [h]| && (hs + [h])[j].msg.tx == i && (hs + [h])[j].pc != Finished;
      if j < |hs| { assert hs[j].msg.tx == i && hs[j].pc != Finished; }
    }
  }

  lemma DeliverCopy(s: State, s': State, m: Message, k: Message, maxRetries: nat)
    requires Single(s, maxRetries) && m in Pending(s) && k in Pending(s')
    requires Pending(s') == Pending(s) - multiset{m} && s'.handlers == s.handlers + [Handler(m, false, Claim)]
    ensures CopyOk(s', k, maxRetries) && k.tx != m.tx && k in Pending(s)
  {
    assert CopyOk(s, m, maxRetries) && CopyOk(s, k, maxRetries) && k != m;
    Appended(s.handlers, Handler(m, false, Claim), k.tx);
    InHandAppended(s.handlers, Handler(m, false, Claim), k.tx);
  }

  lemma DeliverHands(s: State, s': State, m: Message, maxRetries: nat)
    requires Single(s, maxRetries) && m in Pending(s) && s'.handlers == s.handlers + [Handler(m, false, Claim)]
    ensures SingleHands(s', maxRetries)
  {
    assert CopyOk(s, m, maxRetries);
    forall i: TxId ensures Deliveries(s'.handlers, i) == Deliveries(s.handlers, i) + One(m.tx == i) {
      Appended(s.handlers, Handler(m, false, Claim), i);
    }
    forall j | 0 <= j < |s.handlers| ensures HandOk(s'.handlers, j) && (s.handlers[j].pc != Finished ==> s.handlers[j].msg.tx != m.tx) {
      assert HandOk(s.handlers, j);
      assert s.handlers[j].pc != Finished && s.handlers[j].msg.tx == m.tx ==> InHand(s.handlers, m.tx);
    }
  }

  lemma DeliverSingle(s: State, m: Message, maxRetries: nat)
    requires Single(s, maxRetries) && m in s.queue
    ensures Single(Apply(s, Deliver(m), maxRetries), maxRetries)
  {
    var s' := Apply(s, Deliver(m), maxRetries);
    assert Pending(s') == Pending(s) - multiset{m};
    DeliverHands(s, s', m, maxRetries);
    forall k | k in Pending(s') ensures CopyOk(s', k, maxRetries) && k in Pending(s) { DeliverCopy(s, s', m, k, maxRetries); }
    forall i | 0 <= i < |s.calls| ensures NewOk(s', s.calls[i]) {
      assert NewOk(s, s.calls[i]);
      Appended(s.handlers, Handler(m, false, Claim), s.calls[i].tx);
    }
  }

  /** A worker step on handler `j`, which keeps its message. */
  lemma HandSingle(s: State, s': State, j: nat, h: Handler, maxRetries: nat)
    requires Single(s, maxRetries) && j < |s.handlers| && h.msg == s.handlers[j].msg && s.handlers[j].pc != Finished
    requires s'.handlers == s.handlers[j := h] && Pending(s') == Pending(s) && s'.calls == s.calls
    ensures Single(s', maxRetries)
  {
    forall i: TxId ensures Deliveries(s'.handlers, i) == Deliveries(s.handlers, i) { Updated(s.handlers, j, h, i); }
    forall k | 0 <= k < |s'.handlers| ensures HandOk(s'.handlers, k) { assert HandOk(s.handlers, k); }
    forall i | InHand(s'.handlers, i) ensures InHand(s.handlers, i) {
      var k :| 0 <= k < |s'.handlers| && s'.handlers[k].msg.tx == i && s'.handlers[k].pc != Finished;
      assert s.handlers[k].msg.tx == i && s.handlers[k].pc != Finished;
    }
    forall m | m in Pending(s') ensures CopyOk(s', m, maxRetries) { assert CopyOk(s, m, maxRetries); }
    forall i | 0 <= i < |s.calls| ensures NewOk(s', s.calls[i]) { assert NewOk(s, s.calls[i]); }
  }

  lemma FinishedStays(s: State, j: nat, o: Outcome, maxRetries: nat)
    requires j < |s.handlers| && s.handlers[j].pc == Finished
    ensures Apply(s, StepHandler(j, o), maxRetries) == s
  {
    assert s.handlers[j := s.handlers[j]] == s.handlers;
  }

  lemma NackSingle(s: State, j: nat, maxRetries: nat)
    requires Single(s, maxRetries) && j < |s.handlers| && s.handlers[j].pc == Nack
    ensures Single(NackStep(s, j, maxRetries), maxRetries)
  {
    var h := s.handlers[j];
    var again := h.msg.(retries := h.msg.retries + 1);
    var s' := NackStep(s, j, maxRetries);
    var mid := s.(handlers := s'.handlers);
    HandSingle(s, mid, j, h.(pc := Finished), maxRetries);
    assert HandOk(s.handlers, j) && InHand(s.handlers, h.msg.tx);
    Updated(s.handlers, j, h.(pc := Finished), h.msg.tx);
    forall m | m in Pending(s) ensures m.tx != h.msg.tx { assert CopyOk(s, m, maxRetries); }
    NackPending(s, j, maxRetries);
    if again.retries <= maxRetries { Requeued(mid, s', again, maxRetries); } else { QuietSingle(mid, s', maxRetries); }
  }

  /** What the consumer does with a failed attempt, in the model of the queue alone, is this step: the same copy
      is dead-lettered, and the same one is scheduled, if any. */
  lemma NackIsRetry(s: State, j: nat, maxRetries: nat, r: RetryProtocol.State)
    requires j < |s.handlers|
    ensures var m := s.handlers[j].msg; var again := m.(retries := m.retries + 1);
      var s' := NackStep(s, j, maxRetries);
      var r' := RetryProtocol.HandleFailure(r, RetryProtocol.Msg(m.tx, m.retries), maxRetries);
      && s'.dlq == s.dlq + multiset{m} && r'.dlq == r.dlq + multiset{m.tx}
      && if s'.delayed == s.delayed then r'.delayed == r.delayed
         else s'.delayed == s.delayed + multiset{again} && r'.delayed == r.delayed + multiset{RetryProtocol.Msg(again.tx, again.retries)}
  {
    var m := s.handlers[j].msg;
    var again := m.(retries := m.retries + 1);
    assert (s.delayed + multiset{again})[again] == s.delayed[again] + 1;
  }

  lemma NackPending(s: State, j: nat, maxRetries: nat)
    requires j < |s.handlers|
    ensures var m := s.handlers[j].msg; var again := m.(retries := m.retries + 1);
      Pending(NackStep(s, j, maxRetries)) == if again.retries <= maxRetries then Pending(s) + multiset{again} else Pending(s)
  {}

  /** The only copy of a message whose last delivery is over joins those that wait. */
  lemma Requeued(s: State, s': State, m0: Message, maxRetries: nat)
    requires Single(s, maxRetries) && s'.handlers == s.handlers && s'.calls == s.calls && Pending(s') == Pending(s) + multiset{m0}
    requires Deliveries(s.handlers, m0.tx) == m0.retries <= maxRetries && m0.retries > 0
    requires (forall m :: m in Pending(s) ==> m.tx != m0.tx) && !InHand(s.handlers, m0.tx)
    ensures Single(s', maxRetries)
  {
    forall m | m in Pending(s') ensures CopyOk(s', m, maxRetries) && (m.tx == m0.tx ==> m == m0) {
      if m != m0 { assert CopyOk(s, m, maxRetries); }
    }
    forall i | 0 <= i < |s.calls| ensures NewOk(s', s.calls[i]) { assert NewOk(s, s.calls[i]); }
  }

  lemma StepHandlerSingle(s: State, j: nat, o: Outcome, maxRetries: nat)
    requires Single(s, maxRetries) && j < |s.handlers|
    ensures Single(Apply(s, StepHandler(j, o), maxRetries), maxRetries)
  {
    var h := s.handlers[j];
    if h.pc == Nack {
      NackSingle(s, j, maxRetries);
    } else if h.pc == Finished {
      FinishedStays(s, j, o, maxRetries);
    } else {
      var s' := Apply(s, StepHandler(j, o), maxRetries);
      OnlyOneMoves(s, j, o, maxRetries);
      HandSingle(s, s', j, s'.handlers[j], maxRetries);
    }
  }

  lemma OnlyOneMoves(s: State, j: nat, o: Outcome, maxRetries: nat)
    requires j < |s.handlers| && s.handlers[j].pc != Nack
    ensures var s' := Apply(s, StepHandler(j, o), maxRetries);
      && |s'.handlers| == |s.handlers| && s'.handlers == s.handlers[j := s'.handlers[j]] && s'.handlers[j].msg == s.handlers[j].msg
      && s'.calls == s.calls && s'.queue == s.queue && s'.delayed == s.delayed
  {
    KeepsMessage(s.db, s.handlers[j], o);
  }

  lemma KeepsMessage(db: Db, h: Handler, o: Outcome)
    ensures HandlerStep(db, h, o).1.msg == h.msg
  {}

  lemma RepublishSingle(s: State, m: Message, maxRetries: nat)
    requires Single(s, maxRetries)
    ensures Single(Apply(s, Republish(m), maxRetries), maxRetries)
  {
    var s' := Apply(s, Republish(m), maxRetries);
    assert Pending(s') == Pending(s);
    QuietSingle(s, s', maxRetries);
  }

  lemma StepCallSingle(s: State, i: nat, o: Outcome, verdict: bool, maxRetries: nat)
    requires Inv(s) && Single(s, maxRetries)
    ensures Single(Apply(s, StepCall(i, o, verdict), maxRetries), maxRetries)
  {
    if i < |s.calls| {
      if s.calls[i].pc == Publish { PublishSingle(s, i, o, maxRetries); } else { CallSingle(s, i, o, verdict, maxRetries); }
    }
  }

  lemma DeliverNext(s: State, m: Message, maxRetries: nat)
    requires Inv(s) && Single(s, maxRetries)
    ensures Single(Apply(s, Deliver(m), maxRetries), maxRetries)
  {
    if m in s.queue { DeliverSingle(s, m, maxRetries); }
  }

  lemma StepSingle(s: State, a: Action, maxRetries: nat)
    requires Inv(s) && Single(s, maxRetries) && !a.Duplicate?
    ensures Single(Apply(s, a, maxRetries), maxRetries)
  {
    match a
    case StepCall(i, o, verdict) => StepCallSingle(s, i, o, verdict, maxRetries);
    case StepHandler(j, o) => if j < |s.handlers| { StepHandlerSingle(s, j, o, maxRetries); }
    case Deliver(m) => DeliverNext(s, m, maxRetries);
    case Republish(m) => RepublishSingle(s, m, maxRetries);
    case _ => ElseSingle(s, a, maxRetries);
  }

  lemma ElseSingle(s: State, a: Action, maxRetries: nat)
    requires Single(s, maxRetries) && !a.StepCall? && !a.StepHandler? && !a.Deliver? && !a.Duplicate? && !a.Republish?
    ensures Single(Apply(s, a, maxRetries), maxRetries)
  {
    var s' := Apply(s, a, maxRetries);
    assert s'.queue == s.queue && s'.delayed == s.delayed && s'.handlers == s.handlers;
    QuietSingle(s, s', maxRetries);
  }

  lemma {:induction false} RunSingle(s: State, actions: seq<Action>, maxRetries: nat)
    requires Initial(s) && forall k :: 0 <= k < |actions| ==> !actions[k].Duplicate?
    ensures Single(Run(s, actions, maxRetries), maxRetries)
    decreases |actions|
  {
    if actions != [] {
      var n := |actions| - 1;
      RunSingle(s, actions[..n], maxRetries);
      RunOk(s, actions[..n], maxRetries);
      StepSingle(Run(s, actions[..n], maxRetries), actions[n], maxRetries);
    }
  }

  /** Rollbacks and retries together, over every interleaving with anything else: unless the broker
      delivers a message twice, a transaction is delivered, and its user credited back for it, at most
      max + 1 times. */
  lemma {:induction false} CreditPerMessage(s: State, actions: seq<Action>, maxRetries: nat, i: TxId)
    requires Initial(s) && forall k :: 0 <= k < |actions| ==> !actions[k].Duplicate?
    ensures var t := Run(s, actions, maxRetries);
      && Deliveries(t.handlers, i) <= maxRetries + 1
      && (i < |t.db.txs| ==> t.db.txs[i].restores <= maxRetries + 1)
  {
    RunSingle(s, actions, maxRetries);
    CreditPerDelivery(s, actions, maxRetries, i);
  }
}
