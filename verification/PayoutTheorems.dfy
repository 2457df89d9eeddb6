/** The results about the payout pipeline, for every interleaving of every number of gateway calls,
    worker handlers, redeliveries, expiries and administrator actions. */
module PayoutTheorems {
  import opened Base
  import opened PayoutProtocol
  import opened PayoutLedger

  // ----- Any failures whatsoever ------------------------------------------------------------------

  /** A Redis balance is what was deposited, plus what overwriting syncs have changed, less the net
      deductions. */
  lemma {:induction false} LedgerIsExact(s: State, actions: seq<Action>, maxRetries: nat, u: UserId)
    requires Initial(s)
    ensures var db := Run(s, actions, maxRetries).db; Balance(db, u) == Deposits(db, u) + Drift(db, u) - NetOut(db.txs, u)
  {
    RunOk(s, actions, maxRetries);
    assert Balanced(Run(s, actions, maxRetries).db, u);
  }

  /** No balance key is ever negative; and more than the deposits has been paid out if and only if
      overwriting syncs have added more than is left. */
  lemma {:induction false} NoOverdraft(s: State, actions: seq<Action>, maxRetries: nat, u: UserId)
    requires Initial(s)
    ensures var db := Run(s, actions, maxRetries).db;
      && (u in db.balances ==> db.balances[u] >= 0)
      && (NetOut(db.txs, u) > Deposits(db, u) <==> Drift(db, u) > Balance(db, u))
  {
    RunOk(s, actions, maxRetries);
    assert Balanced(Run(s, actions, maxRetries).db, u);
  }

  lemma {:induction false} DeductedAtMostOnce(s: State, actions: seq<Action>, maxRetries: nat, i: nat)
    requires Initial(s)
    ensures var txs := Run(s, actions, maxRetries).db.txs;
      i < |txs| ==> txs[i].deducts <= 1 && (txs[i].status == Completed ==> txs[i].deducts == 1)
  {
    RunOk(s, actions, maxRetries);
  }

  /** Nothing ever returns a transaction to `Initiated` or changes what it is for. */
  lemma ApplyEvolves(s: State, a: Action, maxRetries: nat)
    requires Inv(s)
    ensures Evolves(s.db.txs, Apply(s, a, maxRetries).db.txs)
  {
    if a.StepHandler? {
      if a.i < |s.handlers| { HandlerStepEvolves(s.db, s.handlers[a.i], a.o); }
    } else {
      ElsewhereGrows(s, a, maxRetries);
    }
  }

  lemma {:induction false} TransactionsOnlyAdvance(s: State, actions: seq<Action>, k: nat, maxRetries: nat)
    requires Initial(s) && k <= |actions|
    ensures Evolves(Run(s, actions[..k], maxRetries).db.txs, Run(s, actions, maxRetries).db.txs)
    decreases |actions|
  {
    if k == |actions| {
      assert actions[..k] == actions;
    } else {
      var n := |actions| - 1;
      TransactionsOnlyAdvance(s, actions[..n], k, maxRetries);
      assert actions[..n][..k] == actions[..k];
      LastEvolves(s, actions, maxRetries);
      EvolvesTransitive(Run(s, actions[..k], maxRetries).db.txs, Run(s, actions[..n], maxRetries).db.txs,
                        Run(s, actions, maxRetries).db.txs);
    }
  }

  lemma {:induction false} LastEvolves(s: State, actions: seq<Action>, maxRetries: nat)
    requires Initial(s) && actions != []
    ensures Evolves(Run(s, actions[..|actions| - 1], maxRetries).db.txs, Run(s, actions, maxRetries).db.txs)
  {
    RunOk(s, actions[..|actions| - 1], maxRetries);
    ApplyEvolves(Run(s, actions[..|actions| - 1], maxRetries), actions[|actions| - 1], maxRetries);
  }

  lemma EvolvesTransitive(a: seq<Tx>, b: seq<Tx>, c: seq<Tx>)
    requires Evolves(a, b) && Evolves(b, c)
    ensures Evolves(a, c)
  {}

  /** Every message anywhere names a stored transaction with the same user, amount and currency, so
      a handler that looks its transaction up always finds one. */
  lemma {:induction false} MessagesNameStoredTransactions(s: State, actions: seq<Action>, maxRetries: nat)
    requires Initial(s)
    ensures var s' := Run(s, actions, maxRetries);
      && (forall m :: m in s'.queue || m in s'.delayed || m in s'.dlq ==> Matches(s'.db.txs, m))
      && (forall i :: 0 <= i < |s'.handlers| ==>
            Matches(s'.db.txs, s'.handlers[i].msg)
            && (s'.handlers[i].pc == Lookup ==>
                  HandlerStep(s'.db, s'.handlers[i], Replied).1.pc == Ack))
  {
    RunOk(s, actions, maxRetries);
    var s' := Run(s, actions, maxRetries);
    forall i | 0 <= i < |s'.handlers| ensures Matches(s'.db.txs, s'.handlers[i].msg) {
      assert HandlerOk(s'.db.txs, s'.handlers[i]);
    }
  }

  // ----- A key that stays in Redis ------------------------------------------------------------------

  /** The key of `u` is present and no call of `u` is about to overwrite it. */
  ghost predicate Pinned(s: State, u: UserId, start: int) {
    && u in s.db.balances
    && Deposits(s.db, u) == start && Drift(s.db, u) == 0
    && forall i :: 0 <= i < |s.calls| && s.calls[i].user == u ==> s.calls[i].pc != SyncCache
  }

  predicate Touches(a: Action, u: UserId) {
    (a.ExpireBalance? && a.user == u) || (a.Adjust? && a.user == u)
  }

  lemma CallPinned(db: Db, c: Call, o: Outcome, verdict: bool, u: UserId)
    requires u in db.balances && (c.user == u ==> c.pc != SyncCache)
    ensures var (db', c') := CallStep(db, c, o, verdict);
      u in db'.balances && Deposits(db', u) == Deposits(db, u) && Drift(db', u) == Drift(db, u) && c'.user == c.user && (c.user == u ==> c'.pc != SyncCache)
  {}

  lemma HandlerPinned(db: Db, h: Handler, o: Outcome, u: UserId)
    requires u in db.balances
    ensures var db' := HandlerStep(db, h, o).0; u in db'.balances && Deposits(db', u) == Deposits(db, u) && Drift(db', u) == Drift(db, u)
  {
    HandlerKeys(db, h, o);
  }

  lemma ApplyPinned(s: State, a: Action, maxRetries: nat, u: UserId, start: int)
    requires Pinned(s, u, start) && !Touches(a, u)
    ensures Pinned(Apply(s, a, maxRetries), u, start)
  {
    if a.StepCall? {
      if a.i < |s.calls| { CallPinned(s.db, s.calls[a.i], a.o, a.verdict, u); }
    } else if a.StepHandler? {
      if a.i < |s.handlers| { HandlerPinned(s.db, s.handlers[a.i], a.o, u); }
    } else {
      OtherPinned(s, a, maxRetries, u, start);
    }
  }

  lemma OtherPinned(s: State, a: Action, maxRetries: nat, u: UserId, start: int)
    requires Pinned(s, u, start) && !Touches(a, u) && !a.StepCall? && !a.StepHandler?
    ensures Pinned(Apply(s, a, maxRetries), u, start)
  {}

  lemma {:induction false} RunPinned(s: State, actions: seq<Action>, maxRetries: nat, u: UserId)
    requires Initial(s) && u in s.db.balances
    requires forall k :: 0 <= k < |actions| ==> !Touches(actions[k], u)
    ensures Pinned(Run(s, actions, maxRetries), u, s.db.balances[u])
    decreases |actions|
  {
    if actions != [] {
      var n := |actions| - 1;
      RunPinned(s, actions[..n], maxRetries, u);
      ApplyPinned(Run(s, actions[..n], maxRetries), actions[n], maxRetries, u, s.db.balances[u]);
    }
  }

  // ----- Clean runs -----------------------------------------------------------------------------------

  function CompletedTotal(txs: seq<Tx>, u: UserId): int {
    if txs == [] then 0
    else var t := txs[|txs| - 1];
      CompletedTotal(txs[..|txs| - 1], u) + if t.user == u && t.status == Completed then t.amount else 0
  }

  /** Unexpected errors strike a handler only once its deduction has been made; the rollback finds
      its key and runs, and `markAsFailed` takes effect.  Gateway calls may fail in any way. */
  predicate CleanStep(s: State, a: Action) {
    a.StepHandler? && a.i < |s.handlers| ==>
      var h := s.handlers[a.i];
      match h.pc
      case Claim => a.o == Replied
      case Lookup => a.o == Replied
      case ReadBalance => a.o == Replied
      case Deduct => a.o == Replied || (a.o == ReplyLost && TryDeduct(s.db, h.msg.user, h.msg.amount).Some?)
      case Rollback => a.o.Ran() && h.msg.user in s.db.balances
      case MarkFailed => a.o.Ran()
      case _ => true
  }

  predicate CleanRun(s: State, actions: seq<Action>, maxRetries: nat)
    decreases |actions|
  {
    actions == [] ||
    var n := |actions| - 1;
    CleanRun(s, actions[..n], maxRetries) && CleanStep(Run(s, actions[..n], maxRetries), actions[n])
  }

  /** The transaction is settled: its net effect on Redis is its amount exactly when it completed. */
  predicate Settled(t: Tx) {
    match t.status
    case Initiated => t.deducts == t.restores == 0
    case Completed => t.deducts == 1 && t.restores == 0
    case Failed => t.deducts == t.restores
    case Processing => false
  }

  predicate HandlerClean(txs: seq<Tx>, h: Handler) {
    && h.msg.tx < |txs|
    && var t := txs[h.msg.tx];
       match h.pc
       case Claim => true
       case Lookup => true
       case ReadBalance => t.status == Processing && t.deducts == t.restores == 0
       case Deduct => t.status == Processing && t.deducts == t.restores == 0
       case Complete(b) => t.status == Processing && t.deducts == 1 && t.restores == 0
       case SyncMongo(b) => Settled(t) && t.status == Completed
       case Unlock => Settled(t) && t.status == Completed
       case Rollback => h.claimed && t.deducts == 1 && t.restores == 0
       case MarkFailed => h.claimed && t.deducts == t.restores
       case _ => h.claimed ==> Settled(t)
  }

  ghost predicate CleanInv(s: State) {
    && Inv(s)
    && (forall i :: 0 <= i < |s.handlers| ==> HandlerClean(s.db.txs, s.handlers[i]))
    && (forall i :: 0 <= i < |s.db.txs| ==> Settled(s.db.txs[i]) || Held(s, i))
  }

  ghost predicate Held(s: State, i: TxId) {
    exists j :: 0 <= j < |s.handlers| && s.handlers[j].claimed && s.handlers[j].msg.tx == i
  }

  lemma CleanFirst(db: Db, h: Handler, o: Outcome, s: State, i: nat)
    requires s.db == db && i < |s.handlers| && s.handlers[i] == h && CleanStep(s, StepHandler(i, o))
    requires HandlerOk(db.txs, h) && TxOk(db.txs[h.msg.tx]) && HandlerClean(db.txs, h)
    requires !h.claimed ==> Settled(db.txs[h.msg.tx]) || db.txs[h.msg.tx].status != Initiated
    requires h.pc == Claim || h.pc == Lookup || h.pc == ReadBalance
    ensures var (db', h') := HandlerStep(db, h, o);
      HandlerClean(db'.txs, h') && (!h'.claimed ==> db' == db)
  {}

  lemma CleanMoney(db: Db, h: Handler, o: Outcome, s: State, i: nat)
    requires s.db == db && i < |s.handlers| && s.handlers[i] == h && CleanStep(s, StepHandler(i, o))
    requires HandlerOk(db.txs, h) && TxOk(db.txs[h.msg.tx]) && HandlerClean(db.txs, h)
    requires !h.claimed ==> Settled(db.txs[h.msg.tx]) || db.txs[h.msg.tx].status != Initiated
    requires h.pc == Deduct || h.pc == Rollback
    ensures var (db', h') := HandlerStep(db, h, o);
      HandlerClean(db'.txs, h') && (!h'.claimed ==> db' == db)
  {}

  lemma CleanLater(db: Db, h: Handler, o: Outcome, s: State, i: nat)
    requires s.db == db && i < |s.handlers| && s.handlers[i] == h && CleanStep(s, StepHandler(i, o))
    requires HandlerOk(db.txs, h) && TxOk(db.txs[h.msg.tx]) && HandlerClean(db.txs, h)
    requires !h.claimed ==> Settled(db.txs[h.msg.tx]) || db.txs[h.msg.tx].status != Initiated
    requires h.pc != Claim && h.pc != Lookup && h.pc != ReadBalance && h.pc != Deduct && h.pc != Rollback
    ensures var (db', h') := HandlerStep(db, h, o);
      HandlerClean(db'.txs, h') && (!h'.claimed ==> db' == db)
  {}

  lemma CleanHandlerStep(db: Db, h: Handler, o: Outcome, s: State, i: nat)
    requires s.db == db && i < |s.handlers| && s.handlers[i] == h && CleanStep(s, StepHandler(i, o))
    requires HandlerOk(db.txs, h) && TxOk(db.txs[h.msg.tx]) && HandlerClean(db.txs, h)
    requires !h.claimed ==> Settled(db.txs[h.msg.tx]) || db.txs[h.msg.tx].status != Initiated
    ensures var (db', h') := HandlerStep(db, h, o);
      HandlerClean(db'.txs, h') && (!h'.claimed ==> db' == db)
  {
    if h.pc == Claim || h.pc == Lookup || h.pc == ReadBalance {
      CleanFirst(db, h, o, s, i);
    } else if h.pc == Deduct || h.pc == Rollback {
      CleanMoney(db, h, o, s, i);
    } else {
      CleanLater(db, h, o, s, i);
    }
  }

  lemma CleanHandlerKeepsOthers(s: State, i: nat, o: Outcome, maxRetries: nat)
    requires CleanInv(s) && CleanStep(s, StepHandler(i, o)) && i < |s.handlers|
    requires s.handlers[i].pc != Ack && s.handlers[i].pc != Nack
    ensures CleanInv(Apply(s, StepHandler(i, o), maxRetries))
  {
    var h := s.handlers[i];
    var s' := Apply(s, StepHandler(i, o), maxRetries);
    StepHandlerOk(s, i, o, maxRetries);
    assert HandlerOk(s.db.txs, h) && TxOk(s.db.txs[h.msg.tx]) && HandlerClean(s.db.txs, h);
    CleanHandlerStep(s.db, h, o, s, i);
    HandlerStepFrame(s.db, h, o);
    var h' := s'.handlers[i];
    forall j | 0 <= j < |s'.handlers| && j != i ensures HandlerClean(s'.db.txs, s'.handlers[j]) {
      assert HandlerClean(s.db.txs, s.handlers[j]) && HandlerOk(s.db.txs, s.handlers[j]);
      if s.handlers[j].msg.tx == h.msg.tx && h'.claimed {
        assert !s'.handlers[j].claimed;
      }
    }
    forall k | 0 <= k < |s'.db.txs| ensures Settled(s'.db.txs[k]) || Held(s', k) {
      if k == h.msg.tx && h'.claimed {
        assert s'.handlers[i].claimed && s'.handlers[i].msg.tx == k;
      } else {
        assert s'.db.txs[k] == s.db.txs[k];
        HoldersStay(s, s', k);
      }
    }
  }

  lemma HoldersStay(s: State, s': State, k: TxId)
    requires |s.handlers| <= |s'.handlers|
    requires forall j :: 0 <= j < |s.handlers| ==>
      s'.handlers[j].msg == s.handlers[j].msg && (s.handlers[j].claimed ==> s'.handlers[j].claimed)
    ensures Held(s, k) ==> Held(s', k)
  {
    if Held(s, k) {
      var j :| 0 <= j < |s.handlers| && s.handlers[j].claimed && s.handlers[j].msg.tx == k;
      assert s'.handlers[j].claimed && s'.handlers[j].msg.tx == k;
    }
  }

  /** Steps of everything but a handler only append settled transactions and fresh handlers. */
  lemma CleanElsewhere(s: State, a: Action, maxRetries: nat)
    requires CleanInv(s) && !a.StepHandler?
    ensures CleanInv(Apply(s, a, maxRetries))
  {
    var s' := Apply(s, a, maxRetries);
    ApplyOk(s, a, maxRetries);
    assert s.db.txs <= s'.db.txs && s.handlers <= s'.handlers by { ElsewhereGrows(s, a, maxRetries); }
    ElsewhereGrows(s, a, maxRetries);
    forall j | 0 <= j < |s'.handlers| ensures HandlerClean(s'.db.txs, s'.handlers[j]) {
      assert HandlerOk(s'.db.txs, s'.handlers[j]);
      if j < |s.handlers| {
        assert HandlerClean(s.db.txs, s.handlers[j]);
      }
    }
    forall k | 0 <= k < |s'.db.txs| ensures Settled(s'.db.txs[k]) || Held(s', k) {
      if k < |s.db.txs| {
        HoldersStay(s, s', k);
      }
    }
  }

  lemma ElsewhereGrows(s: State, a: Action, maxRetries: nat)
    requires !a.StepHandler?
    ensures var s' := Apply(s, a, maxRetries);
      && s.db.txs <= s'.db.txs && s.handlers <= s'.handlers
      && (forall k :: |s.db.txs| <= k < |s'.db.txs| ==> Settled(s'.db.txs[k]))
      && (forall j :: |s.handlers| <= j < |s'.handlers| ==> s'.handlers[j].pc == Claim && !s'.handlers[j].claimed)
  {
    if a.StepCall? {
      CallGrows(s, a, maxRetries);
    } else {
      var s' := Apply(s, a, maxRetries);
      assert s'.db.txs == s.db.txs;
    }
  }

  lemma CallGrows(s: State, a: Action, maxRetries: nat)
    requires a.StepCall?
    ensures var s' := Apply(s, a, maxRetries);
      && s.db.txs <= s'.db.txs && s'.handlers == s.handlers
      && (forall k :: |s.db.txs| <= k < |s'.db.txs| ==> Settled(s'.db.txs[k]))
  {
    if a.i < |s.calls| && s.calls[a.i].pc != Publish { CallAppends(s.db, s.calls[a.i], a.o, a.verdict); }
  }

  lemma CallAppends(db: Db, c: Call, o: Outcome, verdict: bool)
    ensures var txs := CallStep(db, c, o, verdict).0.txs; txs == db.txs || txs == db.txs + [Tx(c.user, c.amount, c.currency, Initiated, 0, 0)]
  {}

  lemma CleanEnd(s: State, s': State, i: nat)
    requires CleanInv(s) && Inv(s') && s'.db == s.db && i < |s.handlers|
    requires s.handlers[i].pc == Ack || s.handlers[i].pc == Nack
    requires s'.handlers == s.handlers[i := s.handlers[i].(pc := Finished)]
    ensures CleanInv(s')
  {
    assert HandlerClean(s.db.txs, s.handlers[i]);
    forall k | 0 <= k < |s'.db.txs| ensures Settled(s'.db.txs[k]) || Held(s', k) { HoldersStay(s, s', k); }
  }

  lemma CleanApply(s: State, a: Action, maxRetries: nat)
    requires CleanInv(s) && CleanStep(s, a)
    ensures CleanInv(Apply(s, a, maxRetries))
  {
    if !a.StepHandler? {
      CleanElsewhere(s, a, maxRetries);
    } else if a.i < |s.handlers| {
      if s.handlers[a.i].pc == Ack || s.handlers[a.i].pc == Nack {
        StepHandlerOk(s, a.i, a.o, maxRetries);
        CleanEnd(s, Apply(s, a, maxRetries), a.i);
      } else {
        CleanHandlerKeepsOthers(s, a.i, a.o, maxRetries);
      }
    }
  }

  lemma CleanStart(s: State)
    requires Initial(s)
    ensures CleanInv(s)
  {
    forall u ensures Balanced(s.db, u) {}
  }

  lemma {:induction false} CleanRunOk(s: State, actions: seq<Action>, maxRetries: nat)
    requires Initial(s) && CleanRun(s, actions, maxRetries)
    ensures CleanInv(Run(s, actions, maxRetries))
    decreases |actions|
  {
    if actions == [] {
      CleanStart(s);
    } else {
      var n := |actions| - 1;
      CleanRunOk(s, actions[..n], maxRetries);
      CleanApply(Run(s, actions[..n], maxRetries), actions[n], maxRetries);
    }
  }

  lemma {:induction false} SettledTotal(txs: seq<Tx>, u: UserId)
    requires forall i :: 0 <= i < |txs| ==> Settled(txs[i])
    ensures NetOut(txs, u) == CompletedTotal(txs, u)
  {
    if txs != [] {
      SettledTotal(txs[..|txs| - 1], u);
    }
  }

  ghost predicate Quiescent(s: State) {
    forall i :: 0 <= i < |s.handlers| ==> s.handlers[i].pc == Finished
  }

  /** In a clean run, once no handler is active, the money that left Redis is exactly the total of
      the completed transactions: deposits and drift, less the balance. */
  lemma {:induction false} QuiescentLedger(s: State, actions: seq<Action>, maxRetries: nat, u: UserId)
    requires Initial(s) && CleanRun(s, actions, maxRetries)
    requires Quiescent(Run(s, actions, maxRetries))
    ensures var db := Run(s, actions, maxRetries).db;
      Deposits(db, u) + Drift(db, u) - Balance(db, u) == CompletedTotal(db.txs, u)
  {
    var s' := Run(s, actions, maxRetries);
    CleanRunOk(s, actions, maxRetries);
    forall k | 0 <= k < |s'.db.txs| ensures Settled(s'.db.txs[k]) {
      if Held(s', k) {
        var j :| 0 <= j < |s'.handlers| && s'.handlers[j].claimed && s'.handlers[j].msg.tx == k;
        assert HandlerClean(s'.db.txs, s'.handlers[j]);
      }
    }
    SettledTotal(s'.db.txs, u);
    assert Balanced(s'.db, u);
  }
}
