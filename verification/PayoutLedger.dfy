/** What every reachable state of the payout pipeline keeps: the exact Redis ledger, no overdraft,
    at most one deduction per transaction, and agreement of messages with stored transactions. */
module PayoutLedger {
  import opened Base
  import opened PayoutProtocol

  // ----- The ledger -----------------------------------------------------------------------------

  /** What one transaction has taken out of `u`'s Redis balance, net of what was given back. */
  function Net(t: Tx, u: UserId): int {
    if t.user == u then t.amount * (t.deducts - t.restores) else 0
  }

  function NetOut(txs: seq<Tx>, u: UserId): int {
    if txs == [] then 0 else NetOut(txs[..|txs| - 1], u) + Net(txs[|txs| - 1], u)
  }

  /** Redis holds exactly what was put in, less the deductions, plus the restores. */
  ghost predicate Balanced(db: Db, u: UserId) {
    Balance(db, u) == Deposits(db, u) + Drift(db, u) - NetOut(db.txs, u)
  }

  lemma {:induction false} NetOutUpdate(txs: seq<Tx>, i: nat, t: Tx, u: UserId)
    requires i < |txs|
    ensures NetOut(txs[i := t], u) == NetOut(txs, u) - Net(txs[i], u) + Net(t, u)
  {
    var n := |txs| - 1;
    if i == n {
      assert txs[i := t][..n] == txs[..n];
    } else {
      NetOutUpdate(txs[..n], i, t, u);
      assert txs[i := t][..n] == txs[..n][i := t];
    }
  }

  lemma NetOutAppend(txs: seq<Tx>, t: Tx, u: UserId)
    ensures NetOut(txs + [t], u) == NetOut(txs, u) + Net(t, u)
  {
    assert (txs + [t])[..|txs|] == txs;
  }

  lemma NetDeduct(t: Tx, u: UserId)
    ensures Net(t.(deducts := t.deducts + 1), u) == Net(t, u) + if t.user == u then t.amount else 0
  {}

  lemma NetRestore(t: Tx, u: UserId)
    ensures Net(t.(restores := t.restores + 1), u) == Net(t, u) - if t.user == u then t.amount else 0
  {}

  // ----- The invariant --------------------------------------------------------------------------

  /** The message names a stored transaction with the same user, amount and currency. */
  predicate Matches(txs: seq<Tx>, m: Message) {
    && m.tx < |txs|
    && txs[m.tx].user == m.user && txs[m.tx].amount == m.amount && txs[m.tx].currency == m.currency
  }

  predicate TxOk(t: Tx) {
    && t.amount > 0
    && t.deducts <= 1
    && (t.status == Initiated ==> t.deducts == 0)
    && (t.status == Completed ==> t.deducts == 1)
  }

  /** What a handler may rely on at each program point. */
  predicate HandlerOk(txs: seq<Tx>, h: Handler) {
    && Matches(txs, h.msg)
    && (h.claimed ==> txs[h.msg.tx].status != Initiated)
    && match h.pc
       case Claim => !h.claimed
       case Lookup => !h.claimed
       case ReadBalance => h.claimed && txs[h.msg.tx].deducts == 0
       case Deduct => h.claimed && txs[h.msg.tx].deducts == 0
       case Complete(b) => h.claimed && txs[h.msg.tx].deducts == 1 && b >= 0
       case SyncMongo(b) => h.claimed && txs[h.msg.tx].deducts == 1 && b >= 0
       case Unlock => h.claimed
       case _ => true
  }

  predicate CallOk(txs: seq<Tx>, c: Call) {
    && c.amount > 0
    && c.seen.balance >= 0
    && (c.pc == Publish ==> Matches(txs, PublishedMessage(c)))
  }

  ghost predicate DbOk(db: Db) {
    && (forall i :: 0 <= i < |db.txs| ==> TxOk(db.txs[i]))
    && (forall u :: u in db.balances ==> db.balances[u] >= 0)
    && (forall u :: u in db.users ==> db.users[u].balance >= 0)
    && (forall u :: Balanced(db, u))
  }

  ghost predicate HandlersOk(txs: seq<Tx>, hs: seq<Handler>) {
    && (forall i :: 0 <= i < |hs| ==> HandlerOk(txs, hs[i]))
    && (forall i, j :: 0 <= i < j < |hs| && hs[i].claimed && hs[j].claimed ==> hs[i].msg.tx != hs[j].msg.tx)
  }

  ghost predicate QueuesOk(s: State) {
    && (forall m :: m in s.queue ==> Matches(s.db.txs, m))
    && (forall m :: m in s.delayed ==> Matches(s.db.txs, m))
    && (forall m :: m in s.dlq ==> Matches(s.db.txs, m))
  }

  ghost predicate Inv(s: State) {
    && DbOk(s.db)
    && HandlersOk(s.db.txs, s.handlers)
    && (forall i :: 0 <= i < |s.calls| ==> CallOk(s.db.txs, s.calls[i]))
    && QueuesOk(s)
  }

  /** How the transactions may change while other activations look on: new ones appear at the end,
      identities are fixed, and nothing returns to `Initiated`. */
  ghost predicate Evolves(txs: seq<Tx>, txs': seq<Tx>) {
    && |txs| <= |txs'|
    && forall i :: 0 <= i < |txs| ==>
      && txs'[i].user == txs[i].user && txs'[i].amount == txs[i].amount && txs'[i].currency == txs[i].currency
      && (txs[i].status != Initiated ==> txs'[i].status != Initiated)
  }

  // ----- One worker step --------------------------------------------------------------------------

  lemma BalancedAfterTx(db: Db, db': Db, i: nat, t: Tx)
    requires forall u :: Balanced(db, u)
    requires i < |db.txs| && db'.txs == db.txs[i := t] && db'.deposits == db.deposits && db'.drift == db.drift
    requires forall u :: Balance(db', u) == Balance(db, u) - Net(t, u) + Net(db.txs[i], u)
    ensures forall u :: Balanced(db', u)
  {
    forall u ensures Balanced(db', u) {
      assert Balanced(db, u);
      NetOutUpdate(db.txs, i, t, u);
    }
  }

  lemma StatusStep(db: Db, i: nat, st: Status)
    requires DbOk(db) && i < |db.txs| && TxOk(db.txs[i].(status := st))
    ensures DbOk(SetStatus(db, i, st))
  {
    BalancedAfterTx(db, SetStatus(db, i, st), i, db.txs[i].(status := st));
  }

  lemma DeductStep(db: Db, m: Message, b: int)
    requires DbOk(db) && Matches(db.txs, m)
    requires TryDeduct(db, m.user, m.amount) == Some(b)
    requires db.txs[m.tx].deducts == 0 && db.txs[m.tx].status != Initiated
    ensures DbOk(DeductBalance(db, m, b))
  {
    var t := db.txs[m.tx];
    var t' := t.(deducts := t.deducts + 1);
    forall u ensures Balance(DeductBalance(db, m, b), u) == Balance(db, u) - Net(t', u) + Net(t, u) {
      NetDeduct(t, u);
    }
    BalancedAfterTx(db, DeductBalance(db, m, b), m.tx, t');
  }

  lemma RestoreStep(db: Db, m: Message)
    requires DbOk(db) && Matches(db.txs, m)
    ensures DbOk(RestoreBalance(db, m))
  {
    if m.user in db.balances {
      var t := db.txs[m.tx];
      var t' := t.(restores := t.restores + 1);
      forall u ensures Balance(RestoreBalance(db, m), u) == Balance(db, u) - Net(t', u) + Net(t, u) {
        NetRestore(t, u);
      }
      BalancedAfterTx(db, RestoreBalance(db, m), m.tx, t');
    }
  }

  lemma SameLedger(db: Db, db': Db)
    requires DbOk(db) && db'.txs == db.txs && db'.balances == db.balances && db'.deposits == db.deposits && db'.drift == db.drift
    requires forall u :: u in db'.users ==> db'.users[u].balance >= 0
    ensures DbOk(db')
  {
    forall u ensures Balanced(db', u) { assert Balanced(db, u); }
  }

  /** The worker step keeps the stores right ... */
  lemma HandlerStepDbOk(db: Db, h: Handler, o: Outcome)
    requires DbOk(db) && HandlerOk(db.txs, h)
    ensures DbOk(HandlerStep(db, h, o).0)
  {
    var m := h.msg;
    assert TxOk(db.txs[m.tx]);
    match h.pc
    case Claim =>
      if o.Ran() && db.txs[m.tx].status == Initiated { StatusStep(db, m.tx, Processing); }
    case Deduct =>
      var r := TryDeduct(db, m.user, m.amount);
      if o.Ran() && r.Some? { DeductStep(db, m, r.value); }
    case Complete(b) =>
      if o.Ran() { StatusStep(db, m.tx, Completed); }
    case SyncMongo(b) => SameLedger(db, SetUserBalance(db, m.user, b));
    case Unlock => SameLedger(db, ReleaseLock(db, m.user, m.token));
    case Rollback => RestoreStep(db, m);
    case MarkFailed =>
      if o.Ran() && h.claimed { StatusStep(db, m.tx, Failed); }
    case _ =>
  }

  /** ... establishes what its handler relies on next ... */
  lemma HandlerStepOk(db: Db, h: Handler, o: Outcome)
    requires HandlerOk(db.txs, h) && TxOk(db.txs[h.msg.tx])
    ensures var (db', h') := HandlerStep(db, h, o); HandlerOk(db'.txs, h') && h'.msg == h.msg
  {
    if h.pc == Claim {
      ClaimOk(db, h, o);
    } else if h.pc == Deduct || h.pc == Rollback {
      MoneyOk(db, h, o);
    } else {
      LaterOk(db, h, o);
    }
  }

  lemma ClaimOk(db: Db, h: Handler, o: Outcome)
    requires HandlerOk(db.txs, h) && TxOk(db.txs[h.msg.tx]) && h.pc == Claim
    ensures var (db', h') := HandlerStep(db, h, o); HandlerOk(db'.txs, h') && h'.msg == h.msg
  {}

  lemma MoneyOk(db: Db, h: Handler, o: Outcome)
    requires HandlerOk(db.txs, h) && TxOk(db.txs[h.msg.tx]) && (h.pc == Deduct || h.pc == Rollback)
    ensures var (db', h') := HandlerStep(db, h, o); HandlerOk(db'.txs, h') && h'.msg == h.msg
  {}

  lemma LaterOk(db: Db, h: Handler, o: Outcome)
    requires HandlerOk(db.txs, h) && TxOk(db.txs[h.msg.tx]) && h.pc != Claim && h.pc != Deduct && h.pc != Rollback
    ensures var (db', h') := HandlerStep(db, h, o); HandlerOk(db'.txs, h') && h'.msg == h.msg
  {}

  /** The stores differ in the transaction of the message at most: what it is for stays, nothing reopens it,
      and only a rollback credits it. */
  predicate OnlyOwnTx(db: Db, db': Db, h: Handler) {
    var i := h.msg.tx;
    && |db'.txs| == |db.txs|
    && (i >= |db.txs| ==> db'.txs == db.txs)
    && (i < |db.txs| ==>
          var t, t' := db.txs[i], db'.txs[i];
          && db'.txs == db.txs[i := t']
          && t'.user == t.user && t'.amount == t.amount && t'.currency == t.currency
          && (t.status != Initiated ==> t'.status != Initiated)
          && t.restores <= t'.restores <= t.restores + (if h.pc == Rollback then 1 else 0))
  }

  lemma StatusTx(db: Db, h: Handler, o: Outcome)
    requires h.pc == Claim || h.pc == MarkFailed || h.pc.Complete?
    ensures OnlyOwnTx(db, HandlerStep(db, h, o).0, h)
  {}

  lemma MoneyTx(db: Db, h: Handler, o: Outcome)
    requires h.pc == Deduct || h.pc == Rollback
    ensures OnlyOwnTx(db, HandlerStep(db, h, o).0, h)
  {}

  lemma NoTx(db: Db, h: Handler, o: Outcome)
    requires h.pc != Claim && h.pc != MarkFailed && !h.pc.Complete? && h.pc != Deduct && h.pc != Rollback
    ensures HandlerStep(db, h, o).0.txs == db.txs
  {}

  lemma HandlerTx(db: Db, h: Handler, o: Outcome)
    ensures OnlyOwnTx(db, HandlerStep(db, h, o).0, h)
  {
    if h.pc == Claim || h.pc == MarkFailed || h.pc.Complete? {
      StatusTx(db, h, o);
    } else if h.pc == Deduct || h.pc == Rollback {
      MoneyTx(db, h, o);
    } else {
      NoTx(db, h, o);
    }
  }

  /** ... and never reopens a transaction. */
  lemma HandlerStepEvolves(db: Db, h: Handler, o: Outcome)
    ensures Evolves(db.txs, HandlerStep(db, h, o).0.txs)
  {
    HandlerTx(db, h, o);
  }

  /** What a worker step may do to the transaction it works on: a claim needs `Initiated`, and only
      the holder of the document changes the status or the deductions afterwards. */
  lemma HandlerStepFrame(db: Db, h: Handler, o: Outcome)
    requires HandlerOk(db.txs, h)
    ensures var (db', h') := HandlerStep(db, h, o);
      && |db'.txs| == |db.txs|
      && (forall i :: 0 <= i < |db.txs| && i != h.msg.tx ==> db'.txs[i] == db.txs[i])
      && (h.claimed ==> h'.claimed)
      && (!h.claimed && h'.claimed ==> db.txs[h.msg.tx].status == Initiated)
      && (!h.claimed ==> db'.txs[h.msg.tx].deducts == db.txs[h.msg.tx].deducts)
      && (!h.claimed && db.txs[h.msg.tx].status != Initiated ==>
            db'.txs[h.msg.tx].status == db.txs[h.msg.tx].status)
  {}

  /** The stores differ in the balance of `u` at most, and its key stays as it is: there or not. */
  predicate OnlyOwnKey(db: Db, db': Db, u: UserId) {
    && db'.deposits == db.deposits && db'.drift == db.drift
    && (db'.balances == db.balances || (u in db.balances && u in db'.balances && db'.balances == db.balances[u := db'.balances[u]]))
  }

  lemma DeductKey(db: Db, h: Handler, o: Outcome)
    requires h.pc == Deduct
    ensures OnlyOwnKey(db, HandlerStep(db, h, o).0, h.msg.user)
  {}

  lemma RollbackKey(db: Db, h: Handler, o: Outcome)
    requires h.pc == Rollback
    ensures OnlyOwnKey(db, HandlerStep(db, h, o).0, h.msg.user)
  {}

  lemma NoKey(db: Db, h: Handler, o: Outcome)
    requires h.pc != Deduct && h.pc != Rollback
    ensures OnlyOwnKey(db, HandlerStep(db, h, o).0, h.msg.user)
  {}

  lemma HandlerKeys(db: Db, h: Handler, o: Outcome)
    ensures OnlyOwnKey(db, HandlerStep(db, h, o).0, h.msg.user)
  {
    if h.pc == Deduct { DeductKey(db, h, o); } else if h.pc == Rollback { RollbackKey(db, h, o); } else { NoKey(db, h, o); }
  }

  /** Only the release touches a lock. */
  lemma HandlerLocks(db: Db, h: Handler, o: Outcome)
    ensures var db' := HandlerStep(db, h, o).0;
      db'.locks == if h.pc == Unlock && o.Ran() then ReleaseLock(db, h.msg.user, h.msg.token).locks else db.locks
  {
    if h.pc == Unlock { UnlockLocks(db, h, o); } else { NoLocks(db, h, o); }
  }

  lemma UnlockLocks(db: Db, h: Handler, o: Outcome)
    requires h.pc == Unlock
    ensures HandlerStep(db, h, o).0 == if o.Ran() then ReleaseLock(db, h.msg.user, h.msg.token) else db
  {}

  lemma NoLocks(db: Db, h: Handler, o: Outcome)
    requires h.pc != Unlock
    ensures HandlerStep(db, h, o).0.locks == db.locks
  {}

  lemma OtherHandlers(s: State, i: nat, o: Outcome)
    requires Inv(s) && i < |s.handlers|
    ensures var (db', h') := HandlerStep(s.db, s.handlers[i], o);
      HandlersOk(db'.txs, s.handlers[i := h'])
  {
    var h := s.handlers[i];
    var (db', h') := HandlerStep(s.db, h, o);
    HandlerStepOk(s.db, h, o);
    HandlerStepFrame(s.db, h, o);
    forall j | 0 <= j < |s.handlers| && j != i
      ensures HandlerOk(db'.txs, s.handlers[j])
      ensures h'.claimed && s.handlers[j].claimed ==> s.handlers[j].msg.tx != h.msg.tx
    {
      assert HandlerOk(s.db.txs, s.handlers[j]);
    }
  }

  lemma EvolvesKeepsQueues(s: State, s': State)
    requires Inv(s) && Evolves(s.db.txs, s'.db.txs)
    requires s'.queue == s.queue && s'.delayed == s.delayed && s'.dlq == s.dlq
    ensures QueuesOk(s')
    ensures forall i :: 0 <= i < |s.calls| ==> CallOk(s'.db.txs, s.calls[i])
  {}

  /** A handler that ends keeps its message and its claim. */
  lemma EndHandler(txs: seq<Tx>, hs: seq<Handler>, i: nat)
    requires HandlersOk(txs, hs) && i < |hs|
    ensures HandlersOk(txs, hs[i := hs[i].(pc := Finished)])
  {
    assert HandlerOk(txs, hs[i]);
  }

  lemma AckOk(s: State, i: nat, o: Outcome, maxRetries: nat)
    requires Inv(s) && i < |s.handlers| && s.handlers[i].pc == Ack
    ensures Inv(Apply(s, StepHandler(i, o), maxRetries))
  {
    EndHandler(s.db.txs, s.handlers, i);
  }

  lemma NackOk(s: State, i: nat, maxRetries: nat)
    requires Inv(s) && i < |s.handlers|
    ensures Inv(NackStep(s, i, maxRetries))
  {
    EndHandler(s.db.txs, s.handlers, i);
    assert HandlerOk(s.db.txs, s.handlers[i]);
  }

  lemma WorkOk(s: State, i: nat, o: Outcome, maxRetries: nat)
    requires Inv(s) && i < |s.handlers| && s.handlers[i].pc != Ack && s.handlers[i].pc != Nack
    ensures Inv(Apply(s, StepHandler(i, o), maxRetries))
  {
    assert HandlerOk(s.db.txs, s.handlers[i]);
    HandlerStepDbOk(s.db, s.handlers[i], o);
    HandlerStepEvolves(s.db, s.handlers[i], o);
    OtherHandlers(s, i, o);
    EvolvesKeepsQueues(s, Apply(s, StepHandler(i, o), maxRetries));
  }

  lemma StepHandlerOk(s: State, i: nat, o: Outcome, maxRetries: nat)
    requires Inv(s)
    ensures Inv(Apply(s, StepHandler(i, o), maxRetries))
  {
    if i < |s.handlers| {
      if s.handlers[i].pc == Ack {
        AckOk(s, i, o, maxRetries);
      } else if s.handlers[i].pc == Nack {
        NackOk(s, i, maxRetries);
      } else {
        WorkOk(s, i, o, maxRetries);
      }
    }
  }

  // ----- One gateway step -------------------------------------------------------------------------

  lemma PutBalanceOk(db: Db, u: UserId, v: int, deposit: int)
    requires DbOk(db) && v >= 0
    ensures DbOk(PutBalance(db, u, v, deposit))
  {
    forall w ensures Balanced(PutBalance(db, u, v, deposit), w) { assert Balanced(db, w); }
  }

  lemma DropBalanceOk(db: Db, u: UserId)
    requires DbOk(db)
    ensures DbOk(DropBalance(db, u))
  {
    forall w ensures Balanced(DropBalance(db, u), w) { assert Balanced(db, w); }
  }

  lemma CreateOk(db: Db, t: Tx)
    requires DbOk(db) && t.amount > 0 && t.status == Initiated && t.deducts == t.restores == 0
    ensures DbOk(db.(txs := db.txs + [t]))
  {
    forall w ensures Balanced(db.(txs := db.txs + [t]), w) {
      assert Balanced(db, w);
      NetOutAppend(db.txs, t, w);
    }
  }

  lemma CallStepOk(db: Db, c: Call, o: Outcome, verdict: bool)
    requires DbOk(db) && CallOk(db.txs, c) && c.pc != Publish
    ensures var (db', c') := CallStep(db, c, o, verdict);
      DbOk(db') && CallOk(db'.txs, c') && Evolves(db.txs, db'.txs) && db.txs <= db'.txs
  {
    match c.pc
    case Acquire(k) => SameLedger(db, CallStep(db, c, o, verdict).0);
    case SyncCache => PutBalanceOk(db, c.user, c.seen.balance, if c.user in db.balances then 0 else c.seen.balance);
    case CreateTx => CreateOk(db, Tx(c.user, c.amount, c.currency, Initiated, 0, 0));
    case GiveBack => SameLedger(db, CallStep(db, c, o, verdict).0);
    case _ =>
  }

  lemma HandlersFrame(txs: seq<Tx>, txs': seq<Tx>, hs: seq<Handler>)
    requires HandlersOk(txs, hs) && txs <= txs'
    ensures HandlersOk(txs', hs)
  {
    forall j | 0 <= j < |hs| ensures HandlerOk(txs', hs[j]) { assert HandlerOk(txs, hs[j]); }
  }

  lemma StepCallOk(s: State, i: nat, o: Outcome, verdict: bool, maxRetries: nat)
    requires Inv(s) && i < |s.calls| && s.calls[i].pc != Publish
    ensures Inv(Apply(s, StepCall(i, o, verdict), maxRetries))
  {
    var s' := Apply(s, StepCall(i, o, verdict), maxRetries);
    assert CallOk(s.db.txs, s.calls[i]);
    CallStepOk(s.db, s.calls[i], o, verdict);
    EvolvesKeepsQueues(s, s');
    HandlersFrame(s.db.txs, s'.db.txs, s.handlers);
  }

  lemma PublishOk(s: State, i: nat, o: Outcome)
    requires Inv(s) && i < |s.calls| && s.calls[i].pc == Publish
    ensures Inv(PublishStep(s, i, o))
  {
    assert CallOk(s.db.txs, s.calls[i]);
  }

  // ----- Everything else ----------------------------------------------------------------------------

  lemma AdjustOk(db: Db, u: UserId, amount: nat, credit: bool)
    requires DbOk(db)
    ensures DbOk(AdminAdjust(db, u, amount, credit)) && AdminAdjust(db, u, amount, credit).txs == db.txs
  {
    if u in db.users && amount > 0 && (credit || db.users[u].balance >= amount) {
      var after := if credit then db.users[u].balance + amount else db.users[u].balance - amount;
      var mid := SetUserBalance(db, u, after);
      SameLedger(db, mid);
      if credit && u in db.balances {
        PutBalanceOk(mid, u, db.balances[u] + amount, amount);
      } else if !credit && TryDeduct(db, u, amount).Some? {
        PutBalanceOk(mid, u, db.balances[u] - amount, 0 - amount);
      } else {
        PutBalanceOk(mid, u, after, if u in mid.balances then if credit then amount else 0 - amount else after);
      }
    }
  }

  /** Events that touch no activation, queue or transaction. */
  lemma StoreEventOk(s: State, db': Db)
    requires Inv(s) && DbOk(db') && db'.txs == s.db.txs
    ensures Inv(s.(db := db'))
  {}

  lemma ExpireLockOk(s: State, u: UserId, maxRetries: nat)
    requires Inv(s)
    ensures Inv(Apply(s, ExpireLock(u), maxRetries))
  {
    SameLedger(s.db, s.db.(locks := s.db.locks - {u}));
    StoreEventOk(s, s.db.(locks := s.db.locks - {u}));
  }

  lemma ExpireBalanceOk(s: State, u: UserId, maxRetries: nat)
    requires Inv(s)
    ensures Inv(Apply(s, ExpireBalance(u), maxRetries))
  {
    DropBalanceOk(s.db, u);
    StoreEventOk(s, DropBalance(s.db, u));
  }

  lemma GetBalanceOk(s: State, u: UserId, maxRetries: nat)
    requires Inv(s)
    ensures Inv(Apply(s, GetBalance(u), maxRetries))
  {
    ReadThroughOk(s.db, u);
    StoreEventOk(s, ReadThrough(s.db, u));
  }

  lemma AdjustActionOk(s: State, u: UserId, amount: nat, credit: bool, maxRetries: nat)
    requires Inv(s)
    ensures Inv(Apply(s, Adjust(u, amount, credit), maxRetries))
  {
    AdjustOk(s.db, u, amount, credit);
    StoreEventOk(s, AdminAdjust(s.db, u, amount, credit));
  }

  lemma ReadThroughOk(db: Db, u: UserId)
    requires DbOk(db)
    ensures DbOk(ReadThrough(db, u)) && ReadThrough(db, u).txs == db.txs
  {
    if u in db.users { PutBalanceOk(db, u, db.users[u].balance, db.users[u].balance); }
  }

  lemma SetActiveOk(s: State, u: UserId, active: bool, maxRetries: nat)
    requires Inv(s)
    ensures Inv(Apply(s, SetActive(u, active), maxRetries))
  {
    var db' := Apply(s, SetActive(u, active), maxRetries).db;
    SameLedger(s.db, db');
    StoreEventOk(s, db');
  }

  lemma StartCallOk(s: State, u: UserId, amount: nat, currency: string, maxRetries: nat)
    requires Inv(s)
    ensures Inv(Apply(s, StartCall(u, amount, currency), maxRetries))
  {}

  lemma DeliverOk(s: State, m: Message, maxRetries: nat)
    requires Inv(s)
    ensures Inv(Apply(s, Deliver(m), maxRetries))
  {}

  lemma DuplicateOk(s: State, m: Message, maxRetries: nat)
    requires Inv(s)
    ensures Inv(Apply(s, Duplicate(m), maxRetries))
  {}

  lemma RepublishOk(s: State, m: Message, maxRetries: nat)
    requires Inv(s)
    ensures Inv(Apply(s, Republish(m), maxRetries))
  {}

  lemma ApplyOk(s: State, a: Action, maxRetries: nat)
    requires Inv(s)
    ensures Inv(Apply(s, a, maxRetries))
  {
    match a
    case StepCall(i, o, verdict) =>
      if i < |s.calls| {
        if s.calls[i].pc == Publish { PublishOk(s, i, o); } else { StepCallOk(s, i, o, verdict, maxRetries); }
      }
    case StepHandler(i, o) => StepHandlerOk(s, i, o, maxRetries);
    case StartCall(u, amount, currency) => StartCallOk(s, u, amount, currency, maxRetries);
    case Deliver(m) => DeliverOk(s, m, maxRetries);
    case Duplicate(m) => DuplicateOk(s, m, maxRetries);
    case Republish(m) => RepublishOk(s, m, maxRetries);
    case ExpireLock(u) => ExpireLockOk(s, u, maxRetries);
    case ExpireBalance(u) => ExpireBalanceOk(s, u, maxRetries);
    case GetBalance(u) => GetBalanceOk(s, u, maxRetries);
    case Adjust(u, amount, credit) => AdjustActionOk(s, u, amount, credit, maxRetries);
    case SetActive(u, active) => SetActiveOk(s, u, active, maxRetries);
  }

  lemma {:induction false} RunOk(s: State, actions: seq<Action>, maxRetries: nat)
    requires Initial(s)
    ensures Inv(Run(s, actions, maxRetries))
    decreases |actions|
  {
    if actions == [] {
      forall u ensures Balanced(s.db, u) {}
    } else {
      var n := |actions| - 1;
      RunOk(s, actions[..n], maxRetries);
      ApplyOk(Run(s, actions[..n], maxRetries), actions[n], maxRetries);
    }
  }
}
