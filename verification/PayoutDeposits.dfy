/** What the first-access sync does to the books: when the money paid out stays within the money a user
    started with, and what the lock has to do with it. */
module PayoutDeposits {
  import opened Base
  import opened PayoutProtocol
  import opened PayoutLedger
  import opened PayoutTheorems
  import opened PayoutLocks

  // ----- Drift ----------------------------------------------------------------------------------------

  /** `syncBalance` of a call of `u` runs next, with this value. */
  predicate Syncs(s: State, a: Action, u: UserId) {
    && a.StepCall? && a.i < |s.calls| && a.o.Ran()
    && s.calls[a.i].user == u && s.calls[a.i].pc == SyncCache
  }

  /** A debit that Mongo covers and the Redis balance does not. */
  predicate Resyncs(s: State, a: Action, u: UserId) {
    && a.Adjust? && a.user == u && !a.credit && a.amount > 0
    && u in s.db.users && u in s.db.balances && s.db.balances[u] < a.amount <= s.db.users[u].balance
  }

  /** The step writes over the key of `u` only what is there already. */
  predicate Agrees(s: State, a: Action, u: UserId) {
    && (Syncs(s, a, u) && u in s.db.balances ==> s.db.balances[u] == s.calls[a.i].seen.balance)
    && !Resyncs(s, a, u)
  }

  lemma CallDrift(db: Db, c: Call, o: Outcome, verdict: bool, u: UserId)
    ensures Drift(CallStep(db, c, o, verdict).0, u) == Drift(db, u) <==>
      (c.user == u && c.pc == SyncCache && o.Ran() && u in db.balances ==> db.balances[u] == c.seen.balance)
  {}

  lemma DriftStep(s: State, a: Action, maxRetries: nat, u: UserId)
    ensures Drift(Apply(s, a, maxRetries).db, u) == Drift(s.db, u) <==> Agrees(s, a, u)
  {
    if a.StepCall? {
      if a.i < |s.calls| { CallDrift(s.db, s.calls[a.i], a.o, a.verdict, u); }
    } else if a.StepHandler? {
      if a.i < |s.handlers| { HandlerKeys(s.db, s.handlers[a.i], a.o); }
    } else {
      OtherDrift(s, a, maxRetries, u);
    }
  }

  lemma OtherDrift(s: State, a: Action, maxRetries: nat, u: UserId)
    requires !a.StepCall? && !a.StepHandler?
    ensures Drift(Apply(s, a, maxRetries).db, u) == Drift(s.db, u) <==> Agrees(s, a, u)
  {}

  /** At the end of the run and at every moment before. */
  predicate NeverDrifts(s: State, actions: seq<Action>, maxRetries: nat, u: UserId)
    decreases |actions|
  {
    && Drift(Run(s, actions, maxRetries).db, u) == 0
    && (actions == [] || NeverDrifts(s, actions[..|actions| - 1], maxRetries, u))
  }

  predicate AlwaysAgrees(s: State, actions: seq<Action>, maxRetries: nat, u: UserId)
    decreases |actions|
  {
    actions == [] ||
    var n := |actions| - 1;
    AlwaysAgrees(s, actions[..n], maxRetries, u) && Agrees(Run(s, actions[..n], maxRetries), actions[n], u)
  }

  /** The books never drift if and only if every write over a present key finds its own value there. */
  lemma {:induction false} NoDriftIff(s: State, actions: seq<Action>, maxRetries: nat, u: UserId)
    requires Initial(s)
    ensures NeverDrifts(s, actions, maxRetries, u) <==> AlwaysAgrees(s, actions, maxRetries, u)
    decreases |actions|
  {
    if actions != [] {
      var n := |actions| - 1;
      NoDriftIff(s, actions[..n], maxRetries, u);
      DriftStep(Run(s, actions[..n], maxRetries), actions[n], maxRetries, u);
      if NeverDrifts(s, actions[..n], maxRetries, u) { DriftNow(s, actions[..n], maxRetries, u); }
    }
  }

  lemma {:induction false} DriftNow(s: State, actions: seq<Action>, maxRetries: nat, u: UserId)
    requires NeverDrifts(s, actions, maxRetries, u)
    ensures Drift(Run(s, actions, maxRetries).db, u) == 0
  {}

  // ----- A key that neither expires nor is adjusted -----------------------------------------------------

  predicate Undisturbed(actions: seq<Action>, u: UserId) { forall k :: 0 <= k < |actions| ==> !Touches(actions[k], u) }

  /** What `u` starts with: the cached balance, or the Mongo balance that the first access will cache. */
  function StartOf(s: State, u: UserId): int {
    if u in s.db.balances then s.db.balances[u] else if u in s.db.users then s.db.users[u].balance else 0
  }

  predicate Loaded(pc: CallPc) { !pc.LoadUser? && !pc.GiveBack? && !pc.Threw? }

  /** No payout of `u` has been recorded, none is past its balance check, and every document of `u` that
      a call has loaded carries the starting balance. */
  ghost predicate Untouched(s0: State, s: State, u: UserId) {
    && (forall i :: 0 <= i < |s.db.txs| ==> s.db.txs[i].user != u)
    && (u in s.db.users <==> u in s0.db.users)
    && (u in s0.db.users ==> s.db.users[u].balance == s0.db.users[u].balance)
    && (forall i :: 0 <= i < |s.calls| && s.calls[i].user == u ==> CallUntouched(s0, s.calls[i]))
  }

  predicate CallUntouched(s0: State, c: Call) {
    && c.pc != CheckFunds && c.pc != ScoreFraud && c.pc != CreateTx
    && (Loaded(c.pc) ==> c.user in s0.db.users && c.seen.balance == s0.db.users[c.user].balance)
  }

  ghost predicate DepositInv(s0: State, s: State, u: UserId) {
    && Deposits(s.db, u) == (if u in s.db.balances then StartOf(s0, u) else 0)
    && (u !in s.db.balances ==> u !in s0.db.balances && Untouched(s0, s, u))
  }

  lemma CallDeposits(db: Db, c: Call, o: Outcome, verdict: bool, u: UserId)
    ensures var db' := CallStep(db, c, o, verdict).0;
      && (u in db.balances ==> u in db'.balances)
      && (u in db'.balances && u !in db.balances ==> c.user == u && c.pc == SyncCache)
      && Deposits(db', u) == Deposits(db, u) + (if u in db'.balances && u !in db.balances then c.seen.balance else 0)
  {
    if c.pc != SyncCache { CallKeepsKeys(db, c, o, verdict); }
  }

  lemma CallKeepsKeys(db: Db, c: Call, o: Outcome, verdict: bool)
    requires c.pc != SyncCache
    ensures var db' := CallStep(db, c, o, verdict).0; db'.balances == db.balances && db'.deposits == db.deposits && db'.drift == db.drift
  {}

  lemma CallRecords(db: Db, c: Call, o: Outcome, verdict: bool)
    ensures var (db', c') := CallStep(db, c, o, verdict);
      && db'.users == db.users && c'.user == c.user
      && (db'.txs == db.txs || (c.pc == CreateTx && db'.txs == db.txs + [Tx(c.user, c.amount, c.currency, Initiated, 0, 0)]))
  {}

  lemma CallStaysUntouched(s0: State, db: Db, c: Call, o: Outcome, verdict: bool)
    requires CallUntouched(s0, c) && c.pc != Publish && c.user !in CallStep(db, c, o, verdict).0.balances
    requires (c.user in db.users <==> c.user in s0.db.users)
    requires c.user in s0.db.users ==> db.users[c.user].balance == s0.db.users[c.user].balance
    ensures CallUntouched(s0, CallStep(db, c, o, verdict).1)
  {}

  lemma StepCallDeposit(s0: State, s: State, i: nat, o: Outcome, verdict: bool, maxRetries: nat, u: UserId)
    requires Inv(s) && DepositInv(s0, s, u) && i < |s.calls|
    ensures DepositInv(s0, Apply(s, StepCall(i, o, verdict), maxRetries), u)
  {
    if s.calls[i].pc == Publish {
      assert CallOk(s.db.txs, s.calls[i]);
    } else {
      var c := s.calls[i];
      CallDeposits(s.db, c, o, verdict, u);
      CallRecords(s.db, c, o, verdict);
      if u !in s.db.balances && c.user == u {
        assert CallUntouched(s0, c);
        if u !in CallStep(s.db, c, o, verdict).0.balances { CallStaysUntouched(s0, s.db, c, o, verdict); }
      }
    }
  }

  lemma HandlerDeposit(s0: State, s: State, i: nat, o: Outcome, u: UserId)
    requires Inv(s) && DepositInv(s0, s, u) && i < |s.handlers|
    ensures var db' := HandlerStep(s.db, s.handlers[i], o).0;
      && Deposits(db', u) == Deposits(s.db, u) && (u in db'.balances <==> u in s.db.balances)
      && (u !in s.db.balances ==>
            && (forall k :: 0 <= k < |db'.txs| ==> db'.txs[k].user != u)
            && (u in db'.users <==> u in s.db.users) && (u in s.db.users ==> db'.users[u] == s.db.users[u]))
  {
    assert HandlerOk(s.db.txs, s.handlers[i]);
    HandlerStepEvolves(s.db, s.handlers[i], o);
    HandlerStepFrame(s.db, s.handlers[i], o);
    HandlerUsers(s.db, s.handlers[i], o, u);
    HandlerKeys(s.db, s.handlers[i], o);
  }

  /** A worker writes the Mongo balance of the user of its message only. */
  lemma HandlerUsers(db: Db, h: Handler, o: Outcome, u: UserId)
    ensures var db' := HandlerStep(db, h, o).0;
      (u in db'.users <==> u in db.users) && (u != h.msg.user && u in db.users ==> db'.users[u] == db.users[u])
  {
    if h.pc.SyncMongo? { SyncUsers(db, h, o); } else { NoUsers(db, h, o); }
  }

  lemma SyncUsers(db: Db, h: Handler, o: Outcome)
    requires h.pc.SyncMongo?
    ensures HandlerStep(db, h, o).0 == if o.Ran() then SetUserBalance(db, h.msg.user, h.pc.newBalance) else db
  {}

  lemma NoUsers(db: Db, h: Handler, o: Outcome)
    requires !h.pc.SyncMongo?
    ensures HandlerStep(db, h, o).0.users == db.users
  {}

  lemma StepHandlerDeposit(s0: State, s: State, i: nat, o: Outcome, maxRetries: nat, u: UserId)
    requires Inv(s) && DepositInv(s0, s, u) && i < |s.handlers|
    ensures DepositInv(s0, Apply(s, StepHandler(i, o), maxRetries), u)
  {
    HandlerDeposit(s0, s, i, o, u);
  }

  /** Events on the stores that are not about `u`, or fill its key from Mongo. */
  lemma StoreDeposit(s0: State, s: State, db': Db, u: UserId)
    requires DepositInv(s0, s, u) && db'.txs == s.db.txs
    requires (u in db'.users <==> u in s.db.users) && (u in db'.users ==> db'.users[u].balance == s.db.users[u].balance)
    requires u in s.db.balances ==> u in db'.balances
    requires Deposits(db', u) == Deposits(s.db, u) + if u in s.db.balances || u !in db'.balances then 0 else db'.balances[u]
    requires u in db'.balances && u !in s.db.balances ==> u in s.db.users && db'.balances[u] == s.db.users[u].balance
    ensures DepositInv(s0, s.(db := db'), u)
  {}

  lemma QueueDeposit(s0: State, s: State, a: Action, maxRetries: nat, u: UserId)
    requires DepositInv(s0, s, u) && (a.StartCall? || a.Deliver? || a.Duplicate? || a.Republish?)
    ensures DepositInv(s0, Apply(s, a, maxRetries), u)
  {}

  lemma OtherDeposit(s0: State, s: State, a: Action, maxRetries: nat, u: UserId)
    requires DepositInv(s0, s, u) && !Touches(a, u) && !a.StepCall? && !a.StepHandler?
    ensures DepositInv(s0, Apply(s, a, maxRetries), u)
  {
    match a
    case ExpireLock(w) => StoreDeposit(s0, s, s.db.(locks := s.db.locks - {w}), u);
    case ExpireBalance(w) => StoreDeposit(s0, s, DropBalance(s.db, w), u);
    case GetBalance(w) => StoreDeposit(s0, s, ReadThrough(s.db, w), u);
    case Adjust(w, amount, credit) => StoreDeposit(s0, s, AdminAdjust(s.db, w, amount, credit), u);
    case SetActive(w, active) => ActiveDeposit(s0, s, w, active, maxRetries, u);
    case _ => QueueDeposit(s0, s, a, maxRetries, u);
  }

  lemma ActiveDeposit(s0: State, s: State, w: UserId, active: bool, maxRetries: nat, u: UserId)
    requires DepositInv(s0, s, u)
    ensures DepositInv(s0, Apply(s, SetActive(w, active), maxRetries), u)
  {
    StoreDeposit(s0, s, Apply(s, SetActive(w, active), maxRetries).db, u);
  }

  lemma {:induction false} RunDeposits(s: State, actions: seq<Action>, maxRetries: nat, u: UserId)
    requires Initial(s) && Undisturbed(actions, u)
    ensures DepositInv(s, Run(s, actions, maxRetries), u)
    decreases |actions|
  {
    if actions != [] {
      var n := |actions| - 1;
      RunDeposits(s, actions[..n], maxRetries, u);
      RunOk(s, actions[..n], maxRetries);
      StepDeposits(s, Run(s, actions[..n], maxRetries), actions[n], maxRetries, u);
    }
  }

  lemma StepDeposits(s0: State, s: State, a: Action, maxRetries: nat, u: UserId)
    requires Inv(s) && DepositInv(s0, s, u) && !Touches(a, u)
    ensures DepositInv(s0, Apply(s, a, maxRetries), u)
  {
    if a.StepCall? {
      if a.i < |s.calls| { StepCallDeposit(s0, s, a.i, a.o, a.verdict, maxRetries, u); }
    } else if a.StepHandler? {
      if a.i < |s.handlers| { StepHandlerDeposit(s0, s, a.i, a.o, maxRetries, u); }
    } else {
      OtherDeposit(s0, s, a, maxRetries, u);
    }
  }

  /** The balance and the net deductions add up to the starting money; with no key, nothing was taken. */
  predicate Honest(s0: State, s: State, u: UserId) {
    Balance(s.db, u) + NetOut(s.db.txs, u) == if u in s.db.balances then StartOf(s0, u) else 0
  }

  predicate AlwaysHonest(s: State, actions: seq<Action>, maxRetries: nat, u: UserId)
    decreases |actions|
  {
    && Honest(s, Run(s, actions, maxRetries), u)
    && (actions == [] || AlwaysHonest(s, actions[..|actions| - 1], maxRetries, u))
  }

  lemma {:induction false} HonestIffNoDrift(s: State, actions: seq<Action>, maxRetries: nat, u: UserId)
    requires Initial(s) && Undisturbed(actions, u)
    ensures Honest(s, Run(s, actions, maxRetries), u) <==> Drift(Run(s, actions, maxRetries).db, u) == 0
  {
    LedgerIsExact(s, actions, maxRetries, u);
    RunDeposits(s, actions, maxRetries, u);
  }

  lemma {:induction false} AlwaysHonestIff(s: State, actions: seq<Action>, maxRetries: nat, u: UserId)
    requires Initial(s) && Undisturbed(actions, u)
    ensures AlwaysHonest(s, actions, maxRetries, u) <==> NeverDrifts(s, actions, maxRetries, u)
    decreases |actions|
  {
    HonestIffNoDrift(s, actions, maxRetries, u);
    if actions != [] { AlwaysHonestIff(s, actions[..|actions| - 1], maxRetries, u); }
  }

  /** While the key of `u` neither expires nor is adjusted: the starting money is accounted for at every
      moment of the run if and only if every first-access sync of `u` that ran found the key absent, or
      already at the value it wrote. */
  lemma {:induction false} ExactIff(s: State, actions: seq<Action>, maxRetries: nat, u: UserId)
    requires Initial(s) && Undisturbed(actions, u)
    ensures AlwaysHonest(s, actions, maxRetries, u) <==> AlwaysAgrees(s, actions, maxRetries, u)
  {
    AlwaysHonestIff(s, actions, maxRetries, u);
    NoDriftIff(s, actions, maxRetries, u);
  }

  /** And then no more is ever paid out than the user started with. */
  lemma {:induction false} PaidWithinStart(s: State, actions: seq<Action>, maxRetries: nat, u: UserId)
    requires Initial(s) && Undisturbed(actions, u) && AlwaysAgrees(s, actions, maxRetries, u)
    ensures var db := Run(s, actions, maxRetries).db;
      NetOut(db.txs, u) == (if u in db.balances then StartOf(s, u) - db.balances[u] else 0) && NetOut(db.txs, u) <= StartOf(s, u)
  {
    NoDriftIff(s, actions, maxRetries, u);
    DriftNow(s, actions, maxRetries, u);
    HonestIffNoDrift(s, actions, maxRetries, u);
    NoOverdraft(s, actions, maxRetries, u);
  }

  /** In a clean run without active handlers, the starting money less the balance is the total of the
      completed transactions if and only if the books have not drifted, as they never do when the syncs
      agree; a user without a key has completed none. */
  lemma {:induction false} StartMinusBalance(s: State, actions: seq<Action>, maxRetries: nat, u: UserId)
    requires Initial(s) && CleanRun(s, actions, maxRetries) && Quiescent(Run(s, actions, maxRetries)) && Undisturbed(actions, u)
    ensures var db := Run(s, actions, maxRetries).db;
      && (u in db.balances ==> (StartOf(s, u) - db.balances[u] == CompletedTotal(db.txs, u) <==> Drift(db, u) == 0))
      && (AlwaysAgrees(s, actions, maxRetries, u) ==>
            CompletedTotal(db.txs, u) == if u in db.balances then StartOf(s, u) - db.balances[u] else 0)
  {
    QuiescentLedger(s, actions, maxRetries, u);
    RunDeposits(s, actions, maxRetries, u);
    if AlwaysAgrees(s, actions, maxRetries, u) {
      NoDriftIff(s, actions, maxRetries, u);
      DriftNow(s, actions, maxRetries, u);
    }
  }

  // ----- What the lock is for ---------------------------------------------------------------------------

  /** From the lock to the end of the first-access sync. */
  predicate Early(pc: CallPc) { pc in {CheckAccount, CheckLimits, CheckCache, SyncCache} }

  predicate Holding(db: Db, c: Call) { c.user in db.locks && c.token == Some(db.locks[c.user]) }

  /** The lock of `u` does not lapse under a call that has not got past its balance check. */
  predicate InTime(s: State, a: Action, u: UserId) {
    a == ExpireLock(u) ==>
      forall i :: 0 <= i < |s.calls| && s.calls[i].user == u && Early(s.calls[i].pc) ==> !Holding(s.db, s.calls[i])
  }

  predicate LocksLast(s: State, actions: seq<Action>, maxRetries: nat, u: UserId)
    decreases |actions|
  {
    actions == [] ||
    var n := |actions| - 1;
    LocksLast(s, actions[..n], maxRetries, u) && InTime(Run(s, actions[..n], maxRetries), actions[n], u)
  }

  /** No message carries the lock value of a call that is still checking. */
  predicate Unshared(db: Db, calls: seq<Call>, m: Message) {
    m.token < db.nextToken && forall i :: 0 <= i < |calls| && Early(calls[i].pc) ==> calls[i].token != Some(m.token)
  }

  ghost predicate TokensOk(s: State) {
    && (forall m :: m in s.queue ==> Unshared(s.db, s.calls, m))
    && (forall m :: m in s.delayed ==> Unshared(s.db, s.calls, m))
    && (forall j :: 0 <= j < |s.handlers| ==> Unshared(s.db, s.calls, s.handlers[j].msg))
  }

  ghost predicate AllHolding(s: State, u: UserId) {
    forall i :: 0 <= i < |s.calls| && s.calls[i].user == u && Early(s.calls[i].pc) ==> Holding(s.db, s.calls[i])
  }

  predicate Syncing(s: State, u: UserId) { exists i :: 0 <= i < |s.calls| && s.calls[i].user == u && s.calls[i].pc == SyncCache }

  /** Nothing of `u` moves while one of its calls is about to sync. */
  ghost predicate Still(s0: State, s: State, u: UserId) {
    Syncing(s, u) ==> Untouched(s0, s, u) && (u in s.db.balances ==> u in s0.db.users && s.db.balances[u] == s0.db.users[u].balance)
  }

  // --- the lock values

  lemma CallTokens(s: State, i: nat, o: Outcome, verdict: bool, m: Message)
    requires LockInv(s) && i < |s.calls| && s.calls[i].pc != Publish && Unshared(s.db, s.calls, m)
    ensures var (db', c') := CallStep(s.db, s.calls[i], o, verdict); Unshared(db', s.calls[i := c'], m)
  {
    CallTokenStep(s.db, s.calls[i], o, verdict);
  }

  lemma CallTokenStep(db: Db, c: Call, o: Outcome, verdict: bool)
    requires c.pc != Publish
    ensures var (db', c') := CallStep(db, c, o, verdict);
      && db'.nextToken >= db.nextToken
      && (Early(c'.pc) ==> (Early(c.pc) && c'.token == c.token) || c'.token == Some(db.nextToken))
  {}

  lemma StepCallTokens(s: State, i: nat, o: Outcome, verdict: bool, maxRetries: nat)
    requires LockInv(s) && TokensOk(s) && i < |s.calls|
    ensures TokensOk(Apply(s, StepCall(i, o, verdict), maxRetries))
  {
    var s' := Apply(s, StepCall(i, o, verdict), maxRetries);
    assert CallLock(s.db, s.calls[i]);
    forall m | Unshared(s.db, s.calls, m) ensures Unshared(s'.db, s'.calls, m) {
      if s.calls[i].pc != Publish { CallTokens(s, i, o, verdict, m); }
    }
    if s.calls[i].pc == Publish { assert Unshared(s'.db, s'.calls, PublishedMessage(s.calls[i])); }
  }

  lemma StepHandlerTokens(s: State, i: nat, o: Outcome, maxRetries: nat)
    requires TokensOk(s) && i < |s.handlers|
    ensures TokensOk(Apply(s, StepHandler(i, o), maxRetries))
  {
    var h := s.handlers[i];
    HandlerKeepsTokens(s.db, h, o);
    assert Unshared(s.db, s.calls, h.msg);
    assert Unshared(s.db, s.calls, h.msg.(retries := h.msg.retries + 1));
    var s' := Apply(s, StepHandler(i, o), maxRetries);
    forall m | Unshared(s.db, s.calls, m) ensures Unshared(s'.db, s'.calls, m) {}
  }

  lemma HandlerKeepsTokens(db: Db, h: Handler, o: Outcome)
    ensures var (db', h') := HandlerStep(db, h, o); db'.nextToken == db.nextToken && h'.msg == h.msg
  {}

  lemma OtherTokens(s: State, a: Action, maxRetries: nat)
    requires TokensOk(s) && !a.StepCall? && !a.StepHandler?
    ensures TokensOk(Apply(s, a, maxRetries))
  {
    if a.StartCall? || a.Deliver? || a.Duplicate? || a.Republish? {
      QueueTokens(s, a, maxRetries);
    } else {
      var s' := Apply(s, a, maxRetries);
      assert s'.db.nextToken == s.db.nextToken && s' == s.(db := s'.db);
      StoreTokens(s, s'.db);
    }
  }

  lemma StoreTokens(s: State, db': Db)
    requires TokensOk(s) && db'.nextToken == s.db.nextToken
    ensures TokensOk(s.(db := db'))
  {
    forall m | Unshared(s.db, s.calls, m) ensures Unshared(db', s.calls, m) {}
  }

  lemma QueueTokens(s: State, a: Action, maxRetries: nat)
    requires TokensOk(s) && (a.StartCall? || a.Deliver? || a.Duplicate? || a.Republish?)
    ensures TokensOk(Apply(s, a, maxRetries))
  {
    var s' := Apply(s, a, maxRetries);
    forall m | Unshared(s.db, s.calls, m) ensures Unshared(s'.db, s'.calls, m) {}
  }

  // --- the locks

  /** A step of another call of the same user does not take away a lock. */
  lemma CallKeepsLock(db: Db, c: Call, o: Outcome, verdict: bool, u: UserId)
    requires u in db.locks && (c.user == u ==> c.token != Some(db.locks[u]))
    ensures var db' := CallStep(db, c, o, verdict).0; u in db'.locks && db'.locks[u] == db.locks[u]
  {}

  lemma CallHolds(db: Db, c: Call, o: Outcome, verdict: bool)
    requires (Early(c.pc) ==> Holding(db, c)) && c.pc != Publish
    ensures var (db', c') := CallStep(db, c, o, verdict); Early(c'.pc) ==> Holding(db', c')
  {}

  lemma HandlerKeepsLock(db: Db, h: Handler, o: Outcome, u: UserId)
    requires u in db.locks && db.locks[u] != h.msg.token
    ensures var db' := HandlerStep(db, h, o).0; u in db'.locks && db'.locks[u] == db.locks[u]
  {
    HandlerLocks(db, h, o);
  }

  lemma StepCallHolding(s: State, i: nat, o: Outcome, verdict: bool, maxRetries: nat, u: UserId)
    requires LockInv(s) && AllHolding(s, u) && i < |s.calls|
    ensures AllHolding(Apply(s, StepCall(i, o, verdict), maxRetries), u)
  {
    var s' := Apply(s, StepCall(i, o, verdict), maxRetries);
    var c := s.calls[i];
    forall j | 0 <= j < |s'.calls| && s'.calls[j].user == u && Early(s'.calls[j].pc) ensures Holding(s'.db, s'.calls[j]) {
      if c.pc != Publish {
        if j == i {
          CallUserFixed(s.db, c, o, verdict);
          CallHolds(s.db, c, o, verdict);
        } else {
          assert Holding(s.db, s.calls[j]) && s.calls[i].token != s.calls[j].token;
          CallKeepsLock(s.db, c, o, verdict, u);
        }
      }
    }
  }

  lemma CallUserFixed(db: Db, c: Call, o: Outcome, verdict: bool)
    ensures CallStep(db, c, o, verdict).1.user == c.user
  {}

  lemma StepHandlerHolding(s: State, i: nat, o: Outcome, maxRetries: nat, u: UserId)
    requires TokensOk(s) && AllHolding(s, u) && i < |s.handlers|
    ensures AllHolding(Apply(s, StepHandler(i, o), maxRetries), u)
  {
    var s' := Apply(s, StepHandler(i, o), maxRetries);
    forall j | 0 <= j < |s'.calls| && s'.calls[j].user == u && Early(s'.calls[j].pc) ensures Holding(s'.db, s'.calls[j]) {
      assert Holding(s.db, s.calls[j]) && Unshared(s.db, s.calls, s.handlers[i].msg);
      HandlerKeepsLock(s.db, s.handlers[i], o, u);
    }
  }

  lemma OtherHolding(s: State, a: Action, maxRetries: nat, u: UserId)
    requires AllHolding(s, u) && InTime(s, a, u) && !a.StepCall? && !a.StepHandler?
    ensures AllHolding(Apply(s, a, maxRetries), u)
  {
    var s' := Apply(s, a, maxRetries);
    forall j | 0 <= j < |s'.calls| && s'.calls[j].user == u && Early(s'.calls[j].pc) ensures Holding(s'.db, s'.calls[j]) {
      assert j < |s.calls| ==> Holding(s.db, s.calls[j]);
    }
  }

  // --- nothing moves between check and sync

  /** With the lock in hand, no other call of the user is between lock and balance check, nor gets a lock. */
  lemma OneEarlyCall(s: State, u: UserId, i: nat, j: nat)
    requires LockInv(s) && AllHolding(s, u) && i < |s.calls| && j < |s.calls|
    requires s.calls[i].user == u && Early(s.calls[i].pc) && s.calls[j].user == u && Early(s.calls[j].pc)
    ensures i == j
  {
    assert Holding(s.db, s.calls[i]) && Holding(s.db, s.calls[j]);
  }

  /** Steps of the other calls of `u` while one is about to sync. */
  lemma IdleCall(s0: State, db: Db, c: Call, o: Outcome, verdict: bool)
    requires CallUntouched(s0, c) && !Early(c.pc) && c.pc != Publish && c.user in db.locks
    requires (c.user in db.users <==> c.user in s0.db.users)
    requires c.user in s0.db.users ==> db.users[c.user].balance == s0.db.users[c.user].balance
    ensures var (db', c') := CallStep(db, c, o, verdict);
      CallUntouched(s0, c') && !Early(c'.pc) && db'.balances == db.balances && db'.users == db.users && db'.txs == db.txs
  {}

  lemma OtherUsersCall(db: Db, c: Call, o: Outcome, verdict: bool, u: UserId)
    requires c.user != u
    ensures var db' := CallStep(db, c, o, verdict).0;
      (u in db'.balances <==> u in db.balances) && (u in db.balances ==> db'.balances[u] == db.balances[u])
  {}

  lemma StartsSync(s0: State, s: State, i: nat, o: Outcome, verdict: bool, maxRetries: nat, u: UserId)
    requires Inv(s) && DepositInv(s0, s, u) && i < |s.calls|
    requires s.calls[i].user == u && s.calls[i].pc == CheckCache && CallStep(s.db, s.calls[i], o, verdict).1.pc == SyncCache
    ensures Untouched(s0, Apply(s, StepCall(i, o, verdict), maxRetries), u) && u !in s.db.balances
    ensures Apply(s, StepCall(i, o, verdict), maxRetries).db == s.db
  {
    assert CallUntouched(s0, s.calls[i]);
  }

  lemma SyncBegins(db: Db, c: Call, o: Outcome, verdict: bool)
    requires CallStep(db, c, o, verdict).1.pc == SyncCache
    ensures c.pc == CheckCache
  {}

  lemma StepCallStill(s0: State, s: State, i: nat, o: Outcome, verdict: bool, maxRetries: nat, u: UserId)
    requires Inv(s) && LockInv(s) && DepositInv(s0, s, u) && AllHolding(s, u) && Still(s0, s, u) && i < |s.calls|
    ensures Still(s0, Apply(s, StepCall(i, o, verdict), maxRetries), u)
  {
    var s' := Apply(s, StepCall(i, o, verdict), maxRetries);
    var c := s.calls[i];
    if Syncing(s', u) {
      var j :| 0 <= j < |s'.calls| && s'.calls[j].user == u && s'.calls[j].pc == SyncCache;
      if c.pc == Publish {
        assert j != i && s.calls[j] == s'.calls[j];
        assert CallOk(s.db.txs, c);
      } else {
        CallRecords(s.db, c, o, verdict);
        if j == i {
          SyncBegins(s.db, c, o, verdict);
          StartsSync(s0, s, i, o, verdict, maxRetries, u);
        } else {
          StillWhileSyncing(s0, s, i, o, verdict, maxRetries, u, j);
        }
      }
    }
  }

  lemma StillWhileSyncing(s0: State, s: State, i: nat, o: Outcome, verdict: bool, maxRetries: nat, u: UserId, j: nat)
    requires LockInv(s) && AllHolding(s, u) && Still(s0, s, u) && i < |s.calls| && j < |s.calls| && i != j
    requires s.calls[j].user == u && s.calls[j].pc == SyncCache && s.calls[i].pc != Publish
    ensures Still(s0, Apply(s, StepCall(i, o, verdict), maxRetries), u)
  {
    var c := s.calls[i];
    assert Syncing(s, u) && Holding(s.db, s.calls[j]);
    CallRecords(s.db, c, o, verdict);
    if c.user == u {
      assert CallUntouched(s0, c);
      if Early(c.pc) { OneEarlyCall(s, u, i, j); }
      IdleCall(s0, s.db, c, o, verdict);
    } else {
      OtherUsersCall(s.db, c, o, verdict, u);
    }
  }

  lemma StepHandlerStill(s0: State, s: State, i: nat, o: Outcome, maxRetries: nat, u: UserId)
    requires Inv(s) && Still(s0, s, u) && i < |s.handlers|
    ensures Still(s0, Apply(s, StepHandler(i, o), maxRetries), u)
  {
    var h := s.handlers[i];
    assert HandlerOk(s.db.txs, h);
    HandlerStepEvolves(s.db, h, o);
    HandlerStepFrame(s.db, h, o);
    HandlerUsers(s.db, h, o, u);
    HandlerKeys(s.db, h, o);
    var s' := Apply(s, StepHandler(i, o), maxRetries);
    assert s'.calls == s.calls;
    if Syncing(s, u) { assert h.msg.user != u; }
  }

  lemma StoreStill(s0: State, s: State, db': Db, u: UserId)
    requires Still(s0, s, u) && db'.txs == s.db.txs
    requires (u in db'.users <==> u in s.db.users) && (u in db'.users ==> db'.users[u].balance == s.db.users[u].balance)
    requires u in db'.balances ==>
      (u in s.db.balances && db'.balances[u] == s.db.balances[u]) || (u in s.db.users && db'.balances[u] == s.db.users[u].balance)
    ensures Still(s0, s.(db := db'), u)
  {
    assert Syncing(s.(db := db'), u) ==> Syncing(s, u);
  }

  lemma QueueStill(s0: State, s: State, a: Action, maxRetries: nat, u: UserId)
    requires Still(s0, s, u) && (a.StartCall? || a.Deliver? || a.Duplicate? || a.Republish?)
    ensures Still(s0, Apply(s, a, maxRetries), u)
  {
    var s' := Apply(s, a, maxRetries);
    if Syncing(s', u) {
      var j :| 0 <= j < |s'.calls| && s'.calls[j].user == u && s'.calls[j].pc == SyncCache;
      assert j < |s.calls| && s.calls[j] == s'.calls[j];
    }
  }

  lemma OtherStill(s0: State, s: State, a: Action, maxRetries: nat, u: UserId)
    requires Still(s0, s, u) && !Touches(a, u) && !a.StepCall? && !a.StepHandler?
    ensures Still(s0, Apply(s, a, maxRetries), u)
  {
    match a
    case ExpireLock(w) => StoreStill(s0, s, s.db.(locks := s.db.locks - {w}), u);
    case ExpireBalance(w) => StoreStill(s0, s, DropBalance(s.db, w), u);
    case GetBalance(w) => StoreStill(s0, s, ReadThrough(s.db, w), u);
    case Adjust(w, amount, credit) => StoreStill(s0, s, AdminAdjust(s.db, w, amount, credit), u);
    case SetActive(w, active) => ActiveStill(s0, s, w, active, maxRetries, u);
    case _ => QueueStill(s0, s, a, maxRetries, u);
  }

  lemma ActiveStill(s0: State, s: State, w: UserId, active: bool, maxRetries: nat, u: UserId)
    requires Still(s0, s, u)
    ensures Still(s0, Apply(s, SetActive(w, active), maxRetries), u)
  {
    StoreStill(s0, s, Apply(s, SetActive(w, active), maxRetries).db, u);
  }

  // --- the whole run

  ghost predicate LockedInv(s0: State, s: State, u: UserId) {
    TokensOk(s) && AllHolding(s, u) && Still(s0, s, u)
  }

  lemma StepLocked(s0: State, s: State, a: Action, maxRetries: nat, u: UserId)
    requires Inv(s) && LockInv(s) && DepositInv(s0, s, u) && LockedInv(s0, s, u) && !Touches(a, u) && InTime(s, a, u)
    ensures LockedInv(s0, Apply(s, a, maxRetries), u)
  {
    if a.StepCall? {
      if a.i < |s.calls| {
        StepCallTokens(s, a.i, a.o, a.verdict, maxRetries);
        StepCallHolding(s, a.i, a.o, a.verdict, maxRetries, u);
        StepCallStill(s0, s, a.i, a.o, a.verdict, maxRetries, u);
      }
    } else if a.StepHandler? {
      if a.i < |s.handlers| {
        StepHandlerTokens(s, a.i, a.o, maxRetries);
        StepHandlerHolding(s, a.i, a.o, maxRetries, u);
        StepHandlerStill(s0, s, a.i, a.o, maxRetries, u);
      }
    } else {
      OtherTokens(s, a, maxRetries);
      OtherHolding(s, a, maxRetries, u);
      OtherStill(s0, s, a, maxRetries, u);
    }
  }

  lemma SyncAgrees(s0: State, s: State, a: Action, u: UserId)
    requires Still(s0, s, u) && !Touches(a, u)
    ensures Agrees(s, a, u)
  {
    if Syncs(s, a, u) {
      assert Syncing(s, u) && CallUntouched(s0, s.calls[a.i]);
    }
  }

  lemma {:induction false} RunLocked(s: State, actions: seq<Action>, maxRetries: nat, u: UserId)
    requires Initial(s) && Undisturbed(actions, u) && LocksLast(s, actions, maxRetries, u)
    ensures LockedInv(s, Run(s, actions, maxRetries), u) && AlwaysAgrees(s, actions, maxRetries, u)
    decreases |actions|
  {
    if actions != [] {
      var n := |actions| - 1;
      var before := Run(s, actions[..n], maxRetries);
      RunLocked(s, actions[..n], maxRetries, u);
      RunOk(s, actions[..n], maxRetries);
      RunLocks(s, actions[..n], maxRetries);
      RunDeposits(s, actions[..n], maxRetries, u);
      SyncAgrees(s, before, actions[n], u);
      StepLocked(s, before, actions[n], maxRetries, u);
    }
  }

  /** What the lock is for: when it lasts from its acquisition to the balance check of its holder, all
      first-access syncs of the user agree, and the starting money is accounted for throughout. */
  lemma {:induction false} LockKeepsBooks(s: State, actions: seq<Action>, maxRetries: nat, u: UserId)
    requires Initial(s) && Undisturbed(actions, u) && LocksLast(s, actions, maxRetries, u)
    ensures AlwaysAgrees(s, actions, maxRetries, u) && AlwaysHonest(s, actions, maxRetries, u)
    ensures NetOut(Run(s, actions, maxRetries).db.txs, u) <= StartOf(s, u)
  {
    RunLocked(s, actions, maxRetries, u);
    ExactIff(s, actions, maxRetries, u);
    PaidWithinStart(s, actions, maxRetries, u);
  }
}
