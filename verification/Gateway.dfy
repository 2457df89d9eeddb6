/** One call of `initiatePayout`, under any faults and answers of the foreign services. */
module GatewayPass {
  import opened Base
  import opened PayoutProtocol
  import opened PayoutLedger

  /** The fate of every operation after the lock has been acquired. */
  datatype Script = Script(limits: Outcome, limitsOk: bool, cache: Outcome, sync: Outcome, funds: Outcome,
                           fraud: Outcome, fraudOk: bool, create: Outcome, publish: Outcome, giveBack: Outcome) {
    function At(pc: CallPc): (Outcome, bool) {
      match pc
      case CheckLimits => (limits, limitsOk)
      case CheckCache => (cache, true)
      case SyncCache => (sync, true)
      case CheckFunds => (funds, true)
      case ScoreFraud => (fraud, fraudOk)
      case CreateTx => (create, true)
      case Publish => (publish, true)
      case GiveBack => (giveBack, true)
      case _ => (Replied, true)
    }
  }

  function Rank(pc: CallPc): nat {
    match pc
    case CheckAccount => 9
    case CheckLimits => 8
    case CheckCache => 7
    case SyncCache => 6
    case CheckFunds => 5
    case ScoreFraud => 4
    case CreateTx => 3
    case Publish => 2
    case GiveBack => 1
    case _ => 0
  }

  /** The steps of a lock holder in sequence.  The messages are those handed to the queue. */
  function Proceed(db: Db, c: Call, g: Script): (Db, Call, seq<Message>)
    decreases Rank(c.pc)
  {
    if Rank(c.pc) == 0 then (db, c, [])
    else if c.pc == Publish then
      var sent := if g.publish.Ran() then [PublishedMessage(c)] else [];
      if g.publish == Replied then (db, c.(pc := Returned), sent)
      else if c.token.None? then (db, c.(pc := Threw), sent)
      else
        var (db', c') := CallStep(db, c.(pc := GiveBack), g.giveBack, true);
        (db', c', sent)
    else
      var (o, verdict) := g.At(c.pc);
      var (db', c') := CallStep(db, c, o, verdict);
      Proceed(db', c', g)
  }

  lemma {:induction false} ProceedGrows(db: Db, c: Call, g: Script)
    ensures db.txs <= Proceed(db, c, g).0.txs
    decreases Rank(c.pc)
  {
    if Rank(c.pc) > 0 && c.pc != Publish {
      var (o, verdict) := g.At(c.pc);
      CallAppends(db, c, o, verdict);
      ProceedGrows(CallStep(db, c, o, verdict).0, CallStep(db, c, o, verdict).1, g);
    }
  }

  lemma CallAppends(db: Db, c: Call, o: Outcome, verdict: bool)
    ensures db.txs <= CallStep(db, c, o, verdict).0.txs
  {}

  /** A call that has just acquired the lock of its user. */
  ghost predicate Holder(db: Db, c: Call) {
    && c.pc == CheckAccount && c.token.Some? && !c.freed
    && c.user in db.locks && db.locks[c.user] == c.token.value
  }

  /** The balance the funds check sees: the cached one, or the one just synced from Mongo. */
  function Available(db: Db, c: Call): int { if c.user in db.balances then db.balances[c.user] else c.seen.balance }

  /** Every check passes: account, limits, cache, funds and fraud score. */
  predicate Passed(db: Db, c: Call, g: Script) {
    && c.seen.active
    && g.limits == Replied && g.limitsOk
    && g.cache == Replied && (c.user in db.balances || g.sync == Replied)
    && g.funds == Replied && Available(db, c) >= c.amount
    && g.fraud == Replied && g.fraudOk
  }

  predicate Accepted(db: Db, c: Call, g: Script) { Passed(db, c, g) && g.create == g.publish == Replied }

  /** Effects that take place even when the call then fails. */
  predicate Synced(db: Db, c: Call, g: Script) {
    c.seen.active && g.limits == Replied && g.limitsOk && g.cache == Replied && c.user !in db.balances && g.sync.Ran()
  }

  predicate Created(db: Db, c: Call, g: Script) { Passed(db, c, g) && g.create.Ran() }

  predicate Sent(db: Db, c: Call, g: Script) { Passed(db, c, g) && g.create == Replied && g.publish.Ran() }

  function NewTx(c: Call): Tx { Tx(c.user, c.amount, c.currency, Initiated, 0, 0) }

  /** What a call from CheckFunds on does: it writes no balance. */
  ghost predicate Ends(db: Db, c: Call, g: Script, r: (Db, Call, seq<Message>), created: bool, sent: bool, ok: bool) {
    && r.0.balances == db.balances && r.0.users == db.users && r.0.nextToken == db.nextToken
    && r.0.txs == (if created then db.txs + [NewTx(c)] else db.txs)
    && r.2 == (if sent then [Message(|db.txs|, c.user, c.amount, c.currency, c.token.GetOr(0), 0)] else [])
    && r.1.pc == (if ok then Returned else Threw)
    && r.0.locks == (if !ok && g.giveBack.Ran() then db.locks - {c.user} else db.locks)
  }

  lemma GiveBackStep(db: Db, c: Call, o: Outcome)
    requires c.pc == GiveBack && c.token.Some?
    ensures CallStep(db, c, o, true).0 == if o.Ran() then ReleaseLock(db, c.user, c.token.value) else db
  {}

  lemma EndByFailing(db: Db, c: Call, g: Script)
    requires c.token.Some? && c.user in db.locks && db.locks[c.user] == c.token.value && c.pc == GiveBack
    ensures Ends(db, c, g, Proceed(db, c, g), false, false, false)
  {
    var (db', c') := CallStep(db, c, g.giveBack, true);
    assert Proceed(db, c, g) == Proceed(db', c', g);
  }

  lemma EndFromCreate(db: Db, c: Call, g: Script)
    requires c.token.Some? && c.user in db.locks && db.locks[c.user] == c.token.value && c.pc == CreateTx
    ensures Ends(db, c, g, Proceed(db, c, g), g.create.Ran(), g.create == Replied && g.publish.Ran(),
                 g.create == g.publish == Replied)
  {
    var (db', c') := CallStep(db, c, g.create, true);
    assert Proceed(db, c, g) == Proceed(db', c', g);
    if g.create != Replied { EndByFailing(db', c', g); }
  }

  lemma EndFromFunds(db: Db, c: Call, g: Script)
    requires c.token.Some? && c.user in db.locks && db.locks[c.user] == c.token.value && c.pc == CheckFunds
    ensures var fine := g.funds == Replied && TryDeduct(db, c.user, c.amount).Some? && g.fraud == Replied && g.fraudOk;
      Ends(db, c, g, Proceed(db, c, g), fine && g.create.Ran(), fine && g.create == Replied && g.publish.Ran(),
           fine && g.create == g.publish == Replied)
  {
    var (db1, c1) := CallStep(db, c, g.funds, true);
    assert Proceed(db, c, g) == Proceed(db1, c1, g);
    if c1.pc == GiveBack {
      EndByFailing(db1, c1, g);
    } else {
      var (db2, c2) := CallStep(db1, c1, g.fraud, g.fraudOk);
      assert Proceed(db1, c1, g) == Proceed(db2, c2, g);
      if c2.pc == GiveBack { EndByFailing(db2, c2, g); } else { EndFromCreate(db2, c2, g); }
    }
  }

  /** The stores once the cache has been filled, when the call gets that far. */
  function Filled(db: Db, c: Call, g: Script): Db {
    if Synced(db, c, g) then SyncBalance(db, c.user, c.seen.balance) else db
  }

  /** Everything a lock holder does, in closed form: it answers success exactly when every check passed
      and every reply arrived; it writes no balance but the first-access sync; it leaves its lock held
      when it succeeds, and also when its release never ran. */
  lemma CallBooks(db: Db, c: Call, g: Script)
    requires Holder(db, c)
    ensures Ends(Filled(db, c, g), c, g, Proceed(db, c, g), Created(db, c, g), Sent(db, c, g), Accepted(db, c, g))
  {
    var (db1, c1) := CallStep(db, c, Replied, true);
    assert Proceed(db, c, g) == Proceed(db1, c1, g);
    if c1.pc == GiveBack {
      EndByFailing(db1, c1, g);
    } else {
      var (db2, c2) := CallStep(db1, c1, g.limits, g.limitsOk);
      assert Proceed(db1, c1, g) == Proceed(db2, c2, g);
      if c2.pc == GiveBack {
        EndByFailing(db2, c2, g);
      } else {
        CallBooksFromCache(db2, c2, g);
      }
    }
  }

  lemma EndFromSync(db: Db, c: Call, g: Script)
    requires c.token.Some? && c.user in db.locks && db.locks[c.user] == c.token.value && c.pc == SyncCache
    requires c.user !in db.balances
    ensures var mid := if g.sync.Ran() then SyncBalance(db, c.user, c.seen.balance) else db;
      var fine := g.sync == Replied && g.funds == Replied && c.seen.balance >= c.amount && g.fraud == Replied && g.fraudOk;
      Ends(mid, c, g, Proceed(db, c, g), fine && g.create.Ran(), fine && g.create == Replied && g.publish.Ran(),
           fine && g.create == g.publish == Replied)
  {
    var (db1, c1) := CallStep(db, c, g.sync, true);
    assert Proceed(db, c, g) == Proceed(db1, c1, g);
    if c1.pc == GiveBack { EndByFailing(db1, c1, g); } else { EndFromFunds(db1, c1, g); }
  }

  lemma CacheMiss(db: Db, c: Call, g: Script)
    requires c.token.Some? && c.user in db.locks && db.locks[c.user] == c.token.value && c.pc == CheckCache
    requires c.seen.active && g.limits == Replied && g.limitsOk
    requires g.cache == Replied && c.user !in db.balances
    ensures Ends(Filled(db, c, g), c, g, Proceed(db, c, g), Created(db, c, g), Sent(db, c, g), Accepted(db, c, g))
  {
    var (db1, c1) := CallStep(db, c, g.cache, true);
    assert Proceed(db, c, g) == Proceed(db1, c1, g);
    EndFromSync(db1, c1, g);
  }

  lemma CallBooksFromCache(db: Db, c: Call, g: Script)
    requires c.token.Some? && c.user in db.locks && db.locks[c.user] == c.token.value && c.pc == CheckCache
    requires c.seen.active && g.limits == Replied && g.limitsOk
    ensures Ends(Filled(db, c, g), c, g, Proceed(db, c, g), Created(db, c, g), Sent(db, c, g), Accepted(db, c, g))
  {
    if g.cache == Replied && c.user !in db.balances {
      CacheMiss(db, c, g);
    } else {
      var (db1, c1) := CallStep(db, c, g.cache, true);
      assert Proceed(db, c, g) == Proceed(db1, c1, g);
      if c1.pc == GiveBack { EndByFailing(db1, c1, g); } else { EndFromFunds(db1, c1, g); }
    }
  }

  /** A failing exit no longer holds the lock if and only if its release ran; a successful one leaves
      it to the worker, whose message names a stored transaction and carries the token. */
  lemma ExitsAndTheLock(db: Db, c: Call, g: Script)
    requires Holder(db, c)
    ensures var (db', c', sent) := Proceed(db, c, g);
      && (c'.pc == Threw || c'.pc == Returned)
      && (c'.pc == Threw ==> (c.user in db'.locks <==> g.giveBack == Unsent))
      && (c'.pc == Returned ==> |sent| == 1 && c.user in db'.locks && db'.locks[c.user] == sent[0].token)
      && (forall m :: m in sent ==> Matches(db'.txs, m))
  {
    CallBooks(db, c, g);
  }
}

module Gateway {
  import opened Base
  import opened RedisStore
  import opened MongoStore
  import opened PayoutProtocol
  import opened GatewayPass
  import Balances
  import DistributedLocks
  import LockProtocol

  lemma CreatedInView(docs: seq<TxDoc>, db: Db, c: Call)
    requires Forget(db).txs == ToTxs(docs)
    ensures Forget(db.(txs := db.txs + [NewTx(c)])).txs == ToTxs(docs + [TxDoc(c.user, c.amount, c.currency, Initiated)])
  {
    var more := docs + [TxDoc(c.user, c.amount, c.currency, Initiated)];
    assert |docs| == |ToTxs(docs)| == |db.txs|;
    forall k | 0 <= k < |more| ensures Forget(db.(txs := db.txs + [NewTx(c)])).txs[k] == ToTxs(more)[k] {
      if k < |docs| { assert Forget(db).txs[k] == ToTxs(docs)[k]; }
    }
  }

  /** The checks before the lock. */
  function RefusedBefore(users: map<UserId, User>, u: UserId, load: Outcome, quote: Outcome, quoteOk: bool): Option<Failure> {
    if load != Replied then Some(Unexpected)
    else if u !in users then Some(UserNotFound)
    else if quote != Replied then Some(Unexpected)
    else if !quoteOk then Some(InvalidCurrency)
    else None
  }

  /** The pipeline's steps before the lock come to an attempt at it exactly when none of these checks fails. */
  lemma UpToTheLock(db: Db, c: Call, load: Outcome, quote: Outcome, quoteOk: bool)
    requires c.pc == LoadUser && c.token.None?
    ensures var (db1, c1) := CallStep(db, c, load, true);
      var (db2, c2) := if c1.pc == Threw then (db1, c1) else CallStep(db1, c1, quote, quoteOk);
      && db2 == db
      && (RefusedBefore(db.users, c.user, load, quote, quoteOk) == None <==> c2.pc == Acquire(1))
      && (c2.pc == Acquire(1) ==> c2.seen == db.users[c.user]) && (c2.pc != Acquire(1) ==> c2.pc == Threw)
  {}

  /** Three attempts that find the lock held are all; an attempt that finds it free is the last one. */
  lemma ThreeAttempts(db: Db, c: Call, attempt: nat)
    requires c.pc == Acquire(attempt) && 1 <= attempt <= 3 && c.token.None?
    ensures var (db', c') := CallStep(db, c, Replied, true);
      if c.user in db.locks then db'.locks == db.locks && c'.token.None? && c'.pc == if attempt < 3 then Acquire(attempt + 1) else Threw
      else c'.pc == CheckAccount && c'.token == Some(db.nextToken) && db'.locks == db.locks[c.user := db.nextToken]
  {}

  /** Publication is the same step in the pipeline. */
  lemma PublishAgrees(s: State, i: nat, g: Script)
    requires i < |s.calls| && s.calls[i].pc == Publish && s.calls[i].token.Some?
    ensures var (db', c', sent) := Proceed(s.db, s.calls[i], g); var s' := PublishStep(s, i, g.publish);
      && s'.queue == s.queue + multiset(sent) && s'.db == s.db
      && s'.calls[i].pc == if c'.pc == Returned then Returned else GiveBack
  {}

  /** The lock table after an attempt. */
  function LockTable(t: DistributedLocks.Try, now: nat, u: UserId, token: Token, ttl: nat): map<UserId, Entry<Token>> {
    if t.o.Ran() then LockProtocol.SetIfAbsent(t.locks, now, u, token, ttl) else t.locks
  }

  /** The queue as the publisher sees it. */
  class PayoutQueue {
    var messages: seq<Message>

    constructor ()
      ensures messages == []
    {
      messages := [];
    }

    /** False when the client library reports a full buffer, although the message may have gone out. */
    method PublishPayoutMessage(m: Message, o: Outcome) returns (sent: bool)
      modifies this
      ensures messages == if o.Ran() then old(messages) + [m] else old(messages)
      ensures sent <==> o == Replied
    {
      if o.Ran() { messages := messages + [m]; }
      sent := o == Replied;
    }
  }

  class PayoutService {
    const redis: Redis
    const mongo: Mongo
    const queue: PayoutQueue
    const balance: Balances.BalanceService
    const lock: DistributedLocks.DistributedLock
    const transactions: Transactions
    const users: PayoutUsers
    const lockTtl: nat
    const cacheTtl: nat

    constructor (redis: Redis, mongo: Mongo, queue: PayoutQueue, lockTtl: nat, cacheTtl: nat)
      requires lockTtl > 0 && cacheTtl > 0
      ensures Wired() && this.redis == redis && this.mongo == mongo && this.queue == queue
    {
      this.redis, this.mongo, this.queue, this.lockTtl, this.cacheTtl := redis, mongo, queue, lockTtl, cacheTtl;
      balance := new Balances.BalanceService(redis);
      lock := new DistributedLocks.DistributedLock(redis);
      transactions := new Transactions(mongo);
      users := new PayoutUsers(mongo);
    }

    ghost predicate Wired() {
      && balance.redis == redis && lock.redis == redis && transactions.mongo == mongo && users.mongo == mongo
      && lockTtl > 0 && cacheTtl > 0
    }

    ghost function View(): Db
      reads redis, mongo
    {
      StoreView(redis, mongo)
    }

    /** The try block from the account check on.  The ghost results say where the protocol is when it
        ends: finished, or about to give the lock back. */
    method Check(c: Call, g: Script, ghost db0: Db) returns (r: Result<(), Failure>, ghost db: Db, ghost c': Call)
      requires Wired() && Forget(db0) == View() && c.pc == CheckAccount && c.token.Some?
      modifies redis`balances
      ensures Forget(db) == View() && Proceed(db0, c, g) == Proceed(db, c', g)
      ensures c' == c.(pc := if r.Ok? then CreateTx else GiveBack)
      // The first check that fails is the answer.
      ensures var cached := c.user in old(View()).balances;
        var available := if cached then old(View()).balances[c.user] else c.seen.balance;
        r == if !c.seen.active then Err(UserNotActive)
             else if g.limits != Replied then Err(Unexpected)
             else if !g.limitsOk then Err(SpendingLimitExceeded)
             else if g.cache != Replied || (!cached && g.sync != Replied) || g.funds != Replied then Err(Unexpected)
             else if available < c.amount then Err(InsufficientBalance)
             else if g.fraud != Replied then Err(Unexpected)
             else if !g.fraudOk then Err(HighFraudRisk)
             else Ok(())
    {
      db, c' := CallStep(db0, c, Replied, true).0, CallStep(db0, c, Replied, true).1;
      assert Proceed(db0, c, g) == Proceed(db, c', g);
      if !c.seen.active { return Err(UserNotActive), db, c'; }
      db, c' := CallStep(db, c', g.limits, g.limitsOk).0, CallStep(db, c', g.limits, g.limitsOk).1;
      assert Proceed(db0, c, g) == Proceed(db, c', g);
      if g.limits != Replied { return Err(Unexpected), db, c'; }
      if !g.limitsOk { return Err(SpendingLimitExceeded), db, c'; }
      r, db, c' := CheckBalance(c, c', g, db);
    }

    /** First-access sync, then the funds. */
    method CheckBalance(c: Call, ghost c0: Call, g: Script, ghost db0: Db)
        returns (r: Result<(), Failure>, ghost db: Db, ghost c': Call)
      requires Wired() && Forget(db0) == View() && c.token.Some? && c0 == c.(pc := CheckCache)
      modifies redis`balances
      ensures Forget(db) == View() && Proceed(db0, c0, g) == Proceed(db, c', g)
      ensures c' == c.(pc := if r.Ok? then CreateTx else GiveBack)
      ensures var cached := c.user in old(View()).balances;
        var available := if cached then old(View()).balances[c.user] else c.seen.balance;
        r == if g.cache != Replied || (!cached && g.sync != Replied) || g.funds != Replied then Err(Unexpected)
             else if available < c.amount then Err(InsufficientBalance)
             else if g.fraud != Replied then Err(Unexpected)
             else if !g.fraudOk then Err(HighFraudRisk)
             else Ok(())
    {
      db, c' := db0, c0;
      var cached := balance.GetBalance(c.user, g.cache);
      db, c' := CallStep(db, c', g.cache, true).0, CallStep(db, c', g.cache, true).1;
      assert Proceed(db0, c0, g) == Proceed(db, c', g);
      if cached.Err? { return Err(cached.error), db, c'; }
      if cached.value.None? {
        var synced := balance.SyncBalance(c.user, c.seen.balance, cacheTtl, g.sync);
        db, c' := CallStep(db, c', g.sync, true).0, CallStep(db, c', g.sync, true).1;
        assert Forget(db) == View() && Proceed(db0, c0, g) == Proceed(db, c', g);
        if synced.Err? { return Err(synced.error), db, c'; }
      }
      r, db, c' := CheckFundsAndRisk(c, c', g, db);
    }

    method CheckFundsAndRisk(c: Call, ghost c0: Call, g: Script, ghost db0: Db)
        returns (r: Result<(), Failure>, ghost db: Db, ghost c': Call)
      requires Wired() && Forget(db0) == View() && c.token.Some? && c0 == c.(pc := CheckFunds)
      ensures db == db0 && Proceed(db0, c0, g) == Proceed(db, c', g)
      ensures c' == c.(pc := if r.Ok? then CreateTx else GiveBack)
      ensures r == if g.funds != Replied then Err(Unexpected)
                   else if c.user !in View().balances || View().balances[c.user] < c.amount then Err(InsufficientBalance)
                   else if g.fraud != Replied then Err(Unexpected)
                   else if !g.fraudOk then Err(HighFraudRisk)
                   else Ok(())
    {
      db, c' := db0, c0;
      var funds := balance.HasSufficientBalance(c.user, c.amount, g.funds);
      c' := CallStep(db, c', g.funds, true).1;
      assert Proceed(db0, c0, g) == Proceed(db, c', g);
      if funds.Err? { return Err(funds.error), db, c'; }
      if !funds.value { return Err(InsufficientBalance), db, c'; }
      c' := CallStep(db, c', g.fraud, g.fraudOk).1;
      assert Proceed(db0, c0, g) == Proceed(db, c', g);
      if g.fraud != Replied { return Err(Unexpected), db, c'; }
      if !g.fraudOk { return Err(HighFraudRisk), db, c'; }
      r := Ok(());
    }

    /** The try block from the creation of the record on. */
    method CreateAndPublish(c: Call, ghost c0: Call, g: Script, ghost db0: Db)
        returns (r: Result<TxId, Failure>, ghost db: Db, ghost c': Call, ghost sent: seq<Message>)
      requires Wired() && Forget(db0) == View() && c.token.Some? && c0 == c.(pc := CreateTx)
      modifies mongo`txs, queue
      ensures Forget(db) == View() && queue.messages == old(queue.messages) + sent
      ensures r.Ok? ==> Proceed(db0, c0, g) == (db, c', sent) && c'.pc == Returned && r.value == |old(mongo.txs)|
      ensures r.Err? ==> c'.pc == GiveBack && c'.user == c.user && c'.token == c.token
      ensures var (db'', c'') := CallStep(db, c', g.giveBack, true);
        r.Err? ==> Proceed(db0, c0, g) == (db'', c'', sent) && c''.pc == Threw
      ensures r == if g.create != Replied then Err(Unexpected)
                   else if g.publish != Replied then Err(FailedToPublish)
                   else Ok(|old(mongo.txs)|)
      ensures mongo.txs == if g.create.Ran() then old(mongo.txs) + [TxDoc(c.user, c.amount, c.currency, Initiated)] else old(mongo.txs)
      ensures sent == if g.create == Replied && g.publish.Ran()
                      then [Message(|old(mongo.txs)|, c.user, c.amount, c.currency, c.token.value, 0)] else []
    {
      db, c', sent := db0, c0, [];
      CreatedInView(mongo.txs, db, c);
      var created := transactions.Create(TxDoc(c.user, c.amount, c.currency, Initiated), g.create);
      db, c' := CallStep(db, c', g.create, true).0, CallStep(db, c', g.create, true).1;
      assert Forget(db) == View() && Proceed(db0, c0, g) == Proceed(db, c', g);
      if created.Err? {
        ghost var (db'', c'') := CallStep(db, c', g.giveBack, true);
        assert Proceed(db, c', g) == Proceed(db'', c'', g);
        return Err(created.error), db, c', sent;
      }
      var published;
      published, c', sent := Publish(c, c', created.value, g, db);
      r := if published then created else Err(FailedToPublish);
    }

    method Publish(c: Call, ghost c0: Call, tx: TxId, g: Script, ghost db: Db) returns (published: bool, ghost c': Call, ghost sent: seq<Message>)
      requires c.token.Some? && c0 == c.(pc := PayoutProtocol.Publish, tx := tx)
      modifies queue
      ensures queue.messages == old(queue.messages) + sent
      ensures published <==> g.publish == Replied
      ensures sent == if g.publish.Ran() then [Message(tx, c.user, c.amount, c.currency, c.token.value, 0)] else []
      ensures c' == c0.(pc := if published then Returned else GiveBack)
      ensures published ==> Proceed(db, c0, g) == (db, c', sent)
      ensures var (db'', c'') := CallStep(db, c', g.giveBack, true);
        !published ==> Proceed(db, c0, g) == (db'', c'', sent) && c''.pc == Threw
    {
      var m := Message(tx, c.user, c.amount, c.currency, c.token.value, 0);
      published := queue.PublishPayoutMessage(m, g.publish);
      sent := if g.publish.Ran() then [m] else [];
      c' := c0.(pc := if published then Returned else GiveBack);
    }

    /** A lock holder's part of `initiatePayout`, the release of the failure path included: stores and
        queue end up as the protocol says. */
    method Initiate(c: Call, g: Script) returns (r: Result<TxId, Failure>)
      requires Wired() && c.pc == CheckAccount && c.token.Some?
      modifies redis`balances, redis`locks, mongo`txs, queue
      ensures var (db', c', sent) := Proceed(old(View()), c, g);
        && View() == Forget(db') && queue.messages == old(queue.messages) + sent
        && (r.Ok? <==> c'.pc == Returned)
        && (r.Ok? ==> r.value == |old(mongo.txs)|)
      // The answer: the id of the record, or the first failure, unless the release fails as well.
      ensures var cached := c.user in old(View()).balances;
        var available := if cached then old(View()).balances[c.user] else c.seen.balance;
        var first :=
          if !c.seen.active then Some(UserNotActive)
          else if g.limits != Replied then Some(Unexpected)
          else if !g.limitsOk then Some(SpendingLimitExceeded)
          else if g.cache != Replied || (!cached && g.sync != Replied) || g.funds != Replied then Some(Unexpected)
          else if available < c.amount then Some(InsufficientBalance)
          else if g.fraud != Replied then Some(Unexpected)
          else if !g.fraudOk then Some(HighFraudRisk)
          else if g.create != Replied then Some(Unexpected)
          else if g.publish != Replied then Some(FailedToPublish)
          else None;
        r == if first.None? then Ok(|old(mongo.txs)|) else if g.giveBack == Replied then Err(first.value) else Err(Unexpected)
      ensures r.Ok? ==>
        && mongo.txs == old(mongo.txs) + [TxDoc(c.user, c.amount, c.currency, Initiated)]
        && queue.messages == old(queue.messages) + [Message(r.value, c.user, c.amount, c.currency, c.token.value, 0)]
    {
      ghost var db0 := View();
      assert Forget(db0).txs == db0.txs;
      var checked;
      ghost var db, c', sent;
      checked, db, c' := Check(c, g, db0);
      if checked.Ok? {
        r, db, c', sent := CreateAndPublish(c, c', g, db);
        if r.Ok? { return; }
      } else {
        r := Err(checked.error);
        sent := [];
        ghost var (db', c'') := CallStep(db, c', g.giveBack, true);
        assert Proceed(db, c', g) == Proceed(db', c'', g);
      }
      var error := GiveUp(c, c', g, db, r.error);
      r := Err(error);
    }

    /** The catch block: the lock goes back, and an error of the release replaces the first one. */
    method GiveUp(c: Call, ghost c0: Call, g: Script, ghost db: Db, first: Failure) returns (error: Failure)
      requires Wired() && Forget(db) == View() && c.token.Some? && c0.pc == GiveBack
      requires c0.user == c.user && c0.token == c.token
      modifies redis`locks
      ensures View() == Forget(CallStep(db, c0, g.giveBack, true).0)
      ensures error == if g.giveBack == Replied then first else Unexpected
    {
      GiveBackStep(db, c0, g.giveBack);
      var released := lock.Release(c.user, c.token.value, g.giveBack);
      error := if released.Ok? then first else Unexpected;
    }

    /** The balance as the user sees it, without a lock: the cached one, or the Mongo one, which is then
        cached. */
    method GetUserBalance(u: UserId, cache: Outcome, load: Outcome, sync: Outcome) returns (r: Result<int, Failure>)
      requires Wired()
      modifies redis`balances
      ensures View() == (if cache == load == Replied && sync.Ran() then ReadThrough(old(View()), u) else old(View())).(deposits := map[], drift := map[])
      ensures r == if cache != Replied then Err(Unexpected)
                   else if u in old(View()).balances then Ok(old(View()).balances[u])
                   else if load != Replied then Err(Unexpected)
                   else if u !in mongo.users then Err(UserNotFound)
                   else if sync != Replied then Err(Unexpected)
                   else Ok(mongo.users[u].balance)
      ensures View().balances == if cache == load == Replied && u !in old(View()).balances && u in mongo.users && sync != Unsent
                                 then old(View()).balances[u := mongo.users[u].balance] else old(View()).balances
    {
      var cached := balance.GetBalance(u, cache);
      if cached.Err? { return Err(cached.error); }
      if cached.value.Some? { return Ok(cached.value.value); }
      var user := users.FindByUserId(u, load);
      if user.Err? { return Err(user.error); }
      if user.value.None? { return Err(UserNotFound); }
      var synced := balance.SyncBalance(u, user.value.value.balance, cacheTtl, sync);
      r := if synced.Ok? then Ok(user.value.value.balance) else Err(synced.error);
    }

    /** The part of the call before the lock: the user's document, or the first refusal. */
    method CheckBefore(u: UserId, load: Outcome, quote: Outcome, quoteOk: bool) returns (r: Result<User, Failure>)
      requires Wired()
      ensures var refusal := RefusedBefore(mongo.users, u, load, quote, quoteOk);
        r == if refusal.Some? then Err(refusal.value) else Ok(mongo.users[u])
      ensures r.Ok? ==> u in mongo.users
    {
      var user := users.FindByUserId(u, load);
      if user.Err? { return Err(user.error); }
      if user.value.None? { return Err(UserNotFound); }
      if quote != Replied { return Err(Unexpected); }
      if !quoteOk { return Err(InvalidCurrency); }
      r := Ok(user.value.value);
    }

    /** The attempts at the lock. */
    method TakeLock(u: UserId, tries: seq<DistributedLocks.Try>) returns (r: Result<Option<Token>, ()>, attempts: nat)
      requires Wired() && |tries| == LOCK_ATTEMPTS
      modifies redis`locks, redis`nextToken, redis`now
      ensures 0 < attempts <= LOCK_ATTEMPTS && redis.now == old(redis.now) + DistributedLocks.WaitTime(100, attempts)
      ensures DistributedLocks.AllHeld(tries, u, old(redis.now), 100, attempts - 1)
      ensures r == Ok(None) ==>
        tries[attempts - 1].Held(u, redis.now) && attempts == LOCK_ATTEMPTS && redis.locks == tries[attempts - 1].locks
      ensures r != Ok(None) ==>
        && !tries[attempts - 1].Held(u, redis.now) && (r.Ok? <==> tries[attempts - 1].o == Replied)
        && redis.locks == LockTable(tries[attempts - 1], redis.now, u, old(redis.nextToken) + attempts - 1, lockTtl)
      ensures r.Ok? && r.value.Some? ==>
        && r.value.value == old(redis.nextToken) + attempts - 1
        && u in LiveAt(redis.locks, redis.now) && LiveAt(redis.locks, redis.now)[u] == r.value.value
    {
      var waited;
      r, attempts, waited := lock.AcquireWithRetry(u, lockTtl, LOCK_ATTEMPTS, 100, tries);
    }

    /** The whole call.  Before the lock nothing but the lock table changes, and only as the other
        processes and this call's own attempts leave it; from then on `Proceed` says what happens.
        `holder` is the protocol state at the moment the lock was acquired. */
    method InitiatePayout(u: UserId, amount: nat, currency: string, load: Outcome, quote: Outcome, quoteOk: bool,
                          tries: seq<DistributedLocks.Try>, g: Script)
        returns (r: Result<TxId, Failure>, ghost holder: Option<(Db, Call)>, ghost attempts: nat)
      requires Wired() && |tries| == LOCK_ATTEMPTS
      modifies redis, mongo`txs, queue
      // Before the lock: the first check that fails decides, and nothing at all has changed.
      ensures var refusal :=
          if load != Replied then Some(Unexpected)
          else if u !in old(mongo.users) then Some(UserNotFound)
          else if quote != Replied then Some(Unexpected)
          else if !quoteOk then Some(InvalidCurrency)
          else None;
        refusal == RefusedBefore(old(mongo.users), u, load, quote, quoteOk)
        && (refusal.Some? ==>
          && r == Err(refusal.value) && holder.None? && attempts == 0
          && redis.locks == old(redis.locks) && redis.now == old(redis.now) && redis.nextToken == old(redis.nextToken))
      ensures holder.None? ==> r.Err? && mongo.txs == old(mongo.txs) && queue.messages == old(queue.messages)
                               && redis.balances == old(redis.balances)
      // At the lock: all attempts but the last found it held.
      ensures RefusedBefore(old(mongo.users), u, load, quote, quoteOk).None? ==>
        && 0 < attempts <= LOCK_ATTEMPTS && redis.now == old(redis.now) + DistributedLocks.WaitTime(100, attempts)
        && DistributedLocks.AllHeld(tries, u, old(redis.now), 100, attempts - 1)
        && (holder.Some? <==> tries[attempts - 1].o == Replied && !tries[attempts - 1].Held(u, redis.now))
      ensures RefusedBefore(old(mongo.users), u, load, quote, quoteOk).None? && holder.None? ==>
        if tries[attempts - 1].Held(u, redis.now)
        then r == Err(ConcurrentRequest) && attempts == LOCK_ATTEMPTS && redis.locks == tries[attempts - 1].locks
        else r == Err(Unexpected) && redis.locks == LockTable(tries[attempts - 1], redis.now, u, old(redis.nextToken) + attempts - 1, lockTtl)
      ensures holder.Some? ==>
        var (db, c) := holder.value;
        var (db', c', sent) := Proceed(db, c, g);
        && Holder(db, c) && attempts > 0
        && db.locks == LiveAt(LockTable(tries[attempts - 1], redis.now, u, c.token.value, lockTtl), redis.now)
        && c.user == u && c.amount == amount && c.currency == currency
        && u in old(mongo.users) && c.seen == old(mongo.users)[u]
        && db.balances == LiveAt(old(redis.balances), redis.now) && db.txs == ToTxs(old(mongo.txs))
        && View() == Forget(db') && queue.messages == old(queue.messages) + sent
        && (r.Ok? <==> c'.pc == Returned)
      // The answer under the lock: the id of the record, or the first failure, unless the release fails as well.
      ensures holder.Some? ==>
        var seen, balances := old(mongo.users)[u], LiveAt(old(redis.balances), redis.now);
        var cached := u in balances;
        var available := if cached then balances[u] else seen.balance;
        var first :=
          if !seen.active then Some(UserNotActive)
          else if g.limits != Replied then Some(Unexpected)
          else if !g.limitsOk then Some(SpendingLimitExceeded)
          else if g.cache != Replied || (!cached && g.sync != Replied) || g.funds != Replied then Some(Unexpected)
          else if available < amount then Some(InsufficientBalance)
          else if g.fraud != Replied then Some(Unexpected)
          else if !g.fraudOk then Some(HighFraudRisk)
          else if g.create != Replied then Some(Unexpected)
          else if g.publish != Replied then Some(FailedToPublish)
          else None;
        r == if first.None? then Ok(|old(mongo.txs)|) else if g.giveBack == Replied then Err(first.value) else Err(Unexpected)
      ensures r.Ok? ==>
        && r.value == |old(mongo.txs)| && mongo.txs == old(mongo.txs) + [TxDoc(u, amount, currency, Initiated)]
        && holder.Some? && queue.messages == old(queue.messages) + [Message(r.value, u, amount, currency, holder.value.1.token.value, 0)]
    {
      holder, attempts := None, 0;
      var user := CheckBefore(u, load, quote, quoteOk);
      if user.Err? { return Err(user.error), holder, attempts; }
      var token, tried := TakeLock(u, tries);
      attempts := tried;
      if token.Err? { return Err(Unexpected), holder, attempts; }
      if token.value.None? { return Err(ConcurrentRequest), holder, attempts; }
      var c := Call(u, amount, currency, CheckAccount, user.value, token.value, 0, false);
      holder := Some((View(), c));
      r := Initiate(c, g);
    }
  }
}
