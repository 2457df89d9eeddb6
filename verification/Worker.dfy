/** One pass of `processMessage`, under any faults: what it does to the ledger and to the cache, and
    the `WorkerService` class that performs it. */
module WorkerPass {
  import opened Base
  import opened PayoutProtocol
  import opened PayoutLedger
  import opened PayoutTheorems

  /** The fate of every awaited operation of one pass. */
  datatype Faults = Faults(claim: Outcome, lookup: Outcome, read: Outcome, deduct: Outcome, complete: Outcome,
                           sync: Outcome, unlock: Outcome, restore: Outcome, markFailed: Outcome) {
    function At(pc: HandlerPc): Outcome {
      match pc
      case Claim => claim
      case Lookup => lookup
      case ReadBalance => read
      case Deduct => deduct
      case Complete(_) => complete
      case SyncMongo(_) => sync
      case Unlock => unlock
      case Rollback => restore
      case MarkFailed => markFailed
      case _ => Replied
    }
  }

  function Rank(pc: HandlerPc): nat {
    match pc
    case Claim => 9
    case Lookup => 8
    case ReadBalance => 7
    case Deduct => 6
    case Complete(_) => 5
    case SyncMongo(_) => 4
    case Unlock => 3
    case Rollback => 2
    case MarkFailed => 1
    case _ => 0
  }

  /** The handler's steps in sequence, with nobody in between, until it answers RabbitMQ. */
  function Process(db: Db, h: Handler, f: Faults): (r: (Db, Handler))
    ensures |r.0.txs| == |db.txs|
    decreases Rank(h.pc)
  {
    if Rank(h.pc) == 0 then (db, h)
    else var (db', h') := HandlerStep(db, h, f.At(h.pc)); Process(db', h', f)
  }

  function Pass(db: Db, m: Message, f: Faults): Db { Process(db, Handler(m, false, Claim), f).0 }

  /** A payout waiting for its first delivery. */
  ghost predicate Waiting(db: Db, m: Message) {
    && Matches(db.txs, m) && m.amount > 0
    && db.txs[m.tx] == Tx(m.user, m.amount, m.currency, Initiated, 0, 0)
  }

  // ----- Where a pass fails -----------------------------------------------------------------------

  /** `saved` and `synced` tell whether `completed` and the Mongo balance were written before the
      failure. */
  datatype Failing =
    | Smooth(funded: bool)
    | BeforeDebit(claimed: bool)
    | AfterDebit(saved: bool, synced: bool)

  function FailurePoint(db: Db, m: Message, f: Faults): Failing {
    var funded := m.user in db.balances && db.balances[m.user] >= m.amount;
    if f.claim != Replied then BeforeDebit(false)
    else if f.read != Replied then BeforeDebit(true)
    else if !funded then Smooth(false)
    else if f.deduct == Unsent then BeforeDebit(true)
    else if f.deduct == ReplyLost then AfterDebit(false, false)
    else if f.complete != Replied then AfterDebit(f.complete.Ran(), false)
    else if f.sync != Replied then AfterDebit(true, f.sync.Ran())
    else if f.unlock != Replied then AfterDebit(true, true)
    else Smooth(true)
  }

  /** The pass as bookkeeping: Redis debits and credits, the final status, the Mongo balance. */
  ghost predicate Booked(db: Db, db': Db, m: Message, debited: bool, credited: bool, st: Status, synced: bool)
    requires m.tx < |db.txs|
  {
    var d := if debited then 1 else 0;
    var c := if credited then 1 else 0;
    && |db'.txs| == |db.txs|
    && db'.txs[m.tx] == db.txs[m.tx].(deducts := d, restores := c, status := st)
    && (forall i :: 0 <= i < |db.txs| && i != m.tx ==> db'.txs[i] == db.txs[i])
    && db'.balances.Keys == db.balances.Keys
    && (forall u :: u in db.balances && u != m.user ==> db'.balances[u] == db.balances[u])
    && (m.user in db.balances ==>
          db'.balances[m.user] == db.balances[m.user] - (if debited then m.amount else 0) + (if credited then m.amount else 0))
    && (!synced ==> db'.users == db.users)
    && (synced ==> m.user in db.balances && db'.users == SetUserBalance(db, m.user, db.balances[m.user] - m.amount).users)
    && db'.deposits == db.deposits && db'.drift == db.drift
  }

  /** The catch block, from a point where `debited`, `st` and `synced` describe what happened. */
  lemma RollbackTail(start: Db, db: Db, h: Handler, f: Faults, debited: bool, st: Status, synced: bool)
    requires h.msg.tx < |start.txs| && h.pc == Rollback
    requires Booked(start, db, h.msg, debited, false, st, synced)
    ensures Booked(start, Process(db, h, f).0, h.msg, debited, f.restore.Ran() && h.msg.user in start.balances,
                   if h.claimed && f.markFailed.Ran() then Failed else st, synced)
    ensures Process(db, h, f).1.pc == Nack
  {
    var (db1, h1) := HandlerStep(db, h, f.restore);
    var (db2, h2) := HandlerStep(db1, h1, f.markFailed);
    assert Process(db1, h1, f) == (db2, h2);
  }

  function CreditedAfter(db: Db, m: Message, f: Faults): bool {
    !FailurePoint(db, m, f).Smooth? && f.restore.Ran() && m.user in db.balances
  }

  function StatusAfter(db: Db, m: Message, f: Faults): Status {
    match FailurePoint(db, m, f)
    case Smooth(funded) => if funded then Completed else if f.markFailed.Ran() then Failed else Processing
    case BeforeDebit(claimed) =>
      if claimed && f.markFailed.Ran() then Failed
      else if f.claim.Ran() then Processing else Initiated
    case AfterDebit(saved, _) => if f.markFailed.Ran() then Failed else if saved then Completed else Processing
  }

  predicate DebitedAfter(db: Db, m: Message, f: Faults) {
    FailurePoint(db, m, f) == Smooth(true) || FailurePoint(db, m, f).AfterDebit?
  }

  predicate SyncedAfter(db: Db, m: Message, f: Faults) {
    var p := FailurePoint(db, m, f);
    p == Smooth(true) || (p.AfterDebit? && p.synced)
  }

  lemma StepBooked(start: Db, db: Db, h: Handler, o: Outcome, st: Status, st': Status)
    requires h.msg.tx < |start.txs| && Booked(start, db, h.msg, true, false, st, false)
    requires st' == if h.pc.Complete? && o.Ran() then Completed else st
    requires h.msg.user in start.balances
    requires h.pc.Complete? || (h.pc.SyncMongo? && h.pc.newBalance == start.balances[h.msg.user] - h.msg.amount)
    ensures Booked(start, HandlerStep(db, h, o).0, h.msg, true, false, st', h.pc.SyncMongo? && o.Ran())
  {}

  lemma PassFromUnlock(start: Db, db: Db, h: Handler, f: Faults)
    requires h.msg.tx < |start.txs| && h.pc == Unlock && h.claimed
    requires Booked(start, db, h.msg, true, false, Completed, true)
    ensures Booked(start, Process(db, h, f).0, h.msg, true, f.unlock != Replied && f.restore.Ran(),
                   if f.unlock != Replied && f.markFailed.Ran() then Failed else Completed, true)
    ensures Process(db, h, f).1.pc == if f.unlock == Replied then Ack else Nack
  {
    var (db1, h1) := HandlerStep(db, h, f.unlock);
    assert Booked(start, db1, h.msg, true, false, Completed, true);
    if f.unlock != Replied { RollbackTail(start, db1, h1, f, true, Completed, true); }
    assert Process(db, h, f) == Process(db1, h1, f);
  }

  lemma PassFromSync(start: Db, db: Db, h: Handler, f: Faults)
    requires h.msg.tx < |start.txs| && h.pc.SyncMongo? && h.claimed && h.msg.user in start.balances
    requires h.pc.newBalance == start.balances[h.msg.user] - h.msg.amount
    requires Booked(start, db, h.msg, true, false, Completed, false)
    ensures var failed := f.sync != Replied || f.unlock != Replied;
      && Booked(start, Process(db, h, f).0, h.msg, true, failed && f.restore.Ran(),
                if failed && f.markFailed.Ran() then Failed else Completed, f.sync.Ran())
      && Process(db, h, f).1.pc == if failed then Nack else Ack
  {
    var (db1, h1) := HandlerStep(db, h, f.sync);
    StepBooked(start, db, h, f.sync, Completed, Completed);
    if f.sync != Replied { RollbackTail(start, db1, h1, f, true, Completed, f.sync.Ran()); }
    else { PassFromUnlock(start, db1, h1, f); }
    assert Process(db, h, f) == Process(db1, h1, f);
  }

  lemma PassFromComplete(start: Db, db: Db, h: Handler, f: Faults)
    requires h.msg.tx < |start.txs| && h.pc.Complete? && h.claimed && h.msg.user in start.balances
    requires h.pc.newBalance == start.balances[h.msg.user] - h.msg.amount
    requires Booked(start, db, h.msg, true, false, Processing, false)
    ensures var failed := f.complete != Replied || f.sync != Replied || f.unlock != Replied;
      && Booked(start, Process(db, h, f).0, h.msg, true, failed && f.restore.Ran(),
                if failed && f.markFailed.Ran() then Failed else if f.complete.Ran() then Completed else Processing,
                f.complete == Replied && f.sync.Ran())
      && Process(db, h, f).1.pc == if failed then Nack else Ack
  {
    var (db1, h1) := HandlerStep(db, h, f.complete);
    var st := if f.complete.Ran() then Completed else Processing;
    StepBooked(start, db, h, f.complete, Processing, st);
    if f.complete != Replied { RollbackTail(start, db1, h1, f, true, st, false); }
    else { PassFromSync(start, db1, h1, f); }
    assert Process(db, h, f) == Process(db1, h1, f);
  }

  lemma PassFromDeduct(start: Db, db: Db, h: Handler, f: Faults)
    requires Waiting(start, h.msg) && h.pc == Deduct && h.claimed
    requires h.msg.user in start.balances && start.balances[h.msg.user] >= h.msg.amount
    requires f.claim == f.read == Replied
    requires Booked(start, db, h.msg, false, false, Processing, false)
    ensures Booked(start, Process(db, h, f).0, h.msg, DebitedAfter(start, h.msg, f), CreditedAfter(start, h.msg, f),
                   StatusAfter(start, h.msg, f), SyncedAfter(start, h.msg, f))
    ensures Process(db, h, f).1.pc == if FailurePoint(start, h.msg, f) == Smooth(true) then Ack else Nack
  {
    var (db1, h1) := HandlerStep(db, h, f.deduct);
    assert Booked(start, db1, h.msg, f.deduct.Ran(), false, Processing, false);
    if f.deduct != Replied { RollbackTail(start, db1, h1, f, f.deduct.Ran(), Processing, false); }
    else { PassFromComplete(start, db1, h1, f); }
    assert Process(db, h, f) == Process(db1, h1, f);
  }

  lemma PassFromRead(start: Db, db: Db, h: Handler, f: Faults)
    requires Waiting(start, h.msg) && h.pc == ReadBalance && h.claimed && f.claim == Replied
    requires Booked(start, db, h.msg, false, false, Processing, false)
    ensures Booked(start, Process(db, h, f).0, h.msg, DebitedAfter(start, h.msg, f), CreditedAfter(start, h.msg, f),
                   StatusAfter(start, h.msg, f), SyncedAfter(start, h.msg, f))
    ensures Process(db, h, f).1.pc == if FailurePoint(start, h.msg, f) == Smooth(true) then Ack else Nack
  {
    var (db1, h1) := HandlerStep(db, h, f.read);
    if f.read != Replied {
      RollbackTail(start, db1, h1, f, false, Processing, false);
    } else if h1.pc == MarkFailed {
      assert Process(db1, h1, f) == HandlerStep(db1, h1, f.markFailed);
    } else {
      PassFromDeduct(start, db1, h1, f);
    }
    assert Process(db, h, f) == Process(db1, h1, f);
  }

  /** The whole first delivery, in closed form. */
  lemma PassBooks(db: Db, m: Message, f: Faults)
    requires Waiting(db, m)
    ensures Booked(db, Pass(db, m, f), m, DebitedAfter(db, m, f), CreditedAfter(db, m, f), StatusAfter(db, m, f),
                   SyncedAfter(db, m, f))
    ensures Process(db, Handler(m, false, Claim), f).1.pc ==
            if FailurePoint(db, m, f) == Smooth(true) then Ack else Nack
  {
    var h := Handler(m, false, Claim);
    ClaimBooks(db, m, f);
    var (db1, h1) := HandlerStep(db, h, f.claim);
    assert Process(db, h, f) == Process(db1, h1, f);
    if f.claim != Replied {
      RollbackTail(db, db1, h1, f, false, if f.claim.Ran() then Processing else Initiated, false);
    } else {
      PassFromRead(db, db1, h1, f);
    }
  }

  lemma ClaimBooks(db: Db, m: Message, f: Faults)
    requires Waiting(db, m)
    ensures var (db1, h1) := HandlerStep(db, Handler(m, false, Claim), f.claim);
      && h1 == Handler(m, f.claim == Replied, if f.claim == Replied then ReadBalance else Rollback)
      && Booked(db, db1, m, false, false, if f.claim.Ran() then Processing else Initiated, false)
  {}

  // ----- Exactness and agreement, exactly -----------------------------------------------------------

  /** The net effect on Redis is the amount if the transaction ends completed, and nothing otherwise. */
  predicate Exact(t: Tx) { t.deducts - t.restores == if t.status == Completed then 1 else 0 }

  /** A first delivery leaves its transaction exact if and only if: an error before the debit is not
      followed by a working rollback; an error after it is followed by one, unless `markAsFailed` is
      lost as well and `completed` had been saved. */
  lemma ExactIff(db: Db, m: Message, f: Faults)
    requires Waiting(db, m)
    ensures Exact(Pass(db, m, f).txs[m.tx]) <==>
      match FailurePoint(db, m, f)
      case Smooth(_) => true
      case BeforeDebit(_) => !(f.restore.Ran() && m.user in db.balances)
      case AfterDebit(saved, _) => if f.markFailed.Ran() || !saved then f.restore.Ran() else !f.restore.Ran()
  {
    PassBooks(db, m, f);
  }

  /** The Redis key, when present, carries the Mongo balance. */
  predicate Agree(db: Db, u: UserId) {
    u in db.balances && u in db.users ==> db.balances[u] == db.users[u].balance
  }

  /** A first delivery keeps Redis and Mongo in agreement if and only if: an error before the debit or
      after the Mongo update is not followed by a working rollback, and one in between is. */
  lemma AgreeIff(db: Db, m: Message, f: Faults)
    requires Waiting(db, m) && m.user in db.users && m.user in db.balances && Agree(db, m.user)
    ensures Agree(Pass(db, m, f), m.user) <==>
      match FailurePoint(db, m, f)
      case Smooth(_) => true
      case BeforeDebit(_) => !f.restore.Ran()
      case AfterDebit(_, synced) => f.restore.Ran() <==> !synced
  {
    PassBooks(db, m, f);
  }

  // ----- Redeliveries -------------------------------------------------------------------------------

  /** Successive deliveries of the same message. */
  function Passes(db: Db, m: Message, fs: seq<Faults>): Db {
    if fs == [] then db else Pass(Passes(db, m, fs[..|fs| - 1]), m, fs[|fs| - 1])
  }

  /** What is left to credit at a program point: the rollback happens at most once per delivery. */
  function ToCredit(pc: HandlerPc): nat { if Rank(pc) >= 2 then 1 else 0 }

  ghost predicate CreditsAtMost(db: Db, db': Db, m: Message, n: nat) {
    && m.tx < |db.txs| == |db'.txs|
    && db'.txs[m.tx].restores <= db.txs[m.tx].restores + n
    && (m.user in db'.balances <==> m.user in db.balances)
    && (m.user in db.balances ==> db'.balances[m.user] <= db.balances[m.user] + Times(n, m.amount))
  }

  lemma StepCredits(db: Db, h: Handler, o: Outcome)
    requires h.msg.tx < |db.txs|
    ensures var (db', h') := HandlerStep(db, h, o);
      h'.msg == h.msg && CreditsAtMost(db, db', h.msg, if h.pc == Rollback then 1 else 0)
  {
    HandlerTx(db, h, o);
    HandlerKeys(db, h, o);
    MoneyStep(db, h, o);
  }

  /** Only the rollback raises a balance. */
  lemma MoneyStep(db: Db, h: Handler, o: Outcome)
    ensures var (db', h') := HandlerStep(db, h, o); var u := h.msg.user;
      && h'.msg == h.msg
      && (u in db.balances && u in db'.balances ==> db'.balances[u] <= db.balances[u] + if h.pc == Rollback then h.msg.amount else 0)
  {
    if h.pc == Deduct { DeductMoney(db, h, o); } else if h.pc == Rollback { RollbackMoney(db, h, o); } else { NoMoney(db, h, o); }
  }

  lemma DeductMoney(db: Db, h: Handler, o: Outcome)
    requires h.pc == Deduct
    ensures var (db', h') := HandlerStep(db, h, o); var u := h.msg.user;
      h'.msg == h.msg && (u in db.balances && u in db'.balances ==> db'.balances[u] <= db.balances[u])
  {}

  lemma RollbackMoney(db: Db, h: Handler, o: Outcome)
    requires h.pc == Rollback
    ensures HandlerStep(db, h, o) == (if o.Ran() then RestoreBalance(db, h.msg) else db, h.(pc := MarkFailed))
  {}

  lemma NoMoney(db: Db, h: Handler, o: Outcome)
    requires h.pc != Deduct && h.pc != Rollback
    ensures var (db', h') := HandlerStep(db, h, o); h'.msg == h.msg && db'.balances == db.balances
  {}

  lemma {:induction false} ProcessCredits(db: Db, h: Handler, f: Faults)
    requires h.msg.tx < |db.txs|
    ensures CreditsAtMost(db, Process(db, h, f).0, h.msg, ToCredit(h.pc))
    decreases Rank(h.pc)
  {
    if Rank(h.pc) > 0 {
      var (db1, h1) := HandlerStep(db, h, f.At(h.pc));
      StepCredits(db, h, f.At(h.pc));
      ProcessCredits(db1, h1, f);
    }
  }

  function Times(n: nat, amount: nat): nat { if n == 0 then 0 else Times(n - 1, amount) + amount }

  /** However the deliveries fail, n of them add at most n times the amount to the user's balance. */
  lemma {:induction false} CreditsBounded(db: Db, m: Message, fs: seq<Faults>)
    requires m.tx < |db.txs| && m.user in db.balances
    ensures CreditsAtMost(db, Passes(db, m, fs), m, |fs|)
  {
    if fs != [] {
      var n := |fs| - 1;
      CreditsBounded(db, m, fs[..n]);
      ProcessCredits(Passes(db, m, fs[..n]), Handler(m, false, Claim), fs[n]);
    }
  }

  const LOST_CLAIM := Faults(Unsent, Replied, Replied, Replied, Replied, Replied, Replied, Replied, Replied)

  lemma LostClaimOnce(db: Db, m: Message)
    requires m.tx < |db.txs| && m.user in db.balances
    ensures Pass(db, m, LOST_CLAIM) == RestoreBalance(db, m)
  {
    var h := Handler(m, false, Claim);
    var (db1, h1) := HandlerStep(db, h, Unsent);
    var (db2, h2) := HandlerStep(db1, h1, Replied);
    assert Process(db, h, LOST_CLAIM) == Process(db1, h1, LOST_CLAIM);
    assert Process(db1, h1, LOST_CLAIM) == Process(db2, h2, LOST_CLAIM);
    assert Process(db2, h2, LOST_CLAIM) == HandlerStep(db2, h2, Replied);
  }

  /** The bound is reached: while the claim itself keeps failing, every delivery credits the user
      although nothing was ever deducted, and the transaction stays open. */
  lemma {:induction false} LostClaimsCredit(db: Db, m: Message, n: nat)
    requires Waiting(db, m) && m.user in db.balances
    ensures var db' := Passes(db, m, seq(n, _ => LOST_CLAIM));
      && m.user in db'.balances && db'.balances[m.user] == db.balances[m.user] + Times(n, m.amount)
      && |db'.txs| == |db.txs| && db'.txs[m.tx] == db.txs[m.tx].(restores := n)
  {
    if n > 0 {
      LostClaimsCredit(db, m, n - 1);
      var fs := seq(n, _ => LOST_CLAIM);
      assert fs[..n - 1] == seq(n - 1, _ => LOST_CLAIM);
      LostClaimOnce(Passes(db, m, fs[..n - 1]), m);
    }
  }
}

module Workers {
  import opened Base
  import opened RedisStore
  import opened MongoStore
  import opened PayoutProtocol
  import opened WorkerPass
  import Balances
  import DistributedLocks

  lemma StatusInView(docs: seq<TxDoc>, db: Db, i: nat, st: Status)
    requires i < |docs| && Forget(db).txs == ToTxs(docs)
    ensures Forget(SetStatus(db, i, st)).txs == ToTxs(docs[i := docs[i].(status := st)])
  {
    assert |docs| == |ToTxs(docs)| == |db.txs|;
    forall k | 0 <= k < |docs|
      ensures Forget(SetStatus(db, i, st)).txs[k] == ToTxs(docs[i := docs[i].(status := st)])[k]
    {
      assert Forget(db).txs[k] == ToTxs(docs)[k];
    }
  }

  lemma HistoryIsInvisible(db: Db, m: Message, b: int)
    ensures Forget(DeductBalance(db, m, b)).txs == Forget(db).txs
    ensures Forget(RestoreBalance(db, m)).txs == Forget(db).txs
  {}

  class WorkerService {
    const redis: Redis
    const mongo: Mongo
    const balance: Balances.BalanceService
    const lock: DistributedLocks.DistributedLock
    const transactions: Transactions
    const users: PayoutUsers

    constructor (redis: Redis, mongo: Mongo)
      ensures Wired() && this.redis == redis && this.mongo == mongo
    {
      this.redis, this.mongo := redis, mongo;
      balance := new Balances.BalanceService(redis);
      lock := new DistributedLocks.DistributedLock(redis);
      transactions := new Transactions(mongo);
      users := new PayoutUsers(mongo);
    }

    ghost predicate Wired() {
      balance.redis == redis && lock.redis == redis && transactions.mongo == mongo && users.mongo == mongo
    }

    /** The stores as the protocol sees them. */
    ghost function View(): Db
      reads redis, mongo
    {
      StoreView(redis, mongo)
    }

    /** The try block after the deduction. */
    method Settle(m: Message, newBalance: int, f: Faults, ghost db0: Db, ghost h0: Handler)
        returns (r: Result<(), Failure>, ghost db: Db, ghost h: Handler)
      requires Wired() && Forget(db0) == View() && h0 == Handler(m, true, Complete(newBalance)) && m.tx < |mongo.txs|
      modifies redis`locks, mongo
      ensures Forget(db) == View() && Process(db0, h0, f) == Process(db, h, f)
      ensures r == (if h.pc == Ack then Ok(()) else Err(Unexpected))
      ensures r.Ok? <==> f.complete == f.sync == f.unlock == Replied
      ensures h == Handler(m, true, if r.Ok? then Ack else Rollback)
      ensures |mongo.txs| == |old(mongo.txs)|
    {
      db, h := db0, h0;
      StatusInView(mongo.txs, db, m.tx, Completed);
      var saved := transactions.SaveStatus(m.tx, Completed, f.complete);
      db, h := HandlerStep(db, h, f.complete).0, HandlerStep(db, h, f.complete).1;
      assert Forget(db) == View() && Process(db0, h0, f) == Process(db, h, f);
      if saved.Err? { return Err(saved.error), db, h; }
      r, db, h := SyncAndRelease(m, newBalance, f, db, h);
    }

    method SyncAndRelease(m: Message, newBalance: int, f: Faults, ghost db0: Db, ghost h0: Handler)
        returns (r: Result<(), Failure>, ghost db: Db, ghost h: Handler)
      requires Wired() && Forget(db0) == View() && h0 == Handler(m, true, SyncMongo(newBalance))
      modifies redis`locks, mongo`users
      ensures Forget(db) == View() && Process(db0, h0, f) == Process(db, h, f)
      ensures r == (if h.pc == Ack then Ok(()) else Err(Unexpected))
      ensures r.Ok? <==> f.sync == f.unlock == Replied
      ensures h == Handler(m, true, if r.Ok? then Ack else Rollback)
    {
      db, h := db0, h0;
      var synced := users.SetBalance(m.user, newBalance, f.sync);
      db, h := HandlerStep(db, h, f.sync).0, HandlerStep(db, h, f.sync).1;
      assert Forget(db) == View() && Process(db0, h0, f) == Process(db, h, f);
      if synced.Err? { return Err(synced.error), db, h; }
      r, db, h := GiveBack(m, f, db, h);
    }

    method GiveBack(m: Message, f: Faults, ghost db0: Db, ghost h0: Handler) returns (r: Result<(), Failure>, ghost db: Db, ghost h: Handler)
      requires Wired() && Forget(db0) == View() && h0 == Handler(m, true, Unlock)
      modifies redis`locks
      ensures Forget(db) == View() && Process(db0, h0, f) == Process(db, h, f)
      ensures r == (if h.pc == Ack then Ok(()) else Err(Unexpected))
      ensures r.Ok? <==> f.unlock == Replied
      ensures h == Handler(m, true, if r.Ok? then Ack else Rollback)
    {
      db, h := db0, h0;
      var released := lock.Release(m.user, m.token, f.unlock);
      db, h := HandlerStep(db, h, f.unlock).0, HandlerStep(db, h, f.unlock).1;
      assert Forget(db) == View() && Process(db0, h0, f) == Process(db, h, f);
      r := if released.Err? then Err(Unexpected) else Ok(());
    }

    /** The try block from the balance check on, for the holder of the document. */
    method Pay(m: Message, f: Faults, ghost db0: Db, ghost h0: Handler)
        returns (r: Result<(), Failure>, ghost db: Db, ghost h: Handler)
      requires Wired() && Forget(db0) == View() && h0 == Handler(m, true, ReadBalance) && m.tx < |mongo.txs|
      modifies redis`balances, redis`locks, mongo
      ensures Forget(db) == View() && Process(db0, h0, f) == Process(db, h, f)
      ensures h == Handler(m, true, if r.Ok? then Ack else if r.error == Unexpected then Rollback else MarkFailed)
      ensures |mongo.txs| == |old(mongo.txs)|
      ensures var balances := old(View()).balances;
        r == if f.read != Replied then Err(Unexpected)
             else if m.user !in balances then Err(BalanceNotFound)
             else if balances[m.user] < m.amount then Err(InsufficientBalance)
             else if f.deduct == f.complete == f.sync == f.unlock == Replied then Ok(())
             else Err(Unexpected)
    {
      db, h := db0, h0;
      var current := balance.GetBalance(m.user, f.read);
      db, h := HandlerStep(db, h, f.read).0, HandlerStep(db, h, f.read).1;
      assert Process(db0, h0, f) == Process(db, h, f);
      if current.Err? { return Err(current.error), db, h; }
      if current.value.None? { return Err(BalanceNotFound), db, h; }
      if current.value.value < m.amount { return Err(InsufficientBalance), db, h; }

      HistoryIsInvisible(db, m, current.value.value - m.amount);
      var deducted := balance.DeductBalance(m.user, m.amount, f.deduct);
      db, h := HandlerStep(db, h, f.deduct).0, HandlerStep(db, h, f.deduct).1;
      assert Forget(db) == View() && Process(db0, h0, f) == Process(db, h, f);
      if deducted.Err? { return Err(deducted.error), db, h; }
      r, db, h := Settle(m, deducted.value, f, db, h);
    }

    /** The try block: claim the transaction, or find out why it cannot be claimed. */
    method TryToPay(m: Message, f: Faults) returns (r: Result<(), Failure>, claimed: bool, ghost db: Db, ghost h: Handler)
      requires Wired()
      modifies redis`balances, redis`locks, mongo
      ensures Forget(db) == View() && Process(old(View()), Handler(m, false, Claim), f) == Process(db, h, f)
      ensures h == Handler(m, claimed, if r.Ok? then Ack else if r.error == Unexpected then Rollback else MarkFailed)
      ensures claimed ==> m.tx < |mongo.txs|
      ensures claimed <==> f.claim == Replied && m.tx < |old(mongo.txs)| && old(mongo.txs)[m.tx].status == Initiated
      ensures var balances := old(View()).balances;
        r == if f.claim != Replied then Err(Unexpected)
             else if !claimed then
               if f.lookup != Replied then Err(Unexpected) else if m.tx < |old(mongo.txs)| then Ok(()) else Err(TransactionNotFound)
             else if f.read != Replied then Err(Unexpected)
             else if m.user !in balances then Err(BalanceNotFound)
             else if balances[m.user] < m.amount then Err(InsufficientBalance)
             else if f.deduct == f.complete == f.sync == f.unlock == Replied then Ok(())
             else Err(Unexpected)
    {
      claimed := false;
      db, h := View(), Handler(m, false, Claim);
      assert Forget(db).txs == db.txs;
      if m.tx < |mongo.txs| { StatusInView(mongo.txs, db, m.tx, Processing); }
      var won := transactions.ClaimForProcessing(m.tx, f.claim);
      db, h := HandlerStep(db, h, f.claim).0, HandlerStep(db, h, f.claim).1;
      assert Forget(db) == View();
      if won.Err? { return Err(won.error), false, db, h; }
      if !won.value {
        var existing := transactions.FindByTransactionId(m.tx, f.lookup);
        db, h := HandlerStep(db, h, f.lookup).0, HandlerStep(db, h, f.lookup).1;
        if existing.Err? { return Err(existing.error), false, db, h; }
        if existing.value.None? { return Err(TransactionNotFound), false, db, h; }
        return Ok(()), false, db, h;
      }
      claimed := true;
      r, db, h := Pay(m, f, db, h);
    }

    /** The rollback; its own errors are swallowed. */
    method Restore(m: Message, claimed: bool, f: Faults, ghost db0: Db) returns (ghost db: Db, ghost h: Handler)
      requires Wired() && Forget(db0) == View()
      modifies redis`balances
      ensures Forget(db) == View() && h == Handler(m, claimed, MarkFailed)
      ensures Process(db0, Handler(m, claimed, Rollback), f) == Process(db, h, f)
    {
      ghost var h0 := Handler(m, claimed, Rollback);
      HistoryIsInvisible(db0, m, 0);
      var restored := balance.AddBalance(m.user, m.amount, f.restore);
      db, h := HandlerStep(db0, h0, f.restore).0, HandlerStep(db0, h0, f.restore).1;
    }

    /** The catch block: undo an unexpected error, then mark the transaction when it was claimed. */
    method Fail(m: Message, e: Failure, claimed: bool, f: Faults, ghost db0: Db, ghost h0: Handler) returns (r: Failure)
      requires Wired() && Forget(db0) == View() && (claimed ==> m.tx < |mongo.txs|)
      requires h0 == Handler(m, claimed, if e == Unexpected then Rollback else MarkFailed)
      modifies redis`balances, mongo`txs
      ensures r == if claimed && f.markFailed != Replied then Unexpected else e
      ensures View() == Forget(Process(db0, h0, f).0) && Process(db0, h0, f).1.pc == Nack
    {
      ghost var db, h := db0, h0;
      r := e;
      if e == Unexpected {
        db, h := Restore(m, claimed, f, db);
      }
      assert h == Handler(m, claimed, MarkFailed);
      if claimed {
        StatusInView(mongo.txs, db, m.tx, Failed);
        var saved := transactions.SaveStatus(m.tx, Failed, f.markFailed);
        if saved.Err? { r := saved.error; }
      }
      db, h := HandlerStep(db, h, f.markFailed).0, HandlerStep(db, h, f.markFailed).1;
      assert Forget(db) == View() && Process(db0, h0, f) == Process(db, h, f);
    }

    /** One delivery: the stores end up as the protocol says, and the message is acknowledged exactly
        when no error is rethrown. */
    method ProcessMessage(m: Message, f: Faults) returns (r: Result<(), Failure>)
      requires Wired()
      modifies redis`balances, redis`locks, mongo
      ensures View() == Forget(Process(old(View()), Handler(m, false, Claim), f).0)
      // The first failure is rethrown, unless marking the claimed transaction fails as well.
      ensures var balances := old(View()).balances;
        var claimed := f.claim == Replied && m.tx < |old(mongo.txs)| && old(mongo.txs)[m.tx].status == Initiated;
        var first :=
          if f.claim != Replied then Some(Unexpected)
          else if !claimed then
            if f.lookup != Replied then Some(Unexpected) else if m.tx < |old(mongo.txs)| then None else Some(TransactionNotFound)
          else if f.read != Replied then Some(Unexpected)
          else if m.user !in balances then Some(BalanceNotFound)
          else if balances[m.user] < m.amount then Some(InsufficientBalance)
          else if f.deduct == f.complete == f.sync == f.unlock == Replied then None
          else Some(Unexpected);
        r == if first.None? then Ok(()) else if claimed && f.markFailed != Replied then Err(Unexpected) else Err(first.value)
      ensures r.Ok? <==> Process(old(View()), Handler(m, false, Claim), f).1.pc == Ack
    {
      var claimed;
      ghost var db, h;
      r, claimed, db, h := TryToPay(m, f);
      if r.Err? {
        var e := Fail(m, r.error, claimed, f, db, h);
        r := Err(e);
      }
    }
  }
}
