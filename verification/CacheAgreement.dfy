/** Agreement of the Redis balance with the Mongo balance, over sequences of whole operations. */
module CacheAgreement {
  import opened Base
  import opened PayoutProtocol
  import opened PayoutLedger
  import opened WorkerPass

  // ----- Administrator adjustments under faults -----------------------------------------------------

  predicate Allowed(db: Db, u: UserId, amount: nat, credit: bool) {
    u in db.users && amount > 0 && (credit || db.users[u].balance >= amount)
  }

  function Adjusted(db: Db, u: UserId, amount: nat, credit: bool): int
    requires u in db.users
  {
    if credit then db.users[u].balance + amount else db.users[u].balance - amount
  }

  predicate ScriptAccepts(db: Db, u: UserId, amount: nat, credit: bool) {
    if credit then u in db.balances else TryDeduct(db, u, amount).Some?
  }

  /** The Redis side of `adjustBalance`: the script, and a re-sync from Mongo when the script did not
      report success. */
  function AdjustRedis(db: Db, u: UserId, amount: nat, credit: bool, after: int, script: Outcome, sync: Outcome): Db {
    var accepted := ScriptAccepts(db, u, amount, credit);
    var delta: int := if credit then amount else 0 - amount;
    var db' := if script.Ran() && accepted
               then PutBalance(db, u, db.balances[u] + delta, delta) else db;
    if (script == Replied && accepted) || !sync.Ran() then db'
    else Resync(db', u, after, if script.Ran() && accepted then 0 else delta)
  }

  lemma AdjustRedisBalances(db: Db, u: UserId, amount: nat, credit: bool, after: int, script: Outcome, sync: Outcome)
    ensures var accepted := ScriptAccepts(db, u, amount, credit);
      var changed := if script.Ran() && accepted
                     then db.balances[u := db.balances[u] + (if credit then amount else 0) - (if credit then 0 else amount)] else db.balances;
      AdjustRedis(db, u, amount, credit, after, script, sync).balances ==
      if (script == Replied && accepted) || !sync.Ran() then changed else changed[u := after]
  {}

  /** The stores after `adjustBalance`: Mongo first, then Redis. */
  function AdjustWith(db: Db, u: UserId, amount: nat, credit: bool, write: Outcome, script: Outcome, sync: Outcome): Db {
    if !Allowed(db, u, amount, credit) then db
    else
      var after := Adjusted(db, u, amount, credit);
      var db1 := if write.Ran() then SetUserBalance(db, u, after) else db;
      if write != Replied then db1 else AdjustRedis(db1, u, amount, credit, after, script, sync)
  }

  lemma AdjustWithoutFaults(db: Db, u: UserId, amount: nat, credit: bool)
    ensures AdjustWith(db, u, amount, credit, Replied, Replied, Replied) == AdminAdjust(db, u, amount, credit)
  {}

  /** An allowed adjustment keeps agreement if and only if the Mongo write never happens, or both sides
      are written: the write is answered, and the script or the re-sync takes effect.  (With no key in
      Redis there is nothing to disagree.) */
  lemma AdjustAgreesIff(db: Db, u: UserId, amount: nat, credit: bool, write: Outcome, script: Outcome, sync: Outcome)
    requires Agree(db, u) && Allowed(db, u, amount, credit)
    ensures Agree(AdjustWith(db, u, amount, credit, write, script, sync), u) <==>
      || u !in db.balances
      || write == Unsent
      || (write == Replied && (script.Ran() || sync.Ran()))
  {}

  // ----- Sequences of whole operations --------------------------------------------------------------

  datatype Op =
    | GetBalance(user: UserId)
    | Adjust(user: UserId, amount: nat, credit: bool)
    | Expire(user: UserId)
    | Payout(user: UserId, amount: nat, currency: string, f: Faults)

  /** A payout from the first-access sync to the end of its first delivery. */
  function PayOut(db: Db, u: UserId, amount: nat, currency: string, f: Faults): Db {
    var db1 := ReadThrough(db, u);
    if TryDeduct(db1, u, amount).None? || amount == 0 then db1
    else
      var db2 := db1.(txs := db1.txs + [Tx(u, amount, currency, Initiated, 0, 0)]);
      Pass(db2, Message(|db1.txs|, u, amount, currency, 0, 0), f)
  }

  function Perform(db: Db, op: Op): Db {
    match op
    case GetBalance(u) => ReadThrough(db, u)
    case Adjust(u, amount, credit) => AdminAdjust(db, u, amount, credit)
    case Expire(u) => DropBalance(db, u)
    case Payout(u, amount, currency, f) => PayOut(db, u, amount, currency, f)
  }

  function PerformAll(db: Db, ops: seq<Op>): Db {
    if ops == [] then db else Perform(PerformAll(db, ops[..|ops| - 1]), ops[|ops| - 1])
  }

  /** The payout succeeds, or its failure lies after the debit and before the Mongo update with a
      working rollback, or outside those two with a rollback that does not run. */
  predicate FaultsAgree(f: Faults) {
    if f.claim != Replied || f.read != Replied || f.deduct == Unsent then !f.restore.Ran()
    else if f.deduct == ReplyLost || f.complete != Replied || f.sync == Unsent then f.restore.Ran()
    else if f.sync == ReplyLost || f.unlock != Replied then !f.restore.Ran()
    else true
  }

  ghost predicate AgreeAll(db: Db) {
    && (forall u :: u in db.balances ==> u in db.users && db.balances[u] == db.users[u].balance)
    && (forall u :: u in db.users ==> db.users[u].balance >= 0)
  }

  lemma PayoutAgrees(db: Db, u: UserId, amount: nat, currency: string, f: Faults)
    requires AgreeAll(db) && FaultsAgree(f)
    ensures AgreeAll(PayOut(db, u, amount, currency, f))
  {
    var db1 := ReadThrough(db, u);
    if TryDeduct(db1, u, amount).Some? && amount > 0 {
      var db2 := db1.(txs := db1.txs + [Tx(u, amount, currency, Initiated, 0, 0)]);
      var m := Message(|db1.txs|, u, amount, currency, 0, 0);
      PassBooks(db2, m, f);
      AgreeIff(db2, m, f);
    }
  }

  /** Whenever a balance key exists it equals the Mongo balance, which is never negative. */
  lemma {:induction false} CacheAlwaysAgrees(db: Db, ops: seq<Op>)
    requires AgreeAll(db)
    requires forall k :: 0 <= k < |ops| && ops[k].Payout? ==> FaultsAgree(ops[k].f)
    ensures AgreeAll(PerformAll(db, ops))
  {
    if ops != [] {
      var n := |ops| - 1;
      CacheAlwaysAgrees(db, ops[..n]);
      PerformAgrees(PerformAll(db, ops[..n]), ops[n]);
    }
  }

  lemma PerformAgrees(db: Db, op: Op)
    requires AgreeAll(db) && (op.Payout? ==> FaultsAgree(op.f))
    ensures AgreeAll(Perform(db, op))
  {
    match op
    case Payout(u, amount, currency, f) => PayoutAgrees(db, u, amount, currency, f);
    case Adjust(u, amount, credit) => AdjustKeepsAll(db, u, amount, credit);
    case _ =>
  }

  lemma AdjustKeepsAll(db: Db, u: UserId, amount: nat, credit: bool)
    requires AgreeAll(db)
    ensures AgreeAll(AdminAdjust(db, u, amount, credit))
  {}

  /** The condition on the faults is necessary as well: a funded payout with any others breaks the
      agreement of its user. */
  lemma OtherFaultsDisagree(db: Db, u: UserId, amount: nat, currency: string, f: Faults)
    requires AgreeAll(db) && u in db.users && 0 < amount <= db.users[u].balance && !FaultsAgree(f)
    ensures !AgreeAll(PayOut(db, u, amount, currency, f))
  {
    var db1 := ReadThrough(db, u);
    var db2 := db1.(txs := db1.txs + [Tx(u, amount, currency, Initiated, 0, 0)]);
    var m := Message(|db1.txs|, u, amount, currency, 0, 0);
    PassBooks(db2, m, f);
    AgreeIff(db2, m, f);
  }
}

module Admin {
  import opened Base
  import opened RedisStore
  import opened MongoStore
  import opened PayoutProtocol
  import opened CacheAgreement
  import Balances

  datatype AdjustError = BadType | ReasonRequired | NoSuchUser | BadAmount | DebitExceedsBalance | StoreFailed

  /** The first check that fails. */
  function Refusal(db: Db, u: UserId, amount: int, kind: string, reason: string, load: Outcome): Option<AdjustError> {
    if kind != "credit" && kind != "debit" then Some(BadType)
    else if |reason| < 5 then Some(ReasonRequired)
    else if load != Replied then Some(StoreFailed)
    else if u !in db.users then Some(NoSuchUser)
    else if amount <= 0 then Some(BadAmount)
    else if kind == "debit" && db.users[u].balance < amount then Some(DebitExceedsBalance)
    else None
  }

  predicate Accepted(db: Db, u: UserId, amount: int, kind: string, reason: string, load: Outcome)
    ensures Accepted(db, u, amount, kind, reason, load) ==> amount > 0 && Allowed(db, u, amount, kind == "credit")
  {
    Refusal(db, u, amount, kind, reason, load).None?
  }

  /** Redis has been changed, by the script or by the re-sync. */
  predicate Reached(db: Db, u: UserId, amount: nat, credit: bool, script: Outcome, sync: Outcome) {
    (script == Replied && ScriptAccepts(db, u, amount, credit)) || sync == Replied
  }

  function Record(db: Db, u: UserId, amount: nat, credit: bool): Adjustment
    requires u in db.users
  {
    Adjustment(u, amount, credit, db.users[u].balance, Adjusted(db, u, amount, credit))
  }

  /** The answer: the new balance when every check passed and every store answered. */
  function Reply(db: Db, u: UserId, amount: int, kind: string, reason: string, load: Outcome, write: Outcome,
                 script: Outcome, sync: Outcome, record: Outcome): Result<int, AdjustError> {
    if !Accepted(db, u, amount, kind, reason, load) then Err(Refusal(db, u, amount, kind, reason, load).GetOr(StoreFailed))
    else if write == Replied && Reached(db, u, amount, kind == "credit", script, sync) && record == Replied
    then Ok(Adjusted(db, u, amount, kind == "credit"))
    else Err(StoreFailed)
  }

  /** The cached balances afterwards: none of it without the Mongo write; the script moves the balance where it
      `fits`; and whatever it reports but success is followed by the re-sync. */
  function Moved(balances: map<UserId, int>, u: UserId, delta: int, fits: bool, after: int, write: Outcome, script: Outcome, sync: Outcome):
      map<UserId, int>
    requires fits ==> u in balances
  {
    if write != Replied then balances
    else
      var scripted := if fits && script != Unsent then balances[u := balances[u] + delta] else balances;
      if (fits && script == Replied) || sync == Unsent then scripted else scripted[u := after]
  }

  /** The same in terms of the specification. */
  lemma AdjustIs(db: Db, u: UserId, amount: nat, credit: bool, write: Outcome, script: Outcome, sync: Outcome)
    requires Allowed(db, u, amount, credit)
    ensures var db' := AdjustWith(db, u, amount, credit, write, script, sync);
      var before := db.users[u].balance;
      var after := if credit then before + amount else before - amount;
      var fits := u in db.balances && (credit || db.balances[u] >= amount);
      && db'.users == (if write == Unsent then db.users else db.users[u := db.users[u].(balance := after)])
      && db'.balances == Moved(db.balances, u, if credit then amount else 0 - amount, fits, after, write, script, sync)
      && (Reached(db, u, amount, credit, script, sync) <==> (script == Replied && fits) || sync == Replied)
  {
    AdjustRedisBalances(if write.Ran() then SetUserBalance(db, u, Adjusted(db, u, amount, credit)) else db, u, amount, credit,
                        Adjusted(db, u, amount, credit), script, sync);
  }

  class AdminService {
    const redis: Redis
    const mongo: Mongo
    const balance: Balances.BalanceService
    const users: PayoutUsers
    const transactions: Transactions
    const cacheTtl: nat

    constructor (redis: Redis, mongo: Mongo, cacheTtl: nat)
      requires cacheTtl > 0
      ensures Wired() && this.redis == redis && this.mongo == mongo
    {
      this.redis, this.mongo, this.cacheTtl := redis, mongo, cacheTtl;
      balance := new Balances.BalanceService(redis);
      users := new PayoutUsers(mongo);
      transactions := new Transactions(mongo);
    }

    ghost predicate Wired() { balance.redis == redis && users.mongo == mongo && transactions.mongo == mongo && cacheTtl > 0 }

    ghost function View(): Db
      reads redis, mongo
    {
      StoreView(redis, mongo)
    }

    method RunScript(u: UserId, amount: nat, credit: bool, script: Outcome) returns (ok: bool)
      requires Wired()
      modifies redis`balances
      ensures ok <==> script == Replied && ScriptAccepts(old(View()), u, amount, credit)
      ensures View().balances == if script.Ran() && ScriptAccepts(old(View()), u, amount, credit)
                                 then old(View()).balances[u := Balance(old(View()), u) + (if credit then amount else 0) - (if credit then 0 else amount)]
                                 else old(View()).balances
    {
      if credit {
        var added := balance.AddBalance(u, amount, script);
        ok := added.Ok?;
      } else {
        var deducted := balance.DeductBalance(u, amount, script);
        ok := deducted.Ok?;
      }
    }

    method ChangeRedis(u: UserId, amount: nat, credit: bool, after: int, script: Outcome, sync: Outcome) returns (ok: bool)
      requires Wired()
      modifies redis`balances
      ensures ok <==> (script == Replied && ScriptAccepts(old(View()), u, amount, credit)) || sync == Replied
      ensures View().balances == AdjustRedis(old(View()), u, amount, credit, after, script, sync).balances
    {
      AdjustRedisBalances(View(), u, amount, credit, after, script, sync);
      var changed := RunScript(u, amount, credit, script);
      if changed { return true; }
      ghost var mid := View();
      var synced := balance.SyncBalance(u, after, cacheTtl, sync);
      assert View().balances == if sync.Ran() then mid.balances[u := after] else mid.balances;
      ok := synced.Ok?;
    }

    /** Everything before the record is written: both balances changed, or the error. */
    method ChangeBalances(u: UserId, amount: nat, credit: bool, before: int, write: Outcome, script: Outcome, sync: Outcome) returns (ok: bool)
      requires Wired() && Allowed(View(), u, amount, credit) && before == View().users[u].balance
      modifies redis`balances, mongo`users
      ensures ok <==> write == Replied && Reached(old(View()), u, amount, credit, script, sync)
      ensures View() == AdjustWith(old(View()), u, amount, credit, write, script, sync).(deposits := map[], drift := map[])
    {
      var after := if credit then before + amount else before - amount;
      var written := users.SetBalance(u, after, write);
      assert View() == if write.Ran() then SetUserBalance(old(View()), u, after) else old(View());
      if written.Err? { return false; }
      ok := ChangeRedis(u, amount, credit, after, script, sync);
    }

    method Adjust(u: UserId, amount: nat, credit: bool, before: int, write: Outcome, script: Outcome, sync: Outcome, record: Outcome)
        returns (r: Result<int, AdjustError>)
      requires Wired() && Allowed(View(), u, amount, credit) && before == View().users[u].balance
      modifies redis`balances, mongo`users, mongo`adjustments
      ensures View() == AdjustWith(old(View()), u, amount, credit, write, script, sync).(deposits := map[], drift := map[])
      ensures var changed := write == Replied && Reached(old(View()), u, amount, credit, script, sync);
        && r == (if changed && record == Replied then Ok(Adjusted(old(View()), u, amount, credit)) else Err(StoreFailed))
        && mongo.adjustments == (if changed && record.Ran() then old(mongo.adjustments) + [Record(old(View()), u, amount, credit)]
                                 else old(mongo.adjustments))
      ensures r.Ok? ==> u in mongo.users && r.value == mongo.users[u].balance
      ensures var balances := old(View()).balances;
        var after := if credit then before + amount else before - amount;
        var fits := u in balances && (credit || balances[u] >= amount);
        var changed := write == Replied && ((script == Replied && fits) || sync == Replied);
        && r == (if changed && record == Replied then Ok(after) else Err(StoreFailed))
        && mongo.users == (if write == Unsent then old(mongo.users) else old(mongo.users)[u := old(mongo.users)[u].(balance := after)])
        && mongo.adjustments == (if changed && record != Unsent then old(mongo.adjustments) + [Adjustment(u, amount, credit, before, after)]
                                 else old(mongo.adjustments))
        && View().balances == Moved(balances, u, if credit then amount else 0 - amount, fits, after, write, script, sync)
    {
      AdjustIs(View(), u, amount, credit, write, script, sync);
      var after := if credit then before + amount else before - amount;
      var ok := ChangeBalances(u, amount, credit, before, write, script, sync);
      if !ok { return Err(StoreFailed); }
      var recorded := transactions.CreateAdjustment(Adjustment(u, amount, credit, before, after), record);
      r := if recorded.Ok? then Ok(after) else Err(StoreFailed);
    }

    /** The checks before anything is written; the balance that the document shows when they pass. */
    method Admit(u: UserId, amount: int, kind: string, reason: string, load: Outcome) returns (r: Result<int, AdjustError>)
      requires Wired()
      ensures var refusal := Refusal(View(), u, amount, kind, reason, load);
        r == if refusal.Some? then Err(refusal.value) else Ok(View().users[u].balance)
    {
      if kind != "credit" && kind != "debit" { return Err(BadType); }
      if |reason| < 5 { return Err(ReasonRequired); }
      var user := users.FindByUserId(u, load);
      if user.Err? { return Err(StoreFailed); }
      if user.value.None? { return Err(NoSuchUser); }
      if amount <= 0 { return Err(BadAmount); }
      var before := user.value.value.balance;
      if kind == "debit" && before < amount { return Err(DebitExceedsBalance); }
      r := Ok(before);
    }

    /** `reason` is the trimmed reason text.  The record is written last: when that fails the caller gets
        an error although both balances have changed. */
    method AdjustBalance(u: UserId, amount: int, kind: string, reason: string, load: Outcome, write: Outcome, script: Outcome, sync: Outcome,
                         record: Outcome)
        returns (r: Result<int, AdjustError>)
      requires Wired()
      modifies redis`balances, mongo`users, mongo`adjustments
      // The first check that fails refuses, and nothing changes.
      ensures var known := u in old(mongo.users);
        var first :=
          if kind !in {"credit", "debit"} then Some(BadType)
          else if |reason| < 5 then Some(ReasonRequired)
          else if load != Replied then Some(StoreFailed)
          else if !known then Some(NoSuchUser)
          else if amount <= 0 then Some(BadAmount)
          else if kind == "debit" && old(mongo.users)[u].balance < amount then Some(DebitExceedsBalance)
          else None;
        && (first.Some? ==> r == Err(first.value) && View() == old(View()) && mongo.adjustments == old(mongo.adjustments))
        // Otherwise Mongo comes first, then Redis by the script or by the re-sync, then the record.
        && (first.None? ==>
              var before, balances := old(mongo.users)[u].balance, old(View()).balances;
              var after := if kind == "credit" then before + amount else before - amount;
              var fits := u in balances && (kind == "credit" || balances[u] >= amount);
              var changed := write == Replied && ((script == Replied && fits) || sync == Replied);
              && r == (if changed && record == Replied then Ok(after) else Err(StoreFailed))
              && mongo.users == (if write == Unsent then old(mongo.users) else old(mongo.users)[u := old(mongo.users)[u].(balance := after)])
              && mongo.adjustments == (if changed && record != Unsent
                   then old(mongo.adjustments) + [Adjustment(u, amount, kind == "credit", before, after)] else old(mongo.adjustments))
              && View().balances == Moved(balances, u, if kind == "credit" then amount else 0 - amount, fits, after, write, script, sync))
      ensures r.Ok? ==> u in mongo.users && r.value == mongo.users[u].balance
      ensures r == Reply(old(View()), u, amount, kind, reason, load, write, script, sync, record)
      ensures Accepted(old(View()), u, amount, kind, reason, load) ==>
        View() == AdjustWith(old(View()), u, amount, kind == "credit", write, script, sync).(deposits := map[], drift := map[])
      ensures !Accepted(old(View()), u, amount, kind, reason, load) ==> View() == old(View())
      ensures var changed := Accepted(old(View()), u, amount, kind, reason, load) && write == Replied
                             && Reached(old(View()), u, amount, kind == "credit", script, sync);
        mongo.adjustments == if changed && record.Ran()
                             then old(mongo.adjustments) + [Record(old(View()), u, amount, kind == "credit")] else old(mongo.adjustments)
    {
      var admitted := Admit(u, amount, kind, reason, load);
      if admitted.Err? { return Err(admitted.error); }
      r := Adjust(u, amount, kind == "credit", admitted.value, write, script, sync, record);
    }
  }
}
