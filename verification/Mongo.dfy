/** The Mongo collections of the payout pipeline and the conditional updates on them. */
module MongoStore {
  import opened Base
  import opened PayoutProtocol
  import opened RedisStore

  datatype TxDoc = TxDoc(user: UserId, amount: nat, currency: string, status: Status)

  /** A record of type `adjustment`, kept apart from the payouts. */
  datatype Adjustment = Adjustment(user: UserId, amount: nat, credit: bool, before: int, after: int)

  class Mongo {
    var txs: seq<TxDoc>
    var adjustments: seq<Adjustment>
    var users: map<UserId, User>

    constructor (users: map<UserId, User>)
      ensures this.txs == [] && adjustments == [] && this.users == users
    {
      this.txs, adjustments, this.users := [], [], users;
    }
  }

  /** Both stores as the protocol sees them. */
  ghost function StoreView(redis: Redis, mongo: Mongo): Db
    reads redis, mongo
  {
    Db(LiveAt(redis.balances, redis.now), LiveAt(redis.locks, redis.now), mongo.users, ToTxs(mongo.txs), map[], map[], redis.nextToken)
  }

  function ToTx(d: TxDoc): Tx { Tx(d.user, d.amount, d.currency, d.status, 0, 0) }

  function ToTxs(docs: seq<TxDoc>): seq<Tx> {
    seq(|docs|, i requires 0 <= i < |docs| => ToTx(docs[i]))
  }

  class Transactions {
    const mongo: Mongo

    constructor (mongo: Mongo)
      ensures this.mongo == mongo
    {
      this.mongo := mongo;
    }

    /** `findOneAndUpdate` filtered on `initiated`: true when this caller won. */
    method ClaimForProcessing(i: TxId, o: Outcome) returns (r: Result<bool, Failure>)
      modifies mongo`txs
      ensures var won := i < |old(mongo.txs)| && old(mongo.txs)[i].status == Initiated;
        && r == (if o != Replied then Err(Unexpected) else Ok(won))
        && mongo.txs == (if o.Ran() && won then old(mongo.txs)[i := old(mongo.txs)[i].(status := Processing)] else old(mongo.txs))
    {
      var won := i < |mongo.txs| && mongo.txs[i].status == Initiated;
      if o.Ran() && won {
        mongo.txs := mongo.txs[i := mongo.txs[i].(status := Processing)];
      }
      r := if o != Replied then Err(Unexpected) else Ok(won);
    }

    method FindByTransactionId(i: TxId, o: Outcome) returns (r: Result<Option<TxDoc>, Failure>)
      ensures r == if o != Replied then Err(Unexpected) else Ok(if i < |mongo.txs| then Some(mongo.txs[i]) else None)
    {
      r := if o != Replied then Err(Unexpected) else Ok(if i < |mongo.txs| then Some(mongo.txs[i]) else None);
    }

    /** `markAsCompleted` and `markAsFailed`: an unconditional save of the status. */
    method SaveStatus(i: TxId, st: Status, o: Outcome) returns (r: Result<(), Failure>)
      requires i < |mongo.txs|
      modifies mongo`txs
      ensures r == if o != Replied then Err(Unexpected) else Ok(())
      ensures mongo.txs == if o.Ran() then old(mongo.txs)[i := old(mongo.txs)[i].(status := st)] else old(mongo.txs)
    {
      if o.Ran() {
        mongo.txs := mongo.txs[i := mongo.txs[i].(status := st)];
      }
      r := if o != Replied then Err(Unexpected) else Ok(());
    }

    method Create(d: TxDoc, o: Outcome) returns (r: Result<TxId, Failure>)
      modifies mongo`txs
      ensures r == if o != Replied then Err(Unexpected) else Ok(|old(mongo.txs)|)
      ensures mongo.txs == if o.Ran() then old(mongo.txs) + [d] else old(mongo.txs)
    {
      var i := |mongo.txs|;
      if o.Ran() {
        mongo.txs := mongo.txs + [d];
      }
      r := if o != Replied then Err(Unexpected) else Ok(i);
    }

    method CreateAdjustment(a: Adjustment, o: Outcome) returns (r: Result<(), Failure>)
      modifies mongo`adjustments
      ensures r == if o != Replied then Err(Unexpected) else Ok(())
      ensures mongo.adjustments == if o.Ran() then old(mongo.adjustments) + [a] else old(mongo.adjustments)
    {
      if o.Ran() { mongo.adjustments := mongo.adjustments + [a]; }
      r := if o != Replied then Err(Unexpected) else Ok(());
    }
  }

  class PayoutUsers {
    const mongo: Mongo

    constructor (mongo: Mongo)
      ensures this.mongo == mongo
    {
      this.mongo := mongo;
    }

    method FindByUserId(u: UserId, o: Outcome) returns (r: Result<Option<User>, Failure>)
      ensures r == if o != Replied then Err(Unexpected) else Ok(if u in mongo.users then Some(mongo.users[u]) else None)
    {
      r := if o != Replied then Err(Unexpected) else Ok(if u in mongo.users then Some(mongo.users[u]) else None);
    }

    method SetBalance(u: UserId, v: int, o: Outcome) returns (r: Result<(), Failure>)
      modifies mongo`users
      ensures r == if o != Replied then Err(Unexpected) else Ok(())
      ensures mongo.users == if o.Ran() && u in old(mongo.users)
                             then old(mongo.users)[u := old(mongo.users)[u].(balance := v)] else old(mongo.users)
    {
      if o.Ran() && u in mongo.users {
        mongo.users := mongo.users[u := mongo.users[u].(balance := v)];
      }
      r := if o != Replied then Err(Unexpected) else Ok(());
    }
  }
}
