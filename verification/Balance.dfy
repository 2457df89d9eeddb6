/** `BalanceService`: the balance keys in Redis and the two scripts that change them atomically. */
module Balances {
  import opened Base
  import opened RedisStore

  lemma LiveUpdate(m: map<UserId, Entry<int>>, now: nat, u: UserId, v: int)
    requires u in LiveAt(m, now)
    ensures LiveAt(m[u := Entry(v, m[u].expires)], now) == LiveAt(m, now)[u := v]
  {}

  class BalanceService {
    const redis: Redis

    constructor (redis: Redis)
      ensures this.redis == redis
    {
      this.redis := redis;
    }

    /** The balances a client sees. */
    ghost function Live(): map<UserId, int>
      reads redis
    {
      LiveAt(redis.balances, redis.now)
    }

    method GetBalance(u: UserId, o: Outcome) returns (r: Result<Option<int>, Failure>)
      ensures r == if o != Replied then Err(Unexpected) else Ok(if u in Live() then Some(Live()[u]) else None)
    {
      if o != Replied { return Err(Unexpected); }
      r := Ok(if u in redis.balances && redis.balances[u].Live(redis.now) then Some(redis.balances[u].value) else None);
    }

    method HasSufficientBalance(u: UserId, amount: nat, o: Outcome) returns (r: Result<bool, Failure>)
      ensures r == if o != Replied then Err(Unexpected) else Ok(u in Live() && Live()[u] >= amount)
    {
      var balance := GetBalance(u, o);
      if balance.Err? { return Err(balance.error); }
      r := Ok(balance.value.Some? && balance.value.value >= amount);
    }

    method SyncBalance(u: UserId, v: int, ttl: nat, o: Outcome) returns (r: Result<(), Failure>)
      requires ttl > 0
      modifies redis`balances
      ensures r == if o != Replied then Err(Unexpected) else Ok(())
      ensures redis.balances == if o.Ran() then old(redis.balances)[u := Entry(v, Some(redis.now + ttl))] else old(redis.balances)
      ensures Live() == if o.Ran() then old(Live())[u := v] else old(Live())
    {
      if o.Ran() {
        redis.balances := redis.balances[u := Entry(v, Some(redis.now + ttl))];
      }
      r := if o != Replied then Err(Unexpected) else Ok(());
    }

    /** The write at the end of both scripts: the remaining TTL is read and put back. */
    method Overwrite(u: UserId, v: int)
      requires u in Live()
      modifies redis`balances
      ensures redis.balances == old(redis.balances)[u := Entry(v, old(redis.balances)[u].expires)]
      ensures Live() == old(Live())[u := v]
    {
      LiveUpdate(redis.balances, redis.now, u, v);
      var pttl := if redis.balances[u].expires.None? then -1 else redis.balances[u].expires.value - redis.now;
      redis.balances := redis.balances[u := Entry(v, if pttl > 0 then Some(redis.now + pttl) else None)];
    }

    method DeductBalance(u: UserId, amount: nat, o: Outcome) returns (r: Result<int, Failure>)
      modifies redis`balances
      ensures r == if o != Replied then Err(Unexpected)
                   else if u !in old(Live()) then Err(BalanceNotFound)
                   else if old(Live())[u] < amount then Err(InsufficientBalance)
                   else Ok(old(Live())[u] - amount)
      ensures Live() == if o.Ran() && u in old(Live()) && old(Live())[u] >= amount
                        then old(Live())[u := old(Live())[u] - amount] else old(Live())
      ensures forall w :: w in redis.balances <==> w in old(redis.balances)
      ensures forall w :: w in redis.balances ==> redis.balances[w].expires == old(redis.balances)[w].expires
    {
      if u in redis.balances && redis.balances[u].Live(redis.now) {
        var current := redis.balances[u].value;
        if current < amount {
          r := Err(InsufficientBalance);
        } else {
          if o.Ran() { Overwrite(u, current - amount); }
          r := Ok(current - amount);
        }
      } else {
        r := Err(BalanceNotFound);
      }
      if o != Replied { r := Err(Unexpected); }
    }

    method AddBalance(u: UserId, amount: nat, o: Outcome) returns (r: Result<int, Failure>)
      modifies redis`balances
      ensures r == if o != Replied then Err(Unexpected)
                   else if u !in old(Live()) then Err(BalanceNotFound)
                   else Ok(old(Live())[u] + amount)
      ensures Live() == if o.Ran() && u in old(Live()) then old(Live())[u := old(Live())[u] + amount] else old(Live())
      ensures forall w :: w in redis.balances <==> w in old(redis.balances)
      ensures forall w :: w in redis.balances ==> redis.balances[w].expires == old(redis.balances)[w].expires
    {
      if u in redis.balances && redis.balances[u].Live(redis.now) {
        var current := redis.balances[u].value;
        if o.Ran() { Overwrite(u, current + amount); }
        r := Ok(current + amount);
      } else {
        r := Err(BalanceNotFound);
      }
      if o != Replied { r := Err(Unexpected); }
    }
  }
}
