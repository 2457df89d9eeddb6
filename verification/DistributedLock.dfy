/** The Redis lock with expiry (`DistributedLock`), as a class over the shared Redis store, and the
    timed protocol of any number of processes taking, losing and releasing locks. */
module RedisStore {
  import opened Base

  datatype Entry<+T> = Entry(value: T, expires: Option<nat>) {
    predicate Live(now: nat) { expires.None? || now < expires.value }
  }

  /** The keys that a client sees at time `now`. */
  function LiveAt<T>(m: map<UserId, Entry<T>>, now: nat): map<UserId, T> {
    map u | u in m && m[u].Live(now) :: m[u].value
  }

  /** The part of Redis the payout pipeline uses; `nextToken` stands for the random bytes that make
      every lock value new. */
  class Redis {
    var now: nat
    var balances: map<UserId, Entry<int>>
    var locks: map<UserId, Entry<Token>>
    var nextToken: Token

    constructor ()
      ensures now == 0 && balances == map[] && locks == map[] && nextToken == 0
    {
      now, balances, locks, nextToken := 0, map[], map[], 0;
    }
  }
}

module LockProtocol {
  import opened Base
  import opened RedisStore

  /** A successful `acquire`: the holder believes in it until it expires or is released.  The token
      is the position in the list of grants. */
  datatype Grant = Grant(user: UserId, expires: nat, released: bool)

  datatype State = State(now: nat, locks: map<UserId, Entry<Token>>, grants: seq<Grant>)

  datatype Action =
    | Wait(ms: nat)
    | Acquire(user: UserId, ttl: nat)
    | Release(user: UserId, token: Token)

  /** SET key token PX ttl NX. */
  function SetIfAbsent(locks: map<UserId, Entry<Token>>, now: nat, u: UserId, t: Token, ttl: nat): map<UserId, Entry<Token>> {
    if u in LiveAt(locks, now) then locks else locks[u := Entry(t, Some(now + ttl))]
  }

  /** The script that deletes the key only when it still carries the caller's token. */
  function DeleteIfOwner(locks: map<UserId, Entry<Token>>, now: nat, u: UserId, t: Token): map<UserId, Entry<Token>> {
    if u in LiveAt(locks, now) && locks[u].value == t then locks - {u} else locks
  }

  function Apply(s: State, a: Action): State {
    match a
    case Wait(ms) => s.(now := s.now + ms)
    case Acquire(u, ttl) =>
      var locks := SetIfAbsent(s.locks, s.now, u, |s.grants|, ttl);
      if u in LiveAt(s.locks, s.now) then s
      else s.(locks := locks, grants := s.grants + [Grant(u, s.now + ttl, false)])
    case Release(u, t) =>
      var owned := u in LiveAt(s.locks, s.now) && s.locks[u].value == t && t < |s.grants|;
      s.(locks := DeleteIfOwner(s.locks, s.now, u, t),
         grants := if owned then s.grants[t := s.grants[t].(released := true)] else s.grants)
  }

  function Run(actions: seq<Action>): State {
    if actions == [] then State(0, map[], []) else Apply(Run(actions[..|actions| - 1]), actions[|actions| - 1])
  }

  predicate Holds(s: State, t: Token) {
    t < |s.grants| && !s.grants[t].released && s.now < s.grants[t].expires
  }

  /** Live keys and unexpired grants are the same thing. */
  ghost predicate Inv(s: State) {
    && (forall u :: u in s.locks ==>
          var e := s.locks[u];
          e.value < |s.grants| && s.grants[e.value] == Grant(u, s.grants[e.value].expires, false)
          && e.expires == Some(s.grants[e.value].expires))
    && (forall t :: 0 <= t < |s.grants| && Holds(s, t) ==>
          s.grants[t].user in s.locks && s.locks[s.grants[t].user].value == t)
  }

  lemma {:induction false} RunInv(actions: seq<Action>)
    ensures Inv(Run(actions))
  {
    if actions != [] {
      RunInv(actions[..|actions| - 1]);
      ApplyInv(Run(actions[..|actions| - 1]), actions[|actions| - 1]);
    }
  }

  lemma ApplyInv(s: State, a: Action)
    requires Inv(s)
    ensures Inv(Apply(s, a))
  {
    match a
    case Wait(_) =>
    case Acquire(u, ttl) => AcquireInv(s, u, ttl);
    case Release(u, t) => ReleaseInv(s, u, t);
  }

  lemma AcquireInv(s: State, u: UserId, ttl: nat)
    requires Inv(s)
    ensures Inv(Apply(s, Acquire(u, ttl)))
  {}

  lemma ReleaseInv(s: State, u: UserId, t: Token)
    requires Inv(s)
    ensures Inv(Apply(s, Release(u, t)))
  {}

  /** In every reachable timed state at most one unexpired holder exists per resource, and it is the
      one the key names. */
  lemma MutualExclusion(actions: seq<Action>, t1: Token, t2: Token)
    ensures var s := Run(actions);
      Holds(s, t1) && Holds(s, t2) && s.grants[t1].user == s.grants[t2].user ==> t1 == t2
  {
    RunInv(actions);
  }

  /** A key is free for the next process exactly when nobody holds the resource. */
  lemma FreeIffNoHolder(actions: seq<Action>, u: UserId)
    ensures var s := Run(actions);
      u in LiveAt(s.locks, s.now) <==> exists t :: 0 <= t < |s.grants| && s.grants[t].user == u && Holds(s, t)
  {
    RunInv(actions);
    var s := Run(actions);
    if u in LiveAt(s.locks, s.now) {
      assert Holds(s, s.locks[u].value);
    }
  }

  /** Releasing with the token of a lapsed or finished grant, or with a token of another resource,
      changes nothing for anybody. */
  lemma LapsedReleaseIsHarmless(actions: seq<Action>, u: UserId, t: Token)
    requires var s := Run(actions); !(Holds(s, t) && s.grants[t].user == u)
    ensures var s := Run(actions); Apply(s, Release(u, t)) == s
  {
    RunInv(actions);
  }

  /** Releasing with a token that is held frees the resource and ends that grant only. */
  lemma OwnerReleaseFrees(actions: seq<Action>, t: Token)
    requires Holds(Run(actions), t)
    ensures var s := Run(actions); var u := s.grants[t].user; var s' := Apply(s, Release(u, t));
      u !in LiveAt(s'.locks, s'.now) && !Holds(s', t)
      && forall t' :: t' != t ==> (Holds(s', t') <==> Holds(s, t'))
  {
    RunInv(actions);
  }
}

module DistributedLocks {
  import opened Base
  import opened RedisStore
  import LockProtocol

  /** The wait after failed attempt `k`: the product of `delay` and `k`, as repeated addition. */
  function Pause(delay: nat, k: nat): nat { if k == 0 then 0 else Pause(delay, k - 1) + delay }

  lemma {:induction false} PauseIsProduct(delay: nat, k: nat)
    ensures Pause(delay, k) == delay * k
  {
    if k > 0 {
      PauseIsProduct(delay, k - 1);
      assert delay * k == delay * (k - 1) + delay;
    }
  }

  /** How long `acquireWithRetry` has waited when attempt `n` starts: delay + 2 * delay + ... */
  function WaitTime(delay: nat, n: nat): nat {
    if n == 0 then 0 else WaitTime(delay, n - 1) + Pause(delay, n - 1)
  }

  lemma Triangle(n: int)
    ensures n * (n - 1) == (n - 1) * (n - 2) + 2 * (n - 1)
  {}

  lemma Spread(delay: int, x: int, y: int)
    ensures delay * (x + 2 * y) == delay * x + 2 * (delay * y)
  {}

  lemma {:induction false} WaitTimeClosedForm(delay: nat, n: nat)
    ensures 2 * WaitTime(delay, n) == delay * (n * (n - 1))
  {
    if n > 0 {
      WaitTimeClosedForm(delay, n - 1);
      PauseIsProduct(delay, n - 1);
      Triangle(n);
      Spread(delay, (n - 1) * (n - 2), n - 1);
    }
  }

  /** The surroundings of one attempt: the lock table as the other processes have left it, and the
      fate of the request. */
  datatype Try = Try(locks: map<UserId, Entry<Token>>, o: Outcome) {
    /** The attempt reaches Redis and finds the lock held. */
    predicate Held(u: UserId, at: nat) { o == Replied && u in LiveAt(locks, at) }
  }

  /** The first `n` attempts, each after its waits, all find the lock held. */
  predicate AllHeld(tries: seq<Try>, u: UserId, start: nat, delay: nat, n: nat)
    requires n <= |tries|
  {
    n == 0 || (AllHeld(tries, u, start, delay, n - 1) && tries[n - 1].Held(u, start + WaitTime(delay, n)))
  }

  class DistributedLock {
    const redis: Redis

    constructor (redis: Redis)
      ensures this.redis == redis
    {
      this.redis := redis;
    }

    /** The token when this call created the key, nothing when somebody holds it, an error when the
        reply did not arrive. */
    method Acquire(u: UserId, ttl: nat, o: Outcome) returns (r: Result<Option<Token>, ()>)
      modifies redis`locks, redis`nextToken
      ensures redis.nextToken == old(redis.nextToken) + 1
      ensures redis.locks == if o.Ran() then LockProtocol.SetIfAbsent(old(redis.locks), redis.now, u, old(redis.nextToken), ttl)
                             else old(redis.locks)
      ensures r == if o != Replied then Err(())
                   else if u in LiveAt(old(redis.locks), redis.now) then Ok(None)
                   else Ok(Some(old(redis.nextToken)))
    {
      var t := redis.nextToken;
      redis.nextToken := t + 1;
      var held := u in redis.locks && redis.locks[u].Live(redis.now);
      if o.Ran() && !held {
        redis.locks := redis.locks[u := Entry(t, Some(redis.now + ttl))];
      }
      r := if o != Replied then Err(()) else if held then Ok(None) else Ok(Some(t));
    }

    method Release(u: UserId, t: Token, o: Outcome) returns (r: Result<bool, ()>)
      modifies redis`locks
      ensures redis.locks == if o.Ran() then LockProtocol.DeleteIfOwner(old(redis.locks), redis.now, u, t) else old(redis.locks)
      ensures r == if o != Replied then Err(())
                   else Ok(u in LiveAt(old(redis.locks), redis.now) && old(redis.locks)[u].value == t)
    {
      var owner := u in redis.locks && redis.locks[u].Live(redis.now) && redis.locks[u].value == t;
      if o.Ran() && owner {
        redis.locks := redis.locks - {u};
      }
      r := if o != Replied then Err(()) else Ok(owner);
    }

    /** Up to `maxRetries` attempts, waiting `delay`, 2 * `delay`, ... between them. */
    method AcquireWithRetry(u: UserId, ttl: nat, maxRetries: nat, delay: nat, tries: seq<Try>)
        returns (r: Result<Option<Token>, ()>, attempts: nat, waited: nat)
      requires |tries| == maxRetries
      modifies redis`locks, redis`nextToken, redis`now
      ensures redis.now == old(redis.now) + waited && redis.nextToken == old(redis.nextToken) + attempts
      ensures attempts <= maxRetries && waited == WaitTime(delay, attempts)
      // It gives up only after exactly maxRetries attempts that all found the lock held ...
      ensures r == Ok(None) ==> attempts == maxRetries && AllHeld(tries, u, old(redis.now), delay, attempts)
      ensures r == Ok(None) && attempts > 0 ==> redis.locks == tries[attempts - 1].locks
      // ... and otherwise the last attempt decided.
      ensures r != Ok(None) ==> attempts > 0 && AllHeld(tries, u, old(redis.now), delay, attempts - 1)
      ensures r != Ok(None) ==>
        var last := tries[attempts - 1];
        && !last.Held(u, redis.now)
        && r == (if last.o == Replied then Ok(Some(redis.nextToken - 1)) else Err(()))
        && redis.locks == (if last.o.Ran() then LockProtocol.SetIfAbsent(last.locks, redis.now, u, redis.nextToken - 1, ttl)
                           else last.locks)
    {
      attempts, waited := 0, 0;
      while attempts < maxRetries
        invariant attempts <= maxRetries
        invariant redis.now == old(redis.now) + waited && redis.nextToken == old(redis.nextToken) + attempts
        invariant waited == WaitTime(delay, attempts) + if 0 < attempts < maxRetries then Pause(delay, attempts) else 0
        invariant AllHeld(tries, u, old(redis.now), delay, attempts)
        invariant attempts > 0 ==> redis.locks == tries[attempts - 1].locks
      {
        attempts := attempts + 1;
        assert waited == WaitTime(delay, attempts);
        redis.locks := tries[attempts - 1].locks;
        r := Acquire(u, ttl, tries[attempts - 1].o);
        if r != Ok(None) {
          return;
        }
        assert tries[attempts - 1].Held(u, old(redis.now) + WaitTime(delay, attempts));
        if attempts < maxRetries {
          redis.now, waited := redis.now + Pause(delay, attempts), waited + Pause(delay, attempts);
        }
      }
      r := Ok(None);
    }
  }
}
