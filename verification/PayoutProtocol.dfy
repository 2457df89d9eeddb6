/** The payout pipeline as a step relation over the stores shared by every process: Redis balances
    and locks, the Mongo collections, the RabbitMQ queues, and one program counter per activation of
    `initiatePayout` (a gateway call) and of `processMessage` (a worker handler).

    Every awaited operation is one step, and steps of different activations interleave freely.  A
    step carries an `Outcome`, so that each remote operation may fail before or after taking effect. */
module PayoutProtocol {
  import opened Base

  // ----- Stores -------------------------------------------------------------------------------

  datatype Status = Initiated | Processing | Completed | Failed

  /** A payout transaction.  The collection is a sequence, and the transaction id is the position.
      `deducts` and `restores` are history variables: how often Redis was debited, and credited
      back, on behalf of this transaction. */
  datatype Tx = Tx(user: UserId, amount: nat, currency: string, status: Status, deducts: nat, restores: nat)

  datatype User = User(balance: int, active: bool)

  /** `deposits` and `drift` are history variables.  Deposits are what has honestly come into the Redis
      balance of a user: a sync that finds the key absent, the amounts of adjustments, less what goes
      when the key expires.  Drift is everything else that a write of the key has changed: a sync over
      a key that is there deposits nothing. */
  datatype Db = Db(balances: map<UserId, int>, locks: map<UserId, Token>, users: map<UserId, User>,
                   txs: seq<Tx>, deposits: map<UserId, int>, drift: map<UserId, int>, nextToken: Token)

  function Balance(db: Db, u: UserId): int { if u in db.balances then db.balances[u] else 0 }

  function Deposits(db: Db, u: UserId): int { if u in db.deposits then db.deposits[u] else 0 }

  function Drift(db: Db, u: UserId): int { if u in db.drift then db.drift[u] else 0 }

  /** A write of the balance key from outside the payout flow, for a deposit. */
  function PutBalance(db: Db, u: UserId, v: int, deposit: int): Db {
    db.(balances := db.balances[u := v],
        deposits := db.deposits[u := Deposits(db, u) + deposit],
        drift := db.drift[u := Drift(db, u) + v - Balance(db, u) - deposit])
  }

  /** `syncBalance`: only a key that was absent makes the value a deposit. */
  function SyncBalance(db: Db, u: UserId, v: int): Db { PutBalance(db, u, v, if u in db.balances then 0 else v) }

  /** The re-sync of an adjustment by `delta`. */
  function Resync(db: Db, u: UserId, v: int, delta: int): Db { PutBalance(db, u, v, if u in db.balances then delta else v) }

  /** The balance key reaches its TTL. */
  function DropBalance(db: Db, u: UserId): Db {
    db.(balances := db.balances - {u}, deposits := db.deposits[u := Deposits(db, u) - Balance(db, u)])
  }

  /** The compare-and-delete script of the distributed lock. */
  function ReleaseLock(db: Db, u: UserId, t: Token): Db {
    if u in db.locks && db.locks[u] == t then db.(locks := db.locks - {u}) else db
  }

  function SetStatus(db: Db, i: TxId, st: Status): Db {
    if i < |db.txs| then db.(txs := db.txs[i := db.txs[i].(status := st)]) else db
  }

  /** The stores without the history variables: what is really there. */
  function Forget(db: Db): Db {
    db.(deposits := map[], drift := map[],
        txs := seq(|db.txs|, i requires 0 <= i < |db.txs| => db.txs[i].(deducts := 0, restores := 0)))
  }

  // ----- The worker ---------------------------------------------------------------------------

  datatype Message = Message(tx: TxId, user: UserId, amount: nat, currency: string, token: Token, retries: nat)

  datatype HandlerPc =
    | Claim
    | Lookup
    | ReadBalance
    | Deduct
    | Complete(newBalance: int)
    | SyncMongo(newBalance: int)
    | Unlock
    | Rollback
    | MarkFailed
    | Ack
    | Nack
    | Finished

  /** `claimed` is `transaction !== null` in the source: this activation holds the document. */
  datatype Handler = Handler(msg: Message, claimed: bool, pc: HandlerPc)

  /** The deduction script: the balance it leaves, or nothing when it refuses. */
  function TryDeduct(db: Db, u: UserId, amount: nat): (r: Option<int>)
    ensures r.Some? <==> u in db.balances && db.balances[u] >= amount
    ensures r.Some? ==> r.value == Balance(db, u) - amount && r.value >= 0
  {
    if u in db.balances && db.balances[u] >= amount then Some(db.balances[u] - amount) else None
  }

  function DeductBalance(db: Db, m: Message, newBalance: int): Db {
    db.(balances := db.balances[m.user := newBalance],
        txs := if m.tx < |db.txs| then db.txs[m.tx := db.txs[m.tx].(deducts := db.txs[m.tx].deducts + 1)] else db.txs)
  }

  /** The credit script; it refuses when the key is absent. */
  function RestoreBalance(db: Db, m: Message): Db {
    if m.user in db.balances then
      db.(balances := db.balances[m.user := db.balances[m.user] + m.amount],
          txs := if m.tx < |db.txs| then db.txs[m.tx := db.txs[m.tx].(restores := db.txs[m.tx].restores + 1)] else db.txs)
    else db
  }

  function SetUserBalance(db: Db, u: UserId, v: int): Db {
    if u in db.users then db.(users := db.users[u := db.users[u].(balance := v)]) else db
  }

  /** One awaited operation of `processMessage`, up to the next one.  The steps that talk to
      RabbitMQ (`Ack`, `Nack`) are in `Apply`. */
  function HandlerStep(db: Db, h: Handler, o: Outcome): (Db, Handler) {
    var m := h.msg;
    var u := m.user;
    match h.pc
    case Claim =>
      var won := m.tx < |db.txs| && db.txs[m.tx].status == Initiated;
      var db' := if o.Ran() && won then SetStatus(db, m.tx, Processing) else db;
      if o != Replied then (db', h.(pc := Rollback))
      else if won then (db', h.(claimed := true, pc := ReadBalance))
      else (db', h.(pc := Lookup))
    case Lookup =>
      // A missing transaction is an error, but not one that rolls back; any other status is skipped.
      (db, h.(pc := if o != Replied then Rollback else if m.tx < |db.txs| then Ack else MarkFailed))
    case ReadBalance =>
      (db, h.(pc := if o != Replied then Rollback
                    else if TryDeduct(db, u, m.amount).Some? then Deduct
                    else MarkFailed))
    case Deduct =>
      var r := TryDeduct(db, u, m.amount);
      var db' := if o.Ran() && r.Some? then DeductBalance(db, m, r.value) else db;
      (db', h.(pc := if o != Replied then Rollback else if r.Some? then Complete(r.value) else MarkFailed))
    case Complete(newBalance) =>
      (if o.Ran() then SetStatus(db, m.tx, Completed) else db,
       h.(pc := if o == Replied then SyncMongo(newBalance) else Rollback))
    case SyncMongo(newBalance) =>
      (if o.Ran() then SetUserBalance(db, u, newBalance) else db,
       h.(pc := if o == Replied then Unlock else Rollback))
    case Unlock =>
      (if o.Ran() then ReleaseLock(db, u, m.token) else db,
       h.(pc := if o == Replied then Ack else Rollback))
    case Rollback =>
      // Errors of the rollback itself are caught and logged.
      (if o.Ran() then RestoreBalance(db, m) else db, h.(pc := MarkFailed))
    case MarkFailed =>
      (if o.Ran() && h.claimed then SetStatus(db, m.tx, Failed) else db, h.(pc := Nack))
    case _ => (db, h)
  }

  // ----- The gateway --------------------------------------------------------------------------

  const LOCK_ATTEMPTS: nat := 3

  datatype CallPc =
    | LoadUser
    | CheckCurrency
    | Acquire(attempt: nat)
    | CheckAccount
    | CheckLimits
    | CheckCache
    | SyncCache
    | CheckFunds
    | ScoreFraud
    | CreateTx
    | Publish
    | GiveBack
    | Returned
    | Threw

  /** `seen` is the user document as loaded at the start; `freed` records that the failure path ran
      the release script. */
  datatype Call = Call(user: UserId, amount: nat, currency: string, pc: CallPc, seen: User,
                       token: Option<Token>, tx: TxId, freed: bool)

  /** The catch block: give the lock back when it was acquired. */
  function Fail(c: Call): Call { c.(pc := if c.token.Some? then GiveBack else Threw) }

  /** One awaited operation of `initiatePayout`.  `verdict` is the answer of the foreign services
      (currency validation, spending limits, fraud score).  Publishing is in `Apply`. */
  function CallStep(db: Db, c: Call, o: Outcome, verdict: bool): (Db, Call) {
    var u := c.user;
    match c.pc
    case LoadUser =>
      (db, if o == Replied && u in db.users then c.(pc := CheckCurrency, seen := db.users[u]) else Fail(c))
    case CheckCurrency => (db, if o == Replied && verdict then c.(pc := Acquire(1)) else Fail(c))
    case Acquire(attempt) =>
      var free := u !in db.locks;
      var db' := db.(nextToken := db.nextToken + 1,
                     locks := if o.Ran() && free then db.locks[u := db.nextToken] else db.locks);
      (db', if o != Replied then Fail(c)
            else if free then c.(pc := CheckAccount, token := Some(db.nextToken))
            else if attempt < LOCK_ATTEMPTS then c.(pc := Acquire(attempt + 1))
            else Fail(c))
    case CheckAccount => (db, if c.seen.active then c.(pc := CheckLimits) else Fail(c))
    case CheckLimits => (db, if o == Replied && verdict then c.(pc := CheckCache) else Fail(c))
    case CheckCache =>
      (db, if o != Replied then Fail(c) else c.(pc := if u in db.balances then CheckFunds else SyncCache))
    case SyncCache =>
      (if o.Ran() then SyncBalance(db, u, c.seen.balance) else db,
       if o == Replied then c.(pc := CheckFunds) else Fail(c))
    case CheckFunds =>
      (db, if o == Replied && TryDeduct(db, u, c.amount).Some? then c.(pc := ScoreFraud) else Fail(c))
    case ScoreFraud => (db, if o == Replied && verdict then c.(pc := CreateTx) else Fail(c))
    case CreateTx =>
      (if o.Ran() then db.(txs := db.txs + [Tx(u, c.amount, c.currency, Initiated, 0, 0)]) else db,
       if o == Replied then c.(pc := Publish, tx := |db.txs|) else Fail(c))
    case GiveBack =>
      // The release runs inside the catch block: when it throws, the lock is left to lapse.
      (if o.Ran() && c.token.Some? then ReleaseLock(db, u, c.token.value) else db,
       c.(pc := Threw, freed := o.Ran()))
    case _ => (db, c)
  }

  function PublishedMessage(c: Call): Message {
    Message(c.tx, c.user, c.amount, c.currency, c.token.GetOr(0), 0)
  }

  // ----- Administrators ---------------------------------------------------------------------------

  /** `adjustBalance` after its argument checks: Mongo first, then the Redis script, and a re-sync
      from Mongo when the script refuses. */
  function AdminAdjust(db: Db, u: UserId, amount: nat, credit: bool): Db {
    if u !in db.users || amount == 0 then db
    else
      var before := db.users[u].balance;
      if !credit && before < amount then db
      else
        var after := if credit then before + amount else before - amount;
        var db' := SetUserBalance(db, u, after);
        if credit && u in db.balances then PutBalance(db', u, db.balances[u] + amount, amount)
        else if !credit && TryDeduct(db, u, amount).Some? then PutBalance(db', u, db.balances[u] - amount, 0 - amount)
        else Resync(db', u, after, if credit then amount else 0 - amount)
  }

  /** The read-through of `getUserBalance`. */
  function ReadThrough(db: Db, u: UserId): Db {
    if u !in db.balances && u in db.users then SyncBalance(db, u, db.users[u].balance) else db
  }

  // ----- The whole system -----------------------------------------------------------------------

  /** `dlq` holds one copy for every dead-lettered delivery. */
  datatype State = State(db: Db, queue: multiset<Message>, delayed: multiset<Message>, dlq: multiset<Message>,
                         calls: seq<Call>, handlers: seq<Handler>)

  datatype Action =
    | StartCall(user: UserId, amount: nat, currency: string)
    | StepCall(i: nat, o: Outcome, verdict: bool)
    | Deliver(m: Message)
    | Duplicate(m: Message)
    | Republish(m: Message)
    | StepHandler(i: nat, o: Outcome)
    | ExpireLock(user: UserId)
    | ExpireBalance(user: UserId)
    | GetBalance(user: UserId)
    | Adjust(user: UserId, amount: nat, credit: bool)
    | SetActive(user: UserId, active: bool)

  /** Enqueueing happens even when the client library reports a full buffer or throws afterwards. */
  function PublishStep(s: State, i: nat, o: Outcome): State
    requires i < |s.calls|
  {
    var c := s.calls[i];
    s.(queue := if o.Ran() then s.queue + multiset{PublishedMessage(c)} else s.queue,
       calls := s.calls[i := if o == Replied then c.(pc := Returned) else Fail(c)])
  }

  /** `_handleFailure`: dead-letter this delivery, and schedule a copy with the next retry count
      while attempts remain. */
  function NackStep(s: State, i: nat, maxRetries: nat): State
    requires i < |s.handlers|
  {
    var h := s.handlers[i];
    var again := h.msg.(retries := h.msg.retries + 1);
    s.(dlq := s.dlq + multiset{h.msg},
       delayed := if again.retries <= maxRetries then s.delayed + multiset{again} else s.delayed,
       handlers := s.handlers[i := h.(pc := Finished)])
  }

  /** Executes an action; one that is not enabled does nothing. */
  function Apply(s: State, a: Action, maxRetries: nat): State {
    match a
    case StartCall(u, amount, currency) =>
      if amount == 0 then s
      else s.(calls := s.calls + [Call(u, amount, currency, LoadUser, User(0, false), None, 0, false)])
    case StepCall(i, o, verdict) =>
      if i >= |s.calls| then s
      else if s.calls[i].pc == Publish then PublishStep(s, i, o)
      else
        var (db', c') := CallStep(s.db, s.calls[i], o, verdict);
        s.(db := db', calls := s.calls[i := c'])
    case Deliver(m) =>
      if m in s.queue then s.(queue := s.queue - multiset{m}, handlers := s.handlers + [Handler(m, false, Claim)]) else s
    case Duplicate(m) =>
      if m in s.queue || exists i :: 0 <= i < |s.handlers| && s.handlers[i].msg == m
      then s.(queue := s.queue + multiset{m}) else s
    case Republish(m) =>
      if m in s.delayed then s.(delayed := s.delayed - multiset{m}, queue := s.queue + multiset{m}) else s
    case StepHandler(i, o) =>
      if i >= |s.handlers| then s
      else if s.handlers[i].pc == Ack then s.(handlers := s.handlers[i := s.handlers[i].(pc := Finished)])
      else if s.handlers[i].pc == Nack then NackStep(s, i, maxRetries)
      else
        var (db', h') := HandlerStep(s.db, s.handlers[i], o);
        s.(db := db', handlers := s.handlers[i := h'])
    case ExpireLock(u) => s.(db := s.db.(locks := s.db.locks - {u}))
    case ExpireBalance(u) => s.(db := DropBalance(s.db, u))
    case GetBalance(u) => s.(db := ReadThrough(s.db, u))
    case Adjust(u, amount, credit) => s.(db := AdminAdjust(s.db, u, amount, credit))
    case SetActive(u, active) =>
      if u in s.db.users then s.(db := s.db.(users := s.db.users[u := s.db.users[u].(active := active)])) else s
  }

  /** A run from `s`: any interleaving of any number of calls, handlers and outside events. */
  function Run(s: State, actions: seq<Action>, maxRetries: nat): State
    decreases |actions|
  {
    if actions == [] then s
    else Apply(Run(s, actions[..|actions| - 1], maxRetries), actions[|actions| - 1], maxRetries)
  }

  /** Before the first request: users, and possibly balances already synced. */
  ghost predicate Initial(s: State) {
    && s.calls == [] && s.handlers == [] && s.db.txs == []
    && s.queue == multiset{} && s.delayed == multiset{} && s.dlq == multiset{}
    && s.db.locks == map[]
    && s.db.deposits == s.db.balances && s.db.drift == map[]
    && (forall u :: u in s.db.balances ==> s.db.balances[u] >= 0)
    && (forall u :: u in s.db.users ==> s.db.users[u].balance >= 0)
  }
}
