/** Two runs of the pipeline in which every operation is answered: a stale first-access sync lets more be
    paid out than there ever was, and a suspended user is paid. */
module PayoutRaces {
  import opened Base
  import opened PayoutProtocol
  import opened PayoutLedger
  import opened PayoutTheorems
  import opened PayoutDeposits

  const RETRIES: nat := 3

  const U: UserId := 1

  /** Everything is answered and passes, nothing is delivered twice, expires or is adjusted; and no lock
      lapses between the balance check and the first-access sync of its holder. */
  predicate Plain(s: State, a: Action) {
    match a
    case StartCall(_, _, _) => true
    case StepCall(_, o, verdict) => o == Replied && verdict
    case Deliver(_) => true
    case StepHandler(_, o) => o == Replied
    case ExpireLock(u) => forall i :: 0 <= i < |s.calls| && s.calls[i].user == u && s.calls[i].pc == SyncCache ==> !Holding(s.db, s.calls[i])
    case _ => false
  }

  predicate PlainRun(s: State, actions: seq<Action>)
    decreases |actions|
  {
    actions == [] ||
    var n := |actions| - 1;
    PlainRun(s, actions[..n]) && Plain(Run(s, actions[..n], RETRIES), actions[n])
  }

  ghost predicate Reached(s0: State, s: State, plain: bool) {
    exists actions :: Run(s0, actions, RETRIES) == s && (plain ==> PlainRun(s0, actions))
  }

  /** The proofs below go through any set of states that contains the first one and is closed under
      steps; the reached states are such a set. */
  ghost predicate Closed(r: iset<State>, plain: bool) {
    forall s, a :: s in r && (plain ==> Plain(s, a)) ==> Apply(s, a, RETRIES) in r
  }

  lemma ReachedIsClosed(s0: State, plain: bool)
    ensures var r := iset s | Reached(s0, s, plain); Closed(r, plain) && s0 in r
  {
    var r := iset s | Reached(s0, s, plain);
    assert Run(s0, [], RETRIES) == s0 && PlainRun(s0, []);
    forall s, a | s in r && (plain ==> Plain(s, a)) ensures Apply(s, a, RETRIES) in r {
      var actions :| Run(s0, actions, RETRIES) == s && (plain ==> PlainRun(s0, actions));
      var more := actions + [a];
      assert more[..|actions|] == actions && more[|actions|] == a;
      assert Run(s0, more, RETRIES) == Apply(s, a, RETRIES);
    }
  }

  lemma Do(r: iset<State>, s: State, plain: bool, a: Action, s': State)
    requires Closed(r, plain) && s in r && (plain ==> Plain(s, a)) && Apply(s, a, RETRIES) == s'
    ensures s' in r
  {}

  lemma CallDoes(r: iset<State>, s: State, plain: bool, i: nat, db': Db, c': Call)
    requires Closed(r, plain) && s in r && i < |s.calls| && s.calls[i].pc != Publish
    requires CallStep(s.db, s.calls[i], Replied, true) == (db', c')
    ensures s.(db := db', calls := s.calls[i := c']) in r
  {
    Do(r, s, plain, StepCall(i, Replied, true), s.(db := db', calls := s.calls[i := c']));
  }

  lemma HandlerDoes(r: iset<State>, s: State, plain: bool, i: nat, db': Db, h': Handler)
    requires Closed(r, plain) && s in r && i < |s.handlers| && s.handlers[i].pc != PayoutProtocol.Ack && s.handlers[i].pc != Nack
    requires HandlerStep(s.db, s.handlers[i], Replied) == (db', h')
    ensures s.(db := db', handlers := s.handlers[i := h']) in r
  {
    Do(r, s, plain, StepHandler(i, Replied), s.(db := db', handlers := s.handlers[i := h']));
  }

  // ----- A stale sync -----------------------------------------------------------------------------------

  /** One user with 100; `t` is the number of the lock value. */
  function C(pc: CallPc, t: Option<Token>, tx: TxId): Call { Call(U, 60, "USD", pc, User(100, true), t, tx, false) }

  function M(tx: TxId, t: Token): Message { Message(tx, U, 60, "USD", t, 0) }

  function T(st: Status, deducts: nat): Tx { Tx(U, 60, "USD", st, deducts, 0) }

  function Cold(locks: map<UserId, Token>, next: Token): Db { Db(map[], locks, map[U := User(100, true)], [], map[], map[], next) }

  function Warm(cached: int, mongo: int, locks: map<UserId, Token>, txs: seq<Tx>, drift: int): Db {
    Db(map[U := cached], locks, map[U := User(mongo, true)], txs, map[U := 100], map[U := drift], 2)
  }

  function St(db: Db, queue: multiset<Message>, calls: seq<Call>, handlers: seq<Handler>): State {
    State(db, queue, multiset{}, multiset{}, calls, handlers)
  }

  const NEW: Call := Call(U, 60, "USD", LoadUser, User(0, false), None, 0, false)

  const BEFORE: State := St(Cold(map[], 0), multiset{}, [], [])

  const NONE: multiset<Message> := multiset{}

  /** The first call gets the lock, which lapses; the second one gets it, and finds no cached balance. */
  lemma SecondChecks(r: iset<State>)
    requires Closed(r, true) && BEFORE in r
    ensures St(Cold(map[U := 1], 2), NONE, [C(CheckAccount, Some(0), 0), C(SyncCache, Some(1), 0)], []) in r
  {
    var b := C(CheckAccount, Some(0), 0);
    var s1 := St(Cold(map[], 0), NONE, [NEW], []);
    Do(r, BEFORE, true, StartCall(U, 60, "USD"), s1);
    var s2 := St(Cold(map[], 0), NONE, [C(CheckCurrency, None, 0)], []);
    CallDoes(r, s1, true, 0, s2.db, s2.calls[0]);
    assert s1.calls[0 := s2.calls[0]] == s2.calls;
    var s3 := St(Cold(map[], 0), NONE, [C(Acquire(1), None, 0)], []);
    CallDoes(r, s2, true, 0, s3.db, s3.calls[0]);
    assert s2.calls[0 := s3.calls[0]] == s3.calls;
    var s4 := St(Cold(map[U := 0], 1), NONE, [b], []);
    CallDoes(r, s3, true, 0, s4.db, s4.calls[0]);
    assert s3.calls[0 := s4.calls[0]] == s4.calls;
    var s5 := St(Cold(map[], 1), NONE, [b], []);
    Do(r, s4, true, ExpireLock(U), s5);
    var s6 := St(Cold(map[], 1), NONE, [b, NEW], []);
    Do(r, s5, true, StartCall(U, 60, "USD"), s6);
    SecondLocks(r, s6);
  }

  lemma SecondLocks(r: iset<State>, s: State)
    requires Closed(r, true)
    requires s == St(Cold(map[], 1), NONE, [C(CheckAccount, Some(0), 0), NEW], []) && s in r
    ensures St(Cold(map[U := 1], 2), NONE, [C(CheckAccount, Some(0), 0), C(SyncCache, Some(1), 0)], []) in r
  {
    var b := C(CheckAccount, Some(0), 0);
    var s1 := St(Cold(map[], 1), NONE, [b, C(CheckCurrency, None, 0)], []);
    CallDoes(r, s, true, 1, s1.db, s1.calls[1]);
    assert s.calls[1 := s1.calls[1]] == s1.calls;
    var s2 := St(Cold(map[], 1), NONE, [b, C(Acquire(1), None, 0)], []);
    CallDoes(r, s1, true, 1, s2.db, s2.calls[1]);
    assert s1.calls[1 := s2.calls[1]] == s2.calls;
    var s3 := St(Cold(map[U := 1], 2), NONE, [b, C(CheckAccount, Some(1), 0)], []);
    CallDoes(r, s2, true, 1, s3.db, s3.calls[1]);
    assert s2.calls[1 := s3.calls[1]] == s3.calls;
    var s4 := St(Cold(map[U := 1], 2), NONE, [b, C(CheckLimits, Some(1), 0)], []);
    CallDoes(r, s3, true, 1, s4.db, s4.calls[1]);
    assert s3.calls[1 := s4.calls[1]] == s4.calls;
    var s5 := St(Cold(map[U := 1], 2), NONE, [b, C(CheckCache, Some(1), 0)], []);
    CallDoes(r, s4, true, 1, s5.db, s5.calls[1]);
    assert s4.calls[1 := s5.calls[1]] == s5.calls;
    var s6 := St(Cold(map[U := 1], 2), NONE, [b, C(SyncCache, Some(1), 0)], []);
    CallDoes(r, s5, true, 1, s6.db, s6.calls[1]);
    assert s5.calls[1 := s6.calls[1]] == s6.calls;
  }

  /** Then the first call, without the lock, goes through its checks ... */
  lemma FirstSyncs(r: iset<State>)
    requires Closed(r, true) && BEFORE in r
    ensures St(Warm(100, 100, map[U := 1], [], 0), NONE, [C(CheckFunds, Some(0), 0), C(SyncCache, Some(1), 0)], []) in r
  {
    SecondChecks(r);
    var a := C(SyncCache, Some(1), 0);
    var db := Cold(map[U := 1], 2);
    var s1 := St(db, NONE, [C(CheckLimits, Some(0), 0), a], []);
    Do(r, St(db, NONE, [C(CheckAccount, Some(0), 0), a], []), true, StepCall(0, Replied, true), s1);
    var s2 := St(db, NONE, [C(CheckCache, Some(0), 0), a], []);
    CallDoes(r, s1, true, 0, s2.db, s2.calls[0]);
    assert s1.calls[0 := s2.calls[0]] == s2.calls;
    var s3 := St(db, NONE, [C(SyncCache, Some(0), 0), a], []);
    CallDoes(r, s2, true, 0, s3.db, s3.calls[0]);
    assert s2.calls[0 := s3.calls[0]] == s3.calls;
    Do(r, s3, true, StepCall(0, Replied, true), St(Warm(100, 100, map[U := 1], [], 0), NONE, [C(CheckFunds, Some(0), 0), a], []));
  }

  /** ... as a call does from the balance check on, whichever of the two it is. */
  lemma Publishes(r: iset<State>, i: nat, t: Token, db: Db, calls: seq<Call>, handlers: seq<Handler>)
    requires Closed(r, true)
    requires i < |calls| && calls[i] == C(CheckFunds, Some(t), 0) && TryDeduct(db, U, 60).Some?
    requires St(db, NONE, calls, handlers) in r
    ensures var n := |db.txs|;
      St(db.(txs := db.txs + [T(Initiated, 0)]), multiset{M(n, t)}, calls[i := C(Returned, Some(t), n)], handlers) in r
  {
    var n := |db.txs|;
    var s1 := St(db, NONE, calls[i := C(ScoreFraud, Some(t), 0)], handlers);
    Do(r, St(db, NONE, calls, handlers), true, StepCall(i, Replied, true), s1);
    var s2 := St(db, NONE, calls[i := C(CreateTx, Some(t), 0)], handlers);
    CallDoes(r, s1, true, i, s2.db, s2.calls[i]);
    assert s1.calls[i := s2.calls[i]] == s2.calls;
    var db' := db.(txs := db.txs + [T(Initiated, 0)]);
    var s3 := St(db', NONE, calls[i := C(Publish, Some(t), n)], handlers);
    CallDoes(r, s2, true, i, s3.db, s3.calls[i]);
    assert s2.calls[i := s3.calls[i]] == s3.calls;
    assert PublishedMessage(C(Publish, Some(t), n)) == M(n, t);
    Do(r, s3, true, StepCall(i, Replied, true), St(db', multiset{M(n, t)}, calls[i := C(Returned, Some(t), n)], handlers));
  }

  lemma Last<X>(xs: seq<X>, x: X, y: X)
    ensures (xs + [x])[|xs|] == x && (xs + [x])[|xs| := y] == xs + [y]
  {}

  /** One step of the worker on the last delivery and the last transaction. */
  lemma Works(r: iset<State>, txs: seq<Tx>, t: Tx, db: Db, calls: seq<Call>, hs: seq<Handler>, h: Handler, t': Tx, db': Db, h': Handler)
    requires Closed(r, true)
    requires db.txs == txs + [t] && db'.txs == txs + [t'] && h.pc != PayoutProtocol.Ack && h.pc != Nack
    requires St(db, NONE, calls, hs + [h]) in r && HandlerStep(db, h, Replied) == (db', h')
    ensures St(db', NONE, calls, hs + [h']) in r
  {
    Last(hs, h, h');
    HandlerDoes(r, St(db, NONE, calls, hs + [h]), true, |hs|, db', h');
  }

  /** A payout is delivered and completed. */
  lemma Completes(r: iset<State>, n: nat, t: Token, cached: int, mongo: int, locks: map<UserId, Token>, txs: seq<Tx>, drift: int, calls: seq<Call>, hs: seq<Handler>)
    requires Closed(r, true)
    requires cached >= 60 && |txs| == n
    requires St(Warm(cached, mongo, locks, txs + [T(Initiated, 0)], drift), multiset{M(n, t)}, calls, hs) in r
    ensures var left := if U in locks && locks[U] == t then locks - {U} else locks;
      St(Warm(cached - 60, cached - 60, left, txs + [T(Completed, 1)], drift), NONE, calls, hs + [Handler(M(n, t), true, Finished)]) in r
  {
    var m := M(n, t);
    var db := Warm(cached, mongo, locks, txs + [T(Initiated, 0)], drift);
    assert multiset{m} - multiset{m} == NONE;
    Do(r, St(db, multiset{m}, calls, hs), true, Deliver(m), St(db, NONE, calls, hs + [Handler(m, false, Claim)]));
    var claimed := Warm(cached, mongo, locks, txs + [T(Processing, 0)], drift);
    Last(txs, T(Initiated, 0), T(Processing, 0));
    Works(r, txs, T(Initiated, 0), db, calls, hs, Handler(m, false, Claim), T(Processing, 0), claimed, Handler(m, true, ReadBalance));
    Pays(r, n, t, cached, mongo, locks, txs, drift, calls, hs);
  }

  lemma Pays(r: iset<State>, n: nat, t: Token, cached: int, mongo: int, locks: map<UserId, Token>, txs: seq<Tx>, drift: int, calls: seq<Call>, hs: seq<Handler>)
    requires Closed(r, true)
    requires cached >= 60 && |txs| == n
    requires St(Warm(cached, mongo, locks, txs + [T(Processing, 0)], drift), NONE, calls, hs + [Handler(M(n, t), true, ReadBalance)]) in r
    ensures var left := if U in locks && locks[U] == t then locks - {U} else locks;
      St(Warm(cached - 60, cached - 60, left, txs + [T(Completed, 1)], drift), NONE, calls, hs + [Handler(M(n, t), true, Finished)]) in r
  {
    var m, left := M(n, t), cached - 60;
    var p := T(Processing, 0);
    var db := Warm(cached, mongo, locks, txs + [p], drift);
    Works(r, txs, p, db, calls, hs, Handler(m, true, ReadBalance), p, db, Handler(m, true, Deduct));
    Last(txs, p, T(Processing, 1));
    var deducted := Warm(left, mongo, locks, txs + [T(Processing, 1)], drift);
    assert map[U := cached][U := left] == map[U := left];
    Works(r, txs, p, db, calls, hs, Handler(m, true, Deduct), T(Processing, 1), deducted, Handler(m, true, Complete(left)));
    Last(txs, T(Processing, 1), T(Completed, 1));
    var done := Warm(left, mongo, locks, txs + [T(Completed, 1)], drift);
    Works(r, txs, T(Processing, 1), deducted, calls, hs, Handler(m, true, Complete(left)), T(Completed, 1), done, Handler(m, true, SyncMongo(left)));
    Settles(r, n, t, left, mongo, locks, txs, drift, calls, hs);
  }

  lemma Settles(r: iset<State>, n: nat, t: Token, left: int, mongo: int, locks: map<UserId, Token>, txs: seq<Tx>, drift: int, calls: seq<Call>, hs: seq<Handler>)
    requires Closed(r, true)
    requires |txs| == n
    requires St(Warm(left, mongo, locks, txs + [T(Completed, 1)], drift), NONE, calls, hs + [Handler(M(n, t), true, SyncMongo(left))]) in r
    ensures var locks' := if U in locks && locks[U] == t then locks - {U} else locks;
      St(Warm(left, left, locks', txs + [T(Completed, 1)], drift), NONE, calls, hs + [Handler(M(n, t), true, Finished)]) in r
  {
    var m, c := M(n, t), T(Completed, 1);
    var synced := Warm(left, left, locks, txs + [c], drift);
    assert map[U := User(mongo, true)][U := User(left, true)] == map[U := User(left, true)];
    Works(r, txs, c, Warm(left, mongo, locks, txs + [c], drift), calls, hs, Handler(m, true, SyncMongo(left)), c, synced, Handler(m, true, Unlock));
    var locks' := if U in locks && locks[U] == t then locks - {U} else locks;
    var freed := Warm(left, left, locks', txs + [c], drift);
    Works(r, txs, c, synced, calls, hs, Handler(m, true, Unlock), c, freed, Handler(m, true, PayoutProtocol.Ack));
    Last(hs, Handler(m, true, PayoutProtocol.Ack), Handler(m, true, Finished));
    Do(r, St(freed, NONE, calls, hs + [Handler(m, true, PayoutProtocol.Ack)]), true, StepHandler(|hs|, Replied),
       St(freed, NONE, calls, hs + [Handler(m, true, Finished)]));
  }

  /** The second call now writes the 100 it loaded over the 40 that are left, and is paid as well. */
  lemma StaleSync(r: iset<State>, hs: seq<Handler>, b: Call)
    requires Closed(r, true)
    requires St(Warm(40, 40, map[U := 1], [T(Completed, 1)], 0), NONE, [b, C(SyncCache, Some(1), 0)], hs) in r
    ensures St(Warm(40, 40, map[], [T(Completed, 1), T(Completed, 1)], 60), NONE, [b, C(Returned, Some(1), 1)],
                               hs + [Handler(M(1, 1), true, Finished)]) in r
  {
    var db := Warm(100, 40, map[U := 1], [T(Completed, 1)], 60);
    var calls := [b, C(CheckFunds, Some(1), 0)];
    Do(r, St(Warm(40, 40, map[U := 1], [T(Completed, 1)], 0), NONE, [b, C(SyncCache, Some(1), 0)], hs), true, StepCall(1, Replied, true),
       St(db, NONE, calls, hs));
    Publishes(r, 1, 1, db, calls, hs);
    var returned := [b, C(Returned, Some(1), 1)];
    assert calls[1 := C(Returned, Some(1), 1)] == returned;
    assert db.(txs := db.txs + [T(Initiated, 0)]) == Warm(100, 40, map[U := 1], [T(Completed, 1)] + [T(Initiated, 0)], 60);
    Completes(r, 1, 1, 100, 40, map[U := 1], [T(Completed, 1)], 60, returned, hs);
    assert map[U := 1 as Token] - {U} == map[];
    assert [T(Completed, 1)] + [T(Completed, 1)] == [T(Completed, 1), T(Completed, 1)];
  }

  const PAID_TWICE: State :=
    St(Warm(40, 40, map[], [T(Completed, 1), T(Completed, 1)], 60), NONE, [C(Returned, Some(0), 0), C(Returned, Some(1), 1)],
       [Handler(M(0, 0), true, Finished), Handler(M(1, 1), true, Finished)])

  lemma BothArePaid(r: iset<State>)
    requires Closed(r, true) && BEFORE in r
    ensures PAID_TWICE in r
  {
    FirstSyncs(r);
    var a, b := C(SyncCache, Some(1), 0), C(Returned, Some(0), 0);
    var db := Warm(100, 100, map[U := 1], [], 0);
    Publishes(r, 0, 0, db, [C(CheckFunds, Some(0), 0), a], []);
    assert [C(CheckFunds, Some(0), 0), a][0 := b] == [b, a];
    assert db.(txs := db.txs + [T(Initiated, 0)]) == Warm(100, 100, map[U := 1], [] + [T(Initiated, 0)], 0);
    Completes(r, 0, 0, 100, 100, map[U := 1], [], 0, [b, a], []);
    assert [] + [T(Completed, 1)] == [T(Completed, 1)];
    var h := Handler(M(0, 0), true, Finished);
    assert [] + [h] == [h];
    StaleSync(r, [h], b);
    assert [h] + [Handler(M(1, 1), true, Finished)] == [h, Handler(M(1, 1), true, Finished)];
  }

  /** Of a user with 100 in Mongo and nothing cached, 120 have been paid out. */
  ghost predicate Overpaid(s: State) {
    && Quiescent(s) && CompletedTotal(s.db.txs, U) == NetOut(s.db.txs, U) == 120
    && s.db.balances == map[U := 40] && Drift(s.db, U) == 60
  }

  lemma PaidTwiceIsOverpaid()
    ensures Overpaid(PAID_TWICE)
  {
    var txs := [T(Completed, 1), T(Completed, 1)];
    var one := [T(Completed, 1)];
    assert one[..0] == [] && txs[..1] == one;
    assert NetOut([], U) == 0 && CompletedTotal([], U) == 0;
    assert NetOut(one, U) == NetOut(one[..0], U) + Net(one[0], U) && CompletedTotal(one, U) == CompletedTotal(one[..0], U) + 60;
    assert NetOut(txs, U) == NetOut(txs[..1], U) + Net(txs[1], U) && CompletedTotal(txs, U) == CompletedTotal(txs[..1], U) + 60;
  }

  /** Two calls, one lapsed lock, no fault at all: the run ends with more paid out than there was.  The
      lock that lapsed did not do so between the balance check and the sync of its holder, so that a lock
      which lasts only that long is not enough. */
  lemma StaleSyncOverpays()
    ensures Initial(BEFORE) && StartOf(BEFORE, U) == 100
    ensures Reached(BEFORE, PAID_TWICE, true) && Overpaid(PAID_TWICE)
  {
    ReachedIsClosed(BEFORE, true);
    BothArePaid(iset s | Reached(BEFORE, s, true));
    PaidTwiceIsOverpaid();
  }

  // ----- A suspension that is not seen --------------------------------------------------------------------

  function S(active: bool, locks: map<UserId, Token>, next: Token, txs: seq<Tx>): Db {
    Db(map[U := 100], locks, map[U := User(100, active)], txs, map[U := 100], map[], next)
  }

  const FUNDED: State := St(S(true, map[], 0, []), multiset{}, [], [])

  /** The user is suspended after the document was loaded and before the lock is taken ... */
  lemma Suspended(r: iset<State>)
    requires Closed(r, false) && FUNDED in r
    ensures St(S(false, map[], 0, []), NONE, [C(Acquire(1), None, 0)], []) in r
  {
    var s1 := St(S(true, map[], 0, []), NONE, [NEW], []);
    Do(r, FUNDED, false, StartCall(U, 60, "USD"), s1);
    var s2 := St(S(true, map[], 0, []), NONE, [C(CheckCurrency, None, 0)], []);
    CallDoes(r, s1, false, 0, s2.db, s2.calls[0]);
    assert s1.calls[0 := s2.calls[0]] == s2.calls;
    var s3 := St(S(true, map[], 0, []), NONE, [C(Acquire(1), None, 0)], []);
    CallDoes(r, s2, false, 0, s3.db, s3.calls[0]);
    assert s2.calls[0 := s3.calls[0]] == s3.calls;
    Do(r, s3, false, SetActive(U, false), St(S(false, map[], 0, []), NONE, [C(Acquire(1), None, 0)], []));
  }

  const PAID_SUSPENDED: State := St(S(false, map[U := 0], 1, [T(Initiated, 0)]), multiset{M(0, 0)}, [C(Returned, Some(0), 0)], [])

  /** ... and the call takes the lock, passes the status check and all others, and returns. */
  lemma SuspendedPasses(r: iset<State>)
    requires Closed(r, false) && FUNDED in r
    ensures PAID_SUSPENDED in r
  {
    Suspended(r);
    var db := S(false, map[U := 0], 1, []);
    var s1 := St(db, NONE, [C(CheckAccount, Some(0), 0)], []);
    Do(r, St(S(false, map[], 0, []), NONE, [C(Acquire(1), None, 0)], []), false, StepCall(0, Replied, true), s1);
    var s2 := St(db, NONE, [C(CheckLimits, Some(0), 0)], []);
    CallDoes(r, s1, false, 0, s2.db, s2.calls[0]);
    assert s1.calls[0 := s2.calls[0]] == s2.calls;
    var s3 := St(db, NONE, [C(CheckCache, Some(0), 0)], []);
    CallDoes(r, s2, false, 0, s3.db, s3.calls[0]);
    assert s2.calls[0 := s3.calls[0]] == s3.calls;
    var s4 := St(db, NONE, [C(CheckFunds, Some(0), 0)], []);
    CallDoes(r, s3, false, 0, s4.db, s4.calls[0]);
    assert s3.calls[0 := s4.calls[0]] == s4.calls;
    var s5 := St(db, NONE, [C(ScoreFraud, Some(0), 0)], []);
    CallDoes(r, s4, false, 0, s5.db, s5.calls[0]);
    assert s4.calls[0 := s5.calls[0]] == s5.calls;
    SuspendedReturns(r, s5);
  }

  lemma SuspendedReturns(r: iset<State>, s: State)
    requires Closed(r, false)
    requires s == St(S(false, map[U := 0], 1, []), NONE, [C(ScoreFraud, Some(0), 0)], []) && s in r
    ensures St(S(false, map[U := 0], 1, [T(Initiated, 0)]), multiset{M(0, 0)}, [C(Returned, Some(0), 0)], []) in r
  {
    var s1 := s.(calls := [C(CreateTx, Some(0), 0)]);
    CallDoes(r, s, false, 0, s1.db, s1.calls[0]);
    assert s.calls[0 := s1.calls[0]] == s1.calls;
    var db := S(false, map[U := 0], 1, [T(Initiated, 0)]);
    var s2 := St(db, NONE, [C(Publish, Some(0), 0)], []);
    assert [] + [T(Initiated, 0)] == [T(Initiated, 0)];
    assert s1.db.(txs := s1.db.txs + [T(Initiated, 0)]) == db;
    CallDoes(r, s1, false, 0, s2.db, s2.calls[0]);
    assert s1.calls[0 := s2.calls[0]] == s2.calls;
    assert PublishedMessage(C(Publish, Some(0), 0)) == M(0, 0);
    Do(r, s2, false, StepCall(0, Replied, true), St(db, multiset{M(0, 0)}, [C(Returned, Some(0), 0)], []));
  }

  /** The payout of a user who was suspended before the lock was taken is accepted. */
  lemma SuspendedUserIsPaid()
    ensures Initial(FUNDED) && Reached(FUNDED, PAID_SUSPENDED, false)
    ensures !PAID_SUSPENDED.db.users[U].active && PAID_SUSPENDED.calls[0].pc == Returned
  {
    ReachedIsClosed(FUNDED, false);
    SuspendedPasses(iset s | Reached(FUNDED, s, false));
  }
}
