/** The books of a user whose key expires and whose balance is adjusted: the money that a user started with,
    and the adjustments, against the balance and what was paid. */
module PayoutBooks {
  import opened Base
  import opened PayoutProtocol
  import opened PayoutLedger
  import opened PayoutTheorems
  import opened PayoutDeposits

  // ----- Adjustments and refills ------------------------------------------------------------------------

  /** What an accepted adjustment adds. */
  function Adjustment(s: State, a: Action, u: UserId): int {
    if a.Adjust? && a.user == u && u in s.db.users && (a.credit || s.db.users[u].balance >= a.amount)
    then (if a.credit then a.amount else 0 - a.amount) else 0
  }

  function Adjusted(s: State, actions: seq<Action>, maxRetries: nat, u: UserId): int
    decreases |actions|
  {
    if actions == [] then 0
    else
      var n := |actions| - 1;
      Adjusted(s, actions[..n], maxRetries, u) + Adjustment(Run(s, actions[..n], maxRetries), actions[n], u)
  }

  /** The step fills or overwrites the key of `u` with a value from elsewhere: a first-access sync, a
      read-through, or an adjustment that falls back to its re-sync. */
  function Filled(s: State, a: Action, u: UserId): Option<int> {
    if Syncs(s, a, u) then Some(s.calls[a.i].seen.balance)
    else if a == GetBalance(u) && u !in s.db.balances && u in s.db.users then Some(s.db.users[u].balance)
    else if Adjustment(s, a, u) != 0 && (u !in s.db.balances || (!a.credit && s.db.balances[u] < a.amount))
    then Some(s.db.users[u].balance + Adjustment(s, a, u))
    else None
  }

  /** What was put into the key, by the ledger. */
  function PutIn(db: Db, u: UserId): int { Deposits(db, u) + Drift(db, u) }

  // ----- Exactly when the books are right -----------------------------------------------------------------

  /** While the key is there, the starting money and the adjustments, less the balance, are what was paid. */
  predicate Right(s0: State, actions: seq<Action>, maxRetries: nat, u: UserId) {
    var db := Run(s0, actions, maxRetries).db;
    u in db.balances ==> StartOf(s0, u) + Adjusted(s0, actions, maxRetries, u) - db.balances[u] == NetOut(db.txs, u)
  }

  predicate AlwaysRight(s0: State, actions: seq<Action>, maxRetries: nat, u: UserId)
    decreases |actions|
  {
    && Right(s0, actions, maxRetries, u)
    && (actions == [] || AlwaysRight(s0, actions[..|actions| - 1], maxRetries, u))
  }

  /** A step that fills the key fills in what is left. */
  predicate FillsRight(s0: State, actions: seq<Action>, maxRetries: nat, a: Action, u: UserId) {
    var s := Run(s0, actions, maxRetries);
    Filled(s, a, u).Some? ==>
      StartOf(s0, u) + Adjusted(s0, actions, maxRetries, u) + Adjustment(s, a, u) - Filled(s, a, u).value == NetOut(s.db.txs, u)
  }

  predicate AlwaysFillsRight(s0: State, actions: seq<Action>, maxRetries: nat, u: UserId)
    decreases |actions|
  {
    actions == [] ||
    var n := |actions| - 1;
    AlwaysFillsRight(s0, actions[..n], maxRetries, u) && FillsRight(s0, actions[..n], maxRetries, actions[n], u)
  }

  /** How one step moves the key and its ledger. */
  predicate Moves(db: Db, db': Db, u: UserId, filled: Option<int>, adjustment: int) {
    && (filled.Some? ==> u in db'.balances && db'.balances[u] == filled.value && PutIn(db', u) == PutIn(db, u) + filled.value - Balance(db, u))
    && (filled.None? && u in db'.balances ==> u in db.balances && PutIn(db', u) == PutIn(db, u) + adjustment)
  }

  lemma CallMoves(s: State, a: Action, maxRetries: nat, u: UserId)
    requires a.StepCall?
    ensures Moves(s.db, Apply(s, a, maxRetries).db, u, Filled(s, a, u), 0)
  {
    if a.i < |s.calls| && s.calls[a.i].pc != SyncCache && s.calls[a.i].pc != Publish {
      CallKeepsKeys(s.db, s.calls[a.i], a.o, a.verdict);
    }
  }

  lemma HandlerMoves(s: State, a: Action, maxRetries: nat, u: UserId)
    requires a.StepHandler?
    ensures Moves(s.db, Apply(s, a, maxRetries).db, u, None, 0)
  {
    if a.i < |s.handlers| { HandlerKeys(s.db, s.handlers[a.i], a.o); }
  }

  /** The balances that an accepted adjustment writes, Mongo first, and its deposit. */
  function AdjustPuts(db: Db, w: UserId, amount: nat, credit: bool): (int, int, int)
    requires w in db.users
  {
    var delta := if credit then amount else 0 - amount;
    var after := db.users[w].balance + delta;
    (after,
     if w in db.balances && (credit || db.balances[w] >= amount) then db.balances[w] + delta else after,
     if w in db.balances then delta else after)
  }

  lemma AdjustIs(db: Db, w: UserId, amount: nat, credit: bool)
    ensures var db' := AdminAdjust(db, w, amount, credit);
      if w in db.users && amount > 0 && (credit || db.users[w].balance >= amount)
      then (var (balance, v, deposit) := AdjustPuts(db, w, amount, credit); db' == PutBalance(SetUserBalance(db, w, balance), w, v, deposit))
      else db' == db
  {}

  lemma PutMoves(db: Db, w: UserId, balance: int, v: int, deposit: int, u: UserId)
    ensures var db' := PutBalance(SetUserBalance(db, w, balance), w, v, deposit);
      && (u == w ==> u in db'.balances && db'.balances[u] == v && PutIn(db', u) == PutIn(db, u) + v - Balance(db, u))
      && (u != w ==> (u in db'.balances <==> u in db.balances) && PutIn(db', u) == PutIn(db, u))
  {}

  lemma AdjustMoves(s: State, a: Action, maxRetries: nat, u: UserId)
    requires a.Adjust?
    ensures Moves(s.db, Apply(s, a, maxRetries).db, u, Filled(s, a, u), Adjustment(s, a, u))
  {
    AdjustIs(s.db, a.user, a.amount, a.credit);
    if AdminAdjust(s.db, a.user, a.amount, a.credit) != s.db {
      var (balance, v, deposit) := AdjustPuts(s.db, a.user, a.amount, a.credit);
      PutMoves(s.db, a.user, balance, v, deposit, u);
    }
  }

  lemma SameMoves(db: Db, db': Db, u: UserId)
    requires db'.balances == db.balances && db'.deposits == db.deposits && db'.drift == db.drift
    ensures Moves(db, db', u, None, 0)
  {}

  lemma DropMoves(db: Db, w: UserId, u: UserId)
    ensures Moves(db, DropBalance(db, w), u, None, 0)
  {}

  lemma ReadMoves(db: Db, w: UserId, u: UserId)
    ensures Moves(db, ReadThrough(db, w), u, if w == u && u !in db.balances && u in db.users then Some(db.users[u].balance) else None, 0)
  {}

  lemma NoFill(s: State, a: Action, u: UserId)
    requires !a.StepCall? && !a.Adjust? && !a.GetBalance?
    ensures Filled(s, a, u) == None && Adjustment(s, a, u) == 0
  {}

  lemma ReadFills(s: State, w: UserId, u: UserId)
    ensures Filled(s, GetBalance(w), u) == if w == u && u !in s.db.balances && u in s.db.users then Some(s.db.users[u].balance) else None
    ensures Adjustment(s, GetBalance(w), u) == 0
  {}

  lemma QueueKeys(s: State, a: Action, maxRetries: nat)
    requires a.StartCall? || a.Deliver? || a.Duplicate? || a.Republish?
    ensures Apply(s, a, maxRetries).db == s.db
  {}

  lemma FlagMoves(s: State, a: Action, maxRetries: nat, u: UserId)
    requires a.ExpireLock? || a.SetActive?
    ensures Moves(s.db, Apply(s, a, maxRetries).db, u, None, 0)
  {
    SameMoves(s.db, Apply(s, a, maxRetries).db, u);
  }

  lemma StepMoves(s: State, a: Action, maxRetries: nat, u: UserId)
    ensures Moves(s.db, Apply(s, a, maxRetries).db, u, Filled(s, a, u), Adjustment(s, a, u))
  {
    match a
    case StepCall(_, _, _) => CallMoves(s, a, maxRetries, u);
    case Adjust(_, _, _) => AdjustMoves(s, a, maxRetries, u);
    case GetBalance(w) =>
      ReadFills(s, w, u);
      ReadMoves(s.db, w, u);
    case _ =>
      NoFill(s, a, u);
      NoFillMoves(s, a, maxRetries, u);
  }

  lemma NoFillMoves(s: State, a: Action, maxRetries: nat, u: UserId)
    requires !a.StepCall? && !a.Adjust? && !a.GetBalance?
    ensures Moves(s.db, Apply(s, a, maxRetries).db, u, None, 0)
  {
    if a.StepHandler? {
      HandlerMoves(s, a, maxRetries, u);
    } else if a.ExpireBalance? {
      DropMoves(s.db, a.user, u);
    } else if a.ExpireLock? || a.SetActive? {
      FlagMoves(s, a, maxRetries, u);
    } else {
      QueueKeys(s, a, maxRetries);
      SameMoves(s.db, s.db, u);
    }
  }

  /** The same in terms of the ledger. */
  lemma {:induction false} RightByLedger(s0: State, actions: seq<Action>, maxRetries: nat, u: UserId)
    requires Initial(s0)
    ensures var db := Run(s0, actions, maxRetries).db;
      Right(s0, actions, maxRetries, u) <==> (u in db.balances ==> PutIn(db, u) == StartOf(s0, u) + Adjusted(s0, actions, maxRetries, u))
  {
    LedgerIsExact(s0, actions, maxRetries, u);
  }

  lemma {:induction false} StepRight(s0: State, actions: seq<Action>, maxRetries: nat, u: UserId)
    requires Initial(s0) && actions != [] && Right(s0, actions[..|actions| - 1], maxRetries, u)
    ensures Right(s0, actions, maxRetries, u) <==> FillsRight(s0, actions[..|actions| - 1], maxRetries, actions[|actions| - 1], u)
  {
    var n := |actions| - 1;
    var s := Run(s0, actions[..n], maxRetries);
    RightByLedger(s0, actions, maxRetries, u);
    RightByLedger(s0, actions[..n], maxRetries, u);
    LedgerIsExact(s0, actions[..n], maxRetries, u);
    StepMoves(s, actions[n], maxRetries, u);
  }

  /** Over all runs, expiries and adjustments included: the money is accounted for whenever the key is there
      if and only if every sync, read-through and re-sync fills in what is left. */
  lemma {:induction false} BooksIff(s0: State, actions: seq<Action>, maxRetries: nat, u: UserId)
    requires Initial(s0)
    ensures AlwaysRight(s0, actions, maxRetries, u) <==> AlwaysFillsRight(s0, actions, maxRetries, u)
    decreases |actions|
  {
    if actions == [] {
      RightByLedger(s0, actions, maxRetries, u);
    } else {
      BooksIff(s0, actions[..|actions| - 1], maxRetries, u);
      if AlwaysRight(s0, actions[..|actions| - 1], maxRetries, u) {
        RightNow(s0, actions[..|actions| - 1], maxRetries, u);
        StepRight(s0, actions, maxRetries, u);
      }
    }
  }

  lemma {:induction false} RightNow(s0: State, actions: seq<Action>, maxRetries: nat, u: UserId)
    requires AlwaysRight(s0, actions, maxRetries, u)
    ensures Right(s0, actions, maxRetries, u)
  {}

  // ----- Calm runs ----------------------------------------------------------------------------------------

  /** A call that has loaded the user's document, and may yet sync it. */
  predicate Aware(pc: CallPc) { pc.CheckCurrency? || pc.Acquire? || pc.CheckAccount? || pc.CheckLimits? || pc.CheckCache? }

  predicate NoneAware(s: State, u: UserId) {
    forall i :: 0 <= i < |s.calls| && s.calls[i].user == u ==> !Aware(s.calls[i].pc) && s.calls[i].pc != SyncCache
  }

  predicate NoneSyncing(s: State, u: UserId) { forall i :: 0 <= i < |s.calls| && s.calls[i].user == u ==> s.calls[i].pc != SyncCache }

  /** A worker between its deduction and its update of the document. */
  predicate Busy(h: Handler, u: UserId) { h.msg.user == u && (h.pc.Complete? || h.pc.SyncMongo?) }

  predicate NoneBusy(s: State, u: UserId) { forall j :: 0 <= j < |s.handlers| ==> !Busy(s.handlers[j], u) }

  /** The key of `u` expires only while no call may yet sync a document loaded before, and no worker is to
      update it; deductions and adjustments come one after the other, and not during a sync; and the workers
      of `u` get their answers. */
  predicate Calm(s: State, a: Action, u: UserId) {
    match a
    case ExpireBalance(w) => w == u ==> NoneBusy(s, u) && NoneAware(s, u)
    case Adjust(_, _, _) => Adjustment(s, a, u) != 0 ==> NoneBusy(s, u) && NoneSyncing(s, u)
    case StepHandler(j, o) =>
      j < |s.handlers| && s.handlers[j].msg.user == u ==>
        o == Replied && (s.handlers[j].pc == Deduct ==> NoneBusy(s, u) && NoneSyncing(s, u))
    case _ => true
  }

  predicate CalmRun(s: State, actions: seq<Action>, maxRetries: nat, u: UserId)
    decreases |actions|
  {
    actions == [] ||
    var n := |actions| - 1;
    CalmRun(s, actions[..n], maxRetries, u) && Calm(Run(s, actions[..n], maxRetries), actions[n], u)
  }

  predicate CallCalm(db: Db, c: Call, left: int) {
    && (Aware(c.pc) ==> c.user in db.balances || c.seen.balance == left)
    && (c.pc == SyncCache ==> c.seen.balance == left)
  }

  predicate HandlerCalm(db: Db, h: Handler, left: int) {
    && h.pc != Rollback
    && (h.pc.Complete? || h.pc.SyncMongo? ==> h.msg.user in db.balances && h.pc.newBalance == left)
  }

  predicate KeyRight(db: Db, u: UserId, left: int) { u in db.balances ==> db.balances[u] == left }

  predicate CallsCalm(s: State, u: UserId, left: int) {
    forall i :: 0 <= i < |s.calls| && s.calls[i].user == u ==> CallCalm(s.db, s.calls[i], left)
  }

  predicate HandlersCalm(s: State, u: UserId, left: int) {
    && (forall j :: 0 <= j < |s.handlers| && s.handlers[j].msg.user == u ==> HandlerCalm(s.db, s.handlers[j], left))
    && (forall j, k :: 0 <= j < k < |s.handlers| && Busy(s.handlers[j], u) ==> !Busy(s.handlers[k], u))
  }

  predicate DocumentRight(s: State, u: UserId, left: int) { u in s.db.users && NoneBusy(s, u) ==> s.db.users[u].balance == left }

  /** `left` is in the key if it is there, in the document unless a worker is about to update it, and wherever
      a sync might take it from. */
  predicate CalmInv(s: State, u: UserId, left: int) {
    KeyRight(s.db, u, left) && DocumentRight(s, u, left) && CallsCalm(s, u, left) && HandlersCalm(s, u, left)
  }

  lemma CallCalmStep(db: Db, c: Call, o: Outcome, verdict: bool, left: int)
    requires c.pc != Publish && CallCalm(db, c, left) && KeyRight(db, c.user, left)
    requires c.pc == LoadUser && c.user in db.users ==> c.user in db.balances || db.users[c.user].balance == left
    ensures var (db', c') := CallStep(db, c, o, verdict);
      && CallCalm(db', c', left) && KeyRight(db', c.user, left) && c'.user == c.user
      && (c.user in db.balances ==> c.user in db'.balances)
  {}

  lemma CallElsewhere(db: Db, c: Call, o: Outcome, verdict: bool, u: UserId)
    ensures var (db', c') := CallStep(db, c, o, verdict);
      && db'.users == db.users && c'.user == c.user
      && (u != c.user ==> (u in db'.balances <==> u in db.balances) && (u in db.balances ==> db'.balances[u] == db.balances[u]))
  {
    CallRecords(db, c, o, verdict);
    if c.pc != SyncCache { CallKeepsKeys(db, c, o, verdict); }
  }

  lemma StepCallCalm(s: State, i: nat, o: Outcome, verdict: bool, maxRetries: nat, u: UserId, left: int)
    requires CalmInv(s, u, left) && i < |s.calls| && s.calls[i].pc != Publish
    ensures CalmInv(Apply(s, StepCall(i, o, verdict), maxRetries), u, left)
  {
    var c := s.calls[i];
    var s' := Apply(s, StepCall(i, o, verdict), maxRetries);
    CallElsewhere(s.db, c, o, verdict, u);
    assert NoneBusy(s', u) <==> NoneBusy(s, u);
    if c.user == u {
      if u !in s.db.balances { AbsentIdle(s, u, left); }
      CallCalmStep(s.db, c, o, verdict, left);
    }
    forall k | 0 <= k < |s'.calls| && s'.calls[k].user == u ensures CallCalm(s'.db, s'.calls[k], left) {
      if k != i { assert CallCalm(s.db, s.calls[k], left); }
    }
  }

  /** Without a key no worker is busy. */
  lemma AbsentIdle(s: State, u: UserId, left: int)
    requires HandlersCalm(s, u, left) && u !in s.db.balances
    ensures NoneBusy(s, u)
  {
    forall j | 0 <= j < |s.handlers| ensures !Busy(s.handlers[j], u) {
      if s.handlers[j].msg.user == u { assert HandlerCalm(s.db, s.handlers[j], left); }
    }
  }

  lemma PublishCalm(s: State, i: nat, o: Outcome, u: UserId, left: int)
    requires CalmInv(s, u, left) && i < |s.calls| && s.calls[i].pc == Publish
    ensures CalmInv(PublishStep(s, i, o), u, left)
  {
    var s' := PublishStep(s, i, o);
    assert NoneBusy(s', u) <==> NoneBusy(s, u);
    forall k | 0 <= k < |s'.calls| && s'.calls[k].user == u ensures CallCalm(s'.db, s'.calls[k], left) {
      if k != i { assert CallCalm(s.db, s.calls[k], left); }
    }
  }

  // --- workers

  lemma DeductStep(db: Db, h: Handler)
    requires h.pc == Deduct
    ensures var (db', h') := HandlerStep(db, h, Replied); var r := TryDeduct(db, h.msg.user, h.msg.amount);
      && db'.users == db.users && h'.msg == h.msg
      && h'.pc == (if r.Some? then Complete(r.value) else MarkFailed)
      && db'.balances == if r.Some? then db.balances[h.msg.user := r.value] else db.balances
  {}

  lemma SyncStep(db: Db, h: Handler)
    requires h.pc.SyncMongo?
    ensures var (db', h') := HandlerStep(db, h, Replied);
      && db'.balances == db.balances && h' == h.(pc := Unlock) && db' == SetUserBalance(db, h.msg.user, h.pc.newBalance)
  {}

  lemma PlainStep(db: Db, h: Handler)
    requires h.pc != Deduct && !h.pc.SyncMongo? && h.pc != Rollback
    ensures var (db', h') := HandlerStep(db, h, Replied);
      && db'.balances == db.balances && db'.users == db.users && h'.msg == h.msg && h'.pc != Rollback
      && (h'.pc.Complete? || h'.pc.SyncMongo? ==> (h.pc.Complete? || h.pc.SyncMongo?) && h'.pc.newBalance == h.pc.newBalance)
      && (h.pc.Complete? ==> h'.pc.SyncMongo?)
  {}

  /** What a worker of `u` leaves in the key. */
  function LeftAfter(db: Db, h: Handler, u: UserId, left: int): int {
    if h.msg.user == u && h.pc == Deduct && TryDeduct(db, u, h.msg.amount).Some? then left - h.msg.amount else left
  }

  lemma DeductCalm(s: State, s': State, j: nat, u: UserId, left: int)
    requires CalmInv(s, u, left) && Calm(s, StepHandler(j, Replied), u)
    requires j < |s.handlers| && s.handlers[j].pc == Deduct && s.handlers[j].msg.user == u
    requires var (db', h') := HandlerStep(s.db, s.handlers[j], Replied); s' == s.(db := db', handlers := s.handlers[j := h'])
    ensures CalmInv(s', u, LeftAfter(s.db, s.handlers[j], u, left))
  {
    DeductStep(s.db, s.handlers[j]);
    forall k | 0 <= k < |s.handlers| ensures !Busy(s.handlers[k], u) {}
    if TryDeduct(s.db, u, s.handlers[j].msg.amount).Some? { assert Busy(s'.handlers[j], u); } else { assert NoneBusy(s', u); }
    forall k | 0 <= k < |s'.calls| && s'.calls[k].user == u ensures CallCalm(s'.db, s'.calls[k], LeftAfter(s.db, s.handlers[j], u, left)) {
      assert CallCalm(s.db, s.calls[k], left);
    }
    forall k | 0 <= k < |s'.handlers| && s'.handlers[k].msg.user == u
      ensures HandlerCalm(s'.db, s'.handlers[k], LeftAfter(s.db, s.handlers[j], u, left))
    {
      if k != j { assert HandlerCalm(s.db, s.handlers[k], left); }
    }
  }

  lemma SyncCalm(s: State, s': State, j: nat, u: UserId, left: int)
    requires CalmInv(s, u, left) && j < |s.handlers| && s.handlers[j].pc.SyncMongo? && s.handlers[j].msg.user == u
    requires var (db', h') := HandlerStep(s.db, s.handlers[j], Replied); s' == s.(db := db', handlers := s.handlers[j := h'])
    ensures CalmInv(s', u, left)
  {
    SyncStep(s.db, s.handlers[j]);
    assert HandlerCalm(s.db, s.handlers[j], left) && Busy(s.handlers[j], u);
    SameKeys(s, s', u, left);
    forall k | 0 <= k < |s'.handlers| && s'.handlers[k].msg.user == u ensures HandlerCalm(s'.db, s'.handlers[k], left) {
      if k != j { assert HandlerCalm(s.db, s.handlers[k], left); }
    }
  }

  /** Calls look at the key only. */
  lemma SameKeys(s: State, s': State, u: UserId, left: int)
    requires CallsCalm(s, u, left) && KeyRight(s.db, u, left) && s'.calls == s.calls
    requires (u in s'.db.balances <==> u in s.db.balances) && (u in s.db.balances ==> s'.db.balances[u] == s.db.balances[u])
    ensures CallsCalm(s', u, left) && KeyRight(s'.db, u, left)
  {
    forall k | 0 <= k < |s'.calls| && s'.calls[k].user == u ensures CallCalm(s'.db, s'.calls[k], left) { assert CallCalm(s.db, s.calls[k], left); }
  }

  lemma PlainCalm(s: State, s': State, j: nat, u: UserId, left: int)
    requires CalmInv(s, u, left) && j < |s.handlers| && s.handlers[j].msg.user == u && s.handlers[j].pc != Deduct && !s.handlers[j].pc.SyncMongo?
    requires var (db', h') := HandlerStep(s.db, s.handlers[j], Replied); s' == s.(db := db', handlers := s.handlers[j := h'])
    ensures CalmInv(s', u, left)
  {
    assert HandlerCalm(s.db, s.handlers[j], left);
    PlainStep(s.db, s.handlers[j]);
    SameKeys(s, s', u, left);
    forall k | 0 <= k < |s'.handlers| ensures Busy(s'.handlers[k], u) <==> Busy(s.handlers[k], u) {}
    assert NoneBusy(s', u) ==> NoneBusy(s, u) by {
      if NoneBusy(s', u) { forall k | 0 <= k < |s.handlers| ensures !Busy(s.handlers[k], u) { assert !Busy(s'.handlers[k], u); } }
    }
    forall k | 0 <= k < |s'.handlers| && s'.handlers[k].msg.user == u ensures HandlerCalm(s'.db, s'.handlers[k], left) {
      assert HandlerCalm(s.db, s.handlers[k], left);
    }
  }

  /** Another user's worker, or one that is acknowledged. */
  lemma OtherCalm(s: State, s': State, j: nat, u: UserId, left: int)
    requires CalmInv(s, u, left) && j < |s.handlers| && s'.calls == s.calls && |s'.handlers| == |s.handlers|
    requires s'.handlers == s.handlers[j := s'.handlers[j]] && !Busy(s.handlers[j], u) && !Busy(s'.handlers[j], u)
    requires s'.handlers[j].msg.user == u ==> s'.handlers[j].pc != Rollback
    requires (u in s'.db.balances <==> u in s.db.balances) && (u in s.db.balances ==> s'.db.balances[u] == s.db.balances[u])
    requires (u in s'.db.users <==> u in s.db.users) && (u in s.db.users ==> s'.db.users[u] == s.db.users[u])
    ensures CalmInv(s', u, left)
  {
    SameKeys(s, s', u, left);
    forall k | 0 <= k < |s'.handlers| ensures Busy(s'.handlers[k], u) <==> Busy(s.handlers[k], u) {}
    assert NoneBusy(s', u) ==> NoneBusy(s, u) by {
      if NoneBusy(s', u) { forall k | 0 <= k < |s.handlers| ensures !Busy(s.handlers[k], u) { assert !Busy(s'.handlers[k], u); } }
    }
    forall k | 0 <= k < |s'.handlers| && s'.handlers[k].msg.user == u ensures HandlerCalm(s'.db, s'.handlers[k], left) {
      if k != j { assert HandlerCalm(s.db, s.handlers[k], left); }
    }
  }

  lemma StepHandlerCalm(s: State, j: nat, o: Outcome, maxRetries: nat, u: UserId, left: int)
    requires CalmInv(s, u, left) && Calm(s, StepHandler(j, o), u) && j < |s.handlers|
    ensures CalmInv(Apply(s, StepHandler(j, o), maxRetries), u, LeftAfter(s.db, s.handlers[j], u, left))
  {
    var h := s.handlers[j];
    var s' := Apply(s, StepHandler(j, o), maxRetries);
    if h.pc == Ack || h.pc == Nack {
      OtherCalm(s, s', j, u, left);
    } else if h.msg.user != u {
      HandlerKeys(s.db, h, o);
      HandlerUsers(s.db, h, o, u);
      HandlerKeepsTokens(s.db, h, o);
      OtherCalm(s, s', j, u, left);
    } else if h.pc == Deduct {
      DeductCalm(s, s', j, u, left);
    } else if h.pc.SyncMongo? {
      SyncCalm(s, s', j, u, left);
    } else {
      PlainCalm(s, s', j, u, left);
    }
  }

  // --- everything else

  lemma StoreCalm(s: State, db': Db, u: UserId, left: int)
    requires CalmInv(s, u, left)
    requires KeyRight(db', u, left) && (u in s.db.balances ==> u in db'.balances)
    requires (u in db'.users <==> u in s.db.users) && (u in s.db.users ==> db'.users[u].balance == s.db.users[u].balance)
    ensures CalmInv(s.(db := db'), u, left)
  {
    var s' := s.(db := db');
    assert NoneBusy(s', u) <==> NoneBusy(s, u);
    forall k | 0 <= k < |s'.calls| && s'.calls[k].user == u ensures CallCalm(db', s'.calls[k], left) { assert CallCalm(s.db, s.calls[k], left); }
    forall k | 0 <= k < |s'.handlers| && s'.handlers[k].msg.user == u ensures HandlerCalm(db', s'.handlers[k], left) {
      assert HandlerCalm(s.db, s.handlers[k], left);
    }
  }

  /** The key may go, and what is left may change, while nobody is at work with it. */
  lemma RestCalm(s: State, db': Db, u: UserId, left: int, left': int)
    requires CalmInv(s, u, left) && NoneBusy(s, u) && (NoneAware(s, u) || (NoneSyncing(s, u) && u in db'.balances))
    requires KeyRight(db', u, left') && (u in db'.users ==> db'.users[u].balance == left')
    ensures CalmInv(s.(db := db'), u, left')
  {
    var s' := s.(db := db');
    assert NoneBusy(s', u);
    forall k | 0 <= k < |s'.calls| && s'.calls[k].user == u ensures CallCalm(db', s'.calls[k], left') { assert CallCalm(s.db, s.calls[k], left); }
    forall k | 0 <= k < |s'.handlers| && s'.handlers[k].msg.user == u ensures HandlerCalm(db', s'.handlers[k], left') {
      assert HandlerCalm(s.db, s.handlers[k], left) && !Busy(s.handlers[k], u);
    }
  }

  lemma AdjustCalm(s: State, a: Action, maxRetries: nat, u: UserId, left: int)
    requires CalmInv(s, u, left) && Calm(s, a, u) && a.Adjust?
    ensures CalmInv(Apply(s, a, maxRetries), u, left + Adjustment(s, a, u))
  {
    var db' := AdminAdjust(s.db, a.user, a.amount, a.credit);
    if Adjustment(s, a, u) != 0 {
      AdjustBoth(s.db, u, a.amount, a.credit, left);
      RestCalm(s, db', u, left, left + Adjustment(s, a, u));
    } else {
      StoreCalm(s, db', u, left);
    }
  }

  /** When both stores agree, an adjustment changes both. */
  lemma AdjustBoth(db: Db, u: UserId, amount: nat, credit: bool, left: int)
    requires u in db.users && db.users[u].balance == left && KeyRight(db, u, left) && amount > 0 && (credit || left >= amount)
    ensures var db' := AdminAdjust(db, u, amount, credit); var left' := if credit then left + amount else left - amount;
      u in db'.balances && db'.balances[u] == left' && u in db'.users && db'.users[u].balance == left'
  {}

  lemma QueueCalm(s: State, a: Action, maxRetries: nat, u: UserId, left: int)
    requires CalmInv(s, u, left) && (a.StartCall? || a.Deliver? || a.Duplicate? || a.Republish?)
    ensures CalmInv(Apply(s, a, maxRetries), u, left)
  {
    var s' := Apply(s, a, maxRetries);
    assert s'.db == s.db && s.calls <= s'.calls && s.handlers <= s'.handlers;
    if NoneBusy(s', u) { forall k | 0 <= k < |s.handlers| ensures !Busy(s.handlers[k], u) { assert !Busy(s'.handlers[k], u); } }
    forall k | 0 <= k < |s'.calls| && s'.calls[k].user == u ensures CallCalm(s'.db, s'.calls[k], left) {
      if k < |s.calls| { assert CallCalm(s.db, s.calls[k], left); }
    }
    forall k | 0 <= k < |s'.handlers| && s'.handlers[k].msg.user == u ensures HandlerCalm(s'.db, s'.handlers[k], left) {
      if k < |s.handlers| { assert HandlerCalm(s.db, s.handlers[k], left); }
    }
  }

  lemma ReadCalm(s: State, w: UserId, u: UserId, left: int)
    requires CalmInv(s, u, left)
    ensures CalmInv(s.(db := ReadThrough(s.db, w)), u, left)
  {
    if u !in s.db.balances { AbsentIdle(s, u, left); }
    StoreCalm(s, ReadThrough(s.db, w), u, left);
  }

  lemma OtherStepCalm(s: State, a: Action, maxRetries: nat, u: UserId, left: int)
    requires CalmInv(s, u, left) && Calm(s, a, u) && !a.StepCall? && !a.StepHandler?
    ensures CalmInv(Apply(s, a, maxRetries), u, left + Adjustment(s, a, u))
  {
    match a
    case ExpireLock(w) => StoreCalm(s, s.db.(locks := s.db.locks - {w}), u, left);
    case ExpireBalance(w) => if w == u { RestCalm(s, DropBalance(s.db, w), u, left, left); } else { StoreCalm(s, DropBalance(s.db, w), u, left); }
    case GetBalance(w) => ReadCalm(s, w, u, left);
    case Adjust(_, _, _) => AdjustCalm(s, a, maxRetries, u, left);
    case SetActive(_, _) => StoreCalm(s, Apply(s, a, maxRetries).db, u, left);
    case _ => QueueCalm(s, a, maxRetries, u, left);
  }

  /** What is left of the starting money and the adjustments. */
  function Left(s0: State, actions: seq<Action>, maxRetries: nat, u: UserId): int {
    StartOf(s0, u) + Adjusted(s0, actions, maxRetries, u) - NetOut(Run(s0, actions, maxRetries).db.txs, u)
  }

  /** A write from outside changes the balance as it changes the ledger. */
  predicate InStep(db: Db, db': Db, u: UserId) { PutIn(db', u) - Balance(db', u) == PutIn(db, u) - Balance(db, u) }

  lemma CallInStep(s: State, i: nat, o: Outcome, verdict: bool, maxRetries: nat, u: UserId)
    ensures InStep(s.db, Apply(s, StepCall(i, o, verdict), maxRetries).db, u)
  {
    if i < |s.calls| && s.calls[i].pc != SyncCache && s.calls[i].pc != Publish { CallKeepsKeys(s.db, s.calls[i], o, verdict); }
  }

  lemma PutInStep(db: Db, w: UserId, balance: int, v: int, deposit: int, u: UserId)
    ensures InStep(db, PutBalance(SetUserBalance(db, w, balance), w, v, deposit), u)
  {}

  lemma AdjustInStep(db: Db, w: UserId, amount: nat, credit: bool, u: UserId)
    ensures InStep(db, AdminAdjust(db, w, amount, credit), u)
  {
    AdjustIs(db, w, amount, credit);
    if AdminAdjust(db, w, amount, credit) != db {
      var (balance, v, deposit) := AdjustPuts(db, w, amount, credit);
      PutInStep(db, w, balance, v, deposit, u);
    }
  }

  lemma OthersInStep(s: State, a: Action, maxRetries: nat, u: UserId)
    requires !a.StepCall? && !a.StepHandler? && !a.Adjust?
    ensures InStep(s.db, Apply(s, a, maxRetries).db, u)
  {}

  lemma LeftSteps(s: State, a: Action, maxRetries: nat, u: UserId)
    ensures var db' := Apply(s, a, maxRetries).db; if a.StepHandler? then PutIn(db', u) == PutIn(s.db, u) else InStep(s.db, db', u)
  {
    match a
    case StepCall(i, o, verdict) => CallInStep(s, i, o, verdict, maxRetries, u);
    case StepHandler(j, o) => if j < |s.handlers| { HandlerKeys(s.db, s.handlers[j], o); }
    case Adjust(w, amount, credit) => AdjustInStep(s.db, w, amount, credit, u);
    case _ => OthersInStep(s, a, maxRetries, u);
  }

  lemma DeductBalances(s: State, j: nat, o: Outcome, maxRetries: nat, u: UserId, left: int)
    requires CalmInv(s, u, left) && Calm(s, StepHandler(j, o), u) && j < |s.handlers|
    ensures Balance(Apply(s, StepHandler(j, o), maxRetries).db, u) - Balance(s.db, u) == LeftAfter(s.db, s.handlers[j], u, left) - left
  {
    var h := s.handlers[j];
    if h.pc != Ack && h.pc != Nack {
      if h.msg.user != u {
        HandlerKeys(s.db, h, o);
      } else {
        assert HandlerCalm(s.db, h, left);
        if h.pc == Deduct { DeductStep(s.db, h); } else if h.pc.SyncMongo? { SyncStep(s.db, h); } else { PlainStep(s.db, h); }
      }
    }
  }

  lemma {:induction false} LeftStep(s0: State, actions: seq<Action>, maxRetries: nat, u: UserId)
    requires Initial(s0) && actions != []
    requires CalmInv(Run(s0, actions[..|actions| - 1], maxRetries), u, Left(s0, actions[..|actions| - 1], maxRetries, u))
    requires Calm(Run(s0, actions[..|actions| - 1], maxRetries), actions[|actions| - 1], u)
    ensures var n := |actions| - 1; var s, a, left := Run(s0, actions[..n], maxRetries), actions[n], Left(s0, actions[..n], maxRetries, u);
      Left(s0, actions, maxRetries, u) ==
        if a.StepHandler? && a.i < |s.handlers| then LeftAfter(s.db, s.handlers[a.i], u, left) else left + Adjustment(s, a, u)
  {
    var n := |actions| - 1;
    var s, a := Run(s0, actions[..n], maxRetries), actions[n];
    LedgerIsExact(s0, actions, maxRetries, u);
    LedgerIsExact(s0, actions[..n], maxRetries, u);
    LeftSteps(s, a, maxRetries, u);
    if a.StepHandler? && a.i < |s.handlers| { DeductBalances(s, a.i, a.o, maxRetries, u, Left(s0, actions[..n], maxRetries, u)); }
  }

  /** Redis and the document agree to begin with. */
  predicate Agreed(s: State, u: UserId) { u in s.db.balances && u in s.db.users ==> s.db.balances[u] == s.db.users[u].balance }

  /** In a calm run what is left is in the key while it is there, and in the document while no worker is about
      to update it. */
  lemma {:induction false} CalmBooks(s0: State, actions: seq<Action>, maxRetries: nat, u: UserId)
    requires Initial(s0) && Agreed(s0, u) && CalmRun(s0, actions, maxRetries, u)
    ensures CalmInv(Run(s0, actions, maxRetries), u, Left(s0, actions, maxRetries, u))
    decreases |actions|
  {
    if actions != [] {
      var n := |actions| - 1;
      var s, a, left := Run(s0, actions[..n], maxRetries), actions[n], Left(s0, actions[..n], maxRetries, u);
      CalmBooks(s0, actions[..n], maxRetries, u);
      LeftStep(s0, actions, maxRetries, u);
      StepCalm(s, a, maxRetries, u, left);
    }
  }

  lemma StepCalm(s: State, a: Action, maxRetries: nat, u: UserId, left: int)
    requires CalmInv(s, u, left) && Calm(s, a, u)
    ensures CalmInv(Apply(s, a, maxRetries), u,
      if a.StepHandler? && a.i < |s.handlers| then LeftAfter(s.db, s.handlers[a.i], u, left) else left + Adjustment(s, a, u))
  {
    match a
    case StepCall(i, o, verdict) =>
      if i < |s.calls| {
        if s.calls[i].pc == Publish { PublishCalm(s, i, o, u, left); } else { StepCallCalm(s, i, o, verdict, maxRetries, u, left); }
      }
    case StepHandler(j, o) => if j < |s.handlers| { StepHandlerCalm(s, j, o, maxRetries, u, left); }
    case _ => OtherStepCalm(s, a, maxRetries, u, left);
  }

  /** Start and adjustments, less the balance, are the completed total, in a calm and clean run once no worker
      is active, in whichever of the two stores the balance is read, and however often the key has expired. */
  lemma {:induction false} StartAndAdjustments(s0: State, actions: seq<Action>, maxRetries: nat, u: UserId)
    requires Initial(s0) && Agreed(s0, u) && CalmRun(s0, actions, maxRetries, u)
    requires CleanRun(s0, actions, maxRetries) && Quiescent(Run(s0, actions, maxRetries))
    ensures var db := Run(s0, actions, maxRetries).db; var money := StartOf(s0, u) + Adjusted(s0, actions, maxRetries, u);
      && (u in db.balances ==> money - db.balances[u] == CompletedTotal(db.txs, u))
      && (u in db.users ==> money - db.users[u].balance == CompletedTotal(db.txs, u))
  {
    var s := Run(s0, actions, maxRetries);
    CalmBooks(s0, actions, maxRetries, u);
    QuiescentLedger(s0, actions, maxRetries, u);
    LedgerIsExact(s0, actions, maxRetries, u);
    assert NoneBusy(s, u);
  }
}
