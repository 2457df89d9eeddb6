/** Who holds the per-user locks in every reachable state of the payout pipeline. */
module PayoutLocks {
  import opened Base
  import opened PayoutProtocol
  import opened PayoutLedger

  predicate HasLock(pc: CallPc) {
    pc in {CheckAccount, CheckLimits, CheckCache, SyncCache, CheckFunds, ScoreFraud, CreateTx, Publish, GiveBack, Returned}
  }

  /** What a call may rely on about its token. */
  ghost predicate CallLock(db: Db, c: Call) {
    && (HasLock(c.pc) ==> c.token.Some? && !c.freed)
    && (c.token.None? ==> !c.freed)
    && (!HasLock(c.pc) && c.pc != Threw ==> c.token.None?)
    && (c.token.Some? ==>
          && c.token.value < db.nextToken
          && (forall u :: u in db.locks && db.locks[u] == c.token.value ==> u == c.user && !c.freed))
  }

  ghost predicate LockInv(s: State) {
    && (forall u :: u in s.db.locks ==> s.db.locks[u] < s.db.nextToken)
    && (forall i :: 0 <= i < |s.calls| ==> CallLock(s.db, s.calls[i]))
    && (forall i, j :: 0 <= i < j < |s.calls| && s.calls[i].token.Some? ==> s.calls[i].token != s.calls[j].token)
  }

  /** Locks disappear, or a fresh token is written; nothing else happens to them. */
  ghost predicate LocksEvolve(db: Db, db': Db) {
    && db.nextToken <= db'.nextToken
    && forall u :: u in db'.locks ==>
         (u in db.locks && db'.locks[u] == db.locks[u]) || db.nextToken <= db'.locks[u] < db'.nextToken
  }

  lemma OthersKeepLocks(db: Db, db': Db, calls: seq<Call>)
    requires LocksEvolve(db, db')
    requires forall i :: 0 <= i < |calls| ==> CallLock(db, calls[i])
    ensures forall i :: 0 <= i < |calls| ==> CallLock(db', calls[i])
  {}

  lemma AcquireStepLock(db: Db, c: Call, o: Outcome, verdict: bool)
    requires CallLock(db, c) && (forall u :: u in db.locks ==> db.locks[u] < db.nextToken) && c.pc.Acquire?
    ensures var (db', c') := CallStep(db, c, o, verdict);
      && LocksEvolve(db, db') && CallLock(db', c')
      && (c'.token != c.token ==> c'.token == Some(db.nextToken) && db'.nextToken > db.nextToken)
  {}

  lemma OtherStepLock(db: Db, c: Call, o: Outcome, verdict: bool)
    requires CallLock(db, c) && !c.pc.Acquire?
    ensures var (db', c') := CallStep(db, c, o, verdict);
      LocksEvolve(db, db') && CallLock(db', c') && c'.token == c.token
  {}

  lemma CallStepLock(db: Db, c: Call, o: Outcome, verdict: bool)
    requires CallLock(db, c) && (forall u :: u in db.locks ==> db.locks[u] < db.nextToken)
    ensures var (db', c') := CallStep(db, c, o, verdict);
      && LocksEvolve(db, db') && CallLock(db', c')
      && (c'.token != c.token ==> c'.token == Some(db.nextToken) && db'.nextToken > db.nextToken)
  {
    if c.pc.Acquire? { AcquireStepLock(db, c, o, verdict); } else { OtherStepLock(db, c, o, verdict); }
  }

  lemma HandlerStepLock(db: Db, h: Handler, o: Outcome)
    ensures LocksEvolve(db, HandlerStep(db, h, o).0)
  {
    HandlerLocks(db, h, o);
    HandlerNextToken(db, h, o);
  }

  lemma HandlerNextToken(db: Db, h: Handler, o: Outcome)
    ensures HandlerStep(db, h, o).0.nextToken == db.nextToken
  {}

  lemma StepCallLocks(s: State, i: nat, o: Outcome, verdict: bool, maxRetries: nat)
    requires LockInv(s) && i < |s.calls|
    ensures LockInv(Apply(s, StepCall(i, o, verdict), maxRetries))
  {
    assert CallLock(s.db, s.calls[i]);
    if s.calls[i].pc != Publish {
      CallStepLock(s.db, s.calls[i], o, verdict);
      OthersKeepLocks(s.db, CallStep(s.db, s.calls[i], o, verdict).0, s.calls);
    }
  }

  lemma StepHandlerLocks(s: State, i: nat, o: Outcome, maxRetries: nat)
    requires LockInv(s) && i < |s.handlers|
    ensures LockInv(Apply(s, StepHandler(i, o), maxRetries))
  {
    var db' := HandlerStep(s.db, s.handlers[i], o).0;
    HandlerStepLock(s.db, s.handlers[i], o);
    OthersKeepLocks(s.db, db', s.calls);
  }

  lemma OtherLocks(s: State, a: Action, maxRetries: nat)
    requires LockInv(s) && !a.StepCall? && !a.StepHandler? && !a.StartCall?
    ensures LockInv(Apply(s, a, maxRetries))
  {
    var db' := Apply(s, a, maxRetries).db;
    assert db'.nextToken == s.db.nextToken;
    OthersKeepLocks(s.db, db', s.calls);
  }

  lemma {:induction false} RunLocks(s: State, actions: seq<Action>, maxRetries: nat)
    requires Initial(s)
    ensures LockInv(Run(s, actions, maxRetries))
    decreases |actions|
  {
    if actions != [] {
      var n := |actions| - 1;
      RunLocks(s, actions[..n], maxRetries);
      var s' := Run(s, actions[..n], maxRetries);
      match actions[n]
      case StepCall(i, o, verdict) =>
        if i < |s'.calls| { StepCallLocks(s', i, o, verdict, maxRetries); }
      case StepHandler(i, o) =>
        if i < |s'.handlers| { StepHandlerLocks(s', i, o, maxRetries); }
      case StartCall(_, _, _) =>
      case _ => OtherLocks(s', actions[n], maxRetries);
    }
  }

  /** Once the failure path of a call has run its release, no lock carries its token, then or ever
      after; and nobody but this call has that token. */
  lemma {:induction false} FailingExitHoldsNothing(s: State, actions: seq<Action>, maxRetries: nat, i: nat, u: UserId)
    requires Initial(s)
    ensures var s' := Run(s, actions, maxRetries);
      i < |s'.calls| && s'.calls[i].freed && u in s'.db.locks ==> s'.calls[i].token != Some(s'.db.locks[u])
  {
    RunLocks(s, actions, maxRetries);
    var s' := Run(s, actions, maxRetries);
    if i < |s'.calls| { assert CallLock(s'.db, s'.calls[i]); }
  }

  /** A lock of `u` that this call has written, with the step just taken or before. */
  predicate Written(c: Call, before: Db, after: Db) {
    c.user in after.locks && (c.token == Some(after.locks[c.user]) || after.locks[c.user] >= before.nextToken)
  }

  /** The step in which a call fails for good leaves a lock of its own behind if and only if its release
      never ran while it held the lock, or the lock was taken and the answer lost, so that the call does
      not know its value. */
  lemma {:induction false} FailingExitIff(s: State, actions: seq<Action>, maxRetries: nat, i: nat, o: Outcome, verdict: bool)
    requires Initial(s)
    requires var s' := Run(s, actions, maxRetries);
      i < |s'.calls| && s'.calls[i].pc != Threw && Apply(s', StepCall(i, o, verdict), maxRetries).calls[i].pc == Threw
    ensures var s' := Run(s, actions, maxRetries); var c := s'.calls[i];
      var t := Apply(s', StepCall(i, o, verdict), maxRetries);
      Written(c, s'.db, t.db) <==>
        || (c.pc == GiveBack && o == Unsent && c.user in s'.db.locks && c.token == Some(s'.db.locks[c.user]))
        || (c.pc.Acquire? && o == ReplyLost && c.user !in s'.db.locks)
  {
    RunLocks(s, actions, maxRetries);
    var s' := Run(s, actions, maxRetries);
    assert CallLock(s'.db, s'.calls[i]);
  }

  // ----- The account status ---------------------------------------------------------------------------

  /** Step `k` of the run is the one in which call `i` loads the document of its user. */
  predicate LoadsAt(s: State, actions: seq<Action>, maxRetries: nat, k: nat, i: nat) {
    && k < |actions| && actions[k].StepCall? && actions[k].i == i && actions[k].o == Replied
    && var before := Run(s, actions[..k], maxRetries);
       i < |before.calls| && before.calls[i].pc == LoadUser && before.calls[i].user in before.db.users
  }

  function LoadedAt(s: State, actions: seq<Action>, maxRetries: nat, k: nat, i: nat): User
    requires LoadsAt(s, actions, maxRetries, k, i)
  {
    var before := Run(s, actions[..k], maxRetries); before.db.users[before.calls[i].user]
  }

  lemma CallKeepsSeen(db: Db, c: Call, o: Outcome, verdict: bool)
    requires c.pc != LoadUser
    ensures var c' := CallStep(db, c, o, verdict).1; c'.seen == c.seen && c'.pc != LoadUser
  {}

  lemma StepKeepsSeen(s: State, a: Action, maxRetries: nat, i: nat)
    requires i < |s.calls| && s.calls[i].pc != LoadUser
    ensures var s' := Apply(s, a, maxRetries); i < |s'.calls| && s'.calls[i].seen == s.calls[i].seen && s'.calls[i].pc != LoadUser
  {
    if a.StepCall? && a.i < |s.calls| && s.calls[a.i].pc != Publish {
      if a.i == i { CallKeepsSeen(s.db, s.calls[i], a.o, a.verdict); }
    }
  }

  lemma LoadsEarlier(s: State, actions: seq<Action>, maxRetries: nat, k: nat, i: nat)
    requires LoadsAt(s, actions, maxRetries, k, i) && k < |actions| - 1
    ensures var before := actions[..|actions| - 1];
      LoadsAt(s, before, maxRetries, k, i) && LoadedAt(s, before, maxRetries, k, i) == LoadedAt(s, actions, maxRetries, k, i)
  {
    var before := actions[..|actions| - 1];
    assert before[..k] == actions[..k] && before[k] == actions[k];
  }

  lemma LoadsNow(s: State, actions: seq<Action>, maxRetries: nat, i: nat)
    requires actions != [] && LoadsAt(s, actions, maxRetries, |actions| - 1, i)
    ensures var t := Run(s, actions, maxRetries);
      i < |t.calls| && t.calls[i].seen == LoadedAt(s, actions, maxRetries, |actions| - 1, i) && t.calls[i].pc != LoadUser
  {
    var n := |actions| - 1;
    assert actions[n] == StepCall(i, Replied, actions[n].verdict);
    LoadStep(Run(s, actions[..n], maxRetries), i, actions[n].verdict, maxRetries);
  }

  lemma {:induction false} SeenSince(s: State, actions: seq<Action>, maxRetries: nat, k: nat, i: nat)
    requires LoadsAt(s, actions, maxRetries, k, i)
    ensures var t := Run(s, actions, maxRetries);
      i < |t.calls| && t.calls[i].seen == LoadedAt(s, actions, maxRetries, k, i) && t.calls[i].pc != LoadUser
    decreases |actions|
  {
    var n := |actions| - 1;
    if k < n {
      var before := actions[..n];
      LoadsEarlier(s, actions, maxRetries, k, i);
      SeenSince(s, before, maxRetries, k, i);
      StepKeepsSeen(Run(s, before, maxRetries), actions[n], maxRetries, i);
    } else {
      LoadsNow(s, actions, maxRetries, i);
    }
  }

  lemma LoadStep(s: State, i: nat, verdict: bool, maxRetries: nat)
    requires i < |s.calls| && s.calls[i].pc == LoadUser && s.calls[i].user in s.db.users
    ensures var t := Apply(s, StepCall(i, Replied, verdict), maxRetries);
      i < |t.calls| && t.calls[i].seen == s.db.users[s.calls[i].user] && t.calls[i].pc == CheckCurrency
  {}

  /** A call gets past the status check if and only if the document that it loaded before the lock was
      active, whatever has become of the account since. */
  lemma {:induction false} LoadedStatusDecides(s: State, actions: seq<Action>, maxRetries: nat, k: nat, i: nat, o: Outcome, verdict: bool)
    requires LoadsAt(s, actions, maxRetries, k, i)
    requires var t := Run(s, actions, maxRetries); i < |t.calls| && t.calls[i].pc == CheckAccount
    ensures Apply(Run(s, actions, maxRetries), StepCall(i, o, verdict), maxRetries).calls[i].pc == CheckLimits
            <==> LoadedAt(s, actions, maxRetries, k, i).active
  {
    SeenSince(s, actions, maxRetries, k, i);
  }

  predicate PastStatus(pc: CallPc) {
    pc in {CheckLimits, CheckCache, SyncCache, CheckFunds, ScoreFraud, CreateTx, Publish, Returned}
  }

  lemma CallStatus(db: Db, c: Call, o: Outcome, verdict: bool)
    requires PastStatus(c.pc) ==> c.seen.active
    ensures var c' := CallStep(db, c, o, verdict).1; PastStatus(c'.pc) ==> c'.seen.active
  {}

  /** So no call whose document was not active is ever past the check. */
  lemma {:induction false} PastIsActive(s: State, actions: seq<Action>, maxRetries: nat, i: nat)
    requires Initial(s)
    ensures var t := Run(s, actions, maxRetries); i < |t.calls| && PastStatus(t.calls[i].pc) ==> t.calls[i].seen.active
    decreases |actions|
  {
    if actions != [] {
      var n := |actions| - 1;
      var before := Run(s, actions[..n], maxRetries);
      PastIsActive(s, actions[..n], maxRetries, i);
      StatusStep(before, actions[n], maxRetries, i);
    }
  }

  lemma StatusStep(s: State, a: Action, maxRetries: nat, i: nat)
    requires i < |s.calls| && PastStatus(s.calls[i].pc) ==> s.calls[i].seen.active
    ensures var t := Apply(s, a, maxRetries); i < |t.calls| && PastStatus(t.calls[i].pc) ==> t.calls[i].seen.active
  {
    if a.StepCall? && a.i == i < |s.calls| && s.calls[i].pc != Publish { CallStatus(s.db, s.calls[i], a.o, a.verdict); }
  }
}
