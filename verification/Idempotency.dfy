/** The idempotency-key middleware: any number of requests, interleaved at every Redis operation,
    within the lifetime of a key. */
module IdempotencyProtocol {
  import opened Base

  /** `body` stands for the response body; only equality is used. */
  datatype Response = Response(status: nat, body: nat)

  datatype Entry = Pending | Done(response: Response)

  datatype Answer = InvalidKey | Conflict | Sent(response: Response)

  datatype Pc =
    | Arrive
    | TryClaim
    | Handle(stores: bool)
    | Store(response: Response)
    | Answered(answer: Answer)

  datatype Request = Request(key: Option<string>, pc: Pc)

  /** `made` is history: the responses that keyed runs of the downstream handler produced, per key. */
  datatype State = State(entries: map<string, Entry>, requests: seq<Request>, made: map<string, seq<Response>>)

  predicate KeyChar(c: char) {
    'a' <= c <= 'z' || 'A' <= c <= 'Z' || '0' <= c <= '9' || c == '_' || c == '-'
  }

  predicate ValidKey(key: string) { 1 <= |key| <= 128 && forall i :: 0 <= i < |key| ==> KeyChar(key[i]) }

  function Made(s: State, key: string): seq<Response> { if key in s.made then s.made[key] else [] }

  /** GET, and what the middleware does with the reply; a Redis error lets the request through. */
  function Look(entries: map<string, Entry>, key: Option<string>, o: Outcome): Pc {
    if key.None? || key.value == "" then Handle(false)
    else if !ValidKey(key.value) then Answered(InvalidKey)
    else if o != Replied then Handle(false)
    else if key.value !in entries then TryClaim
    else match entries[key.value]
      case Pending => Answered(Conflict)
      case Done(r) => Answered(Sent(r))
  }

  /** SET NX of the pending marker. */
  function Claim(entries: map<string, Entry>, key: string, o: Outcome): (map<string, Entry>, Pc) {
    var won := key !in entries;
    (if o.Ran() && won then entries[key := Pending] else entries,
     if o != Replied then Handle(false) else if won then Handle(true) else Answered(Conflict))
  }

  /** SET of the completed response, whose errors are swallowed; it is sent in any case. */
  function StoreResponse(entries: map<string, Entry>, key: string, r: Response, o: Outcome): (map<string, Entry>, Pc) {
    (if o.Ran() then entries[key := Done(r)] else entries, Answered(Sent(r)))
  }

  datatype Action =
    | Submit(key: Option<string>)
    | Step(i: nat, redis: Outcome, store: Outcome, response: Response)

  /** `response` is what the handler answers, in the step that runs it; `store` is the fate of the
      write of the response, whose errors are swallowed. */
  function Apply(s: State, a: Action): State {
    match a
    case Submit(key) => s.(requests := s.requests + [Request(key, Arrive)])
    case Step(i, redis, store, response) =>
      if i >= |s.requests| then s
      else
        var q := s.requests[i];
        match q.pc
        case Arrive => s.(requests := s.requests[i := q.(pc := Look(s.entries, q.key, redis))])
        case TryClaim =>
          var (entries', pc') := Claim(s.entries, q.key.GetOr(""), redis);
          s.(entries := entries', requests := s.requests[i := q.(pc := pc')])
        case Handle(stores) =>
          s.(made := if q.key.None? then s.made else s.made[q.key.value := Made(s, q.key.value) + [response]],
             requests := s.requests[i := q.(pc := if stores then Store(response) else Answered(Sent(response)))])
        case Store(r) =>
          var (entries', pc') := StoreResponse(s.entries, q.key.GetOr(""), r, store);
          s.(entries := entries', requests := s.requests[i := q.(pc := pc')])
        case Answered(_) => s
  }

  function Run(actions: seq<Action>): State {
    if actions == [] then State(map[], [], map[]) else Apply(Run(actions[..|actions| - 1]), actions[|actions| - 1])
  }

  predicate Keyed(q: Request) { q.key.Some? && ValidKey(q.key.value) }

  predicate Owner(q: Request) { Keyed(q) && (q.pc == Handle(true) || q.pc.Store?) }

  /** A conflict, or the response of the one run of the handler. */
  predicate AnswerOk(s: State, key: string, a: Answer) {
    a == Conflict || (a.Sent? && Made(s, key) == [a.response])
  }

  /** What a request knows about its key. */
  predicate RequestOk(s: State, q: Request) {
    && (q.pc.Store? || q.pc == TryClaim || q.pc == Handle(true) ==> Keyed(q))
    && (Keyed(q) ==>
          && q.pc != Handle(false)
          && (q.pc == Handle(true) ==> q.key.value in s.entries && s.entries[q.key.value] == Pending && Made(s, q.key.value) == [])
          && (q.pc.Store? ==> q.key.value in s.entries && s.entries[q.key.value] == Pending && Made(s, q.key.value) == [q.pc.response])
          && (q.pc.Answered? ==> AnswerOk(s, q.key.value, q.pc.answer)))
  }

  predicate KeyOk(s: State, key: string) {
    && |Made(s, key)| <= 1
    && (key !in s.entries ==> Made(s, key) == [])
    && (key in s.entries && s.entries[key].Done? ==> Made(s, key) == [s.entries[key].response])
  }

  ghost predicate Inv(s: State) {
    && (forall i :: 0 <= i < |s.requests| ==> RequestOk(s, s.requests[i]))
    && (forall key :: ValidKey(key) ==> KeyOk(s, key))
    && (forall i, j :: 0 <= i < j < |s.requests| && Owner(s.requests[i]) && Owner(s.requests[j]) ==>
          s.requests[i].key != s.requests[j].key)
  }

  /** The step of one request, seen from the stores. */
  lemma StepKeepsKeys(s: State, i: nat, a: Action)
    requires Inv(s) && a.Step? && a.i == i < |s.requests| && a.redis == Replied
    ensures var s' := Apply(s, a);
      RequestOk(s', s'.requests[i]) && (forall key :: ValidKey(key) ==> KeyOk(s', key))
  {
    var q := s.requests[i];
    var s' := Apply(s, a);
    assert RequestOk(s, q);
    if q.key.Some? && ValidKey(q.key.value) { assert KeyOk(s, q.key.value); }
    forall key | ValidKey(key) ensures KeyOk(s', key) {
      assert KeyOk(s, key);
    }
  }

  lemma StepKeepsOthers(s: State, i: nat, a: Action, j: nat)
    requires Inv(s) && a.Step? && a.i == i < |s.requests| && a.redis == Replied && j < |s.requests| && j != i
    ensures var s' := Apply(s, a);
      RequestOk(s', s.requests[j]) && (Owner(s'.requests[i]) && Owner(s.requests[j]) ==> s.requests[i].key != s.requests[j].key)
  {
    var q, p := s.requests[i], s.requests[j];
    assert RequestOk(s, q) && RequestOk(s, p);
    assert Owner(q) && Owner(p) ==> q.key != p.key;
  }

  lemma ApplyInv(s: State, a: Action)
    requires Inv(s) && (a.Step? ==> a.redis == Replied)
    ensures Inv(Apply(s, a))
  {
    var s' := Apply(s, a);
    match a
    case Submit(key) =>
      forall k | ValidKey(k) ensures KeyOk(s', k) { assert KeyOk(s, k); }
    case Step(i, _, _, _) => if i < |s.requests| { StepInv(s, a); }
  }

  lemma StepInv(s: State, a: Action)
    requires Inv(s) && a.Step? && a.redis == Replied && a.i < |s.requests|
    ensures Inv(Apply(s, a))
  {
    var s' := Apply(s, a);
    var i := a.i;
    OnlyOneMoves(s, a);
    StepKeepsKeys(s, i, a);
    forall j | 0 <= j < |s.requests| && j != i
      ensures RequestOk(s', s'.requests[j])
      ensures Owner(s'.requests[i]) && Owner(s'.requests[j]) ==> s'.requests[i].key != s'.requests[j].key
    {
      StepKeepsOthers(s, i, a, j);
    }
  }

  lemma OnlyOneMoves(s: State, a: Action)
    requires a.Step? && a.i < |s.requests|
    ensures var s' := Apply(s, a);
      |s'.requests| == |s.requests| && s'.requests == s.requests[a.i := s'.requests[a.i]] && s'.requests[a.i].key == s.requests[a.i].key
  {}

  lemma {:induction false} RunInv(actions: seq<Action>)
    requires forall k :: 0 <= k < |actions| && actions[k].Step? ==> actions[k].redis == Replied
    ensures Inv(Run(actions))
  {
    if actions != [] {
      RunInv(actions[..|actions| - 1]);
      ApplyInv(Run(actions[..|actions| - 1]), actions[|actions| - 1]);
    }
  }

  /** With Redis answering the middleware, the downstream handler runs at most once per key, and every
      answered request with that key got a 409 or exactly the response of that run. */
  lemma HandledAtMostOnce(actions: seq<Action>, key: string, i: nat)
    requires forall k :: 0 <= k < |actions| && actions[k].Step? ==> actions[k].redis == Replied
    requires ValidKey(key)
    ensures var s := Run(actions);
      && |Made(s, key)| <= 1
      && (i < |s.requests| && s.requests[i].key == Some(key) && s.requests[i].pc.Answered? ==>
            AnswerOk(s, key, s.requests[i].pc.answer))
  {
    RunInv(actions);
    var s := Run(actions);
    assert KeyOk(s, key);
    if i < |s.requests| { assert RequestOk(s, s.requests[i]); }
  }

  /** A request without a key is not looked up: it runs the handler, gets its response, and stores nothing. */
  lemma NoKeyPasses(s: State, i: nat, o: Outcome, store: Outcome, r: Response)
    requires i < |s.requests| && s.requests[i].pc == Arrive && (s.requests[i].key == None || s.requests[i].key == Some(""))
    ensures var s' := Apply(Apply(s, Step(i, o, store, r)), Step(i, o, store, r));
      s'.entries == s.entries && s'.requests[i].pc == Answered(Sent(r))
  {}

  /** A request with a key that is not valid. */
  predicate Malformed(q: Request) { q.key.Some? && q.key.value != "" && !ValidKey(q.key.value) }

  predicate AllRefused(s: State) {
    forall i :: 0 <= i < |s.requests| && Malformed(s.requests[i]) ==> s.requests[i].pc in {Arrive, Answered(InvalidKey)}
  }

  lemma MalformedStep(s: State, a: Action)
    requires AllRefused(s)
    ensures AllRefused(Apply(s, a))
  {
    if a.Step? && a.i < |s.requests| { OnlyOneMoves(s, a); }
  }

  /** It is refused, and never runs the handler. */
  lemma {:induction false} MalformedRefused(actions: seq<Action>)
    ensures AllRefused(Run(actions))
  {
    if actions != [] {
      MalformedRefused(actions[..|actions| - 1]);
      MalformedStep(Run(actions[..|actions| - 1]), actions[|actions| - 1]);
    }
  }

  /** When the read of the key fails the request is let through, whatever the key's state: the
      guarantee depends on Redis answering. */
  lemma FailsOpen(s: State, i: nat, o: Outcome, store: Outcome, r: Response)
    requires i < |s.requests| && s.requests[i].pc == Arrive && Keyed(s.requests[i]) && o != Replied
    ensures var s' := Apply(Apply(s, Step(i, o, store, r)), Step(i, Replied, store, r));
      Made(s', s.requests[i].key.value) == Made(s, s.requests[i].key.value) + [r]
  {}
}

module IdempotencyMiddleware {
  import opened Base
  import opened IdempotencyProtocol

  /** The Redis keys behind the middleware. */
  class IdempotencyStore {
    var entries: map<string, Entry>

    constructor ()
      ensures entries == map[]
    {
      entries := map[];
    }

    /** The middleware up to the call of the handler, or to the answer that replaces it. */
    method Check(key: Option<string>, get: Outcome, claim: Outcome) returns (next: Pc)
      modifies this
      ensures var looked := Look(old(entries), key, get);
        if looked == TryClaim then (entries, next) == Claim(old(entries), key.value, claim)
        else entries == old(entries) && next == looked
      // Without a key the request passes; a malformed one is refused; otherwise the entry decides, and a new key
      // is claimed.
      ensures key == None || key == Some("") ==> next == Handle(false) && entries == old(entries)
      ensures key.Some? && key.value != "" ==>
        var k := key.value;
        var plain := forall c :: c in k ==> 'a' <= c <= 'z' || 'A' <= c <= 'Z' || '0' <= c <= '9' || c in {'_', '-'};
        if |k| > 128 || !plain then next == Answered(InvalidKey) && entries == old(entries)
        else if get != Replied then next == Handle(false) && entries == old(entries)
        else if k in old(entries) then
          entries == old(entries) && next == if old(entries)[k].Pending? then Answered(Conflict) else Answered(Sent(old(entries)[k].response))
        else
          && next == Handle(claim == Replied)
          && entries == if claim == Unsent then old(entries) else old(entries)[k := Pending]
    {
      if key.None? || key.value == "" { return Handle(false); }
      var i := 0;
      while i < |key.value| && KeyChar(key.value[i])
        invariant i <= |key.value|
        invariant forall k :: 0 <= k < i ==> KeyChar(key.value[k])
      {
        i := i + 1;
      }
      assert i < |key.value| ==> key.value[i] in key.value;
      if i < |key.value| || |key.value| > 128 { return Answered(InvalidKey); }
      if get != Replied { return Handle(false); }
      if key.value in entries {
        var stored := entries[key.value];
        if stored.Pending? { return Answered(Conflict); }
        return Answered(Sent(stored.response));
      }
      next := SetPending(key.value, claim);
    }

    /** SET key pending EX ttl NX: only the first of several simultaneous first requests wins. */
    method SetPending(key: string, o: Outcome) returns (next: Pc)
      modifies this
      ensures (entries, next) == Claim(old(entries), key, o)
    {
      var won := key !in entries;
      if o.Ran() && won { entries := entries[key := Pending]; }
      next := if o != Replied then Handle(false) else if won then Handle(true) else Answered(Conflict);
    }

    /** The wrapped `res.json` is the `Store` step of the protocol.  Once it has taken effect, a retry
        with the key gets this very response; when the write is lost, a retry finds what was there. */
    method Respond(key: string, r: Response, o: Outcome) returns (sent: Response)
      modifies this
      ensures (entries, Answered(Sent(sent))) == StoreResponse(old(entries), key, r, o)
      ensures sent == r && entries == if o == Unsent then old(entries) else old(entries)[key := Done(r)]
      ensures ValidKey(key) ==>
                Look(entries, Some(key), Replied) == if o.Ran() then Answered(Sent(sent)) else Look(old(entries), Some(key), Replied)
    {
      if o.Ran() { entries := entries[key := Done(r)]; }
      sent := r;
    }
  }
}
