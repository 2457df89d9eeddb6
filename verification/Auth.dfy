/** Sessions, one-time codes and verification tokens: what each operation accepts, over all traces of
    operations.  The stored keys are compared with a specification that only looks at the past events. */
module AuthModel {
  import opened Base

  const OTP_TTL: nat := 600
  const REFRESH_TTL: nat := 2592000
  const VERIFY_TTL: nat := 600

  /** The Redis keys, by what they are for. */
  datatype Key = Session(user: nat) | Otp(email: string) | OtpPassed(email: string) | Verify(user: nat)

  datatype Entry = Entry(value: nat, expires: nat)

  datatype What =
    | LoggedIn(user: nat, token: nat)
    | LoggedOut(user: nat)
    | OtpSent(email: string, code: nat)
    | OtpDropped(email: string)
    | OtpVerified(email: string)
    | PasswordChanged(email: string, user: nat, password: string)
    | VerifySent(user: nat, token: nat)
    | EmailVerified(user: nat)

  datatype Event = Event(what: What, at: nat)

  /** A signed token is unforgeable: it is the position of its issue. */
  datatype Issue = Issue(refresh: bool, user: nat, at: nat)

  /** `users` maps e-mail addresses to accounts; `log` is history. */
  datatype State = State(now: nat, users: map<string, nat>, passwords: map<nat, string>, verified: set<nat>, store: map<Key, Entry>,
                         issues: seq<Issue>, log: seq<Event>)

  function Ttl(k: Key): nat {
    match k
    case Session(_) => REFRESH_TTL
    case Otp(_) => OTP_TTL
    case OtpPassed(_) => OTP_TTL
    case Verify(_) => VERIFY_TTL
  }

  function Get(s: State, k: Key): Option<nat> {
    if k in s.store && s.now < s.store[k].expires then Some(s.store[k].value) else None
  }

  /** What an event does to the store. */
  function Effect(store: map<Key, Entry>, now: nat, w: What): map<Key, Entry> {
    match w
    case LoggedIn(u, token) => store[Session(u) := Entry(token, now + REFRESH_TTL)]
    case LoggedOut(u) => store - {Session(u)}
    case OtpSent(e, code) => store[Otp(e) := Entry(code, now + OTP_TTL)]
    case OtpDropped(e) => store - {Otp(e)}
    case OtpVerified(e) => (store - {Otp(e)})[OtpPassed(e) := Entry(1, now + OTP_TTL)]
    case PasswordChanged(e, u, _) => store - {OtpPassed(e), Session(u)}
    case VerifySent(u, token) => store[Verify(u) := Entry(token, now + VERIFY_TTL)]
    case EmailVerified(u) => store - {Verify(u)}
  }

  function Emit(s: State, w: What): State {
    s.(store := Effect(s.store, s.now, w), log := s.log + [Event(w, s.now)])
  }

  function Sign(s: State, refresh: bool, u: nat): State { s.(issues := s.issues + [Issue(refresh, u, s.now)]) }

  /** The token's own signature and exp claim. */
  predicate Genuine(s: State, token: nat, refresh: bool) {
    && token < |s.issues| && s.issues[token].refresh == refresh
    && s.now < s.issues[token].at + (if refresh then REFRESH_TTL else VERIFY_TTL)
  }

  datatype Op =
    | Wait(seconds: nat)
    | Login(email: string, password: string)
    | Logout(user: nat)
    | Refresh(token: nat)
    | ForgotPassword(email: string, code: nat, mailOk: bool)
    | VerifyOtp(email: string, code: nat)
    | ChangePassword(email: string, password: string)
    | ResendVerification(email: string, mailOk: bool)
    | VerifyEmail(token: nat)

  predicate Unverified(s: State, email: string) { email in s.users && s.users[email] !in s.verified }

  predicate Right(s: State, email: string, password: string) {
    email in s.users && s.users[email] in s.passwords && s.passwords[s.users[email]] == password
  }

  const MIN_PASSWORD: nat := 6

  predicate Accepts(s: State, op: Op) {
    match op
    case Wait(_) => true
    case Login(email, password) => Right(s, email, password) && s.users[email] in s.verified
    case Logout(_) => true
    case Refresh(token) => Genuine(s, token, true) && Get(s, Session(s.issues[token].user)) == Some(token)
    case ForgotPassword(email, _, mailOk) => email in s.users && mailOk
    case VerifyOtp(email, code) => email in s.users && Get(s, Otp(email)) == Some(code)
    case ChangePassword(email, password) => Get(s, OtpPassed(email)).Some? && |password| >= MIN_PASSWORD && email in s.users
    case ResendVerification(email, mailOk) => Unverified(s, email) && mailOk
    case VerifyEmail(token) =>
      && Genuine(s, token, false) && Get(s, Verify(s.issues[token].user)) == Some(token)
      && s.issues[token].user !in s.verified
  }

  datatype Refused =
    | InvalidCredentials
    | EmailNotVerified
    | InvalidToken
    | TokenExpired
    | UnknownUser
    | AlreadyVerified
    | EmailSendFailed
    | OtpInvalid
    | OtpRequired
    | InvalidPassword

  /** The error of a refused operation; the first failing check decides. */
  function Error(s: State, op: Op): Option<Refused> {
    match op
    case Wait(_) => None
    case Login(email, password) =>
      if !Right(s, email, password) then Some(InvalidCredentials)
      else if s.users[email] !in s.verified then Some(EmailNotVerified)
      else None
    case Logout(_) => None
    case Refresh(token) => TokenError(s, token, true)
    case ForgotPassword(email, _, mailOk) =>
      if email !in s.users then Some(UnknownUser) else if !mailOk then Some(EmailSendFailed) else None
    case VerifyOtp(email, code) =>
      if email !in s.users then Some(UnknownUser)
      else if Get(s, Otp(email)) != Some(code) then Some(OtpInvalid)
      else None
    case ChangePassword(email, password) =>
      if Get(s, OtpPassed(email)).None? then Some(OtpRequired)
      else if |password| < MIN_PASSWORD then Some(InvalidPassword)
      else if email !in s.users then Some(UnknownUser)
      else None
    case ResendVerification(email, mailOk) =>
      if email !in s.users then Some(UnknownUser)
      else if s.users[email] in s.verified then Some(AlreadyVerified)
      else if !mailOk then Some(EmailSendFailed)
      else None
    case VerifyEmail(token) =>
      var e := TokenError(s, token, false);
      if e.None? && s.issues[token].user in s.verified then Some(AlreadyVerified) else e
  }

  /** A bad signature, then the exp claim, then the stored copy. */
  function TokenError(s: State, token: nat, refresh: bool): Option<Refused> {
    if token >= |s.issues| || s.issues[token].refresh != refresh then Some(InvalidToken)
    else if !Genuine(s, token, refresh) then Some(TokenExpired)
    else
      var u := s.issues[token].user;
      if Get(s, if refresh then Session(u) else Verify(u)) != Some(token) then Some(InvalidToken) else None
  }

  /** The new state; a refused operation leaves the state alone, except when a mail fails: the code has
      been replaced and removed by then, and a new verification token is in place. */
  function Apply(s: State, op: Op): State {
    match op
    case Wait(seconds) => s.(now := s.now + seconds)
    case Login(email, _) =>
      if !Accepts(s, op) then s
      else Emit(Sign(s, true, s.users[email]), LoggedIn(s.users[email], |s.issues|))
    case Logout(user) => Emit(s, LoggedOut(user))
    case Refresh(_) => s
    case ForgotPassword(email, code, mailOk) =>
      if email !in s.users then s
      else if mailOk then Emit(s, OtpSent(email, code))
      else Emit(Emit(s, OtpSent(email, code)), OtpDropped(email))
    case VerifyOtp(email, _) => if !Accepts(s, op) then s else Emit(s, OtpVerified(email))
    case ChangePassword(email, password) =>
      if !Accepts(s, op) then s
      else
        var u := s.users[email];
        Emit(s.(passwords := s.passwords[u := password]), PasswordChanged(email, u, password))
    case ResendVerification(email, _) =>
      if !Unverified(s, email) then s
      else Emit(Sign(s, false, s.users[email]), VerifySent(s.users[email], |s.issues|))
    case VerifyEmail(token) =>
      if !Accepts(s, op) then s
      else
        var u := s.issues[token].user;
        Emit(s.(verified := s.verified + {u}), EmailVerified(u))
  }

  function Run(users: map<string, nat>, pw: map<nat, string>, ops: seq<Op>): State {
    if ops == [] then State(0, users, pw, {}, map[], [], []) else Apply(Run(users, pw, ops[..|ops| - 1]), ops[|ops| - 1])
  }

  // ----- The specification: only past events --------------------------------------------------------

  predicate Opens(k: Key, w: What) {
    match k
    case Session(u) => w.LoggedIn? && w.user == u
    case Otp(e) => w.OtpSent? && w.email == e
    case OtpPassed(e) => w.OtpVerified? && w.email == e
    case Verify(u) => w.VerifySent? && w.user == u
  }

  predicate Closes(k: Key, w: What) {
    match k
    case Session(u) => (w.LoggedOut? && w.user == u) || (w.PasswordChanged? && w.user == u)
    case Otp(e) => (w.OtpDropped? || w.OtpVerified?) && w.email == e
    case OtpPassed(e) => w.PasswordChanged? && w.email == e
    case Verify(u) => w.EmailVerified? && w.user == u
  }

  function Value(w: What): nat {
    match w
    case LoggedIn(_, token) => token
    case OtpSent(_, code) => code
    case VerifySent(_, token) => token
    case _ => 1
  }

  /** Event `i` opened `k`, and nothing has closed or replaced it since. */
  predicate LastOpen(log: seq<Event>, k: Key, i: int) {
    && 0 <= i < |log| && Opens(k, log[i].what)
    && forall j :: i < j < |log| ==> !Opens(k, log[j].what) && !Closes(k, log[j].what)
  }

  /** The entry that an opening event left behind. */
  function Left(k: Key, e: Event): Entry { Entry(Value(e.what), e.at + Ttl(k)) }

  /** An event keeps `k` open with this value, and its time has not run out. */
  ghost predicate Current(log: seq<Event>, now: nat, k: Key, v: nat) {
    exists i :: LastOpen(log, k, i) && Value(log[i].what) == v && now < log[i].at + Ttl(k)
  }

  /** The key is in the store exactly while an event keeps it open. */
  ghost predicate KeyOk(s: State, k: Key) {
    && (k in s.store ==> exists i :: LastOpen(s.log, k, i) && s.store[k] == Left(k, s.log[i]))
    && (k !in s.store ==> forall i :: !LastOpen(s.log, k, i))
  }

  lemma LastOpenExtends(log: seq<Event>, e: Event, k: Key, i: int)
    ensures LastOpen(log + [e], k, i) <==>
      if i == |log| then Opens(k, e.what) else LastOpen(log, k, i) && !Opens(k, e.what) && !Closes(k, e.what)
  {
    var log' := log + [e];
    assert log'[|log|] == e;
    assert forall j :: 0 <= j < |log| ==> log'[j] == log[j];
  }

  lemma EmitKey(s: State, w: What, k: Key)
    requires KeyOk(s, k)
    ensures KeyOk(Emit(s, w), k)
  {
    var s' := Emit(s, w);
    var e := Event(w, s.now);
    forall i ensures LastOpen(s'.log, k, i) <==>
                     if i == |s.log| then Opens(k, w) else LastOpen(s.log, k, i) && !Opens(k, w) && !Closes(k, w) {
      LastOpenExtends(s.log, e, k, i);
    }
    if Opens(k, w) {
      assert s'.log[|s.log|] == e && LastOpen(s'.log, k, |s.log|);
    } else if !Closes(k, w) && k in s.store {
      var i :| LastOpen(s.log, k, i) && s.store[k] == Left(k, s.log[i]);
      assert s'.log[i] == s.log[i] && LastOpen(s'.log, k, i);
    }
  }

  lemma ApplyKey(s: State, op: Op, k: Key)
    requires KeyOk(s, k)
    ensures KeyOk(Apply(s, op), k)
  {
    match op {
      case Wait(_) =>
      case Login(email, _) =>
        if Accepts(s, op) { EmitKey(Sign(s, true, s.users[email]), LoggedIn(s.users[email], |s.issues|), k); }
      case Logout(user) => EmitKey(s, LoggedOut(user), k);
      case Refresh(_) =>
      case ForgotPassword(email, code, _) =>
        EmitKey(s, OtpSent(email, code), k);
        EmitKey(Emit(s, OtpSent(email, code)), OtpDropped(email), k);
      case VerifyOtp(email, _) => EmitKey(s, OtpVerified(email), k);
      case ChangePassword(email, password) =>
        if Accepts(s, op) {
          var u := s.users[email];
          EmitKey(s.(passwords := s.passwords[u := password]), PasswordChanged(email, u, password), k);
        }
      case ResendVerification(email, _) =>
        if Unverified(s, email) { EmitKey(Sign(s, false, s.users[email]), VerifySent(s.users[email], |s.issues|), k); }
      case VerifyEmail(token) =>
        if Accepts(s, op) {
          var u := s.issues[token].user;
          EmitKey(s.(verified := s.verified + {u}), EmailVerified(u), k);
        }
    }
  }

  lemma {:induction false} RunKeys(users: map<string, nat>, pw: map<nat, string>, ops: seq<Op>, k: Key)
    ensures KeyOk(Run(users, pw, ops), k)
  {
    if ops != [] {
      RunKeys(users, pw, ops[..|ops| - 1], k);
      ApplyKey(Run(users, pw, ops[..|ops| - 1]), ops[|ops| - 1], k);
    }
  }

  lemma GetIff(s: State, k: Key, v: nat)
    requires KeyOk(s, k)
    ensures Get(s, k) == Some(v) <==> Current(s.log, s.now, k, v)
  {
    if Current(s.log, s.now, k, v) {
      var i :| LastOpen(s.log, k, i) && Value(s.log[i].what) == v && s.now < s.log[i].at + Ttl(k);
      assert k in s.store;
      var j :| LastOpen(s.log, k, j) && s.store[k] == Left(k, s.log[j]);
      assert i == j;
    }
  }

  /** Every token handed out is on the list of issues, with its user and its time. */
  predicate Issued(s: State, e: Event) {
    match e.what
    case LoggedIn(u, token) => token < |s.issues| && s.issues[token] == Issue(true, u, e.at)
    case VerifySent(u, token) => token < |s.issues| && s.issues[token] == Issue(false, u, e.at)
    case _ => true
  }

  predicate AllIssued(s: State) { forall i :: 0 <= i < |s.log| ==> Issued(s, s.log[i]) }

  lemma ApplyIssued(s: State, op: Op)
    requires AllIssued(s)
    ensures AllIssued(Apply(s, op))
  {
    var s' := Apply(s, op);
    assert s.issues <= s'.issues;
    forall i | 0 <= i < |s'.log| ensures Issued(s', s'.log[i]) {
      if i < |s.log| { assert s'.log[i] == s.log[i] && Issued(s, s.log[i]); }
    }
  }

  lemma {:induction false} RunIssued(users: map<string, nat>, pw: map<nat, string>, ops: seq<Op>)
    ensures AllIssued(Run(users, pw, ops))
  {
    if ops != [] {
      RunIssued(users, pw, ops[..|ops| - 1]);
      ApplyIssued(Run(users, pw, ops[..|ops| - 1]), ops[|ops| - 1]);
    }
  }

  // ----- What entitles an event to have happened ----------------------------------------------------

  ghost predicate Justified(log: seq<Event>, j: nat)
    requires j < |log|
  {
    match log[j].what
    case OtpVerified(e) => exists v :: Current(log[..j], log[j].at, Otp(e), v)
    case PasswordChanged(e, _, _) => exists v :: Current(log[..j], log[j].at, OtpPassed(e), v)
    case EmailVerified(u) => exists v :: Current(log[..j], log[j].at, Verify(u), v)
    case _ => true
  }

  ghost predicate AllJustified(log: seq<Event>) { forall j :: 0 <= j < |log| ==> Justified(log, j) }

  lemma ExtendJustified(log: seq<Event>, e: Event)
    requires AllJustified(log)
    requires var log' := log + [e]; Justified(log', |log|)
    ensures AllJustified(log + [e])
  {
    var log' := log + [e];
    forall j | 0 <= j < |log'| ensures Justified(log', j) {
      if j < |log| { assert log'[..j] == log[..j] && Justified(log, j); }
    }
  }

  lemma EmitJustified(s: State, w: What, k: Key)
    requires AllJustified(s.log)
    requires w.OtpVerified? ==> k == Otp(w.email)
    requires w.PasswordChanged? ==> k == OtpPassed(w.email)
    requires w.EmailVerified? ==> k == Verify(w.user)
    requires w.OtpVerified? || w.PasswordChanged? || w.EmailVerified? ==> KeyOk(s, k) && Get(s, k).Some?
    ensures AllJustified(Emit(s, w).log)
  {
    var log' := s.log + [Event(w, s.now)];
    assert log'[|s.log|] == Event(w, s.now) && log'[..|s.log|] == s.log;
    if w.OtpVerified? || w.PasswordChanged? || w.EmailVerified? { GetIff(s, k, Get(s, k).value); }
    ExtendJustified(s.log, Event(w, s.now));
  }

  lemma ApplyJustified(s: State, op: Op)
    requires AllJustified(s.log) && forall k :: KeyOk(s, k)
    ensures AllJustified(Apply(s, op).log)
  {
    match op {
      case Wait(_) =>
      case Login(email, _) =>
        if Accepts(s, op) {
          var u := s.users[email];
          EmitJustified(Sign(s, true, u), LoggedIn(u, |s.issues|), Session(u));
        }
      case Logout(user) => EmitJustified(s, LoggedOut(user), Session(user));
      case Refresh(_) =>
      case ForgotPassword(email, code, _) =>
        EmitJustified(s, OtpSent(email, code), Otp(email));
        EmitJustified(Emit(s, OtpSent(email, code)), OtpDropped(email), Otp(email));
      case VerifyOtp(email, _) => if Accepts(s, op) { EmitJustified(s, OtpVerified(email), Otp(email)); }
      case ChangePassword(email, password) =>
        if Accepts(s, op) { EmitJustified(s, PasswordChanged(email, s.users[email], password), OtpPassed(email)); }
      case ResendVerification(email, _) =>
        if Unverified(s, email) {
          var u := s.users[email];
          EmitJustified(Sign(s, false, u), VerifySent(u, |s.issues|), Verify(u));
        }
      case VerifyEmail(token) =>
        if Accepts(s, op) {
          var u := s.issues[token].user;
          EmitVerified(s, u);
        }
    }
  }

  lemma EmitVerified(s: State, u: nat)
    requires AllJustified(s.log) && KeyOk(s, Verify(u)) && Get(s, Verify(u)).Some?
    ensures AllJustified(Emit(s.(verified := s.verified + {u}), EmailVerified(u)).log)
  {
    EmitJustified(s, EmailVerified(u), Verify(u));
  }

  lemma {:induction false} RunJustified(users: map<string, nat>, pw: map<nat, string>, ops: seq<Op>)
    ensures AllJustified(Run(users, pw, ops).log)
  {
    if ops != [] {
      var before := ops[..|ops| - 1];
      RunJustified(users, pw, before);
      forall k ensures KeyOk(Run(users, pw, before), k) { RunKeys(users, pw, before, k); }
      ApplyJustified(Run(users, pw, before), ops[|ops| - 1]);
    }
  }

  // ----- Results ------------------------------------------------------------------------------------

  /** Event `i` is this user's latest login, it handed out `token`, and no logout and no password change
      of the user followed. */
  predicate LiveLogin(s: State, token: nat, i: int, u: nat) {
    LastOpen(s.log, Session(u), i) && s.log[i].what == LoggedIn(u, token)
  }

  /** A refresh succeeds if and only if the token comes from the user's latest login, less than 30 days
      ago, with no logout and no password change of that user since. */
  lemma RefreshIff(users: map<string, nat>, pw: map<nat, string>, ops: seq<Op>, token: nat)
    ensures var s := Run(users, pw, ops);
      Accepts(s, Refresh(token)) <==> exists i, u :: LiveLogin(s, token, i, u) && s.now < s.log[i].at + REFRESH_TTL
  {
    var s := Run(users, pw, ops);
    RunIssued(users, pw, ops);
    if Accepts(s, Refresh(token)) {
      var u := s.issues[token].user;
      RunKeys(users, pw, ops, Session(u));
      GetIff(s, Session(u), token);
      var i :| LastOpen(s.log, Session(u), i) && Value(s.log[i].what) == token && s.now < s.log[i].at + Ttl(Session(u));
      assert LiveLogin(s, token, i, u);
    }
    if i, u :| LiveLogin(s, token, i, u) && s.now < s.log[i].at + REFRESH_TTL {
      RunKeys(users, pw, ops, Session(u));
      assert Issued(s, s.log[i]);
      assert Current(s.log, s.now, Session(u), token);
      GetIff(s, Session(u), token);
    }
  }

  lemma {:induction false} UsersFixed(users: map<string, nat>, pw: map<nat, string>, ops: seq<Op>)
    ensures Run(users, pw, ops).users == users
  {
    if ops != [] { UsersFixed(users, pw, ops[..|ops| - 1]); }
  }

  /** A code is accepted if and only if it is the one sent last, less than 10 minutes ago, and neither
      withdrawn nor verified since. */
  lemma VerifyOtpIff(users: map<string, nat>, pw: map<nat, string>, ops: seq<Op>, email: string, code: nat)
    ensures var s := Run(users, pw, ops);
      Accepts(s, VerifyOtp(email, code)) <==> email in users && Current(s.log, s.now, Otp(email), code)
  {
    UsersFixed(users, pw, ops);
    RunKeys(users, pw, ops, Otp(email));
    GetIff(Run(users, pw, ops), Otp(email), code);
  }

  /** An operation is accepted exactly when no check of it fails. */
  lemma ErrorIff(s: State, op: Op)
    ensures Error(s, op).None? <==> Accepts(s, op)
  {
    match op {
      case Refresh(token) => assert TokenError(s, token, true).None? <==> Accepts(s, op);
      case VerifyEmail(token) =>
      case _ =>
    }
  }

  /** A password may be changed if and only if the latest verification of this address is less than 10
      minutes old and has not been used for a change yet. */
  lemma ChangePasswordIff(users: map<string, nat>, pw: map<nat, string>, ops: seq<Op>, email: string, password: string)
    ensures var s := Run(users, pw, ops);
      Accepts(s, ChangePassword(email, password)) <==>
      email in users && |password| >= 6 && Current(s.log, s.now, OtpPassed(email), 1)
  {
    UsersFixed(users, pw, ops);
    var s, k := Run(users, pw, ops), OtpPassed(email);
    RunKeys(users, pw, ops, k);
    GetIff(s, k, 1);
    if Get(s, k).Some? {
      GetIff(s, k, Get(s, k).value);
      var i :| LastOpen(s.log, k, i) && Value(s.log[i].what) == Get(s, k).value;
      assert s.log[i].what == OtpVerified(email);
    }
  }

  // ----- Who may log in -------------------------------------------------------------------------------

  predicate HasVerified(log: seq<Event>, u: nat) { exists i :: 0 <= i < |log| && log[i].what == EmailVerified(u) }

  /** The password of the latest change of this user, or the first one. */
  function LatestPassword(log: seq<Event>, u: nat, first: Option<string>): Option<string> {
    if log == [] then first
    else
      var w := log[|log| - 1].what;
      if w.PasswordChanged? && w.user == u then Some(w.password) else LatestPassword(log[..|log| - 1], u, first)
  }

  function PasswordOf(pw: map<nat, string>, u: nat): Option<string> { if u in pw then Some(pw[u]) else None }

  /** The user documents say what the events say. */
  ghost predicate DocsOk(s: State, pw: map<nat, string>, u: nat) {
    && (u in s.verified <==> HasVerified(s.log, u))
    && PasswordOf(s.passwords, u) == LatestPassword(s.log, u, PasswordOf(pw, u))
  }

  lemma EmitDocs(s: State, s': State, w: What, pw: map<nat, string>, u: nat)
    requires DocsOk(s, pw, u) && s'.log == s.log + [Event(w, s.now)]
    requires s'.verified == if w.EmailVerified? then s.verified + {w.user} else s.verified
    requires s'.passwords == if w.PasswordChanged? then s.passwords[w.user := w.password] else s.passwords
    ensures DocsOk(s', pw, u)
  {
    var log' := s'.log;
    assert log'[..|s.log|] == s.log && log'[|s.log|] == Event(w, s.now);
    if HasVerified(s.log, u) {
      var i :| 0 <= i < |s.log| && s.log[i].what == EmailVerified(u);
      assert log'[i].what == EmailVerified(u);
    }
    if w == EmailVerified(u) { assert log'[|s.log|].what == EmailVerified(u); }
  }

  lemma ApplyDocs(s: State, op: Op, pw: map<nat, string>, u: nat)
    requires DocsOk(s, pw, u)
    ensures DocsOk(Apply(s, op), pw, u)
  {
    var s' := Apply(s, op);
    if op.ForgotPassword? && op.email in s.users {
      var mid := Emit(s, OtpSent(op.email, op.code));
      EmitDocs(s, mid, OtpSent(op.email, op.code), pw, u);
      if !op.mailOk { EmitDocs(mid, s', OtpDropped(op.email), pw, u); }
    } else if |s'.log| > |s.log| {
      EmitDocs(s, s', s'.log[|s.log|].what, pw, u);
    }
  }

  lemma {:induction false} RunDocs(users: map<string, nat>, pw: map<nat, string>, ops: seq<Op>, u: nat)
    ensures DocsOk(Run(users, pw, ops), pw, u)
  {
    if ops != [] {
      RunDocs(users, pw, ops[..|ops| - 1], u);
      ApplyDocs(Run(users, pw, ops[..|ops| - 1]), ops[|ops| - 1], pw, u);
    }
  }

  /** An account is verified if and only if its address has been. */
  lemma VerifiedIff(users: map<string, nat>, pw: map<nat, string>, ops: seq<Op>, u: nat)
    ensures var s := Run(users, pw, ops); u in s.verified <==> exists i :: 0 <= i < |s.log| && s.log[i].what == EmailVerified(u)
  {
    RunDocs(users, pw, ops, u);
  }

  /** A login succeeds if and only if the address is registered and has been verified, and the password is
      that of the latest change, or the first one. */
  lemma LoginIff(users: map<string, nat>, pw: map<nat, string>, ops: seq<Op>, email: string, password: string)
    ensures var s := Run(users, pw, ops);
      Accepts(s, Login(email, password)) <==>
      && email in users && (exists i :: 0 <= i < |s.log| && s.log[i].what == EmailVerified(users[email]))
      && LatestPassword(s.log, users[email], if users[email] in pw then Some(pw[users[email]]) else None) == Some(password)
  {
    UsersFixed(users, pw, ops);
    if email in users { RunDocs(users, pw, ops, users[email]); }
  }

  /** A verification token is accepted if and only if it is the one sent last to its user, less than 10 minutes
      ago, and the user has not been verified yet. */
  lemma VerifyEmailIff(users: map<string, nat>, pw: map<nat, string>, ops: seq<Op>, token: nat)
    ensures var s := Run(users, pw, ops);
      Accepts(s, VerifyEmail(token)) <==>
      exists i, u :: LastOpen(s.log, Verify(u), i) && s.log[i].what == VerifySent(u, token) && s.now < s.log[i].at + VERIFY_TTL
                     && !HasVerified(s.log, u)
  {
    var s := Run(users, pw, ops);
    RunIssued(users, pw, ops);
    if Accepts(s, VerifyEmail(token)) {
      var u := s.issues[token].user;
      RunKeys(users, pw, ops, Verify(u));
      RunDocs(users, pw, ops, u);
      GetIff(s, Verify(u), token);
      var i :| LastOpen(s.log, Verify(u), i) && Value(s.log[i].what) == token && s.now < s.log[i].at + Ttl(Verify(u));
      assert s.log[i].what == VerifySent(u, token);
    }
    if i, u :| LastOpen(s.log, Verify(u), i) && s.log[i].what == VerifySent(u, token) && s.now < s.log[i].at + VERIFY_TTL
               && !HasVerified(s.log, u) {
      RunKeys(users, pw, ops, Verify(u));
      RunDocs(users, pw, ops, u);
      assert Issued(s, s.log[i]);
      assert Current(s.log, s.now, Verify(u), token);
      GetIff(s, Verify(u), token);
    }
  }

  /** What closes a key needs an opening after the previous closing: the key serves once. */
  lemma OpenedBetween(log: seq<Event>, j: int, k: Key, v: nat, i: int)
    requires 0 <= i < j < |log| && Closes(k, log[i].what) && Current(log[..j], log[j].at, k, v)
    ensures exists m :: i < m < j && Opens(k, log[m].what) && log[j].at < log[m].at + Ttl(k)
  {
    var m :| LastOpen(log[..j], k, m) && Value(log[..j][m].what) == v && log[j].at < log[..j][m].at + Ttl(k);
    assert log[..j][m] == log[m] && log[..j][i] == log[i];
    assert !Opens(k, log[i].what);
  }

  /** Each code sent is verified at most once: between two verifications another one was sent. */
  lemma OtpVerifiedOnce(users: map<string, nat>, pw: map<nat, string>, ops: seq<Op>, email: string, i: nat, j: nat)
    requires var log := Run(users, pw, ops).log;
      i < j < |log| && log[i].what == OtpVerified(email) && log[j].what == OtpVerified(email)
    ensures var log := Run(users, pw, ops).log;
      exists m :: i < m < j && log[m].what.OtpSent? && log[m].what.email == email && log[j].at < log[m].at + OTP_TTL
  {
    RunJustified(users, pw, ops);
    var log := Run(users, pw, ops).log;
    assert Justified(log, j);
    var v :| Current(log[..j], log[j].at, Otp(email), v);
    OpenedBetween(log, j, Otp(email), v, i);
  }

  predicate Changed(e: Event, email: string) { e.what.PasswordChanged? && e.what.email == email }

  /** Each verification authorises at most one password change, within 10 minutes. */
  lemma OneChangePerVerification(users: map<string, nat>, pw: map<nat, string>, ops: seq<Op>, email: string, i: nat, j: nat)
    requires i < j < |Run(users, pw, ops).log| && Changed(Run(users, pw, ops).log[i], email) && Changed(Run(users, pw, ops).log[j], email)
    ensures var log := Run(users, pw, ops).log;
      exists m :: i < m < j && log[m].what == OtpVerified(email) && log[j].at < log[m].at + OTP_TTL
  {
    RunJustified(users, pw, ops);
    var log := Run(users, pw, ops).log;
    assert Justified(log, j);
    var v :| Current(log[..j], log[j].at, OtpPassed(email), v);
    OpenedBetween(log, j, OtpPassed(email), v, i);
  }

  /** And the first change needs one too. */
  lemma ChangeNeedsVerification(users: map<string, nat>, pw: map<nat, string>, ops: seq<Op>, email: string, j: nat)
    requires j < |Run(users, pw, ops).log| && Changed(Run(users, pw, ops).log[j], email)
    ensures var log := Run(users, pw, ops).log;
      exists m :: 0 <= m < j && log[m].what == OtpVerified(email) && log[j].at < log[m].at + OTP_TTL
  {
    RunJustified(users, pw, ops);
    var log, k := Run(users, pw, ops).log, OtpPassed(email);
    assert Justified(log, j);
    var v :| Current(log[..j], log[j].at, k, v);
    var m :| LastOpen(log[..j], k, m) && Value(log[..j][m].what) == v && log[j].at < log[..j][m].at + Ttl(k);
    assert log[..j][m] == log[m];
  }
}

/** Two requests that use the same stored value at the same time, step by step.  The first step reads the
    value, and the step number `last` removes it: the second one when a code is verified (read, delete),
    the third one when a password is changed (read the flag, save, delete the flag). */
module OneTimeRace {

  datatype Pc = At(n: nat) | Rejected

  datatype State = State(stored: bool, first: Pc, second: Pc)

  function Next(stored: bool, pc: Pc, last: nat): Pc {
    match pc
    case At(n) => if n == 0 && !stored then Rejected else if n < last then At(n + 1) else pc
    case Rejected => pc
  }

  /** A step of the first or of the second request. */
  function Step(s: State, first: bool, last: nat): State {
    var pc := if first then s.first else s.second;
    var next := Next(s.stored, pc, last);
    var stored := s.stored && !(pc != next && next == At(last));
    if first then State(stored, next, s.second) else State(stored, s.first, next)
  }

  function Run(schedule: seq<bool>, last: nat): State {
    if schedule == [] then State(true, At(0), At(0)) else Step(Run(schedule[..|schedule| - 1], last), schedule[|schedule| - 1], last)
  }

  function Count(schedule: seq<bool>, first: bool): nat {
    if schedule == [] then 0
    else Count(schedule[..|schedule| - 1], first) + (if schedule[|schedule| - 1] == first then 1 else 0)
  }

  /** One request finished before the other one started. */
  predicate Serial(schedule: seq<bool>, last: nat) {
    exists cut :: 0 <= cut <= |schedule| && Split(schedule, cut, last)
  }

  predicate Split(schedule: seq<bool>, cut: nat, last: nat)
    requires cut <= |schedule|
  {
    || (Count(schedule[..cut], true) >= last && Count(schedule[..cut], false) == 0)
    || (Count(schedule[..cut], false) >= last && Count(schedule[..cut], true) == 0)
  }

  /** What a request knows: how far it is, or that the other one was done when it started. */
  predicate PcOk(pc: Pc, steps: nat, last: nat, other: Pc) {
    match pc
    case At(n) => n == if steps < last then steps else last
    case Rejected => steps > 0 && other == At(last)
  }

  /** What a schedule has led to so far. */
  lemma {:induction false} RunShape(schedule: seq<bool>, last: nat)
    requires last >= 2
    ensures var s := Run(schedule, last);
      && PcOk(s.first, Count(schedule, true), last, s.second) && PcOk(s.second, Count(schedule, false), last, s.first)
      && (s.stored <==> s.first != At(last) && s.second != At(last))
  {
    if schedule != [] { RunShape(schedule[..|schedule| - 1], last); }
  }

  /** A rejected request started after the other one had finished. */
  lemma {:induction false} RejectedSerial(schedule: seq<bool>, last: nat)
    requires last >= 2 && (Run(schedule, last).first == Rejected || Run(schedule, last).second == Rejected)
    ensures Serial(schedule, last)
  {
    var n := |schedule| - 1;
    var before := schedule[..n];
    RunShape(before, last);
    if Run(before, last).first == Rejected || Run(before, last).second == Rejected {
      RejectedSerial(before, last);
      var cut :| 0 <= cut <= n && Split(before, cut, last);
      assert schedule[..cut] == before[..cut];
      assert Split(schedule, cut, last);
    } else {
      assert Split(schedule, n, last);
    }
  }

  lemma {:induction false} SerialRejects(schedule: seq<bool>, cut: nat, last: nat)
    requires last >= 2 && cut <= |schedule| && Split(schedule, cut, last)
    ensures !Run(schedule, last).stored
    ensures Count(schedule[..cut], false) == 0 ==> Run(schedule, last).second == At(0) || Run(schedule, last).second == Rejected
    ensures Count(schedule[..cut], true) == 0 ==> Run(schedule, last).first == At(0) || Run(schedule, last).first == Rejected
    decreases |schedule|
  {
    RunShape(schedule[..cut], last);
    if cut == |schedule| {
      assert schedule[..cut] == schedule;
    } else {
      var before := schedule[..|schedule| - 1];
      assert before[..cut] == schedule[..cut];
      SerialRejects(before, cut, last);
    }
  }

  /** Two requests that both ran to the end both pass on the same value if and only if they overlapped. */
  lemma {:induction false} BothPassIff(schedule: seq<bool>, last: nat)
    requires last >= 2 && Count(schedule, true) >= last && Count(schedule, false) >= last
    ensures Run(schedule, last).first == At(last) && Run(schedule, last).second == At(last) <==> !Serial(schedule, last)
  {
    RunShape(schedule, last);
    if Serial(schedule, last) {
      var cut :| 0 <= cut <= |schedule| && Split(schedule, cut, last);
      SerialRejects(schedule, cut, last);
    } else if Run(schedule, last).first == Rejected || Run(schedule, last).second == Rejected {
      RejectedSerial(schedule, last);
    }
  }

  /** One verification lets two password changes through if and only if they overlap: neither has deleted
      the flag before the other one reads it. */
  lemma {:induction false} BothChangeIff(schedule: seq<bool>)
    requires Count(schedule, true) >= 3 && Count(schedule, false) >= 3
    ensures Run(schedule, 3).first != Rejected && Run(schedule, 3).second != Rejected <==> !Serial(schedule, 3)
  {
    BothPassIff(schedule, 3);
    RunShape(schedule, 3);
  }
}

/** The service itself, over the Redis keys and the user documents. */
module AuthServices {
  import opened Base
  import opened AuthModel

  class AuthService {
    var now: nat
    var users: map<string, nat>
    var passwords: map<nat, string>
    var verified: set<nat>
    var store: map<Key, Entry>
    var issues: seq<Issue>
    ghost var log: seq<Event>

    constructor (users: map<string, nat>, passwords: map<nat, string>)
      ensures View() == Run(users, passwords, [])
    {
      now, verified, store, issues, log := 0, {}, map[], [], [];
      this.users, this.passwords := users, passwords;
    }

    ghost function View(): State
      reads this
    {
      State(now, users, passwords, verified, store, issues, log)
    }

    /** GET: an expired key is gone. */
    method Read(k: Key) returns (v: Option<nat>)
      ensures v == Get(View(), k)
    {
      v := if k in store && now < store[k].expires then Some(store[k].value) else None;
    }

    /** The signature and exp claim of a token. */
    method Verified(token: nat, refresh: bool) returns (error: Option<Refused>)
      ensures error.None? <==> Genuine(View(), token, refresh)
      ensures error == Some(InvalidToken) <==> token >= |issues| || issues[token].refresh != refresh
      ensures error.None? || error == Some(InvalidToken) || error == Some(TokenExpired)
    {
      if token >= |issues| || issues[token].refresh != refresh { return Some(InvalidToken); }
      var life := if refresh then REFRESH_TTL else VERIFY_TTL;
      error := if now >= issues[token].at + life then Some(TokenExpired) else None;
    }

    method Issues(refresh: bool, u: nat) returns (token: nat)
      modifies this`issues
      ensures View() == Sign(old(View()), refresh, u) && token == |old(issues)|
    {
      token := |issues|;
      issues := issues + [Issue(refresh, u, now)];
    }

    method Login(email: string, password: string) returns (error: Option<Refused>, token: nat)
      modifies this
      ensures View() == Apply(old(View()), Op.Login(email, password))
      ensures error == Error(old(View()), Op.Login(email, password))
      ensures error.None? ==> Accepts(View(), Op.Refresh(token))
      // Registered with this password, and verified.
      ensures var known := email in old(users) && old(users)[email] in old(passwords) && old(passwords)[old(users)[email]] == password;
        && (error == Some(InvalidCredentials) <==> !known)
        && (error == Some(EmailNotVerified) <==> known && old(users)[email] !in old(verified))
        && (error == None <==> known && old(users)[email] in old(verified))
        && (error == None ==>
              && token == |old(issues)| && issues == old(issues) + [Issue(true, old(users)[email], now)]
              && store == old(store)[Session(old(users)[email]) := Entry(token, now + 30 * 24 * 3600)])
      ensures users == old(users) && passwords == old(passwords) && verified == old(verified)
    {
      token := 0;
      if email !in users || users[email] !in passwords || passwords[users[email]] != password { return Some(InvalidCredentials), 0; }
      var u := users[email];
      if u !in verified { return Some(EmailNotVerified), 0; }
      token := Issues(true, u);
      store := store[Session(u) := Entry(token, now + REFRESH_TTL)];
      log := log + [Event(LoggedIn(u, token), now)];
      error := None;
    }

    method Logout(u: nat)
      modifies this
      ensures View() == Apply(old(View()), Op.Logout(u))
      ensures store == old(store) - {Session(u)}
    {
      store := store - {Session(u)};
      log := log + [Event(LoggedOut(u), now)];
    }

    method Refresh(token: nat) returns (error: Option<Refused>)
      ensures error == Error(View(), Op.Refresh(token))
      // Genuine, not expired, and still the one in the session key.
      ensures error == None <==>
        && token < |issues| && issues[token].refresh && now < issues[token].at + 30 * 24 * 3600
        && Session(issues[token].user) in store && store[Session(issues[token].user)].value == token
        && now < store[Session(issues[token].user)].expires
      ensures error == Some(TokenExpired) <==> token < |issues| && issues[token].refresh && now >= issues[token].at + 30 * 24 * 3600
      ensures error in {None, Some(TokenExpired), Some(InvalidToken)}
    {
      error := Verified(token, true);
      if error.Some? { return; }
      var stored := Read(Session(issues[token].user));
      error := if stored != Some(token) then Some(InvalidToken) else None;
    }

    /** `code` is the random code, `mailOk` whether the mail could be sent. */
    method ForgotPassword(email: string, code: nat, mailOk: bool) returns (error: Option<Refused>)
      modifies this
      ensures View() == Apply(old(View()), Op.ForgotPassword(email, code, mailOk))
      ensures error == Error(old(View()), Op.ForgotPassword(email, code, mailOk))
      ensures error == if email !in old(users) then Some(UnknownUser) else if !mailOk then Some(EmailSendFailed) else None
      ensures email in old(users) ==>
        if mailOk then Otp(email) in store && store[Otp(email)] == Entry(code, now + 600) else Otp(email) !in store
    {
      if email !in users { return Some(UnknownUser); }
      store := store[Otp(email) := Entry(code, now + OTP_TTL)];
      log := log + [Event(OtpSent(email, code), now)];
      if mailOk { return None; }
      store := store - {Otp(email)};
      log := log + [Event(OtpDropped(email), now)];
      error := Some(EmailSendFailed);
    }

    method VerifyOtp(email: string, code: nat) returns (error: Option<Refused>)
      modifies this
      ensures View() == Apply(old(View()), Op.VerifyOtp(email, code))
      ensures error == Error(old(View()), Op.VerifyOtp(email, code))
      ensures var live := Otp(email) in old(store) && old(now) < old(store)[Otp(email)].expires && old(store)[Otp(email)].value == code;
        && error == (if email !in old(users) then Some(UnknownUser) else if live then None else Some(OtpInvalid))
      ensures error == None ==> Otp(email) !in store && OtpPassed(email) in store && store[OtpPassed(email)].expires == now + 600
      ensures error != None ==> store == old(store)
    {
      if email !in users { return Some(UnknownUser); }
      var stored := Read(Otp(email));
      if stored != Some(code) { return Some(OtpInvalid); }
      store := store - {Otp(email)};
      store := store[OtpPassed(email) := Entry(1, now + OTP_TTL)];
      log := log + [Event(OtpVerified(email), now)];
      error := None;
    }

    method ChangePassword(email: string, password: string) returns (error: Option<Refused>)
      modifies this
      ensures View() == Apply(old(View()), Op.ChangePassword(email, password))
      ensures error == Error(old(View()), Op.ChangePassword(email, password))
      ensures var flag := OtpPassed(email) in old(store) && old(now) < old(store)[OtpPassed(email)].expires;
        error == if !flag then Some(OtpRequired) else if |password| < 6 then Some(InvalidPassword)
                 else if email !in old(users) then Some(UnknownUser) else None
      ensures error == None ==>
        && passwords == old(passwords)[old(users)[email] := password]
        && OtpPassed(email) !in store && Session(old(users)[email]) !in store
      ensures error != None ==> passwords == old(passwords) && store == old(store)
      ensures users == old(users) && verified == old(verified)
    {
      var flag := Read(OtpPassed(email));
      if flag.None? { return Some(OtpRequired); }
      if |password| < MIN_PASSWORD { return Some(InvalidPassword); }
      if email !in users { return Some(UnknownUser); }
      ghost var before := store;
      store := store - {OtpPassed(email)};
      store := store - {Session(users[email])};
      assert store == before - {OtpPassed(email), Session(users[email])};
      passwords := passwords[users[email] := password];
      log := log + [Event(PasswordChanged(email, users[email], password), now)];
      error := None;
    }

    /** The token replaces the old one before the mail is sent, whatever becomes of the mail. */
    method ResendVerification(email: string, mailOk: bool) returns (error: Option<Refused>, token: nat)
      modifies this
      ensures View() == Apply(old(View()), Op.ResendVerification(email, mailOk))
      ensures error == Error(old(View()), Op.ResendVerification(email, mailOk))
      ensures Unverified(old(View()), email) ==> Accepts(View(), Op.VerifyEmail(token))
      ensures error == if email !in old(users) then Some(UnknownUser)
                       else if old(users)[email] in old(verified) then Some(AlreadyVerified)
                       else if !mailOk then Some(EmailSendFailed) else None
      ensures email in old(users) && old(users)[email] !in old(verified) ==>
        && token == |old(issues)| && issues == old(issues) + [Issue(false, old(users)[email], now)]
        && Verify(old(users)[email]) in store && store[Verify(old(users)[email])] == Entry(token, now + 600)
    {
      token := 0;
      if email !in users { return Some(UnknownUser), 0; }
      var u := users[email];
      if u in verified { return Some(AlreadyVerified), 0; }
      token := Issues(false, u);
      store := store[Verify(u) := Entry(token, now + VERIFY_TTL)];
      log := log + [Event(VerifySent(u, token), now)];
      error := if mailOk then None else Some(EmailSendFailed);
    }

    method VerifyEmail(token: nat) returns (error: Option<Refused>)
      modifies this
      ensures View() == Apply(old(View()), Op.VerifyEmail(token))
      ensures error == Error(old(View()), Op.VerifyEmail(token))
      ensures error == Some(TokenExpired) <==> token < |issues| && !issues[token].refresh && now >= issues[token].at + 600
      ensures error in {None, Some(TokenExpired), Some(InvalidToken), Some(AlreadyVerified)}
      ensures var stored := token < |issues| && Verify(issues[token].user) in old(store)
                            && old(store)[Verify(issues[token].user)].value == token && now < old(store)[Verify(issues[token].user)].expires;
        var good := stored && !issues[token].refresh && now < issues[token].at + 600;
        && (error == None <==> good && issues[token].user !in old(verified))
        && (error == Some(AlreadyVerified) <==> good && issues[token].user in old(verified))
      // From then on every address of this account may log in.
      ensures error == None ==> verified == old(verified) + {issues[token].user} && Verify(issues[token].user) !in store
      ensures error == None ==>
        forall email :: email in users && users[email] == issues[token].user && users[email] in passwords ==>
          Accepts(View(), Op.Login(email, passwords[users[email]]))
      ensures error != None ==> verified == old(verified) && store == old(store)
      ensures users == old(users) && passwords == old(passwords) && issues == old(issues) && now == old(now)
    {
      error := Verified(token, false);
      if error.Some? { return; }
      var u := issues[token].user;
      var stored := Read(Verify(u));
      if stored != Some(token) { return Some(InvalidToken); }
      if u in verified { return Some(AlreadyVerified); }
      verified := verified + {u};
      store := store - {Verify(u)};
      log := log + [Event(EmailVerified(u), now)];
      error := None;
    }
  }
}
