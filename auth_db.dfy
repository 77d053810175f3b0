/** The database-backed authentication endpoint: an account table and a session table,
    login with an e-mail verification gate, registration, session tokens with an expiry,
    logout and clean-up of expired sessions. The two tables are fields of the manager
    class; password hashing and checking, the random token and the clock are parameters. */
module AuthDb {
  import opened Wrappers
  import opened Text
  import opened Php

  datatype UserRow = UserRow(id: int, email: string, passwordHash: string, firstName: string, lastName: string,
                             phone: Option<string>, country: string, city: string, userType: string,
                             status: string, emailVerified: bool, verificationToken: string, lastLogin: Option<int>)

  datatype SessionRow = SessionRow(userId: int, token: string, ipAddress: string, userAgent: string, expiresAt: int)

  /** The account as returned to the client: no hash, a display name and initials. */
  datatype Profile = Profile(id: int, email: string, firstName: string, lastName: string, name: string,
                             userType: string, avatar: string)

  const Active := "active"
  /** The column defaults a new account row gets (the table definition is not part of this
      model): active, with its address not yet verified. */
  const NewAccountStatus := Active

  const Day := 86400
  const Week := 7 * Day

  const InvalidCredentials := "Invalid email or password"
  const VerifyFirst := "Please verify your email address before logging in"
  const AlreadyRegistered := "Email address already registered"
  const InvalidSession := "Invalid or expired session"

  /** substr($s, 0, 1). */
  function Initial(s: string): (r: string)
    ensures |r| <= 1 && r <= s
  {
    if s == [] then "" else s[..1]
  }

  /** The user data of a login or a session check. */
  function ProfileOf(u: UserRow): (p: Profile)
    ensures p.name == u.firstName + " " + u.lastName
    ensures p.avatar == Upper(Initial(u.firstName) + Initial(u.lastName)) && |p.avatar| <= 2
    ensures p.id == u.id && p.email == u.email && p.userType == u.userType
  {
    Profile(u.id, u.email, u.firstName, u.lastName, u.firstName + " " + u.lastName, u.userType,
            Upper(Initial(u.firstName) + Initial(u.lastName)))
  }

  // ---------------------------------------------------------------- table reads

  /** `SELECT ... WHERE email = ? AND status = 'active'`, first row fetched. */
  function FindActive(users: seq<UserRow>, email: string): (r: Option<UserRow>)
    ensures r.Some? ==> r.value in users && r.value.email == email && r.value.status == Active
    ensures r.None? <==> forall u :: u in users ==> !(u.email == email && u.status == Active)
  {
    if users == [] then None
    else if users[0].email == email && users[0].status == Active then Some(users[0])
    else FindActive(users[1..], email)
  }

  /** `SELECT id FROM users WHERE email = ?`, whatever the status. */
  predicate EmailTaken(users: seq<UserRow>, email: string) {
    exists u :: u in users && u.email == email
  }

  /** The login checks in order: an active account with the address, then the password,
      then the verified flag. */
  function LoginCheck(users: seq<UserRow>, email: string, password: string, verify: (string, string) -> bool): (r: Result<UserRow, string>)
    ensures r == Failure(InvalidCredentials) <==>
      FindActive(users, email).None? || !verify(password, FindActive(users, email).value.passwordHash)
    ensures r == Failure(VerifyFirst) <==>
      FindActive(users, email).Some? && verify(password, FindActive(users, email).value.passwordHash) &&
      !FindActive(users, email).value.emailVerified
    ensures r.Success? ==> r.value == FindActive(users, email).value && r.value.emailVerified
  {
    match FindActive(users, email)
    case None => Failure(InvalidCredentials)
    case Some(u) =>
      if !verify(password, u.passwordHash) then Failure(InvalidCredentials)
      else if !u.emailVerified then Failure(VerifyFirst)
      else Success(u)
  }

  /** When the session expires: in a week with "remember me", otherwise in a day. */
  function Expiry(now: int, rememberMe: bool): (t: int)
    ensures t > now
  {
    if rememberMe then now + Week else now + Day
  }

  /** `UPDATE users SET last_login = NOW() WHERE id = ?`. */
  function MarkLogin(users: seq<UserRow>, id: int, now: int): (r: seq<UserRow>)
    ensures |r| == |users|
    ensures forall i :: 0 <= i < |users| ==>
      r[i] == (if users[i].id == id then users[i].(lastLogin := Some(now)) else users[i])
  {
    if users == [] then []
    else [if users[0].id == id then users[0].(lastLogin := Some(now)) else users[0]] + MarkLogin(users[1..], id, now)
  }

  /** The session check's join: some session row with the token, unexpired, whose user is
      active; the first such pair answers. */
  function VerifySession(users: seq<UserRow>, sessions: seq<SessionRow>, token: string, now: int): (r: Option<UserRow>)
    ensures r.Some? <==> exists s, u :: (s in sessions && u in users && s.token == token && s.expiresAt > now &&
      u.id == s.userId && u.status == Active)
    ensures r.Some? ==> r.value in users && r.value.status == Active
  {
    if sessions == [] then None
    else
      var s := sessions[0];
      var u := if s.token == token && s.expiresAt > now then FirstActiveWithId(users, s.userId) else None;
      if u.Some? then u else VerifySession(users, sessions[1..], token, now)
  }

  function FirstActiveWithId(users: seq<UserRow>, id: int): (r: Option<UserRow>)
    ensures r.Some? ==> r.value in users && r.value.id == id && r.value.status == Active
    ensures r.None? <==> forall u :: u in users ==> !(u.id == id && u.status == Active)
  {
    if users == [] then None
    else if users[0].id == id && users[0].status == Active then Some(users[0])
    else FirstActiveWithId(users[1..], id)
  }

  /** `DELETE FROM user_sessions WHERE session_token = ?`. */
  function WithoutToken(sessions: seq<SessionRow>, token: string): (r: seq<SessionRow>)
    ensures forall s :: s in r <==> s in sessions && s.token != token
    ensures |r| <= |sessions|
  {
    if sessions == [] then []
    else (if sessions[0].token == token then [] else [sessions[0]]) + WithoutToken(sessions[1..], token)
  }

  /** `DELETE FROM user_sessions WHERE expires_at < NOW()`. */
  function Unexpired(sessions: seq<SessionRow>, now: int): (r: seq<SessionRow>)
    ensures forall s :: s in r <==> s in sessions && s.expiresAt >= now
    ensures |r| <= |sessions|
  {
    if sessions == [] then []
    else (if sessions[0].expiresAt < now then [] else [sessions[0]]) + Unexpired(sessions[1..], now)
  }

  /** The fields registration insists on, in the order it checks them. */
  const Required: seq<string> := ["email", "password", "first_name", "last_name"]

  /** The first required field that is PHP-empty in the data. */
  function FirstMissing(fields: seq<string>, data: Value): (r: Option<string>)
    ensures r.None? <==> forall f :: f in fields ==> !Empty(FieldOr(data, f, Null))
    ensures r.Some? ==> r.value in fields && Empty(FieldOr(data, r.value, Null))
    ensures r.Some? ==> exists k :: (0 <= k < |fields| && fields[k] == r.value &&
      forall j :: 0 <= j < k ==> !Empty(FieldOr(data, fields[j], Null)))
  {
    if fields == [] then None
    else if Empty(FieldOr(data, fields[0], Null)) then Some(fields[0])
    else
      var r := FirstMissing(fields[1..], data);
      assert forall f :: f in fields[1..] ==> f in fields;
      if r.Some? then
        var k :| 0 <= k < |fields[1..]| && fields[1..][k] == r.value &&
          forall j :: 0 <= j < k ==> !Empty(FieldOr(data, fields[1..][j], Null));
        assert fields[k + 1] == r.value;
        r
      else r
  }

  function MissingMessage(field: string): string {
    "Field '" + field + "' is required"
  }

  /** How the account table may change: rows are only added, never unverified ones made
      verified, and existing rows keep their id and status. */
  predicate Grows(before: seq<UserRow>, after: seq<UserRow>) {
    && |before| <= |after|
    && (forall i :: 0 <= i < |after| ==> after[i].emailVerified == (i < |before| && before[i].emailVerified))
    && (forall i :: 0 <= i < |before| ==> after[i].id == before[i].id && after[i].status == before[i].status)
  }

  lemma GrowsByLogin(users: seq<UserRow>, id: int, now: int)
    ensures Grows(users, MarkLogin(users, id, now))
  {
  }

  lemma GrowsByRegister(users: seq<UserRow>, row: UserRow)
    requires !row.emailVerified
    ensures Grows(users, users + [row])
  {
  }

  // ---------------------------------------------------------------- outcomes

  datatype LoginOutcome = LoggedIn(user: Profile, sessionToken: Option<string>) | LoginFailed(message: string)

  datatype RegisterOutcome = Registered(userId: int) | RegisterFailed(message: string)

  class AuthManager {
    var users: seq<UserRow>
    var sessions: seq<SessionRow>
    /** The next auto-increment id. */
    var nextId: int

    constructor(users: seq<UserRow>, sessions: seq<SessionRow>, nextId: int)
      ensures this.users == users && this.sessions == sessions && this.nextId == nextId
    {
      this.users := users;
      this.sessions := sessions;
      this.nextId := nextId;
    }

    /** What login does: a refusal changes nothing; a success marks the account's last login
        and adds one session row, unless the insert fails, in which case the answer carries no
        token. The id counter is untouched. */
    twostate predicate LoginEffect(email: string, password: string, rememberMe: bool, now: int, token: string,
                                   ipAddress: string, userAgent: string, verify: (string, string) -> bool,
                                   insertFails: bool, r: LoginOutcome)
      reads this
    {
      && nextId == old(nextId)
      && (LoginCheck(old(users), email, password, verify).Failure? ==>
            r == LoginFailed(LoginCheck(old(users), email, password, verify).error) &&
            users == old(users) && sessions == old(sessions))
      && (LoginCheck(old(users), email, password, verify).Success? ==>
            var u := LoginCheck(old(users), email, password, verify).value;
            && users == MarkLogin(old(users), u.id, now)
            && sessions == old(sessions) + (if insertFails then [] else [SessionRow(u.id, token, ipAddress, userAgent, Expiry(now, rememberMe))])
            && r == LoggedIn(ProfileOf(u), if insertFails then None else Some(token)))
    }

    /** What register does: the first missing required field or a taken address is refused
        with nothing changed; otherwise one row with the next id is appended. */
    twostate predicate RegisterEffect(data: Value, hash: string -> string, verificationToken: string, r: RegisterOutcome)
      reads this
    {
      var email := Stringify(FieldOr(data, "email", Null));
      && (FirstMissing(Required, data).Some? ==>
            r == RegisterFailed(MissingMessage(FirstMissing(Required, data).value))
            && users == old(users) && sessions == old(sessions) && nextId == old(nextId))
      && (FirstMissing(Required, data).None? && EmailTaken(old(users), email) ==>
            r == RegisterFailed(AlreadyRegistered)
            && users == old(users) && sessions == old(sessions) && nextId == old(nextId))
      && (FirstMissing(Required, data).None? && !EmailTaken(old(users), email) ==>
            && r == Registered(old(nextId)) && nextId == old(nextId) + 1 && sessions == old(sessions)
            && users == old(users) + [NewRow(old(nextId), data, hash, verificationToken)])
    }

    /** login: on success the account's last login becomes now and, unless inserting the
        session fails, one session row expiring at Expiry(now, rememberMe) is added; the
        failed insert still reports success, with no token. Refusals change nothing. */
    method Login(email: string, password: string, rememberMe: bool, now: int, token: string,
                 ipAddress: string, userAgent: string, verify: (string, string) -> bool, insertFails: bool)
      returns (r: LoginOutcome)
      modifies this
      ensures Grows(old(users), users)
      ensures LoginEffect(email, password, rememberMe, now, token, ipAddress, userAgent, verify, insertFails, r)
    {
      var check := LoginCheck(users, email, password, verify);
      if check.Failure? {
        return LoginFailed(check.error);
      }
      var u := check.value;
      GrowsByLogin(users, u.id, now);
      users := MarkLogin(users, u.id, now);
      var sessionToken := CreateSession(u.id, rememberMe, now, token, ipAddress, userAgent, insertFails);
      r := LoggedIn(ProfileOf(u), sessionToken);
    }

    /** createSession: a row with the token and its expiry, or null when the insert throws. */
    method CreateSession(userId: int, rememberMe: bool, now: int, token: string,
                         ipAddress: string, userAgent: string, insertFails: bool) returns (t: Option<string>)
      modifies this
      ensures users == old(users) && nextId == old(nextId)
      ensures insertFails ==> t.None? && sessions == old(sessions)
      ensures !insertFails ==>
        t == Some(token) &&
        sessions == old(sessions) + [SessionRow(userId, token, ipAddress, userAgent, Expiry(now, rememberMe))]
    {
      if insertFails {
        return None;
      }
      sessions := sessions + [SessionRow(userId, token, ipAddress, userAgent, Expiry(now, rememberMe))];
      t := Some(token);
    }

    /** The required-field check: the first required field that is empty, in order. */
    method MissingField(data: Value) returns (m: Option<string>)
      ensures m == FirstMissing(Required, data)
    {
      var i := 0;
      while i < |Required|
        invariant 0 <= i <= |Required|
        invariant FirstMissing(Required, data) == FirstMissing(Required[i..], data)
      {
        if Empty(FieldOr(data, Required[i], Null)) {
          return Some(Required[i]);
        }
        assert Required[i..][1..] == Required[i + 1..];
        i := i + 1;
      }
      return None;
    }

    /** register: refuses a missing required field (the first, in order) and an address
        already present whatever its status; otherwise adds one unverified row with the
        given hash and defaults for country, city and user type. */
    method Register(data: Value, hash: string -> string, verificationToken: string) returns (r: RegisterOutcome)
      modifies this
      ensures RegisterEffect(data, hash, verificationToken, r)
      ensures Grows(old(users), users)
    {
      var missing := MissingField(data);
      if missing.Some? {
        return RegisterFailed(MissingMessage(missing.value));
      }
      var email := Stringify(FieldOr(data, "email", Null));
      if EmailTaken(users, email) {
        return RegisterFailed(AlreadyRegistered);
      }
      GrowsByRegister(users, NewRow(nextId, data, hash, verificationToken));
      users := users + [NewRow(nextId, data, hash, verificationToken)];
      r := Registered(nextId);
      nextId := nextId + 1;
    }

    /** logout: every row with the token goes, and the answer is success either way. */
    method Logout(token: string)
      modifies this
      ensures sessions == WithoutToken(old(sessions), token)
      ensures users == old(users) && nextId == old(nextId)
    {
      sessions := WithoutToken(sessions, token);
    }

    /** cleanExpiredSessions: rows that expired before now go; returns how many. */
    method CleanExpiredSessions(now: int) returns (removed: int)
      modifies this
      ensures sessions == Unexpired(old(sessions), now)
      ensures removed == |old(sessions)| - |sessions| && removed >= 0
      ensures users == old(users) && nextId == old(nextId)
    {
      var before := |sessions|;
      sessions := Unexpired(sessions, now);
      removed := before - |sessions|;
    }
  }

  /** The row register inserts. */
  function NewRow(id: int, data: Value, hash: string -> string, verificationToken: string): (u: UserRow)
    ensures u.status == NewAccountStatus && !u.emailVerified && u.lastLogin.None?
    ensures Field(data, "country").None? ==> u.country == "Rwanda"
    ensures Field(data, "city").None? ==> u.city == "Musanze"
    ensures Field(data, "user_type").None? ==> u.userType == "entrepreneur"
    ensures u.passwordHash == hash(Stringify(FieldOr(data, "password", Null)))
  {
    UserRow(id, Stringify(FieldOr(data, "email", Null)), hash(Stringify(FieldOr(data, "password", Null))),
            Stringify(FieldOr(data, "first_name", Null)), Stringify(FieldOr(data, "last_name", Null)),
            match Field(data, "phone") case Some(p) => Some(Stringify(p)) case None => None,
            Stringify(FieldOr(data, "country", Str("Rwanda"))), Stringify(FieldOr(data, "city", Str("Musanze"))),
            Stringify(FieldOr(data, "user_type", Str("entrepreneur"))), NewAccountStatus, false, verificationToken, None)
  }

  // ---------------------------------------------------------------- properties

  /** A session created at login is accepted until (not including) its expiry, as long as
      the account stays active. */
  lemma LoginSessionValidUntilExpiry(users: seq<UserRow>, sessions: seq<SessionRow>, u: UserRow,
                                     token: string, ip: string, agent: string, now: int, rememberMe: bool, t: int)
    requires u in users && u.status == Active
    requires now <= t < Expiry(now, rememberMe)
    ensures VerifySession(users, sessions + [SessionRow(u.id, token, ip, agent, Expiry(now, rememberMe))], token, t).Some?
  {
    var s := SessionRow(u.id, token, ip, agent, Expiry(now, rememberMe));
    assert s in sessions + [s];
  }

  /** From its expiry on, a session is refused, and a row expiring exactly at `now` is
      neither accepted nor removed by the clean-up at `now`. */
  lemma ExpiryBoundary(users: seq<UserRow>, s: SessionRow, now: int)
    requires s.expiresAt == now
    ensures VerifySession(users, [s], s.token, now).None?
    ensures Unexpired([s], now) == [s]
  {
  }

  /** After logout, no session with that token is accepted at any time. */
  lemma LogoutRevokes(users: seq<UserRow>, sessions: seq<SessionRow>, token: string, t: int)
    ensures VerifySession(users, WithoutToken(sessions, token), token, t).None?
  {
  }

  /** A new account can never log in: registration leaves its address unverified, so the
      right password gets the verification message, and the wrong one the usual refusal. */
  lemma RegisteredCannotLogIn(users: seq<UserRow>, id: int, data: Value, hash: string -> string, vt: string,
                              password: string, verify: (string, string) -> bool)
    requires !EmailTaken(users, Stringify(FieldOr(data, "email", Null)))
    requires verify(password, hash(Stringify(FieldOr(data, "password", Null))))
    ensures LoginCheck(users + [NewRow(id, data, hash, vt)], Stringify(FieldOr(data, "email", Null)), password, verify)
      == Failure(VerifyFirst)
  {
    var email := Stringify(FieldOr(data, "email", Null));
    var row := NewRow(id, data, hash, vt);
    FindActiveAppend(users, row, email);
  }

  lemma {:induction false} FindActiveAppend(users: seq<UserRow>, row: UserRow, email: string)
    requires forall u :: u in users ==> u.email != email
    requires row.email == email && row.status == Active
    ensures FindActive(users + [row], email) == Some(row)
  {
    if users != [] {
      assert (users + [row])[1..] == users[1..] + [row];
      FindActiveAppend(users[1..], row, email);
    } else {
      assert users + [row] == [row];
    }
  }

  /** Unknown address and wrong password are told apart from nothing: both give the same
      message; only a correct password for an unverified account gets the other one. */
  lemma RefusalsIndistinguishable(users: seq<UserRow>, email: string, password: string, verify: (string, string) -> bool)
    requires LoginCheck(users, email, password, verify).Failure?
    ensures LoginCheck(users, email, password, verify).error in {InvalidCredentials, VerifyFirst}
    ensures LoginCheck(users, email, password, verify).error == VerifyFirst ==>
      verify(password, FindActive(users, email).value.passwordHash)
  {
  }

  // ---------------------------------------------------------------- the endpoint

  datatype AuthDbResponse =
    | Preflight
    | BadRequest(message: string)
    | NotAllowed
    | LoginAnswer(login: LoginOutcome)
    | RegisterAnswer(register: RegisterOutcome)
    | LoggedOut
    | SessionAnswer(user: Option<Profile>)

  function StatusCode(r: AuthDbResponse): int {
    match r
    case BadRequest(_) => 400
    case NotAllowed => 405
    case _ => 200
  }

  datatype Action = LoginAction | RegisterAction | LogoutAction | VerifyAction

  /** The switch on `$input['action'] ?? 'login'`; None for an action no case matches. */
  function ActionOf(input: Value): (r: Option<Action>)
    ensures Field(input, "action").None? ==> r == Some(LoginAction)
    ensures Field(input, "action") == Some(Str("register")) ==> r == Some(RegisterAction)
    ensures Field(input, "action") == Some(Str("logout")) ==> r == Some(LogoutAction)
    ensures Field(input, "action") == Some(Str("verify")) ==> r == Some(VerifyAction)
    ensures Field(input, "action") == Some(Str("delete")) ==> r.None?
  {
    var action := FieldOr(input, "action", Str("login"));
    if SwitchMatches(action, "login") then Some(LoginAction)
    else if SwitchMatches(action, "register") then Some(RegisterAction)
    else if SwitchMatches(action, "logout") then Some(LogoutAction)
    else if SwitchMatches(action, "verify") then Some(VerifyAction)
    else None
  }

  /** The request: POST only; a falsy body is 400; the action defaults to login; every
      action answers 200 whatever its outcome, and an unknown action is 400. */
  method Handle(m: AuthManager, httpMethod: string, body: Option<Value>, now: int, token: string,
                ipAddress: string, userAgent: string, verify: (string, string) -> bool, hash: string -> string,
                insertFails: bool, verificationToken: string)
    returns (r: AuthDbResponse)
    modifies m
    ensures httpMethod == "OPTIONS" ==> r == Preflight
    ensures httpMethod != "OPTIONS" && httpMethod != "POST" ==> r == NotAllowed && StatusCode(r) == 405
    ensures httpMethod == "POST" && (body.None? || Empty(body.value)) ==> r == BadRequest("Invalid input")
    ensures r.BadRequest? || r.NotAllowed? || r.Preflight? ==> unchanged(m)
    ensures r.LoginAnswer? || r.RegisterAnswer? || r.SessionAnswer? || r.LoggedOut? ==> StatusCode(r) == 200
    ensures Grows(old(m.users), m.users)
    ensures httpMethod == "POST" && body.Some? && !Empty(body.value) ==>
      var input := body.value;
      var sessionToken := Stringify(FieldOr(input, "session_token", Str("")));
      && (ActionOf(input).None? <==> r == BadRequest("Invalid action"))
      && (ActionOf(input).None? ==> unchanged(m))
      && (ActionOf(input) == Some(LoginAction) ==>
            r.LoginAnswer? &&
            m.LoginEffect(Stringify(FieldOr(input, "email", Str(""))), Stringify(FieldOr(input, "password", Str(""))),
                          !Empty(FieldOr(input, "rememberMe", Bool(false))), now, token, ipAddress, userAgent,
                          verify, insertFails, r.login))
      && (ActionOf(input) == Some(RegisterAction) ==>
            r.RegisterAnswer? && m.RegisterEffect(input, hash, verificationToken, r.register))
      && (ActionOf(input) == Some(LogoutAction) ==>
            r == LoggedOut && m.sessions == WithoutToken(old(m.sessions), sessionToken)
            && m.users == old(m.users) && m.nextId == old(m.nextId))
      && (ActionOf(input) == Some(VerifyAction) ==>
            var u := VerifySession(old(m.users), old(m.sessions), sessionToken, now);
            r == SessionAnswer(if u.Some? then Some(ProfileOf(u.value)) else None) && unchanged(m))
  {
    if httpMethod == "OPTIONS" {
      return Preflight;
    }
    if httpMethod != "POST" {
      return NotAllowed;
    }
    if body.None? || Empty(body.value) {
      return BadRequest("Invalid input");
    }
    var input := body.value;
    var action := ActionOf(input);
    if action == Some(LoginAction) {
      var email := Stringify(FieldOr(input, "email", Str("")));
      var password := Stringify(FieldOr(input, "password", Str("")));
      var rememberMe := !Empty(FieldOr(input, "rememberMe", Bool(false)));
      var outcome := m.Login(email, password, rememberMe, now, token, ipAddress, userAgent, verify, insertFails);
      r := LoginAnswer(outcome);
    } else if action == Some(RegisterAction) {
      var outcome := m.Register(input, hash, verificationToken);
      r := RegisterAnswer(outcome);
    } else if action == Some(LogoutAction) {
      m.Logout(Stringify(FieldOr(input, "session_token", Str(""))));
      r := LoggedOut;
    } else if action == Some(VerifyAction) {
      var u := VerifySession(m.users, m.sessions, Stringify(FieldOr(input, "session_token", Str(""))), now);
      r := SessionAnswer(if u.Some? then Some(ProfileOf(u.value)) else None);
    } else {
      r := BadRequest("Invalid action");
    }
  }
}
