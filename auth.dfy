/** The demo login endpoint: three fixed accounts with plain-text passwords, a PHP session
    that login fills and logout clears, and a session check. The session store is a class
    whose map field persists from one request to the next. */
module DemoAuth {
  import opened Wrappers
  import opened Text
  import opened Php

  datatype DemoUser = DemoUser(id: int, name: string, email: string, password: string, role: string, avatar: string)

  /** The account as returned to the client: everything but the password. */
  datatype PublicUser = PublicUser(id: int, name: string, email: string, role: string, avatar: string)

  const Admin := DemoUser(1, "John Doe", "admin@innostart.com", "admin123", "admin", "JD")
  const Member := DemoUser(2, "Jane Smith", "user@innostart.com", "user123", "user", "JS")
  const Demo := DemoUser(3, "Demo User", "demo@innostart.com", "demo123", "user", "DU")

  /** The accounts, keyed by e-mail address. */
  const Users: map<string, DemoUser> := map[Admin.email := Admin, Member.email := Member, Demo.email := Demo]

  function Public(u: DemoUser): PublicUser {
    PublicUser(u.id, u.name, u.email, u.role, u.avatar)
  }

  const InvalidInput := "Invalid input"
  const CredentialsRequired := "Email and password are required"
  const InvalidCredentials := "Invalid email or password"
  const MethodNotAllowed := "Method not allowed"

  // ---------------------------------------------------------------- login

  datatype LoginResult = Refused(status: int, message: string) | Accepted(user: DemoUser) | IllegalKey

  /** The POST branch, given the decoded body (None when it does not decode). */
  function Login(body: Option<Value>): (r: LoginResult)
    ensures r.Accepted? <==>
      exists e :: e in Users && body.Some? &&
        Field(body.value, "email") == Some(Str(e)) && Field(body.value, "password") == Some(Str(Users[e].password))
    ensures r.Accepted? ==> Field(body.value, "email") == Some(Str(r.user.email)) && r.user.email in Users && Users[r.user.email] == r.user
    ensures r == Refused(400, InvalidInput) <==> body.None? || Empty(body.value)
    ensures r.Refused? ==> r.status == 400 || r == Refused(401, InvalidCredentials)
    ensures body.Some? && !Empty(body.value) &&
            (Empty(FieldOr(body.value, "email", Str(""))) || Empty(FieldOr(body.value, "password", Str("")))) ==>
              r == Refused(400, CredentialsRequired)
    ensures r == IllegalKey <==>
      && body.Some? && !Empty(body.value)
      && !Empty(FieldOr(body.value, "email", Str(""))) && !Empty(FieldOr(body.value, "password", Str("")))
      && (FieldOr(body.value, "email", Str("")).List? || FieldOr(body.value, "email", Str("")).Obj?)
  {
    if body.None? || Empty(body.value) then Refused(400, InvalidInput)
    else
      var email := FieldOr(body.value, "email", Str(""));
      var password := FieldOr(body.value, "password", Str(""));
      if Empty(email) || Empty(password) then Refused(400, CredentialsRequired)
      else if email.List? || email.Obj? then IllegalKey
      else if !(email.Str? && email.s in Users) then Refused(401, InvalidCredentials)
      else if password != Str(Users[email.s].password) then Refused(401, InvalidCredentials)
      else Accepted(Users[email.s])
  }

  /** What a successful login writes into the session. */
  function SessionWrites(u: DemoUser): map<string, Value> {
    map["user_id" := Int(u.id), "user_email" := Str(u.email), "user_name" := Str(u.name),
        "user_role" := Str(u.role), "logged_in" := Bool(true)]
  }

  /** An unknown address and a known one with the wrong password get the same answer. */
  lemma WrongPasswordLikeUnknownUser(known: string, password: Value, unknown: string)
    requires known in Users && unknown !in Users && !Empty(Str(unknown))
    requires password != Str(Users[known].password) && !Empty(password)
    ensures Login(Some(Obj(map["email" := Str(known), "password" := password]))) ==
            Login(Some(Obj(map["email" := Str(unknown), "password" := password])))
    ensures Login(Some(Obj(map["email" := Str(unknown), "password" := password]))) == Refused(401, InvalidCredentials)
  {
  }

  /** Passwords must match exactly: a differently cased or padded password, or the right
      digits as a number, is refused. */
  lemma PasswordComparedExactly()
    ensures Login(Some(Obj(map["email" := Str("admin@innostart.com"), "password" := Str("ADMIN123")]))).Refused?
    ensures Login(Some(Obj(map["email" := Str("admin@innostart.com"), "password" := Str("admin123 ")]))).Refused?
    ensures Login(Some(Obj(map["email" := Str("user@innostart.com"), "password" := Int(123)]))).Refused?
    ensures Login(Some(Obj(map["email" := Str("admin@innostart.com"), "password" := Str("admin123")]))) == Accepted(Admin)
  {
    assert "admin@innostart.com" == Admin.email;
    assert "user@innostart.com" == Member.email;
  }

  // ---------------------------------------------------------------- check

  datatype CheckResult =
    | NotLoggedIn
    /** The session's fields (null when missing) and the first two characters of the name. */
    | LoggedInAs(id: Value, name: Value, email: Value, role: Value, avatar: string)
    /** substr() of an array name: an uncaught TypeError. */
    | NameIsArray

  /** `$_SESSION[$key]` (null, with a warning, when missing). */
  function Get(data: map<string, Value>, key: string): Value {
    if key in data then data[key] else Null
  }

  /** substr($v, 0, 2). */
  function FirstTwo(v: Value): (r: Option<string>)
    ensures r.Some? ==> ScalarText(v).Some? && |r.value| <= 2 && r.value <= ScalarText(v).value
  {
    match ScalarText(v)
    case None => None
    case Some(s) => Some(if |s| <= 2 then s else s[..2])
  }

  /** GET action=check: logged in only when the flag is exactly `true`. */
  function Check(data: map<string, Value>): (r: CheckResult)
    ensures r.NotLoggedIn? <==> Get(data, "logged_in") != Bool(true)
    ensures r.LoggedInAs? ==>
      r.name == Get(data, "user_name") && r.id == Get(data, "user_id") &&
      r.email == Get(data, "user_email") && r.role == Get(data, "user_role")
  {
    if Get(data, "logged_in") != Bool(true) then NotLoggedIn
    else
      var name := Get(data, "user_name");
      match FirstTwo(name)
      case None => NameIsArray
      case Some(a) => LoggedInAs(Get(data, "user_id"), name, Get(data, "user_email"), Get(data, "user_role"), a)
  }

  /** A truthy flag that is not the boolean true, such as 1 or "1", does not count. */
  lemma LooseFlagNotLoggedIn(data: map<string, Value>)
    requires "logged_in" in data && data["logged_in"] in {Int(1), Str("1"), Str("true")}
    ensures Check(data) == NotLoggedIn
  {
  }

  /** After any account logs in, the check reports it with the stored fields, except that the
      avatar is cut from the name: for John Doe it is "Jo", not the stored "JD". */
  lemma LoginThenCheck(old_: map<string, Value>, u: DemoUser)
    requires u in Users.Values
    ensures Check(old_ + SessionWrites(u)) ==
      LoggedInAs(Int(u.id), Str(u.name), Str(u.email), Str(u.role), u.name[..2])
    ensures u == Admin ==> Check(old_ + SessionWrites(u)).avatar == "Jo" != u.avatar
  {
  }

  // ---------------------------------------------------------------- the endpoint

  datatype AuthResponse =
    | Preflight
    | Failed(status: int, message: string)
    | LoginOk(user: PublicUser, sessionId: string)
    | LoggedOut
    | Checked(result: CheckResult)
    | TypeError

  /** The answer to a POST: every POST is a login, whatever its action parameter says. */
  function PostResponse(body: Option<Value>, sessionId: string): AuthResponse {
    match Login(body)
    case Refused(status, message) => Failed(status, message)
    case Accepted(u) => LoginOk(Public(u), sessionId)
    case IllegalKey => TypeError
  }

  function Action(query: map<string, string>): Option<string> {
    if "action" in query then Some(query["action"]) else None
  }

  /** One request against the session `s`; `sessionId` is session_id(). */
  method Handle(s: Session, httpMethod: string, query: map<string, string>, body: Option<Value>, sessionId: string)
    returns (r: AuthResponse)
    modifies s
    ensures httpMethod == "OPTIONS" ==> r == Preflight && s.data == old(s.data)
    ensures httpMethod == "POST" ==> r == PostResponse(body, sessionId)
    ensures httpMethod == "POST" && Login(body).Accepted? ==> s.data == old(s.data) + SessionWrites(Login(body).user)
    ensures httpMethod == "POST" && !Login(body).Accepted? ==> s.data == old(s.data)
    ensures httpMethod == "GET" && Action(query) == Some("logout") ==> r == LoggedOut && s.data == map[]
    ensures httpMethod == "GET" && Action(query) == Some("check") ==> r == Checked(Check(old(s.data))) && s.data == old(s.data)
    ensures httpMethod !in {"OPTIONS", "POST"} && !(httpMethod == "GET" && Action(query) in {Some("logout"), Some("check")}) ==>
      r == Failed(405, MethodNotAllowed) && s.data == old(s.data)
  {
    if httpMethod == "OPTIONS" {
      return Preflight;
    }
    if httpMethod == "POST" {
      var outcome := Login(body);
      if outcome.Accepted? {
        s.data := s.data + SessionWrites(outcome.user);
      }
      return PostResponse(body, sessionId);
    }
    if httpMethod == "GET" && Action(query) == Some("logout") {
      s.data := map[];
      return LoggedOut;
    }
    if httpMethod == "GET" && Action(query) == Some("check") {
      return Checked(Check(s.data));
    }
    r := Failed(405, MethodNotAllowed);
  }

  /** The registration block is never reached: a POST with action=register is a login, so
      a new address is refused with 401 and missing credentials get the login's message. */
  lemma RegistrationIsLogin(name: string, email: string, password: string, sessionId: string)
    requires !Empty(Str(email)) && !Empty(Str(password)) && email !in Users
    ensures PostResponse(Some(Obj(map["name" := Str(name), "email" := Str(email), "password" := Str(password)])), sessionId)
      == Failed(401, InvalidCredentials)
    ensures PostResponse(Some(Obj(map["name" := Str(name), "email" := Str(email)])), sessionId)
      == Failed(400, CredentialsRequired)
  {
  }
}
