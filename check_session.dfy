/** The stand-alone session check endpoint: it reads the session the demo login filled and
    either reports the user or answers 401. It shares the reading of the session with the
    login endpoint's own check and differs only in how a missing login is answered. */
module SessionCheck {
  import opened Wrappers
  import opened Php
  import DemoAuth

  datatype SessionResponse =
    | Preflight
    /** 200, success true, with the session's user and the avatar cut from the name. */
    | Authenticated(id: Value, name: Value, email: Value, role: Value, avatar: string)
    /** 401, success false, logged_in false, 'Not authenticated'. */
    | NotAuthenticated
    /** substr() of an array name: an uncaught TypeError. */
    | TypeError

  function StatusCode(r: SessionResponse): int {
    match r
    case Preflight => 200
    case Authenticated(_, _, _, _, _) => 200
    case NotAuthenticated => 401
    case TypeError => 500
  }

  /** One request, given the current session data. The endpoint has no way to write the
      session: the answer is a function of the data it reads. */
  function Respond(httpMethod: string, data: map<string, Value>): (r: SessionResponse)
    ensures httpMethod == "OPTIONS" <==> r == Preflight
    ensures httpMethod != "OPTIONS" ==>
      (r == NotAuthenticated <==> DemoAuth.Get(data, "logged_in") != Bool(true))
    ensures r.Authenticated? ==>
      r.id == DemoAuth.Get(data, "user_id") && r.name == DemoAuth.Get(data, "user_name") &&
      r.email == DemoAuth.Get(data, "user_email") && r.role == DemoAuth.Get(data, "user_role") &&
      DemoAuth.FirstTwo(r.name) == Some(r.avatar)
  {
    if httpMethod == "OPTIONS" then Preflight
    else
      match DemoAuth.Check(data)
      case NotLoggedIn => NotAuthenticated
      case LoggedInAs(id, name, email, role, avatar) => Authenticated(id, name, email, role, avatar)
      case NameIsArray => TypeError
  }

  /** The two checks agree on who is logged in, but a missing login is a 401 here and a
      200 with success true from the login endpoint's check. */
  lemma AgreesWithLoginCheck(data: map<string, Value>)
    ensures Respond("GET", data) == NotAuthenticated <==> DemoAuth.Check(data) == DemoAuth.NotLoggedIn
    ensures Respond("GET", data) == NotAuthenticated ==> StatusCode(Respond("GET", data)) == 401
    ensures DemoAuth.Check(data).LoggedInAs? ==>
      Respond("GET", data) == Authenticated(DemoAuth.Check(data).id, DemoAuth.Check(data).name,
        DemoAuth.Check(data).email, DemoAuth.Check(data).role, DemoAuth.Check(data).avatar)
  {
  }

  /** After a demo login, the session check reports that account, with its name's first two
      characters as the avatar. */
  lemma ReportsLoggedInUser(prior: map<string, Value>, u: DemoAuth.DemoUser)
    requires u in DemoAuth.Users.Values
    ensures Respond("GET", prior + DemoAuth.SessionWrites(u)) ==
      Authenticated(Int(u.id), Str(u.name), Str(u.email), Str(u.role), u.name[..2])
    ensures StatusCode(Respond("GET", prior + DemoAuth.SessionWrites(u))) == 200
  {
    DemoAuth.LoginThenCheck(prior, u);
  }

  /** An empty session, such as one after logout, is not authenticated. */
  lemma EmptySessionRefused()
    ensures Respond("GET", map[]) == NotAuthenticated
  {
  }
}
