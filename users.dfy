/** The user management endpoint: reading and updating a profile, changing the password,
    deleting the account, and per-user preferences. The users and user_preferences tables
    are fields of the manager class. Password hashing and checking and the clock are
    parameters, and a flag says when the database throws. */
module Users {
  import opened Wrappers
  import opened Text
  import opened Php

  /** A column value as the database hands it back: SQL NULL or text. */
  type Stored = Option<string>

  /** A row of the users table: the key, the stored hash, the status, the other columns
      (email, names, phone, country, city, bio, ...) and the update time. */
  datatype UserRow = UserRow(id: int, passwordHash: string, status: string, columns: map<string, Stored>, updatedAt: int)

  /** What getUserProfile returns: the selected columns, never the hash. */
  datatype Profile = Profile(id: int, status: string, columns: map<string, Stored>, updatedAt: int)

  /** The unique key of a user_preferences row: the user id as sent and the preference name. */
  datatype PrefKey = PrefKey(userId: string, name: string)

  /** The counts getUserStats reads from the plan, idea and chat tables. */
  datatype UserStats = UserStats(businessPlans: nat, businessIdeas: nat, chatConversations: nat, chatMessages: nat)

  /** What a state-changing manager method answers: success true or false with a message,
      or an uncaught TypeError (password_verify or password_hash given an array). */
  datatype Reply = Ok(message: string) | Fail(message: string) | TypeError

  const Active := "active"
  const UserNotFound := "User not found"
  const NoValidFields := "No valid fields to update"
  const ProfileUpdated := "Profile updated successfully"
  const UpdateFailed := "Failed to update profile"
  const WrongCurrentPassword := "Current password is incorrect"
  const PasswordChanged := "Password changed successfully"
  const ChangeFailed := "Failed to change password"
  const InvalidPassword := "Invalid password"
  const AccountDeleted := "Account deleted successfully"
  const DeleteFailed := "Failed to delete account"
  const PreferencesUpdated := "Preferences updated successfully"
  const PreferencesFailed := "Failed to update preferences"

  /** The columns a profile update may change, in the order the SET list names them. */
  const AllowedFields := ["first_name", "last_name", "phone", "country", "city", "bio"]

  /** `WHERE id = ?` with the id as sent: the row's id written in decimal is that text. */
  predicate HasId(u: UserRow, userId: string) {
    IntToString(u.id) == userId
  }

  /** The first row with the id, whatever its status (changePassword, deleteUser). */
  function FindUser(users: seq<UserRow>, userId: string): (r: Option<UserRow>)
    ensures r.Some? ==> r.value in users && HasId(r.value, userId)
    ensures r.None? <==> forall u :: u in users ==> !HasId(u, userId)
  {
    if users == [] then None
    else if HasId(users[0], userId) then Some(users[0])
    else FindUser(users[1..], userId)
  }

  /** The first active row with the id (getUserProfile). */
  function FindActiveUser(users: seq<UserRow>, userId: string): (r: Option<UserRow>)
    ensures r.Some? ==> r.value in users && HasId(r.value, userId) && r.value.status == Active
    ensures r.None? <==> forall u :: u in users ==> !(HasId(u, userId) && u.status == Active)
  {
    if users == [] then None
    else if HasId(users[0], userId) && users[0].status == Active then Some(users[0])
    else FindActiveUser(users[1..], userId)
  }

  function ProfileOf(u: UserRow): Profile {
    Profile(u.id, u.status, u.columns, u.updatedAt)
  }

  // ---------------------------------------------------------------- profile update

  /** The allowed fields that are set in the request, in the order of `fields`. */
  function PresentFields(fields: seq<string>, data: Value): (r: seq<string>)
    ensures forall f :: f in r <==> f in fields && Field(data, f).Some?
    ensures |r| <= |fields|
  {
    if fields == [] then []
    else
      var last := fields[|fields| - 1];
      PresentFields(fields[..|fields| - 1], data) + (if Field(data, last).Some? then [last] else [])
  }

  /** The column values an UPDATE naming `fields` writes: each one set in the request, as text. */
  function ChangesOf(fields: seq<string>, data: Value): (c: map<string, Stored>)
    ensures forall f :: f in c <==> f in fields && Field(data, f).Some?
    ensures forall f :: f in c ==> c[f] == Some(Stringify(Field(data, f).value))
  {
    if fields == [] then map[]
    else
      var last := fields[|fields| - 1];
      var before := ChangesOf(fields[..|fields| - 1], data);
      if Field(data, last).Some? then before[last := Some(Stringify(Field(data, last).value))] else before
  }

  /** The column values a profile update writes. */
  function Changes(data: Value): map<string, Stored> {
    ChangesOf(AllowedFields, data)
  }

  /** One more allowed field: listed and bound exactly when the request sets it. */
  lemma FieldsSnoc(allowed: seq<string>, data: Value, i: nat)
    requires i < |allowed|
    ensures PresentFields(allowed[..i + 1], data) ==
      PresentFields(allowed[..i], data) + (if Field(data, allowed[i]).Some? then [allowed[i]] else [])
    ensures ChangesOf(allowed[..i + 1], data) ==
      if Field(data, allowed[i]).Some? then ChangesOf(allowed[..i], data)[allowed[i] := Some(Stringify(Field(data, allowed[i]).value))]
      else ChangesOf(allowed[..i], data)
  {
    assert allowed[..i + 1][..i] == allowed[..i];
  }

  /** The UPDATE: every row with the id gets the new column values and the update time;
      nothing else changes. */
  function Touch(users: seq<UserRow>, userId: string, changes: map<string, Stored>, now: int): (r: seq<UserRow>)
    ensures |r| == |users|
    ensures forall i :: 0 <= i < |users| ==>
      r[i] == if HasId(users[i], userId) then users[i].(columns := users[i].columns + changes, updatedAt := now) else users[i]
  {
    if users == [] then []
    else
      [if HasId(users[0], userId) then users[0].(columns := users[0].columns + changes, updatedAt := now) else users[0]]
      + Touch(users[1..], userId, changes, now)
  }

  /** The rows left after `DELETE FROM users WHERE id = ?`. */
  function WithoutId(users: seq<UserRow>, userId: string): (r: seq<UserRow>)
    ensures forall u :: u in r <==> u in users && !HasId(u, userId)
  {
    if users == [] then []
    else (if HasId(users[0], userId) then [] else [users[0]]) + WithoutId(users[1..], userId)
  }

  // ---------------------------------------------------------------- preferences

  /** The value a preference row gets: NULL for null, otherwise the value as text. */
  function StoredValue(v: Value): Stored {
    if v == Null then None else Some(Stringify(v))
  }

  lemma NatKeysDistinct()
    ensures forall m: nat, n: nat :: NatToString(m) == NatToString(n) ==> m == n
  {
    forall m: nat, n: nat | NatToString(m) == NatToString(n)
      ensures m == n
    {
      NatToStringInjective(m, n);
    }
  }

  /** The pairs `foreach ($preferences as $key => $value)` visits: an object's fields, a
      list's positions as keys, and nothing for null or a scalar. */
  function PrefEntries(input: Value): (e: map<string, Stored>)
    ensures input.Obj? ==> e.Keys == input.fields.Keys
    ensures input.List? ==> forall i :: 0 <= i < |input.items| ==> NatToString(i) in e
    ensures !input.Obj? && !input.List? ==> e == map[]
  {
    match input
    case Obj(m) => map k | k in m :: StoredValue(m[k])
    case List(xs) =>
      NatKeysDistinct();
      map i | 0 <= i < |xs| :: NatToString(i) := StoredValue(xs[i])
    case _ => map[]
  }

  /** The upserts for the keys in `done`: one row per key, replacing any row of the same user
      and name. */
  function Upserts(userId: string, entries: map<string, Stored>, done: set<string>): (u: map<PrefKey, Stored>)
    requires done <= entries.Keys
    ensures forall p :: p in u <==> p.userId == userId && p.name in done
    ensures forall k :: k in done ==> u[PrefKey(userId, k)] == entries[k]
  {
    map k | k in done :: PrefKey(userId, k) := entries[k]
  }

  /** One more upsert, laid over the table. */
  lemma UpsertsStep(table: map<PrefKey, Stored>, userId: string, entries: map<string, Stored>, done: set<string>, k: string)
    requires done <= entries.Keys && k in entries
    ensures (table + Upserts(userId, entries, done))[PrefKey(userId, k) := entries[k]] ==
            table + Upserts(userId, entries, done + {k})
  {
    var a := (table + Upserts(userId, entries, done))[PrefKey(userId, k) := entries[k]];
    var b := table + Upserts(userId, entries, done + {k});
    assert a.Keys == b.Keys;
    forall p | p in a
      ensures a[p] == b[p]
    {
    }
  }

  /** getUserPreferences' result: the user's rows as a name → value map. */
  function PreferencesOf(prefs: map<PrefKey, Stored>, userId: string): (r: map<string, Stored>)
    ensures forall k :: k in r <==> PrefKey(userId, k) in prefs
    ensures forall k :: k in r ==> r[k] == prefs[PrefKey(userId, k)]
  {
    map p | p in prefs && p.userId == userId :: p.name := prefs[p]
  }

  // ---------------------------------------------------------------- the manager

  class UserManager {
    var users: seq<UserRow>
    var prefs: map<PrefKey, Stored>

    constructor(users: seq<UserRow>, prefs: map<PrefKey, Stored>)
      ensures this.users == users && this.prefs == prefs
    {
      this.users := users;
      this.prefs := prefs;
    }

    /** getUserProfile: an active user's columns, or 'User not found'. */
    function GetUserProfile(userId: string, fails: bool): (r: Result<Profile, string>)
      reads this
      ensures fails ==> r == Failure("Failed to get user profile")
      ensures !fails && r.Success? ==>
        exists u :: u in users && HasId(u, userId) && u.status == Active && r.value == ProfileOf(u)
      ensures !fails ==> (r == Failure(UserNotFound) <==> forall u :: u in users ==> !(HasId(u, userId) && u.status == Active))
    {
      if fails then Failure("Failed to get user profile")
      else
        match FindActiveUser(users, userId)
        case Some(u) => Success(ProfileOf(u))
        case None => Failure(UserNotFound)
    }

    /** getUserPreferences. */
    function GetUserPreferences(userId: string, fails: bool): (r: Result<map<string, Stored>, string>)
      reads this
      ensures fails <==> r.Failure?
      ensures r.Success? ==> r.value == PreferencesOf(prefs, userId)
    {
      if fails then Failure("Failed to get user preferences") else Success(PreferencesOf(prefs, userId))
    }

    /** The loop over the allowed fields: the SET list and the values it binds. */
    method UpdateList(allowed: seq<string>, data: Value) returns (fields: seq<string>, changes: map<string, Stored>)
      ensures fields == PresentFields(allowed, data)
      ensures changes == ChangesOf(allowed, data)
    {
      fields := [];
      changes := map[];
      var i := 0;
      while i < |allowed|
        invariant 0 <= i <= |allowed|
        invariant fields == PresentFields(allowed[..i], data)
        invariant changes == ChangesOf(allowed[..i], data)
      {
        var f := allowed[i];
        FieldsSnoc(allowed, data, i);
        if Field(data, f).Some? {
          fields := fields + [f];
          changes := changes[f := Some(Stringify(Field(data, f).value))];
        }
        i := i + 1;
      }
      assert allowed[..i] == allowed;
    }

    /** updateUserProfile: only the allowed fields that are set are written; none set is a
        refusal. The UPDATE does not look at the status and reports success even when no row
        has the id. */
    twostate predicate ProfileEffect(userId: string, data: Value, now: int, fails: bool, r: Reply)
      reads this
    {
      && prefs == old(prefs)
      && (Changes(data) == map[] ==> r == Fail(NoValidFields) && users == old(users))
      && (Changes(data) != map[] && fails ==> r == Fail(UpdateFailed) && users == old(users))
      && (Changes(data) != map[] && !fails ==> r == Ok(ProfileUpdated) && users == Touch(old(users), userId, Changes(data), now))
    }

    method UpdateUserProfile(userId: string, data: Value, now: int, fails: bool) returns (r: Reply)
      modifies this
      ensures ProfileEffect(userId, data, now, fails, r)
    {
      var fields, changes := UpdateList(AllowedFields, data);
      if fields == [] {
        assert forall f :: f !in changes;
        return Fail(NoValidFields);
      }
      assert fields[0] in changes;
      if fails {
        return Fail(UpdateFailed);
      }
      users := Touch(users, userId, changes, now);
      r := Ok(ProfileUpdated);
    }

    twostate predicate PasswordEffect(userId: string, current: Value, newPassword: Value, now: int,
                                      verify: (string, string) -> bool, hash: string -> string, fails: bool, r: Reply)
      reads this
    {
      && prefs == old(prefs)
      && (FindUser(old(users), userId).None? ==> r == Fail(UserNotFound) && users == old(users))
      && (FindUser(old(users), userId).Some? && ScalarText(current).None? ==> r == TypeError && users == old(users))
      && (FindUser(old(users), userId).Some? && ScalarText(current).Some? &&
          !verify(ScalarText(current).value, FindUser(old(users), userId).value.passwordHash) ==>
            r == Fail(WrongCurrentPassword) && users == old(users))
      && (r.Ok? ==>
            && FindUser(old(users), userId).Some? && ScalarText(current).Some? && ScalarText(newPassword).Some?
            && verify(ScalarText(current).value, FindUser(old(users), userId).value.passwordHash)
            && r.message == PasswordChanged
            && users == SetHash(old(users), userId, hash(ScalarText(newPassword).value), now))
      && (!r.Ok? ==> users == old(users))
      && (FindUser(old(users), userId).Some? && ScalarText(current).Some? && ScalarText(newPassword).Some? &&
          verify(ScalarText(current).value, FindUser(old(users), userId).value.passwordHash) ==>
            (r.Ok? <==> !fails))
    }

    /** changePassword: the stored hash is replaced by a hash of the new password only for a
        known user (active or not) whose current password verifies. */
    method ChangePassword(userId: string, current: Value, newPassword: Value, now: int,
                          verify: (string, string) -> bool, hash: string -> string, fails: bool) returns (r: Reply)
      modifies this
      ensures PasswordEffect(userId, current, newPassword, now, verify, hash, fails, r)
    {
      var found := FindUser(users, userId);
      if found.None? {
        return Fail(UserNotFound);
      }
      if ScalarText(current).None? {
        return TypeError;
      }
      if !verify(ScalarText(current).value, found.value.passwordHash) {
        return Fail(WrongCurrentPassword);
      }
      if ScalarText(newPassword).None? {
        return TypeError;
      }
      if fails {
        return Fail(ChangeFailed);
      }
      users := SetHash(users, userId, hash(ScalarText(newPassword).value), now);
      r := Ok(PasswordChanged);
    }

    twostate predicate DeleteEffect(userId: string, password: Value, verify: (string, string) -> bool, fails: bool, r: Reply)
      reads this
    {
      && prefs == old(prefs)
      && (FindUser(old(users), userId).None? ==> r == Fail(InvalidPassword) && users == old(users))
      && (FindUser(old(users), userId).Some? && ScalarText(password).None? ==> r == TypeError && users == old(users))
      && (FindUser(old(users), userId).Some? && ScalarText(password).Some? &&
          !verify(ScalarText(password).value, FindUser(old(users), userId).value.passwordHash) ==>
            r == Fail(InvalidPassword) && users == old(users))
      && (r.Ok? <==>
            FindUser(old(users), userId).Some? && ScalarText(password).Some? &&
            verify(ScalarText(password).value, FindUser(old(users), userId).value.passwordHash) && !fails)
      && (r.Ok? ==> r.message == AccountDeleted && users == WithoutId(old(users), userId))
      && (!r.Ok? ==> users == old(users))
    }

    /** deleteUser: an unknown user and a wrong password get the same answer; the rows with
        the id go only after the password verifies. */
    method DeleteUser(userId: string, password: Value, verify: (string, string) -> bool, fails: bool)
      returns (r: Reply)
      modifies this
      ensures DeleteEffect(userId, password, verify, fails, r)
    {
      var found := FindUser(users, userId);
      if found.None? {
        return Fail(InvalidPassword);
      }
      if ScalarText(password).None? {
        return TypeError;
      }
      if !verify(ScalarText(password).value, found.value.passwordHash) {
        return Fail(InvalidPassword);
      }
      if fails {
        return Fail(DeleteFailed);
      }
      users := WithoutId(users, userId);
      r := Ok(AccountDeleted);
    }

    /** updateUserPreferences: the pairs are upserted one at a time inside a transaction;
        when the statement for some key throws (its name is in `failing`), the rollback
        restores the table as it was before the first. */
    twostate predicate PreferencesEffect(userId: string, input: Value, failing: set<string>, r: Reply)
      reads this
    {
      && users == old(users)
      && (r == Ok(PreferencesUpdated) || r == Fail(PreferencesFailed))
      && (r.Ok? <==> PrefEntries(input).Keys !! failing)
      && (r.Ok? ==> prefs == old(prefs) + Upserts(userId, PrefEntries(input), PrefEntries(input).Keys))
      && (r.Fail? ==> prefs == old(prefs))
    }

    method UpdateUserPreferences(userId: string, input: Value, failing: set<string>) returns (r: Reply)
      modifies this
      ensures PreferencesEffect(userId, input, failing, r)
    {
      var committed := UpsertAll(userId, PrefEntries(input), failing);
      r := if committed then Ok(PreferencesUpdated) else Fail(PreferencesFailed);
    }

    /** The transaction: the loop over the pairs, and the rollback. */
    method UpsertAll(userId: string, entries: map<string, Stored>, failing: set<string>) returns (committed: bool)
      modifies this
      ensures users == old(users)
      ensures committed <==> entries.Keys !! failing
      ensures committed ==> prefs == old(prefs) + Upserts(userId, entries, entries.Keys)
      ensures !committed ==> prefs == old(prefs)
    {
      var saved := prefs;
      var done: set<string> := {};
      var remaining := entries.Keys;
      while remaining != {}
        invariant done + remaining == entries.Keys && done !! remaining
        invariant done !! failing
        invariant prefs == saved + Upserts(userId, entries, done)
        invariant users == old(users) && saved == old(prefs)
        decreases |remaining|
      {
        var k :| k in remaining;
        if k in failing {
          prefs := saved;
          return false;
        }
        UpsertsStep(saved, userId, entries, done, k);
        prefs := prefs[PrefKey(userId, k) := entries[k]];
        done := done + {k};
        remaining := remaining - {k};
      }
      assert done == entries.Keys;
      committed := true;
    }
  }

  /** The password UPDATE: every row with the id gets the new hash and the update time. */
  function SetHash(users: seq<UserRow>, userId: string, newHash: string, now: int): (r: seq<UserRow>)
    ensures |r| == |users|
    ensures forall i :: 0 <= i < |users| ==>
      r[i] == if HasId(users[i], userId) then users[i].(passwordHash := newHash, updatedAt := now) else users[i]
  {
    if users == [] then []
    else
      [if HasId(users[0], userId) then users[0].(passwordHash := newHash, updatedAt := now) else users[0]]
      + SetHash(users[1..], userId, newHash, now)
  }

  // ---------------------------------------------------------------- properties

  /** A profile update changes only the present allowed columns and the update time of the
      rows with the id: their key, hash, status and other columns stay, and other rows stay. */
  lemma TouchOnlyChanges(users: seq<UserRow>, userId: string, data: Value, now: int, i: int, col: string)
    requires 0 <= i < |users|
    ensures var t := Touch(users, userId, Changes(data), now)[i];
      && t.id == users[i].id && t.passwordHash == users[i].passwordHash && t.status == users[i].status
      && (col !in AllowedFields || Field(data, col).None? ==>
            (col in t.columns <==> col in users[i].columns) &&
            (col in t.columns ==> t.columns[col] == users[i].columns[col]))
      && (HasId(users[i], userId) && col in AllowedFields && Field(data, col).Some? ==>
            col in t.columns && t.columns[col] == Some(Stringify(Field(data, col).value)))
      && (!HasId(users[i], userId) ==> t == users[i])
  {
  }

  /** Keys other than the six allowed fields make no difference to an update. */
  lemma OtherKeysIgnored(fields: map<string, Value>, extra: map<string, Value>)
    requires forall k :: k in extra ==> k !in AllowedFields
    ensures Changes(Obj(fields + extra)) == Changes(Obj(fields))
  {
    assert forall f :: f in AllowedFields ==> Field(Obj(fields + extra), f) == Field(Obj(fields), f);
  }

  /** An update for an id no row has still succeeds, and changes nothing. */
  lemma UpdateOfUnknownIdChangesNothing(users: seq<UserRow>, userId: string, changes: map<string, Stored>, now: int)
    requires FindUser(users, userId).None?
    ensures Touch(users, userId, changes, now) == users
  {
    var t := Touch(users, userId, changes, now);
    assert forall i :: 0 <= i < |users| ==> users[i] in users && t[i] == users[i];
  }

  /** After a password change, when `verify` accepts a hash of the same password, the new
      password verifies against every row with the id. */
  lemma NewPasswordVerifies(users: seq<UserRow>, userId: string, newPassword: string, now: int,
                            verify: (string, string) -> bool, hash: string -> string)
    requires forall p :: verify(p, hash(p))
    ensures forall u :: u in SetHash(users, userId, hash(newPassword), now) && HasId(u, userId) ==> verify(newPassword, u.passwordHash)
    ensures forall u :: u in SetHash(users, userId, hash(newPassword), now) && !HasId(u, userId) ==> u in users
  {
    var r := SetHash(users, userId, hash(newPassword), now);
    forall u | u in r
      ensures HasId(u, userId) ==> verify(newPassword, u.passwordHash)
      ensures !HasId(u, userId) ==> u in users
    {
      var i :| 0 <= i < |r| && r[i] == u;
      if !HasId(users[i], userId) {
        assert users[i] == u;
      }
    }
  }

  /** After a deletion no row has the id, and every other row is kept. */
  lemma DeletedUserGone(users: seq<UserRow>, userId: string)
    ensures FindUser(WithoutId(users, userId), userId).None?
    ensures forall u :: u in users && !HasId(u, userId) ==> u in WithoutId(users, userId)
  {
  }

  /** After the upserts, the user's preferences are the old ones with the new pairs laid over
      them ... */
  lemma UpsertsThenRead(prefs: map<PrefKey, Stored>, userId: string, entries: map<string, Stored>)
    ensures PreferencesOf(prefs + Upserts(userId, entries, entries.Keys), userId) == PreferencesOf(prefs, userId) + entries
  {
    var up := Upserts(userId, entries, entries.Keys);
    var mine := PreferencesOf(prefs + up, userId);
    var expected := PreferencesOf(prefs, userId) + entries;
    forall k
      ensures k in mine <==> k in expected
      ensures k in mine ==> mine[k] == expected[k]
    {
      if k in entries {
        assert PrefKey(userId, k) in up;
      }
    }
    assert mine == expected;
  }

  /** ... and every other user's are as they were. */
  lemma UpsertsLeaveOthers(prefs: map<PrefKey, Stored>, userId: string, entries: map<string, Stored>, other: string)
    requires other != userId
    ensures PreferencesOf(prefs + Upserts(userId, entries, entries.Keys), other) == PreferencesOf(prefs, other)
  {
    var up := Upserts(userId, entries, entries.Keys);
    var theirs := PreferencesOf(prefs + up, other);
    var before := PreferencesOf(prefs, other);
    forall k
      ensures k in theirs <==> k in before
      ensures k in theirs ==> theirs[k] == before[k]
    {
      assert PrefKey(other, k) !in up;
    }
    assert theirs == before;
  }

  // ---------------------------------------------------------------- the endpoint

  datatype UsersResponse =
    | Preflight
    /** 401: no user_id, or an empty one. */
    | Unauthenticated
    /** 400: an action the method does not know. */
    | InvalidAction
    /** 405. */
    | NotAllowed
    | ProfileAnswer(profile: Result<Profile, string>)
    | StatsAnswer(stats: Result<UserStats, string>)
    | PreferencesAnswer(preferences: Result<map<string, Stored>, string>)
    | Answered(reply: Reply)

  function StatusCode(r: UsersResponse): int {
    match r
    case Unauthenticated => 401
    case InvalidAction => 400
    case NotAllowed => 405
    case Answered(TypeError) => 500
    case _ => 200
  }

  function Query(query: map<string, string>, key: string): Option<string> {
    if key in query then Some(query[key]) else None
  }

  /** `$_GET['action'] ?? 'profile'`. */
  function ActionOf(query: map<string, string>): string {
    Query(query, "action").GetOr("profile")
  }

  /** `!$userId`: no user_id, or one PHP counts as false ("" or "0"). */
  predicate Anonymous(query: map<string, string>) {
    Query(query, "user_id").None? || Empty(Str(query["user_id"]))
  }

  /** `json_decode(file_get_contents('php://input'), true)`: null when the body does not decode. */
  function Input(body: Option<Value>): Value {
    body.GetOr(Null)
  }

  const GetActions := {"profile", "stats", "preferences"}
  const PostActions := {"update-profile", "change-password", "update-preferences", "delete-account"}

  /** One request. `body` is the decoded request body (None when it does not decode), `stats`
      the counts the plan, idea and chat tables hold for the user, `fails` whether the
      database throws and `failing` the preference names whose upsert throws. */
  method Handle(m: UserManager, httpMethod: string, query: map<string, string>, body: Option<Value>, now: int,
                verify: (string, string) -> bool, hash: string -> string, stats: UserStats,
                fails: bool, failing: set<string>) returns (r: UsersResponse)
    modifies m
    ensures httpMethod == "OPTIONS" ==> r == Preflight
    ensures httpMethod != "OPTIONS" && Anonymous(query) ==> r == Unauthenticated
    ensures httpMethod != "OPTIONS" && !Anonymous(query) && httpMethod !in {"GET", "POST"} ==> r == NotAllowed
    ensures httpMethod == "GET" && !Anonymous(query) ==>
      && (ActionOf(query) == "profile" ==> r == ProfileAnswer(m.GetUserProfile(query["user_id"], fails)))
      && (ActionOf(query) == "preferences" ==> r == PreferencesAnswer(m.GetUserPreferences(query["user_id"], fails)))
      && (ActionOf(query) == "stats" ==> r == StatsAnswer(if fails then Failure("Failed to get user statistics") else Success(stats)))
      && (ActionOf(query) !in GetActions ==> r == InvalidAction)
    ensures httpMethod == "POST" && !Anonymous(query) && ActionOf(query) !in PostActions ==> r == InvalidAction
    ensures !(httpMethod == "POST" && !Anonymous(query) && ActionOf(query) in PostActions) ==> unchanged(m)
    ensures r.Answered? ==> httpMethod == "POST" && ActionOf(query) in PostActions
    ensures httpMethod == "POST" && !Anonymous(query) && ActionOf(query) == "change-password" &&
            r == Answered(Ok(PasswordChanged)) && Field(Input(body), "new_password").None? ==>
              m.users == SetHash(old(m.users), query["user_id"], hash(""), now)
    ensures httpMethod == "POST" && !Anonymous(query) ==>
      var userId := query["user_id"];
      var input := Input(body);
      && (ActionOf(query) == "update-profile" ==>
            r.Answered? && m.ProfileEffect(userId, input, now, fails, r.reply))
      && (ActionOf(query) == "change-password" ==>
            r.Answered? && m.PasswordEffect(userId, FieldOr(input, "current_password", Str("")),
                                            FieldOr(input, "new_password", Str("")), now, verify, hash, fails, r.reply))
      && (ActionOf(query) == "update-preferences" ==>
            r.Answered? && m.PreferencesEffect(userId, input, failing, r.reply))
      && (ActionOf(query) == "delete-account" ==>
            r.Answered? && m.DeleteEffect(userId, FieldOr(input, "password", Str("")), verify, fails, r.reply))
    ensures httpMethod == "POST" && !Anonymous(query) && ActionOf(query) == "delete-account" && r.Answered? && r.reply.Ok? ==>
      FindUser(m.users, query["user_id"]).None?
  {
    if httpMethod == "OPTIONS" {
      return Preflight;
    }
    if Anonymous(query) {
      return Unauthenticated;
    }
    var userId := query["user_id"];
    var action := ActionOf(query);
    if httpMethod == "GET" {
      if action == "profile" {
        r := ProfileAnswer(m.GetUserProfile(userId, fails));
      } else if action == "stats" {
        r := StatsAnswer(if fails then Failure("Failed to get user statistics") else Success(stats));
      } else if action == "preferences" {
        r := PreferencesAnswer(m.GetUserPreferences(userId, fails));
      } else {
        r := InvalidAction;
      }
    } else if httpMethod == "POST" {
      var input := Input(body);
      var reply;
      if action == "update-profile" {
        reply := m.UpdateUserProfile(userId, input, now, fails);
      } else if action == "change-password" {
        reply := m.ChangePassword(userId, FieldOr(input, "current_password", Str("")),
                                  FieldOr(input, "new_password", Str("")), now, verify, hash, fails);
      } else if action == "update-preferences" {
        reply := m.UpdateUserPreferences(userId, input, failing);
      } else if action == "delete-account" {
        reply := m.DeleteUser(userId, FieldOr(input, "password", Str("")), verify, fails);
      } else {
        return InvalidAction;
      }
      r := Answered(reply);
    } else {
      r := NotAllowed;
    }
  }
}
