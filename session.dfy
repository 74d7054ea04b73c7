/** Logging a user in: the user's public profile is written into the session. */
module WebSession {
  import opened Wrappers
  import opened Values
  import opened Http

  /** A user row; the password is never copied into the session. */
  datatype User = User(id: string, login: string, password: string, firstName: Option<string>, lastName: Option<string>)

  const UserKey: string := "user"

  /** A nullable text column as a session value. */
  function Nullable(o: Option<string>): Value {
    match o
    case Some(s) => Str(s)
    case None => Null
  }

  /** The record stored under "user". */
  function UserRecord(user: User): (v: Value)
    ensures v.Dict? && v.fields.Keys == {"id", "login", "first_name", "last_name"}
  {
    Dict(map[
      "id" := Str(user.id),
      "login" := Str(user.login),
      "first_name" := Nullable(user.firstName),
      "last_name" := Nullable(user.lastName)])
  }

  /** The profile a stored record describes. */
  datatype Profile = Profile(id: string, login: string, firstName: Option<string>, lastName: Option<string>)

  function OptionalText(v: Value): Option<Option<string>> {
    match v
    case Str(s) => Some(Some(s))
    case Null => Some(None)
    case _ => None
  }

  /** Reads a "user" record back, if it has the shape `UserRecord` produces. */
  function ProfileOf(v: Value): Option<Profile> {
    if v.Dict? && v.fields.Keys == {"id", "login", "first_name", "last_name"}
       && v.fields["id"].Str? && v.fields["login"].Str?
       && OptionalText(v.fields["first_name"]).Some? && OptionalText(v.fields["last_name"]).Some?
    then Some(Profile(v.fields["id"].s, v.fields["login"].s,
                      OptionalText(v.fields["first_name"]).value, OptionalText(v.fields["last_name"]).value))
    else None
  }

  /** The stored record carries exactly the user's id, login and names. */
  lemma UserRecordRoundTrip(user: User)
    ensures ProfileOf(UserRecord(user)) == Some(Profile(user.id, user.login, user.firstName, user.lastName))
  {
  }

  /** `add_user_to_session`: any earlier "user" value is replaced, every other key is left alone. */
  function WithUser(session: SessionData, user: User): (r: SessionData)
    ensures UserKey in r && r[UserKey] == UserRecord(user)
    ensures r.Keys == session.Keys + {UserKey}
    ensures forall k :: k in session && k != UserKey ==> r[k] == session[k]
  {
    session[UserKey := UserRecord(user)]
  }

  /** Logging in twice keeps only the second user; nothing of the first is merged in. */
  lemma WithUserOverwrites(session: SessionData, first: User, second: User)
    ensures WithUser(WithUser(session, first), second) == WithUser(session, second)
  {
  }

  method AddUserToSession(request: Request, user: User)
    modifies request
    ensures request.session == WithUser(old(request.session), user)
  {
    request.session := request.session[UserKey := UserRecord(user)];
  }
}
