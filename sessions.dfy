/**
  The signed-in session as the dashboard components read it, and the user
  id they derive from it.
*/
module Sessions {
  import opened Wrappers
  import opened Text

  datatype User = User(id: Option<string>, stravaId: Option<int>)

  /** The session; `user.None?` is no user. */
  datatype Session = Session(user: Option<User>, accessToken: Option<string>, refreshToken: Option<string>)

  /** `session.user.id || session.user.stravaId?.toString()`. */
  function UserIdOf(u: User): (id: Option<string>)
    ensures StringTruthy(u.id) ==> id == u.id
    ensures !StringTruthy(u.id) && u.stravaId.Some? ==> id == Some(IntToString(u.stravaId.value))
    ensures !StringTruthy(u.id) && u.stravaId.None? ==> id.None?
    ensures StringTruthy(id) <==> StringTruthy(u.id) || u.stravaId.Some?
    ensures id.Some? <==> StringTruthy(id)
  {
    if StringTruthy(u.id) then u.id
    else if u.stravaId.Some? then Some(IntToString(u.stravaId.value))
    else None
  }
}
