/** `get_current_user` (app/dependencies/auth.py): a bearer token is decoded,
    its subject looked up in the user store, and the record projected onto
    the four fields the routes use. JWT decoding is an oracle that either
    yields the payload dict or fails. */
module Session {
  import opened Common
  import opened Stores

  /** The projection the routes receive as `user`. */
  datatype CurrentUser = CurrentUser(id: string, username: Json, email: Json, role: Json)

  /** Every failure, the two explicit ones included, is reported as this. */
  const InvalidToken := HttpError(401, "Invalid token")

  /** `_id` as a string, `username`, `email`, and `role` with a default of "candidate";
      None when `username` or `email` is missing (a `KeyError`). */
  function Projection(user: Document): (r: Option<CurrentUser>)
    ensures r.Some? <==> "username" in user.fields && "email" in user.fields
    ensures r.Some? ==>
      r.value.id == KeyText(user.key) && r.value.username == user.fields["username"] &&
      r.value.email == user.fields["email"] &&
      r.value.role == (if "role" in user.fields then user.fields["role"] else JStr("candidate"))
  {
    if "username" in user.fields && "email" in user.fields then
      Some(CurrentUser(KeyText(user.key), user.fields["username"], user.fields["email"],
                       Get(user.fields, "role", JStr("candidate"))))
    else None
  }

  /** The current user for `token`: a payload with a truthy `sub`, the first
      user with that username, and its projection; 401 otherwise. */
  function GetCurrentUser(users: seq<Document>, token: string, decode: string -> Option<JsonObject>)
    : (r: Result<CurrentUser, HttpError>)
    ensures r.Err? ==> r.error == InvalidToken
    ensures r.Ok? <==>
      decode(token).Some? && "sub" in decode(token).value && Truthy(decode(token).value["sub"]) &&
      FirstWithField(users, "username", decode(token).value["sub"]) >= 0 &&
      Projection(users[FirstWithField(users, "username", decode(token).value["sub"])]).Some?
    ensures r.Ok? ==> r.value.username == decode(token).value["sub"]
    ensures r.Ok? ==>
      Some(r.value) == Projection(users[FirstWithField(users, "username", decode(token).value["sub"])])
  {
    match decode(token)
    case None => Err(InvalidToken)
    case Some(payload) =>
      var sub := Get(payload, "sub", JNull);
      if !Truthy(sub) then Err(InvalidToken)
      else
        var i := FirstWithField(users, "username", sub);
        if i < 0 then Err(InvalidToken)
        else
          match Projection(users[i])
          case None => Err(InvalidToken)
          case Some(user) => Ok(user)
  }

  /** A signed-in user whose record lacks `role` is treated as a candidate. */
  lemma RoleDefaultsToCandidate(users: seq<Document>, token: string, decode: string -> Option<JsonObject>)
    requires GetCurrentUser(users, token, decode).Ok?
    requires forall d :: d in users ==> "role" !in d.fields
    ensures GetCurrentUser(users, token, decode).value.role == JStr("candidate")
  {
    var sub := decode(token).value["sub"];
    var i := FirstWithField(users, "username", sub);
    assert users[i] in users;
  }
}
