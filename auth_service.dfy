/** `AuthService` (app/services/auth_service.py): registration as
    check-then-insert on the user store, and password authentication.
    bcrypt hashing and verification are oracles; the generated ObjectId of
    the inserted user is a parameter. */
module AuthService {
  import opened Common
  import opened Stores

  const UsernameTaken := HttpError(400, "Username already exists")
  const InvalidCredentials := HttpError(401, "Invalid credentials")

  /** The validated registration payload (`user_data.dict()`): a string
      username and a string password, and whatever else the schema carries. */
  predicate IsRegistration(data: JsonObject) {
    "username" in data && data["username"].JStr? && "password" in data && data["password"].JStr?
  }

  /** No two users share a username. */
  predicate UniqueUsernames(docs: seq<Document>) {
    forall i, j :: 0 <= i < j < |docs| && "username" in docs[i].fields ==>
      !FieldIs(docs[j], "username", docs[i].fields["username"])
  }

  /** The stored user record: the payload without `password`, with its hash
      under `hashed_password` and `role` defaulting to "candidate". */
  function StoredUser(data: JsonObject, hash: string -> string): (u: JsonObject)
    requires IsRegistration(data)
    ensures u.Keys == data.Keys - {"password"} + {"hashed_password", "role"}
    ensures "password" !in u
    ensures u["hashed_password"] == JStr(hash(data["password"].s))
    ensures u["role"] == (if "role" in data then data["role"] else JStr("candidate"))
    ensures forall k :: k in data && k !in {"password", "hashed_password", "role"} ==> k in u && u[k] == data[k]
  {
    var pw := data["password"].s;
    var rest := data - {"password"};
    var hashed := rest["hashed_password" := JStr(hash(pw))];
    hashed["role" := Get(hashed, "role", JStr("candidate"))]
  }

  /** `register`: a taken username is refused with the store unchanged;
      otherwise the record is inserted and returned with `id` set to the new `_id`.
      `insert_one` also adds `_id` to the returned dict in place; the route's
      `UserOut` response drops it, so the returned record leaves it out. */
  method Register(users: Collection, data: JsonObject, hash: string -> string, newId: string)
    returns (r: Result<JsonObject, HttpError>)
    requires IsRegistration(data)
    modifies users
    ensures FirstWithField(old(users.docs), "username", data["username"]) >= 0 ==>
      r == Err(UsernameTaken) && users.docs == old(users.docs)
    ensures FirstWithField(old(users.docs), "username", data["username"]) < 0 && KeyUsed(old(users.docs), ObjectIdKey(newId)) ==>
      r == Err(InternalError) && users.docs == old(users.docs)
    ensures r.Ok? <==>
      FirstWithField(old(users.docs), "username", data["username"]) < 0 && !KeyUsed(old(users.docs), ObjectIdKey(newId))
    ensures r.Ok? ==>
      users.docs == old(users.docs) + [Document(ObjectIdKey(newId), StoredUser(data, hash))] &&
      r.value == StoredUser(data, hash)["id" := JStr(newId)]
  {
    var existing := FirstWithField(users.docs, "username", data["username"]);
    if existing >= 0 {
      return Err(UsernameTaken);
    }
    var user := StoredUser(data, hash);
    var ok := users.Insert(Document(ObjectIdKey(newId), user));
    if !ok {
      return Err(InternalError);
    }
    r := Ok(user["id" := JStr(newId)]);
  }

  /** Appending a user whose username is not yet taken keeps usernames unique:
      under sequential registrations the store never holds a duplicate. */
  lemma RegistrationKeepsUsernamesUnique(docs: seq<Document>, data: JsonObject, hash: string -> string, newId: string)
    requires IsRegistration(data)
    requires UniqueUsernames(docs)
    requires FirstWithField(docs, "username", data["username"]) < 0
    ensures UniqueUsernames(docs + [Document(ObjectIdKey(newId), StoredUser(data, hash))])
  {
    var d := Document(ObjectIdKey(newId), StoredUser(data, hash));
    var after := docs + [d];
    assert d.fields["username"] == data["username"];
    forall i, j | 0 <= i < j < |after| && "username" in after[i].fields
      ensures !FieldIs(after[j], "username", after[i].fields["username"])
    {
      if j == |docs| {
        assert after[i] == docs[i];
        assert !FieldIs(docs[i], "username", data["username"]);
      }
    }
  }

  /** `authenticate_user`: the first user with this username, when the
      password verifies against its `hashed_password`; 401 otherwise. A record
      without `hashed_password` raises a KeyError, a 500. A hash that is not a
      string is given the same 500, since the hashing helper is not modelled. */
  function AuthenticateUser(users: seq<Document>, username: string, password: string,
                            verify: (string, string) -> bool): (r: Result<Document, HttpError>)
    ensures FirstWithField(users, "username", JStr(username)) < 0 ==> r == Err(InvalidCredentials)
    ensures r.Ok? <==>
      var i := FirstWithField(users, "username", JStr(username));
      i >= 0 && "hashed_password" in users[i].fields && users[i].fields["hashed_password"].JStr? &&
      verify(password, users[i].fields["hashed_password"].s)
    ensures r.Ok? ==> r.value in users && FieldIs(r.value, "username", JStr(username))
    ensures r.Err? ==> r.error == InvalidCredentials || r.error == InternalError
  {
    var i := FirstWithField(users, "username", JStr(username));
    if i < 0 then Err(InvalidCredentials)
    else
      var user := users[i];
      if "hashed_password" !in user.fields || !user.fields["hashed_password"].JStr? then Err(InternalError)
      else if !verify(password, user.fields["hashed_password"].s) then Err(InvalidCredentials)
      else Ok(user)
  }

  /** Signing in with the password just registered finds the new user. */
  lemma RegisteredUserCanSignIn(docs: seq<Document>, data: JsonObject, hash: string -> string, newId: string,
                                verify: (string, string) -> bool)
    requires IsRegistration(data)
    requires FirstWithField(docs, "username", data["username"]) < 0
    requires verify(data["password"].s, hash(data["password"].s))
    ensures var after := docs + [Document(ObjectIdKey(newId), StoredUser(data, hash))];
      AuthenticateUser(after, data["username"].s, data["password"].s, verify) ==
        Ok(Document(ObjectIdKey(newId), StoredUser(data, hash)))
  {
    var d := Document(ObjectIdKey(newId), StoredUser(data, hash));
    var after := docs + [d];
    var name := data["username"];
    assert name == JStr(name.s);
    assert FieldIs(after[|docs|], "username", name);
    var i := FirstWithField(after, "username", name);
    forall j | 0 <= j < |docs| ensures !FieldIs(after[j], "username", name) {
      assert after[j] == docs[j];
    }
    assert i == |docs|;
  }
}
