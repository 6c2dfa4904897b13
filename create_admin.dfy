/** `create_initial_admin` (app/Scripts/create_admin.py): make sure an
    administrator account exists. The bcrypt hash of the initial password and
    the generated id are parameters. */
module CreateAdmin {
  import opened Common
  import opened Stores
  import opened Roles

  /** The bootstrap record; its `_id` is the generated ObjectId as a *string*. */
  function AdminRecord(passwordHash: string): (u: JsonObject)
    ensures u.Keys == {"username", "email", "hashed_password", "role"}
    ensures u["username"] == JStr("admin") && u["email"] == JStr("admin@example.com")
    ensures u["role"] == AdminRole && u["hashed_password"] == JStr(passwordHash)
    ensures "password" !in u
  {
    map["username" := JStr("admin"), "email" := JStr("admin@example.com"),
        "hashed_password" := JStr(passwordHash), "role" := AdminRole]
  }

  predicate HasAdmin(docs: seq<Document>) {
    FirstWithField(docs, "role", AdminRole) >= 0
  }

  /** The user store after the script: unchanged when an admin exists (or
      the generated `_id` is taken, which makes the insert raise), else with
      the bootstrap record appended. */
  function Bootstrapped(docs: seq<Document>, passwordHash: string, newId: string): seq<Document> {
    if HasAdmin(docs) || KeyUsed(docs, StringKey(newId)) then docs
    else docs + [Document(StringKey(newId), AdminRecord(passwordHash))]
  }

  /** The script: look for any admin, insert the bootstrap record when there is none. */
  method CreateInitialAdmin(users: Collection, passwordHash: string, newId: string) returns (created: bool)
    modifies users
    ensures users.docs == Bootstrapped(old(users.docs), passwordHash, newId)
    ensures created <==> |users.docs| == |old(users.docs)| + 1
  {
    var existing := FirstWithField(users.docs, "role", AdminRole);
    if existing >= 0 {
      return false;
    }
    created := users.Insert(Document(StringKey(newId), AdminRecord(passwordHash)));
  }

  /** At most one user is added, and an admin exists afterwards unless the
      generated `_id` was already taken. */
  lemma BootstrapAddsAtMostOne(docs: seq<Document>, passwordHash: string, newId: string)
    ensures var after := Bootstrapped(docs, passwordHash, newId);
      docs <= after && |after| <= |docs| + 1 &&
      (HasAdmin(docs) ==> after == docs) &&
      (!KeyUsed(docs, StringKey(newId)) ==> HasAdmin(after))
  {
    var after := Bootstrapped(docs, passwordHash, newId);
    if !HasAdmin(docs) && !KeyUsed(docs, StringKey(newId)) {
      assert FieldIs(after[|docs|], "role", AdminRole);
    }
  }

  /** Running the script a second time changes nothing. */
  lemma BootstrapIdempotent(docs: seq<Document>, passwordHash: string, id1: string, id2: string)
    ensures var once := Bootstrapped(docs, passwordHash, id1);
      !KeyUsed(docs, StringKey(id1)) ==> Bootstrapped(once, passwordHash, id2) == once
  {
    BootstrapAddsAtMostOne(docs, passwordHash, id1);
  }

  /** The guard looks for a role, not a username: a store whose only user is a
      candidate called "admin" ends up with two users named "admin". */
  lemma BootstrapCanDuplicateUsername(passwordHash: string)
    ensures var docs := [Document(StringKey("c"), map["username" := JStr("admin"), "role" := JStr("candidate")])];
      var after := Bootstrapped(docs, passwordHash, "a");
      |after| == 2 && FieldIs(after[0], "username", JStr("admin")) && FieldIs(after[1], "username", JStr("admin"))
  {
    var docs := [Document(StringKey("c"), map["username" := JStr("admin"), "role" := JStr("candidate")])];
    assert !FieldIs(docs[0], "role", AdminRole);
    assert !KeyUsed(docs, StringKey("a")) by {
      assert "c" != "a";
    }
  }
}
