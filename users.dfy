/** The stub user store: one map from user name to password per user type,
    "sr" (service requesters) and "sp" (service providers). */
module Users {
  import opened Common

  /** The envelope of the user handlers' replies. */
  datatype StatusReply = StatusReply(status: int, message: string)

  type UserDB = map<Field, Field>

  /** The stores as seeded at start-up. */
  const SeedSR: UserDB := map[Some("testUserSR") := Some("testPassword")]
  const SeedSP: UserDB := map[Some("testUserSP") := Some("testPassword")]

  /** The login check against one store: the user must exist and the password
      must match; otherwise the reply says which of the two failed. */
  function Login(db: UserDB, username: Field, password: Field): (r: StatusReply)
    ensures r.status == 0 <==> username in db && db[username] == password
    ensures r.status == 0 || r.status == 1
    ensures r.status == 0 <==> r.message == "Login Success"
    ensures r.message == "User Not Exist" <==> username !in db
    ensures r.status == 1 && username in db ==> r.message == "Login Invalid"
  {
    if username !in db then StatusReply(1, "User Not Exist")
    else if db[username] == password then StatusReply(0, "Login Success")
    else StatusReply(1, "Login Invalid")
  }

  /** A user just stored with a password logs in with that password. */
  lemma LoginAfterCreate(db: UserDB, username: Field, password: Field)
    ensures Login(db[username := password], username, password) == StatusReply(0, "Login Success")
  {
  }
}
