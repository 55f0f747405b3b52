/**
 * `POST /api/auth/change-password`: the signed-in user replaces their
 * password after proving the current one.  Hashing and comparison are
 * functions the route is given.
 */
module ChangePassword {
  import opened Wrappers
  import opened Domain
  import Tables

  /** The request body; `None` is an absent field. */
  datatype PasswordChange = PasswordChange(currentPassword: Option<string>, newPassword: Option<string>)

  datatype ChangeError = Unauthorized | MissingPasswords | UserNotFound | IncorrectPassword

  /** Changing one account's password hash changes no email, so unique emails stay unique. */
  lemma PasswordUpdateKeepsEmails(users: map<UserId, User>, id: UserId, hashed: string)
    requires id in users && UniqueEmails(users)
    ensures UniqueEmails(users[id := users[id].(password := hashed)])
  {
    var after := users[id := users[id].(password := hashed)];
    forall a, b | a in after && b in after && after[a].email == after[b].email ensures a == b {
      assert after[a].email == users[a].email && after[b].email == users[b].email;
    }
  }

  /**
   * The guards in order: no session, a missing password, no account for the
   * caller, a current password that does not match the stored hash.  Past
   * them, only the caller's row changes, and only its password, which
   * becomes the hash of the new one.
   */
  method ChangeUserPassword(db: Tables.Database, session: Option<Principal>, req: PasswordChange,
                            compare: (string, string) -> bool, hash: string -> string)
    returns (r: Result<(), ChangeError>)
    requires db.Valid()
    modifies db`users
    ensures db.Valid()
    ensures UniqueEmails(old(db.users)) ==> UniqueEmails(db.users)
    ensures r.Failure? ==> db.users == old(db.users)
    ensures session.None? ==> r == Failure(Unauthorized)
    ensures session.Some? && !(Given(req.currentPassword) && Given(req.newPassword)) ==> r == Failure(MissingPasswords)
    ensures session.Some? && Given(req.currentPassword) && Given(req.newPassword) ==>
      var uid := session.value.id;
      if uid !in old(db.users) then r == Failure(UserNotFound)
      else if !compare(req.currentPassword.value, old(db.users)[uid].password) then r == Failure(IncorrectPassword)
      else
        && r == Success(())
        && db.users == old(db.users)[uid := old(db.users)[uid].(password := hash(req.newPassword.value))]
  {
    if session.None? {
      return Failure(Unauthorized);
    }
    if !Given(req.currentPassword) || !Given(req.newPassword) {
      return Failure(MissingPasswords);
    }
    var uid := session.value.id;
    if uid !in db.users {
      return Failure(UserNotFound);
    }
    var user := db.users[uid];
    if !compare(req.currentPassword.value, user.password) {
      return Failure(IncorrectPassword);
    }
    var hashed := hash(req.newPassword.value);
    if UniqueEmails(db.users) {
      PasswordUpdateKeepsEmails(db.users, user.id, hashed);
    }
    db.users := db.users[user.id := user.(password := hashed)];
    r := Success(());
  }
}
