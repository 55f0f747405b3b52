/**
 * `POST /api/auth/register`: a new customer account, refused when a field
 * is missing or the email is already registered.  Password hashing is a
 * function the route is given; bcrypt's salt is not modelled.
 */
module Register {
  import opened Wrappers
  import opened Domain
  import Tables

  /** The request body; `None` is an absent field. */
  datatype RegisterRequest = RegisterRequest(name: Option<string>, email: Option<string>, password: Option<string>)

  datatype RegisterError = MissingFields | AlreadyExists

  predicate Complete(req: RegisterRequest) {
    Given(req.name) && Given(req.email) && Given(req.password)
  }

  /** `SELECT * FROM users WHERE email = ?` finds a row. */
  predicate EmailTaken(users: map<UserId, User>, email: string) {
    exists id :: id in users && users[id].email == email
  }

  /** Adding an account whose email no other account has keeps emails unique. */
  lemma InsertKeepsEmailsUnique(users: map<UserId, User>, id: UserId, u: User)
    requires UniqueEmails(users) && id !in users && !EmailTaken(users, u.email)
    ensures UniqueEmails(users[id := u])
  {
  }

  /**
   * Registration.  Missing fields come first, then the duplicate check;
   * otherwise exactly one 'user' row is inserted under a fresh id, holding
   * the hash of the password, and the id is returned.
   */
  method RegisterUser(db: Tables.Database, req: RegisterRequest, hash: string -> string)
    returns (r: Result<UserId, RegisterError>)
    requires db.Valid()
    modifies db`users, db`nextUserId
    ensures db.Valid()
    ensures UniqueEmails(old(db.users)) ==> UniqueEmails(db.users)
    ensures r.Failure? ==> db.users == old(db.users) && db.nextUserId == old(db.nextUserId)
    ensures !Complete(req) ==> r == Failure(MissingFields)
    ensures Complete(req) && EmailTaken(old(db.users), req.email.value) ==> r == Failure(AlreadyExists)
    ensures Complete(req) && !EmailTaken(old(db.users), req.email.value) ==>
      var id := old(db.nextUserId);
      && r == Success(id)
      && db.nextUserId == id + 1
      && id !in old(db.users)
      && db.users == old(db.users)[id := User(id, req.name.value, req.email.value, hash(req.password.value), Customer)]
  {
    if !Given(req.email) || !Given(req.password) || !Given(req.name) {
      return Failure(MissingFields);
    }
    var email := req.email.value;
    if exists id :: id in db.users && db.users[id].email == email {
      return Failure(AlreadyExists);
    }
    var hashed := hash(req.password.value);
    var id := db.nextUserId;
    var u := User(id, req.name.value, email, hashed, Customer);
    if UniqueEmails(db.users) {
      InsertKeepsEmailsUnique(db.users, id, u);
    }
    db.users := db.users[id := u];
    db.nextUserId := db.nextUserId + 1;
    r := Success(id);
  }
}
