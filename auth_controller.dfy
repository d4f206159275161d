/**
 * Registration, login and the current-user lookup. Password hashing and
 * comparison are the bcrypt library's: the hash of a new password is a
 * parameter and the comparison is the function `matches`.
 */
module Auth {
  import opened Common
  import opened Store
  import opened Jwt
  import opened Users

  /** A registration body after validation (customer type and language carry their defaults). */
  datatype Registration = Registration(
    email: string, password: string, firstName: string, lastName: string, phone: Option<string>,
    customerType: CustomerType, taxId: Option<string>, preferredLanguage: string)

  /** `value || null` for an optional text field. */
  function Nullable(value: Option<string>): (r: Option<string>)
    ensures r.None? <==> value.None? || value.value == ""
    ensures r.Some? ==> r == value
  {
    if value.Some? then OrNull(value.value) else None
  }

  /** The profile created with a registered user. */
  function RegisteredProfile(reg: Registration, profileId: Id): (p: Profile)
    ensures p.phone == Nullable(reg.phone) && p.taxId == Nullable(reg.taxId)
    ensures p.firstName == reg.firstName && p.lastName == reg.lastName
    ensures p.customerType == reg.customerType && p.preferredLanguage == reg.preferredLanguage
  {
    Profile(profileId, reg.firstName, reg.lastName, Nullable(reg.phone), reg.customerType,
            Nullable(reg.taxId), reg.preferredLanguage)
  }

  /**
   * register: a taken email is refused and nothing is created; otherwise a
   * USER and their profile are created and the token's claims returned.
   */
  method Register(db: Db, reg: Registration, newId: Id, profileId: Id, passwordHash: string)
    returns (r: Response<Claims>)
    requires newId !in db.users
    modifies db`users, db`profiles
    ensures EmailTaken(old(db.users), reg.email) ==>
      r == Fail(400, "USER_EXISTS") && db.users == old(db.users) && db.profiles == old(db.profiles)
    ensures !EmailTaken(old(db.users), reg.email) ==>
      && db.users == old(db.users)[newId := User(reg.email, passwordHash, Role.USER)]
      && r == Ok(ClaimsOf(newId, db.users[newId]))
      && db.profiles == old(db.profiles)[newId := RegisteredProfile(reg, profileId)]
    ensures UniqueEmails(old(db.users)) ==> UniqueEmails(db.users)
  {
    if exists id :: id in db.users && db.users[id].email == reg.email {
      return Fail(400, "USER_EXISTS");
    }
    var u := User(reg.email, passwordHash, Role.USER);
    if UniqueEmails(db.users) {
      FreshEmailKeepsUnique(db.users, newId, u);
    }
    db.users := db.users[newId := u];
    db.profiles := db.profiles[newId := RegisteredProfile(reg, profileId)];
    r := Ok(ClaimsOf(newId, u));
  }

  /**
   * login: an unknown email and a wrong password give the same 401; otherwise
   * the claims of the user with that email.
   */
  method Login(db: Db, email: string, password: string, matches: (string, string) -> bool)
    returns (r: Response<Claims>)
    ensures r.Fail? ==> r == Fail(401, "INVALID_CREDENTIALS")
    ensures !EmailTaken(db.users, email) ==> r.Fail?
    ensures r.Ok? ==>
      && r.value.userId in db.users
      && r.value == ClaimsOf(r.value.userId, db.users[r.value.userId])
      && r.value.email == email
      && matches(password, db.users[r.value.userId].passwordHash)
    ensures UniqueEmails(db.users) ==>
      forall id :: id in db.users && db.users[id].email == email ==>
        (r.Ok? <==> matches(password, db.users[id].passwordHash))
  {
    if !(exists id :: id in db.users && db.users[id].email == email) {
      return Fail(401, "INVALID_CREDENTIALS");
    }
    var id :| id in db.users && db.users[id].email == email;
    if !matches(password, db.users[id].passwordHash) {
      return Fail(401, "INVALID_CREDENTIALS");
    }
    r := Ok(ClaimsOf(id, db.users[id]));
  }

  /** getMe: the user and their profile, or None when the user has no profile. */
  method GetMe(db: Db, userId: Id) returns (r: Response<(User, Option<Profile>)>)
    ensures userId !in db.users ==> r == Fail(404, "USER_NOT_FOUND")
    ensures userId in db.users ==> r.Ok? && r.value.0 == db.users[userId]
    ensures r.Ok? ==> (r.value.1.None? <==> userId !in db.profiles)
    ensures r.Ok? && r.value.1.Some? ==> r.value.1.value == db.profiles[userId]
  {
    if userId !in db.users {
      return Fail(404, "USER_NOT_FOUND");
    }
    var profile := if userId in db.profiles then Some(db.profiles[userId]) else None;
    r := Ok((db.users[userId], profile));
  }
}
