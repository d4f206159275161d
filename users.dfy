/**
 * User administration: role changes with the guard against an administrator
 * demoting themself, user creation and update with unique emails, deletion
 * with the guard against self-deletion, and the customer statistics of the
 * administration pages.
 */
module Users {
  import opened Common
  import opened Store

  /* ---------------------------------------------------------------------- */
  /* Enumerations as text                                                   */
  /* ---------------------------------------------------------------------- */

  function RoleName(r: Role): string
  {
    match r
    case USER => "USER"
    case ADMIN => "ADMIN"
  }

  /** `['USER', 'ADMIN'].includes(s)`, giving the role it names. */
  function ParseRole(s: string): (r: Option<Role>)
    ensures r.Some? ==> RoleName(r.value) == s
    ensures r.None? ==> forall x: Role :: RoleName(x) != s
  {
    if s == "USER" then Some(Role.USER) else if s == "ADMIN" then Some(Role.ADMIN) else None
  }

  function CustomerTypeName(t: CustomerType): string
  {
    match t
    case INDIVIDUAL => "INDIVIDUAL"
    case BUSINESS => "BUSINESS"
  }

  function ParseCustomerType(s: string): (r: Option<CustomerType>)
    ensures r.Some? ==> CustomerTypeName(r.value) == s
    ensures r.None? ==> forall x: CustomerType :: CustomerTypeName(x) != s
  {
    if s == "INDIVIDUAL" then Some(CustomerType.INDIVIDUAL)
    else if s == "BUSINESS" then Some(CustomerType.BUSINESS)
    else None
  }

  /* ---------------------------------------------------------------------- */
  /* Emails                                                                 */
  /* ---------------------------------------------------------------------- */

  /** The users table's unique email column. */
  ghost predicate UniqueEmails(users: map<Id, User>)
  {
    forall i, j :: (i in users && j in users && users[i].email == users[j].email) ==> i == j
  }

  predicate EmailTaken(users: map<Id, User>, email: string)
  {
    exists id :: id in users && users[id].email == email
  }

  lemma NotTaken(users: map<Id, User>, email: string, id: Id)
    requires id in users && !EmailTaken(users, email)
    ensures users[id].email != email
  {
  }

  /** Adding a user under a free email keeps emails unique. */
  lemma FreshEmailKeepsUnique(users: map<Id, User>, id: Id, u: User)
    requires UniqueEmails(users) && id !in users && !EmailTaken(users, u.email)
    ensures UniqueEmails(users[id := u])
  {
    var r := users[id := u];
    forall i, j | i in r && j in r && r[i].email == r[j].email
      ensures i == j
    {
      if i != id { NotTaken(users, u.email, i); }
      if j != id { NotTaken(users, u.email, j); }
    }
  }

  /** Changing a user's email to one no other user has keeps emails unique. */
  lemma ChangedEmailKeepsUnique(users: map<Id, User>, id: Id, email: string)
    requires UniqueEmails(users) && id in users
    requires email == users[id].email || !EmailTaken(users, email)
    ensures UniqueEmails(users[id := users[id].(email := email)])
  {
    var r := users[id := users[id].(email := email)];
    forall i, j | i in r && j in r && r[i].email == r[j].email
      ensures i == j
    {
      if email != users[id].email {
        if i != id { NotTaken(users, email, i); }
        if j != id { NotTaken(users, email, j); }
      }
    }
  }

  /* ---------------------------------------------------------------------- */
  /* Role changes and deletion                                              */
  /* ---------------------------------------------------------------------- */

  /** updateUserRole: role check, then the self-demotion guard before the lookup, then the lookup. */
  method UpdateUserRole(db: Db, requesterId: Id, id: Id, role: string) returns (r: Response<Role>)
    modifies db`users
    ensures ParseRole(role).None? ==> r == Fail(400, "INVALID_ROLE") && db.users == old(db.users)
    ensures ParseRole(role).Some? && requesterId == id && role != "ADMIN" ==>
      r == Fail(400, "CANNOT_DEMOTE_SELF") && db.users == old(db.users)
    ensures ParseRole(role).Some? && !(requesterId == id && role != "ADMIN") && id !in old(db.users) ==>
      r == Fail(404, "USER_NOT_FOUND") && db.users == old(db.users)
    ensures ParseRole(role).Some? && !(requesterId == id && role != "ADMIN") && id in old(db.users) ==>
      var newRole := ParseRole(role).value;
      r == Ok(newRole) && db.users == old(db.users)[id := old(db.users)[id].(role := newRole)]
  {
    var parsed := ParseRole(role);
    if parsed.None? {
      return Fail(400, "INVALID_ROLE");
    }
    if requesterId == id && role != "ADMIN" {
      return Fail(400, "CANNOT_DEMOTE_SELF");
    }
    if id !in db.users {
      return Fail(404, "USER_NOT_FOUND");
    }
    db.users := db.users[id := db.users[id].(role := parsed.value)];
    r := Ok(parsed.value);
  }

  /** The role change a requester may make leaves the requester an administrator if they were one. */
  lemma RequesterStaysAdmin(users: map<Id, User>, requesterId: Id, id: Id, role: string)
    requires requesterId in users && users[requesterId].role == Role.ADMIN && id in users
    requires ParseRole(role).Some? && !(requesterId == id && role != "ADMIN")
    ensures var after := users[id := users[id].(role := ParseRole(role).value)];
      requesterId in after && after[requesterId].role == Role.ADMIN
  {
  }

  /** deleteUser: self-deletion is refused before the lookup; the user and their profile go. */
  method DeleteUser(db: Db, requesterId: Id, id: Id) returns (r: Response<string>)
    modifies db`users, db`profiles
    ensures requesterId == id ==>
      r == Fail(400, "CANNOT_DELETE_SELF") && db.users == old(db.users) && db.profiles == old(db.profiles)
    ensures requesterId != id && id !in old(db.users) ==>
      r == Fail(404, "USER_NOT_FOUND") && db.users == old(db.users) && db.profiles == old(db.profiles)
    ensures requesterId != id && id in old(db.users) ==>
      && r == Ok(old(db.users)[id].email)
      && db.users == old(db.users) - {id} && db.profiles == old(db.profiles) - {id}
    ensures requesterId in old(db.users) ==> requesterId in db.users
  {
    if requesterId == id {
      return Fail(400, "CANNOT_DELETE_SELF");
    }
    if id !in db.users {
      return Fail(404, "USER_NOT_FOUND");
    }
    var email := db.users[id].email;
    db.users := db.users - {id};
    db.profiles := db.profiles - {id};
    r := Ok(email);
  }

  /* ---------------------------------------------------------------------- */
  /* Creation and update                                                    */
  /* ---------------------------------------------------------------------- */

  /** The body of createUser; "" is an absent text field, None an absent role or customer type. */
  datatype NewUserInput = NewUserInput(
    email: string, password: string, role: Option<string>, firstName: string, lastName: string,
    phone: string, customerType: Option<string>)

  /** The uppercased role, USER by default. */
  function RequestedRole(input: NewUserInput): string
  {
    Upper(if input.role.Some? then input.role.value else "USER")
  }

  /** The uppercased customer type, INDIVIDUAL by default. */
  function RequestedCustomerType(input: NewUserInput): string
  {
    Upper(if input.customerType.Some? then input.customerType.value else "INDIVIDUAL")
  }

  /** With the defaults, a new user is a USER and an INDIVIDUAL. */
  lemma CreateUserDefaults(input: NewUserInput)
    requires input.role.None? && input.customerType.None?
    ensures ParseRole(RequestedRole(input)) == Some(Role.USER)
    ensures ParseCustomerType(RequestedCustomerType(input)) == Some(CustomerType.INDIVIDUAL)
  {
    assert Upper("USER") == "USER";
    assert Upper("INDIVIDUAL") == "INDIVIDUAL";
  }

  /** Role and customer type are accepted in any letter case. */
  lemma LowerCaseRoleAccepted(input: NewUserInput)
    requires input.role == Some("admin") && input.customerType == Some("business")
    ensures ParseRole(RequestedRole(input)) == Some(Role.ADMIN)
    ensures ParseCustomerType(RequestedCustomerType(input)) == Some(CustomerType.BUSINESS)
  {
    assert Upper("admin") == "ADMIN";
    assert Upper("business") == "BUSINESS";
  }

  /**
   * createUser; `passwordHash` is the hash of the password and `profileId`
   * the id of the profile created with the user. A role or customer type
   * outside the enumeration makes the create throw (500) and writes nothing.
   */
  method CreateUser(db: Db, input: NewUserInput, newId: Id, profileId: Id, passwordHash: string)
    returns (r: Response<Id>)
    requires newId !in db.users && newId !in db.profiles
    modifies db`users, db`profiles
    ensures input.email == "" || input.password == "" ==>
      r == Fail(400, "MISSING_FIELDS") && db.users == old(db.users) && db.profiles == old(db.profiles)
    ensures input.email != "" && input.password != "" && EmailTaken(old(db.users), input.email) ==>
      r == Fail(400, "USER_EXISTS") && db.users == old(db.users) && db.profiles == old(db.profiles)
    ensures input.email != "" && input.password != "" && !EmailTaken(old(db.users), input.email)
            && (ParseRole(RequestedRole(input)).None? || ParseCustomerType(RequestedCustomerType(input)).None?) ==>
      r == Fail(500, "USER_CREATE_ERROR") && db.users == old(db.users) && db.profiles == old(db.profiles)
    ensures r.Ok? ==>
      && r.value == newId
      && ParseRole(RequestedRole(input)).Some? && ParseCustomerType(RequestedCustomerType(input)).Some?
      && db.users == old(db.users)[newId := User(input.email, passwordHash, ParseRole(RequestedRole(input)).value)]
      && db.profiles == old(db.profiles)[newId := Profile(profileId, input.firstName, input.lastName, Some(input.phone),
                                                         ParseCustomerType(RequestedCustomerType(input)).value, None, "ES")]
    ensures (input.email != "" && input.password != "" && !EmailTaken(old(db.users), input.email)
             && ParseRole(RequestedRole(input)).Some? && ParseCustomerType(RequestedCustomerType(input)).Some?) ==> r.Ok?
    ensures UniqueEmails(old(db.users)) ==> UniqueEmails(db.users)
  {
    if input.email == "" || input.password == "" {
      return Fail(400, "MISSING_FIELDS");
    }
    if exists id :: id in db.users && db.users[id].email == input.email {
      return Fail(400, "USER_EXISTS");
    }
    var role := ParseRole(RequestedRole(input));
    var customerType := ParseCustomerType(RequestedCustomerType(input));
    if role.None? || customerType.None? {
      return Fail(500, "USER_CREATE_ERROR");
    }
    var u := User(input.email, passwordHash, role.value);
    if UniqueEmails(db.users) {
      FreshEmailKeepsUnique(db.users, newId, u);
    }
    db.users := db.users[newId := u];
    db.profiles := db.profiles[newId := Profile(profileId, input.firstName, input.lastName, Some(input.phone),
                                                customerType.value, None, "ES")];
    r := Ok(newId);
  }

  /** The body of updateUser; None is an absent field, and "" an absent email or customer type. */
  datatype UserPatch = UserPatch(
    email: string, firstName: Option<string>, lastName: Option<string>, phone: Option<string>,
    customerType: string, taxId: Option<string>)

  /** The profile after updateUser, given the parsed customer type if one was supplied. */
  function PatchedBy(p: Profile, patch: UserPatch, customerType: Option<CustomerType>): Profile
  {
    p.(firstName := if patch.firstName.Some? then patch.firstName.value else p.firstName,
       lastName := if patch.lastName.Some? then patch.lastName.value else p.lastName,
       phone := if patch.phone.Some? then patch.phone else p.phone,
       customerType := if customerType.Some? then customerType.value else p.customerType,
       taxId := if patch.taxId.Some? then patch.taxId else p.taxId)
  }

  /** The email check of updateUser: only a change to another user's email is refused. */
  predicate EmailConflict(users: map<Id, User>, id: Id, email: string)
    requires id in users
  {
    email != "" && email != users[id].email && EmailTaken(users, email)
  }

  /**
   * updateUser. The nested profile update of a user without a profile, and a
   * customer type outside the enumeration, make the update throw (500).
   */
  method UpdateUser(db: Db, id: Id, patch: UserPatch) returns (r: Response<User>)
    modifies db`users, db`profiles
    ensures id !in old(db.users) ==>
      r == Fail(404, "USER_NOT_FOUND") && db.users == old(db.users) && db.profiles == old(db.profiles)
    ensures id in old(db.users) && EmailConflict(old(db.users), id, patch.email) ==>
      r == Fail(400, "EMAIL_EXISTS") && db.users == old(db.users) && db.profiles == old(db.profiles)
    ensures id in old(db.users) && !EmailConflict(old(db.users), id, patch.email)
            && (id !in old(db.profiles) || (patch.customerType != "" && ParseCustomerType(Upper(patch.customerType)).None?)) ==>
      r == Fail(500, "USER_UPDATE_ERROR") && db.users == old(db.users) && db.profiles == old(db.profiles)
    ensures id in old(db.users) && !EmailConflict(old(db.users), id, patch.email) && id in old(db.profiles)
            && !(patch.customerType != "" && ParseCustomerType(Upper(patch.customerType)).None?) ==>
      var u := old(db.users)[id].(email := if patch.email != "" then patch.email else old(db.users)[id].email);
      var ct := if patch.customerType != "" then ParseCustomerType(Upper(patch.customerType)) else None;
      && r == Ok(u)
      && db.users == old(db.users)[id := u]
      && db.profiles == old(db.profiles)[id := PatchedBy(old(db.profiles)[id], patch, ct)]
    ensures UniqueEmails(old(db.users)) ==> UniqueEmails(db.users)
  {
    if id !in db.users {
      return Fail(404, "USER_NOT_FOUND");
    }
    var user := db.users[id];
    if patch.email != "" && patch.email != user.email {
      if exists other :: other in db.users && db.users[other].email == patch.email {
        return Fail(400, "EMAIL_EXISTS");
      }
    }
    if id !in db.profiles {
      return Fail(500, "USER_UPDATE_ERROR");
    }
    var ct: Option<CustomerType> := None;
    if patch.customerType != "" {
      ct := ParseCustomerType(Upper(patch.customerType));
      if ct.None? {
        return Fail(500, "USER_UPDATE_ERROR");
      }
    }
    var email := if patch.email != "" then patch.email else user.email;
    if UniqueEmails(db.users) {
      ChangedEmailKeepsUnique(db.users, id, email);
    }
    var u := user.(email := email);
    db.users := db.users[id := u];
    db.profiles := db.profiles[id := PatchedBy(db.profiles[id], patch, ct)];
    r := Ok(u);
  }

  /* ---------------------------------------------------------------------- */
  /* Customer statistics                                                    */
  /* ---------------------------------------------------------------------- */

  predicate IsPaid(o: Order) { o.paymentStatus == PaymentStatus.PAID }

  function OrderTotal(o: Order): int { o.total }

  /** What an order adds to the customer's spend: its total when paid, else nothing. */
  function PaidTotal(o: Order): int { if IsPaid(o) then o.total else 0 }

  /** `totalSpent`: the sum over the customer's orders of the paid ones' totals. */
  function TotalSpent(orders: seq<Order>): int
  {
    SumBy(orders, PaidTotal)
  }

  /** The spend is the sum of the totals of exactly the PAID orders. */
  lemma {:induction false} TotalSpentIsPaidSum(orders: seq<Order>)
    ensures TotalSpent(orders) == SumBy(Filter(orders, IsPaid), OrderTotal)
  {
    if orders != [] {
      TotalSpentIsPaidSum(orders[1..]);
      var head: seq<Order> := if IsPaid(orders[0]) then [orders[0]] else [];
      assert Filter(orders, IsPaid) == head + Filter(orders[1..], IsPaid);
      SumByAppend(head, Filter(orders[1..], IsPaid), OrderTotal);
    }
  }

  /** A dropped element makes a filtered sequence strictly shorter. */
  lemma {:induction false} FilterShorter<T(!new)>(s: seq<T>, keep: T -> bool, k: int)
    requires 0 <= k < |s| && !keep(s[k])
    ensures |Filter(s, keep)| < |s|
  {
    assert s == [s[0]] + s[1..];
    if k > 0 {
      FilterShorter(s[1..], keep, k - 1);
    }
  }

  /** `sum / count`, or 0 without a count. */
  datatype Average = Average(sum: int, count: nat)

  /** getAllCustomers divides the spend by all orders. */
  function ListAverage(orders: seq<Order>): Average
  {
    Average(TotalSpent(orders), |orders|)
  }

  /** getCustomerDetails divides the spend by the paid orders. */
  function DetailsAverage(orders: seq<Order>): Average
  {
    Average(TotalSpent(orders), |Filter(orders, IsPaid)|)
  }

  /**
   * The two pages disagree on a customer with an unpaid order and a positive
   * spend: the list page shows the smaller average.
   */
  lemma AveragesDisagreeWithUnpaidOrders(orders: seq<Order>, k: int)
    requires 0 <= k < |orders| && !IsPaid(orders[k]) && TotalSpent(orders) > 0
    ensures 0 < DetailsAverage(orders).count < ListAverage(orders).count
    ensures ListAverage(orders).sum * DetailsAverage(orders).count < DetailsAverage(orders).sum * ListAverage(orders).count
  {
    FilterShorter(orders, IsPaid, k);
    TotalSpentIsPaidSum(orders);
    var d := |Filter(orders, IsPaid)|;
    var s := TotalSpent(orders);
    assert s * d < s * |orders| by {
      MulStrict(s, d, |orders|);
    }
  }

  lemma MulStrict(s: int, a: int, b: int)
    requires s > 0 && a < b
    ensures s * a < s * b
  {
  }

  /** When every order is paid the two averages are the same fraction. */
  lemma AveragesAgreeWhenAllPaid(orders: seq<Order>)
    requires forall k :: 0 <= k < |orders| ==> IsPaid(orders[k])
    ensures DetailsAverage(orders) == ListAverage(orders)
  {
    FilterKeepsAll(orders, IsPaid);
  }

  lemma {:induction false} FilterKeepsAll<T(!new)>(s: seq<T>, keep: T -> bool)
    requires forall k :: 0 <= k < |s| ==> keep(s[k])
    ensures Filter(s, keep) == s
  {
    if s != [] {
      FilterKeepsAll(s[1..], keep);
      assert s == [s[0]] + s[1..];
    }
  }

  /** `accountStatus`. */
  function AccountStatus(role: Role): (s: string)
    ensures s == "ADMIN" <==> role == Role.ADMIN
    ensures s == "ACTIVE" <==> role == Role.USER
  {
    match role
    case ADMIN => "ADMIN"
    case USER => assert "ACTIVE"[1] != "ADMIN"[1]; "ACTIVE"
  }

  /** One row of getCustomerStats: a user with the totals of their PAID orders. */
  datatype Spender = Spender(userId: Id, email: string, totalSpent: int, orderCount: nat)

  function SpenderOf(userId: Id, email: string, paidOrders: seq<Order>): Spender
  {
    Spender(userId, email, SumBy(paidOrders, OrderTotal), |paidOrders|)
  }

  predicate Spent(c: Spender) { c.totalSpent > 0 }

  function BySpendDesc(): (Spender, Spender) -> bool
  {
    (a: Spender, b: Spender) => a.totalSpent >= b.totalSpent
  }

  lemma BySpendDescIsTotalPreorder()
    ensures TotalPreorder(BySpendDesc())
  {
  }

  /** The customers who spent something, by spend descending. */
  function Ranked(spenders: seq<Spender>): (r: seq<Spender>)
    ensures multiset(r) == multiset(Filter(spenders, Spent))
    ensures forall i, j :: 0 <= i < j < |r| ==> r[i].totalSpent >= r[j].totalSpent
  {
    BySpendDescIsTotalPreorder();
    var sorted := SortBy(Filter(spenders, Spent), BySpendDesc());
    assert forall i, j :: 0 <= i < j < |sorted| ==> BySpendDesc()(sorted[i], sorted[j]);
    sorted
  }

  /** `.filter(c => c.totalSpent > 0).sort((a, b) => b.totalSpent - a.totalSpent).slice(0, 5)`. */
  function TopCustomers(spenders: seq<Spender>): (top: seq<Spender>)
    ensures |top| <= 5
    ensures forall i, j :: 0 <= i < j < |top| ==> top[i].totalSpent >= top[j].totalSpent
  {
    var r := Ranked(spenders);
    if |r| <= 5 then r else r[..5]
  }

  /** Every listed customer is one of the input's and spent something. */
  lemma TopCustomersSpent(spenders: seq<Spender>)
    ensures forall t :: t in TopCustomers(spenders) ==> t in spenders && t.totalSpent > 0
  {
    var r := Ranked(spenders);
    forall t | t in TopCustomers(spenders)
      ensures t in spenders && t.totalSpent > 0
    {
      assert t in r;
      assert t in multiset(Filter(spenders, Spent));
    }
  }

  /** The list holds all customers who spent something, up to five. */
  lemma TopCustomersCount(spenders: seq<Spender>)
    ensures var n := |Filter(spenders, Spent)|;
      |TopCustomers(spenders)| == if n <= 5 then n else 5
  {
    var r := Ranked(spenders);
    assert |multiset(r)| == |multiset(Filter(spenders, Spent))|;
  }

  /** No customer left off the list spent more than a listed one. */
  lemma TopCustomersNoneHigherLeftOut(spenders: seq<Spender>, c: Spender, t: Spender)
    requires c in spenders && c.totalSpent > 0
    requires c !in TopCustomers(spenders) && t in TopCustomers(spenders)
    ensures t.totalSpent >= c.totalSpent
  {
    var r := Ranked(spenders);
    var top := TopCustomers(spenders);
    assert c in multiset(Filter(spenders, Spent));
    assert c in multiset(r);
    var k :| 0 <= k < |r| && r[k] == c;
    var i :| 0 <= i < |top| && top[i] == t;
    // The list is r itself or its first five, so c sits past the cut.
    assert |r| > 5 && top == r[..5];
    assert forall m :: 0 <= m < 5 ==> r[m] == top[m] && r[m] in top;
    assert top[i] == r[i];
  }

  /** `repeatCustomers` (more than one paid order) and `customersWithOrders` (at least one). */
  predicate Repeat(c: Spender) { c.orderCount > 1 }
  predicate HasOrders(c: Spender) { c.orderCount > 0 }

  /** A stricter filter keeps no more elements. */
  lemma {:induction false} FilterCountMonotone<T(!new)>(s: seq<T>, p: T -> bool, q: T -> bool)
    requires forall x :: p(x) ==> q(x)
    ensures |Filter(s, p)| <= |Filter(s, q)|
  {
    if s != [] {
      FilterCountMonotone(s[1..], p, q);
    }
  }

  /** The retention rate as the fraction repeat / with, or 0 when no customer has orders. */
  datatype Retention = Retention(repeatCustomers: nat, customersWithOrders: nat)

  function RetentionOf(spenders: seq<Spender>): Retention
  {
    Retention(|Filter(spenders, Repeat)|, |Filter(spenders, HasOrders)|)
  }

  /** Repeat customers are among the customers with orders, so the rate is at most 100%. */
  lemma RetentionAtMostAll(spenders: seq<Spender>)
    ensures RetentionOf(spenders).repeatCustomers <= RetentionOf(spenders).customersWithOrders
    ensures RetentionOf(spenders).customersWithOrders <= |spenders|
  {
    FilterCountMonotone(spenders, Repeat, HasOrders);
  }

  /** getUserStats: `regularUsersCount = totalUsers - adminCount`. */
  function RegularUsersCount(users: map<Id, User>): int
  {
    |users| - |set id | id in users && users[id].role == Role.ADMIN|
  }

  /** The regular-user count is exactly the number of users who are not administrators. */
  lemma RegularUsersAreNonAdmins(users: map<Id, User>)
    ensures RegularUsersCount(users) == |set id | id in users && users[id].role == Role.USER|
  {
    var admins := set id | id in users && users[id].role == Role.ADMIN;
    var regular := set id | id in users && users[id].role == Role.USER;
    assert admins + regular == users.Keys;
    assert admins * regular == {};
    assert |admins + regular| == |admins| + |regular|;
  }
}
