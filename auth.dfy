/**
 * Sign-up and log-in over the user collection. The collection keeps the
 * schema's invariants: required username, email and password, a unique
 * email, and a phone that is unique among the users that have one. Hashing,
 * hash comparison, token signing and the lookup query's match are passed in.
 */
module Auth {
  import opened JsText

  /** A stored user; `phone` is absent (`Undefined`), `null` or a string. */
  datatype User = User(id: nat, username: string, email: string, passwordHash: string, phone: JsValue, companyname: JsValue)

  /** The user as a log-in response shows it: every field except the password. */
  datatype PublicUser = PublicUser(id: nat, username: string, email: string, phone: JsValue, companyname: JsValue)

  /** A sparse index skips documents without the field; `null` is indexed. */
  predicate PhoneIndexed(u: User) { !u.phone.Undefined? }

  /** The schema's required fields: a required string must be non-empty. */
  predicate RequiredFilled(u: User) {
    u.username != [] && u.email != [] && u.passwordHash != []
  }

  predicate UsersValid(users: seq<User>) {
    && (forall i :: 0 <= i < |users| ==> RequiredFilled(users[i]))
    && (forall i, j :: 0 <= i < j < |users| ==> users[i].id != users[j].id)
    && (forall i, j :: 0 <= i < j < |users| ==> users[i].email != users[j].email)
    && (forall i, j :: 0 <= i < j < |users| && PhoneIndexed(users[i]) && PhoneIndexed(users[j]) ==>
          users[i].phone != users[j].phone)
  }

  /** `findOne({ $or: [{ email }, { phone }] })`: the first user in collection order the query matches. */
  function FindOne(users: seq<User>, matches: (User, JsValue, JsValue) -> bool, email: JsValue, phone: JsValue): (r: int)
    ensures -1 <= r < |users|
    ensures r == -1 <==> forall i :: 0 <= i < |users| ==> !matches(users[i], email, phone)
    ensures r >= 0 ==> matches(users[r], email, phone) && forall i :: 0 <= i < r ==> !matches(users[i], email, phone)
  {
    if users == [] then -1
    else if matches(users[0], email, phone) then 0
    else
      var r := FindOne(users[1..], matches, email, phone);
      if r == -1 then -1 else r + 1
  }

  /** The unique index a new user would violate, if any: the email index is consulted first. */
  function DuplicateField(users: seq<User>, u: User): (field: string)
    ensures field == "" <==> (forall i :: 0 <= i < |users| ==> users[i].email != u.email)
                              && (PhoneIndexed(u) ==> forall i :: 0 <= i < |users| && PhoneIndexed(users[i]) ==> users[i].phone != u.phone)
    ensures field == "email" <==> exists i :: 0 <= i < |users| && users[i].email == u.email
  {
    if exists i :: 0 <= i < |users| && users[i].email == u.email then "email"
    else if PhoneIndexed(u) && exists i :: 0 <= i < |users| && PhoneIndexed(users[i]) && users[i].phone == u.phone then "phone"
    else ""
  }

  datatype SignupRequest = SignupRequest(username: JsValue, email: JsValue, password: JsValue, phone: JsValue, companyname: JsValue)

  /** A response: the status code and the `message` field. */
  datatype Reply = Reply(status: int, message: string)

  datatype SignupOutcome = SignupOutcome(reply: Reply, users: seq<User>)

  /** The duplicate-key reply names the field of the violated index. */
  function DuplicateMessage(field: string): string {
    "User with this " + field + " already exists"
  }

  /**
   * `signupUser`: required fields, then the existing-user query, then the
   * insert; the insert fails with the duplicate-key code when a unique index
   * is violated, and with a server error when the database fails (`saveOk`).
   */
  function SignupStep(users: seq<User>, req: SignupRequest, matches: (User, JsValue, JsValue) -> bool,
                      hash: string -> string, freshId: nat, saveOk: bool): (o: SignupOutcome)
    ensures !JsTruthy(req.username) || !JsTruthy(req.email) || !JsTruthy(req.password) ==>
      o == SignupOutcome(Reply(400, "Username, email, and password are required"), users)
    ensures JsTruthy(req.username) && JsTruthy(req.email) && JsTruthy(req.password) && FindOne(users, matches, req.email, req.phone) >= 0 ==>
      o == SignupOutcome(Reply(400, "User with this email or phone already exists"), users)
    ensures o.reply.status == 201 <==>
      JsTruthy(req.username) && JsTruthy(req.email) && JsTruthy(req.password) && FindOne(users, matches, req.email, req.phone) == -1
      && saveOk && hash(req.password.s) != []
      && DuplicateField(users, User(freshId, req.username.s, req.email.s, hash(req.password.s), req.phone, req.companyname)) == ""
    ensures o.reply.status == 201 ==>
      o.reply.message == "User registered successfully"
      && o.users == users + [User(freshId, req.username.s, req.email.s, hash(req.password.s), req.phone, req.companyname)]
    ensures o.reply.status != 201 ==> o.users == users
  {
    if !JsTruthy(req.username) || !JsTruthy(req.email) || !JsTruthy(req.password) then
      SignupOutcome(Reply(400, "Username, email, and password are required"), users)
    else if FindOne(users, matches, req.email, req.phone) >= 0 then
      SignupOutcome(Reply(400, "User with this email or phone already exists"), users)
    else
      var u := User(freshId, req.username.s, req.email.s, hash(req.password.s), req.phone, req.companyname);
      if !saveOk || !RequiredFilled(u) then SignupOutcome(Reply(500, "Internal server error"), users)
      else
        var field := DuplicateField(users, u);
        if field != "" then SignupOutcome(Reply(400, DuplicateMessage(field)), users)
        else SignupOutcome(Reply(201, "User registered successfully"), users + [u])
  }

  /** Sign-up keeps the collection's invariants, whatever the lookup query matched. */
  lemma SignupKeepsUsersValid(users: seq<User>, req: SignupRequest, matches: (User, JsValue, JsValue) -> bool,
                              hash: string -> string, freshId: nat, saveOk: bool)
    requires UsersValid(users)
    requires forall i :: 0 <= i < |users| ==> users[i].id != freshId
    ensures UsersValid(SignupStep(users, req, matches, hash, freshId, saveOk).users)
  {
  }

  /** A duplicate email that the lookup query missed is still refused, by the unique index, naming `email`. */
  lemma DuplicateEmailNamed(users: seq<User>, req: SignupRequest, matches: (User, JsValue, JsValue) -> bool,
                            hash: string -> string, freshId: nat, k: nat)
    requires JsTruthy(req.username) && JsTruthy(req.email) && JsTruthy(req.password) && hash(req.password.s) != []
    requires FindOne(users, matches, req.email, req.phone) == -1
    requires k < |users| && users[k].email == req.email.s
    ensures SignupStep(users, req, matches, hash, freshId, true).reply == Reply(400, DuplicateMessage("email"))
  {
    var u := User(freshId, req.username.s, req.email.s, hash(req.password.s), req.phone, req.companyname);
    assert users[k].email == u.email;
    assert DuplicateField(users, u) == "email";
  }

  datatype LoginRequest = LoginRequest(email: JsValue, password: JsValue, phone: JsValue)

  datatype LoginReply = LoginFailed(status: int, message: string) | LoggedIn(token: string, user: PublicUser)

  function Public(u: User): PublicUser {
    PublicUser(u.id, u.username, u.email, u.phone, u.companyname)
  }

  /**
   * `loginUser`: a password and an email or phone are required; then the
   * first matching user; then the hash comparison; then the token.
   */
  function LoginStep(users: seq<User>, req: LoginRequest, matches: (User, JsValue, JsValue) -> bool,
                     compare: (string, string) -> bool, sign: (nat, string) -> string): (r: LoginReply)
    ensures !JsTruthy(req.password) || (!JsTruthy(req.email) && !JsTruthy(req.phone)) ==>
      r == LoginFailed(400, "Email or phone and password are required")
    ensures JsTruthy(req.password) && (JsTruthy(req.email) || JsTruthy(req.phone)) ==>
      var k := FindOne(users, matches, req.email, req.phone);
      (k == -1 ==> r == LoginFailed(401, "User does not exist"))
      && (k >= 0 && !compare(req.password.s, users[k].passwordHash) ==> r == LoginFailed(401, "Invalid credentials"))
      && (k >= 0 && compare(req.password.s, users[k].passwordHash) ==>
            r == LoggedIn(sign(users[k].id, users[k].email), Public(users[k])))
    ensures r.LoggedIn? ==> exists k :: 0 <= k < |users| && matches(users[k], req.email, req.phone)
                              && compare(req.password.s, users[k].passwordHash) && r.user == Public(users[k])
  {
    if !JsTruthy(req.password) || (!JsTruthy(req.email) && !JsTruthy(req.phone)) then
      LoginFailed(400, "Email or phone and password are required")
    else
      var k := FindOne(users, matches, req.email, req.phone);
      if k == -1 then LoginFailed(401, "User does not exist")
      else if !compare(req.password.s, users[k].passwordHash) then LoginFailed(401, "Invalid credentials")
      else LoggedIn(sign(users[k].id, users[k].email), Public(users[k]))
  }

  /**
   * Whoever signs up can log in with the same email and password, provided
   * the comparison accepts a password against its own hash and the lookup
   * finds a user by their own email.
   */
  lemma SignupThenLogin(users: seq<User>, req: SignupRequest, matches: (User, JsValue, JsValue) -> bool,
                        hash: string -> string, compare: (string, string) -> bool, sign: (nat, string) -> string,
                        freshId: nat, saveOk: bool)
    requires forall p :: compare(p, hash(p))
    requires forall u: User, phone: JsValue :: matches(u, Str(u.email), phone)
    requires SignupStep(users, req, matches, hash, freshId, saveOk).reply.status == 201
    ensures var after := SignupStep(users, req, matches, hash, freshId, saveOk).users;
      LoginStep(after, LoginRequest(req.email, req.password, req.phone), matches, compare, sign).LoggedIn?
  {
    var after := SignupStep(users, req, matches, hash, freshId, saveOk).users;
    var u := after[|users|];
    assert matches(u, Str(u.email), req.phone);
    assert req.email == Str(u.email);
    var k := FindOne(after, matches, req.email, req.phone);
    assert k != -1;
    assert after[k] == u;
    assert compare(req.password.s, hash(req.password.s));
  }

  /** The user collection. */
  class UserStore {
    var users: seq<User>

    predicate Valid()
      reads this
    {
      UsersValid(users)
    }

    constructor ()
      ensures users == [] && Valid()
    {
      users := [];
    }

    method Signup(req: SignupRequest, matches: (User, JsValue, JsValue) -> bool, hash: string -> string,
                  freshId: nat, saveOk: bool) returns (reply: Reply)
      modifies this
      ensures reply == SignupStep(old(users), req, matches, hash, freshId, saveOk).reply
      ensures users == SignupStep(old(users), req, matches, hash, freshId, saveOk).users
      ensures old(Valid()) && (forall i :: 0 <= i < |old(users)| ==> old(users)[i].id != freshId) ==> Valid()
    {
      var o := SignupStep(users, req, matches, hash, freshId, saveOk);
      if Valid() && forall i :: 0 <= i < |users| ==> users[i].id != freshId {
        SignupKeepsUsersValid(users, req, matches, hash, freshId, saveOk);
      }
      reply := o.reply;
      users := o.users;
    }
  }
}
