/** The routes of routes/api/auth.js: the login decision of POST /api/auth
    and the password-free user record of GET /api/auth. The user
    collection is a sequence of documents searched in order; the bcrypt
    comparison is the parameter `matches` and the configured signing
    secret is the parameter `secret`. A signed token is the value
    `Token(payload, secret, expiresIn)`. */
module AuthRoutes {
  import opened JsBuiltins

  type UserId = string

  /** A stored user: its id and its document fields (`email`, `password`
      holding the bcrypt hash, `name`, `avatar`, ...). */
  datatype UserDoc = UserDoc(id: UserId, fields: map<string, string>)

  /** The `expiresIn` option of every token, in seconds. */
  const ExpiresIn: nat := 360000

  datatype PayloadUser = PayloadUser(id: UserId)

  /** The token payload `{user: {id}}`. */
  datatype Payload = Payload(user: PayloadUser)

  /** `jwt.sign(payload, secret, {expiresIn})`, kept as a value. */
  datatype Token = Token(payload: Payload, secret: string, expiresIn: nat)

  /** What POST /api/auth answers. */
  datatype LoginOutcome =
    | UserNotExist      // 400 {errors: [{msg: "user not exist"}]}
    | PasswordWrong     // 403 {errors: [{msg: "password wrong"}]}
    | Issued(token: Token)
    | LoginFailed       // 500 "server error": bcrypt refused a missing password or hash

  function StatusCode(o: LoginOutcome): (code: int)
    ensures code == 200 <==> o.Issued?
    ensures code == 400 <==> o.UserNotExist?
    ensures code == 403 <==> o.PasswordWrong?
    ensures code == 500 <==> o.LoginFailed?
  {
    match o
    case UserNotExist => 400
    case PasswordWrong => 403
    case Issued(_) => 200
    case LoginFailed => 500
  }

  predicate HasEmail(u: UserDoc, email: string) {
    "email" in u.fields && u.fields["email"] == email
  }

  /** `User.findOne({email})`: the first user with that email. */
  function FindByEmail(users: seq<UserDoc>, email: string): (r: Option<UserDoc>)
    ensures r.None? <==> forall i :: 0 <= i < |users| ==> !HasEmail(users[i], email)
    ensures r.Some? ==> r.value in users && HasEmail(r.value, email)
  {
    if users == [] then None
    else if HasEmail(users[0], email) then Some(users[0])
    else FindByEmail(users[1..], email)
  }

  /** `User.findById(id)`: the first user with that id. */
  function FindById(users: seq<UserDoc>, id: UserId): (r: Option<UserDoc>)
    ensures r.None? <==> forall i :: 0 <= i < |users| ==> users[i].id != id
    ensures r.Some? ==> r.value in users && r.value.id == id
  {
    if users == [] then None
    else if users[0].id == id then Some(users[0])
    else FindById(users[1..], id)
  }

  /** POST /api/auth: look the user up by email, compare the password with
      the stored hash, and only then sign a token for the user's id. */
  function Login(users: seq<UserDoc>, email: string, password: Option<string>,
                 matches: (string, string) -> bool, secret: string): (o: LoginOutcome)
    ensures o == UserNotExist <==> FindByEmail(users, email).None?
    ensures o == LoginFailed <==>
      FindByEmail(users, email).Some? && (password.None? || "password" !in FindByEmail(users, email).value.fields)
    ensures o == PasswordWrong <==>
      && FindByEmail(users, email).Some?
      && password.Some? && "password" in FindByEmail(users, email).value.fields
      && !matches(password.value, FindByEmail(users, email).value.fields["password"])
    ensures o.Issued? <==>
      && FindByEmail(users, email).Some?
      && password.Some? && "password" in FindByEmail(users, email).value.fields
      && matches(password.value, FindByEmail(users, email).value.fields["password"])
    ensures o.Issued? ==>
      o.token == Token(Payload(PayloadUser(FindByEmail(users, email).value.id)), secret, ExpiresIn)
  {
    match FindByEmail(users, email)
    case None => UserNotExist
    case Some(user) =>
      if password.None? || "password" !in user.fields then LoginFailed
      else if !matches(password.value, user.fields["password"]) then PasswordWrong
      else Issued(Token(Payload(PayloadUser(user.id)), secret, ExpiresIn))
  }

  /** An unknown email is answered before the comparison: the outcome is
      the same whatever the comparison would say. */
  lemma UnknownEmailSkipsComparison(users: seq<UserDoc>, email: string, password: Option<string>,
                                    m1: (string, string) -> bool, m2: (string, string) -> bool, secret: string)
    requires forall i :: 0 <= i < |users| ==> !HasEmail(users[i], email)
    ensures Login(users, email, password, m1, secret) == UserNotExist
    ensures Login(users, email, password, m1, secret) == Login(users, email, password, m2, secret)
  {
  }

  /** A token names a stored user who has the email that logged in, whose
      stored hash matches the password, and it is signed with the
      configured secret for the fixed lifetime. */
  lemma IssuedTokenNamesMatchingUser(users: seq<UserDoc>, email: string, password: Option<string>,
                                     matches: (string, string) -> bool, secret: string)
    requires Login(users, email, password, matches, secret).Issued?
    ensures var t := Login(users, email, password, matches, secret).token;
      && t.secret == secret && t.expiresIn == 360000
      && exists u :: u in users && HasEmail(u, email) && u.id == t.payload.user.id
           && "password" in u.fields && password.Some? && matches(password.value, u.fields["password"])
  {
    var u := FindByEmail(users, email).value;
    assert u in users && HasEmail(u, email);
  }

  /** `.select('-password')`: the same document without its password. */
  function WithoutPassword(u: UserDoc): (r: UserDoc)
    ensures r.id == u.id
    ensures "password" !in r.fields
    ensures forall k :: k in r.fields <==> k in u.fields && k != "password"
    ensures forall k :: k in r.fields ==> r.fields[k] == u.fields[k]
  {
    UserDoc(u.id, u.fields - {"password"})
  }

  /** GET /api/auth: the authenticated user's record without the password
      field, or `null` when no user has that id. */
  function CurrentUser(users: seq<UserDoc>, userId: UserId): (r: Option<UserDoc>)
    ensures r.None? <==> forall i :: 0 <= i < |users| ==> users[i].id != userId
    ensures r.Some? ==> r.value.id == userId && "password" !in r.value.fields
    ensures r.Some? ==> exists u :: u in users && u.id == userId && r.value == WithoutPassword(u)
  {
    match FindById(users, userId)
    case None => None
    case Some(u) => Some(WithoutPassword(u))
  }
}
