/** The `/signup` and `/login` routes with their `validateRequest` guard,
    as pure transitions over the account store. Everything the handlers
    take from outside (the store's answers and failures, the random salt,
    the clock, the signing secret) is an explicit input. */
module Auth {
  import opened JsValues
  import opened Bcrypt
  import opened Jwt
  import opened Accounts
  import opened Http

  /** The JSON request body; a field may be missing. */
  datatype Body = Body(email: Option<string>, password: Option<string>)

  /** A body that passed the guard. */
  datatype Credentials = Credentials(email: string, password: string)

  /** A thrown error: its `name` and `message`. */
  datatype Fault = Fault(name: string, message: string)

  /** What `User.create` resolves to. */
  datatype CreateReply = Created(id: ObjectId) | CreateFailed(fault: Fault)

  /** The collaborators of one signup: whether `findOne` throws, the salt
      bcrypt draws, and the reply of `create`. */
  datatype SignupEnv = SignupEnv(lookupFault: Option<Fault>, salt: seq<bv8>, create: CreateReply)

  /** The collaborators of one login: whether `findOne` throws, the clock in
      milliseconds, and `process.env.JWT_SECRET`. */
  datatype LoginEnv = LoginEnv(lookupFault: Option<Fault>, nowMs: nat, jwtSecret: Option<string>)

  /** Calls made to collaborators, in order. */
  datatype Effect =
    | FindOne(email: string)
    | BcryptHash(cost: nat)
    | CreateUser(email: string)
    | BcryptCompare
    | JwtSign(claims: Claims)

  /** The result of handling one request. */
  datatype Outcome = Outcome(response: Response, store: Store, effects: seq<Effect>)

  const MissingFields: Response := Response(400, "Email and password are required", NoPayload)
  const UserExists: Response := Response(400, "User already exists", NoPayload)
  const UserMissing: Response := Response(400, "User does not exist", NoPayload)
  const BadPassword: Response := Response(400, "Invalid password", NoPayload)

  /** `validateRequest`: both fields must be truthy. */
  function ValidateRequest(body: Body): (r: Option<Credentials>)
    ensures r.Some? <==> Truthy(body.email) && Truthy(body.password)
    ensures r.Some? ==> r.value.email == body.email.value && r.value.password == body.password.value
    ensures r.Some? ==> r.value.email != "" && r.value.password != ""
  {
    if Truthy(body.email) && Truthy(body.password) then
      Some(Credentials(body.email.value, body.password.value))
    else
      None
  }

  /** The signup `catch` block: only a `ValidationError` is the client's
      fault, and its message is forwarded; anything else is a 500. */
  function SignupFailure(f: Fault): (r: Response)
    ensures r.status == 400 <==> f.name == "ValidationError"
    ensures r.status == 400 ==> r.message == "Invalid user data" && r.payload == Details(f.message)
    ensures r.status != 400 ==> r == InternalServerError
  {
    if f.name == "ValidationError" then
      Response(400, "Invalid user data", Details(f.message))
    else
      InternalServerError
  }

  /** `POST /signup`. The store changes only on a 201, and then by exactly
      one new account; the collaborators are called in the route's order and
      the hasher only once the email is known to be free. */
  function Signup(store: Store, body: Body, env: SignupEnv): (o: Outcome)
    ensures o.response.status in {201, 400, 500}
    ensures o.response.status == 201 <==>
      && ValidateRequest(body).Some?
      && env.lookupFault.None?
      && body.email.value !in store
      && env.create.Created?
    ensures o.response.status != 201 ==> o.store == store
    ensures o.response.status == 201 ==>
      Extends(store, o.store) && |o.store| == |store| + 1 && body.email.value in o.store
    ensures o.response.status == 201 ==>
      && o.response.payload == UserView(body.email.value)
      && o.store[body.email.value].email == body.email.value
      && o.store[body.email.value].password == Hash(body.password.value, env.salt)
    ensures o.effects == [] <==> ValidateRequest(body).None?
    ensures BcryptHash(SaltRounds) in o.effects ==>
      ValidateRequest(body).Some? && env.lookupFault.None? && body.email.value !in store
  {
    match ValidateRequest(body)
    case None => Outcome(MissingFields, store, [])
    case Some(Credentials(email, password)) =>
      if env.lookupFault.Some? then
        Outcome(SignupFailure(env.lookupFault.value), store, [FindOne(email)])
      else if email in store then
        Outcome(UserExists, store, [FindOne(email)])
      else
        var hashed := Hash(password, env.salt);
        var calls := [FindOne(email), BcryptHash(SaltRounds), CreateUser(email)];
        match env.create
        case CreateFailed(f) => Outcome(SignupFailure(f), store, calls)
        case Created(id) =>
          var user := Account(id, email, hashed);
          Outcome(Response(201, "User registered successfully", UserView(user.email)),
                  store[email := user], calls)
  }

  /** `POST /login`. The store is never changed; a token is issued only for
      a known email whose stored hash accepts the password, and it carries
      that account's id and email and a one-hour lifetime. */
  function Login(store: Store, body: Body, env: LoginEnv): (o: Outcome)
    ensures o.store == store
    ensures o.response.status in {200, 400, 500}
    ensures o.effects == [] <==> ValidateRequest(body).None?
    ensures o.response.payload.Session? <==> o.response.status == 200
    ensures o.response.status == 200 <==>
      && ValidateRequest(body).Some?
      && env.lookupFault.None?
      && body.email.value in store
      && Verify(body.password.value, store[body.email.value].password)
      && Truthy(env.jwtSecret)
    ensures env.lookupFault.Some? && ValidateRequest(body).Some? ==> o.response == InternalServerError
    ensures o.response.status == 200 ==>
      var c := o.response.payload.token.claims;
      && c.id == store[body.email.value].id
      && c.email == store[body.email.value].email
      && c.exp == c.iat + ExpiresInSeconds
      && o.response.payload.email == c.email
  {
    match ValidateRequest(body)
    case None => Outcome(MissingFields, store, [])
    case Some(Credentials(email, password)) =>
      if env.lookupFault.Some? then
        Outcome(InternalServerError, store, [FindOne(email)])
      else if email !in store then
        Outcome(UserMissing, store, [FindOne(email)])
      else
        var user := store[email];
        if !Verify(password, user.password) then
          Outcome(BadPassword, store, [FindOne(email), BcryptCompare])
        else
          var claims := IssueClaims(user.id, user.email, env.nowMs);
          var calls := [FindOne(email), BcryptCompare, JwtSign(claims)];
          match Sign(claims, env.jwtSecret)
          case None => Outcome(InternalServerError, store, calls)
          case Some(token) =>
            Outcome(Response(200, "Login successful", Session(token, user.email)), store, calls)
  }

  /** A request to one of the two routes, with its collaborators' behaviour. */
  datatype Call = PostSignup(body: Body, signupEnv: SignupEnv) | PostLogin(body: Body, loginEnv: LoginEnv)

  function Serve(store: Store, call: Call): (o: Outcome)
    ensures o.response.status in {200, 201, 400, 500}
    ensures o.response.status != 201 ==> o.store == store
    ensures o.response.status == 201 ==> Extends(store, o.store) && |o.store| == |store| + 1
  {
    match call
    case PostSignup(body, env) => Signup(store, body, env)
    case PostLogin(body, env) => Login(store, body, env)
  }
}
