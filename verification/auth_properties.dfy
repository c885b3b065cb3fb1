/** Properties of the credential flows: one lemma per promised outcome of
    the routes, the signup/login round trip, and what a whole sequence of
    requests does to the account store. */
module AuthProperties {
  import opened JsValues
  import opened Bcrypt
  import opened Jwt
  import opened Accounts
  import opened Http
  import opened Auth

  /** A body with a falsy field is refused by both routes before any
      collaborator is called, and the store is left as it was. */
  lemma MissingFieldsRejected(store: Store, body: Body, senv: SignupEnv, lenv: LoginEnv)
    requires !Truthy(body.email) || !Truthy(body.password)
    ensures Signup(store, body, senv) == Outcome(MissingFields, store, [])
    ensures Login(store, body, lenv) == Outcome(MissingFields, store, [])
  {
  }

  /** Signing up an email that is already taken answers "User already
      exists" after the lookup alone: nothing is hashed or created. */
  lemma DuplicateSignupRejected(store: Store, email: string, password: string, env: SignupEnv)
    requires email != "" && password != ""
    requires env.lookupFault.None?
    requires email in store
    ensures Signup(store, Body(Some(email), Some(password)), env)
         == Outcome(UserExists, store, [FindOne(email)])
  {
  }

  /** A successful signup files exactly one new account under the given
      email, holding the salted hash of the password, leaves every other
      account alone and answers 201 with the email only. */
  lemma SignupCreatesOneAccount(store: Store, email: string, password: string, salt: seq<bv8>, id: ObjectId)
    requires email != "" && password != ""
    requires email !in store
    ensures var o := Signup(store, Body(Some(email), Some(password)), SignupEnv(None, salt, Created(id)));
      && o.response == Response(201, "User registered successfully", UserView(email))
      && o.store.Keys == store.Keys + {email}
      && o.store[email] == Account(id, email, Hash(password, salt))
      && Verify(password, o.store[email].password)
      && (forall e :: e in store ==> o.store[e] == store[e])
      && |o.store| == |store| + 1
      && o.effects == [FindOne(email), BcryptHash(SaltRounds), CreateUser(email)]
  {
  }

  /** A store failure during signup, at the lookup or at the create, goes
      through the catch block and leaves the store unchanged. */
  lemma SignupStoreFailure(store: Store, email: string, password: string, env: SignupEnv, f: Fault)
    requires email != "" && password != ""
    requires env.lookupFault == Some(f) || (env.lookupFault.None? && email !in store && env.create == CreateFailed(f))
    ensures var o := Signup(store, Body(Some(email), Some(password)), env);
      && o.store == store
      && (f.name == "ValidationError" ==> o.response == Response(400, "Invalid user data", Details(f.message)))
      && (f.name != "ValidationError" ==> o.response == InternalServerError)
  {
  }

  /** Logging in with an unknown email answers "User does not exist"
      without comparing any password or issuing a token. */
  lemma LoginUnknownUser(store: Store, email: string, password: string, env: LoginEnv)
    requires email != "" && password != ""
    requires env.lookupFault.None?
    requires email !in store
    ensures Login(store, Body(Some(email), Some(password)), env)
         == Outcome(UserMissing, store, [FindOne(email)])
  {
  }

  /** Logging in with a password the stored hash rejects answers "Invalid
      password" and signs nothing. */
  lemma LoginWrongPassword(store: Store, email: string, password: string, env: LoginEnv)
    requires email != "" && password != ""
    requires env.lookupFault.None?
    requires email in store && !Verify(password, store[email].password)
    ensures Login(store, Body(Some(email), Some(password)), env)
         == Outcome(BadPassword, store, [FindOne(email), BcryptCompare])
  {
  }

  /** A correct password and a usable secret give a 200 whose token claims
      the stored id and email, issued at the request's second and expiring
      one hour later. */
  lemma LoginSucceeds(store: Store, email: string, password: string, env: LoginEnv)
    requires email != "" && password != ""
    requires env.lookupFault.None? && Truthy(env.jwtSecret)
    requires email in store && Verify(password, store[email].password)
    ensures var o := Login(store, Body(Some(email), Some(password)), env);
      var u := store[email];
      var c := Claims(u.id, u.email, env.nowMs / 1000, env.nowMs / 1000 + 3600);
      && o.response == Response(200, "Login successful", Session(Token(c), u.email))
      && o.store == store
      && o.effects == [FindOne(email), BcryptCompare, JwtSign(c)]
  {
  }

  /** bcrypt reads only the first 72 bytes of a password, so once those are
      given, a login answers the same whatever follows them. */
  lemma LoginIgnoresBytesPast72(store: Store, email: string, password: string, tail: string, env: LoginEnv)
    requires |Utf8(password)| >= MaxKeyBytes
    ensures Login(store, Body(Some(email), Some(password + tail)), env)
         == Login(store, Body(Some(email), Some(password)), env)
  {
    if email in store {
      VerifyIgnoresTail(password, tail, store[email].password);
    }
  }

  /** A failed lookup during login goes through the catch block: a 500,
      with nothing compared or signed and the store unchanged. */
  lemma LoginStoreFailure(store: Store, email: string, password: string, env: LoginEnv)
    requires email != "" && password != ""
    requires env.lookupFault.Some?
    ensures Login(store, Body(Some(email), Some(password)), env)
         == Outcome(InternalServerError, store, [FindOne(email)])
  {
  }

  /** Without a signing secret the login of a valid user ends in a 500,
      after the password was accepted, and no token leaves the server. */
  lemma LoginWithoutSecret(store: Store, email: string, password: string, env: LoginEnv)
    requires email != "" && password != ""
    requires env.lookupFault.None? && !Truthy(env.jwtSecret)
    requires email in store && Verify(password, store[email].password)
    ensures var o := Login(store, Body(Some(email), Some(password)), env);
      o.response == InternalServerError && o.store == store
  {
  }

  /** Round trip: after signing up with `(email, password)`, logging in
      with the same pair succeeds and the token names that email and the
      id the store assigned. */
  lemma SignupThenLogin(store: Store, email: string, password: string, salt: seq<bv8>, id: ObjectId,
                        nowMs: nat, secret: string)
    requires email != "" && password != "" && secret != ""
    requires email !in store
    ensures var s := Signup(store, Body(Some(email), Some(password)), SignupEnv(None, salt, Created(id)));
      var l := Login(s.store, Body(Some(email), Some(password)), LoginEnv(None, nowMs, Some(secret)));
      && s.response.status == 201
      && l.response.status == 200
      && l.response.payload.token.claims.email == email
      && l.response.payload.token.claims.id == id
      && l.response.payload.email == email
  {
    var body := Body(Some(email), Some(password));
    var s := Signup(store, body, SignupEnv(None, salt, Created(id)));
    SignupCreatesOneAccount(store, email, password, salt, id);
    LoginSucceeds(s.store, email, password, LoginEnv(None, nowMs, Some(secret)));
  }

  /** Signing up the same email twice: the second attempt is refused
      without hashing, and the stored hash is still the one the first
      attempt computed. */
  lemma SecondSignupRejected(store: Store, email: string, p1: string, p2: string,
                             salt1: seq<bv8>, salt2: seq<bv8>, id1: ObjectId, create2: CreateReply)
    requires email != "" && p1 != "" && p2 != ""
    requires email !in store
    ensures var first := Signup(store, Body(Some(email), Some(p1)), SignupEnv(None, salt1, Created(id1)));
      var second := Signup(first.store, Body(Some(email), Some(p2)), SignupEnv(None, salt2, create2));
      && second.response == UserExists
      && second.store == first.store
      && second.store[email].password == Hash(p1, salt1)
      && BcryptHash(SaltRounds) !in second.effects
  {
    SignupCreatesOneAccount(store, email, p1, salt1, id1);
  }

  /** Signup keeps every account filed under its own email. */
  lemma SignupPreservesWellFormed(store: Store, body: Body, env: SignupEnv)
    requires WellFormed(store)
    ensures WellFormed(Signup(store, body, env).store)
  {
  }

  /** Handles the requests in order, threading the store, and collects the
      responses. */
  function Replay(store: Store, calls: seq<Call>): (r: (Store, seq<Response>))
    ensures |r.1| == |calls|
    decreases |calls|
  {
    if calls == [] then (store, [])
    else
      var o := Serve(store, calls[0]);
      var rest := Replay(o.store, calls[1..]);
      (rest.0, [o.response] + rest.1)
  }

  /** The number of 201 responses. */
  function CreatedCount(rs: seq<Response>): nat
    decreases |rs|
  {
    if rs == [] then 0
    else (if rs[0].status == 201 then 1 else 0) + CreatedCount(rs[1..])
  }

  /** Over any sequence of requests, no account is ever changed or removed,
      and the store grows by exactly one account per 201 response. */
  lemma {:induction false} ReplayOnlyAdds(store: Store, calls: seq<Call>)
    ensures Extends(store, Replay(store, calls).0)
    ensures |Replay(store, calls).0| == |store| + CreatedCount(Replay(store, calls).1)
    decreases |calls|
  {
    if calls != [] {
      var o := Serve(store, calls[0]);
      ReplayOnlyAdds(o.store, calls[1..]);
      ExtendsTransitive(store, o.store, Replay(o.store, calls[1..]).0);
    }
  }

  /** Over any sequence of requests, every account stays filed under its
      own email. */
  lemma {:induction false} ReplayPreservesWellFormed(store: Store, calls: seq<Call>)
    requires WellFormed(store)
    ensures WellFormed(Replay(store, calls).0)
    decreases |calls|
  {
    if calls != [] {
      var o := Serve(store, calls[0]);
      if calls[0].PostSignup? {
        SignupPreservesWellFormed(store, calls[0].body, calls[0].signupEnv);
      }
      ReplayPreservesWellFormed(o.store, calls[1..]);
    }
  }
}
