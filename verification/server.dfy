/** The server's own decisions: which request origins the CORS middleware
    admits, how the error-handling middleware turns an error into a
    response, and which port the server listens on. */
module Server {
  import opened JsValues
  import opened Http
  import opened Accounts
  import opened Auth

  /** The two front ends allowed to call the API. */
  const AllowedOrigins: seq<string> := ["https://ss-frontend-coral.vercel.app", "http://localhost:3000"]

  const CorsErrorPrefix: string := "CORS Error"
  const OriginLead: string := "CORS Error: Origin "

  /** The port used when `PORT` is unset or empty. */
  const DefaultPort: nat := 5001

  /** What the origin callback hands to the CORS middleware: `callback(null,
      true)` or `callback(new Error(message))`. */
  datatype CorsVerdict = Admit | Reject(message: string)

  /** The message of the error raised for a refused origin. */
  function CorsErrorMessage(origin: string): (m: string)
    ensures StartsWith(m, CorsErrorPrefix)
    ensures |OriginLead| + |origin| <= |m|
    ensures m[|OriginLead|..|OriginLead| + |origin|] == origin
  {
    var m := OriginLead + origin + " is not allowed";
    assert m[..|CorsErrorPrefix|] == CorsErrorPrefix;
    assert m[|OriginLead|..|OriginLead| + |origin|] == origin;
    m
  }

  /** The `origin` option of the CORS middleware. A request without an
      Origin header is admitted; otherwise only the listed origins are, and
      any other origin yields an error naming it. */
  function OriginCallback(origin: Option<string>): (v: CorsVerdict)
    ensures v.Admit? <==> !Truthy(origin) || origin.value in AllowedOrigins
    ensures v.Reject? ==> Truthy(origin) && StartsWith(v.message, CorsErrorPrefix)
    ensures v.Reject? ==>
      |OriginLead| + |origin.value| <= |v.message|
      && v.message[|OriginLead|..|OriginLead| + |origin.value|] == origin.value
  {
    if !Truthy(origin) || origin.value in AllowedOrigins then Admit
    else Reject(CorsErrorMessage(origin.value))
  }

  /** The error-handling middleware: an error whose message starts with
      "CORS Error" is a 403 that echoes the message; any other error is a
      500 that hides it. */
  function HandleError(message: string): (r: Response)
    ensures r.status == 403 <==> StartsWith(message, CorsErrorPrefix)
    ensures r.status == 403 ==> r.message == message && r.payload == NoPayload
    ensures r.status != 403 ==> r == InternalServerError
  {
    if StartsWith(message, CorsErrorPrefix) then Response(403, message, NoPayload)
    else InternalServerError
  }

  /** What `app.listen` receives. */
  datatype Port = EnvPort(text: string) | NumericPort(number: nat)

  /** `process.env.PORT || 5001`: the environment's value as given when it
      is a non-empty string, the default otherwise. */
  function ListenPort(env: Option<string>): (p: Port)
    ensures p.EnvPort? <==> Truthy(env)
    ensures p.EnvPort? ==> p.text == env.value
    ensures p.NumericPort? ==> p.number == DefaultPort
  {
    if Truthy(env) then EnvPort(env.value) else NumericPort(DefaultPort)
  }

  /** One request to an auth route through the middleware chain: the CORS
      check first, its error handed to the error middleware, and otherwise
      the route handler. A 403 comes back exactly when the origin is
      refused, and a refused request reaches no collaborator. */
  function Handle(store: Store, origin: Option<string>, call: Call): (o: Outcome)
    ensures o.response.status == 403 <==> OriginCallback(origin).Reject?
    ensures o.response.status == 403 ==> o.store == store && o.effects == []
    ensures o.response.status != 403 ==> o == Serve(store, call)
  {
    match OriginCallback(origin)
    case Reject(message) => Outcome(HandleError(message), store, [])
    case Admit => Serve(store, call)
  }

  /** A request with no Origin header passes the CORS check. */
  lemma NoOriginAdmitted()
    ensures OriginCallback(None) == Admit
    ensures OriginCallback(Some("")) == Admit
  {
  }

  /** Exactly the two listed front ends are admitted among non-empty origins. */
  lemma AdmittedIffListed(origin: string)
    requires origin != ""
    ensures OriginCallback(Some(origin)).Admit? <==>
      origin == "https://ss-frontend-coral.vercel.app" || origin == "http://localhost:3000"
  {
  }

  /** End to end: a request from an unlisted origin gets a 403 whose
      message names the origin, and the store is untouched. */
  lemma UnlistedOriginForbidden(store: Store, origin: string, call: Call)
    requires origin != "" && origin !in AllowedOrigins
    ensures var o := Handle(store, Some(origin), call);
      && o.response.status == 403
      && o.response.message == CorsErrorMessage(origin)
      && o.response.message[|OriginLead|..|OriginLead| + |origin|] == origin
      && o.store == store
  {
  }
}
