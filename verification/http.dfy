/** The JSON responses the handlers send: a status code, the `message`
    field and whatever else the body carries. */
module Http {
  import opened Jwt

  /** The body fields besides `message`. */
  datatype Payload =
    | NoPayload
    | Details(text: string)               // `details: error.message`
    | UserView(email: string)             // `user: { email }`
    | Session(token: Token, email: string) // `token, user: { email }`

  datatype Response = Response(status: nat, message: string, payload: Payload)

  const InternalServerError: Response := Response(500, "Internal Server Error", NoPayload)
}
