/** `GET /api/ingest?email=..&password=..`: validates credentials for an
    outside caller without issuing a token. It only reads the collection. */
module IngestRoute {
  import opened Wrappers
  import opened Json
  import opened Http
  import opened UserModel
  import opened AccountStore

  const MissingParameters: Response := Response(400, Message("error", "Email and password are required"), CorsHeaders)
  const InvalidCredentials: Response := Response(401, Message("error", "Invalid credentials"), CorsHeaders)
  const InternalError: Response := Response(500, Message("error", "Internal server error"), CorsHeaders)
  const Validated: Response :=
    Response(200, Obj(map["success" := Bool(true), "message" := Str("User validated successfully")]), CorsHeaders)

  /** The handler; `email` and `password` are `searchParams.get(..)` (`None` for
      `null`), `compare` is `bcrypt.compare` (`None` when it throws). */
  function Get(users: seq<User>, email: Option<string>, password: Option<string>, reachable: bool,
               compare: (string, string) -> Option<bool>): (resp: Response)
    ensures resp in {MissingParameters, InvalidCredentials, InternalError, Validated}
    ensures resp.headers == CorsHeaders
    ensures !(Given(email) && Given(password)) ==> resp == MissingParameters
    ensures Given(email) && Given(password) && !reachable ==> resp == InternalError
    // success exactly for a stored email whose hash matches; no token is issued
    ensures resp == Validated <==>
              Given(email) && Given(password) && reachable && FindByEmail(users, email.value).Some? &&
              compare(password.value, users[FindByEmail(users, email.value).value].password) == Some(true)
    ensures "token" !in resp.body.fields
    // an unknown email and a wrong password get the same answer
    ensures Given(email) && Given(password) && reachable ==>
              (resp == InvalidCredentials <==>
                 FindByEmail(users, email.value).None? ||
                 compare(password.value, users[FindByEmail(users, email.value).value].password) == Some(false))
    // a comparison that throws is the catch-all 500
    ensures Given(email) && Given(password) && reachable && resp != Validated && resp != InvalidCredentials ==>
              resp == InternalError
  {
    if !Given(email) || !Given(password) then MissingParameters
    else if !reachable then InternalError
    else match FindByEmail(users, email.value)
      case None => InvalidCredentials
      case Some(k) =>
        match compare(password.value, users[k].password)
        case None => InternalError
        case Some(matched) => if matched then Validated else InvalidCredentials
  }
}
