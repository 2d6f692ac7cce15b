/** `POST /api/auth/login`: checks credentials and issues a session token.
    It only reads the collection. */
module LoginRoute {
  import opened Wrappers
  import opened Json
  import opened Http
  import opened UserModel
  import opened AccountStore
  import opened Credentials
  import opened BearerAuth

  const AllFieldsRequired: Response := Response(400, Message("message", "All fields are required"), [])
  const InvalidCredentials: Response := Response(400, Message("message", "Invalid credentials"), [])
  const InternalError: Response := Response(500, Message("message", "Internal Server Error"), [])

  /** The success body: the signed token and a message. */
  function LoggedIn(token: string): Value
  {
    Obj(map["token" := Str(token), "message" := Str("Login successful")])
  }

  /** The handler over the collection `users`. `compare` is `bcrypt.compare`
      (plain text, stored hash) and `sign` is `jwt.sign` with the server secret;
      each gives `None` when it throws. */
  function Post(users: seq<User>, req: Request, reachable: bool,
                compare: (string, string) -> Option<bool>, sign: Claims -> Option<string>): (resp: Response)
    ensures resp.headers == []
    ensures resp.status == 200 || resp in {AllFieldsRequired, InvalidCredentials, InternalError}
    ensures req.Unparsable? ==> resp == InternalError
    ensures req.Fields? && !Complete(req) ==> resp == AllFieldsRequired
    ensures Complete(req) && !reachable ==> resp == InternalError
    // success exactly for a stored email whose hash matches the password, once the token is signed
    ensures resp.status == 200 <==>
              Complete(req) && reachable && FindByEmail(users, req.email.value).Some? &&
              compare(req.password.value, users[FindByEmail(users, req.email.value).value].password) == Some(true) &&
              sign(Claims(users[FindByEmail(users, req.email.value).value].id, LoginExpiry)).Some?
    // the token carries the record's id and the seven-day expiry
    ensures resp.status == 200 ==>
              resp.body == LoggedIn(sign(Claims(users[FindByEmail(users, req.email.value).value].id, LoginExpiry)).value)
    // an unknown email and a wrong password get the same answer
    ensures Complete(req) && reachable ==>
              (resp == InvalidCredentials <==>
                 FindByEmail(users, req.email.value).None? ||
                 compare(req.password.value, users[FindByEmail(users, req.email.value).value].password) == Some(false))
    // a comparison or a signing that throws is the catch-all 500
    ensures Complete(req) && reachable && resp.status != 200 && resp != InvalidCredentials ==> resp == InternalError
  {
    if req.Unparsable? then InternalError
    else if !Complete(req) then AllFieldsRequired
    else if !reachable then InternalError
    else match FindByEmail(users, req.email.value)
      case None => InvalidCredentials
      case Some(k) =>
        match compare(req.password.value, users[k].password)
        case None => InternalError
        case Some(false) => InvalidCredentials
        case Some(true) =>
          match sign(Claims(users[k].id, LoginExpiry))
          case None => InternalError
          case Some(token) => Response(200, LoggedIn(token), [])
  }
}
