/** Properties that span several routes: an account registered through one
    route can sign in through another, and the token it receives passes the
    bearer check of the authenticated routes. */
module Flows {
  import opened Wrappers
  import opened Http
  import opened UserModel
  import opened AccountStore
  import opened Credentials
  import opened BearerAuth
  import LoginRoute
  import IngestRoute

  /** Signing in right after registering: the record `register` appended is the
      one `login` finds, so a password whose stored hash it matches yields a token
      for the new id with the seven-day expiry. */
  lemma LoginAfterRegister(users: seq<User>, id: UserId, email: string, password: string, hashed: string,
                           compare: (string, string) -> Option<bool>, sign: Claims -> Option<string>)
    requires email != "" && password != ""
    requires FindByEmail(users, email).None?
    requires compare(password, hashed) == Some(true) && sign(Claims(id, LoginExpiry)).Some?
    ensures LoginRoute.Post(users + [NewUser(id, email, hashed)], Fields(Some(email), Some(password)),
                            true, compare, sign)
            == Response(200, LoginRoute.LoggedIn(sign(Claims(id, LoginExpiry)).value), [])
  {
    FindAppended(users, NewUser(id, email, hashed));
  }

  /** The token `login` issues, sent back as `Bearer <token>`, authorises the
      user it was signed for, provided the token has no space and `jwt.verify`
      returns the claims `jwt.sign` was given. */
  lemma SignedTokenAuthorizes(c: Claims, token: string, sign: Claims -> Option<string>, verify: string -> Verified)
    requires sign(c) == Some(token) && ' ' !in token
    requires verify(token) == Decoded(Some(c.userId))
    ensures Authorize(Some(Scheme + token), verify) == Authorized(c.userId)
  {
    BearerRoundTrip(token);
  }

  /** When signing succeeds, the ingest lookup accepts exactly the credentials
      `login` accepts. Both read the same collection. */
  lemma IngestAcceptsWhatLoginAccepts(users: seq<User>, email: string, password: string, reachable: bool,
                                      compare: (string, string) -> Option<bool>, sign: Claims -> Option<string>)
    requires forall c :: sign(c).Some?
    ensures IngestRoute.Get(users, Some(email), Some(password), reachable, compare) == IngestRoute.Validated
            <==> LoginRoute.Post(users, Fields(Some(email), Some(password)), reachable, compare, sign).status == 200
  {
  }
}
