/** `POST /api/plaid/exchange_public_token`: trades a Plaid Link public token
    for an access token, stores it on the signed-in user and forwards it. */
module PlaidExchangeRoute {
  import opened Wrappers
  import opened Json
  import opened Http
  import opened UserModel
  import opened AccountStore
  import opened BearerAuth

  /** The body after `request.json()`: `Unparsable` when that throws or gives
      `null`, otherwise its `public_token` property (`None` if absent). */
  datatype ExchangeRequest = Unparsable | Body(publicToken: Option<Value>)

  /** `plaidClient.itemPublicTokenExchange`: it throws, or returns the item's credentials. */
  datatype Exchange = ExchangeThrows | Exchanged(accessToken: string, itemId: string, requestId: string)

  const NoToken: Response := Response(401, Message("error", "No token provided"), [])
  const InvalidToken: Response := Response(401, Message("error", "Invalid token"), [])
  const ExchangeFailed: Response := Response(500, Message("error", "Failed to exchange public token"), [])
  const Linked: Response := Response(200, SuccessBody, [])

  /** The `plaid` sub-document written from an exchange response. */
  function LinkOf(x: Exchange): (l: PlaidLink)
    requires x.Exchanged?
    ensures l.accessToken == Some(x.accessToken) && l.itemId == Some(x.itemId) && l.requestId == Some(x.requestId)
  {
    PlaidLink(Some(x.accessToken), Some(x.itemId), Some(x.requestId))
  }

  /** The handler. `exchange` is the Plaid call, `reachable` whether the database
      connection and update succeed. Whether the POST to the forwarding
      endpoint fails is not a parameter: the failure is logged and swallowed, so
      neither the response nor the store depends on it. Also returns the bearer token of
      that POST when it is sent. */
  method Post(store: UserStore, authorization: Option<string>, verify: string -> Verified,
              req: ExchangeRequest, exchange: Option<Value> -> Exchange, reachable: bool)
    returns (resp: Response, forwarded: Option<string>)
    requires store.Valid()
    modifies store
    ensures store.Valid() && store.nextId == old(store.nextId)
    ensures resp in {NoToken, InvalidToken, ExchangeFailed, Linked}
    // authentication comes first: no body, no exchange, no write
    ensures resp == NoToken <==> Authorize(authorization, verify).NoToken?
    ensures resp == InvalidToken <==> Authorize(authorization, verify).NoUserId?
    ensures Authorize(authorization, verify).VerifyFailed? ==> resp == ExchangeFailed
    // past authentication, every failure (body, exchange, database) is the same 500
    ensures Authorize(authorization, verify).Authorized? && resp != Linked ==> resp == ExchangeFailed
    ensures !Authorize(authorization, verify).Authorized? ==> forwarded.None?
    ensures resp == Linked <==>
              Authorize(authorization, verify).Authorized? && req.Body? &&
              exchange(req.publicToken).Exchanged? && reachable
    // only the plaid field of the token's user is written
    ensures resp == Linked ==>
              store.users == UpdateById(old(store.users), Authorize(authorization, verify).userId,
                                        SetPlaid(LinkOf(exchange(req.publicToken))))
    ensures resp != Linked ==> store.users == old(store.users)
    // the access token is forwarded after every write, and the forward's fate does not matter
    ensures forwarded.Some? <==> resp == Linked
    ensures forwarded.Some? ==> forwarded.value == exchange(req.publicToken).accessToken
  {
    assert NoToken.body.fields["error"] != InvalidToken.body.fields["error"];
    forwarded := None;
    match Authorize(authorization, verify)
    case NoToken => return NoToken, None;
    case NoUserId => return InvalidToken, None;
    case VerifyFailed => return ExchangeFailed, None;
    case Authorized(id) =>
      if req.Unparsable? {
        return ExchangeFailed, None;
      }
      var x := exchange(req.publicToken);
      if x.ExchangeThrows? || !reachable {
        return ExchangeFailed, None;
      }
      var _ := store.FindByIdAndUpdate(id, SetPlaid(LinkOf(x)));
      forwarded := Some(x.accessToken);
      resp := Linked;
  }
}
