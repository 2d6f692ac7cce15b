/** Token handling shared by the preferences and Plaid routes: the `Bearer`
    header, the claims signed at login and what `jwt.verify` reports. */
module BearerAuth {
  import opened Wrappers
  import opened UserModel

  const Scheme: string := "Bearer "

  /** The expiry given to `jwt.sign` at login. */
  const LoginExpiry: string := "7d"

  /** The payload `{ userId }` signed at login, with its expiry option. */
  datatype Claims = Claims(userId: UserId, expiresIn: string)

  /** `jwt.verify(token, secret)`: it throws, or returns the payload, whose
      `userId` may be missing. */
  datatype Verified = VerifyThrows | Decoded(userId: Option<UserId>)

  /** The text up to the first space: the first field of `split(' ')`. */
  function UntilSpace(s: string): (t: string)
    ensures t <= s && ' ' !in t
    ensures |t| == |s| || s[|t|] == ' '
  {
    if s == [] || s[0] == ' ' then [] else [s[0]] + UntilSpace(s[1..])
  }

  /** `authHeader?.startsWith('Bearer ')` and then `authHeader.split(' ')[1]`:
      the second space-separated field of a header that starts with the scheme. */
  function BearerToken(header: Option<string>): (t: Option<string>)
    ensures t.Some? <==> header.Some? && Scheme <= header.value
    ensures t.Some? ==> ' ' !in t.value && Scheme + t.value <= header.value
    ensures t.Some? ==> |Scheme + t.value| == |header.value| || header.value[|Scheme + t.value|] == ' '
  {
    if header.Some? && Scheme <= header.value then
      var rest := header.value[|Scheme|..];
      var t := UntilSpace(rest);
      assert header.value == Scheme + rest;
      Some(t)
    else None
  }

  /** A string without spaces is its own first field. */
  lemma {:induction false} UntilSpaceOfWord(s: string)
    requires ' ' !in s
    ensures UntilSpace(s) == s
  {
    if s != [] {
      assert s[0] in s;
      assert ' ' !in s[1..] by {
        forall i | 0 <= i < |s[1..]| ensures s[1..][i] != ' ' { assert s[1..][i] == s[i + 1]; }
      }
      UntilSpaceOfWord(s[1..]);
    }
  }

  /** A token without spaces sent as `Bearer <token>` is read back unchanged. */
  lemma BearerRoundTrip(token: string)
    requires ' ' !in token
    ensures BearerToken(Some(Scheme + token)) == Some(token)
  {
    assert (Scheme + token)[|Scheme|..] == token;
    UntilSpaceOfWord(token);
  }

  /** How a request fares at the authentication step. */
  datatype Auth = NoToken | VerifyFailed | NoUserId | Authorized(userId: UserId)

  /** The header check, verification and `!decoded.userId` check, in that order. */
  function Authorize(header: Option<string>, verify: string -> Verified): (a: Auth)
    ensures a.NoToken? <==> BearerToken(header).None?
    ensures BearerToken(header).Some? ==>
              match verify(BearerToken(header).value)
              case VerifyThrows => a.VerifyFailed?
              case Decoded(None) => a.NoUserId?
              case Decoded(Some(id)) => a == Authorized(id)
  {
    match BearerToken(header)
    case None => NoToken
    case Some(token) =>
      match verify(token)
      case VerifyThrows => VerifyFailed
      case Decoded(None) => NoUserId
      case Decoded(Some(id)) => Authorized(id)
  }
}
