/** `POST /api/preferences`: overwrites the signed-in user's preferences. */
module PreferencesRoute {
  import opened Wrappers
  import opened Json
  import opened Http
  import opened UserModel
  import opened AccountStore
  import opened BearerAuth

  /** The body after `request.json()`: `Unparsable` when that throws, `Missing`
      when it has no `preferences` object (reading `preferences.rewardType` then
      throws), otherwise the reward type and category flags as given. */
  datatype PreferencesRequest = Unparsable | Missing | Prefs(preferences: Preferences)

  const NoToken: Response := Response(401, Message("error", "No token provided"), [])
  const InvalidToken: Response := Response(401, Message("error", "Invalid token"), [])
  const SaveFailed: Response := Response(500, Message("error", "Failed to save preferences"), [])
  const Saved: Response := Response(200, SuccessBody, [])

  /** The handler. `verify` is `jwt.verify` with the server secret; `reachable`
      is whether the database connection and update succeed. */
  method Post(store: UserStore, authorization: Option<string>, verify: string -> Verified,
              req: PreferencesRequest, reachable: bool) returns (resp: Response)
    requires store.Valid()
    modifies store
    ensures store.Valid() && store.nextId == old(store.nextId)
    ensures resp in {NoToken, InvalidToken, SaveFailed, Saved}
    // authentication comes first and fails without touching the collection
    ensures resp == NoToken <==> Authorize(authorization, verify).NoToken?
    ensures resp == InvalidToken <==> Authorize(authorization, verify).NoUserId?
    // a verification failure is thrown, and reported as a failed save
    ensures Authorize(authorization, verify).VerifyFailed? ==> resp == SaveFailed
    ensures resp == Saved <==> Authorize(authorization, verify).Authorized? && req.Prefs? && reachable
    // past authentication, an unreadable body or a database failure is the same 500
    ensures Authorize(authorization, verify).Authorized? && resp != Saved ==> resp == SaveFailed
    // only the preferences of the token's user are written, even if no record has that id
    ensures resp == Saved ==>
              store.users == UpdateById(old(store.users), Authorize(authorization, verify).userId, SetPreferences(req.preferences))
    ensures resp != Saved ==> store.users == old(store.users)
  {
    assert NoToken.body.fields["error"] != InvalidToken.body.fields["error"];
    match Authorize(authorization, verify)
    case NoToken => return NoToken;
    case NoUserId => return InvalidToken;
    case VerifyFailed => return SaveFailed;
    case Authorized(id) =>
      if !req.Prefs? || !reachable {
        return SaveFailed;
      }
      var _ := store.FindByIdAndUpdate(id, SetPreferences(req.preferences));
      resp := Saved;
  }

  /** Because the update runs no validator, the stored reward types stay within
      the enum exactly when the written one is in it: otherwise the updated record
      leaves it. */
  lemma {:induction false} EnumKeptExactlyForValidRewardType(users: seq<User>, id: UserId, p: Preferences)
    requires forall i :: 0 <= i < |users| ==> SchemaValid(users[i])
    requires FindById(users, id).Some?
    ensures p.rewardType in RewardTypes ==> forall i :: 0 <= i < |users| ==> SchemaValid(UpdateById(users, id, SetPreferences(p))[i])
    ensures p.rewardType !in RewardTypes ==> !SchemaValid(UpdateById(users, id, SetPreferences(p))[FindById(users, id).value])
  {
    var r := UpdateById(users, id, SetPreferences(p));
    var k := FindById(users, id).value;
    assert r[k].preferences == p;
    if p.rewardType in RewardTypes {
      forall i | 0 <= i < |users| ensures SchemaValid(r[i]) {
        assert SchemaValid(users[i]);
      }
    } else {
      assert 0 <= k < |users| && r[k] == Apply(users[k], SetPreferences(p));
    }
  }
}
