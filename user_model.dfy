/** The user document of the account store, as declared by the mongoose `UserSchema`. */
module UserModel {
  import opened Wrappers

  /** Stands for the document's `_id`; fresh ids are handed out by the store. */
  type UserId = nat

  /** The values the schema's `enum` admits for `preferences.rewardType`. */
  const RewardTypes: set<string> := {"cashback", "points", "miles"}

  /** The four spending-category flags. */
  datatype Categories = Categories(travel: bool, shopping: bool, dining: bool, transportation: bool)

  /** The `preferences` sub-document. The reward type is kept as the stored string:
      an update through `findByIdAndUpdate` does not run the enum validator. */
  datatype Preferences = Preferences(rewardType: string, spendingCategories: Categories)

  /** The `plaid` sub-document; each field is an optional string. */
  datatype PlaidLink = PlaidLink(accessToken: Option<string>, itemId: Option<string>, requestId: Option<string>)

  datatype User = User(id: UserId, email: string, password: string, plaid: PlaidLink, preferences: Preferences)

  /** The schema defaults: reward type `cashback`, every category off. */
  function DefaultPreferences(): (p: Preferences)
    ensures p.rewardType == "cashback" && p.rewardType in RewardTypes
    ensures !p.spendingCategories.travel && !p.spendingCategories.shopping
    ensures !p.spendingCategories.dining && !p.spendingCategories.transportation
  {
    Preferences("cashback", Categories(false, false, false, false))
  }

  /** What `save` validates: the required strings are non-empty (mongoose's
      `required` rejects "") and the reward type is one of the enum values. */
  predicate SchemaValid(u: User)
  {
    u.email != "" && u.password != "" && u.preferences.rewardType in RewardTypes
  }

  /** `new User({email, password})`: the given fields plus the schema defaults;
      the `plaid` fields are left unset. */
  function NewUser(id: UserId, email: string, password: string): (u: User)
    ensures u.id == id && u.email == email && u.password == password
    ensures u.plaid == PlaidLink(None, None, None)
    ensures u.preferences == DefaultPreferences()
    ensures SchemaValid(u) <==> email != "" && password != ""
  {
    User(id, email, password, PlaidLink(None, None, None), DefaultPreferences())
  }
}
