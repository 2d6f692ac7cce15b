/** The `recommend` Lambda: reads `user_id` from the query string, looks the
    user up by ObjectId, and asks the model for a credit card recommendation. */
module Recommend {
  import opened Wrappers
  import opened Json
  import opened LambdaEvent

  /** The prompt is built from the user's document alone. */
  datatype CardPrompt = CardPrompt(userData: Value)

  /** The deployment and the outside calls. `findUser` is the lookup by a valid
      ObjectId string, including the client's own failures; `searchRaises` says
      whether the card-offer web search raises (its results are not used). */
  datatype RecommendEnv = RecommendEnv(
    mongoUri: Option<string>,
    findUser: string -> DbLookup,
    openAiReady: bool,
    exaReady: bool,
    searchRaises: bool,
    complete: CardPrompt -> Completion,
    loads: string -> Option<Value>)

  const MissingUserId: LambdaResult := Returned(400, Error("Missing user_id in request"))
  const MongoUnset: LambdaResult := Returned(500, Error(MongoUriUnset))
  const MongoFailed: LambdaResult := Returned(500, ErrorWithDetail(MongoErrorPrefix))
  const NotFound: LambdaResult := Returned(404, Error(UserNotFound))
  const OpenAiUnavailable: LambdaResult := Returned(500, Error("Unable to connect to OpenAI API"))
  const ExaUnavailable: LambdaResult := Returned(500, Error("Unable to connect to Exa"))

  predicate IsHexDigit(c: char)
  {
    '0' <= c <= '9' || 'a' <= c <= 'f' || 'A' <= c <= 'F'
  }

  /** The strings `ObjectId(..)` accepts: exactly 24 hexadecimal digits. */
  predicate IsObjectIdHex(s: string)
  {
    |s| == 24 && forall i :: 0 <= i < |s| ==> IsHexDigit(s[i])
  }

  /** A non-empty `user_id` is given and the database URI is set. */
  predicate Connects(e: Event, env: RecommendEnv)
  {
    Given(QueryUserId(e.query)) && Given(env.mongoUri)
  }

  /** The lookup found a document. */
  predicate Found(e: Event, env: RecommendEnv)
  {
    Connects(e, env) && IsObjectIdHex(QueryUserId(e.query).value)
    && env.findUser(QueryUserId(e.query).value).Document?
  }

  /** Every check passed and both clients were built. */
  predicate Asks(e: Event, env: RecommendEnv)
  {
    Found(e, env) && env.openAiReady && env.exaReady
  }

  /** The handler, with the query string read as intended (an absent or `None`
      query string has no `user_id`). The body is not read. */
  function Handle(e: Event, env: RecommendEnv): (r: LambdaResult)
    ensures r == MissingUserId <==> !Given(QueryUserId(e.query))
    ensures e.query.NullQuery? ==> r == MissingUserId
    ensures r == MongoUnset <==> Given(QueryUserId(e.query)) && !Given(env.mongoUri)
    // an id that is not an ObjectId makes the conversion raise inside the lookup's try
    ensures r == MongoFailed <==>
              Connects(e, env) && (!IsObjectIdHex(QueryUserId(e.query).value)
                                   || env.findUser(QueryUserId(e.query).value).DbRaises?)
    ensures r == NotFound <==>
              Connects(e, env) && IsObjectIdHex(QueryUserId(e.query).value)
              && env.findUser(QueryUserId(e.query).value).NoDocument?
    ensures r == OpenAiUnavailable <==> Found(e, env) && !env.openAiReady
    ensures r == ExaUnavailable <==> Found(e, env) && env.openAiReady && !env.exaReady
    ensures r.Raised? ==> Asks(e, env)
    ensures Asks(e, env) ==>
              if env.searchRaises then r.Raised?
              else r == ReplyResult(env.complete(CardPrompt(env.findUser(QueryUserId(e.query).value).data)), env.loads)
    ensures r.Returned? && r.statusCode == 200 ==> Asks(e, env) && !env.searchRaises
  {
    var userId := QueryUserId(e.query);
    if !Given(userId) then MissingUserId
    else if !Given(env.mongoUri) then MongoUnset
    else if !IsObjectIdHex(userId.value) then MongoFailed
    else match env.findUser(userId.value)
      case DbRaises => MongoFailed
      case NoDocument => NotFound
      case Document(userData) =>
        if !env.openAiReady then OpenAiUnavailable
        else if !env.exaReady then ExaUnavailable
        else if env.searchRaises then Raised
        else ReplyResult(env.complete(CardPrompt(userData)), env.loads)
  }

  /** The discrepancy on a concrete event: API Gateway invokes the handler with
      `queryStringParameters` set to `None` when the URL has no query string. */
  lemma NoQueryStringRaisesAsWritten(env: RecommendEnv)
    ensures AnswerAsWritten(NullQuery, Handle(Event(NullQuery, None), env)) == Raised
    ensures Handle(Event(NullQuery, None), env) == MissingUserId
  {
  }
}
