/** The `transaction_router` Lambda: reads a JSON body naming a user and a
    purchase, looks the user up, and asks the model how to split the charge
    across the user's cards. */
module TransactionRouter {
  import opened Wrappers
  import opened Json
  import opened LambdaEvent

  /** What the prompt is built from: `trans_amt`, `trans_type` and the user's document. */
  datatype TradePrompt = TradePrompt(amount: Value, merchantType: Value, userData: Value)

  /** The deployment and the outside calls. `findUser` is the lookup by the
      body's `user_id` value, including the client's own failures; `openAiReady`
      and `exaReady` say whether the two clients construct. */
  datatype RouterEnv = RouterEnv(
    mongoUri: Option<string>,
    findUser: Value -> DbLookup,
    openAiReady: bool,
    exaReady: bool,
    complete: TradePrompt -> Completion,
    loads: string -> Option<Value>)

  const MissingBody: LambdaResult := Returned(400, Error("Missing request body"))
  const InvalidJson: LambdaResult := Returned(400, Error("Invalid JSON in request body"))
  const MongoUnset: LambdaResult := Returned(500, Error(MongoUriUnset))
  const MongoFailed: LambdaResult := Returned(500, ErrorWithDetail(MongoErrorPrefix))
  const NotFound: LambdaResult := Returned(404, Error(UserNotFound))
  const OpenAiUnavailable: LambdaResult := Returned(500, Error("Unable to connect to OpenAI API"))
  const ExaUnavailable: LambdaResult := Returned(500, Error("Unable to connect to Exa"))

  /** The body is present, non-empty and JSON, and the database URI is set. */
  predicate Connects(e: Event, env: RouterEnv)
  {
    Given(e.body) && env.loads(e.body.value).Some? && Given(env.mongoUri)
  }

  /** `request_body["user_id"]`; absent when the body is not an object with that key. */
  function UserKey(e: Event, env: RouterEnv): Option<Value>
    requires Connects(e, env)
  {
    Get(env.loads(e.body.value).value, "user_id")
  }

  /** The lookup by the body's `user_id` found a document. */
  predicate Found(e: Event, env: RouterEnv)
  {
    Connects(e, env) && UserKey(e, env).Some? && env.findUser(UserKey(e, env).value).Document?
  }

  /** Every check passed and both clients were built: the model is asked. */
  predicate Asks(e: Event, env: RouterEnv)
  {
    Found(e, env) && env.openAiReady && env.exaReady
  }

  /** The handler. The query string is not consulted: its `user_id` is read at
      the top and never used. */
  function Handle(e: Event, env: RouterEnv): (r: LambdaResult)
    ensures r == MissingBody <==> !Given(e.body)
    ensures r == InvalidJson <==> Given(e.body) && env.loads(e.body.value).None?
    ensures r == MongoUnset <==> Given(e.body) && env.loads(e.body.value).Some? && !Given(env.mongoUri)
    // a body without `user_id` (or not an object) is a failed lookup, not a 400
    ensures r == MongoFailed <==>
              Connects(e, env) && (UserKey(e, env).None? || env.findUser(UserKey(e, env).value).DbRaises?)
    ensures r == NotFound <==>
              Connects(e, env) && UserKey(e, env).Some? && env.findUser(UserKey(e, env).value).NoDocument?
    ensures r == OpenAiUnavailable <==> Found(e, env) && !env.openAiReady
    ensures r == ExaUnavailable <==> Found(e, env) && env.openAiReady && !env.exaReady
    // exceptions escape only once the prompt is built: a missing purchase field or a failed call
    ensures r.Raised? ==> Asks(e, env)
    ensures Asks(e, env) ==>
              var req := env.loads(e.body.value).value;
              if Get(req, "trans_amt").None? || Get(req, "trans_type").None? then r.Raised?
              else r == ReplyResult(env.complete(TradePrompt(Get(req, "trans_amt").value, Get(req, "trans_type").value,
                                                             env.findUser(UserKey(e, env).value).data)), env.loads)
    ensures r.Returned? && r.statusCode == 200 ==> Asks(e, env)
  {
    if !Given(e.body) then MissingBody
    else match env.loads(e.body.value)
      case None => InvalidJson
      case Some(req) =>
        if !Given(env.mongoUri) then MongoUnset
        else match Get(req, "user_id")
          case None => MongoFailed
          case Some(key) =>
            match env.findUser(key)
            case DbRaises => MongoFailed
            case NoDocument => NotFound
            case Document(userData) =>
              if !env.openAiReady then OpenAiUnavailable
              else if !env.exaReady then ExaUnavailable
              else match (Get(req, "trans_amt"), Get(req, "trans_type"))
                case (Some(amount), Some(merchantType)) =>
                  ReplyResult(env.complete(TradePrompt(amount, merchantType, userData)), env.loads)
                case _ => Raised
  }

  /** The discrepancy on a concrete event: a well-formed JSON request sent
      without a query string raises as written, where the intended handler goes
      on to its next check (here the unset database URI). */
  lemma NoQueryStringRaisesAsWritten(body: string, env: RouterEnv)
    requires body != "" && env.loads(body).Some? && !Given(env.mongoUri)
    ensures AnswerAsWritten(NullQuery, Handle(Event(NullQuery, Some(body)), env)) == Raised
    ensures Handle(Event(NullQuery, Some(body)), env) == MongoUnset
  {
  }
}
