/** `POST /api/split-transaction`: loads the user's profile, asks the language
    model how to split a transaction across cards, validates the reply and
    returns it. Every external call is a parameter, and the handler also returns
    the calls it made, in order. */
module SplitTransactionRoute {
  import opened Wrappers
  import opened Json
  import opened Http
  import opened SplitValidation

  /** What the profile lookup yields; the fields are those the route reads,
      `None` when the record has no such field. */
  datatype Profile = Profile(preferences: Option<Value>, cards: Option<Value>,
                             spendingCategories: Option<Value>, spendingHistory: Option<seq<Value>>)

  /** `User.findOne({ email })`: it throws, finds nothing, or finds a profile. */
  datatype Lookup = LookupThrows | NoUser | Found(profile: Profile)

  /** The data placed in the user message of the completion request (its wording
      and formatting are not modelled). */
  datatype Prompt = Prompt(transaction: Value, cards: Option<Value>, preferences: Option<Value>,
                           spendingCategories: Option<Value>, recentHistory: Option<seq<Value>>)

  /** The completion call: it throws, returns no choice, or returns the first
      choice's content (`None` for `null`). */
  datatype Completion = CompletionThrows | NoChoices | Reply(content: Option<string>)

  /** The external calls the handler makes. */
  datatype Call = ConnectDb | FindUser(email: Value) | Complete(prompt: Prompt)

  /** The outside world: whether `connectToDatabase` succeeds, the lookup, the
      completion provider and `JSON.parse` (`None` when it throws). */
  datatype Services = Services(connects: bool, findUser: Value -> Lookup,
                               complete: Prompt -> Completion, parse: string -> Option<Value>)

  datatype Outcome = Outcome(response: Response, calls: seq<Call>)

  /** How many spending-history entries go into the prompt. */
  const HistoryWindow: nat := 5

  /** `history.slice(-5)`: the last five entries, in their original order. */
  function Recent(history: seq<Value>): (r: seq<Value>)
    ensures |r| == if |history| < HistoryWindow then |history| else HistoryWindow
    ensures r == history[|history| - |r|..]
  {
    if |history| <= HistoryWindow then history else history[|history| - HistoryWindow..]
  }

  /** Appending an entry moves the window: the new window depends only on the old one. */
  lemma RecentSlides(history: seq<Value>, entry: Value)
    ensures Recent(history + [entry]) == Recent(Recent(history) + [entry])
  {
    var h := history + [entry];
    if |history| >= HistoryWindow {
      assert h[|h| - HistoryWindow..] == history[|history| - HistoryWindow + 1..] + [entry];
      assert Recent(history)[1..] == history[|history| - HistoryWindow + 1..];
    }
  }

  /** The prompt for a transaction and a found profile. */
  function PromptFor(transaction: Value, p: Profile): (q: Prompt)
    ensures q.transaction == transaction && q.cards == p.cards && q.preferences == p.preferences
    ensures q.spendingCategories == p.spendingCategories
    ensures p.spendingHistory.None? ==> q.recentHistory.None?
    ensures p.spendingHistory.Some? ==> q.recentHistory == Some(Recent(p.spendingHistory.value))
  {
    Prompt(transaction, p.cards, p.preferences, p.spendingCategories,
           if p.spendingHistory.Some? then Some(Recent(p.spendingHistory.value)) else None)
  }

  const FieldsRequired: Response := Response(400, Message("error", "Email and transaction data are required"), CorsHeaders)
  const UserNotFound: Response := Response(404, Message("error", "User not found"), CorsHeaders)
  const NoRecommendation: Response := Response(500, Message("error", "No recommendation received from AI"), CorsHeaders)
  const InvalidRecommendation: Response :=
    Response(500, Message("error", "Failed to generate valid payment split recommendation"), CorsHeaders)
  const InternalError: Response := Response(500, Message("error", "Internal server error"), CorsHeaders)

  lemma ErrorsDistinct()
    ensures InternalError != NoRecommendation && InternalError != InvalidRecommendation
    ensures NoRecommendation != InvalidRecommendation && InternalError != UserNotFound
  {
    assert InternalError.body.fields["error"] != NoRecommendation.body.fields["error"];
    assert InternalError.body.fields["error"] != InvalidRecommendation.body.fields["error"];
    assert NoRecommendation.body.fields["error"] != InvalidRecommendation.body.fields["error"];
  }

  /** The success response: the reply as parsed and the transaction echoed back. */
  function Recommended(recommendation: Value, transaction: Value): Response
  {
    Response(200, Obj(map["success" := Bool(true), "splitRecommendation" := recommendation,
                          "originalTransaction" := transaction]), CorsHeaders)
  }

  /** `email` and `transactionData` of a body that parsed to something other than `null`. */
  datatype SplitRequest = SplitRequest(email: Option<Value>, transaction: Option<Value>)

  function ReadBody(body: Option<Value>): Option<SplitRequest>
  {
    if body.None? || body.value.Null? then None
    else Some(SplitRequest(Get(body.value, "email"), Get(body.value, "transactionData")))
  }

  /** Both fields pass the `!email || !transactionData` guard. */
  predicate Filled(r: SplitRequest)
  {
    Present(r.email) && Present(r.transaction)
  }

  /** The handler. `body` is what `request.json()` returns (`None` when it throws). */
  function Post(body: Option<Value>, s: Services): (o: Outcome)
    ensures o.response.headers == CorsHeaders
    // an unreadable body or missing field stops the request before any external call
    ensures ReadBody(body).None? ==> o == Outcome(InternalError, [])
    ensures ReadBody(body).Some? && !Filled(ReadBody(body).value) ==> o == Outcome(FieldsRequired, [])
    ensures o.calls == [] <==> ReadBody(body).None? || !Filled(ReadBody(body).value)
    // otherwise the database is reached first, then the user is looked up by email
    ensures o.calls != [] ==> o.calls[0] == ConnectDb && ReadBody(body).Some?
    ensures |o.calls| >= 2 ==> o.calls[1] == FindUser(ReadBody(body).value.email.value)
    // the lookup runs only once the connection succeeded
    ensures o.calls != [] ==> (s.connects <==> |o.calls| >= 2)
    // the catch-all 500: an unreadable body, a failed connection, a lookup or a
    // completion call that throws, or a completion without choices
    ensures o.response == InternalError <==>
              || ReadBody(body).None?
              || |o.calls| == 1
              || (|o.calls| == 2 && s.findUser(o.calls[1].email).LookupThrows?)
              || (|o.calls| == 3 && o.calls[2].Complete? &&
                  (s.complete(o.calls[2].prompt).CompletionThrows? ||
                   s.complete(o.calls[2].prompt).NoChoices?))
    // an unknown email gets 404 and the model is never asked
    ensures o.response == UserNotFound <==>
              |o.calls| == 2 && s.connects && s.findUser(o.calls[1].email) == NoUser
    ensures o.response == UserNotFound ==> forall c :: c in o.calls ==> !c.Complete?
    // the model is asked at most once, about the found profile and the transaction
    ensures |o.calls| <= 3
    ensures |o.calls| == 3 <==>
              |o.calls| >= 2 && s.connects && s.findUser(o.calls[1].email).Found?
    ensures |o.calls| == 3 ==>
              o.calls[2] == Complete(PromptFor(ReadBody(body).value.transaction.value, s.findUser(o.calls[1].email).profile))
    // empty content
    ensures |o.calls| == 3 ==>
              (o.response == NoRecommendation <==>
                 s.complete(o.calls[2].prompt).Reply? &&
                 (s.complete(o.calls[2].prompt).content.None? || s.complete(o.calls[2].prompt).content.value == ""))
    // success: the parsed reply passed the split check and is returned exactly as parsed
    ensures o.response.status == 200 <==>
              && |o.calls| == 3
              && var reply := s.complete(o.calls[2].prompt);
              && reply.Reply? && reply.content.Some? && reply.content.value != ""
              && s.parse(reply.content.value).Some?
              && CheckSplits(s.parse(reply.content.value).value, Get(o.calls[2].prompt.transaction, "amount")).Accepted?
    ensures o.response.status == 200 ==>
              o.response == Recommended(s.parse(s.complete(o.calls[2].prompt).content.value).value,
                                        ReadBody(body).value.transaction.value)
    // content that does not parse, or parses to a reply the check refuses
    ensures o.response == InvalidRecommendation <==>
              && |o.calls| == 3
              && var reply := s.complete(o.calls[2].prompt);
              && reply.Reply? && reply.content.Some? && reply.content.value != ""
              && (s.parse(reply.content.value).None? ||
                  CheckSplits(s.parse(reply.content.value).value, Get(o.calls[2].prompt.transaction, "amount")).Rejected?)
  {
    ErrorsDistinct();
    match ReadBody(body)
    case None => Outcome(InternalError, [])
    case Some(r) =>
      if !Filled(r) then Outcome(FieldsRequired, [])
      else if !s.connects then Outcome(InternalError, [ConnectDb])
      else
        var email, transaction := r.email.value, r.transaction.value;
        var lookedUp := [ConnectDb, FindUser(email)];
        match s.findUser(email)
        case LookupThrows => Outcome(InternalError, lookedUp)
        case NoUser => Outcome(UserNotFound, lookedUp)
        case Found(profile) =>
          var prompt := PromptFor(transaction, profile);
          var asked := lookedUp + [Complete(prompt)];
          match s.complete(prompt)
          case CompletionThrows => Outcome(InternalError, asked)
          case NoChoices => Outcome(InternalError, asked)
          case Reply(content) =>
            if content.None? || content.value == "" then Outcome(NoRecommendation, asked)
            else match s.parse(content.value)
              case None => Outcome(InvalidRecommendation, asked)
              case Some(parsed) =>
                if CheckSplits(parsed, Get(transaction, "amount")).Accepted? then
                  Outcome(Recommended(parsed, transaction), asked)
                else Outcome(InvalidRecommendation, asked)
  }
}
