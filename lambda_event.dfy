/** What the two AWS Lambda handlers share: the API Gateway event, the handler
    result, the outside calls they make, and the final "parse the model's reply
    as JSON, else wrap the raw text" step. */
module LambdaEvent {
  import opened Wrappers
  import opened Json

  /** `event["queryStringParameters"]`: no such key, the key with `None` (how API
      Gateway encodes an empty query string), or the parameters. */
  datatype QueryParameters = NoQueryKey | NullQuery | Params(values: map<string, string>)

  /** The event; `body` is `None` when the key is missing or `None`. */
  datatype Event = Event(query: QueryParameters, body: Option<string>)

  /** A response body (`json.dumps` of it): a fixed error, an error whose text is
      a fixed prefix followed by the exception's message, or a JSON payload. */
  datatype LambdaBody = Error(message: string) | ErrorWithDetail(prefix: string) | Payload(value: Value)

  /** `Raised` is an exception that escapes the handler. */
  datatype LambdaResult = Raised | Returned(statusCode: nat, body: LambdaBody)

  /** `collection.find_one(..)` together with `MongoClient(..)`: one of them
      raises, no document matches, or the document found. */
  datatype DbLookup = DbRaises | NoDocument | Document(data: Value)

  /** `openai.chat.completions.create(..)`: it raises, returns no choice, or the
      first choice's content (`None` for `null`). */
  datatype Completion = CompletionRaises | NoChoices | Content(text: Option<string>)

  const MongoUriUnset: string := "MongoDB connection string (MONGO_URI) not configured"
  const MongoErrorPrefix: string := "Error connecting to MongoDB: "
  const LlmErrorPrefix: string := "LLM processing error: "
  const UserNotFound: string := "User financial data not found"

  /** `event.get("queryStringParameters", {}).get("user_id")` as written: `None`
      when it raises, since `None.get` is an AttributeError. */
  function QueryUserIdAsWritten(q: QueryParameters): (r: Option<Option<string>>)
    ensures r.None? <==> q.NullQuery?
    // on every other event it agrees with the intended reading
    ensures r.Some? ==> r.value == QueryUserId(q)
  {
    match q
    case NoQueryKey => Some(None)
    case NullQuery => None
    case Params(m) => Some(if "user_id" in m then Some(m["user_id"]) else None)
  }

  /** A handler as written, given the answer of its intended version: both
      handlers read the query string on their first line, which raises when it
      is `None`; on every other event the intended answer stands. */
  function AnswerAsWritten(q: QueryParameters, intended: LambdaResult): (r: LambdaResult)
    ensures q.NullQuery? ==> r.Raised?
    ensures !q.NullQuery? ==> r == intended
  {
    match QueryUserIdAsWritten(q)
    case None => Raised
    case Some(_) => intended
  }

  /** The intended reading: a query string that is absent or `None` has no `user_id`. */
  function QueryUserId(q: QueryParameters): (u: Option<string>)
    ensures u.Some? <==> q.Params? && "user_id" in q.values
    ensures u.Some? ==> u.value == q.values["user_id"]
  {
    if q.Params? && "user_id" in q.values then Some(q.values["user_id"]) else None
  }

  /** The object a raw, non-JSON reply is wrapped in. */
  function Wrapped(text: string): Value
  {
    Obj(map["recommendation" := Str(text)])
  }

  /** `json.loads(text)`, falling back to `{"recommendation": text}` on a decode error. */
  function ParseOrWrap(text: string, loads: string -> Option<Value>): (v: Value)
    ensures loads(text).Some? ==> v == loads(text).value
    ensures loads(text).None? ==> v == Wrapped(text) && Get(v, "recommendation") == Some(Str(text))
  {
    match loads(text)
    case Some(parsed) => parsed
    case None => Wrapped(text)
  }

  /** The fallback cannot be told apart from a reply that is itself the wrapping
      object: the client sees the same payload for both. */
  lemma WrappingIsAmbiguous(raw: string, json: string, loads: string -> Option<Value>)
    requires loads(raw).None? && loads(json) == Some(Wrapped(raw))
    ensures ParseOrWrap(raw, loads) == ParseOrWrap(json, loads)
  {
  }

  /** The last step of both handlers: read the first choice and parse or wrap it.
      Any text reply, JSON or not, gives status 200. */
  function ReplyResult(c: Completion, loads: string -> Option<Value>): (r: LambdaResult)
    ensures c.CompletionRaises? <==> r.Raised?
    ensures r.Returned? && r.statusCode == 200 <==> c.Content? && c.text.Some?
    ensures c.Content? && c.text.Some? ==> r == Returned(200, Payload(ParseOrWrap(c.text.value, loads)))
    // no choice, or a `null` content that `json.loads` refuses with a TypeError
    ensures c.NoChoices? || c == Content(None) ==> r == Returned(500, ErrorWithDetail(LlmErrorPrefix))
  {
    match c
    case CompletionRaises => Raised
    case NoChoices => Returned(500, ErrorWithDetail(LlmErrorPrefix))
    case Content(None) => Returned(500, ErrorWithDetail(LlmErrorPrefix))
    case Content(Some(text)) => Returned(200, Payload(ParseOrWrap(text, loads)))
  }
}
