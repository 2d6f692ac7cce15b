# effipay: a verified model of the request handlers

effipay recommends how to pay for a purchase across a user's credit cards. Its
logic sits in a handful of server routes and two AWS Lambda handlers. The
routes register and sign in users, store their reward preferences and Plaid
link, validate credentials for outside callers, and ask a language model how
to split a transaction. The Lambdas answer a split request and a card
recommendation from a user's stored data. The routes share a lazily opened
database connection and one user collection.

This project models those handlers in Dafny. Each outside call is a parameter
of the handler that makes it, so every property below holds for every answer
those services could give:

- the database and its reachability, and `bcrypt.hash`/`bcrypt.compare`;
- `jwt.sign`/`jwt.verify`;
- the completion provider, Plaid and the Exa client;
- `JSON.parse`/`json.loads`.

Module layout, one module per source file plus shared helpers:

- `Wrappers`, `Json`, `Http`: the optional type, a JSON value datatype with
  JavaScript truthiness, and responses with the shared CORS header set and
  the shared `OPTIONS` answer.
- `Mongo` (`client/lib/mongodb.ts`): the `{conn, promise}` cache as a class
  with a `Connect` method. `Connect` is proved against the step function
  `Step`. Lemmas about `Run` cover sequences of calls.
- `UserModel` (`client/lib/models/User.ts`): the user document, the
  `rewardType` enum, the defaults and what `save` validates.
- `AccountStore`: the collection as a class `UserStore` whose `users` sequence
  the routes update in place. `findOne` returns the first match. `save`
  enforces the unique email index. `findByIdAndUpdate` rewrites one record.
- `Credentials`, `BearerAuth`: the `{email, password}` body, and parsing of
  `Bearer <token>` followed by verification.
- `RegisterRoute`, `LoginRoute`, `IngestRoute`, `PreferencesRoute`,
  `PlaidExchangeRoute`: one module per route. Register, preferences and Plaid
  are methods that modify the store. Login and ingest are functions that only
  read it.
- `SplitValidation`, `SplitTransactionRoute`
  (`client/app/api/split-transaction/route.ts`): the reply check, the
  five-entry history window, and the handler. The handler also returns the
  external calls it made, in order.
- `LambdaEvent`, `TransactionRouter`, `Recommend`
  (`rest/lambda/*.py`): the event, the ordered early returns and the
  parse-or-wrap fallback.
- `Flows`: properties that span routes.

Three facts about the split-transaction route that a reader might not expect:

- A reply without `explanation` is not defaulted or refused. The parsed reply
  is returned unchanged.
- Split elements are not checked one by one (`cardId`, `reason` and the type of
  `amount` are never looked at), and `splits` may be empty. An empty array is
  accepted when the transaction amount is within 0.01 of 0.
- The `llmContext` object at route.ts:52-58, which would turn missing profile
  fields into empty containers, is never used. The prompt reads `user.cards`,
  `user.preferences`, `user.spendingCategories` and `user.spendingHistory`
  directly, so a missing field stays absent (`None`).

One deliberate departure: the route model uses the corrected split check
`CheckSplits`, not the check as written (see "## Findings"). The code as
written is modelled separately by `CheckSplitsAsWritten`.

## Model

| member | source | states |
|---|---|---|
| Mongo.Step | client/lib/mongodb.ts:20-43 | A cached `conn` is returned with the state unchanged. An attempt is started exactly when both fields are null. A pending promise is awaited, not replaced. Success caches the connection it returns. A failure resets the state to `{null, null}` and reports "Failed to connect to MongoDB". A cached connection is always the value its promise resolved to. |
| Mongo.Run | client/lib/mongodb.ts:20-43 | Consecutive calls keep the cache coherent and give one result per call. |
| Mongo.ConnectionIsNeverCleared | client/lib/mongodb.ts:21-23 | Once `conn` is set, every later call returns it, starts no attempt and leaves the state unchanged. |
| Mongo.FirstResolving | client/lib/mongodb.ts:25-34 | The index of the first attempt that would resolve: every earlier one rejects. |
| Mongo.RetriesUntilFirstSuccess | client/lib/mongodb.ts:29-42 | From `{null, null}`, each failure is retried with a new attempt. Calls before the first resolving attempt fail. That attempt is the last one ever started. It and every later call return its connection. |
| Mongo.ConnectionCache.constructor | client/lib/mongodb.ts:18 | The cache starts as `{conn: null, promise: null}`. |
| Mongo.ConnectionCache.Connect | client/lib/mongodb.ts:20-43 | The in-place update of the two fields matches `Step`, and a set `conn` is never cleared. |
| UserModel.DefaultPreferences | client/lib/models/User.ts:11-23 | `rewardType` defaults to "cashback", which is in the enum, and each of the four category flags defaults to false. |
| UserModel.NewUser | client/lib/models/User.ts:3-24 | A new document has the given email and password, unset `plaid` fields and the defaults. It passes the schema exactly when both required strings are non-empty. |
| AccountStore.FindByEmail | client/app/api/auth/login/route.ts:16 | `findOne({ email })` returns the first record with that email, and nothing exactly when none has it. |
| AccountStore.FindById | client/app/api/preferences/route.ts:26 | The lookup by `_id` returns a record with that id, and nothing exactly when none has it. |
| AccountStore.Apply | client/app/api/preferences/route.ts:26-31 | An update overwrites only the named field: `preferences` or `plaid`. Id, email and password are kept. |
| AccountStore.UpdateById | client/app/api/plaid/exchange_public_token/route.ts:46-52 | `findByIdAndUpdate` rewrites every record with the id and leaves every other record unchanged. |
| AccountStore.UpdateKeepsKeys | client/lib/models/User.ts:4 | An update keeps emails and ids unique and does not change which record an email lookup finds. |
| AccountStore.EmailLookupIgnoresOtherFields | client/lib/models/User.ts:4 | An email lookup depends only on the stored emails. |
| AccountStore.FindAppended | client/app/api/auth/register/route.ts:23-35 | A record appended under a new email is the one a later lookup of that email finds. |
| AccountStore.UserStore.constructor | client/lib/models/User.ts:3-24 | The collection starts empty, with unique emails and ids. |
| AccountStore.UserStore.Save | client/app/api/auth/register/route.ts:34-35 | `save` appends the new document, under a fresh id, exactly when it passes the schema and its email is not stored yet. Otherwise nothing changes. Unique emails and ids are kept. |
| AccountStore.UserStore.FindByIdAndUpdate | client/app/api/preferences/route.ts:26-31 | The collection becomes `UpdateById` of the old one. It is unchanged when no record has the id. It reports whether one matched. |
| BearerAuth.UntilSpace | client/app/api/preferences/route.ts:14 | The prefix before the first space: it contains no space and is followed by a space or the end. |
| BearerAuth.BearerToken | client/app/api/preferences/route.ts:10-14 | A token exists exactly when the header starts with "Bearer ". The token is the longest space-free text after that prefix, i.e. `split(' ')[1]`. |
| BearerAuth.BearerRoundTrip | client/app/api/preferences/route.ts:10-14 | `Bearer <t>` yields back `t` for every token `t` without a space. |
| BearerAuth.Authorize | client/app/api/plaid/exchange_public_token/route.ts:22-31 | The checks run in order: no token, then a verification that throws, then a missing `userId`, then the authorised id. |
| RegisterRoute.Post | client/app/api/auth/register/route.ts:8-43 | An unparsable body or a database failure gives 500. Missing fields give 400 "All fields are required". A stored email gives 400 "User already exists". For a new email, the handler answers 201 exactly when `bcrypt.hash` returns and the save accepts the record. Exactly one record is then appended, holding the hash and the next id. A hash that throws or a save the schema rejects gives 500. Every other answer leaves the store unchanged, and emails stay unique. |
| LoginRoute.Post | client/app/api/auth/login/route.ts:7-34 | Missing fields give 400. The handler answers 200 exactly when the email is stored, `bcrypt.compare` accepts the password against the stored hash, and `jwt.sign` returns. The token signs the record's id with a "7d" expiry. The handler answers 400 "Invalid credentials" exactly when the email is unknown or the password is wrong, the same answer for both. A comparison or signing that throws gives 500. The store is only read. |
| IngestRoute.Get | client/app/api/ingest/route.ts:19-64 | Every answer carries the CORS headers. Missing parameters give 400. The handler answers 200 "User validated successfully" exactly when the credentials match, and it issues no token. It answers 401 exactly when the user is unknown or the password is wrong, the same answer for both. A database failure or a comparison that throws gives 500. |
| PreferencesRoute.Post | client/app/api/preferences/route.ts:6-41 | The handler answers 401 "No token provided" exactly when the header is missing or not Bearer. It answers 401 "Invalid token" exactly when the token has no `userId`. A verification failure gives 500. Past authentication, an unreadable body or a database failure gives 500 "Failed to save preferences". On success only the `preferences` of the token's user are overwritten with the body's. Every other answer leaves the store unchanged. |
| PreferencesRoute.EnumKeptExactlyForValidRewardType | client/app/api/preferences/route.ts:26-31 | Since the update runs no validator, every record stays within the enum when the written reward type is in it. When it is not, the updated record leaves the enum. |
| PlaidExchangeRoute.LinkOf | client/app/api/plaid/exchange_public_token/route.ts:47-51 | The stored `plaid` fields are the exchange's `access_token`, `item_id` and `request_id`. |
| PlaidExchangeRoute.Post | client/app/api/plaid/exchange_public_token/route.ts:19-78 | Authentication comes before the body, the exchange and the write. The handler answers 401 "No token provided" exactly when the header is missing or not Bearer, and 401 "Invalid token" exactly when the token has no `userId`. Success writes only the token user's `plaid` field, forwards the access token, and answers `{success: true}` whether or not the forward fails. A verification failure, an unreadable body, a failed exchange or a database failure gives 500 "Failed to exchange public token" and changes nothing. |
| SplitValidation.AmountsOf | client/app/api/split-transaction/route.ts:117 | The amounts of the splits, in order. |
| SplitValidation.Total | client/app/api/split-transaction/route.ts:117 | The left fold of the amounts from 0. With no negative amount, the total is at least every amount, and so never negative. |
| SplitValidation.TotalAppend | client/app/api/split-transaction/route.ts:117 | The left-fold total of a concatenation is the sum of the two totals. |
| SplitValidation.CheckSplits | client/app/api/split-transaction/route.ts:112-120 | A `null` reply and a reply without a `splits` array are refused. A reply is accepted exactly when every amount and the transaction amount are numbers and the left-fold total is within 0.01 of the transaction amount. A mismatch reports a total that is out of tolerance. |
| SplitValidation.ToleranceEdges | client/app/api/split-transaction/route.ts:118 | A difference of exactly 0.01 either way is accepted, and anything beyond is refused. |
| SplitValidation.ToNumber | client/app/api/split-transaction/route.ts:117-118 | A numeric property converts to itself, and a missing one converts to `NaN`. |
| SplitValidation.SumAsWritten | client/app/api/split-transaction/route.ts:117 | The JavaScript `reduce` as written. It throws exactly when some split is `null`. |
| SplitValidation.CheckSplitsAsWritten | client/app/api/split-transaction/route.ts:112-120 | The check as written. A reply without a `splits` array is refused. It throws exactly when the reply or one of its splits is `null`. No amount is ever refused for not being a number. A reply is accepted exactly when it has a `splits` array, its JavaScript sum does not throw, and that sum does not exceed the tolerance in the JavaScript sense, where `NaN` never exceeds it. |
| SplitValidation.SumOfPricedSplits | client/app/api/split-transaction/route.ts:117 | With numeric amounts the JavaScript `reduce` is exactly the left-fold total. |
| SplitValidation.NaNAbsorbs | client/app/api/split-transaction/route.ts:117 | One non-numeric amount makes the JavaScript sum `NaN`. |
| SplitValidation.CheckAgreesOnNumbers | client/app/api/split-transaction/route.ts:112-120 | The check as written and the intended check agree whenever all amounts are numbers. |
| SplitValidation.MissingAmountPassesAsWritten | client/app/api/split-transaction/route.ts:117-118 | As written, a split without an `amount` is accepted whatever the transaction amount. The intended check refuses it. |
| SplitValidation.MissingTransactionAmountPassesAsWritten | client/app/api/split-transaction/route.ts:117-118 | As written, a transaction without an `amount` accepts every split list without `null`. The intended check refuses it. |
| SplitTransactionRoute.Recent | client/app/api/split-transaction/route.ts:93 | `slice(-5)`: the last min(5, n) entries, in their original order. |
| SplitTransactionRoute.RecentSlides | client/app/api/split-transaction/route.ts:93 | After appending an entry, the window depends only on the previous window. |
| SplitTransactionRoute.PromptFor | client/app/api/split-transaction/route.ts:80-93 | The prompt carries the transaction, the cards, the preferences, the spending categories and the recent history window, each as found on the record. |
| Http.Preflight | client/app/api/split-transaction/route.ts:24-26 | The `OPTIONS` answer of the split-transaction and ingest routes (ingest/route.ts:15-17) is an empty object with the CORS headers. |
| SplitTransactionRoute.Post | client/app/api/split-transaction/route.ts:28-145 | Every response carries the CORS headers. Missing fields give 400 before any call. Otherwise the calls run in order: connect, then look up the email (only after the connection succeeded), then ask the model at most once about `PromptFor`. An unknown email gives 404 and the model is not called. Empty content gives "No recommendation received from AI". The handler answers 200 exactly when the parsed reply passes the corrected `CheckSplits`, and then returns it unchanged with the transaction echoed. Unparsable or refused content gives "Failed to generate valid payment split recommendation". The handler answers 500 "Internal server error" exactly when the body is unreadable, the connection fails, the lookup or the completion call throws, or the completion has no choices. |
| LambdaEvent.QueryUserId | rest/lambda/recommend.py:11 | `user_id` is present exactly when the query string is given and has the key. |
| LambdaEvent.QueryUserIdAsWritten | rest/lambda/recommend.py:11 | The read as written (also transaction_router.py:10) raises exactly on a `None` query string. On every other event it agrees with `QueryUserId`. |
| LambdaEvent.ParseOrWrap | rest/lambda/recommend.py:73-76 | Content that parses is returned as parsed. Otherwise it becomes `{"recommendation": text}`, from which the raw text can be read back. |
| LambdaEvent.WrappingIsAmbiguous | rest/lambda/transaction_router.py:81-84 | A raw reply and a JSON reply that is the wrapping object itself give the same payload. |
| LambdaEvent.ReplyResult | rest/lambda/transaction_router.py:75-90 | A failed completion call escapes. Any text content gives 200 with the parse-or-wrap payload. No choice, or `null` content, gives 500 "LLM processing error: …". |
| TransactionRouter.Handle | rest/lambda/transaction_router.py:8-90 | The checks run in order, each an iff: missing body 400, invalid JSON 400, unset `MONGO_URI` 500, a failed lookup of the body's `user_id` (or no such key) 500, no user 404, OpenAI 500, Exa 500. Past them, a missing purchase field or a failed completion raises, and otherwise the result is `ReplyResult` on the prompt built from the body and the document. The query string is never consulted. |
| TransactionRouter.NoQueryStringRaisesAsWritten | rest/lambda/transaction_router.py:10-31 | A request with a JSON body and no query string raises as written. The intended handler goes on to its next check and answers 500 for an unset `MONGO_URI`. |
| Recommend.Handle | rest/lambda/recommend.py:9-83 | The checks run in order, each an iff: no `user_id` 400, unset `MONGO_URI` 500, an id that is not an ObjectId or a failed lookup 500, no user 404, OpenAI 500, Exa 500. Past them, a failed web search or completion raises, and otherwise the result is `ReplyResult` on the document's prompt. A `None` query string gets 400. |
| LambdaEvent.AnswerAsWritten | rest/lambda/recommend.py:11 | Both handlers as written (this line, and transaction_router.py:10): a `None` query string raises before anything else. Every other event gets the intended handler's answer. |
| Recommend.NoQueryStringRaisesAsWritten | rest/lambda/recommend.py:11-17 | A request without a query string raises as written, and the intended handler answers 400 "Missing user_id in request". |
| Flows.LoginAfterRegister | client/app/api/auth/login/route.ts:16-30 | Right after registration has appended `NewUser(id, email, hashed)`, signing in with a password that `bcrypt.compare` matches against `hashed` returns a token for the new record's id with a "7d" expiry, when signing succeeds. |
| Flows.SignedTokenAuthorizes | client/app/api/preferences/route.ts:10-18 | The token login issues, sent as `Bearer <token>`, authorises the user it was signed for, when the token has no space and `jwt.verify` returns the signed claims. |
| Flows.IngestAcceptsWhatLoginAccepts | client/app/api/ingest/route.ts:38-46 | When signing succeeds, the ingest check accepts exactly the credentials login accepts, over the same collection. |

## Left out

- Concurrency: concurrent callers of `connectToDatabase` awaiting the same promise are not modelled. Calls are sequential, and each call's attempt outcome is an input.
- Floating point: amounts are exact reals. Rounding in the JavaScript sum and in `Math.abs` is not modelled.
- SplitTransactionRoute.Post: the route uses the corrected `CheckSplits`, so replies the code accepts are refused with 500. These are a split with a missing or non-numeric amount, whose sum is `NaN` (the Finding below), and also a `null` or boolean amount, which JavaScript adds as 0 or 1 to a finite sum. A string split amount is not turned into `NaN` either: JavaScript concatenates it, so `{"amount":"100"}` against 100 gives `"0100" - 100`, which is 0, and passes. The transaction's own `amount` is also refused by the model whenever it is not a number, while the code compares after conversion: a `null`, boolean or numeric-string amount counts as 0, 0/1 or its value, and a missing amount makes the difference `NaN`, so every reply without a `null` split passes. The code as written is `SplitValidation.CheckSplitsAsWritten`, within the limits of `SplitValidation.ToNumber` below.
- IngestRoute.Get: the ingest and split-transaction routes import `{ User }` from `@/models/User` (ingest/route.ts:11, split-transaction/route.ts:4), a path that is not part of this model. Register and login use the default export of `client/lib/models/User.ts`. The model assumes both name the same collection, and `Flows.IngestAcceptsWhatLoginAccepts` rests on that assumption.
- SplitValidation.ToNumber: a string or array `amount` is taken to give `NaN`. JavaScript's string concatenation in `sum + split.amount` and numeric strings are not modelled.
- Mongoose casting: request bodies reach the handlers already typed (string email and password, a preferences record, a public-token value). Casting of other JSON types, and the `timestamps` fields, are not modelled.
- PreferencesRoute.Post: a body whose `preferences` object lacks `spendingCategories` is not distinguished from one that has it. The model always writes a full category record.
- I/O and services: hashing, signing, verification, the completion provider, Plaid, Exa and the database are parameters with no internal behaviour. Exception messages appended to Lambda errors are reduced to their fixed prefix.
- Prompt wording, the system message, `JSON.stringify` formatting and logging: only the data placed in the prompt is modelled.
- Python runtime: transaction_router.py:72 nests `request_body["trans_amt"]` inside a double-quoted f-string, which parses only on Python 3.12 and later. On an earlier runtime the module fails to import and no event is answered. The model assumes Python 3.12 or later.
- The module-level failures at load time are not modelled: `MONGODB_URI` unset (mongodb.ts:5-7) and `OPENAI_API_KEY` unset (split-transaction route.ts:14-16).
- `client/app/api/plaid/create_link_token/route.ts`, `rest/app.py`, `rest/config.py` and the UI pages are not part of this model. They hold a single Plaid call, Flask boilerplate and rendering.
- Recommend.Handle: the Exa search results are fetched and then ignored by the source. Only whether the search raises is modelled.

## Findings

| source | as written | input that shows it | evidently intended | confidence | as-written member | corrected member |
|---|---|---|---|---|---|---|
| client/app/api/split-transaction/route.ts:117-118 | the sum `sum + split.amount` becomes `NaN` when an amount is missing or non-numeric, and `Math.abs(NaN - x) > 0.01` is false, so the reply passes | transaction `{amount: 100}` and the reply `{"splits":[{"cardId":"c1","reason":"x"}]}` gives 200 | refuse replies whose amounts (or the transaction's) are not numbers | high; not executed | SplitValidation.MissingAmountPassesAsWritten | SplitValidation.CheckSplits |
| rest/lambda/recommend.py:11 | `event.get("queryStringParameters", {})` returns `None` when the key is present with `null`, and `.get("user_id")` then raises AttributeError | an API Gateway event for a URL without a query string (`"queryStringParameters": null`) makes the handler raise instead of answering | treat a `null` query string like a missing one and answer 400 "Missing user_id in request" | high; not executed | Recommend.NoQueryStringRaisesAsWritten | Recommend.Handle |
| rest/lambda/transaction_router.py:10 | the same unused read of `user_id` raises on a `null` query string before the body is looked at | a POST with a JSON body and `"queryStringParameters": null` raises where it would otherwise answer, e.g. 500 for an unset `MONGO_URI` | the body-driven handler answers regardless of the query string | high; not executed | TransactionRouter.NoQueryStringRaisesAsWritten | TransactionRouter.Handle |
