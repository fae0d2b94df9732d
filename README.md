# Glucose-monitoring backend: a Dafny model of its service logic

This project models the decision logic of a NestJS backend for glucose monitoring, and proves properties of it. The backend stores glucose readings, authenticates devices by API key, asks an external forecasting model for predictions and saves them, recommends meals from a food catalog, manages accounts and runs assistant chats. The modelled parts are:

- the **meal recommendation engine** and its controller: GI band from the trend, allergen parsing, per-meal quotas, nutrition reshaping, the cut to ten, and the 400/500 error mapping;
- the **reading store**: create, newest-first listing with a limit, and latest reading;
- **device-key authentication**: the guard's key selection, its two Unauthorized failures and the `request.user` write; the placeholder lookup; hex key generation;
- **prediction persistence**: the outbound request, the response check, the save, the three-way error classification, and the newest-first query;
- **accounts**: the users service's table operations, and `validateUser`, `login` and `signUp`;
- **chats**: creation, listing, reading, sending a message (user message, assistant answer, first-message title) and deletion;
- the **request validators** (DTOs) as predicates over parsed JSON bodies.

Databases are in-memory sequences in insertion order. "`createdAt` descending" is the reverse of that order, and a catalog query without an order is catalog order.

Foreign calls are parameters:

| foreign call | in the model |
|---|---|
| `bcrypt.hash` / `bcrypt.compare` | `hash` / `compare` function parameters |
| `jwtService.sign` | `sign` |
| `crypto.randomBytes(32)` | a 32-byte `random` argument |
| the HTTP call to the model server | a `transport` function returning `Responded(body) \| HttpError(data) \| OtherError` |
| the OpenAI call | an `assistant` function returning an `AiResult` |
| row identifiers and clocks | `id` and `now` arguments |

Request bodies and HTTP answers are `Common.JsValue`, a JSON value. The JavaScript operators the services use are written out over it: truthiness, `.`, `?.`, `===` and template-string conversion.

Modules, one per source concern:

| module | file | models |
|---|---|---|
| `Common` | common.dfy | errors, results, JSON values and JavaScript operators |
| `Text` | text.dfy | `split` and `trim` |
| `Users` | users.dfy | the users service and its table |
| `Auth` | auth.dfy | the auth service |
| `Validators` | validators.dfy | the shared class-validator rules |
| `GlucoseValidation` | glucose_dto.dfy | the glucose DTOs |
| `SignUpValidation` | signup_dto.dfy | the sign-up DTO and the `Match` validator |
| `PredictionValidation` | prediction_dto.dfy | the prediction DTO |
| `Glucose` | glucose.dfy | the glucose service |
| `ApiKeys` | api_key.dfy | the key service and the guard |
| `Predictions` | predictions.dfy | the predictions service |
| `Recommendation` | recommendation.dfy | the recommendation service and controller |
| `Chats` | chat.dfy | the chat service |

Code that changes state is a class whose methods are specified against pure functions:

- `Users.UserTable`;
- `Glucose.ReadingTable`;
- `Predictions.PredictionStore`;
- `Chats.ChatStore`;
- `ApiKeys.Request` (the `request.user` field).

The meal-type loop of the recommendation service is a `for` loop. It is proved equal to the recursive specification `Recommendation.Recommend`, and the lemmas about the recommendations are stated over that function.

## Model

| member | source | states |
|---|---|---|
| Recommendation.GetRecommendations | src/recommendation/recommendation.service.ts:12-75 | The loop over breakfast, lunch, dinner and snack, appending one reshaped block per meal type and cutting to ten, yields exactly `Recommend`. The result does not depend on `trend`. |
| Recommendation.MissingGlucoseData | src/recommendation/recommendation.service.ts:13-29 | The service fails exactly when the user is absent, has no reading or has no forecast point, and the error is "Missing glucose data". |
| Recommendation.LatestReading | src/recommendation/recommendation.service.ts:16-31 | The chosen reading belongs to the user and has the largest timestamp of that user's readings; there is none exactly when the user has no readings. |
| Recommendation.LatestForecast | src/recommendation/recommendation.service.ts:20-32 | The chosen forecast point belongs to the user and has the latest `predictedFor`; there is none exactly when the user has no points. |
| Recommendation.ForecastsOfAppend | src/recommendation/recommendation.service.ts:20-23 | Another user's forecast point does not change a user's points, and a new point of the user comes last. |
| Recommendation.NewestIndex | src/recommendation/recommendation.service.ts:16-23 | The position found holds the largest key, and no earlier position holds an equal key. |
| Recommendation.ChooseBand | src/recommendation/recommendation.service.ts:34-35 | The band is [0,55] exactly when the forecast is strictly above the reading, and [56,70] otherwise, equality included. |
| Recommendation.ParseAllergens | src/recommendation/recommendation.service.ts:36 | The list has one trimmed entry per comma-separated piece. A missing or empty field gives `[""]`. |
| Recommendation.AllergenEntries | src/recommendation/recommendation.service.ts:36 | No allergen entry contains a comma, and each is already trimmed. |
| Recommendation.NoAllergiesExcludeEmptyTag | src/recommendation/recommendation.service.ts:36-52 | With no allergies on file, a food listing the empty allergen still never passes the query. |
| Recommendation.Matching | src/recommendation/recommendation.service.ts:44-53 | Keeps exactly the catalog foods in the band, of the meal type, with no allergen in the user's list. |
| Recommendation.MatchingAppend | src/recommendation/recommendation.service.ts:44-53 | The query keeps catalog order: over two consecutive stretches of the catalog it is the query over the first, then over the second. |
| Recommendation.MatchingSingle | src/recommendation/recommendation.service.ts:45-53 | A single food is kept exactly when it passes the `where`. |
| Recommendation.Block | src/recommendation/recommendation.service.ts:42-69 | A block holds at most its quota (3, or 4 for snacks) of reshaped catalog foods, each passing the query. |
| Recommendation.BlockIsFirstMatches | src/recommendation/recommendation.service.ts:42-69 | A block holds min(quota, matches) foods. Entry i is the i-th matching catalog food, reshaped. |
| Recommendation.Shape | src/recommendation/recommendation.service.ts:57-69 | `nutrition` holds the food's own calories, protein, fat and sugar, and the catalog row can be recovered from the result. |
| Recommendation.ShapeUnshape | src/recommendation/recommendation.service.ts:57-69 | Reshaping is invertible from the other side as well: it is a bijection. |
| Recommendation.RecommendedFoodsQualify | src/recommendation/recommendation.service.ts:34-55 | Every recommended food is a reshaped catalog food of one of the four meal types. Its GI is in [0,55] when the forecast is above the reading and in [56,70] otherwise, and it has no allergen from the user's list. |
| Recommendation.RecommendWhenLoaded | src/recommendation/recommendation.service.ts:27-74 | Once the user, a reading and a forecast point are found, the answer is the first ten foods of the four blocks. The band is `ChooseBand` of the latest reading and the latest forecast point, and the allergens are `ParseAllergens` of the profile's field. |
| Recommendation.RecommendErrorIsMissingData | src/recommendation/recommendation.service.ts:27-29 | The service fails exactly when the context cannot be loaded, and its one error is "Missing glucose data". |
| Recommendation.BlocksStep | src/recommendation/recommendation.service.ts:41-72 | One turn of the meal-type loop appends the block of the next meal type. |
| Recommendation.TopTenQuota | src/recommendation/recommendation.service.ts:38-74 | After the cut to ten, no meal type exceeds its quota, and no food of another meal type appears. |
| Recommendation.RecommendationQuota | src/recommendation/recommendation.service.ts:38-74 | At most ten foods in total, at most 3 per meal type (4 snacks), and none of any other meal type. |
| Recommendation.RecommendationOrder | src/recommendation/recommendation.service.ts:38-71 | The foods come in meal order: breakfast, lunch, dinner, snack. |
| Recommendation.BlocksInMealOrder | src/recommendation/recommendation.service.ts:38-71 | The four blocks are concatenated breakfast first. |
| Recommendation.FullCatalogGivesTen | src/recommendation/recommendation.service.ts:42-74 | When every meal type has enough matching foods, the answer is 3 breakfast, 3 lunch, 3 dinner and 1 snack: the cut to ten drops three snacks. |
| Recommendation.RecommendationsEndpoint | src/recommendation/recommendation.controller.ts:9-22 | A missing or empty userId gives 400 "userId required" without consulting the service. A service error gives 500 "Failed to generate recommendations: " plus its message. An answer passes through unchanged. |
| Recommendation.EndpointStatuses | src/recommendation/recommendation.controller.ts:11-22 | The endpoint fails only with 400 or 500; missing glucose data reads "Failed to generate recommendations: Missing glucose data". |
| Glucose.ReadingTable.CreateReading | src/glucose/glucose.service.ts:10-29 | An unknown user gives NotFound "User with ID … not found" and adds nothing. Otherwise exactly one reading with that user and value is appended, stamped by the store's clock; the body's timestamp is not stored. |
| Glucose.ReadingTable.GetUserReadings | src/glucose/glucose.service.ts:31-49 | NotFound exactly when the user is unknown. Otherwise the answer is the newest-first page (`NewestFirst`) of the user's readings, with limit 10 by default. |
| Glucose.ListingIsTheUsers | src/glucose/glucose.service.ts:42-46 | A listing holds min(count, limit) readings (limit 10 by default). Entry i is the user's i-th newest reading, and every entry is a stored reading of that user. |
| Glucose.ReadingTable.GetLatestReading | src/glucose/glucose.service.ts:51-72 | An unknown user gives NotFound, and so does a user with no readings ("No glucose readings found for user with ID …"). Otherwise the answer is the user's most recently stored reading. |
| Glucose.LatestHeadsListing | src/glucose/glucose.service.ts:42-65 | When the latest reading exists, it is the first element of every listing with a positive limit. |
| Glucose.NewReadingListedFirst | src/glucose/glucose.service.ts:21-65 | A newly stored reading becomes its user's latest and leaves other users' readings unchanged. |
| Glucose.ReadingsOf | src/glucose/glucose.service.ts:42-45 | Selects exactly the user's readings. |
| ApiKeys.GetUserByApiKey | src/glucose/user-api-key.service.ts:24-41 | A user is found exactly for the key `'test-api-key-for-development'` when the table is non-empty, and it is the first row; every other key gives null. |
| ApiKeys.OnlyDevKeyResolves | src/glucose/user-api-key.service.ts:35-40 | Any other string, and any non-string, resolves to nobody. |
| ApiKeys.HexEncode | src/glucose/user-api-key.service.ts:13 | Two lowercase hex digits per byte, high half first. |
| ApiKeys.HexRoundTrip | src/glucose/user-api-key.service.ts:13 | Decoding the hex text gives back the bytes. |
| ApiKeys.HexEncodeInjective | src/glucose/user-api-key.service.ts:13 | Distinct byte strings give distinct keys. |
| ApiKeys.GenerateApiKeyForUser | src/glucose/user-api-key.service.ts:11-22 | The key is 64 lowercase hex characters and decodes to the 32 input bytes. |
| ApiKeys.GeneratedKeyNeverResolves | src/glucose/user-api-key.service.ts:13-35 | A generated key is never the development key, so it never authenticates. |
| ApiKeys.SelectKey | src/glucose/guards/api-key.guard.ts:13-19 | The key is a non-empty `x-api-key` header, else the body's `apiKey`. |
| ApiKeys.Authenticate | src/glucose/guards/api-key.guard.ts:19-33 | With no truthy key: Unauthorized "API key is required". With a key that resolves to nobody: Unauthorized "Invalid API key". Otherwise the caller `{userId: user.id, email: user.email}`. |
| ApiKeys.HeaderTakesPrecedence | src/glucose/guards/api-key.guard.ts:13-19 | With a non-empty header, the body's key has no influence. |
| ApiKeys.MissingKeyNeedsNoLookup | src/glucose/guards/api-key.guard.ts:21-26 | Without a key the outcome does not depend on the user table: it fails before any lookup. |
| ApiKeys.AcceptedOnlyWithDevKey | src/glucose/guards/api-key.guard.ts:19-33 | Only the development key, with at least one user, gets through. The caller is then the first user. |
| ApiKeys.CanActivate | src/glucose/guards/api-key.guard.ts:9-36 | On success: returns true and sets `request.user`. On failure: throws and leaves `request.user` as it was. It never returns false. |
| GlucoseValidation.ValueRuleIsClosedRange | src/glucose/dto/create-bulk-glucose.dto.ts:5-9 | A reading value is valid exactly when it is a number in [0,1000]. |
| GlucoseValidation.ValueRuleBoundaries | src/glucose/dto/create-bulk-glucose.dto.ts:7-8 | 0 and 1000 are accepted, values just outside are refused, and so is numeric text. |
| GlucoseValidation.SingleAndBulkValueRuleAgree | src/glucose/dto/create-glucose-api-key.dto.ts:8-16 | The single-reading body applies the same value and timestamp rules as a bulk element. |
| GlucoseValidation.OneBadReadingRejectsAll | src/glucose/dto/create-bulk-glucose.dto.ts:21-24 | One invalid element rejects the whole payload, on both bulk routes. |
| GlucoseValidation.NestedArraysSteppedInto | src/glucose/dto/create-bulk-glucose.dto.ts:21-24 | `@ValidateNested` steps into a nested array. An empty one, or one holding valid readings (also inside a further array), passes. A primitive fails, whether it is the element itself or inside a nested array. |
| GlucoseValidation.EmptyReadingsAccepted | src/glucose/dto/bulk-glucose-api-key.dto.ts:5-12 | An empty `readings` array is accepted; validity then depends only on `userId` or `apiKey` being a non-empty string. |
| Validators.NoCoercion | src/glucose/dto/create-bulk-glucose.dto.ts:5-9 | The rules check types strictly: text never passes a numeric rule. |
| PredictionValidation.ToRequest | src/prediction/prediction.dto.ts:11-26 | A valid body has exactly 36 and 5 numbers, element for element those of the body, and a string `userId`. |
| PredictionValidation.WrongShapesRejected | src/prediction/prediction.dto.ts:12-25 | A wrong length or a non-number element, in `xSeq` or in `xStatic`, makes the body invalid, and so does a non-string `userId`. |
| Predictions.ModelApiUrl | src/prediction/predictions.service.ts:19-28 | The address is the configured `MODEL_API_URL`, else the default as written, `http://localhost:5000/predict`. |
| Predictions.OutboundRequest | src/prediction/predictions.service.ts:34-40 | The POST goes to `modelApiUrl + '/predict'` with `{x_seq, x_static, user_id}` unchanged. |
| Predictions.AsWrittenDefaultDoublesPath | src/prediction/predictions.service.ts:24-39 | Without a configured address, the store as written POSTs to `http://localhost:5000/predict/predict`. |
| Predictions.DefaultReachesPredictRoute | src/prediction/predictions.service.ts:24-39 | With the default corrected to `http://localhost:5000`, the POST goes to `http://localhost:5000/predict`. A configured address is used as before. |
| Predictions.CheckResponse | src/prediction/predictions.service.ts:44-51 | Accepts exactly a body with an array `prediction` and returns that array. A null or absent body raises a TypeError. Any other body gives BadRequest "Invalid prediction response from model API". |
| Predictions.Classify | src/prediction/predictions.service.ts:67-86 | A BadRequest is rethrown unchanged. A client error with a response gives BadRequest "Model API error: " plus `data?.error`, or "Unknown error". Anything else gives InternalServerError "Failed to process glucose prediction". |
| Predictions.ModelErrorDetail | src/prediction/predictions.service.ts:79 | A falsy `error` field gives "Unknown error"; a non-empty text `error` is used as it is. |
| Predictions.ValidAnswerSaved | src/prediction/predictions.service.ts:53-66 | A well-formed answer gives one record of this user whose values are the answer's array. |
| Predictions.MalformedAnswerRejected | src/prediction/predictions.service.ts:44-75 | An answer without an array `prediction` ends in that BadRequest. |
| Predictions.FailuresClassified | src/prediction/predictions.service.ts:73-85 | Every failure is a BadRequest or an InternalServerError. An HTTP error maps to "Model API error: …". A transport failure, or a null or absent body, maps to the 500. |
| Predictions.ServerDetailIsDropped | src/prediction/predictions.service.ts:77-80 | The model server's `{detail: …}` error body (src/prediction/main.py:122) yields "Model API error: Unknown error". |
| Predictions.PredictionStore.PredictAndSave | src/prediction/predictions.service.ts:30-87 | On success one record is appended and its `{userId, values, createdAt}` returned. On any failure nothing is saved and the classified error is thrown. |
| Predictions.PredictionStore.GetUserPredictions | src/prediction/predictions.service.ts:89-104 | That user's records, newest first, mapped to `{userId, values, createdAt}`. There are min(count, limit) of them (limit 10 by default); a limit of 0 means no limit. |
| Predictions.RecordsOfAppend | src/prediction/predictions.service.ts:93-95 | Another user's record does not change a user's records, and a new record of the user comes last. |
| Predictions.PredictionsAreTheUsers | src/prediction/predictions.service.ts:91-103 | A positive limit bounds the answer, and every answer is the response of a stored record of that user. |
| Auth.ValidateUser | src/auth/auth.service.ts:14-21 | Null when no user has the email. A result is a user with that email whose stored hash matched, without its password. |
| Auth.ValidateUserExact | src/auth/auth.service.ts:15-20 | With unique emails, the result is that user without password exactly when the password matches, and null otherwise. |
| Auth.Login | src/auth/auth.service.ts:23-28 | The token is `sign({email: user.email, sub: user.id})`. |
| Auth.SignUp | src/auth/auth.service.ts:31-51 | A registered email gives Conflict "User with this email already exists" and creates nothing. Otherwise one user is added with `hash(password)` stored and `confirmPassword` dropped, and returned without its password. |
| Users.WithoutPassword | src/auth/auth.service.ts:49-50 | Drops only the password: putting it back gives the original record. |
| Users.UserTable.Create | src/users/users.service.ts:19-36 | Stores the data unchanged, with no hashing. A duplicate email fails with the unique-constraint error and stores nothing. |
| Users.UserTable.FindOne | src/users/users.service.ts:38-40 | The user with that id, or null exactly when there is none. |
| Users.UserTable.FindByEmail | src/users/users.service.ts:42-44 | The user with that email, or null exactly when there is none. |
| Users.LookupIdUnique | src/users/users.service.ts:38-40 | With unique ids, the user found is the one with that id. |
| Users.HashPasswordIfSet | src/users/users.service.ts:61-63 | Only a non-empty password is replaced by its hash. An empty or absent password leaves the data unchanged. |
| Users.ApplyPatch | src/users/users.service.ts:64 | Every field is stated: each supplied field takes the supplied value, each other field keeps its value, and the id never changes. |
| Users.ApplyEmptyPatch | src/users/users.service.ts:64 | An update supplying nothing changes nothing. |
| Users.ApplyPatchIdempotent | src/users/users.service.ts:64 | Applying the same update twice equals applying it once. |
| Users.UserTable.Update | src/users/users.service.ts:46-65 | An unknown id gives "Record to update not found." An email taken by another user gives the unique-constraint error. Otherwise only that row changes, to the patched row (password hashed when non-empty). |
| Users.UserTable.Remove | src/users/users.service.ts:67-69 | An unknown id gives "Record to delete does not exist." Otherwise exactly that row is removed and every other row kept. |
| Users.RemoveAtFacts | src/users/users.service.ts:67-69 | Removing one row keeps the other rows and the unique constraints. |
| Users.UserTable.FindAll | src/users/users.service.ts:9-16 | Every user; a database failure gives "Failed to retrieve users". |
| SignUpValidation.MatchConstraints | src/auth/dto/match.decorator.ts:3-9 | `Match(property)` registers that property as its only constraint. |
| SignUpValidation.MatchIsStrictEquality | src/auth/dto/match.decorator.ts:12-16 | `validate` holds exactly when the value equals the related property and is not an array or object (`===`). Values of different types never match. |
| SignUpValidation.MatchDefaultMessage | src/auth/dto/match.decorator.ts:17-19 | The message is "<property> must match <constraint>". |
| SignUpValidation.AsWrittenAcceptsMismatchedPasswords | src/auth/dto/signup.dto.ts:13-15 | As written, a body whose `confirmPassword` differs from `password` is accepted. |
| SignUpValidation.ValidSignUpPasswordsAgree | src/auth/dto/signup.dto.ts:9-15 | As intended, an accepted body has equal passwords of at least 8 characters, and the mismatched body is refused. |
| SignUpValidation.OptionalFieldsMayBeAbsent | src/auth/dto/signup.dto.ts:17-58 | A body with only `email`, `password`, `confirmPassword`, `name` and `sex` is valid: the other fields are optional. |
| Chats.TitleOrDefault | src/chat/chat.service.ts:18 | The title is `dto.title` when non-empty, else "New Conversation". |
| Chats.TitleFrom | src/chat/chat.service.ts:91 | At most 33 characters. A message of up to 30 characters is the title as it is; a longer one becomes its first 30 characters plus "...". |
| Chats.ChatStore.CreateChat | src/chat/chat.service.ts:14-21 | Appends one chat of that user with that title, and touches no message. |
| Chats.ChatsOfAppend | src/chat/chat.service.ts:23-25 | Another user's chat does not change a user's chats, and a new chat of the user comes last. |
| Chats.ChatStore.GetChats | src/chat/chat.service.ts:23-34 | The user's chats newest first, each with at most its latest message. |
| Chats.ChatStore.GetChat | src/chat/chat.service.ts:36-45 | Null unless the user owns such a chat. Otherwise the chat with its messages, oldest first. |
| Chats.History | src/chat/chat.service.ts:68-72 | The assistant sees the prior messages followed by the new user message. |
| Chats.ChatStore.SendMessage | src/chat/chat.service.ts:47-98 | A chat that is missing or not owned gives "Chat not found" and changes nothing. Otherwise the user message is appended, then the answer ("No response" when it has no content). The title comes from the message only when the chat had no messages. An assistant failure leaves the user message stored. |
| Chats.ChatStore.DeleteChat | src/chat/chat.service.ts:100-105 | Removes exactly the chats with that id and owner, and always returns `{success: true}`. |
| Chats.FindChatExact | src/chat/chat.service.ts:49-52 | With unique ids, a chat is found exactly when one with that id and owner exists. |
| Chats.DeleteRemovesOnlyThatChat | src/chat/chat.service.ts:100-103 | After a delete, that chat is no longer found and every other chat is kept. |
| Chats.OwnershipIsolation | src/chat/chat.service.ts:36-56 | Another user can neither read nor delete someone else's chat: `getChat` and `sendMessage` find nothing, and `deleteChat` (lines 100-103) removes nothing. |
| Chats.FirstExchangeView | src/chat/chat.service.ts:59-84 | After the first exchange the chat's messages are the user message, then the answer. |
| Text.TrimSpec | src/recommendation/recommendation.service.ts:36 | `trim` returns a contiguous part of its input: what it removes on either side is whitespace, and the result neither starts nor ends with whitespace. |
| Text.TrimIdempotent | src/recommendation/recommendation.service.ts:36 | Trimming twice equals trimming once. |
| Text.JoinSplit | src/recommendation/recommendation.service.ts:36 | Joining the pieces of `split(',')` with commas gives the text back. |
| Text.SplitPiecesHaveNoSeparator | src/recommendation/recommendation.service.ts:36 | No piece of `split(',')` contains a comma. |
| Text.SplitWithoutSeparator | src/recommendation/recommendation.service.ts:36 | A text without a comma splits into itself alone. |
| Common.Prop | src/prediction/predictions.service.ts:45 | Reading a property of null or undefined raises a TypeError; a missing property is undefined. |

## Left out

- The model server and the assistant: src/prediction/main.py, src/prediction/gLmodel.py and src/chat/openai.service.ts are foreign code. Their answers are inputs of `PredictAndSave` and `SendMessage`.
- HTTP transport: the axios call and its 5000 ms timeout become the `transport` parameter.
- Configuration access: the constructor reads `MODEL_API_URL` with `configService.post`, which ConfigService does not have. The model reads the setting as an optional constructor argument with the source's default, `http://localhost:5000/predict`, as `get` would give.
- JSON numbers: the model holds numbers as exact reals. It does not model the rounding to doubles of `JSON.parse`: `1000.00000000000001` parses to `1000` and passes `@Max(1000)`, where the model's exact value fails. Nor does it model an out-of-range literal such as `1e400` parsing to Infinity, which `@IsNumber()` rejects but the model accepts as a number.
- Hashing, signing and randomness: bcrypt, the JWT signer and `crypto.randomBytes` are parameters. `console.log` and the Logger write nothing the model observes.
- Email syntax: `@IsEmail()` is the abstract `isEmail` predicate.
- Pure-delegation code: the controllers other than the recommendation controller only forward their arguments. src/main.ts and the module files are wiring.
- The global `whitelist: true` pipe: it strips the `userId` that `createReading` reads, because CreateGlucoseDto does not declare it. `CreateGlucoseInput` carries the `userId` the service expects.
- Glucose.ReadingTable.GetUserReadings: takes the limit as a natural number. ParseIntPipe would also let a negative limit through, which Prisma reads as "from the end".
- Predictions.PredictionStore.GetUserPredictions: the limit is a natural number as well; a negative Mongo limit is not modelled.
- Predictions.PredictionStore.PredictAndSave: stores the answer's array unchanged. Mongoose's cast of `values` to numbers, and a failing `save()`, are not modelled.
- Common.ToJsString: writes a non-integral number as the placeholder "<number>", because JavaScript's shortest round-trip decimal form is not modelled. It also writes every digit of an integer of magnitude 10^21 or more, which JavaScript writes in exponent form (`1e+21`). The text only matters where a model server's `error` field is a number.
- Chats.TitleFrom: counts characters where JavaScript counts UTF-16 code units. The two differ only for characters outside the Basic Multilingual Plane.
- Recommendation.LatestReading: picks the earliest stored of several readings with the same timestamp. The database may return any of them.
- Recommendation.LatestForecast: breaks ties on `predictedFor` the same way.
- Chats.ChatStore.DeleteChat: assumes the database allows the delete, and leaves the chat's messages in the log. What happens to them depends on a schema that is not part of this model. The database may cascade the delete to them. It may leave them orphaned, no longer reachable through `getChat`. Or, if the message-to-chat relation restricts deletes (Prisma's default for a required relation without `onDelete`), `deleteMany` fails with a relation violation for a chat that has messages. The endpoint then throws instead of returning `{success: true}`, and the chat stays readable. That failure is not modelled.
- Row metadata: creation of ids and timestamps by the database is an input. Food rows have no fields beyond those of CreateFoodDto.
- Concurrency: `async`/`await` is sequential code, and concurrent requests are not modelled.

## Findings

| source | as written | input that shows it | evidently intended | confidence | as-written member | corrected member |
|---|---|---|---|---|---|---|
| src/auth/dto/signup.dto.ts:14 | `@Validate(Match, ['password'])` passes the decorator factory `Match` where class-validator expects a constraint class, so no comparison is registered | a sign-up body with `password: "correct-horse"` and `confirmPassword: "battery-staple"` | `@Match('password')`: `confirmPassword` must equal `password` | not executed; high | SignUpValidation.AsWrittenAcceptsMismatchedPasswords | SignUpValidation.ValidSignUpPasswordsAgree |
| src/prediction/predictions.service.ts:24-39 | the default `MODEL_API_URL` already ends in `/predict`, and the request appends `/predict` again | no `MODEL_API_URL` set: the POST goes to `http://localhost:5000/predict/predict`, a route the model server (src/prediction/main.py:73) does not serve | default `http://localhost:5000` | not executed; high | Predictions.AsWrittenDefaultDoublesPath | Predictions.DefaultReachesPredictRoute |

The sign-up route's handler (src/auth/auth.controller.ts:10-28) declares its body with an inline type, not `SignUpDto`. So the validation pipe checks nothing on that route, and neither the faulty `Match` rule nor its correction changes what the endpoint accepts. The first finding is about `SignUpDto` wherever it is used for validation.
