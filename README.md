# Shipment safety analysis and token authentication, modelled in Dafny

The backend is a small Express server for a shipment tracker. This model covers three parts of it.

- **`POST /api/ai/analyze`** takes a shipment description: cargo type, route, free-text additional data, vehicle type and ETA in hours.
  - It answers 400 when the cargo type or the route is missing or empty.
  - Otherwise it starts a safety score at 100. Each risk rule that fires subtracts a penalty fixed for each case, possibly zero, and appends a suggestion. Every rule except the one for an unknown vehicle also appends an issue. The rules cover the cargo kind, the vehicle kind, routes with more than two `->` stops, rain, storm or snow in the additional data, and an ETA of 12 hours or less.
  - It then shifts the score by a random offset in [-5, 5], clamps it to [0, 100], and answers with the score, the lists and a one-sentence summary.
- **`POST /api/auth/login`** looks a username up in a fixed table of two demo users and checks the password against the stored hash.
  - On success it signs `{id, username, role}` for eight hours.
  - An unknown username and a wrong password get the same 401 "Invalid credentials". A known username without a password makes the hash check throw, which is answered 500.
- **The `verifyToken` and `requireRole(role)` middleware**, and the one route that chains them, `GET /api/admin-only`.
  - `verifyToken` reads `Authorization`, takes the second space-separated segment, verifies it and attaches the claims to the request.
  - `requireRole` admits only claims carrying that exact role.
  - Each middleware either sends exactly one error response or calls `next` once.

Modules:

- `Text` (`text.dfy`) holds JavaScript truthiness of optional fields, ASCII `toLowerCase`, `includes`, `split`/`join` with a non-empty separator, and decimal rendering.
- `Scoring` (`scoring.dfy`) is the analysis handler. `Analysis` is the specification function. `Analyze` is the handler as a method that updates a running score and lists block by block, and it is proved equal to `Analysis`.
- `Middleware` (`middleware.dfy`) is the request/response exchange as a class with `req.user`, the responses sent and the `next` calls, plus the two middleware methods.
- `Login` (`login.dfy`) is the user table and the login handler.
- `Server` (`server.dfy`) is the admin-only route built from the two middlewares.

Randomness, signing, verification and password hashing do not appear in the model as code: they are parameters.

- `Math.random()` becomes `draw`, the integer `Math.floor(Math.random() * 11)` in [0, 10].
- `jwt.verify` becomes `verify`, which returns the claims or `None` where the library throws.
- `jwt.sign` becomes `sign`.
- `bcrypt.compareSync` becomes `check`.
- The secret key is the parameter `key`.

## Model

| member | source | states |
|---|---|---|
| Scoring.RandomizeScore | routes/deepseek.js:5-11 | The result always lies in [0, 100]. It is the score moved by `draw - variance` whenever that stays in range, 100 when it would exceed 100, and 0 when it would go below 0. |
| Scoring.RandomizeScoreNear | routes/deepseek.js:5-11 | When the score is already in [0, 100], randomising moves it by at most the variance in either direction. |
| Scoring.UrgencyPenalty | routes/deepseek.js:14-19 | The penalty is 15, 10, 5 or 0. Each value holds exactly on its ETA band: at most 2, (2, 6], (6, 12], above 12. |
| Scoring.UrgencyPenaltyMonotone | routes/deepseek.js:14-19 | A later ETA never gets a larger penalty. |
| Scoring.StopsAreSeparators | routes/deepseek.js:88 | `route.split("->").length - 1` equals the number of `->` separators counted directly. |
| Scoring.CargoEffect | routes/deepseek.js:37-57 | The cargo rule always reports exactly one issue and one suggestion. It costs at most 30, and it costs nothing exactly for cargo other than fragile, perishable and hazardous. |
| Scoring.VehicleEffect | routes/deepseek.js:59-85 | Without a vehicle nothing is reported. An unknown vehicle costs nothing and adds a suggestion without an issue. A known vehicle costs a positive amount, at most 10, and adds one issue and one suggestion. |
| Scoring.RouteEffect | routes/deepseek.js:87-93 | More than two stops cost exactly 10 and add exactly one issue and one suggestion. Otherwise the rule costs nothing and adds nothing. |
| Scoring.RoutePenaltyIff | routes/deepseek.js:87-93 | The route penalty is 10 exactly when the route holds more than two `->` separators, and 0 otherwise. |
| Scoring.StormEffect | routes/deepseek.js:98-102 | When it fires, the rain/storm rule costs exactly 5 and adds exactly one issue and one suggestion. Otherwise it costs nothing and adds nothing. |
| Scoring.SnowEffect | routes/deepseek.js:103-107 | When it fires, the snow rule costs exactly 7 and adds exactly one issue and one suggestion. Otherwise it costs nothing and adds nothing. |
| Scoring.UrgencyEffect | routes/deepseek.js:110-118 | Nothing is reported exactly when there is no ETA or the ETA is above 12 hours. Otherwise the deduction is the urgency penalty, at most 15, with exactly one issue and one suggestion. |
| Scoring.Assess | routes/deepseek.js:33-118 | All rules in the handler's order. The total deduction is at most 77. The first issue is the cargo issue. There is one suggestion per issue, plus one for an unknown vehicle. |
| Scoring.IssueTexts | routes/deepseek.js:133-135 | One text per issue, in order, each the issue's own message. |
| Scoring.SuggestionTexts | routes/deepseek.js:133-135 | One text per suggestion, in order, each the suggestion's own message. |
| Scoring.Summary | routes/deepseek.js:133-135 | The `analysis` sentence begins with "Predicted shipment safety score is " followed by the decimal score. |
| Scoring.Analysis | routes/deepseek.js:22-136 | The answer is 400 with the fixed message exactly when cargo type or route is falsy. Otherwise it echoes cargo type and route, shows vehicle type and ETA per their defaults, scores in [18, 100], and reports at least one issue and at least as many suggestions as issues. |
| Scoring.AnalysisScoreNearBase | routes/deepseek.js:33-121 | The score before randomising lies in [23, 100]. The final score is within 5 of it. |
| Scoring.AnalysisIgnoresCase | routes/deepseek.js:37-108 | Requests that differ only in the letter case of cargo type, vehicle type and additional data get the same outcome, score, issues, suggestions and summary. |
| Scoring.FragileInCapitals | routes/deepseek.js:38-43 | "FRAGILE" is classified exactly like "fragile". |
| Scoring.CargoRisk | routes/deepseek.js:37-57 | The new score and lists are the old ones less and plus the cargo rule's effect. |
| Scoring.VehicleRisk | routes/deepseek.js:59-85 | The new score and lists are the old ones less and plus the vehicle rule's effect. The rule applies only to a truthy vehicle type. |
| Scoring.RouteRisk | routes/deepseek.js:87-93 | The new score and lists are the old ones less and plus the route rule's effect. |
| Scoring.WeatherRisk | routes/deepseek.js:95-108 | The new score and lists are the old ones less and plus the storm rule's effect and then the snow rule's. Both look only at lower-cased, truthy additional data. |
| Scoring.UrgencyRisk | routes/deepseek.js:110-118 | The new score and lists are the old ones less and plus the urgency rule's effect. |
| Scoring.RiskBlocks | routes/deepseek.js:33-118 | Running the blocks on 100 and two empty lists gives 100 less the combined deduction, and exactly the combined issues and suggestions. |
| Scoring.Analyze | routes/deepseek.js:22-136 | The step-by-step handler returns exactly the response `Analysis` specifies. |
| Text.ToLowerAt | routes/deepseek.js:38 | Lower-casing keeps every non-capital character, maps each capital to its small letter, and leaves no capital. |
| Text.ToLowerIdempotent | routes/deepseek.js:38 | Lower-casing twice is lower-casing once. |
| Text.ContainsIff | routes/deepseek.js:98 | `includes` holds exactly when the pattern occurs at some index. |
| Text.JoinSplit | routes/deepseek.js:88 | Joining the pieces of `split` with the separator gives back the original string. |
| Text.SplitLength | routes/deepseek.js:88 | `split` gives one more piece than there are separator occurrences. |
| Text.SplitCharSingle | middleware/auth.js:7 | Splitting on a space gives a single piece exactly when the header holds no space. |
| Text.NatToStringValue | routes/deepseek.js:115 | The digits rendered for a number denote that number. |
| Text.IntToString | routes/deepseek.js:115 | The rendering is non-empty and starts with "-" exactly for negative numbers. |
| Text.IntToStringValue | routes/deepseek.js:115 | The digits after the optional minus sign denote the number's magnitude. |
| Middleware.ExtractToken | middleware/auth.js:7 | The second space-separated segment is absent exactly when the header holds no space. When present it holds no space. |
| Middleware.ExtractTokenAfterScheme | middleware/auth.js:7 | Whatever space-free word comes first, the token is what follows the first space up to the next space or the end. |
| Middleware.ExtractBearerToken | middleware/auth.js:7 | The header `Bearer <token>` yields `<token>`. |
| Middleware.Exchange.constructor | middleware/auth.js:4 | A fresh exchange carries the header, has no user, no responses and no `next` calls. |
| Middleware.Exchange.VerifyToken | middleware/auth.js:4-15 | A falsy header gets 401 "No token provided". A header without a second segment, or a token that does not verify, gets 401 "Invalid token". A verified token sets `req.user` to its claims and calls `next` once. Exactly one of these events happens. |
| Middleware.Exchange.RequireRole | middleware/auth.js:17-21 | No user gets 401 "Not authenticated". A different role gets 403 "Forbidden". The exact role calls `next`. Exactly one of these events happens, and `req.user` is untouched. |
| Server.AdminOnly | server.js:33-35 | The secret is returned exactly when the header's token verifies to claims with role "admin". Otherwise the answer is "No token provided", "Invalid token" or "Forbidden", each in its own case. |
| Server.BearerHeaderAuthenticates | server.js:33 | A `Bearer <token>` header is authenticated exactly as the token verifies. |
| Login.DemoUsers | routes/auth.js:11-14 | The demo table has distinct usernames, and every role is "admin" or "user". |
| Login.Find | routes/auth.js:19 | A record is found only if it is in the table and carries that username. When none is found, no record carries it. |
| Login.FindUnique | routes/auth.js:19 | With distinct usernames, looking up a stored user's name finds exactly that user. |
| Login.HandleLogin | routes/auth.js:17-29 | Success carries a token signed over the matching user's id, username and role for 8 hours, plus that role and username. A rejection is always 401 "Invalid credentials". A server error happens only without a password. |
| Login.UnknownUserRejected | routes/auth.js:19-20 | An unknown username is rejected with 401 "Invalid credentials", whatever the password. |
| Login.WrongPasswordRejected | routes/auth.js:22-23 | A known user with a non-matching password gets the same rejection. |
| Login.FailuresIndistinguishable | routes/auth.js:19-23 | An unknown username and a wrong password get identical responses. |
| Login.CorrectPasswordAccepted | routes/auth.js:22-28 | A stored user with a matching password gets the signed token, their role and their username. |
| Login.LoginSucceedsIff | routes/auth.js:17-29 | Login succeeds exactly for a stored username together with a password the hash check accepts. |

## Left out

- The location and weather routes, the dummy shipment lists and the server set-up (CORS, JSON parsing, listening) are not part of this model.
- Randomness: `Math.random()` is the parameter `draw`. The model does not say how it is distributed.
- Signing, verification and hashing are parameters. Token expiry, signature checks and salts live inside them. The demo users' hashes are parameters, because `bcrypt.hashSync` draws a random salt at start-up.
- The secret is the parameter `key`. Its choice between the `JWT_SECRET` environment variable and "dev_secret" is not modelled.
- Scoring.UrgencyEffect: the ETA is an integer. `Number(etaHours)` of a string, a fraction, `null` or `NaN` is not modelled.
- Scoring.IssueText: the ETA is always written as plain decimal digits. JavaScript writes integers with magnitude of at least 1e21 in exponent form, e.g. "-1e+21"; that form is not modelled.
- Text.ToLower: only ASCII letters are mapped. Unicode case mapping is not modelled.
- Scoring.Analyze: the 500 answer for an exception inside the handler is not modelled. With the fields typed as in the model, no step throws.
- Scoring.Analyze: the `success` flags of the JSON bodies are implied by the response constructor and not stored.
- Issue and suggestion lines are datatypes. Their exact texts are `IssueText` and `SuggestionText`.
- Scoring.Summary: the contract states only the prefix of the sentence. The rest is the joined texts as the body builds them.
- Middleware.Exchange.VerifyToken: `verify` is any function. `jwt.verify` always rejects an empty token, which a header of "Bearer " or one with a double space yields. The model does not force that rejection.
- Middleware.Exchange.VerifyToken: an exception thrown by `next()` or a later handler, which the source's `catch` would also turn into "Invalid token", is not modelled.
- Login.HandleLogin: `jwt.sign` writes the current time into each token as `iat`. The model's `sign` is a function of payload, key and lifetime, so the clock it reads is not modelled, and two logins with the same payload get the same token.
- Login.HandleLogin: `bcrypt.compareSync` throwing on a missing password is the response `ServerError`. Express's 500 page is not modelled.
- The users table is never changed by the source. The model passes it as a value.
