# Krishi Mitra server core, modelled in Dafny

Krishi Mitra is a small web service for farmers. A farmer logs in with a one-time
code sent by SMS and receives a session token. With that token the farmer asks for
crop suggestions for a coordinate. The server classifies the coordinate into a
region and the current month into a cropping season (Rabi, Kharif or Zaid), then
returns that region's crop list for that season.

This project models the two parts of the server that hold its logic:

- `crop_data.dfy` (module `CropData`) models the advisory tables of `server/cropData.js`:
  - `GetSeason` is the month-to-season `if` chain.
  - `GetRegion` is the first-match search over the ordered region boxes.
  - `CropDatabase` is the static table.
  - `Lookup` is the read `cropDatabase[region].seasons[season]`.
- `suggest_crops.dfy` (module `SuggestCrops`) models the `/api/suggest-crops` handler:
  - `Suggest` gives the 400/404/200 decision.
  - `SuggestRoute` runs the handler behind the token check.
- `bearer_auth.dfy` (module `BearerAuth`) models the `authenticateToken` middleware:
  - `Split` and `BearerToken` model `authHeader && authHeader.split(' ')[1]`.
  - `Authenticate` makes the 401/403 decision.
  - A session token is an abstract record (mobile number, issue second, expiry second, signing key).
- `otp_auth.dfy` (module `OtpAuth`) models the one-time-code login:
  - The class `UserStore` holds the User collection as a map from mobile number to record.
  - Its methods `Login` (`/api/login`) and `Verify` (`/api/verify`) update that map in place.
  - The specification functions `Issue`, `Accepts` and `Consume` state what the methods do to the map.
- `decimal.dfy` (module `Decimal`) models the decimal text of an integer (`toString`) used for the code.
- `wrappers.dfy` provides `Option`.

The clock month, the current time in milliseconds, `Math.random` and the SMS provider's
answer are all parameters. Decoding a compact JWT string is the jsonwebtoken library's
job, so `Authenticate` takes it as a function parameter. A decoded token passes when it
carries the server's key and `floor(now / 1000) < exp`, which is jsonwebtoken's expiry test.

The model follows the code as written, including where its behaviour may be unexpected:

- A coordinate of exactly 0 is falsy in JavaScript, so `(0, 0)` gets 400 ("required"), not 404.
- `getSeason` can never return `Unknown`. Month 3 is Rabi, and Zaid covers months 4 and 5 only.
- An empty `Authorization` header gives 403, not 401. `"" && …` evaluates to `""`, which is not `null`.
- There is no password signup or login on the server, so none is modelled.

## Model

| member | source | states |
|---|---|---|
| CropData.GetSeason | server/cropData.js:36-58 | Rabi exactly for months >= 10 or <= 3; Kharif exactly for 6..9; Zaid exactly for 4..5 (the month-3 part of its test is unreachable); never Unknown for any integer |
| CropData.FirstCovering | server/cropData.js:62-67 | the index found is the first entry, in table order, whose inclusive box covers the point; None only when no box covers it |
| CropData.GetRegion | server/cropData.js:61-69 | "Unknown" exactly when no box of the database covers the point; otherwise the name of the first covering entry |
| CropData.EntryNamed | server/server.js:155 | the entry read under a region name carries that name and is in the table; absent only when no entry has the name |
| CropData.Lookup | server/server.js:155 | a crop list is found exactly for a region name of the table and a season other than Unknown, and it is the list stored under that region and season |
| CropData.DisjointFindsCovering | server/cropData.js:62-66 | in a table of pairwise disjoint boxes the search returns the one box that covers the point |
| CropData.DatabaseDisjoint | server/cropData.js:11-24 | the two boxes of the database do not overlap |
| CropData.RegionOrderIrrelevant | server/cropData.js:7-33 | with the current data, swapping the two entries does not change any region answer |
| CropData.LatitudeGapIsUnknown | server/cropData.js:11-24 | every latitude strictly between 21 and 23 gives "Unknown" |
| CropData.RegionOfBoxPoint | server/cropData.js:61-69 | points in the Indo-Gangetic box (bounds included) give that region; points in the Deccan box give the Deccan Plateau |
| CropData.LookupTotal | server/cropData.js:14-30 | every region getRegion can return has a non-empty crop list for Rabi, Kharif and Zaid |
| CropData.IndoGangeticKharif | server/cropData.js:16 | the Indo-Gangetic Plain's Kharif list is Rice (Paddy), Maize, Sugarcane, Soybean, Cotton |
| SuggestCrops.Falsy | server/server.js:144 | a coordinate is truthy exactly when a non-zero number is present; absent, null and 0 are falsy |
| SuggestCrops.Suggest | server/server.js:141-157 | 400 exactly when lat or lon is absent or zero; 404 exactly when the region is Unknown; never the 500 of a failed table read; otherwise the region, the month's season and the non-empty crop list stored for them |
| SuggestCrops.SuggestRoute | server/server.js:141 | the handler runs exactly when authenticateToken lets the request through; 401 exactly when the header holds no token; the status is one of 200, 400, 401, 403, 404 |
| SuggestCrops.ZeroCoordinateRejected | server/server.js:144-146 | a latitude or longitude of exactly 0 is answered 400 |
| SuggestCrops.IndoGangeticInJuly | server/server.js:148-156 | (26, 80) in month 7 returns the Indo-Gangetic Plain, Kharif, and its five crops |
| SuggestCrops.OutsideBoxesNotFound | server/server.js:151-153 | a point at latitude 22 with a non-zero longitude is answered 404 |
| BearerAuth.Sign | server/server.js:131 | the token carries the mobile number and the server key; iat is the issue time in whole seconds; exp is iat + 3600 |
| BearerAuth.Verifies | server/server.js:44-45 | a decoded token passes exactly when it carries the server key and now, in milliseconds, is before exp seconds |
| BearerAuth.Split | server/server.js:40 | split(' ') gives at least one piece; no piece holds a space; one piece exactly when the text has no space, and then that piece is the text |
| BearerAuth.JoinSplit | server/server.js:40 | joining the pieces of split(' ') with single spaces gives back the header |
| BearerAuth.SplitAfterWord | server/server.js:40 | a space-free word and a space split off as the first piece |
| BearerAuth.BearerToken | server/server.js:39-40 | no header gives no token; an empty header gives the empty token; otherwise there is a token exactly when the header has a space, and the token has no space |
| BearerAuth.BearerTokenValue | server/server.js:40 | after the first space-free word and a space, the token is the text up to the next space, possibly empty |
| BearerAuth.BearerTokenExamples | server/server.js:40 | "Bearer a b" yields the token "a"; "Bearer  a" (two spaces) yields the empty token |
| BearerAuth.BearerHeaderToken | server/server.js:40 | "scheme token" with space-free parts yields exactly the token |
| BearerAuth.Authenticate | server/server.js:38-49 | 401 exactly when there is no token; continue exactly when the token is non-empty, decodes, carries the server key and is unexpired, with the decoded payload; 403 otherwise |
| BearerAuth.TokenLifetime | server/server.js:44-45 | a token signed at time t passes exactly while floor(now / 1000) < floor(t / 1000) + 3600; so it passes from t until t + 3599 s at least, and is refused from t + 1 h on |
| Decimal.ToDecimal | server/server.js:72 | the decimal text of n is non-empty, all digits, and has no leading zero when n >= 1 |
| Decimal.FromToDecimal | server/server.js:72 | reading the decimal text of n back gives n |
| Decimal.DecimalLength | server/server.js:72 | a number in [10^(k-1), 10^k) has a k-digit decimal text |
| OtpAuth.CodeValue | server/server.js:72 | floor(1000 + random * 9000) lies in 1000..9999 for random in [0, 1) |
| OtpAuth.CodeText | server/server.js:72 | the code is exactly four decimal digits, with no leading zero, whose value is the drawn number |
| OtpAuth.ValidMobile | server/server.js:68 | a number is accepted exactly when it is present and at least 10 characters long; the emptiness test is subsumed by the length test |
| OtpAuth.Issue | server/server.js:73-81 | after the upsert the number's record holds exactly the new code and expiry; the record is created if absent; every other record is unchanged |
| OtpAuth.Accepts | server/server.js:113-117 | in a store where every record sits under its own number, the lookup by key finds a record exactly when some record matches the number, the code and an expiry strictly after now |
| OtpAuth.Consume | server/server.js:126-128 | the found record loses its code and expiry; its number and every other record are unchanged |
| OtpAuth.DispatchReply | server/server.js:84-103 | 200 with success on delivery; 400 for provider error 21211; 500 for any other failure |
| OtpAuth.IssuedCodeAccepted | server/server.js:73-81 | right after a login, a verify succeeds exactly for the new code before its expiry |
| OtpAuth.LatestCodeWins | server/server.js:77-81 | after two logins for a number only the second code verifies |
| OtpAuth.ConsumedRejectsAll | server/server.js:113-128 | after a successful verify no code verifies for that number until the next login |
| OtpAuth.IssueIsolated | server/server.js:77-81 | a login for one number does not change what verifies for any other number |
| OtpAuth.UserStore.Login | server/server.js:66-104 | a missing or short number gives 400 and leaves the store untouched; otherwise the code and a now + 300000 ms expiry are stored before sending; the SMS to +91 carries that code; the reply follows the send outcome; the stored code stays valid even when sending fails |
| OtpAuth.UserStore.Verify | server/server.js:108-138 | succeeds exactly when the record has this code and an expiry strictly after now; on success it clears the code and expiry of that record only and returns a token for the number; on failure it returns 400 and changes nothing |
| OtpAuth.LoginVerifyTwice | server/server.js:66-132 | a code stored by a login whose SMS failed still verifies once, within five minutes; the same code then fails with 400 |

## Left out

- The JSON body's field types are modelled as present-or-absent strings and numbers only. A numeric `mobileNumber` (no `.length`, so it passes the length check) and string coordinates (compared after coercion) are not modelled.
- OtpAuth.UserStore.Verify: the fields are modelled as strings. The source passes the JSON values to the query unchanged, so an object such as `{"$ne": ""}` for `otp` becomes a query operator. Such a request succeeds without knowing the code while one is pending, and the model does not capture it.
- OtpAuth.UserStore.Login: the length check counts Unicode characters, while JavaScript's `length` counts UTF-16 code units. A number of five characters outside the Basic Multilingual Plane has length 10 in JavaScript and is accepted there, but the model rejects it.
- `/api/verify` with a missing `mobileNumber` or `otp`: what an `undefined` filter value matches is decided by the persistence library, so the model takes both fields as present strings.
- Database failures: the store calls are assumed to succeed. The `catch` branches answer 500 when `findOneAndUpdate`, `findOne` or `save` throws, and the model does not include them.
- OtpAuth.CodeValue: computed over exact reals, not IEEE doubles. The range 1000..9999 holds for doubles as well, but rounding is not modelled.
- BearerAuth.Authenticate: the HMAC signature check is modelled as equality of the signing key carried by the decoded token. Every modelled token has an expiry, but jsonwebtoken skips the expiry test for a payload without `exp`; since the key is written in server/server.js:33, anyone can sign such a token and it never expires. The model does not capture that token. Decoding the compact token text is a caller-supplied function. jsonwebtoken's other claim checks (nbf, audience, issuer) are not modelled because the server sets none of them.
- The SMS provider call is an input outcome (delivered, or failed with an error code), and the model returns the message that would be handed to the provider. Console logging is left out.
- Concurrent requests are not modelled. The model is sequential, and two logins for one number are two overwrites in order.
- `/`, `/api/welcome`, the CORS setup, `app.listen` and the database connection (`server/config/db.js`) are wiring with no logic and are not part of this model.
- The client pages and the `/api/weather` call they make are not part of this model; the server has no such route.
