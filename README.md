# Celebthumb credits ledger, thumbnail store and API: a Dafny model

This project models the core of the Celebthumb backend, a Go service on AWS
Lambda that makes video thumbnails and charges one credit for each. It
covers seven parts.

- **The credits ledger** (`backend/internal/billing/billing.go`). The
  DynamoDB users table is the map `users` of the class
  `Billing.BillingService`, and each DynamoDB request's success is an input.
  - Reading a balance: a user without a row has 0 credits.
  - Debiting: a read, a check, then an update conditional on
    `credits >= amount`.
  - Crediting: an upsert.
  - Changing plan: a Stripe customer, then a subscription for priced plans
    only, then a whole-row `PutItem`, and only after that the caller's user
    object changes.
  - Each Stripe request the ledger makes is returned, so "no Stripe call"
    can be stated.
  - The function `Billing.AfterAll` describes any sequence of ledger calls.
    `Billing.ApplyDebits` describes concurrent debits that read the same
    balance and whose conditional updates arrive in some order.
- **The variant ledger** (`internal/billing/service.go`). Its `getUser` is a
  stub that always returns a "pro" user with 100 credits. Its debit is an
  unconditional read-then-write in Go's 64-bit arithmetic, so wrap-around is
  modelled. Its plan change subscribes even for the free plan, and it
  changes the caller's user before the update is attempted.
- **The plan table and the sentinel errors**
  (`backend/internal/billing/service.go`). The plans are free, pro and
  enterprise. `PlanCatalog.BillingError` keeps the sentinels
  `ErrInsufficientCredits` and `ErrInvalidPlan` apart from each other and
  from every error built with `fmt.Errorf`.
- **The thumbnail object-key scheme** (`backend/internal/storage/storage.go`
  and `service.go`). Keys have the form `thumbnails/<user>/<id>.jpg` and
  URLs the form `https://<bucket>.s3.amazonaws.com/<key>`. The S3 bucket is
  the map `objects` of `Storage.StorageService`. The two listing variants
  are both modelled:
  - `storage.go` slices the id out of each key, and panics on a key that is
    too short;
  - `service.go` keeps the whole key as the id.
- **Bearer-token extraction and the outcome of `RegisterUser`**
  (`backend/internal/auth/auth.go`).
- **The Lambda entry point** (`backend/cmd/api/main.go`). It covers:
  - the ordered route switch;
  - each handler's sequence of service calls and the status each failure
    maps to;
  - `errorResponse` and `jsonResponse`.
- **The thumbnail and user records** (`internal/models/thumbnail.go`). The
  request, thumbnail and user records are datatypes of module `Models`, and
  `NewThumbnail` builds a thumbnail from a request with a fresh id, an empty
  URL and the clock.

Clocks (`time.Now`), fresh identifiers (`uuid.New`) and the outcome of every
AWS and Stripe request are parameters. Go's `int` is the subset type
`Base.Int64`. DynamoDB numbers are unbounded integers that have to fit
`Int64` when they are read back.

Some behaviour of the code, as modelled, that a reader might not expect:
- `CreateSubscription` in `billing.go` rewrites the whole row with
  `PutItem`, so `createdAt` becomes the time of the plan change rather than
  staying as the account's creation time.
- `DeductCredits` in `billing.go` reads the balance and refuses in
  application code first. Only then does it issue the conditional update,
  so the debit is a read-check-conditional-write rather than a single
  conditional write. A user without a row reads as 0, so:
  - a positive amount is refused with "insufficient credits";
  - an amount ≤ 0 passes the check and then fails the condition, giving
    "failed to deduct credits".
- The refusal in `billing.go` is `fmt.Errorf("insufficient credits")`, not
  the `ErrInsufficientCredits` sentinel.
- The subscription handler answers 500 to every ledger error, an unknown
  plan included, rather than a bad-request status.

The Go packages would not build as they stand:
- both files in `backend/internal/billing` declare `Plans`, the two errors
  and `BillingService`;
- both files in `backend/internal/storage` declare the methods of
  `StorageService`;
- `main.go` calls `fmt.Sprintf` and `auth.ExtractTokenFromRequest` without
  importing either package, and uses an `authService` field that the `API`
  struct does not have.

The model takes each file as written on its own. Its API layer uses the
table-backed ledger of `billing.go` and the slicing listing of
`storage.go`.

## Model

| member | source | states |
|---|---|---|
| Base.Wrap64 | internal/billing/service.go:149 | Go's int64 `-=`/`+=`: the result equals the exact value when that fits, and otherwise is congruent to it modulo 2^64 within the int64 range |
| Base.HasPrefix | backend/internal/auth/auth.go:211 | `strings.HasPrefix`: holds exactly when the prefix is no longer than the string and agrees with it at every position |
| Base.TrimPrefix | backend/internal/auth/auth.go:216 | `strings.TrimPrefix`: with the prefix present, prefix + result is the input; without it, the input is returned unchanged |
| Models.NewThumbnail | internal/models/thumbnail.go:27-36 | copies user id, title, description and style from the request unchanged; the id is the fresh id and the creation time is the clock, not the request's; the URL is empty |
| Models.NewThumbnailIgnoresRequestTime | internal/models/thumbnail.go:14-34 | two requests that differ only in `CreatedAt` make the same thumbnail |
| PlanCatalog.Plans | backend/internal/billing/service.go:49-88 | exactly the keys free, pro and enterprise; each entry's id is its key; every allotment is positive; free has no price id, and pro and enterprise have "price_pro" and "price_enterprise" |
| PlanCatalog.LookupPlan | backend/internal/billing/billing.go:176-179 | found exactly for the three plan ids; the plan found carries the id looked up; its price id is empty exactly for "free" |
| PlanCatalog.AllotmentsRiseByTier | backend/internal/billing/service.go:53-78 | the allotments are 10, 100 and 1000, strictly increasing by tier |
| Billing.StoredCredits | backend/internal/billing/billing.go:109-120 | a stored row's balance, or 0 for a user without a row; never negative in a non-negative table |
| Billing.Decodes | backend/internal/billing/billing.go:115-118 | a row reads back exactly when the balance `GetUserCredits` would report fits Go's int64 |
| Billing.DebitCondition | backend/internal/billing/billing.go:145 | `credits >= :amount` holds exactly when the row exists and its balance covers the amount; a missing row never meets it |
| Billing.Debited | backend/internal/billing/billing.go:136-146 | the debit's update changes only the credits of that one row, by exactly the amount; no key is added or removed |
| Billing.ConditionalDebit | backend/internal/billing/billing.go:141-145 | applied exactly when the row exists with credits ≥ amount, and then equals `Debited`; otherwise the table is unchanged; for any amount, a non-negative table stays non-negative |
| Billing.Credited | backend/internal/billing/billing.go:156-165 | the stored balance rises by the amount from the old balance, or from 0 for a missing row, which is then created; no other row changes |
| Billing.Subscribed | backend/internal/billing/billing.go:212-229 | the user's row is replaced: plan is the plan id and the balance is the plan's allotment, a reset and not an addition; no other row changes |
| Billing.CallsKeepBalancesNonNegative | backend/internal/billing/billing.go:123-236 | after any sequence of debits, non-negative credits and plan changes, with any store and Stripe outcomes, every balance is still non-negative |
| Billing.ApplyDebits | backend/internal/billing/billing.go:136-146 | concurrent conditional updates of one user: one applied flag per request, and the set of rows is unchanged |
| Billing.ConcurrentDebitsNeverOverdraw | backend/internal/billing/billing.go:141-145 | in any arrival order, the balance falls by exactly the sum of the applied debits and never below zero |
| Billing.TwoDebitsOfOneFromOne | backend/internal/billing/billing.go:125-145 | two debits of 1 that both read a balance of 1 pass their checks; exactly the first update applies and the balance ends at 0 |
| Billing.BillingService.GetUserCredits | backend/internal/billing/billing.go:97-121 | a failed read errs with "failed to get user"; a missing user has 0 and no error; a stored number outside int64 errs with "failed to unmarshal user"; otherwise the stored balance; nothing is written |
| Billing.BillingService.DeductCredits | backend/internal/billing/billing.go:123-152 | succeeds exactly when the read succeeds and decodes, the balance covers the amount, and the conditional update is accepted; each failure's error is named and changes nothing; success changes only that user's credits, by the amount; non-negative balances stay so |
| Billing.BillingService.AddCredits | backend/internal/billing/billing.go:154-172 | on success the table is `Credited`; on failure "failed to add credits" and the table is unchanged |
| Billing.BillingService.CreateSubscription | backend/internal/billing/billing.go:174-236 | an unknown plan gives `ErrInvalidPlan` with no Stripe call and no write; a customer is always created; a subscription is created exactly for a priced plan; any failure leaves the table and the caller's user unchanged; success resets plan and credits in both |
| InternalBilling.StubUser | internal/billing/service.go:185-193 | the stub returns a "pro" user with 100 credits for every id |
| InternalBilling.DeductCredits | internal/billing/service.go:139-156 | an amount above the read 100 gives the `ErrInsufficientCredits` sentinel and no update; otherwise the update holds 100 − amount under int64 wrap-around, which is exact and non-negative for every amount that does not overflow |
| InternalBilling.ExtremeDebitWrapsNegative | internal/billing/service.go:145-149 | the most negative amount passes the check and wraps to a negative balance |
| InternalBilling.AddCredits | internal/billing/service.go:159-172 | the update holds 100 + amount under int64 wrap-around, with no bound or guard; on failure the error is "failed to add credits" |
| InternalBilling.GetUserCredits | internal/billing/service.go:175-182 | always 100 with no error |
| InternalBilling.CreateSubscription | internal/billing/service.go:91-136 | an unknown plan gives `ErrInvalidPlan` with no Stripe call; with a customer, a subscription is requested for every plan, free included; the caller's user holds the new plan and allotment before the update is attempted, so it is changed even when the update fails |
| Storage.ListPrefix | backend/internal/storage/storage.go:93 | the prefix starts with "thumbnails/" and ends with '/', twelve characters longer than the user id |
| Storage.ThumbnailKey | backend/internal/storage/storage.go:32 | the key lies under the user's listing prefix, ends in ".jpg", and is four characters longer than prefix plus id |
| Storage.PublicUrl | backend/internal/storage/storage.go:46 | the URL ends with the full key |
| Storage.IdFromKey | backend/internal/storage/storage.go:109 | the slice is defined exactly when the key is at least prefix + 4 long; the key is then its first prefix-length characters, the id and its last four characters |
| Storage.IdFromKeyRoundTrip | backend/internal/storage/storage.go:108-109 | slicing a user's key with that user's prefix returns the id the key was built from |
| Storage.ThumbnailKeyInjective | backend/internal/storage/storage.go:32 | for user ids without '/', equal keys mean equal user and equal id |
| Storage.SlashInUserIdCollides | backend/internal/storage/storage.go:32 | user "a/b" with id "c" and user "a" with id "b/c" share a key, and listing "a" returns it with the id "b/c" |
| Storage.FullKeyIdMissesObject | backend/internal/storage/service.go:95 | an id listed as the full key, passed back to get or delete, addresses a different key |
| Storage.AllSliceable | backend/internal/storage/storage.go:109 | holds exactly when the id can be sliced out of every listed key |
| Storage.Listing | backend/internal/storage/storage.go:105-121 | one thumbnail per listed object, in order, each `ListedThumbnail` of its object |
| Storage.ListedThumbnail | backend/internal/storage/storage.go:107-117 | a listed entry carries the id sliced from its key, the queried user, the URL of its full key and its modification time |
| Storage.ListedByKey | backend/internal/storage/service.go:94-99 | a listed entry's id is its full key; it has the queried user and the URL of the key |
| Storage.SavedThumbnailListsBack | backend/internal/storage/storage.go:32-46 | an object saved for a user and id lists back for that user with the same id and the URL the save set |
| Storage.StorageService.SaveThumbnail | backend/internal/storage/storage.go:30-49 | on success, the data is stored under the thumbnail's key and the URL is set from that key; on failure, "failed to upload thumbnail" and neither the bucket nor the URL changes |
| Storage.StorageService.GetThumbnail | backend/internal/storage/storage.go:51-73 | returns the bytes stored under the key; a failed request or a missing key errs with "failed to get thumbnail" |
| Storage.StorageService.DeleteThumbnail | backend/internal/storage/storage.go:75-89 | on success, exactly that key is removed; on failure, "failed to delete thumbnail" and nothing changes |
| Storage.StorageService.ListUserThumbnails | backend/internal/storage/storage.go:91-123 | a failed listing errs; a key too short to slice panics; otherwise exactly `Listing` of the listed objects |
| Storage.StorageService.ListUserThumbnailsByKey | backend/internal/storage/service.go:80-104 | a failed listing errs; otherwise one thumbnail per listed object, in order, each with its full key as id |
| Auth.AuthorizationHeader | backend/internal/auth/auth.go:205 | a missing header reads as the empty string |
| Auth.ExtractTokenFromRequest | backend/internal/auth/auth.go:204-222 | succeeds exactly when the header starts with "Bearer " and has more after it; the token is non-empty and "Bearer " + token is the header; every failure is `ErrInvalidToken` |
| Auth.BearerRoundTrip | backend/internal/auth/auth.go:216-221 | a header "Bearer " + t yields t for every non-empty t |
| Auth.PrefixExamples | backend/internal/auth/auth.go:211-219 | only one leading "Bearer " is removed; the scheme and the header name are case-sensitive; the bare prefix is refused |
| Auth.RegisterUser | backend/internal/auth/auth.go:69-119 | a successful lookup gives `ErrUserExists`; sign-up and confirmation failures are named; success holds id = email = the email, plan "free", 10 credits and the clock |
| Auth.RegisteredUserHoldsFreeAllotment | backend/internal/auth/auth.go:110-116 | a new user's plan is in the catalogue and the balance is exactly that plan's allotment |
| Api.Param | backend/cmd/api/main.go:104 | a missing query or path parameter reads as the empty string |
| Api.JsonResponse | backend/cmd/api/main.go:232-245 | the status, the JSON content type and the encoded value, not base64-flagged |
| Api.ErrorResponse | backend/cmd/api/main.go:247-255 | the status, the JSON content type, and a body that opens with `{"error":"` and closes with `"}` around the message |
| Api.ErrorMessage | backend/cmd/api/main.go:253 | a message is recovered only from a text body twelve characters longer than it |
| Api.ErrorMessageRoundTrip | backend/cmd/api/main.go:247-255 | the message of every error response reads back out of its body |
| Api.RouteOf | backend/cmd/api/main.go:54-69 | the chosen case holds and every earlier case fails; the default is 404 |
| Api.RouteIsFirstMatch | backend/cmd/api/main.go:54-69 | the first-match rule determines the route uniquely |
| Api.OverlappingCases | backend/cmd/api/main.go:55-62 | a GET on "/thumbnails" lists even when the resource is the item template; a GET on "/credits" with the item resource fetches an image; anything unmatched is not found |
| Api.GeneratedThumbnail | backend/internal/ai/ai.go:43-49 | the generator's thumbnail has the fresh id, the request's title, description and style, the clock, and an empty user id and URL |
| Api.GeneratedIsNewThumbnailWithoutUser | backend/internal/ai/ai.go:43-49 | the generated thumbnail is `NewThumbnail` of the request with the user id dropped |
| Api.AsWrittenSaveIsNotListed | backend/cmd/api/main.go:84-96 | the key the generated thumbnail is stored under lies outside the listing prefix of every user id the list handler accepts that does not start with '/' |
| Api.CorrectedSaveIsListed | backend/cmd/api/main.go:84-96 | with the request's user id on the thumbnail, its key lies under the requester's prefix and lists back with the same id and URL |
| Api.API.HandleGenerateThumbnailAsWritten | backend/cmd/api/main.go:72-101 | an undecodable body gives 400 with no debit; exactly one credit is debited first, and a failed debit gives 402 with nothing generated or saved; generation and save failures give 500 and keep the debit; success stores the image under the user-less key and gives 201 |
| Api.API.HandleGenerateThumbnail | backend/cmd/api/main.go:72-101 | as above, with the image stored under the requester's key and the 201 body carrying the requester's user id |
| Api.API.HandleListThumbnails | backend/cmd/api/main.go:103-115 | an empty `userId` gives 400 whatever storage would answer; a failed listing gives 500; a short key panics; otherwise 200 with every listed thumbnail in order |
| Api.API.HandleGetThumbnail | backend/cmd/api/main.go:117-134 | 200 with the stored bytes as a base64-flagged JPEG, or 500 "failed to get thumbnail" |
| Api.API.HandleDeleteThumbnail | backend/cmd/api/main.go:136-147 | 204 with no headers and no body, and the key removed; or 500 with nothing removed |
| Api.API.HandleCreateSubscription | backend/cmd/api/main.go:149-169 | an undecodable body gives 400; the table changes as the ledger's plan change says; any ledger error gives 500; success gives 201 with the user's new plan and allotment and a zero creation time |
| Api.API.HandleGetCredits | backend/cmd/api/main.go:212-230 | a missing or malformed bearer header gives 401 "unauthorized"; a rejected token gives 401 "invalid token"; a failed read gives 500; otherwise 200 with the stored balance, 0 for a user without a row |
| Api.API.HandleRequest | backend/cmd/api/main.go:29-70 | a configuration failure answers 500 to every request; an unmatched request gets 404; only generate and subscribe touch the ledger; only generate and delete touch the bucket; only listing can panic |

## Left out

- Api.API.HandleRequest: states the configuration failure, the 404 answer and which routes may write. The answer of each matched route is stated on the handler it calls, not restated here.
- Api.API.HandleRequest: dispatches generation to the corrected handler (see Findings), not to the handler as written.
- JSON decoding of request bodies is modelled by its result (`Api.Body`, None where decoding fails). JSON encoding is modelled by the value encoded. The marshal-failure path of `jsonResponse` is not modelled, because the values the handlers encode cannot fail to marshal.
- `errorResponse` inserts the message without escaping. Every message the handlers pass is a constant without quotes, so the body is always valid JSON.
- `handleRegister` and `handleLogin` are not modelled: no case of the route switch reaches them.
- `VerifyToken`, `LoginUser`, the JWK fetch in `NewAuthService` and the Cognito requests: these are cryptography and a foreign service. Token verification is an input (`Env.verifiedUserId`), and `RegisterUser` is modelled by its outcome.
- The AI service (`DetectCelebrities`, `GenerateImage` and the text-analysis stubs) is foreign I/O or constant stubs. Only the shape of the thumbnail `GenerateThumbnail` returns is modelled, as `Api.GeneratedThumbnail`.
- `PricePerMonth` and `Features` of the plans are floating point and descriptive text.
- The RFC 3339 object metadata written by `SaveThumbnail` in `service.go` is time formatting and is not read back by any modelled operation.
- Storage.StorageService.GetThumbnail: returns the stored bytes whole. The single `Body.Read` into a buffer of the content length, which may return fewer bytes, and its "failed to read thumbnail data" path are I/O mechanics.
- Storage.StorageService.ListUserThumbnails: the listing is the S3 response as given. S3's key order, its prefix filtering and its 1000-key page limit are the store's, and pagination is not followed by the code.
- The "failed to marshal user" path of `CreateSubscription` in `billing.go` is not modelled, because marshalling a `User` cannot fail.
- The Stripe request parameters beyond email, user id, customer id and price id (the metadata maps) are not modelled.
- In the variant ledger, the "failed to get user" and "failed to get user credits" paths are not modelled, because the stub `getUser` never fails.
- Concurrency is modelled only as the arrival order of conditional debit updates (`Billing.ApplyDebits`). The atomicity of each update is the store's guarantee.
- Storage.IdFromKey: measures and slices keys in characters, where Go measures and slices them in bytes. For a key that starts with the listing prefix and whose last four characters are ASCII, as every key `Storage.ThumbnailKey` builds, the id is the same. Other listed keys can differ: "thumbnails/a/éé" (15 characters, 17 bytes) listed for user "a" panics in the model (`Api.API.HandleListThumbnails` answers `Panicked`), while Go slices out the empty id.
- InternalBilling.CreateSubscription: `internal/billing/service.go` reads a `Plans` it does not declare (line 92); the model assumes it is the plan table `PlanCatalog.Plans`.
- Api.API.HandleGetThumbnail: the body is the raw image bytes, flagged `isBase64Encoded` as the code flags them, although they were never base64-encoded, so API Gateway would decode bytes that are not base64. Base64 and API Gateway's binary handling are not modelled.
- The Lambda runtime's answer to a panicking invocation is outside the code, so it is modelled as the outcome `Panicked`.

## Findings

| source | as written | input that shows it | evidently intended | confidence | as-written member | corrected member |
|---|---|---|---|---|---|---|
| backend/cmd/api/main.go:84-96 | the handler saves the thumbnail the generator returns, whose user id is empty, so the image is stored under `thumbnails//<id>.jpg` | a generate request from user "alice": the image is stored under "thumbnails//<id>.jpg", and listing "alice" (prefix "thumbnails/alice/") never returns it (`Api.AsWrittenSaveIsNotListed`) | the saved thumbnail carries the requester's user id, as `NewThumbnail` builds it, so it is stored under `thumbnails/alice/<id>.jpg` and lists back with its id (`Api.CorrectedSaveIsListed`) | high; not executed | Api.API.HandleGenerateThumbnailAsWritten | Api.API.HandleGenerateThumbnail |
