# Credit spending in the AI image SaaS, modelled in Dafny

The product sells credits and spends them on AI features. Two independent pieces of code
spend credits, and both read and write the same tables: `user_credits` (one nullable
`credits_balance` per user), `credit_transactions` (one row per recorded spend) and
`ai_generations` (the audit row of each generated image).

- The `generate-image` edge function checks a chain of guards, each of which ends the
  request early. It then calls the image generator and makes three bookkeeping writes in order:
  the generation row, the `deduct_credits` call for 10, and the transaction row. A failed write
  is only logged. The response is 200 with the balance read earlier minus 10.
- The dashboard's `handleFeatureUse` checks the page's cached balance against the feature's
  cost. It overwrites the stored balance with the cached value minus the cost, then inserts the
  transaction row. The page also holds the cost table and the rule that disables a feature button.

Files:

- `wrappers.dfy`: `Option`, and JavaScript truthiness of an optional string.
- `ledger.dfy`: the tables and the ordered log of side-effecting calls as a `State` value, and the
  same state as a `Backend` object. Each write is a method of `Backend` with an `ok` parameter.
  The file also defines the ledger's bookkeeping identity. `Reconciles(before, after, u)` says the
  rows added between two states account exactly for how far `u`'s balance dropped.
  `Corresponds` says this holds for every user. A missing row or a null balance counts as 0 there.
- `base64.dfy`: `btoa` applied to the image bytes (the base 64 alphabet of section 4 of RFC 4648,
  with `=` padding), a decoder, and the `data:image/png;base64,` URL.
- `generate_image.dfy`: `Guard` (the guard chain as a decision), `Handle` (one request as a
  value), `Serve` (the same request run step by step against a `Backend`), and the lemmas.
- `dashboard.dfy`: the feature table, the button-disabled predicate, `fetchUserCredits` and
  `handleFeatureUse`. Each of the last two is a method of the `DashboardPage` class and has a
  value-level twin (`Fetched`, `FeatureUse`). The lemmas follow.

Every outside result is a parameter. This covers building the Supabase client, the session lookup, the credits read, the image
generator (bytes, or the exception it raised), and whether each write succeeded. A request is
handled alone: the model is single-request and sequential.

Some descriptions of this system specify a reserve-then-roll-back protocol: decrement first, run
the generator, restore the balance if it fails. The code has no such protocol. It charges only
after the image exists and never restores anything. The model follows the code.

## Model

| member | source | states |
|---|---|---|
| `GenerateImage.Guard` | supabase/functions/generate-image/index.ts:13-75 | The request is admitted exactly when it is not a preflight, carries a non-empty Authorization header, the Supabase client is built without throwing, there is a signed-in user, the credits read succeeds and finds a row, the balance is non-null and at least 10, and the body holds a non-empty prompt; an admitted request carries that user, the balance read and the prompt |
| `GenerateImage.Handle` | supabase/functions/generate-image/index.ts:11-141 | A request only appends to the call log and to the two tables, adding at most one transaction row and one generation row; it never adds or removes a credits row; the call log grows exactly when the request passes every guard |
| `GenerateImage.Serve` | supabase/functions/generate-image/index.ts:11-141 | Running the handler against the live backend yields the response and the new tables and call log that `Handle` gives for the old state |
| `GenerateImage.PreflightAnsweredFirst` | supabase/functions/generate-image/index.ts:13-15 | An OPTIONS request gets the bare preflight response (200, no error) whatever the session, tables and generator would say, and nothing changes |
| `GenerateImage.MissingHeaderRejected` | supabase/functions/generate-image/index.ts:19-25 | An absent or empty Authorization header gives 401 "No authorization header", independent of session, credits and generator, with nothing changed |
| `GenerateImage.UnauthenticatedRejected` | supabase/functions/generate-image/index.ts:35-45 | A session lookup that errs or returns no user gives 401 "Not authenticated" and leaves the ledger unchanged |
| `GenerateImage.CreditsUnreadableRejected` | supabase/functions/generate-image/index.ts:48-59 | A failed credits read or a missing credits row gives 400 "Could not fetch user credits" with no mutation |
| `GenerateImage.InsufficientCreditsRejected` | supabase/functions/generate-image/index.ts:61-75 | A balance under 10 (or null) gives 402 with creditsNeeded 10 and currentCredits the balance read, with no mutation, whatever the body holds, so the credit check wins over a missing prompt |
| `GenerateImage.MissingPromptRejected` | supabase/functions/generate-image/index.ts:69-75 | An absent or empty prompt gives 400 "No prompt provided" with no generation and no charge |
| `GenerateImage.BlankPromptAdmitted` | supabase/functions/generate-image/index.ts:69-85 | For any session, tables and outside results that pass the other guards, any non-empty prompt made only of blanks passes the truthiness check, and the first call the request makes is the generator call with that prompt |
| `GenerateImage.ClientConstructionFails` | supabase/functions/generate-image/index.ts:28-32 | When building the Supabase client throws (for an empty URL or key), the outer handler answers 500 with its message before the session is looked up, and nothing changes |
| `GenerateImage.UnparsableBodyFails` | supabase/functions/generate-image/index.ts:134-139 | A body that is not JSON ends in 500 with the parser's message and nothing changed |
| `GenerateImage.RejectionChangesNothing` | supabase/functions/generate-image/index.ts:13-75 | Every early response leaves tables and call log as they were, and none of them is a 200 other than the preflight |
| `GenerateImage.GenerationFailureChargesNothing` | supabase/functions/generate-image/index.ts:82-139 | When generation or the byte conversion throws, the response is 500 with the exception's message, and the only change is the logged generator call: no generation row, no deduction, no transaction row |
| `GenerateImage.GeneratedResponse` | supabase/functions/generate-image/index.ts:90-133 | After an image, the calls are the generator, the generation insert whose result_url is the returned image, deduct_credits(10), then the transaction insert of 10 for image_generation, in that order; the response is 200 with the image equal to the `data:image/png;base64,` URL of the generated bytes and remainingCredits = balance read − 10 ≥ 0, whichever writes failed |
| `GenerateImage.GeneratedWrites` | supabase/functions/generate-image/index.ts:93-128 | Each of the three writes lands exactly when it succeeds: the generation row, the transaction row, and the balance lowered by 10; other users are untouched; the stored balance equals remainingCredits exactly when the deduction succeeded |
| `GenerateImage.HandleCorrespondence` | supabase/functions/generate-image/index.ts:106-128 | A request keeps "spent = initial − balance" exactly when it is not a generated image or the deduction and the transaction insert both succeed or both fail |
| `GenerateImage.HandleKeepsNonNegative` | supabase/functions/generate-image/index.ts:61-115 | With non-negative stored balances before, the request leaves them non-negative: the deduction happens only after the balance ≥ 10 guard |
| `Base64.Encode` | supabase/functions/generate-image/index.ts:89 | The encoding has four characters per started group of three bytes, all from the base 64 alphabet or `=` |
| `Base64.DecodeEncode` | supabase/functions/generate-image/index.ts:89 | Decoding the encoded text gives back the image bytes |
| `Base64.DataUrl` | supabase/functions/generate-image/index.ts:90 | The URL starts with `data:image/png;base64,` and the rest decodes back to the image bytes |
| `Wrappers.Truthy` | supabase/functions/generate-image/index.ts:20 | An optional string is truthy exactly when it is present and non-empty (the same test at index.ts:70 and Dashboard.tsx:108) |
| `Ledger.Backend.RequestImage` | supabase/functions/generate-image/index.ts:82-85 | Calling the generator is logged and changes no table |
| `Ledger.Backend.InsertGenerationRow` | supabase/functions/generate-image/index.ts:93-104 | The generation row is appended only when the insert succeeds; the call is logged either way |
| `Ledger.Backend.DeductCreditsRpc` | supabase/functions/generate-image/index.ts:106-115 | On success a non-null balance drops by the amount; on failure nothing changes; the call is logged either way |
| `Ledger.Backend.InsertTransactionRow` | supabase/functions/generate-image/index.ts:117-128 | The transaction row is appended only when the insert succeeds; the call is logged either way |
| `Ledger.Backend.UpdateBalance` | src/pages/Dashboard.tsx:84-91 | On success an existing row is overwritten with the given balance; a missing row stays missing; on failure nothing changes |
| `Ledger.CorrespondsTransitive` | supabase/functions/generate-image/index.ts:106-128 | Steps that each keep "spent = initial − balance" keep it over the whole run, so the per-write and per-request results compose: the deduction then transaction insert here, and the update then insert at Dashboard.tsx:84-104, over any sequence of requests |
| `Dashboard.Features` | src/pages/Dashboard.tsx:141-166 | Every feature costs a positive amount, titles are distinct, and only "AI Image Generation" carries a redirect path |
| `Dashboard.FeaturePrices` | src/pages/Dashboard.tsx:141-166 | The costs are 10 for AI Image Generation, 10 for AI Image Enhancer and 20 for AI Watermark Remover, and Image Generation redirects to /ai-image-generation |
| `Dashboard.ButtonDisabled` | src/pages/Dashboard.tsx:251 | An enabled button means the feature is not processing and the page's balance covers the cost; a balance below the cost always disables it |
| `Dashboard.ShownBalance` | src/pages/Dashboard.tsx:67 | The shown balance is 0 exactly when the row is missing, null or 0, and otherwise is the stored value |
| `Dashboard.DashboardPage.constructor` | src/pages/Dashboard.tsx:35-36 | The page starts with 0 credits and no feature processing |
| `Dashboard.Fetched` | src/pages/Dashboard.tsx:58-72 | A read never touches processingFeature; a failed read leaves the page as it was; a successful read of a non-null balance shows exactly that balance |
| `Dashboard.DashboardPage.FetchUserCredits` | src/pages/Dashboard.tsx:58-72 | A successful read sets the page's credits to the shown balance; a failed read leaves the page as it was |
| `Dashboard.FetchShowsStoredBalance` | src/pages/Dashboard.tsx:58-72 | After a successful read the page shows the stored non-null balance, or 0 for a missing row or null, and processingFeature is untouched |
| `Dashboard.FeatureUse` | src/pages/Dashboard.tsx:74-122 | A spend adds at most one transaction row and only appends, writes no generation row, creates or removes no credits row and leaves other users' balances alone; whenever the page's credits change they drop by exactly the cost and the page moves on |
| `Dashboard.DashboardPage.HandleFeatureUse` | src/pages/Dashboard.tsx:74-122 | The method's page state, backend state and next step are those `FeatureUse` gives for the old page and backend state |
| `Dashboard.EnabledButtonReachesBackend` | src/pages/Dashboard.tsx:251 | A click on an enabled button always passes the balance check and sends the update of the cached balance minus the cost |
| `Dashboard.ButtonDisabledAfterSuccess` | src/pages/Dashboard.tsx:251 | After a successful spend, the feature's button is disabled while processingFeature still names it |
| `Dashboard.InsufficientCreditsChangesNothing` | src/pages/Dashboard.tsx:76-81 | With cached credits below the cost nothing is written, credits are unchanged and processingFeature stays set to the feature |
| `Dashboard.FeatureUseSucceeds` | src/pages/Dashboard.tsx:84-116 | On success the stored balance becomes the cached credits − cost (≥ 0), exactly one transaction row with the cost and feature name is added, and the page's credits drop by exactly the cost; the next step is the redirect when there is one, the completion timer otherwise |
| `Dashboard.UpdateFailureChargesNothing` | src/pages/Dashboard.tsx:84-121 | A failed balance update writes no transaction row, keeps the page's credits and resets processingFeature |
| `Dashboard.InsertFailureLeavesUnrecordedDebit` | src/pages/Dashboard.tsx:84-121 | An insert failure after a successful update leaves the stored balance debited with no row, the page's credits unchanged, processingFeature reset, and "spent = initial − balance" broken |
| `Dashboard.FeatureUseCorrespondence` | src/pages/Dashboard.tsx:78-104 | With a fresh cache and a positive cost, the ledger adds up after a spend exactly unless the update succeeded and the insert failed |
| `Dashboard.StaleBalanceBreaksCorrespondence` | src/pages/Dashboard.tsx:78-89 | When the cached balance differs from the stored one, even a fully successful spend leaves a stored balance that the new row does not explain |
| `Dashboard.MissingRowRecordsUnbackedSpend` | src/pages/Dashboard.tsx:84-102 | With no credits row the update silently matches nothing, so a spend is recorded while no balance moves |
| `Dashboard.FeatureUseKeepsNonNegative` | src/pages/Dashboard.tsx:78-89 | The only balance a spend writes is the cached credits − cost past the guard, so stored balances stay non-negative |

## Left out

- Concurrency: the read at index.ts:48 and the deduction at index.ts:107 can interleave with other requests. So can the cached value at Dashboard.tsx:78 and the write at Dashboard.tsx:86. The model runs one request at a time.
- The body of the `deduct_credits` stored procedure is not part of this model. `State.Deducted` assumes it lowers a non-null balance by the amount or fails without effect.
- Supabase and Hugging Face clients, `auth.getUser` and `textToImage` are outside results given as parameters. `SUPABASE_URL` and `SUPABASE_ANON_KEY` enter only through whether building the client throws (`Services.clientError`); which values make it throw is decided by the client library and is not modelled. A missing Hugging Face access token, or an argument-count limit hit by the `String.fromCharCode(...)` spread, is an exception during generation and falls under `Threw`.
- The `details` field of the 401 and 400 bodies is not modelled. It carries the client library's error object.
- CORS header contents, `Content-Type`, `console.*`, toasts, JSX, styling and `handleSignOut` are presentation only.
- Navigation is modelled only as the `Next` value that `HandleFeatureUse` returns. The 2000 ms timer callback that announces completion and clears `processingFeature` is not run.
- The request body is either unparsable or an object with an optional string `prompt`. A prompt that is a non-string JSON value is not modelled.
- `handleFeatureUse` with no signed-in user (`user.id` on null) is not modelled. With no user the page's credits stay 0, so for the positive costs of the feature table the balance check returns first.
- `checkUser` and the `loading` flag only sequence the read and redirect, so they are not modelled.
- Balances are unbounded integers. JavaScript numbers are doubles, which makes no difference for credit counts of realistic size.
- `src/pages/AIImageGeneration.tsx` (a simulated generator), `src/pages/Auth.tsx` and the marketing and routing pages do no credit accounting.
