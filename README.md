# Paid-access tokens and the human challenge, modelled in Dafny

The web app sells one handwriting analysis per token. An administrator issues
a token after payment. Before the gated feature opens, the client must pass
two checks: a short arithmetic "human challenge" and a token check. This
project models the server and service code that runs those checks:

- `api/challenge.ts` issues the question and stores its answer.
- `api/verify-token.ts` checks the challenge and then the token.
- `api/validate-token.ts` selects an unused token and then marks it used.
- `services/tokenService.ts` verifies a token with first-device binding and burns it.
- `services/geminiService.ts` has the two phone-number formatters used in the report e-mail.

The Supabase tables `human_challenges` and `tokens` are maps from row id to
record. They are the two fields of the class `Store.Database`. Each endpoint
is a method over that object. Its `ensures` ties the response and the new
table to a pure outcome function of the old table. The properties are stated
on those functions and in lemmas about them, and those lemmas relate calls
made one after another.

Things the code gets from outside are parameters:

- the clock (`now`, in milliseconds);
- the three `Math.random()` draws, as reals in [0, 1);
- the id the store assigns to a new challenge row;
- whether the store configuration is present;
- whether the store carries out each write (`insertApplied`, `deleteApplied`, `updateApplied`).

Supabase's `.single()` succeeds only when exactly one row matches.
`Store.UniqueKey` models this: it gives the matching id, or an error when no
row or more than one row matches.

Files:

- `store.dfy`: records, responses, row matching, `.single()`, and the `Database` class.
- `challenge_api.dfy`, `verify_token_api.dfy`, `validate_token_api.dfy`, `token_service.dfy`: one module per source file.
- `phone_format.dfy`: the phone formatters.
- `login_flow.dfy`: lemmas that span several endpoints.

Points where the model follows what the code does, which is not always what its own comments announce (`// HAPUS CHALLENGE (ONE-TIME USE)` at api/verify-token.ts:62, `// Bind ke device pertama` at services/tokenService.ts:29):

- The login endpoint deletes a challenge only after a correct, unexpired
  answer, and awaits the delete without checking its result. A wrong answer
  leaves the challenge in place, so the same challenge can be tried again.
- The login endpoint never burns the token and ignores the device id. Here a
  token stays redeemable after a successful login (`LoginFlow.LoginDoesNotBurn`).
- The login and check-then-burn endpoints match the secret in column `token`.
  The token service matches it in column `code`. `TokenRow` keeps both columns.
- The check-then-burn endpoint answers `{ ok: true }` even when the store did
  not carry out its update. The token then stays usable
  (`ValidateTokenApi.LostUpdateAllowsReuse`).
- There is no rate limiting and no attempt log in this code, so the model has neither.
- A device id is bound only when it is truthy. Binding the empty string leaves
  the token unbound, so the next device may still bind it.

## Model

| member | source | states |
|---|---|---|
| `ChallengeApi.Operand` | api/challenge.ts:15-16 | an operand drawn as `floor(r * 9) + 1` with `r` in [0, 1) lies in 1..9 |
| `ChallengeApi.PickOp` | api/challenge.ts:17-18 | the operator index `floor(r * 2)` selects `+` exactly when `r < 0.5`, otherwise `-` |
| `ChallengeApi.DigitText` | api/challenge.ts:25-30 | an operand 0..9 is written as the single digit character that reads back as its value |
| `ChallengeApi.MakeQuestion` | api/challenge.ts:20-33 | with `+` the answer is a + b (2..18) and the text reads "a + b = ?"; with `-` the text puts the larger operand first and the answer is max - min (0..8) |
| `ChallengeApi.SolveMakeQuestion` | api/challenge.ts:23-31 | solving the question text as arithmetic gives exactly the stored answer |
| `ChallengeApi.Drawn` | api/challenge.ts:14-34 | any three draws give an answer in 0..18 that the question text determines |
| `ChallengeApi.IssueOutcome` | api/challenge.ts:41-77 | non-GET gives 405 and no configuration gives 500, neither inserting; a refused insert gives 500 "Gagal membuat challenge" with the table unchanged; otherwise 200 with only the id and the question, and the table gains exactly the new row with its answer and expiry |
| `ChallengeApi.Handler` | api/challenge.ts:37-84 | the endpoint's response and new challenge table are those of `IssueOutcome` |
| `Store.EvolveKeepsMatches` | services/tokenService.ts:8-13 | a device bind or a burn never changes which rows match a phone and code, and no row ever rejoins the unused rows matching a phone and token |
| `Store.UniqueKey` | services/tokenService.ts:13 | the lookup yields an id exactly when one row matches, and that id is the only match |
| `Store.BurnRemovesMatch` | api/validate-token.ts:36-43 | burning a row is an allowed change of the table (ids, phone, secrets and a bound device stay) and removes exactly that row from the unused rows matching any phone and token |
| `VerifyTokenApi.Outcome` | api/verify-token.ts:17-86 | non-POST gives 405, no configuration 500 and incomplete input 400, all with no change; a stored challenge past its expiry gives 400 "Soal verifikasi sudah kedaluwarsa" with no change, whatever the answer; a passed challenge with no unique unused token gives 400 "Token tidak valid atau sudah digunakan"; 200 `{success:true}` exactly when the challenge exists, is unexpired, is answered right and exactly one unused token matches phone and token; the challenge table is either unchanged or loses just that challenge, and only after it passed |
| `VerifyTokenApi.Handler` | api/verify-token.ts:13-93 | the endpoint's response and new challenge table are those of `Outcome`; the token table is left as it was |
| `VerifyTokenApi.ZeroAnswerIsPresent` | api/verify-token.ts:30-34 | an answer of 0 counts as given; an undefined answer or an empty field makes the input incomplete |
| `VerifyTokenApi.AnswerMatchesExactly` | api/verify-token.ts:56 | `Number(answer) !== challenge.answer` accepts only an integral answer equal to the stored one; NaN, a fraction or an absent answer never match |
| `VerifyTokenApi.ChallengeChecks` | api/verify-token.ts:38-60 | for complete input the challenge passes (exists, unexpired, right answer) exactly when the endpoint answers with none of the three challenge errors |
| `VerifyTokenApi.UnknownChallenge` | api/verify-token.ts:38-48 | an unknown challenge id gives 400 "Soal verifikasi tidak valid" and both tables stay unchanged |
| `VerifyTokenApi.ExpiryBoundary` | api/verify-token.ts:50-54 | whatever the answer, a challenge is not expired at its expiry instant and is refused as expired one millisecond later |
| `VerifyTokenApi.WrongAnswerKeepsChallenge` | api/verify-token.ts:56-60 | a wrong answer gives 400 "Jawaban verifikasi salah" and the challenge is not deleted |
| `VerifyTokenApi.ChallengeSingleUse` | api/verify-token.ts:62-81 | when the store carries out the delete, a correctly answered challenge is gone even if the token check fails, so a second request with that id is refused as unknown |
| `VerifyTokenApi.LostDeleteAllowsRetry` | api/verify-token.ts:62-66 | when the store drops the delete, whose result is not looked at, the correctly answered challenge stays and the same request passes the challenge checks again |
| `TokenService.VerifyOutcome` | services/tokenService.ts:3-50 | no unique phone+code match gives "Token tidak valid", a used match "Token sudah digunakan", and an unbound match whose bind the store refuses "Gagal memverifikasi perangkat", all with no write; success exactly for an unused match that is unbound with the bind accepted, or bound to this device; a success on an unbound row stores exactly that device id on that row; `used` and `used_at` never change |
| `TokenService.VerifyToken` | services/tokenService.ts:3-50 | the service's result and new token table are those of `VerifyOutcome` |
| `TokenService.BoundDevice` | services/tokenService.ts:42-49 | a bound token succeeds with no write for its own device and fails with no write for any other |
| `TokenService.FirstDeviceWins` | services/tokenService.ts:30-47 | after the first device binds an unbound token, a different device is refused |
| `TokenService.EmptyDeviceLeavesUnbound` | services/tokenService.ts:29-41 | `!data.device_id` treats an empty device id as unbound: verifying with "" succeeds and stores it, yet the token stays unbound and the next device still binds it |
| `TokenService.BurnOutcome` | services/tokenService.ts:52-64 | a successful burn sets `used` and `used_at = now` on that row only; a refused update throws "Gagal mengunci token" and changes nothing |
| `TokenService.BurnToken` | services/tokenService.ts:52-64 | the method's result and new token table are those of `BurnOutcome` |
| `TokenService.BurnedTokenNeverVerifies` | services/tokenService.ts:22-27 | once burned, a token fails every later verification with its phone and code, from any device |
| `ValidateTokenApi.Outcome` | api/validate-token.ts:9-46 | non-POST gives 405 and a missing token or phone gives 400, with no change; no unique unused match gives 401 "invalid or used token" with no change; success is 200 `{ok:true}` exactly when one unused row matches, and with the update applied that row alone becomes used at `now` |
| `ValidateTokenApi.Handler` | api/validate-token.ts:9-46 | the endpoint's response and new token table are those of `Outcome` |
| `ValidateTokenApi.SecondRequestRefused` | api/validate-token.ts:24-43 | when the first request's update is carried out, the second of two identical requests gets 401 and changes nothing |
| `ValidateTokenApi.LostUpdateAllowsReuse` | api/validate-token.ts:37-45 | when the store drops the update, the endpoint still answers 200 and the token passes again |
| `LoginFlow.IssuedChallengePasses` | api/verify-token.ts:50-60 | an issued challenge answered by solving its question passes up to 120000 ms after issuance, and only then |
| `LoginFlow.LoginDoesNotBurn` | api/verify-token.ts:69-86 | a successful login leaves the token usable for another login |
| `LoginFlow.BurnClosesLogin` | api/validate-token.ts:36-43 | after the check-then-burn endpoint burns a token, the login check refuses that phone and token |
| `PhoneFormat.Clean` | services/geminiService.ts:64 | stripping non-digits leaves only digits and keeps a string exactly when it is all digits |
| `PhoneFormat.PrefixSlice` | services/geminiService.ts:65-72 | `startsWith` and `slice` fit together: a string starting with p is p followed by its slice past p, and slicing p off p + s gives s |
| `PhoneFormat.CleanAppend` | services/geminiService.ts:64 | stripping non-digits from a + b gives a's digits followed by b's |
| `PhoneFormat.FormatPhoneReadable` | services/geminiService.ts:63-68 | the result is the input unchanged, or "+62 " followed by digits only |
| `PhoneFormat.ReadableCountryCode` | services/geminiService.ts:65-72 | digits starting with "62" are shown as "+62 " followed by the digits after 62, and their WhatsApp form is the digits unchanged |
| `PhoneFormat.ReadableTrunk` | services/geminiService.ts:66 | digits starting with a trunk "0" are shown as "+62 " followed by the digits after the 0 |
| `PhoneFormat.ReadableAgreesWithWA` | services/geminiService.ts:63-73 | with digits starting "62" or "0", the display form is "+62 " followed by the WhatsApp form's national part |
| `PhoneFormat.ReadableFallback` | services/geminiService.ts:67 | digits starting with neither "62" nor "0" leave the original input unchanged, not the stripped digits |
| `PhoneFormat.ReadableTrunkExample` | services/geminiService.ts:66 | "08-12" is shown as "+62 812" |
| `PhoneFormat.ReadableCountryCodeExample` | services/geminiService.ts:65 | "+62 812" is shown as "+62 812" |
| `PhoneFormat.ReadableFallbackExample` | services/geminiService.ts:67 | "(812) 34" is shown as typed |
| `PhoneFormat.FormatPhoneWA` | services/geminiService.ts:70-73 | the WhatsApp form has digits only and always starts with "62" |
| `PhoneFormat.WAIdempotent` | services/geminiService.ts:70-73 | applying the WhatsApp form twice gives the same result as once |
| `PhoneFormat.WADropsFirstDigit` | services/geminiService.ts:72 | digits not starting with "62" lose their first digit and get "62" in front; no digits gives "62" |
| `PhoneFormat.WATrunkExample` | services/geminiService.ts:72 | "0812" becomes "62812" |
| `PhoneFormat.WACountryCodeExample` | services/geminiService.ts:72 | "+62 812" becomes "62812" |
| `PhoneFormat.WALosesDigitWithoutTrunkPrefix` | services/geminiService.ts:72 | "8123" becomes "62123" under the written rule and "628123" under the intended one |
| `PhoneFormat.FormatPhoneWAIntended` | services/geminiService.ts:70-73 | the intended WhatsApp form is "62" followed by the national number, digits only |
| `PhoneFormat.WAIntendedKeepsEveryDigit` | services/geminiService.ts:72 | a number without a trunk or country prefix keeps every digit after "62" |
| `PhoneFormat.WAIntendedIdempotent` | services/geminiService.ts:70-73 | the intended form is idempotent |
| `PhoneFormat.WAIntendedAgreesOnRecognised` | services/geminiService.ts:72 | the intended and written forms agree whenever the digits start with "62" or "0" |

## Findings

| source | as written | input that shows it | evidently intended | confidence | as-written member | corrected member |
|---|---|---|---|---|---|---|
| services/geminiService.ts:72 | when the digits do not start with "62", the first digit is dropped and "62" is put in front | "8123" (a mobile number typed without its leading 0) becomes "62123" | replace a leading trunk "0" with "62", and otherwise put "62" before all the digits ("628123") | medium, not executed | `PhoneFormat.WALosesDigitWithoutTrunkPrefix` | `PhoneFormat.FormatPhoneWAIntended` |

## Left out

- The `try`/`catch` blocks that answer 500 "Sistem tidak tersedia" are not modelled. They catch exceptions thrown by the store client, network faults for instance. The model's store never throws.
- Network or database failures on reads are not modelled. The model's reads always see the table as it is. In the source a failed read takes the same branch as "no row" or "more than one row", so the model gives that response only when the table really has no unique match, and not for a failed read of a row that exists.
- Write failures are modelled only as a yes/no parameter. Error payloads and logging (`console.error`) are left out.
- `TokenService.VerifyOutcome` and `TokenService.BurnOutcome`: `updateApplied` means both "the update reported no error" and "the update took effect". A store update can report no error yet change no row, for instance when a row-level policy hides the row from the browser client of services/supabaseClient.ts. Then `verifyToken` would succeed with the token still unbound, and `burnToken` would return normally with the token unused. The model does not express either case.
- `ChallengeApi.Operand` and `ChallengeApi.PickOp`: the `Math.random()` draws are modelled as exact reals, not doubles. In the source `r * 9` is rounded, so a few draws just below a multiple of 1/9 give the next operand up: r = 0.4444444444444444 gives 5 in JavaScript and 4 here. Every draw still lands in 1..9, so no stated property depends on this.
- api/validate-token.ts builds its client with `process.env...!` and has no configuration guard. A missing configuration throws when the module loads. services/supabaseClient.ts throws at load time too. Neither case is modelled.
- Concurrency: the select-then-update race in api/validate-token.ts:24-43 and services/tokenService.ts:8-41 cannot be expressed in a sequential model. All properties are about calls made one after another.
- A missing or null request body throws before the input check (api/verify-token.ts:27, outside its `try`; api/validate-token.ts:17, which has no `try`), so the client gets the platform's 500 rather than the 400 for incomplete input. This input is not modelled.
- Request bodies are modelled as optional strings. Truthiness is "present and non-empty". Non-string JSON values (numbers, booleans) for phone, token or challengeId are not modelled.
- `VerifyTokenApi.AnswerField` holds the result of JavaScript's `Number(answer)` (an integer, or NaN or a fraction). How `Number` converts strings, booleans and null is not modelled.
- ISO date strings are modelled as millisecond integers. The round trip through `toISOString` and `new Date` keeps millisecond precision.
- The challenge question text uses single digits, because both operands are always 1..9. `DigitText` is only defined for those values.
- `ChallengeApi.IssueOutcome`: the store generates the row id, so `newId` is a parameter. An id that is already taken is treated as a refused insert (a primary-key conflict).
- Rate limiting and an attempt log are absent from this code and so from the model.
- `sendReportToAdmin` (e-mail sending, `toLocaleString` timestamps) and the Gemini fetch wrappers in services/geminiService.ts are external services. Only the two phone formatters from that file are modelled.
- App.tsx, components/Layout.tsx, api/analyze.ts, api/analyze/index.ts, api/analyze-context.ts, services/analyzeViaServer.ts and types.ts are UI, AI calls and data shapes. They are not part of this model.
