# Batch verification of ADI Group Trust Identity, in Dafny

The trust portal lets a buyer type the batch code printed on a food pack
and get back that batch's lab-report record. Two pieces of code decide the
answer, and they follow different rules. This project models both and
proves what they do.

- **The client verifier** (`verifyBatch` in `services/verificationService.ts`)
  runs three gates in order:
  - the mobile number must be a 10-digit Indian number;
  - the email is checked only when it is not blank;
  - a location must be present and not blank.

  It then looks the batch code, trimmed and upper-cased, up in a constant
  registry of two records. The result is the record or an error message,
  never both, and a missed lookup also writes an `[AUDIT]` warning.
- **The backend handler** (`exports.verifyBatch` in `backend/cloud_function.js`)
  works in these steps:
  - it sets the CORS origin header and answers an `OPTIONS` pre-flight at once;
  - it requires full name, mobile, email and batch code, then checks the
    mobile and email formats with the same two patterns as the client;
  - it writes one structured log entry;
  - it downloads `batch-index.json` from the bucket and looks up the
    normalised code;
  - it checks that the report file exists and signs a v4 read URL that
    expires fifteen minutes later;
  - it answers 200, 204, 400, 404 or 500, and any storage fault becomes a 500.

The modules, one file each:

- `Wrappers` (wrappers.dfy): `Option`, for JavaScript values that may be `undefined`.
- `JsText` (js_text.dfy): the JavaScript string operations the core relies on.
  - The white-space class shared by the `\s` escape and `trim`.
  - `trim`, given by the lengths `Lead` and `Trail` of the white-space runs it cuts.
  - ASCII case mapping.
  - The batch-code normalisation `code.trim().toUpperCase()`.
- `InputFormats` (input_formats.dfy): the two field tests, shared by both rule sets.
  - The mobile pattern `^[6-9]\d{9}$` as a character predicate.
  - The email pattern `^[^\s@]+@[^\s@]+\.[^\s@]+$` as a scan, proved equal to
    the language the pattern denotes.
- `VerificationService` (verification_service.dfy): the client registry and
  `verifyBatch`, written as pure functions with lemmas.
- `CloudFunction` (cloud_function.dfy): the backend in two forms.
  - `Handle` gives everything one call does as a value: status, headers, body,
    and the ordered trace of log lines and storage calls.
  - The imperative handler `VerifyBatch` takes the same steps on a `Response`
    object (`res`) and a `Platform` object (console, storage and clock), and
    is proved to leave exactly the state that `Handle` describes.
- `RuleSets` (rule_sets.dfy): the client and backend gate chains side by side.

Inputs that the model takes as parameters:

- **Cloud Storage** is three functions in `Env`:
  - `loadIndex`: the download of `batch-index.json` and its `JSON.parse`;
  - `fileExists`: `exists` on a report file;
  - `signUrl`: `getSignedUrl`.

  Each of them either returns a value or throws.
- **The `STORAGE_BUCKET_NAME` setting** is `Env.bucketSetting`.
- **The clock** is two separate readings: `isoNow` for the log entry and
  `nowMs` for the expiry.

## Model

| member | source | states |
|---|---|---|
| JsText.IsWhitespace | backend/cloud_function.js:16 | the white-space class of `\s` and of `trim`, the ECMAScript WhiteSpace and LineTerminator code points; no contract of its own, it is what `TrimSpec` and `EmailCheckMatchesPattern` are stated in |
| JsText.Trim | services/verificationService.ts:88 | `String.prototype.trim`; no contract of its own, its meaning is `TrimSpec` together with `TrimUnique` |
| JsText.ToUpper | services/verificationService.ts:88 | `toUpperCase` as `UpperChar` on every character; no contract of its own, its effect on codes is stated by `Normalise`, `NormalisedIffFixed` and `NormaliseIgnoresCase` |
| JsText.ToLower | services/verificationService.ts:88 | `toLowerCase` as `LowerChar` on every character; no contract of its own, it states what `NormaliseIgnoresCase` and `SpellingsOfOneCodeAgree` promise about a lower-cased code |
| JsText.LeadStopsAtText | services/verificationService.ts:88 | the front run that `trim` cuts is all white space and stops at the first other character |
| JsText.TrailStopsAtText | services/verificationService.ts:88 | the back run that `trim` cuts is all white space and stops at the last other character |
| JsText.TrimSpec | services/verificationService.ts:88 | `trim` returns a slice of its input, trimmed at both ends, with only white space cut away before and after it |
| JsText.TrimUnique | services/verificationService.ts:83 | whatever trimmed text is padded with white space on both sides, `trim` gives it back, so `trim` is fully determined by `TrimSpec` |
| JsText.TrimIdempotent | services/verificationService.ts:83 | trimming twice is trimming once |
| JsText.TrimIgnoresPadding | services/verificationService.ts:88 | extra white space on either side does not change the trimmed text |
| JsText.TrimCommutes | services/verificationService.ts:88 | any character map that keeps white space commutes with `trim` |
| JsText.UpperChar | services/verificationService.ts:88 | after `toUpperCase` on one character no lower-case ASCII letter is left; the result is an upper-case ASCII letter exactly when the input is an ASCII letter of either case; white space stays white space and nothing else becomes white space |
| JsText.LowerChar | services/verificationService.ts:88 | after `toLowerCase` on one character no upper-case ASCII letter is left; the result is a lower-case ASCII letter exactly when the input is an ASCII letter of either case; white space stays white space and nothing else becomes white space |
| JsText.Normalise | backend/cloud_function.js:64 | a normalised code is trimmed, has no lower-case ASCII letter, and is no longer than the input |
| JsText.NormalisedIffFixed | services/verificationService.ts:88 | normalisation leaves a code unchanged if and only if the code is trimmed and has no lower-case ASCII letter |
| JsText.NormaliseIdempotent | services/verificationService.ts:88 | normalising twice is normalising once |
| JsText.NormaliseIgnoresCase | services/verificationService.ts:88 | lower- or upper-casing a code first does not change its normalised form |
| JsText.NormaliseIgnoresPadding | services/verificationService.ts:88 | white space around a code does not change its normalised form |
| InputFormats.IsValidMobile | backend/cloud_function.js:15 | `^[6-9]\d{9}$`, shared with services/verificationService.ts:70: ten characters, the first in `6`-`9` and the other nine ASCII digits; no contract of its own, it is used by `MobileCheckedFirst`, `Validate` and `FormatGatesAgree` |
| InputFormats.IsValidEmail | backend/cloud_function.js:16 | the email scan; no contract of its own, its meaning is `EmailCheckMatchesPattern` |
| InputFormats.EmailCheckMatchesPattern | backend/cloud_function.js:16 | the email scan accepts exactly the strings in the language of `^[^\s@]+@[^\s@]+\.[^\s@]+$`: three runs without white space or `@`, split by an `@` and a later `.` |
| VerificationService.IsBlank | services/verificationService.ts:78-83 | `!s` or `s.trim() === ''`, that is, the text trims to nothing; no contract of its own, used by `ValidateInput`, `BlankEmailIsIgnored` and `LocationCheckedThird` |
| VerificationService.VerifyBatch | services/verificationService.ts:60-105 | the client's `verifyBatch` without its latency; no contract of its own, its meaning is stated by `MobileCheckedFirst`, `EmailCheckedSecond`, `LocationCheckedThird`, `RejectedInputSkipsLookup`, `LookupOutcome`, `OnlyNormalisedCodeMatters` and `RegisteredCodeVerifies` |
| VerificationService.ValidateInput | services/verificationService.ts:70-85 | the gates all pass exactly when the mobile is valid, the email is blank or valid, and the location is present and not blank |
| VerificationService.MobileCheckedFirst | services/verificationService.ts:73-75 | the result is the mobile error exactly when the mobile is malformed, whatever the email and location hold |
| VerificationService.EmailCheckedSecond | services/verificationService.ts:77-80 | with a valid mobile, the result is the email error exactly when the email is not blank and malformed, whatever the location holds |
| VerificationService.BlankEmailIsIgnored | services/verificationService.ts:77-80 | a blank email gives the same result as an empty one: it never causes a failure |
| VerificationService.LocationCheckedThird | services/verificationService.ts:82-85 | with valid contact fields, the result is the location error exactly when the location is absent or blank |
| VerificationService.RejectedInputSkipsLookup | services/verificationService.ts:73-93 | input that fails a gate gives a result that does not depend on the batch code, and writes no audit warning, so the registry is not consulted |
| VerificationService.RegistryKeysAreNormalisedCodes | services/verificationService.ts:13-50 | every registry key equals its record's `code` and is already in normalised form |
| VerificationService.OnlyNormalisedCodeMatters | services/verificationService.ts:88-89 | two batch codes with the same normalised form get the same result |
| VerificationService.SpellingsOfOneCodeAgree | services/verificationService.ts:88-89 | a code, its lower-case form, the code padded with spaces, and its normalised form all get the same result |
| VerificationService.LookupOutcome | services/verificationService.ts:87-104 | success happens exactly when the gates pass and the normalised code is a key; the data is then that key's record, whose code is the normalised code; any other input that passes the gates is "not found" |
| VerificationService.AuditWarnings | services/verificationService.ts:91-93 | at most one `[AUDIT]` warning is written, and one is written exactly when the result is "not found" |
| VerificationService.FormCallAlwaysRejected | components/BatchVerification.tsx:32-36 | the form calls `verifyBatch` without a location, so every such call is rejected by one of the three gates |
| VerificationService.RegisteredCodeVerifies | services/verificationService.ts:60-104 | a well-formed request for `ADIF5HW825`, typed as printed or as `adif5hw825 `, returns the Tomato Pulp record |
| CloudFunction.Truthy | backend/cloud_function.js:33 | a field passes `!field` exactly when it is present and not empty; no contract of its own, used by `Validate` and `MissingFieldIsRejected` |
| CloudFunction.BucketName | backend/cloud_function.js:55 | the `STORAGE_BUCKET_NAME` setting when truthy, else `adi-bharat-reports`; no contract of its own, it names the bucket in the effects that `ResolveDownloadsFirst` and `UnknownCodeIsNotFound` state |
| CloudFunction.EntryFor | backend/cloud_function.js:46-52 | the log entry of raw fields and user agent; no contract of its own, `AuditedExactlyWhenValidated` states that it is the one entry written |
| CloudFunction.Resolve | backend/cloud_function.js:55-69 | the storage part from the download on; no contract of its own, its meaning is `ResolveDownloadsFirst`, `ResolvedExactlyWhenSigned`, `UnknownCodeIsNotFound` and `StorageFaultIsInternalError` |
| CloudFunction.IssueReport | backend/cloud_function.js:72-95 | the existence check and signing; no contract of its own, its meaning is `IssueReportChecksFirst`, `IssuedExactlyWhenSigned` and `MissingReportIsServerError` |
| CloudFunction.Validate | backend/cloud_function.js:33-43 | validation passes exactly when all four fields are present and not empty, the mobile is valid and the email is valid |
| CloudFunction.Handle | backend/cloud_function.js:18-101 | every answer allows any origin, and its status is 200, 204, 400, 404 or 500 |
| CloudFunction.PreflightShortCircuits | backend/cloud_function.js:22-27 | a pre-flight gets 204, an empty body, origin `*`, methods `POST` and headers `Content-Type`, with no validation, log line or storage call |
| CloudFunction.MissingFieldIsRejected | backend/cloud_function.js:33-35 | a missing or empty field gives 400 "Missing required fields" before any format check, with nothing logged or fetched |
| CloudFunction.FormatChecksInOrder | backend/cloud_function.js:37-43 | a malformed mobile gives 400 "Invalid Indian mobile number" whatever the email holds; otherwise a malformed email gives 400 "Invalid email format"; neither is logged |
| CloudFunction.AuditedExactlyWhenValidated | backend/cloud_function.js:45-61 | exactly one audit entry is written, and only for a validated non-pre-flight request; it is the first effect, carries the raw fields, and comes before the index download |
| CloudFunction.UnknownCodeIsNotFound | backend/cloud_function.js:64-69 | a normalised code missing from the index gives 404 "Batch code not found"; the only effects are the log entry and the download, so nothing is signed |
| CloudFunction.MissingReportIsServerError | backend/cloud_function.js:72-78 | a report file that does not exist gives 500 "Report file missing from system"; the missing path is logged and nothing is signed |
| CloudFunction.IssueReportChecksFirst | backend/cloud_function.js:72-84 | after the lookup the existence check comes first, and a URL is signed only for that entry's report, once the check has returned true, with the read options |
| CloudFunction.ResolveDownloadsFirst | backend/cloud_function.js:55-84 | the storage part starts with the index download, writes no audit entry, and signs only a checked and existing report, always with the read options |
| CloudFunction.IssuedExactlyWhenSigned | backend/cloud_function.js:72-95 | after the lookup the answer is 200 exactly when the report exists and signing returns, and it then carries the entry's fields and the signed URL |
| CloudFunction.ResolvedExactlyWhenSigned | backend/cloud_function.js:58-95 | the storage part answers 200 exactly when the index loads, holds the normalised code, the report exists and signing returns |
| CloudFunction.SuccessCarriesSignedReadUrl | backend/cloud_function.js:80-95 | the handler answers 200 exactly when validation, index load, lookup, existence check and signing all succeed; the body then holds the entry's code, product name and test date and the URL signed as a v4 read URL for `nowMs + 900000` |
| CloudFunction.StorageFaultIsInternalError | backend/cloud_function.js:97-100 | the answer is "Internal Server Error" exactly when the download, the existence check or the signing call throws; it is then a 500 whose last effect is the server-error log line |
| CloudFunction.IssueReportChecksBeforeSigning | backend/cloud_function.js:72-84 | after the lookup, each signing call comes after an existence check of the same file |
| CloudFunction.ResolveChecksBeforeSigning | backend/cloud_function.js:60-84 | in the storage part, each signing call comes after an existence check of the same file |
| CloudFunction.SigningOnlyAfterExistenceCheck | backend/cloud_function.js:72-84 | on every path, a URL is signed only for a report whose existence was checked and confirmed earlier in the same call, always as a v4 read URL for `nowMs + 900000` |
| CloudFunction.PreflightHeadersAdded | backend/cloud_function.js:20-24 | setting the three pre-flight headers one by one adds exactly the pre-flight header map |
| CloudFunction.CorsHeadersAdded | backend/cloud_function.js:20 | setting the origin header adds exactly the CORS header map |
| CloudFunction.Response.constructor | backend/cloud_function.js:18 | a fresh response has status 200, no headers, and no body sent |
| CloudFunction.Response.Set | backend/cloud_function.js:20 | `res.set` updates one header and nothing else |
| CloudFunction.Response.Status | backend/cloud_function.js:25 | `res.status` sets the status and nothing else |
| CloudFunction.Response.Json | backend/cloud_function.js:34 | `.json` sends the payload as the body and nothing else |
| CloudFunction.Response.Send | backend/cloud_function.js:25 | `.send` sends the text as the body and nothing else |
| CloudFunction.Platform.constructor | backend/cloud_function.js:11-12 | a fresh platform has the given environment and an empty trace |
| CloudFunction.Platform.BucketSetting | backend/cloud_function.js:55 | it reads the bucket setting from the environment |
| CloudFunction.Platform.IsoNow | backend/cloud_function.js:47 | it reads the ISO timestamp from the environment |
| CloudFunction.Platform.NowMs | backend/cloud_function.js:83 | it reads the millisecond clock from the environment |
| CloudFunction.Platform.Log | backend/cloud_function.js:53 | `console.log` of the entry appends exactly one audit effect |
| CloudFunction.Platform.LogFileMissing | backend/cloud_function.js:76 | it appends exactly one missing-file effect for the path |
| CloudFunction.Platform.LogServerError | backend/cloud_function.js:98 | it appends exactly one server-error effect |
| CloudFunction.Platform.DownloadIndex | backend/cloud_function.js:60-62 | it returns what the environment's index load gives and appends exactly one download effect |
| CloudFunction.Platform.Exists | backend/cloud_function.js:72-73 | it returns the environment's answer for the file and appends exactly one existence-check effect |
| CloudFunction.Platform.GetSignedUrl | backend/cloud_function.js:80-84 | it returns the environment's signer answer and appends exactly one signing effect with the options passed |
| CloudFunction.AnswerInternalError | backend/cloud_function.js:97-100 | the catch block logs the fault and leaves 500 "Internal Server Error"; headers are untouched |
| CloudFunction.AnswerError | backend/cloud_function.js:34 | `res.status(code).json({error})` leaves that status and error body; headers are untouched |
| CloudFunction.Screen | backend/cloud_function.js:33-43 | the validation steps return exactly `Validate`'s verdict; on failure they leave a 400 with that message, and on success they leave `res` unchanged |
| CloudFunction.AuditAndFetch | backend/cloud_function.js:45-53 | for a validated request, the trace grows by the audit entry followed by the storage part's effects, and the answer is the storage part's |
| CloudFunction.FetchAndAnswer | backend/cloud_function.js:55-69 | the status, body and appended effects are those the pure storage part `Resolve` gives |
| CloudFunction.IssueOnPlatform | backend/cloud_function.js:72-95 | the status, body and appended effects are those the pure existence-and-signing part `IssueReport` gives |
| CloudFunction.VerifyBatch | backend/cloud_function.js:18-101 | after the call, the status, body and effect trace are those `Handle` gives, and the headers are the old ones plus `Handle`'s headers |
| RuleSets.FormatGatesAgree | backend/cloud_function.js:33-43 | for filled-in fields, a non-blank email and a location, the client and backend gate chains pass together and fail on the same field (mobile or email) |
| RuleSets.BlankEmailSplitsRuleSets | services/verificationService.ts:77-80 | a blank email passes the client's gates, but the backend answers 400: "Missing required fields" when the email is empty, and "Invalid email format" when it is only white space |

## Left out

- The 1.5 s `setTimeout` in `verifyBatch` (services/verificationService.ts:67) is left out. It only simulates latency, and nothing observable depends on it.
- Unicode case mapping is left out: `toUpperCase` and `toLowerCase` change only ASCII letters here. White space, by contrast, is the full ECMAScript WhiteSpace and LineTerminator set, which matches both `\s` and `trim`.
- Cloud Storage behaviour, JSON parsing and v4 signing cryptography are abstract functions in `Env`. Their answers are inputs, and a fault is the `Threw` alternative.
- Download or parse faults are not told apart: both are one `Threw` of `loadIndex`, because both lead to the same 500.
- Index values are absent or well-formed `IndexEntry` records only. A falsy JSON value (`null`), a record without `reportPath`, or a non-string field value would throw or take other paths in the source.
- Request fields are absent strings or strings only. A non-string JSON value, such as a number for `mobile` or `batchCode`, is left out. So is a request whose body is not an object; the functions framework always parses a body.
- Normalised codes cannot reach `Object.prototype` members, because every member name contains a lower-case letter. So the `batchIndex[normalizedCode]` lookup is modelled as an exact map lookup.
- `res.json` and `res.send` do not model the `Content-Type` header that Express adds, and `Response.Json` does not serialise the payload to text.
- The error object that `console.error('Server Error:', error)` prints is not modelled; the effect only records that the line was written.
- `async`/`await` ordering is not modelled: each awaited call is one step in the trace.
- `services/geminiService.ts`, the React components, `App.tsx` and `types.ts` are not part of this model. They are UI, camera and AI-API plumbing, and the datatypes take their shapes from `types.ts`.
- Facts about the code that the model keeps as they are:
  - the backend requires an email, while the client treats a blank email as absent;
  - the backend log entry holds the raw batch code, email, mobile and user agent, with no masking, location or outcome;
  - the backend does not log requests that fail validation;
  - the client does not check `fullName`;
  - the verification form calls the client without a location.
