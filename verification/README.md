# Complaint form — a Dafny model of its client logic

The repository is a complaint-submission web form. Its client logic exists in two
copies:

- a React component, `src/App.jsx`;
- a plain DOM script, `public/js/script.js`.

Both copies check five text fields, collect up to three attachments as base64
data URLs, post everything to a configured endpoint, and show one status line.
This project models both copies, each as written, and proves what each promises.
It also proves where the two agree and where they differ.

Modules:

- `Wrappers`: `Option`, `Result`, and `Outcome` (returned normally or threw).
- `JsStrings`: the JavaScript built-ins the form relies on.
  - `trim`, with the exact ECMAScript white-space set, which also defines `\s`/`\S`.
  - `.length` and `slice` in UTF-16 code units.
  - `split` on one character.
  - `replace(/\D/g, "")`.
- `FormRules`: the fields, `sanitize`, and the five validation rules.
  - The e-mail rule is the regular expression `^\S+@\S+\.\S+$`.
  - `EmailTest` decides it, and `EmailTestIsPattern` proves it equal to the pattern.
  - The first failing rule in the order subject, name, email, phone, complaint is the one reported.
- `Errors`: what a submit handler can catch, and `msg || message || "ระบบขัดข้อง"`.
- `Attachments`: the file collector.
  - `ReadFilesSpec` is the reference definition.
  - `Collect` is the imperative loop proved against it.
  - Both copies' `readFiles` share this loop. They differ only in how `data` is cut from the data URL, so that cut is a parameter.
- `Api`: the POST request, and how a reply is read (`Interpret`).
- `App`: `src/App.jsx`.
  - `getApiUrl`, `validate`, the data-URL cut and `submitToApi`.
  - The pipeline of one submission (`Attempt`, run step by step by `Perform`).
  - The class `ComplaintForm`, holding the component's state and its handlers.
- `Script`: `public/js/script.js`.
  - `v`, the throwing `validate`, the data-URL cut with no fallback, and `submitToApi`.
  - The class `ComplaintPage`: the button, the status line and the inputs, changed by `setLoading`, `showError`, `showSuccess` and the submit listener.
- `Agreement`: how the two copies compare.
- `Scenarios`: worked examples of the general statements.

The environment is passed in as parameters:

- `import.meta.env.VITE_API_URL` and `window.APP_CONFIG.API_URL`, as `Option<string>` (None when absent);
- `navigator.userAgent`;
- the FileReader, as a function from a file to `Loaded(dataUrl) | ReadError`;
- the network, as a function from the request to `NetworkFailure(message) | Received(text, NotJson | Json(envelope))`.

Two facts the proofs bring out:

- **The 5 MiB aggregate check can never fire.** At most three files of at most 1.5 MiB each weigh at most 4.5 MiB (`Attachments.AggregateLimitUnreachable`).
- **The per-file check always comes first.** A selection of 1 MiB, 1 MiB and 3.5 MiB is refused on the third file by the per-file check, never by the aggregate check (`Scenarios.ThirdFileTooLarge`).

The `data` of an attachment is the text between the first and the second comma of the data URL (`split(",")[1]`). A data URL holds a single comma, so this is the whole base64 payload (`App.DataOfDataUrl`, `Script.DataOfDataUrl`).

## Model

| member | source | states |
|---|---|---|
| JsStrings.Trim | src/App.jsx:26 | the result has no white space at either end and is s with only white space cut from both ends |
| JsStrings.TrimUnique | src/App.jsx:26 | any cut of only white space that ends on non-space characters is exactly Trim |
| JsStrings.TrimIdempotent | src/App.jsx:26 | trimming twice is trimming once |
| JsStrings.TrimOfTrimmed | public/js/script.js:57 | a string with no white space at either end is left unchanged |
| JsStrings.Utf16Length | src/App.jsx:30 | `.length` lies between the number of characters and twice that, and equals it exactly when no character is outside the BMP |
| JsStrings.Utf16Units | src/App.jsx:30 | a character takes two code units exactly when it lies outside the BMP, otherwise one |
| JsStrings.Utf16LengthSingle | src/App.jsx:30 | `.length` of one character is its number of code units |
| JsStrings.Utf16LengthAppend | src/App.jsx:30 | `.length` of a concatenation is the sum of the lengths, so `.length` counts code units |
| JsStrings.Utf16Slice | src/App.jsx:109 | `slice(0, n)` gives a prefix of at most n code units: all of s when s fits, otherwise the longest prefix that fits |
| JsStrings.Split | src/App.jsx:74 | at least one piece, no piece contains the separator, and joining the pieces with the separator gives s back |
| JsStrings.SplitWithoutSeparator | src/App.jsx:74 | a string without the separator splits into itself alone |
| JsStrings.SplitAtFirst | src/App.jsx:74 | the first piece is the text before the first separator; the rest are the pieces of what follows it |
| JsStrings.DigitsOf | src/App.jsx:36 | `replace(/\D/g, "")` yields only digits and is no longer than its input |
| JsStrings.DigitsOfAppend | src/App.jsx:36 | stripping non-digits distributes over concatenation |
| JsStrings.DigitsOfDigits | src/App.jsx:36 | a string of digits is unchanged by stripping non-digits |
| JsStrings.InsertNonDigit | src/App.jsx:36 | inserting a non-digit anywhere leaves the digit string unchanged |
| FormRules.Sanitize | src/App.jsx:26 | an absent value gives ""; the result is trimmed, and is the input with only white space cut from both ends |
| FormRules.SanitizeIdempotent | src/App.jsx:26 | `sanitize(sanitize(x)) == sanitize(x)` |
| FormRules.EmailTestIsPattern | src/App.jsx:32 | the executable e-mail test holds exactly when the string matches `^\S+@\S+\.\S+$` (no white space, an '@' with text before it, later a '.' with text between and after) |
| FormRules.PhoneRuleCountsDigits | src/App.jsx:36 | the phone rule holds exactly when the digit string has 9 or 10 characters |
| FormRules.PhoneIgnoresNonDigits | src/App.jsx:36 | inserting a non-digit into the phone number never changes whether it passes |
| FormRules.FirstFailingUnique | src/App.jsx:28-45 | at most one field is the first failing one in the priority order |
| Errors.Display | src/App.jsx:203 | `msg \|\| message \|\| "ระบบขัดข้อง"`: never empty; the thrown value's own non-empty text wins, otherwise the fallback |
| Attachments.TotalSizeStep | src/App.jsx:56 | adding file i to the running total gives the weight of the first i + 1 files |
| Attachments.TotalSizeMonotone | src/App.jsx:56 | the running total never decreases |
| Attachments.CollectFromStep | src/App.jsx:55-85 | one unfolding of the reference collection at file i, case by case (a proof step used by the loop; the ordering over the whole list is ReadFilesFirstFailure) |
| Attachments.CollectFromOk | src/App.jsx:55-87 | collecting from i succeeds exactly when every remaining file is within 1.5 MiB and reads, and the whole list is within 5 MiB; on success the records mirror the files |
| Attachments.ReadFilesSucceedsIff | src/App.jsx:47-88 | `readFiles` succeeds exactly when there are at most 3 files, each ≤ 1572864 bytes, together ≤ 5242880 bytes, and every read succeeds |
| Attachments.ReadFilesMirrorsSelection | src/App.jsx:80-84 | on success the result has the input's length and order, with `fileName` and `mimeType` copied and `data` cut from each file's data URL |
| Attachments.CollectFromFailsAt | src/App.jsx:55-85 | a failure at file k is the error reported from any earlier start that passed the files before k |
| Attachments.ReadFilesFirstFailure | src/App.jsx:55-78 | the first offending file decides the error; a file over the per-file limit gets the per-file error even when the total is over too, and a read error comes last |
| Attachments.TotalSizeBound | src/App.jsx:56-58 | n files that each pass the per-file limit weigh at most n × 1572864 bytes |
| Attachments.CollectFromNeverTotal | src/App.jsx:55-64 | with at most 3 files, the collection never ends in the aggregate-size error |
| Attachments.AggregateLimitUnreachable | src/App.jsx:47-64 | `readFiles` never throws "ขนาดไฟล์รวมเกิน 5MB", whatever the files |
| Attachments.CollectFromRelabels | public/js/script.js:104 | a different cut of the data URL changes only each record's `data`; errors and the other fields stay the same |
| Attachments.ReadFilesRelabels | public/js/script.js:83-117 | the same for the whole `readFiles` |
| Attachments.Collect | src/App.jsx:47-88 | the loop of `readFiles` (script copy at public/js/script.js:83-117) returns exactly `ReadFilesSpec`; more than 3 files start no read; only files within 1.5 MiB and within a 5 MiB running total are read; success reads them all |
| Api.Interpret | src/App.jsx:103-116 | succeeds exactly on a JSON envelope with truthy `ok`, returning it unchanged; a rejected fetch propagates its message; a non-JSON reply gives "Unexpected API response: " plus the first 120 code units of the text (all of it when shorter, otherwise the longest prefix that fits); a falsy `ok` gives `message` or "ระบบขัดข้อง" |
| Api.ShortReplyQuotedWhole | src/App.jsx:109 | a non-JSON reply of at most 120 code units is quoted whole |
| App.GetApiUrl | src/App.jsx:14-23 | the trimmed VITE_API_URL if non-empty, otherwise the trimmed APP_CONFIG.API_URL; empty exactly when both are |
| App.Validate | src/App.jsx:28-45 | null exactly when all five rules hold; otherwise the first failing field in the order subject, name, email, phone, complaint, with that rule's message |
| App.EarlierFailureWins | src/App.jsx:28-45 | when an earlier rule fails, a later field is never the one reported (a bad name beats a bad phone) |
| App.EmptyEmailAccepted | src/App.jsx:32-34 | an empty e-mail never causes a failure |
| App.SanitizedForm | src/App.jsx:185-192 | every field of `data` is trimmed |
| App.DataOf | src/App.jsx:74 | `split(",")[1] \|\| ""` contains no comma, and is "" for a data URL without a comma |
| App.DataOfDataUrl | src/App.jsx:74 | for `header,payload` with a single comma, `data` is the payload |
| App.DataOfSecondPiece | src/App.jsx:74 | for a data URL with two or more commas, `data` is the text between the first and the second |
| App.SubmitToApi | src/App.jsx:90-117 | an empty endpoint sends nothing and throws the missing-URL error; otherwise exactly one POST with body type `text/plain;charset=utf-8` is sent and its reply interpreted |
| App.Attempt | src/App.jsx:185-198 | a request is sent exactly when the form passes every rule, the files were all collected and the endpoint is non-empty, and it carries the sanitised form, the user agent and those files; otherwise the validation issue, else the file error, is what fails the attempt |
| App.Perform | src/App.jsx:185-198 | running validate, readFiles and submitToApi in turn gives exactly `Attempt` |
| App.FinalStatus | src/App.jsx:200-203 | success exactly when the submission succeeded, showing `result.message` or "ส่งสำเร็จ" when it is empty; error exactly when it failed, showing `Display` of the error; never an empty message |
| App.ComplaintForm.constructor | src/App.jsx:25-131 | `API_URL` is `getApiUrl()` of the two settings; the default form, no files, not loading, status idle with "" |
| App.ComplaintForm.HandleChange | src/App.jsx:154-157 | the named field takes the value; all else is unchanged |
| App.ComplaintForm.HandleFiles | src/App.jsx:159-161 | the selection replaces the files |
| App.ComplaintForm.SetStatus | src/App.jsx:183 | the status becomes the given one and is recorded as shown |
| App.ComplaintForm.SetError | src/App.jsx:163-169 | an error status with the message; focus moves to the field only when one is named |
| App.ComplaintForm.ResetForm | src/App.jsx:171-175 | the default form and no files |
| App.ComplaintForm.OnSubmit | src/App.jsx:177-207 | while loading, a no-op that sends nothing; otherwise it shows loading, then the outcome of `Attempt`. Success shows `result.message \|\| "ส่งสำเร็จ"` and resets the form. Failure shows `Display` of the error, keeps the form and focuses the thrown field. `loading` ends false |
| Script.V | public/js/script.js:56 | `v(el)` is the value trimmed |
| Script.SanitizeOfV | public/js/script.js:56-57 | `sanitize(v(el)) == v(el)` |
| Script.Validate | public/js/script.js:62-78 | returns normally exactly when all five rules hold; otherwise throws `{ msg, el }` for the first failing rule, carrying that rule's element and message |
| Script.ReadForm | public/js/script.js:162-169 | every field of `data` is the trimmed element value |
| Script.DataOf | public/js/script.js:104 | `split(',')[1]` is undefined exactly when the data URL has no comma, and never contains a comma |
| Script.DataOfDataUrl | public/js/script.js:104 | for `header,payload` with a single comma, `data` is the payload |
| Script.DataOfSecondPiece | public/js/script.js:104 | for a data URL with two or more commas, `data` is the text between the first and the second |
| Script.SubmitToApi | public/js/script.js:122-149 | an empty `API_URL` sends nothing and throws "Missing API_URL in config.js"; otherwise one POST is sent and its reply interpreted |
| Script.Attempt | public/js/script.js:159-174 | a request is sent exactly when the form is valid, the files were all collected and `API_URL` is non-empty, carrying the sanitised values, the user agent and the files; otherwise the validation throw, else the file error, is what fails the attempt |
| Script.Perform | public/js/script.js:162-174 | running the listener's `try` block step by step gives exactly `Attempt` |
| Script.SuccessText | public/js/script.js:177 | `result.message \|\| 'ส่งสำเร็จ'`: the message when there is one, "ส่งสำเร็จ" otherwise |
| Script.ComplaintPage.constructor | public/js/script.js:4-6 | `API_URL` is the trimmed configured value, or "" when it is absent |
| Script.ComplaintPage.SetLoading | public/js/script.js:29-40 | the button's disabled state follows the flag; on shows the sending message in the neutral colour; off clears the text |
| Script.ComplaintPage.ShowError | public/js/script.js:42-46 | the message in the error colour; focus moves only when an element is given |
| Script.ComplaintPage.ShowSuccess | public/js/script.js:48-51 | the message in the success colour |
| Script.ComplaintPage.ResetForm | public/js/script.js:178 | every input back to its default, no files |
| Script.ComplaintPage.OnSubmit | public/js/script.js:154-183 | with the button disabled, a no-op that sends nothing; otherwise the line shows the sending message, then "", then the outcome; the button ends enabled; success resets the form; no input is ever focused |
| Agreement.ValidatorsAgree | public/js/script.js:62-78 | the two validators pass the same forms and report the same field and message |
| Agreement.SanitisedFormsAgree | public/js/script.js:162-169 | both copies build the same `data` from the same raw values |
| Agreement.PayloadsAgree | public/js/script.js:104 | the React `data` is the script's, with "" in place of undefined |
| Agreement.ReadFilesAgree | public/js/script.js:83-117 | the two `readFiles` fail with the same error or succeed with the same records, except that the React copy has "" where the script has undefined |
| Agreement.RuntimeUrlAgrees | public/js/script.js:4-6 | without VITE_API_URL, the React endpoint is the script's |
| Agreement.MissingUrlMessagesDiffer | public/js/script.js:124 | the two copies report a missing endpoint with different texts |
| Scenarios.CompleteFormPasses | src/App.jsx:28-45 | subject "x", name "ab", empty e-mail, phone "0812345678", complaint "hello" passes |
| Scenarios.EmptySubjectReported | src/App.jsx:29 | an empty subject is reported against the subject field |
| Scenarios.DashedPhonePasses | src/App.jsx:36 | "081-234-5678" passes the phone rule |
| Scenarios.AddressWithoutDotRefused | src/App.jsx:32 | "user@mail" does not match the e-mail pattern |
| Scenarios.SecondFileTooLarge | src/App.jsx:58-60 | 1 MiB then 4.2 MiB: refused at the second file by the per-file limit |
| Scenarios.ThirdFileTooLarge | src/App.jsx:58-64 | 1 MiB, 1 MiB, 3.5 MiB: refused at the third file by the per-file limit, not the aggregate one |
| Scenarios.OkReplyShowsItsMessage | src/App.jsx:200 | a reply `{"ok":true,"message":"done"}` ends in success showing "done" |
| Scenarios.NonJsonReplyQuoted | src/App.jsx:109 | a reply "not json" ends in an error whose message contains "not json" |

## Left out

- FileReader and the Promise plumbing.
  - Each read is the `reader` parameter.
  - The awaits are sequential steps.
  - A read's failure event carries no message, so it is shown as the fallback.
- The `typeof reader.result !== "string"` guard (src/App.jsx:69-72). `readAsDataURL` always delivers a string on `load`, so the branch is not modelled.
- `fetch`, `response.text()` and `JSON.parse`. They arrive as a `FetchOutcome` value.
  - `ok` is reduced to its truthiness.
  - `message` is reduced to a string, "" when absent.
  - A reply that parses to `null` is not modelled: reading `.ok` of `null` throws a TypeError.
  - A reply that parses to another non-object (a number, a string, a boolean, an array) has `.ok` undefined; it is read as an envelope with falsy `ok` and no message, so it fails with "ระบบขัดข้อง".
- `JSON.stringify` of the body. The request carries the record itself. That the script's undefined `data` disappears from the JSON text is not modelled.
- Non-string configuration values, which `String(...)` would convert. Settings are strings or absent.
- React's batching of `useState` updates and stale closures. State updates take effect in the order the handler makes them, and the `loading` guard reads the current state.
- Rendering.
  - Not modelled: JSX, the `STATUS_CLASS` strings, the logo, and the card's `classList` toggles.
  - Focus is recorded only as the field last asked to take focus.
  - The script's colour class is reduced to `Tone`.
- Script.ComplaintPage.ResetForm: `form.reset()` restores each input's default from the page markup. The markup is not part of this model, so the defaults are taken to be empty.
- Api.Interpret: when the 120th code unit is the first half of a surrogate pair, JavaScript's `slice` keeps that lone half, but the model stops before the whole character. Strings here are sequences of Unicode scalar values and cannot hold a lone surrogate.
- `readFiles` appears twice in the source, once per copy. The one `Attachments.Collect` method models both, with the data-URL cut as a parameter.
- App.ComplaintForm.HandleChange: an input whose `name` is not one of the five fields is not modelled.
