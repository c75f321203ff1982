# Quote-request flow, modelled in Dafny

This project models the logic of a small "request a quote" flow for a
marketing website. It has three parts:

- **Display and validation helpers** (`sample-code/utils.js`). `formatPhoneNumber`
  renders a ten-digit phone number as `(AAA) BBB-CCCC`. `isValidEmail` checks
  an address against the pattern `/^[^\s@]+@[^\s@]+\.[^\s@]+$/`.
- **The `POST /api/quote` handler** (`sample-code/api-route-example.js`). It
  checks that a name and a project description are present, then that a phone
  number or an email address is present; a failed check gives 400. It then
  hands a notification to a sender and maps the result to 200 or 500. Any
  thrown error gives 500.
- **The `QuoteForm` component's state** (`sample-code/QuoteForm.jsx`). It holds
  four text fields, a busy flag and a submission status
  (`idle`, `submitting`, `success`, `error`). One handler edits a field. The
  other submits the form and settles on the outcome of the request. After a
  successful submission the status stays `success`; nothing returns it to `idle`.

Files:

- `js.dfy` (module `Js`): the JavaScript values a request field can hold
  (`undefined`, `null`, a string), truthiness, and template-literal text.
- `utils.dfy` (module `Utils`): `FormatPhoneNumber`, `IsValidEmail` and their lemmas.
- `api_route.dfy` (module `ApiRoute`): `Post` and the placeholder sender.
- `quote_form.dfy` (module `QuoteForm`): the form state as a class.
- `quote_flow.dfy` (module `QuoteFlow`): the form posting to the route.

How the source's effects are represented:

- The parsed request body is an input. The `Unparseable` input stands for a
  parse failure, or a body that cannot be destructured (`null`); both throw
  into the handler's `catch`.
- The sender is a function parameter `Message -> SendResult`. It resolves to a
  boolean or rejects. `SimulateEmailSend` always resolves to `true`.
- `Post` returns the response together with the notification it handed to the
  sender, so "no notification for an invalid request" can be stated.
- `fetch` becomes a `FetchOutcome` parameter: a response with its `ok` flag, or a thrown error.
- `handleSubmit` awaits the request. It is split at that point into
  `BeginSubmit` and `CompleteSubmit`, and `HandleSubmit` runs the two in a row.
  A caller may run `HandleInputChange` between the two halves, as a user can
  type while the request is in flight.
- The route's 400 and 500 answers are the `Failure` payload (`{ error }`).
  The 200 answer is the `Submitted` payload (`{ success: true, message }`).

## Model

| member | source | states |
|---|---|---|
| `Utils.Digits` | sample-code/utils.js:21 | removing non-digits gives only ASCII digits and never lengthens the string |
| `Utils.DigitsAppend` | sample-code/utils.js:21 | removing non-digits distributes over concatenation, so the digits stay in input order |
| `Utils.FormatPhoneNumber` | sample-code/utils.js:19-26 | a falsy input gives `''`; a string whose digit count is not ten comes back unchanged; with exactly ten digits the result has the form `(AAA) BBB-CCCC` (length 14, punctuation at positions 0, 4, 5, 9) and its digits in order are the input's digits |
| `Utils.FormattedDigitsInSlots` | sample-code/utils.js:21-23 | with ten digits `d`, the output holds `d[0..3]`, `d[3..6]`, `d[6..10]` in its three digit groups, in order |
| `Utils.Render` | sample-code/utils.js:23 | the display template `(${d.slice(0, 3)}) ${d.slice(3, 6)}-${d.slice(6)}` for a ten-character string; `RenderDigits` proves that for ten digits it has the display form and keeps the digits in order |
| `Utils.FormatTenDigits` | sample-code/utils.js:22-23 | ten bare digits are rendered by the `(${..}) ${..}-${..}` template |
| `Utils.FormattedIsFixpoint` | sample-code/utils.js:21-25 | every string already in `(AAA) BBB-CCCC` form is returned unchanged |
| `Utils.FormatIdempotent` | sample-code/utils.js:19-26 | formatting the output of formatting returns that output again, for every input |
| `Utils.FormatDocExample` | sample-code/utils.js:16-18 | `"1234567890"` becomes `"(123) 456-7890"` |
| `Utils.FormatShortExample` | sample-code/utils.js:22-25 | `"123"` is returned unchanged |
| `Utils.MatchesEmailRegex` | sample-code/utils.js:32 | the regular expression read as a split of the whole string into local `@` head `.` tail, each part a non-empty run of `[^\s@]` |
| `Utils.IsValidEmail` | sample-code/utils.js:31-34 | the first `@` is not at the start, no `@` follows it, no character is whitespace, and the part after the `@` has a `.` that is neither its first nor its last character; `ValidEmailIffRegex` proves it agrees with the regular expression |
| `Utils.ValidEmailIffRegex` | sample-code/utils.js:31-34 | an address satisfies the structural rule (exactly one `@`, no whitespace, non-empty local part, a `.` in the domain that is neither next to the `@` nor last) if and only if the regular expression matches it, as a split into local `@` head `.` tail of non-empty runs of `[^\s@]` |
| `Utils.ValidEmailHasOneAt` | sample-code/utils.js:32 | a valid address has a single `@` |
| `Utils.InvalidEmails` | sample-code/utils.js:32-33 | an address with whitespace anywhere, or with no `@`, is invalid |
| `Utils.EmailExamples` | sample-code/utils.js:32-33 | `a@b.com` is valid and `not-an-email` is not |
| `ApiRoute.IsQuoteRequest` | sample-code/api-route-example.js:17-30 | the two validation tests together: name and project truthy, and phone or email truthy; `Post` answers 400 exactly when a parsed body fails it |
| `ApiRoute.Notification` | sample-code/api-route-example.js:49-53 | the notification goes to the business address, with subject `"New Request from " + name` |
| `ApiRoute.Post` | sample-code/api-route-example.js:10-91 | the status is 200, 400 or 500; it is 400 exactly when the body parsed and is not a quote request; a notification is sent exactly when the body is a quote request, and it is the one built from the body; the status is 200 exactly when a notification was sent and the sender resolved to `true`, and only 200 carries the success payload; a parse failure gives 500 "Internal server error" |
| `ApiRoute.RequiredFieldsCheckedFirst` | sample-code/api-route-example.js:17-30 | a missing name or project gives 400 "Name and project description are required" and sends nothing, whatever the contact fields and the sender |
| `ApiRoute.ContactMethodCheckedSecond` | sample-code/api-route-example.js:25-30 | with name and project present but neither phone nor email, the answer is 400 "Please provide either a phone number or email address" |
| `ApiRoute.SendOutcomeDecides` | sample-code/api-route-example.js:69-89 | for a valid request, a sender resolving `true` gives 200 "Request submitted successfully", resolving `false` gives 500 "Failed to send email", rejecting gives 500 "Internal server error" |
| `ApiRoute.SimulateEmailSend` | sample-code/api-route-example.js:95-101 | the placeholder sender resolves to `true` for every message; `StubSenderAcceptsEveryQuoteRequest` proves what that means for `Post` |
| `ApiRoute.StubSenderAcceptsEveryQuoteRequest` | sample-code/api-route-example.js:95-101 | with the placeholder sender, the status is 200 exactly when the body is a quote request |
| `ApiRoute.DispatchedSubjectNamesRequester` | sample-code/api-route-example.js:50-51 | every notification the handler sends has subject `"New Request from " + name` and goes to the business address |
| `QuoteForm.FormData.With` | sample-code/QuoteForm.jsx:22-25 | after setting field `f` to `v`, reading `f` gives `v` and every other field is as before |
| `QuoteForm.QuoteForm.constructor` | sample-code/QuoteForm.jsx:10-18 | all four fields start as `''`, the form is not busy and the status is `idle` |
| `QuoteForm.QuoteForm.HandleInputChange` | sample-code/QuoteForm.jsx:20-26 | the named field takes the new value; the other fields, the busy flag and the status are unchanged |
| `QuoteForm.QuoteForm.BeginSubmit` | sample-code/QuoteForm.jsx:30-39 | the form becomes busy with status `submitting`, and the request body is the fields as they are at that moment |
| `QuoteForm.QuoteForm.CompleteSubmit` | sample-code/QuoteForm.jsx:41-52 | an ok response gives `success` and clears all four fields; a non-ok response or a thrown error gives `error` and leaves the fields; the busy flag is false afterwards in every case |
| `QuoteForm.QuoteForm.HandleSubmit` | sample-code/QuoteForm.jsx:28-53 | the whole submission: the body sent is the fields at the start; the form ends not busy, in `success` with cleared fields or in `error` with the fields kept; the busy flag is set exactly while the status is `submitting` |
| `QuoteFlow.RequestOf` | sample-code/QuoteForm.jsx:39 | the fields sent as JSON form a quote request exactly when name and project are non-empty and phone or email is non-empty |
| `QuoteFlow.OutcomeOf` | sample-code/QuoteForm.jsx:42 | `response.ok`: the status is in the range 200-299; `SubmitToRoute` proves that the form reaches `success` exactly when the route answers 200 |
| `QuoteFlow.SubmitToRoute` | sample-code/QuoteForm.jsx:33-52 | a submission answered by the route ends in `success` exactly when the fields form a quote request and the sender resolves to `true`; otherwise it ends in `error` with the fields kept |
| `QuoteFlow.StubRouteAnswersForm` | sample-code/api-route-example.js:17-30 | against the placeholder sender, the form's request gets an ok response exactly when name, project and one contact field are filled in |

## Left out

- `cn`: a wrapper over the `clsx` and `tailwind-merge` libraries, whose merge rules are not part of this model.
- `absoluteUrl`: it only calls the URL parser of the WHATWG URL Standard, a foreign call.
- `debounce`: its behaviour is timer scheduling with `setTimeout` and `clearTimeout`.
- `ServiceCard.jsx`: presentation only.
- `NextResponse`, JSON parsing internals, the `console.error` logging and the 100 ms delay of the placeholder sender.
- The commented-out mail and SMS integrations in the route.
- `fetch` itself, the request headers, JSON serialisation and `e.preventDefault`. The request body is modelled as the four field values.
- The rendered markup and the browser's `required`-attribute checks. The form marks email as required, but the route accepts a phone number alone; the model keeps the two as they are.
- Request fields holding numbers, booleans, arrays or objects: a field is `undefined`, `null` or a string.
- `Utils.FormatPhoneNumber`: a truthy non-string argument (where `replace` would throw) is not modelled, since the argument is `undefined`, `null` or a string.
- `Utils.IsValidEmail`: a non-string argument (which the regular expression converts to text first) is not modelled.
- JavaScript strings are sequences of UTF-16 code units; the model uses Unicode scalar values. Neither helper treats a surrogate as a digit, whitespace, `@` or `.`, so the answers agree.
- The whitespace class `\s` is written out as the ECMAScript WhiteSpace and LineTerminator code points. The proofs use only that `@`, `.` and the ASCII letters are not whitespace.
- Two overlapping submissions are not modelled: the submit button is disabled while the form is busy.
