# FlashSpace lead-capture server, modelled in Dafny

The server receives a contact-form lead on `POST /api/send-email`. It emails the lead to
the sales inbox through Resend, then appends the lead as one row to a Google Sheet and
answers with JSON. This project models the decision logic of `server.js` as pure
functions from the request, the configuration and the outcomes of the external calls
to a response plus the trace of external calls made:

- `js.dfy`: the JavaScript value semantics the server relies on.
  - `Js` covers `undefined`/`null`/string values, truthiness, `x || y`, template interpolation, `includes` and throwing.
  - `Decimal` covers the decimal rendering of `Date.now()`.
- `lead.dfy`: `Lead` holds the submission, the `utm` object, the environment, the provider-key gate and the `FS-<millis>` lead id.
- `email.dfy`: `Email` covers section selection in the notification email: the attribution table or "Direct Visit" block, the customer message, the campaign-value line and the subject.
- `sheets.dfy`: `Effects` is the trace of external calls; `Sheets` is `appendToSheet`.
- `cors.dfy`: `Cors` is the CORS middleware.
- `handler.dfy`: `Handler` is the submission handler and the middleware-then-route pipeline.

External outcomes are inputs:
- what Resend's `send` returned or threw;
- whether each credential source decoded and parsed;
- what the append request returned or threw;
- the localised timestamps and the `Date.now()` readings.

At these edges the code behaves in ways a reader might not expect:
- Validation does not trim: a name of `" "` passes.
- A preflight `OPTIONS` gets `sendStatus(200)`, whose body is the text `OK`.
- The attribution table is chosen by `Object.values(utm).some(val => val !== '')`. A `utm` object holding a `null`, or a key outside the eight known ones whose value is not `''`, brings up the full table, even when every normalised attribution field is empty (`Email.NullAttributionShowsTable`). An empty `utm` object gives the "Direct Visit" block (`Email.EmptyAttributionIsDirectVisit`).
- The subject interpolates `city` raw, so a lead without a city gets a subject ending in `undefined` (`Email.SubjectWithoutCity`).
- The three diagnostic substring checks in `appendToSheet`'s catch block only log, except the permission check, which throws (see Findings).

## Model

| member | source | states |
|---|---|---|
| Js.ContainsAt | server.js:150-158 | `includes` holds exactly when the fragment occurs at some position of the message |
| Decimal.DecimalString | server.js:117 | the rendering of a clock reading is non-empty, all digits, with no leading zero |
| Decimal.DecimalRoundTrip | server.js:117 | reading the digits back gives the clock reading |
| Decimal.DecimalStringInjective | server.js:117 | two readings render alike exactly when they are equal |
| Lead.LeadId | server.js:454 | a lead id is `FS-` followed by digits |
| Lead.LeadIdRoundTrip | server.js:454 | every generated lead id is well formed and encodes the millisecond it was made in |
| Lead.LeadIdCollision | server.js:454 | two lead ids coincide exactly when taken in the same millisecond, so ids are unique only across distinct milliseconds |
| Email.SomeValueNotEmpty | server.js:229 | scanning the `utm` values finds one that is not `''` exactly when such a value exists |
| Email.AttributionRows | server.js:233-264 | the table has the eight labelled rows in order; each shows the client's value when truthy, else its fixed fallback |
| Email.TrackingSection | server.js:229-272 | the full table appears iff `utm` is present with a value `!== ''`, and then holds the eight attribution rows; otherwise the Direct Visit block |
| Email.CustomerMessage | server.js:370-379 | the customer-message block appears iff `message` is truthy, and quotes it |
| Email.CampaignValue | server.js:275-276 | the campaign-value line appears iff `utm.utm_campaign` is truthy; it announces the fixed ₹2,500 estimate and names that campaign |
| Email.CampaignLabel | server.js:283 | the subject's campaign is `utm_campaign` when truthy, else `Direct Visit` |
| Email.SubjectMentions | server.js:283 | the subject contains the name and the campaign label and ends with the city |
| Email.SubjectWithoutCity | server.js:283 | without a city the subject ends in `undefined` |
| Email.Compose | server.js:279-420 | fixed sender and recipient, reply-to is the lead's email, the three optional sections follow their conditions, and the footer carries a well-formed lead id |
| Email.AttributionOfKnownFields | server.js:229 | when only the eight known keys are sent, all as strings, the table appears iff one normalised field is non-empty |
| Email.NullAttributionShowsTable | server.js:229 | a `null` attribution value shows the table although every normalised field is empty |
| Email.EmptyAttributionIsDirectVisit | server.js:229 | an empty `utm` object shows the Direct Visit block |
| Sheets.Range | server.js:129 | the range is `GOOGLE_SHEET_NAME` when set, else `Sheet1!A:P` |
| Sheets.UtmColumns | server.js:109-116 | the eight attribution columns, in fixed order, each normalised with `\|\| ''` |
| Sheets.BuildRow | server.js:101-118 | the appended row has exactly 16 columns |
| Sheets.RowRoundTrip | server.js:101-118 | reading the row back gives, in order, the timestamp, six contact fields, eight attribution fields (absent or falsy as `''`) and the lead id's millisecond |
| Sheets.AppendToSheet | server.js:44-165 | (corrected `appendToSheet`, see Findings) the id is checked before credentials, and Base64 wins over JSON; a failed source is reported without fallback, as "Failed to decode Base64 credentials" or "Failed to parse JSON credentials" with the parse error as its cause; no credentials means not configured; at most one append of the 16-column row to the configured range; success iff the append ran and did not throw; a thrown error becomes `{success:false, error, details}` |
| Sheets.AppendToSheetAsWritten | server.js:139-164 | makes the same calls, and throws exactly when the append error mentions missing permission |
| Cors.Includes | server.js:25 | the allow-list scan finds the origin iff it equals one listed string |
| Cors.Apply | server.js:14-36 | Allow-Origin is set, to the request origin, iff that origin is listed; Allow-Headers and Allow-Methods are always set; only `OPTIONS` is answered by the middleware |
| Cors.ExactMatchOnly | server.js:15-27 | a trailing slash or a case change loses the Allow-Origin header |
| Handler.SheetsError | server.js:455-456 | `googleSheetsError` is `null` iff the sheet succeeded, else the result's message, or its error when there is no message |
| Handler.Submit | server.js:208-224 | a missing name or email gives 400 with no calls; past validation, a missing or placeholder key gives 500 with no calls |
| Handler.Handle | server.js:168-472 | (corrected `appendToSheet`, see Findings) validation, then key gate, then the email is sent exactly once. A provider error gives 500 with `error.message \|\| 'Unknown Resend error'`; a thrown send gives 500 with its message. Status is 200 iff both gates pass and the email is delivered; `appendToSheet` runs exactly once when the status is 200 and never otherwise, so no row is appended on failure; an email that is not delivered is the only call |
| Handler.DeliveredIsSuccess | server.js:437-457 | (corrected `appendToSheet`, see Findings) after delivery the status is 200 with the whole success payload: the message `Email sent successfully`, the provider's id, a lead id encoding the response-time clock reading, `googleSheets` equal to the sheet's success, and `googleSheetsError` equal to `message \|\| error` of the sheet result (null on success, a string otherwise). The calls are the send, then `appendToSheet` on the same submission, whose trace holds at most one append of that submission's row |
| Handler.SheetNeverDecidesStatus | server.js:437-457 | (corrected `appendToSheet`, see Findings) the sheet outcome never changes the status, and changes nothing at all when the email failed |
| Handler.Serve | server.js:14-36 | CORS headers on every answer; a preflight gets 200 `OK` with no call and never reaches the handler; a POST gets exactly the handler's response |
| Handler.PermissionErrorAfterDelivery | server.js:158-160 | as written, a permission error after delivery answers 500 "Failed to send email" though the email was sent; corrected, the answer is 200 with the sheet error |
| Handler.CallerLacksPermission | server.js:158 | Google's "The caller does not have permission" triggers that branch |
| Handler.AshaEmailAndRow | server.js:283 | a sample lead's subject names Asha, Direct Visit and Pune; its message column is empty |
| Handler.AsWrittenHandler | server.js:158-160 | the handler awaiting `appendToSheet` as written answers exactly as the corrected one except on a permission failure after delivery; its status is 200 iff both gates pass, the email is delivered and the append did not fail with a permission message |

## Findings

| source | as written | input that shows it | evidently intended | confidence | as-written member | corrected member |
|---|---|---|---|---|---|---|
| server.js:158-159 | `credentials` is declared with `let` inside the `try` block (line 59), but the `catch` block reads `credentials?.client_email` whenever the error message includes `does not have permission`. That read is a `ReferenceError` ("credentials is not defined"), so `appendToSheet` rejects, and the handler's outer catch answers 500 "Failed to send email. Please try again later." after the email was delivered | valid lead, configured key, email delivered, `GOOGLE_SHEETS_ID` and a parsable credential set, append throws "The caller does not have permission" | the hint only logs; `appendToSheet` returns `{success:false, error, details}` and the response is 200 with `googleSheets: false` | high (not executed) | Sheets.AppendToSheetAsWritten | Sheets.AppendToSheet |

`Handler.PermissionErrorAfterDelivery` shows both outcomes side by side. `Handler.AsWrittenHandler` shows that this is the only case in which the two handlers differ. `Handler.Handle`, the handler the rest of the model uses, awaits the corrected `Sheets.AppendToSheet`.

## Left out

- Express routing, body parsing, `app.listen` and `PORT` (server.js:7-11, 496-510): HTTP plumbing. Methods other than `POST` and `OPTIONS` on the submission path are reduced to a `NoRoute` 404.
- The Resend client, the Google auth client and the Sheets API (server.js:39, 90-96, 127-132, 279): foreign libraries. What they return or throw is an input. A failure while building the Google client is folded into the append outcome, since both land in the same catch block.
- Base64 decoding and `JSON.parse` of the credentials (server.js:65-68, 76-78): an abstract parsed/failed outcome per source.
- HTML markup, CSS, the emoji in the email body and every `console.log`/`console.error`: cosmetic or log-only. The subject keeps its leading emoji. The three diagnostic substring checks (server.js:150-160) only log, apart from the permission check's `ReferenceError`.
- `toLocaleString` in Asia/Kolkata and `Date.now()` (server.js:98, 117, 364, 413, 454): clock and locale, supplied as parameters. The three clock readings are independent; nothing claims they are equal or unique.
- `/api/health` and `/` (server.js:475-494): constant responses.
- The development-only `details` field of the outer catch (server.js:469): depends on `NODE_ENV`.
- Request-body values that are not strings (numbers, booleans, arrays, nested objects), and a `utm` that is a non-object truthy value: only `undefined`, `null` and strings are modelled. The same holds for the `code` of a thrown Google error (`AppendOutcome.code`), which is usually a number; it only reaches the `details` field of a failed sheet result (server.js:163), which no response carries.
- Thrown values are Error objects with a string `message`. A throw without one, which would make `error.message.includes` itself throw, is not modelled.
- A Resend reply with neither `data` nor `error` (where `data.id` would throw): the provider is taken to return exactly one of them.
- The success object `{success: true, result: result.data}` keeps only `updatedCells` and `updatedRange`, the two fields the server reads.
