# PredictLoyalty form — a verified model

This project models the client-side logic of the PredictLoyalty form. The
user fills in six fields and submits them; the page validates them, posts
them to a remote loyalty predictor and shows the returned score as a toast.
The repository holds two versions of the component:

- `src/pages/PredictLoyalty.jsx`, the **page**. It validates the form and
  keeps an error object next to the form data.
- `src/components/PredictLoyalty.js`, the **component**. It is the older
  version, with no validation: it always posts.

Modules:

- `Form`: the six fields (`Field`), the form record (`FormData`) with `Get`
  and the one-field update `With`, the empty form, and the predictor's
  `Response`. A response is either rejected or carries an optional score.
- `JsString`: the whitespace set of `String.prototype.trim`, `Trim`
  itself, and substring containment.
- `Validation`: `validateInput` as `Validate`. It also holds the rule each
  field must satisfy (`Accepts`) and the lemmas about each field.
- `Notification`: `showToastMessage`, which bands the score and composes
  the message, and the failure toast. A toast is the (severity, message)
  pair handed to the toast library.
- `LoyaltyPage` and `LoyaltyComponent`: each has a class `PredictLoyalty`
  whose fields are the component state. The posts issued and the toasts
  shown are kept as logs. Each class has a pure transition function
  (`Change`, `Submit`) that its handler methods are proved against, and the
  lemmas about behaviour across several steps are stated over those
  functions.

JavaScript's string-to-number coercion (`Number(s)`, which `isNaN`, `<`
and `<=` apply to a string) is a parameter, `parse: string -> Option<real>`.
Here `None` stands for NaN. A field's text is tested for emptiness first,
because `!s` is true only for the empty string. So `"0"` passes that test,
and an attendance of zero is accepted (`ZeroTextPassesEmptinessTest`).

Two behaviours of the page, modelled as written:

- A rejected request leaves `errors` as it was. Errors stored by an earlier
  blocked submission therefore stay on screen even though the form now
  passes every rule (`Submit`, last ensures).
- A successful submission empties the form. So an immediate second submit
  is blocked by all six errors and makes no request
  (`ResubmitAfterSuccessIsBlocked`).

## Model

| member | source | states |
|---|---|---|
| `JsString.TrimStart` | src/pages/PredictLoyalty.jsx:69 | the result is a suffix of the input; every character dropped is whitespace; the result does not start with whitespace |
| `JsString.TrimEnd` | src/pages/PredictLoyalty.jsx:69 | the result is a prefix of the input; every character dropped is whitespace; the result does not end with whitespace |
| `JsString.Trim` | src/pages/PredictLoyalty.jsx:69 | `trim()` returns an infix of its input with no whitespace at either end; it is empty exactly when the input is all whitespace |
| `Form.FormData.With` | src/pages/PredictLoyalty.jsx:20-25 | `{...formData, [name]: value}` reads `value` at the named field and the old value at each of the other five |
| `Validation.FailsIffRejected` | src/pages/PredictLoyalty.jsx:29-71 | each `if` guard of `validateInput` is the exact negation of its field's rule (positive number, number in [0,100], number in [1,10], not blank) |
| `Validation.Check` | src/pages/PredictLoyalty.jsx:29-36 | one guarded assignment adds the checked field's key exactly when its guard holds, keeps every other key, and stores that field's own message |
| `Validation.Validate` | src/pages/PredictLoyalty.jsx:27-73 | a field is a key of the error object iff its own rule rejects its value, and each key carries that field's message |
| `Validation.ValidateEmptyIffValid` | src/pages/PredictLoyalty.jsx:27-73 | the error object is empty exactly when all six rules pass |
| `Validation.ValidateIsLocal` | src/pages/PredictLoyalty.jsx:29-71 | changing one field never adds or removes another field's error; the error object outside that field is unchanged |
| `Validation.PositiveFieldRule` | src/pages/PredictLoyalty.jsx:29-51 | Frequency, Help and Financial are rejected when empty, non-numeric, zero or negative, and accepted for any positive number |
| `Validation.AttendanceRule` | src/pages/PredictLoyalty.jsx:52-60 | a numeric attendance is accepted iff it lies in [0,100], both edges included |
| `Validation.ZeroTextPassesEmptinessTest` | src/pages/PredictLoyalty.jsx:29-56 | the text "0" is truthy: it reaches the range test, so attendance 0 is accepted while frequency 0 is rejected |
| `Validation.SentimentRule` | src/pages/PredictLoyalty.jsx:61-68 | a numeric sentiment is accepted iff it lies in [1,10], both edges included |
| `Validation.RangeFieldsRejectNonNumbers` | src/pages/PredictLoyalty.jsx:52-68 | empty or non-numeric attendance and sentiment are rejected |
| `Validation.NameRule` | src/pages/PredictLoyalty.jsx:69-71 | the name error is present iff every character of the name is whitespace (the empty name included) |
| `Validation.SingleFailure` | src/pages/PredictLoyalty.jsx:27-73 | one failing field among passing ones yields an error object holding exactly that field's message |
| `Validation.EmptyFormFailsEveryRule` | src/pages/PredictLoyalty.jsx:9-16 | the initial (and reset) form fails all six rules |
| `Notification.Band` | src/pages/PredictLoyalty.jsx:112-124 | the severity is never the initial info; success iff score >= 8, warning iff 5 <= score < 8, error iff the score is missing, non-numeric or below 5 |
| `Notification.ShowToastMessage` | src/pages/PredictLoyalty.jsx:111-127 | the toast has the score's band, its message contains the relationship name, and it contains the band's word (high, average, low) |
| `Notification.BandMonotone` | src/components/PredictLoyalty.js:49-65 | a higher score never gets a lower band, and a missing score gets the same band as any score below 5 |
| `LoyaltyPage.Change` | src/pages/PredictLoyalty.jsx:20-25 | `handleChange` overwrites exactly the named field and leaves the other fields, `errors` and the logs unchanged |
| `LoyaltyPage.Submit` | src/pages/PredictLoyalty.jsx:75-109 | a failing rule stores the error object and changes nothing else, with no request; otherwise one request carries the form; a response resets every field to "" and clears `errors` with the score's toast; a rejection keeps `formData` and `errors` with the failure toast |
| `LoyaltyPage.ResubmitAfterSuccessIsBlocked` | src/pages/PredictLoyalty.jsx:92-100 | after a successful submission, submitting again makes no request and shows all six errors |
| `LoyaltyPage.RetryAfterFailurePostsSameBody` | src/pages/PredictLoyalty.jsx:105-108 | after a rejected request, resubmitting posts the same body again |
| `LoyaltyPage.AliceSubmission` | src/pages/PredictLoyalty.jsx:84-101 | a valid record named Alice is posted once; the form resets; the toast names Alice, and its severity follows the score's band |
| `LoyaltyPage.AttendanceOverHundredBlocks` | src/pages/PredictLoyalty.jsx:78-82 | the same record with attendance 150 is blocked with the attendance error alone, and nothing else changes |
| `LoyaltyPage.PredictLoyalty.constructor` | src/pages/PredictLoyalty.jsx:9-18 | the state starts with six empty fields, an empty error object and no requests or toasts |
| `LoyaltyPage.PredictLoyalty.HandleChange` | src/pages/PredictLoyalty.jsx:20-25 | the new state is `Change` of the old one |
| `LoyaltyPage.PredictLoyalty.HandleSubmit` | src/pages/PredictLoyalty.jsx:75-109 | the new state is `Submit` of the old one, for the given coercion and response |
| `LoyaltyComponent.Change` | src/components/PredictLoyalty.js:17-22 | `handleChange` overwrites exactly the named field and leaves the other fields and the logs unchanged |
| `LoyaltyComponent.Submit` | src/components/PredictLoyalty.js:24-47 | every submission makes one request, whatever the fields hold; a response resets all six fields to "" with the score's toast; a rejection keeps `formData` with the failure toast |
| `LoyaltyComponent.VariantsAgreeOnValidForms` | src/components/PredictLoyalty.js:24-47 | on a form that passes every rule the page and this component make the same transition; on any other form only this component makes a request |
| `LoyaltyComponent.PredictLoyalty.constructor` | src/components/PredictLoyalty.js:8-15 | the state starts with six empty fields and no requests or toasts |
| `LoyaltyComponent.PredictLoyalty.HandleChange` | src/components/PredictLoyalty.js:17-22 | the new state is `Change` of the old one |
| `LoyaltyComponent.PredictLoyalty.HandleSubmit` | src/components/PredictLoyalty.js:24-47 | the new state is `Submit` of the old one, for the given response |

## Left out

- The POST to `/predict` and the remote predictor are network I/O. The
  outcome is an input to `Submit`: a rejection, or a response whose score
  may be missing.
- The toast library is a foreign library. A toast is recorded as a
  (severity, message) value appended to a log.
- The `setTimeout` that reloads the page after 3 seconds is left out. It is
  a timer and a browser side effect.
- `console.error` and `e.preventDefault()` are left out. They are I/O and a
  browser event.
- JavaScript's number coercion (`Number`, hexadecimal and exponent forms,
  whitespace) and IEEE floating point are not modelled. They sit behind
  the `parse` parameter, which returns exact reals. The page's inputs are
  `type="number"`, so their text is either empty or a numeral.
- `await` is treated as atomic. Overlapping submissions, and state changed
  while a request is in flight, are not modelled. The handler reads the
  `formData` captured when the submission started.
- JSX rendering, `src/components/Input/index.js` (markup only), CSS, the
  header image and the explanatory notes are presentational.
- The order of keys in the error object is not modelled. It only affects
  display order, and a `map` has no order.
