# Sponsor update form — a Dafny model

The sponsor update page of the event-next front end lets a sponsor edit
the six fields of their sponsorship record:

- organization name;
- email;
- phone number;
- budget range;
- event;
- message.

On submit, the browser first checks the email input, which has
`type="email"`. A non-empty value outside the browser's email grammar
stops the submit there, with the browser's own prompt. Otherwise the
page's submit handler checks the record. If any check fails, it shows one
message under each failing field and sends nothing. If all checks pass,
it sends the record to the server. When the server answers with a 2xx
status, it shows a success banner.

This project models that logic in three modules.

- `Patterns` (`patterns.dfy`) holds the two regular expressions the form
  uses, written as predicates on strings.
  - The email pattern `\S+@\S+\.\S+` is unanchored. `EmailTest` says what
    `RegExp.prototype.test` does with it: some substring of the input is
    matched as a whole. `EmailTestIffAtDot` proves this equivalent to a
    positional reading, which needs an `@` and a later `.` such that:
    - a non-whitespace character comes just before the `@`;
    - only non-whitespace (at least one character) lies between the two;
    - a non-whitespace character comes just after the `.`.
  - The phone pattern `^\d{10}$` has no flags. It accepts exactly ten ASCII
    digits and nothing else.
  - `\s` is the ECMAScript set: the WhiteSpace and LineTerminator code
    points, with every Zs space separator.
- `SponsorForm` (`form.dfy`) holds the record, the rules and `validate`.
  - The record is a map from property name to string. It starts as the
    six fields, all empty. The record fetched from the server replaces it
    wholesale, so it may lack a field or carry extra properties. An absent
    property reads as the empty string; both are falsy.
  - The error map is keyed by `Field`, the six form fields. Each message is
    an `ErrorMessage`, whose `Text()` is the exact string the page shows.
  - `FieldError` is the rule for one field on its own value. `Validation`
    is the error map `validate` builds: the six checks in the source's
    order, starting from an empty map. `Validate` is `validate` itself, a
    chain of conditional assignments into a map.
  - `Changed` is the `handleChange` update.
- `SponsorPage` (`page.dfy`) holds the page state as a class,
  `SponsorUpdate`.
  - Its fields are the record, the error map shown, the success banner,
    and the list of update request bodies the page has attempted to send.
  - `HandleChange` and `HandleSubmit` are the two event handlers. Whether
    the server answered with a 2xx status is `HandleSubmit`'s `responseOk`
    parameter.
  - The class invariant `Valid()` holds after every handler. Its main part:
    only records that passed `validate` were ever sent.

## Model

| member | source | states |
|---|---|---|
| Patterns.IsWs | event-next/src/pages/SponsorUpdate.jsx:47 | `\s` as ECMAScript defines it (`\S` is its complement); no whitespace character is an `@`, a `.` or an ASCII digit |
| Patterns.EmailTest | event-next/src/pages/SponsorUpdate.jsx:47 | `/\S+@\S+\.\S+/.test(s)`: some substring of `s` is matched by the whole pattern; a string that passes has at least five characters |
| Patterns.PhoneTest | event-next/src/pages/SponsorUpdate.jsx:52 | `/^\d{10}$/.test(s)`: exactly ten ASCII digits; a string that passes is non-empty, has no whitespace and no `@`. Its only other backing is `PhoneExamples` |
| Patterns.EmailTestIffAtDot | event-next/src/pages/SponsorUpdate.jsx:47 | the unanchored email test passes exactly when some `@` and later `.` have a non-whitespace character before the `@`, only non-whitespace (at least one) between them and a non-whitespace character after the `.` |
| Patterns.EmailTestNeedsAtAndDot | event-next/src/pages/SponsorUpdate.jsx:47 | an address that passes contains both an `@` and a `.` |
| Patterns.EmailTestFromAtDot | event-next/src/pages/SponsorUpdate.jsx:47 | one positional witness is enough for the email test to pass |
| Patterns.EmailTypicalAccepted | event-next/src/pages/SponsorUpdate.jsx:47 | `sponsor@example.com` passes the email test |
| Patterns.EmailLooseAccepted | event-next/src/pages/SponsorUpdate.jsx:47 | a dotted local part and a second `@` still pass, since `\S` matches `@` and `.` |
| Patterns.EmailTestUnanchored | event-next/src/pages/SponsorUpdate.jsx:47 | surrounding spaces and words do not make an address fail, since the pattern has no anchors |
| Patterns.EmailEmptyPartRejected | event-next/src/pages/SponsorUpdate.jsx:47 | an empty local part, an empty domain label before the `.`, or nothing after the `.` fails the email test |
| Patterns.EmailSpaceOrNoDotRejected | event-next/src/pages/SponsorUpdate.jsx:47 | whitespace just before the `@`, or no `.` after the `@`, fails the email test |
| Patterns.PhoneExamples | event-next/src/pages/SponsorUpdate.jsx:52 | ten digits pass; eleven digits, nine digits, `123-456-7890` and ten digits followed by a line feed fail |
| SponsorForm.Value | event-next/src/pages/SponsorUpdate.jsx:44-57 | `formData[key]` read as a string; an absent property reads as the empty string |
| SponsorForm.IsMissing | event-next/src/pages/SponsorUpdate.jsx:44-57 | `!formData.x` for a string record: an absent field is missing, and a present non-empty one is not |
| SponsorForm.CheckPresent | event-next/src/pages/SponsorUpdate.jsx:44 | one presence check of lines 44 and 55-57: a missing field gets its "required" message |
| SponsorForm.CheckEmail | event-next/src/pages/SponsorUpdate.jsx:45-49 | the email check: a present email that passes the pattern leaves the error map as it was |
| SponsorForm.CheckPhoneNumber | event-next/src/pages/SponsorUpdate.jsx:50-54 | the phone number check: a present ten-digit number leaves the error map as it was |
| SponsorForm.Validation | event-next/src/pages/SponsorUpdate.jsx:43-57 | the map `validate` builds, the six checks in order from an empty map; an acceptable record gets the empty map |
| SponsorForm.FieldError | event-next/src/pages/SponsorUpdate.jsx:44-57 | the message a field's own rule gives is always one of that field's messages |
| SponsorForm.Validate | event-next/src/pages/SponsorUpdate.jsx:42-59 | the map the conditional assignments build is `Validation` of the record, whose entries the lemmas below characterise |
| SponsorForm.ValidationAt | event-next/src/pages/SponsorUpdate.jsx:44-57 | a field is in the error map exactly when its own rule gives a message on its own value, and the entry is that message |
| SponsorForm.RequiredMessages | event-next/src/pages/SponsorUpdate.jsx:44-57 | organization name, budget range, event and message are in the error map exactly when missing, each under its "required" message |
| SponsorForm.ValidationKeys | event-next/src/pages/SponsorUpdate.jsx:43-57 | the error map is well formed: the one message under each field is one of that field's own messages (the keys are the six form fields by their type) |
| SponsorForm.ValidationEmptyIff | event-next/src/pages/SponsorUpdate.jsx:42-59 | `validate` reports nothing exactly when all six fields are present, the email passes its test and the phone number is ten digits |
| SponsorForm.EmailMessages | event-next/src/pages/SponsorUpdate.jsx:45-49 | an empty email gets "Email is required." and never "invalid"; a present email failing the pattern gets "Email is invalid."; a passing one gets no message |
| SponsorForm.PhoneNumberMessages | event-next/src/pages/SponsorUpdate.jsx:50-54 | an empty phone number gets "required"; a present one that is not ten digits gets "must be 10 digits"; ten digits get no message |
| SponsorForm.PhoneNumberExamples | event-next/src/pages/SponsorUpdate.jsx:52-53 | `12345678901` and `123-456-7890` get "Phone Number must be 10 digits." |
| SponsorForm.SelectionsPresenceOnly | event-next/src/pages/SponsorUpdate.jsx:55-56 | budget range and event are in the error map exactly when empty, so any non-empty value passes, listed option or not |
| SponsorForm.ValidationPerField | event-next/src/pages/SponsorUpdate.jsx:44-57 | two records with the same value in a field have the same entry for that field in their error maps |
| SponsorForm.InitialFormErrors | event-next/src/pages/SponsorUpdate.jsx:7-14 | the empty form the page starts with gets all six fields in its error map, each under its "required" message |
| SponsorForm.AcceptableByFields | event-next/src/pages/SponsorUpdate.jsx:42-59 | whether a record passes depends on its six field values only |
| SponsorForm.Changed | event-next/src/pages/SponsorUpdate.jsx:34-40 | after a change, the named property holds the new value and every other property keeps its value |
| SponsorForm.ChangedField | event-next/src/pages/SponsorUpdate.jsx:34-40 | changing one form field gives it the new value and leaves the other five alone |
| SponsorForm.ChangedValidation | event-next/src/pages/SponsorUpdate.jsx:34-57 | changing one field re-evaluates that field's rule on the new value and leaves every other entry of the error map as it was |
| SponsorForm.ChangedOtherProperty | event-next/src/pages/SponsorUpdate.jsx:34-57 | changing a property that is not a form field leaves the error map as it was |
| SponsorForm.FieldOfKey | event-next/src/pages/SponsorUpdate.jsx:7-14 | each field's property name leads back to that field and is one of the six form field names |
| SponsorPage.SponsorUpdate.constructor | event-next/src/pages/SponsorUpdate.jsx:7-16 | the page starts with six empty fields, no errors, no banner and nothing sent, and satisfies the invariant |
| SponsorPage.SponsorUpdate.HandleChange | event-next/src/pages/SponsorUpdate.jsx:34-40 | the record becomes the `Changed` record; errors, banner and requests are untouched; the invariant is kept |
| SponsorPage.SponsorUpdate.HandleSubmit | event-next/src/pages/SponsorUpdate.jsx:61-86 | with errors, the errors shown become `validate`'s map and nothing is sent or shown; without, exactly the record is sent, the errors shown stay as they were, and the banner is set only on an ok response |
| SponsorPage.SponsorUpdate.HandleSubmitClearingErrors | event-next/src/pages/SponsorUpdate.jsx:61-86 | like `HandleSubmit`, except the errors shown always become the error map of the record just submitted |
| SponsorPage.SponsorUpdate.SentRequestsAcceptable | event-next/src/pages/SponsorUpdate.jsx:63-74 | after any sequence of edits and submits, every request body sent has all six fields present, a passing email and a ten-digit phone number |
| SponsorPage.FilledIn | event-next/src/pages/SponsorUpdate.jsx:34-40 | typing the six fields one after another, starting from any record, gives a record with those six values |
| SponsorPage.StaleErrorsScenario | event-next/src/pages/SponsorUpdate.jsx:61-86 | submit the empty page, fill in six valid values, submit again: exactly one record is sent, carrying those six values, and the errors shown after the second submit are still all six fields, each under its "required" message |
| SponsorPage.ClearedErrorsScenario | event-next/src/pages/SponsorUpdate.jsx:61-86 | the same steps with `HandleSubmitClearingErrors`: one record is sent and no messages are shown |

The page offers fixed options for budget range and event (lines 17 and
166-168), but `validate` only checks that the two are present. The model
follows the code (`SelectionsPresenceOnly`).

## Left out

- The `fetch` GET on mount and `setFormData(data)` (lines 19-32) are left out: they are network I/O and React effect scheduling. A record that came from the server is still covered, because the record is an arbitrary map from property name to string.
- The `fetch` PUT, `JSON.stringify` and the URL (lines 68-74) are left out: the request is recorded as the record it carries, appended to `requests`.
- The response is the boolean `responseOk`. `false` stands for both a non-2xx answer and a `fetch` that throws: neither sets the banner. `requests` records every PUT the page attempted, so a body is appended in both cases, even when the request never reached the server.
- `console.error` (lines 27, 80, 83) is left out: it changes no state.
- The two-second redirect via `setTimeout` and `navigate` (line 78) is left out: it is timer- and router-driven.
- The JSX markup, labels, CSS classes and option lists (lines 88-225) are left out: they are rendering, apart from the email input's type, covered in the next lines. The option lists matter only in that `validate` ignores them.
- `useParams`, `useState`, `useEffect` and React's batching of state updates are left out. Each handler is one atomic state transition on the class's fields.
- JavaScript truthiness of non-string values (a numeric `phoneNumber` from the server, say) and the string coercion `.test` performs are left out: every record value is a string.
- `e.preventDefault()` (line 62) is left out: it is browser behaviour with no model state.
- The browser's own check of the `type="email"` input (line 123; the form at line 99 has no `noValidate`) is left out. A non-empty email outside the browser's email grammar blocks the submit, so `handleSubmit` never runs. For example, `a b@c.d` passes the page's pattern but never reaches `validate`. Likewise, with `x y` as the email and an empty organization name, the user sees the browser's prompt, not the page's messages. The model lets `HandleSubmit` run on any record. So it covers more submits than the page allows, and what it proves about every sent record still holds.
- The error map is keyed by the `Field` datatype, not by the property-name strings. `Field.Key()` gives the name, and `FieldOfKey` and `KeysDistinct` show the names are distinct. Likewise, a message is an `ErrorMessage` value, and `Text()` gives the string shown.

## Findings

| source | as written | input that shows it | evidently intended | confidence | as-written member | corrected member |
|---|---|---|---|---|---|---|
| event-next/src/pages/SponsorUpdate.jsx:64-66 | `setErrors` is called only when `validate` reports errors, so after a submit that passes, the messages of an earlier failed submit stay on screen under fields that are now valid | submit the untouched page (six "required" messages), fill in all six fields with valid values, submit again: the record is sent and the six messages remain | the errors shown are those of the record just submitted, so a passing submit clears them | medium, not executed | SponsorPage.StaleErrorsScenario | SponsorPage.SponsorUpdate.HandleSubmitClearingErrors |
