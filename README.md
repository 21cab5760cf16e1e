# Card-entry form: validator, preview and submit state

A model of the single-page credit-card form in `src/main.tsx`. The form has
five text inputs (cardholder name, card number, expiration month, expiration
year, CVV). A card picture mirrors them live. A validator maps the values to
per-field error messages, and a flag switches the page to a thank-you screen
once the card is submitted.

Modules:

- `Patterns` (`patterns.dfy`): a small regular-expression syntax and an
  anchored matcher, `FullMatch(r, s)`, standing for JavaScript's
  `/^r$/.test(s)`. `\d` is ASCII `0`-`9`. The lemmas give the language of a
  digit repetition `\d{min,max}` and of two single-character patterns in a row.
- `Validation` (`validation.dfy`): the form values, the field names, the ten
  messages, the four patterns as written in the source (`^\d+$`,
  `^(0[1-9]|1[0-2])$`, `^\d{2}$`, `^\d{3,4}$`), and one rule chain per field.
  Each chain tests the pattern as the source does. Its lemma states the
  chain's outcome with plain predicates (`NumberValid`: sixteen ASCII digits;
  `MonthValid`: two digits whose decimal value is 1 to 12; and so on).
  `Validate` is the error map as a function. `ValidateForm` is the validator
  as the source runs it: it starts from an empty map and assigns each failing
  field's message in turn. It is proved equal to `Validate`.
- `Preview` (`preview.dfy`): the card picture. Each field shows its value, or
  a fixed placeholder when the value is empty (JavaScript's `value || text`).
- `Controller` (`controller.dfy`): the `isSubmitted` state as a class with one
  boolean field. It also holds the rule that shows a message only for a
  touched field that has one.

There are no checks beyond the source's own. There is no Luhn check digit, no
range check on the year ("00" passes), and no check that the card has not
expired. Spaces in the card number are rejected as non-digits.

## Model

| member | source | states |
|---|---|---|
| `Patterns.DigitRepeatLanguage` | src/main.tsx:34-54 | `\d{min,max}` (so also `\d+`, `\d{2}`, `\d{3,4}`) matches a whole string exactly when it is all ASCII digits and its length is in range |
| `Validation.MonthPatternLanguage` | src/main.tsx:42 | the month pattern `^(0[1-9] or 1[0-2])$` accepts exactly the two-digit strings whose value is 1 to 12 |
| `Validation.NameRules` | src/main.tsx:28-30 | the name has an error exactly when it is empty, and the error is "Cardholder Name is required" |
| `Validation.NumberRules` | src/main.tsx:32-38 | empty gives "required"; else a non-digit gives "must contain only digits"; else a length other than 16 gives "must be 16 digits"; no error exactly for 16 ASCII digits |
| `Validation.MonthRules` | src/main.tsx:40-44 | empty gives "required"; any other value outside "01".."12" gives the range message; no error exactly for "01".."12" |
| `Validation.YearRules` | src/main.tsx:46-50 | empty gives "required"; anything but two ASCII digits gives "YY format"; every two-digit year passes |
| `Validation.CvvRules` | src/main.tsx:52-56 | empty gives "required"; anything but 3 or 4 ASCII digits gives "must be 3 or 4 digits" |
| `Validation.FieldRules` | src/main.tsx:28-56 | each field's chain fails exactly when the field's rule fails, with one of that field's own messages |
| `Validation.Validate` | src/main.tsx:25-59 | the error map has a key exactly for each field that breaks its rule, and that key holds one of the field's messages |
| `Validation.ValidateInOrder` | src/main.tsx:26-57 | assigning each field's message in the source's order builds exactly the error map |
| `Validation.ValidateForm` | src/main.tsx:25-59 | the step-by-step validator returns the error map, and it returns the empty map exactly when every field is valid |
| `Validation.ValidateEmptyIff` | src/main.tsx:25-58 | the error map is empty exactly when all five field rules hold |
| `Validation.FieldsIndependent` | src/main.tsx:25-58 | a field's entry in the error map depends only on that field's value |
| `Validation.NumberExampleTooShort` | src/main.tsx:36-37 | "123" is all digits, so it gets "must be 16 digits" |
| `Validation.NumberExampleLetters` | src/main.tsx:34-35 | "12345678901234AB" gets "must contain only digits" |
| `Validation.NumberExampleSpaces` | src/main.tsx:34-35 | the input's own hint format "1234 5678 9123 0000" gets "must contain only digits" |
| `Validation.NumberExampleAccepted` | src/main.tsx:32-38 | "1234567890123456" has no error |
| `Validation.MonthExamples` | src/main.tsx:40-44 | "00", "13" and "1" get the range message; "01" and "12" pass |
| `Validation.YearAndCvvExamples` | src/main.tsx:46-56 | year "00" passes and "2025" fails; CVV "12" and "12345" fail; "123" and "1234" pass |
| `Preview.Render` | src/main.tsx:80-92 | every preview text is non-empty; a non-empty value is shown as typed; an empty one shows the field's placeholder |
| `Preview.ExpiryLineShows` | src/main.tsx:85 | the expiry line is the month text (or "00" when empty), a slash, then the year text (or "00" when empty) |
| `Preview.PreviewShowsInvalidInput` | src/main.tsx:80-92 | an invalid non-empty value is still shown as typed, while the validator reports it |
| `Preview.PreviewDeterminesFilledForm` | src/main.tsx:80-92 | two fully filled-in forms with the same preview hold the same values |
| `Preview.PlaceholderLookalike` | src/main.tsx:80-92 | the empty form and the form filled with the placeholder texts give the same preview, though the empty form fails every rule |
| `Preview.PlaceholdersAgainstRules` | src/main.tsx:80-92 | the card-number and month placeholders would fail their rules; the name, year and CVV placeholders would pass |
| `Controller.ShownErrorMeaning` | src/main.tsx:118-119 | a message is shown under a field exactly when the field is touched and breaks its rule, and it is one of that field's messages |
| `Controller.NothingShownWhenValid` | src/main.tsx:118-119 | a valid form shows no message, whatever is touched |
| `Controller.CardForm.constructor` | src/main.tsx:7 | the form starts not submitted |
| `Controller.CardForm.CurrentScreen` | src/main.tsx:100-107 | the thank-you screen is shown exactly when the form is submitted |
| `Controller.CardForm.OnSubmit` | src/main.tsx:61-64 | submitting valid values sets the flag and shows the thank-you screen |
| `Controller.SubmitSampleCard` | src/main.tsx:61-64 | a new form shows the entry screen; submitting "Jane Appleseed", "1234123412341234", "09", "25", "123" shows the thank-you screen |

The same message for a field is shown on lines 132-133, 152-153, 166-167 and
185-186 as on lines 118-119; `ShownError` covers all five.

## Left out

- Rendering, styles, the completion image, the inert "Continue" button and the mount into the page: presentation only.
- How the form library tracks `touched` and handles change and blur events: `touched` is a parameter of `ShownError`.
- `Controller.CardForm.OnSubmit`: the handler itself sets the flag without looking at the values. The library calls it only when `validate` returns no errors, and the model states that guarantee as the handler's precondition. The library's submit path, which also marks every field touched, is not part of this model.
- The `maxLength` limits on the inputs: the browser enforces them, and the validator does not rely on them, so the model accepts strings of any length.
- Repeated calls of `validate` give the same map: Dafny functions are deterministic, so this needs no lemma.
- `Patterns.FullMatch` covers only the pattern syntax the validator uses, and assumes `min <= max` in every `{min,max}` repetition, as JavaScript requires.
- Strings are sequences of Unicode characters. JavaScript counts `.length` in UTF-16 code units and allows lone surrogates, which the model cannot hold. No result changes: the card-number length test runs only after `^\d+$` has passed, when the string is all ASCII.
