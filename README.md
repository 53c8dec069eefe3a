# Recipient form of mfe-bank, modelled in Dafny

This project models the form logic of the bank-transfer recipient screen of the
`mfe-bank` micro-frontend:

- **the recipient form controller**: the `formData` snapshot, the `touched` map and
  the `errors` map. It also covers
  - the field validator;
  - the error effect, which revalidates every touched field;
  - the bank auto-fill effect, which copies the selected bank's routing number, SWIFT
    code or IBAN into the account fields for the chosen payment type;
  - the change, blur, bank-select and submit handlers;
  - the submit gate and the submission record.
- **the static tables**: the payment-type field schema with its length validators,
  and the mock bank directory.
- **the bank dropdown**: its free-text search over name, address, SWIFT, routing number
  and IBAN, and its card click.
- **the advanced bank search**: the routing, country and state filters, the filter
  change handler, and the two callbacks run when a result is chosen.
- **the searchable select of a form field**: its label search, its selected-option
  lookup, and its option handler.

Modules, one per file:

| module | file | models |
|---|---|---|
| `Wrappers` | wrappers.dfy | `Option`, for `undefined` / `null` |
| `JsString` | js_string.dfy | `String.prototype.trim`, `toLowerCase` and `includes` |
| `SeqOps` | seq_ops.dfy | `Array.prototype.filter` and `find` |
| `Constants` | constants.dfy | `constants.ts` |
| `RecipientForm` | recipient_form.dfy | `RecipientForm.tsx` |
| `BankSelector` | bank_selector.dfy | `BankSelector.tsx` |
| `BankSearchExamples` | bank_search_examples.dfy | two concrete searches of the dropdown over the directory |
| `AdvancedBankSearch` | advanced_bank_search.dfy | `AdvancedBankSearch.tsx` |
| `FormField` | form_field.dfy | `FormField.tsx` (the searchable select) |

How the model is shaped:

- **The recipient form is a class, `RecipientForm.FormState`.**
  - Each handler is a method that replaces the fields the handler's `setState` calls
    replace.
  - The two `useEffect` hooks are the methods `RecomputeErrors` and
    `AutoFillFromBank`. `RunEffects` runs them in React's order: first the error
    effect; then the auto-fill effect when `bankId` or `paymentType` changed; then the
    error effect again when the auto-fill wrote the snapshot.
  - `Handle(event)` runs one handler and then the effects. It keeps the invariant
    `Valid()`: every touched entry is `true`, and the error map is the error effect's
    result for the current snapshot.
- **`formData` is a map from property name to a `Value`.** A `Value` is a string, a
  boolean, or the nested `accountFields` record. This mirrors the source, which writes
  `[name]: value` under any input name, iterates over `Object.keys`, and reads
  `formData[key]`, which is `undefined` for the `accountFields.<name>` keys that blur
  adds to `touched`.
- **The two loops that build error maps are methods.** Each is proved equal to a
  specification function (`TouchedErrors`, `SubmitErrors`). Lemmas then state what that
  function means: which fields get a message, and when.
- **Filters and lookups are functions** (`FilteredBanks`, `FilteredOptions`,
  `SelectedOption`, `FindBank`). Each is specified as an order-preserving subsequence,
  or as the first match.
- **The dropdown and select widgets are small classes.** Their fields are the
  widgets' `isOpen` and `searchQuery` state.

`constants.ts` gives each payment-specific account field a length validator, but the
form never calls one. The submit loop runs only `validateField`, and that function has no
case for the account field names. `RecipientForm.ShortSwiftCodeIsSubmitted` proves the
consequence: a snapshot that passes the submit check still passes with WIRE selected and
a five-character SWIFT code.

## Model

| member | source | states |
|---|---|---|
| JsString.Trim | src/app/components/forms/RecipientForm.tsx:58 | `value.trim()` is empty exactly when every character of the value is ECMAScript whitespace or a line terminator |
| JsString.TrimEmptyIffBlank | src/app/components/forms/RecipientForm.tsx:58 | trimming leading then trailing whitespace leaves nothing exactly when the string is blank |
| JsString.TrimIsSlice | src/app/components/forms/RecipientForm.tsx:58 | the trimmed string is a contiguous slice of the original |
| JsString.TrimEnds | src/app/components/forms/RecipientForm.tsx:58 | a non-empty trimmed string neither starts nor ends with whitespace |
| JsString.Lower | src/app/components/forms/BankSelector.tsx:19-23 | `toLowerCase()` keeps the length of the string |
| JsString.IncludesEmpty | src/app/components/forms/BankSelector.tsx:19 | every string includes the empty string |
| SeqOps.Filter | src/app/components/forms/BankSelector.tsx:18-24 | `filter` yields an order-preserving subsequence holding exactly the elements that pass the predicate: all of them when all pass, none when none pass |
| SeqOps.FilterCounts | src/app/components/forms/FormField.tsx:40-42 | `filter` keeps every occurrence of a passing element and none of a failing one: each value occurs in the result as often as in the input, or not at all |
| SeqOps.FindFirst | src/app/components/forms/BankSelector.tsx:16 | `find` yields nothing exactly when no element passes, otherwise the first element that passes |
| Constants.Validate | src/app/components/forms/constants.ts:10-58 | each schema validator accepts exactly its length range: routing number 9, account numbers at least 4, SWIFT 8 to 11, IBAN at least 15 |
| Constants.PaymentTypeConfigFor | src/app/components/forms/constants.ts:1-62 | the schema has an entry exactly for ACH, WIRE and SEPA |
| Constants.PaymentTypeOptions | src/app/components/forms/RecipientForm.tsx:281-284 | the payment-type select lists one option per schema key, in declaration order, valued by the key and labelled with that configuration's label |
| Constants.SchemaShape | src/app/components/forms/constants.ts:1-62 | ACH has 3 fields, WIRE 2 and SEPA 1; all are required; names are unique within a type; exactly the text fields carry a validator; only `accountType` has options |
| Constants.BankIdsDistinct | src/app/components/forms/constants.ts:64-109 | the directory holds four banks with ids '1' to '4', pairwise distinct |
| Constants.FindBank | src/app/components/forms/BankSelector.tsx:16 | the lookup by id finds a directory bank with that id, and finds nothing exactly when no bank has the id |
| Constants.FindBankById | src/app/components/forms/constants.ts:64-109 | looking up a directory bank's own id finds that very bank |
| Constants.BankValuesPassValidators | src/app/components/forms/constants.ts:64-109 | every directory routing number, SWIFT code and IBAN passes the schema validator of the field it is copied into |
| RecipientForm.ValidateField | src/app/components/forms/RecipientForm.tsx:55-78 | a name outside the seven validated fields never gets a message |
| RecipientForm.RequiredFieldErrorIffBlank | src/app/components/forms/RecipientForm.tsx:55-74 | a required text field (display name, country, address1, city, state, zip) has a message exactly when its value is blank |
| RecipientForm.EmailOutcomes | src/app/components/forms/RecipientForm.tsx:59-64 | a blank email gets the "required" message, a non-blank invalid one 'Email inválido', a non-blank valid one no message |
| RecipientForm.SelectedBank | src/app/components/forms/RecipientForm.tsx:98 | the selected bank is a directory bank whose id is the snapshot's string `bankId`, and there is none exactly when no directory bank has that id |
| RecipientForm.FieldErrorIffRejected | src/app/components/forms/RecipientForm.tsx:85-88 | a field's recorded message is non-empty exactly when the field holds a string that its validation rejects |
| RecipientForm.ErrorsOf | src/app/components/forms/RecipientForm.tsx:81-93 | the error map over a set of fields has an entry exactly for the rejected fields of the set, holding that field's non-empty `validateField` message |
| RecipientForm.EmailErrorMessage | src/app/components/forms/RecipientForm.tsx:59-64 | a recorded email error is the "required" message when the email is blank and 'Email inválido' otherwise |
| RecipientForm.TouchedKeys | src/app/components/forms/RecipientForm.tsx:83-84 | the fields looked at are exactly the keys that `touched` maps to true |
| RecipientForm.TouchedErrors | src/app/components/forms/RecipientForm.tsx:81-93 | the error effect's map has keys among the seven validated fields, an entry exactly for the touched rejected fields holding that field's non-empty `validateField` message, and nothing for the `accountFields.<name>` keys |
| RecipientForm.CollectTouchedErrors | src/app/components/forms/RecipientForm.tsx:82-91 | the loop over `Object.keys(touched)` builds exactly the error effect's map |
| RecipientForm.SubmitErrors | src/app/components/forms/RecipientForm.tsx:161-169 | the submit check's map has an entry exactly for the rejected properties of the snapshot, holding that property's non-empty `validateField` message |
| RecipientForm.CollectSubmitErrors | src/app/components/forms/RecipientForm.tsx:162-169 | the loop over `Object.keys(formData)` builds exactly the submit check's map |
| RecipientForm.AllTouched | src/app/components/forms/RecipientForm.tsx:155-158 | submit marks every property of the snapshot, and nothing else, touched with true |
| RecipientForm.SubmitErrorsAreAllTouchedErrors | src/app/components/forms/RecipientForm.tsx:155-169 | the submit check equals the error effect run with every property touched |
| RecipientForm.SubmitAcceptedIff | src/app/components/forms/RecipientForm.tsx:161-171 | submission goes through exactly when the six required fields are not blank and the email is not blank and is valid |
| RecipientForm.SubmitOnlyReadsValidatedFields | src/app/components/forms/RecipientForm.tsx:161-171 | snapshots that agree on the seven validated fields get the same submit errors |
| RecipientForm.ShortSwiftCodeIsSubmitted | src/app/components/forms/RecipientForm.tsx:161-171 | an accepted snapshot stays accepted with WIRE and a SWIFT code the schema validator rejects: account fields are not checked |
| RecipientForm.FilledFrom | src/app/components/forms/RecipientForm.tsx:101-125 | ACH writes the routing number and the ACH name, WIRE the SWIFT code, SEPA the IBAN; other account fields and all other properties are kept |
| RecipientForm.AutoFilled | src/app/components/forms/RecipientForm.tsx:96-129 | the auto-fill never changes the `bankId` and `paymentType` it depends on |
| RecipientForm.FilledFromIdempotent | src/app/components/forms/RecipientForm.tsx:101-125 | copying a bank's details twice equals copying them once |
| RecipientForm.AutoFillIdempotent | src/app/components/forms/RecipientForm.tsx:96-129 | running the auto-fill on its own result changes nothing |
| RecipientForm.FilledFromValid | src/app/components/forms/RecipientForm.tsx:104-120 | values with the schema's lengths land in account fields that pass their validators |
| RecipientForm.AutoFilledAccountFieldsValid | src/app/components/forms/RecipientForm.tsx:96-129 | every account field the auto-fill writes passes that field's validator in the schema |
| RecipientForm.BankDetailsOf | src/app/components/forms/RecipientForm.tsx:178-184 | `bankDetails` is null exactly when no bank is selected, otherwise it carries that bank's name, address, SWIFT, ACH details and IBAN |
| RecipientForm.MatchingIdGivesBankDetails | src/app/components/forms/RecipientForm.tsx:173-184 | when `bankId` names a directory bank, `bankDetails` is that bank's name, address, SWIFT, ACH details and IBAN, not null |
| RecipientForm.SameBankIdSameBank | src/app/components/forms/RecipientForm.tsx:98 | the selected bank depends on `bankId` alone |
| RecipientForm.WireFillAfterAchFill | src/app/components/forms/RecipientForm.tsx:104-117 | a WIRE fill after an ACH fill from the same bank holds both the routing number and the SWIFT code |
| RecipientForm.AchThenWireKeepsRoutingNumber | src/app/components/forms/RecipientForm.tsx:96-129 | switching from ACH to WIRE with a bank selected keeps the auto-filled routing number beside the new SWIFT code |
| RecipientForm.AutoFill | src/app/components/forms/RecipientForm.tsx:97-127 | the effect body produces the auto-filled snapshot, and reports a write exactly when the auto-fill applies |
| RecipientForm.FormState.constructor | src/app/components/forms/RecipientForm.tsx:32-51 | the form starts with every property empty, nothing touched, no errors, and `Valid()` holds |
| RecipientForm.FormState.HandleChange | src/app/components/forms/RecipientForm.tsx:131-139 | stores the checked flag for a checkbox and the text otherwise under the input's name; nothing else changes |
| RecipientForm.FormState.HandleAccountFieldChange | src/app/components/forms/RecipientForm.tsx:316-323 | replaces one entry of `accountFields` and keeps the others |
| RecipientForm.FormState.HandleBlur | src/app/components/forms/RecipientForm.tsx:141-144 | marks the input's name touched; nothing else changes |
| RecipientForm.FormState.HandleBankSelect | src/app/components/forms/RecipientForm.tsx:146-149 | stores the bank id and marks `bankId` touched |
| RecipientForm.FormState.HandleSubmit | src/app/components/forms/RecipientForm.tsx:151-221 | marks every property touched; yields the submission (snapshot, bank details, timestamp) exactly when the submit check finds no error, and otherwise stores the errors |
| RecipientForm.FormState.RecomputeErrors | src/app/components/forms/RecipientForm.tsx:81-93 | the error map becomes the error effect's map for the current snapshot and touched map |
| RecipientForm.FormState.AutoFillFromBank | src/app/components/forms/RecipientForm.tsx:96-129 | the snapshot becomes its auto-filled form; touched and errors are kept |
| RecipientForm.FormState.RunEffects | src/app/components/forms/RecipientForm.tsx:81-129 | after the effects, the snapshot is auto-filled when a dependency changed, and the errors match the touched fields |
| RecipientForm.FormState.Handle | src/app/components/forms/RecipientForm.tsx:131-221 | each event leaves the handler's state, settled by the effects, and keeps the form invariant `Valid()` |
| BankSelector.FilteredBanks | src/app/components/forms/BankSelector.tsx:18-24 | the listed banks are an order-preserving subsequence of the directory: exactly the banks where the query is found, case-insensitively in name, address, SWIFT or IBAN, or case-sensitively in the routing number |
| BankSelector.EmptyQueryKeepsAll | src/app/components/forms/BankSelector.tsx:18-24 | an empty query lists the whole directory in order |
| BankSelector.BankDropdown.constructor | src/app/components/forms/BankSelector.tsx:12-13 | the dropdown starts closed with an empty query |
| BankSelector.BankDropdown.ClickTrigger | src/app/components/forms/BankSelector.tsx:48 | clicking the trigger flips the open flag |
| BankSelector.BankDropdown.MouseDown | src/app/components/forms/BankSelector.tsx:26-31 | a mouse-down outside the dropdown closes it; one inside changes nothing |
| BankSelector.BankDropdown.ChangeSearch | src/app/components/forms/BankSelector.tsx:81 | typing replaces the query |
| BankSelector.BankDropdown.ClickCard | src/app/components/forms/BankSelector.tsx:95-99 | clicking a listed bank reports its id, which finds that very bank, and closes the dropdown |
| BankSearchExamples.ChaseQueryFindsOnlyBank2 | src/app/components/forms/BankSelector.tsx:18-24 | on the directory, the query "chase" lists bank '2' and no other |
| BankSearchExamples.UnknownRoutingQueryFindsNothing | src/app/components/forms/BankSelector.tsx:18-24 | on the directory, the query "9999999" lists nothing |
| AdvancedBankSearch.FilteredBanks | src/app/components/forms/AdvancedBankSearch.tsx:23-31 | the results are an order-preserving subsequence of the directory: exactly the banks that pass the routing, country and state tests together |
| AdvancedBankSearch.NoFiltersKeepsAll | src/app/components/forms/AdvancedBankSearch.tsx:23-31 | with all three filters empty the whole directory is listed |
| AdvancedBankSearch.OtherCountryFindsNothing | src/app/components/forms/AdvancedBankSearch.tsx:27 | a country filter other than empty or 'US' lists nothing |
| AdvancedBankSearch.FullRoutingNumberKeepsBank | src/app/components/forms/AdvancedBankSearch.tsx:24 | a bank's full routing number as filter keeps that bank when country and state let it through |
| AdvancedBankSearch.HandleBankSelect | src/app/components/forms/AdvancedBankSearch.tsx:33-36 | choosing a bank calls `onSelectBank` with its id, then `onClose` |
| AdvancedBankSearch.Search.constructor | src/app/components/forms/AdvancedBankSearch.tsx:12-16 | the filters start as empty country, state and routing number |
| AdvancedBankSearch.Search.HandleFilterChange | src/app/components/forms/AdvancedBankSearch.tsx:18-21 | the named filter takes the new value and every other filter is kept |
| AdvancedBankSearch.Search.ClickResult | src/app/components/forms/AdvancedBankSearch.tsx:85 | clicking a result runs the two callbacks with that result's id, which finds that very bank |
| FormField.FilteredOptions | src/app/components/forms/FormField.tsx:40-42 | no options gives `undefined`; otherwise an order-preserving subsequence of exactly the options whose lower-cased label contains the lower-cased query, each kept as often as it occurs |
| FormField.EmptySearchKeepsAll | src/app/components/forms/FormField.tsx:40-42 | an empty search keeps every option, in order |
| FormField.SelectedOption | src/app/components/forms/FormField.tsx:44 | the selected option is the first one carrying the field's value, and there is none exactly when no option carries it or there are no options |
| FormField.ChosenOptionIsSelected | src/app/components/forms/FormField.tsx:44 | once an option's value is the field's value, an option with that value is shown as selected |
| FormField.SearchableSelect.constructor | src/app/components/forms/FormField.tsx:35-36 | the select starts closed with an empty search |
| FormField.SearchableSelect.ClickTrigger | src/app/components/forms/FormField.tsx:80-83 | clicking the trigger flips the open flag |
| FormField.SearchableSelect.MouseDown | src/app/components/forms/FormField.tsx:46-51 | a mouse-down outside the select closes it; one inside changes nothing |
| FormField.SearchableSelect.ChangeSearch | src/app/components/forms/FormField.tsx:104 | typing replaces the search |
| FormField.SearchableSelect.HandleSelectOption | src/app/components/forms/FormField.tsx:57-68 | picking an option reports the field's name with the option's value, closes the list and clears the search |

## Left out

- JSX rendering, CSS classes, icons, and the `FormSection`, `NotificationToggle`,
  `SubmitButton` and `Modal` components are not modelled, nor is the advanced search's
  open flag. These are presentation. The advanced search's `onSelectBank` is the form's
  `handleBankSelect`, so its selection reaches the form as the `BankSelect` event.
- DOM event listeners, `stopPropagation`, refs, and `setTimeout` with `focus` are not
  modelled. A mouse-down is a method that says whether it landed inside the widget.
- `validateEmail` lives in a module that is not part of this model. It is the
  parameter `validEmail` of the form.
- `console.group`/`console.log`, `alert` and the clock are not modelled. The
  submission is returned as a value, and `new Date().toISOString()` is the
  `submittedAt` parameter.
- React's scheduling is not modelled: batching of state updates, and re-renders between
  an effect and its `setFormData(prev => ...)` updater. The model applies each updater
  to the snapshot the effect read, which is what a single synchronous render does.
- JsString.Lower: lower-cases only the ASCII letters A-Z. Every string in the directory
  and the schema is ASCII, but the search text is typed by the user, and `toLowerCase`
  maps other characters too: the KELVIN SIGN U+212A becomes "k", so that query matches
  "Bank of America" in the source and matches nothing in the model.
- Constants.Validate: string lengths count Unicode scalar values, not the UTF-16 code
  units JavaScript's `length` counts. They differ only outside the Basic Multilingual
  Plane.
- RecipientForm.AccountFields: a snapshot whose `accountFields` is not a record is
  read as the empty record. The form only ever stores a record there.
- `COUNTRIES` and `US_STATES` are not modelled. No logic reads them; they are only
  passed to selects as their options.
- RecipientForm.FormState.Handle: accepts a `Submit` event in every state. The form
  disables its submit button while `errors` is non-empty (RecipientForm.tsx:451), so the
  model admits more submit attempts than the page does. Every property proved for
  submit holds for the attempts the page allows as well.
- Rendering the payment-specific fields with `PAYMENT_TYPES_CONFIG[formData.paymentType]`
  (RecipientForm.tsx:308) is not modelled. An unknown payment type would fail there, but
  that happens in the view.
- RecipientForm.AutoFill: the source's `switch` has no default case. The model guards
  it by membership in ACH, WIRE and SEPA, with the same result: any other payment type
  writes nothing.
