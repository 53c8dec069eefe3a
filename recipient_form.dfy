/**
 * The recipient form's state controller: the form snapshot, the touched map and the
 * error map, the event handlers that replace them, the two effects that React runs
 * after those handlers, and the submit gate.
 */
module RecipientForm {
  import opened Wrappers
  import opened JsString
  import opened Constants

  /** A property of the `formData` object: a string, the one boolean
      (`sendNotifications`) or the nested string record (`accountFields`). */
  datatype Value = Str(s: string) | Flag(b: bool) | Record(fields: map<string, string>)

  /** `formData`: a plain object indexed by property name. */
  type FormData = map<string, Value>

  /** The snapshot the form starts from: every property empty. */
  const InitialFormData: FormData := map[
    "displayName" := Str(""), "email" := Str(""), "sendNotifications" := Flag(false),
    "paymentType" := Str(""), "bankId" := Str(""), "accountFields" := Record(map[]),
    "wireBeneficiary" := Str(""), "achName" := Str(""), "achId" := Str(""),
    "country" := Str(""), "address1" := Str(""), "address2" := Str(""),
    "city" := Str(""), "state" := Str(""), "zip" := Str("")
  ]

  /** The fields `validateField` rejects when blank, besides `email`. */
  const RequiredTextFields: set<string> := {"displayName", "country", "address1", "city", "state", "zip"}

  /** The only fields `validateField` can ever reject. */
  const ValidatedFields: set<string> := RequiredTextFields + {"email"}

  /** `validateField(name, value)`: '' for a valid value, otherwise the message.
      `validEmail` stands for `validateEmail`, which is imported from a module that is
      not part of this model. Every name outside the seven validated fields is valid. */
  function ValidateField(name: string, value: string, validEmail: string -> bool): (error: string)
    ensures name !in ValidatedFields ==> error == ""
  {
    var blank := Trim(value) == "";
    if name == "displayName" then (if blank then "El nombre es requerido" else "")
    else if name == "email" then
      (if blank then "El email es requerido" else if !validEmail(value) then "Email inválido" else "")
    else if name == "country" then (if blank then "El país es requerido" else "")
    else if name == "address1" then (if blank then "La dirección es requerida" else "")
    else if name == "city" then (if blank then "La ciudad es requerida" else "")
    else if name == "state" then (if blank then "El estado es requerido" else "")
    else if name == "zip" then (if blank then "El código postal es requerido" else "")
    else ""
  }

  /** A required text field has an error exactly when its value is empty or only
      whitespace. */
  lemma RequiredFieldErrorIffBlank(name: string, value: string, validEmail: string -> bool)
    requires name in RequiredTextFields
    ensures ValidateField(name, value, validEmail) != "" <==> IsBlank(value)
  {
    assert name == "displayName" || name == "country" || name == "address1"
      || name == "city" || name == "state" || name == "zip";
    assert Trim(value) == "" <==> IsBlank(value);
  }

  /** The email has three outcomes: the "required" message when it is blank, otherwise
      'Email inválido' when it is not an address, otherwise no error. */
  lemma EmailOutcomes(value: string, validEmail: string -> bool)
    ensures IsBlank(value) ==> ValidateField("email", value, validEmail) == "El email es requerido"
    ensures !IsBlank(value) && !validEmail(value) ==> ValidateField("email", value, validEmail) == "Email inválido"
    ensures !IsBlank(value) && validEmail(value) ==> ValidateField("email", value, validEmail) == ""
  {
    assert Trim(value) == "" <==> IsBlank(value);
  }

  /** `formData[key]`, `None` standing for `undefined`. */
  function Lookup(formData: FormData, key: string): Option<Value> {
    if key in formData then Some(formData[key]) else None
  }

  /** JavaScript truthiness of `formData[key]`. */
  predicate Truthy(formData: FormData, key: string) {
    match Lookup(formData, key)
    case None => false
    case Some(Str(s)) => s != ""
    case Some(Flag(b)) => b
    case Some(Record(_)) => true
  }

  /** The string entries of `formData.accountFields`. */
  function AccountFields(formData: FormData): map<string, string> {
    match Lookup(formData, "accountFields")
    case Some(Record(fields)) => fields
    case _ => map[]
  }

  /** `MOCK_BANKS.find(bank => bank.id === formData.bankId)`: strict equality never
      holds unless `bankId` is a string. */
  function SelectedBank(formData: FormData): (r: Option<Bank>)
    ensures r.Some? ==> r.value in MockBanks && Lookup(formData, "bankId") == Some(Str(r.value.id))
    ensures r.None? <==> forall b :: b in MockBanks ==> Lookup(formData, "bankId") != Some(Str(b.id))
  {
    match Lookup(formData, "bankId")
    case Some(Str(id)) => FindBank(id)
    case _ => None
  }

  // ---------------------------------------------------------------------------
  // Error recomputation and the submit check

  /** The error the effect and the submit loop record for one field: only string
      values are validated. */
  function FieldError(formData: FormData, field: string, validEmail: string -> bool): string {
    if field in formData && formData[field].Str? then ValidateField(field, formData[field].s, validEmail) else ""
  }

  /** When a field's value counts as wrong: a required text field that is blank, or an
      email that is blank or not an address. Other fields, and values that are not
      strings, are never wrong. */
  predicate Rejected(formData: FormData, field: string, validEmail: string -> bool) {
    && field in ValidatedFields && field in formData && formData[field].Str?
    && (if field == "email" then IsBlank(formData[field].s) || !validEmail(formData[field].s)
        else IsBlank(formData[field].s))
  }

  /** A field's recorded error is non-empty exactly when its value is wrong. */
  lemma FieldErrorIffRejected(formData: FormData, field: string, validEmail: string -> bool)
    ensures FieldError(formData, field, validEmail) != "" <==> Rejected(formData, field, validEmail)
  {
    if field in formData && formData[field].Str? {
      var value := formData[field].s;
      if field in RequiredTextFields {
        RequiredFieldErrorIffBlank(field, value, validEmail);
      } else if field == "email" {
        EmailOutcomes(value, validEmail);
      }
    }
  }

  /** The messages for the wrong values among `fields`, keyed by field. */
  function ErrorsOf(formData: FormData, fields: set<string>, validEmail: string -> bool): (errors: map<string, string>)
    ensures errors.Keys <= fields * ValidatedFields
    ensures forall field :: field in errors <==> field in fields && Rejected(formData, field, validEmail)
    ensures forall field :: field in errors ==> errors[field] != ""
    ensures forall field :: field in errors ==> errors[field] == FieldError(formData, field, validEmail)
  {
    forall field ensures FieldError(formData, field, validEmail) != "" <==> Rejected(formData, field, validEmail) {
      FieldErrorIffRejected(formData, field, validEmail);
    }
    map field | field in fields && FieldError(formData, field, validEmail) != ""
      :: FieldError(formData, field, validEmail)
  }

  /** Checking one more field adds its message, if it has one. */
  lemma ErrorsOfAdd(formData: FormData, fields: set<string>, field: string, validEmail: string -> bool)
    ensures var error := FieldError(formData, field, validEmail);
      ErrorsOf(formData, fields + {field}, validEmail)
        == if error != "" then ErrorsOf(formData, fields, validEmail)[field := error]
           else ErrorsOf(formData, fields, validEmail)
  {
  }

  /** A recorded email error tells the two failures apart: the "required" message for a
      blank email, 'Email inválido' for a non-blank one that is not an address. */
  lemma EmailErrorMessage(formData: FormData, fields: set<string>, validEmail: string -> bool)
    requires "email" in ErrorsOf(formData, fields, validEmail)
    ensures "email" in formData && formData["email"].Str?
    ensures ErrorsOf(formData, fields, validEmail)["email"]
      == if IsBlank(formData["email"].s) then "El email es requerido" else "Email inválido"
  {
    EmailOutcomes(formData["email"].s, validEmail);
  }

  /** The keys `touched` maps to `true`. */
  function TouchedKeys(touched: map<string, bool>): (keys: set<string>)
    ensures forall field :: field in keys <==> field in touched && touched[field]
  {
    set field | field in touched && touched[field]
  }

  /** The error map the error effect builds: one non-empty message for each touched
      field whose value is wrong, and nothing for any other field (in particular
      nothing for the `accountFields.<name>` keys that blur puts into `touched`). */
  function TouchedErrors(formData: FormData, touched: map<string, bool>, validEmail: string -> bool): (errors: map<string, string>)
    ensures errors.Keys <= ValidatedFields
    ensures forall field :: field in errors <==> field in touched && touched[field] && Rejected(formData, field, validEmail)
    ensures forall field :: field in errors ==> errors[field] != ""
    ensures forall field :: field in errors ==> errors[field] == FieldError(formData, field, validEmail)
  {
    ErrorsOf(formData, TouchedKeys(touched), validEmail)
  }

  /** The error map the submit handler builds: a message for every property of the
      snapshot whose value is wrong. */
  function SubmitErrors(formData: FormData, validEmail: string -> bool): (errors: map<string, string>)
    ensures errors.Keys <= ValidatedFields
    ensures forall field :: field in errors <==> Rejected(formData, field, validEmail)
    ensures forall field :: field in errors ==> errors[field] != ""
    ensures forall field :: field in errors ==> errors[field] == FieldError(formData, field, validEmail)
  {
    ErrorsOf(formData, formData.Keys, validEmail)
  }

  /** `Object.keys(formData).reduce(...)`: every property of the snapshot marked touched. */
  function AllTouched(formData: FormData): (touched: map<string, bool>)
    ensures touched.Keys == formData.Keys
    ensures forall field :: field in touched ==> touched[field]
  {
    map field | field in formData :: true
  }

  /** The error effect's loop over `Object.keys(touched)`. */
  method CollectTouchedErrors(formData: FormData, touched: map<string, bool>, validEmail: string -> bool)
    returns (newErrors: map<string, string>)
    ensures newErrors == TouchedErrors(formData, touched, validEmail)
  {
    newErrors := map[];
    var pending := touched.Keys;
    while pending != {}
      invariant pending <= touched.Keys
      invariant newErrors == ErrorsOf(formData, TouchedKeys(touched) - pending, validEmail)
      decreases |pending|
    {
      var field :| field in pending;
      assert TouchedKeys(touched) - (pending - {field})
        == if touched[field] then (TouchedKeys(touched) - pending) + {field} else TouchedKeys(touched) - pending;
      ErrorsOfAdd(formData, TouchedKeys(touched) - pending, field, validEmail);
      if touched[field] {
        if field in formData && formData[field].Str? {
          var error := ValidateField(field, formData[field].s, validEmail);
          if error != "" {
            newErrors := newErrors[field := error];
          }
        }
      }
      pending := pending - {field};
    }
    assert TouchedKeys(touched) - pending == TouchedKeys(touched);
  }

  /** The submit handler's loop over `Object.keys(formData)`. */
  method CollectSubmitErrors(formData: FormData, validEmail: string -> bool)
    returns (newErrors: map<string, string>)
    ensures newErrors == SubmitErrors(formData, validEmail)
  {
    newErrors := map[];
    var pending := formData.Keys;
    while pending != {}
      invariant pending <= formData.Keys
      invariant newErrors == ErrorsOf(formData, formData.Keys - pending, validEmail)
      decreases |pending|
    {
      var field :| field in pending;
      assert formData.Keys - (pending - {field}) == (formData.Keys - pending) + {field};
      ErrorsOfAdd(formData, formData.Keys - pending, field, validEmail);
      var value := formData[field];
      if value.Str? {
        var error := ValidateField(field, value.s, validEmail);
        if error != "" {
          newErrors := newErrors[field := error];
        }
      }
      pending := pending - {field};
    }
    assert formData.Keys - pending == formData.Keys;
  }

  // ---------------------------------------------------------------------------
  // Bank auto-fill

  /** The payment types whose account field the auto-fill knows. */
  const AutoFillTypes: set<string> := {"ACH", "WIRE", "SEPA"}

  /** The auto-fill effect writes the snapshot exactly when both `bankId` and
      `paymentType` are truthy, the bank is in the directory and the payment type is
      one of the three the switch handles. */
  predicate AutoFillApplies(formData: FormData) {
    && Truthy(formData, "bankId") && Truthy(formData, "paymentType")
    && SelectedBank(formData).Some?
    && formData["paymentType"].Str? && formData["paymentType"].s in AutoFillTypes
  }

  /** The snapshot after copying `bank`'s details for `paymentType`: ACH copies the
      routing number into `accountFields.routingNumber` and the ACH name into `achName`,
      WIRE copies the SWIFT code into `accountFields.swiftCode`, SEPA copies the IBAN
      into `accountFields.iban`; other account fields are kept and nothing else changes. */
  function FilledFrom(formData: FormData, bank: Bank, paymentType: string): (r: FormData)
    requires paymentType in AutoFillTypes
    ensures paymentType == "ACH" ==>
      && Lookup(r, "accountFields") == Some(Record(AccountFields(formData)["routingNumber" := bank.ach.routing]))
      && Lookup(r, "achName") == Some(Str(bank.ach.name))
    ensures paymentType == "WIRE" ==>
      Lookup(r, "accountFields") == Some(Record(AccountFields(formData)["swiftCode" := bank.swift]))
    ensures paymentType == "SEPA" ==>
      Lookup(r, "accountFields") == Some(Record(AccountFields(formData)["iban" := bank.iban]))
    ensures forall key :: key != "accountFields" && key != "achName" ==> Lookup(r, key) == Lookup(formData, key)
    ensures paymentType != "ACH" ==> Lookup(r, "achName") == Lookup(formData, "achName")
  {
    var accountFields := AccountFields(formData);
    if paymentType == "ACH" then
      formData["accountFields" := Record(accountFields["routingNumber" := bank.ach.routing])]
              ["achName" := Str(bank.ach.name)]
    else if paymentType == "WIRE" then
      formData["accountFields" := Record(accountFields["swiftCode" := bank.swift])]
    else
      formData["accountFields" := Record(accountFields["iban" := bank.iban])]
  }

  /** The snapshot the auto-fill effect leaves behind: the selected bank's details
      copied in when the effect applies, the snapshot itself otherwise. The effect never
      writes the two properties it depends on. */
  function AutoFilled(formData: FormData): (r: FormData)
    ensures Lookup(r, "bankId") == Lookup(formData, "bankId")
    ensures Lookup(r, "paymentType") == Lookup(formData, "paymentType")
  {
    if AutoFillApplies(formData) then
      FilledFrom(formData, SelectedBank(formData).value, formData["paymentType"].s)
    else formData
  }

  /** Copying the same bank's details twice is the same as copying them once. */
  lemma FilledFromIdempotent(formData: FormData, bank: Bank, paymentType: string)
    requires paymentType in AutoFillTypes
    ensures FilledFrom(FilledFrom(formData, bank, paymentType), bank, paymentType) == FilledFrom(formData, bank, paymentType)
  {
    var once := FilledFrom(formData, bank, paymentType);
    var fields := AccountFields(formData);
    if paymentType == "ACH" {
      var filled := fields["routingNumber" := bank.ach.routing];
      assert AccountFields(once) == filled;
      assert filled["routingNumber" := bank.ach.routing] == filled;
      assert once["accountFields" := Record(filled)] == once;
    } else if paymentType == "WIRE" {
      var filled := fields["swiftCode" := bank.swift];
      assert AccountFields(once) == filled;
      assert filled["swiftCode" := bank.swift] == filled;
      assert once["accountFields" := Record(filled)] == once;
    } else {
      var filled := fields["iban" := bank.iban];
      assert AccountFields(once) == filled;
      assert filled["iban" := bank.iban] == filled;
      assert once["accountFields" := Record(filled)] == once;
    }
  }

  /** Running the auto-fill again changes nothing: it only rewrites the values it
      already wrote, and it leaves the bank id and payment type it reads alone. */
  lemma AutoFillIdempotent(formData: FormData)
    ensures AutoFilled(AutoFilled(formData)) == AutoFilled(formData)
  {
    if AutoFillApplies(formData) {
      var bank := SelectedBank(formData).value;
      var paymentType := formData["paymentType"].s;
      var once := AutoFilled(formData);
      assert Lookup(once, "bankId") == Lookup(formData, "bankId");
      assert Lookup(once, "paymentType") == Lookup(formData, "paymentType");
      assert SelectedBank(once) == SelectedBank(formData);
      FilledFromIdempotent(formData, bank, paymentType);
    }
  }

  /** A fill from a bank whose values have the schema's lengths writes account fields
      that pass their validators. */
  lemma FilledFromValid(formData: FormData, bank: Bank, paymentType: string)
    requires paymentType in AutoFillTypes
    requires |bank.ach.routing| == 9 && |bank.swift| == 8 && |bank.iban| == 18
    ensures var fields := AccountFields(FilledFrom(formData, bank, paymentType));
      && (paymentType == "ACH" ==> "routingNumber" in fields && Validate(RoutingNumberLength, fields["routingNumber"]) == "")
      && (paymentType == "WIRE" ==> "swiftCode" in fields && Validate(SwiftCodeLength, fields["swiftCode"]) == "")
      && (paymentType == "SEPA" ==> "iban" in fields && Validate(IbanLength, fields["iban"]) == "")
  {
  }

  /** Whatever the auto-fill writes into an account field passes that field's validator
      in the payment-type schema. */
  lemma AutoFilledAccountFieldsValid(formData: FormData)
    requires AutoFillApplies(formData)
    ensures var fields := AccountFields(AutoFilled(formData));
      && (formData["paymentType"] == Str("ACH") ==> Validate(RoutingNumberLength, fields["routingNumber"]) == "")
      && (formData["paymentType"] == Str("WIRE") ==> Validate(SwiftCodeLength, fields["swiftCode"]) == "")
      && (formData["paymentType"] == Str("SEPA") ==> Validate(IbanLength, fields["iban"]) == "")
  {
    var bank := SelectedBank(formData).value;
    BankValuesPassValidators();
    assert |bank.ach.routing| == 9 && |bank.swift| == 8 && |bank.iban| == 18;
    FilledFromValid(formData, bank, formData["paymentType"].s);
  }

  /** The auto-fill effect depends on `formData.bankId` and `formData.paymentType`: it
      runs after a render in which one of them differs from the previous render. */
  predicate AutoFillDepsChanged(before: FormData, after: FormData) {
    Lookup(before, "bankId") != Lookup(after, "bankId")
      || Lookup(before, "paymentType") != Lookup(after, "paymentType")
  }

  /** The snapshot once the effects have run after a handler turned `before` into `after`. */
  function Settled(before: FormData, after: FormData): FormData {
    if AutoFillDepsChanged(before, after) then AutoFilled(after) else after
  }

  // ---------------------------------------------------------------------------
  // Submission

  /** The `bankDetails` block of the submission: the selected bank without its id. */
  datatype BankDetails = BankDetails(name: string, address: string, swift: string, ach: AchDetails, iban: string)

  /** `submissionData`: the snapshot, the selected bank's details (null when no bank
      matches) and the submission timestamp. */
  datatype Submission = Submission(formData: FormData, bankDetails: Option<BankDetails>, submittedAt: string)

  function BankDetailsOf(bank: Option<Bank>): (r: Option<BankDetails>)
    ensures r.Some? <==> bank.Some?
    ensures r.Some? ==>
      && r.value.name == bank.value.name && r.value.address == bank.value.address
      && r.value.swift == bank.value.swift && r.value.ach == bank.value.ach && r.value.iban == bank.value.iban
  {
    match bank
    case None => None
    case Some(b) => Some(BankDetails(b.name, b.address, b.swift, b.ach, b.iban))
  }

  /** When `bankId` names a directory bank, the submission's `bankDetails` are that
      bank's details, never null. */
  lemma MatchingIdGivesBankDetails(formData: FormData, b: Bank)
    requires b in MockBanks && Lookup(formData, "bankId") == Some(Str(b.id))
    ensures BankDetailsOf(SelectedBank(formData)) == Some(BankDetails(b.name, b.address, b.swift, b.ach, b.iban))
  {
    FindBankById(b);
  }

  /** The submit check is the error effect run with every property touched. */
  lemma SubmitErrorsAreAllTouchedErrors(formData: FormData, validEmail: string -> bool)
    ensures SubmitErrors(formData, validEmail) == TouchedErrors(formData, AllTouched(formData), validEmail)
  {
  }

  /** For a snapshot whose validated fields hold strings, as the form's own snapshots do,
      submission goes through exactly when the six required fields are not blank and the
      email is not blank and is an address. */
  lemma SubmitAcceptedIff(formData: FormData, validEmail: string -> bool)
    requires forall field :: field in ValidatedFields ==> field in formData && formData[field].Str?
    ensures SubmitErrors(formData, validEmail) == map[] <==>
      && (forall field :: field in RequiredTextFields ==> !IsBlank(formData[field].s))
      && !IsBlank(formData["email"].s) && validEmail(formData["email"].s)
  {
    var errors := SubmitErrors(formData, validEmail);
    if errors == map[] {
      forall field | field in RequiredTextFields ensures !IsBlank(formData[field].s) {
        assert !Rejected(formData, field, validEmail);
      }
      assert !Rejected(formData, "email", validEmail);
    }
  }

  /** Submission only looks at the seven validated fields: two snapshots that agree on
      them are accepted or rejected alike, with the same messages. */
  lemma SubmitOnlyReadsValidatedFields(a: FormData, b: FormData, validEmail: string -> bool)
    requires forall field :: field in ValidatedFields ==> Lookup(a, field) == Lookup(b, field)
    ensures SubmitErrors(a, validEmail) == SubmitErrors(b, validEmail)
  {
    var ea := SubmitErrors(a, validEmail);
    var eb := SubmitErrors(b, validEmail);
    forall field | field in ValidatedFields ensures FieldError(a, field, validEmail) == FieldError(b, field, validEmail) {
      assert Lookup(a, field) == Lookup(b, field);
    }
    assert ea.Keys == eb.Keys;
  }

  /** The account fields are never validated: a snapshot that passes the submit check
      still passes it with WIRE selected and a five-character SWIFT code, which the
      schema's SWIFT validator rejects. */
  lemma ShortSwiftCodeIsSubmitted(formData: FormData, validEmail: string -> bool)
    requires SubmitErrors(formData, validEmail) == map[]
    ensures var wire := formData["paymentType" := Str("WIRE")]["accountFields" := Record(map["swiftCode" := "ABCDE"])];
      && Validate(SwiftCodeLength, "ABCDE") != ""
      && SubmitErrors(wire, validEmail) == map[]
  {
    var wire := formData["paymentType" := Str("WIRE")]["accountFields" := Record(map["swiftCode" := "ABCDE"])];
    SubmitOnlyReadsValidatedFields(formData, wire, validEmail);
  }

  /** Two snapshots with the same `bankId` select the same bank. */
  lemma SameBankIdSameBank(a: FormData, b: FormData)
    requires Lookup(a, "bankId") == Lookup(b, "bankId")
    ensures SelectedBank(a) == SelectedBank(b)
  {
  }

  /** The WIRE fill of an ACH-filled snapshot keeps the routing number. */
  lemma WireFillAfterAchFill(formData: FormData, bank: Bank)
    ensures var switched := FilledFrom(formData, bank, "ACH")["paymentType" := Str("WIRE")];
      AccountFields(FilledFrom(switched, bank, "WIRE"))
        == AccountFields(formData)["routingNumber" := bank.ach.routing]["swiftCode" := bank.swift]
  {
    var ach := FilledFrom(formData, bank, "ACH");
    var switched := ach["paymentType" := Str("WIRE")];
    assert AccountFields(switched) == AccountFields(ach);
  }

  /** Switching the payment type from ACH to WIRE with a bank selected keeps the routing
      number the ACH auto-fill wrote, next to the newly written SWIFT code. */
  lemma AchThenWireKeepsRoutingNumber(formData: FormData)
    requires AutoFillApplies(formData) && formData["paymentType"] == Str("ACH")
    ensures var bank := SelectedBank(formData).value;
      var ach := AutoFilled(formData);
      var wire := Settled(ach, ach["paymentType" := Str("WIRE")]);
      AccountFields(wire) == AccountFields(formData)["routingNumber" := bank.ach.routing]["swiftCode" := bank.swift]
  {
    var bank := SelectedBank(formData).value;
    var ach := AutoFilled(formData);
    assert ach == FilledFrom(formData, bank, "ACH");
    var switched := ach["paymentType" := Str("WIRE")];
    SameBankIdSameBank(formData, switched);
    assert AutoFillDepsChanged(ach, switched);
    assert AutoFillApplies(switched);
    WireFillAfterAchFill(formData, bank);
  }

  /** The auto-fill effect's body on the snapshot: copies the selected bank's details
      into `accountFields` (and `achName`) for the payment type; `updated` tells whether
      it wrote anything. */
  method AutoFill(snapshot: FormData) returns (next: FormData, updated: bool)
    ensures next == AutoFilled(snapshot)
    ensures updated <==> AutoFillApplies(snapshot)
  {
    next := snapshot;
    updated := false;
    if Truthy(snapshot, "bankId") && Truthy(snapshot, "paymentType") {
      var selectedBank := SelectedBank(snapshot);
      if selectedBank.Some? {
        var paymentType := snapshot["paymentType"];
        if paymentType.Str? && paymentType.s in AutoFillTypes {
          var bank := selectedBank.value;
          var newAccountFields := AccountFields(snapshot);
          if paymentType.s == "ACH" {
            newAccountFields := newAccountFields["routingNumber" := bank.ach.routing];
            next := snapshot["accountFields" := Record(newAccountFields)]["achName" := Str(bank.ach.name)];
          } else if paymentType.s == "WIRE" {
            newAccountFields := newAccountFields["swiftCode" := bank.swift];
            next := snapshot["accountFields" := Record(newAccountFields)];
          } else {
            newAccountFields := newAccountFields["iban" := bank.iban];
            next := snapshot["accountFields" := Record(newAccountFields)];
          }
          updated := true;
        }
      }
    }
  }

  /** The user interactions the form reacts to. `AccountFieldChange` is the inline
      handler of the payment-specific fields; `BankSelect` comes from the bank dropdown
      and from the advanced search. */
  datatype Event =
    | Change(name: string, inputType: string, value: string, checked: bool)
    | AccountFieldChange(fieldName: string, value: string)
    | Blur(name: string)
    | BankSelect(bankId: string)
    | Submit(submittedAt: string)

  /** The value `handleChange` stores: the checked flag for a checkbox, the text otherwise. */
  function ChangedValue(inputType: string, value: string, checked: bool): Value {
    if inputType == "checkbox" then Flag(checked) else Str(value)
  }

  /** The state of a mounted recipient form. */
  class FormState {
    const validEmail: string -> bool
    var formData: FormData
    var touched: map<string, bool>
    var errors: map<string, string>

    /** Between events, every touched entry is `true` (only blur, bank selection and
        submit write it, always with `true`) and the error map is the one the error
        effect computes from the snapshot and the touched map. */
    ghost predicate Valid()
      reads this
    {
      && (forall field :: field in touched ==> touched[field])
      && errors == TouchedErrors(formData, touched, validEmail)
    }

    constructor (validEmail: string -> bool)
      ensures this.validEmail == validEmail
      ensures formData == InitialFormData && touched == map[] && errors == map[]
      ensures Valid()
    {
      this.validEmail := validEmail;
      formData := InitialFormData;
      touched := map[];
      errors := map[];
    }

    /** `handleChange`: stores the input's value under its name. */
    method HandleChange(name: string, inputType: string, value: string, checked: bool)
      modifies this
      ensures formData == old(formData)[name := ChangedValue(inputType, value, checked)]
      ensures touched == old(touched) && errors == old(errors)
    {
      formData := formData[name := ChangedValue(inputType, value, checked)];
    }

    /** The payment-specific field's `onChange`: replaces one entry of `accountFields`. */
    method HandleAccountFieldChange(fieldName: string, value: string)
      modifies this
      ensures formData == old(formData)["accountFields" := Record(AccountFields(old(formData))[fieldName := value])]
      ensures touched == old(touched) && errors == old(errors)
    {
      formData := formData["accountFields" := Record(AccountFields(formData)[fieldName := value])];
    }

    /** `handleBlur`: marks the input's name as touched. */
    method HandleBlur(name: string)
      modifies this
      ensures touched == old(touched)[name := true]
      ensures formData == old(formData) && errors == old(errors)
    {
      touched := touched[name := true];
    }

    /** `handleBankSelect`: stores the bank id and marks `bankId` as touched. */
    method HandleBankSelect(bankId: string)
      modifies this
      ensures formData == old(formData)["bankId" := Str(bankId)]
      ensures touched == old(touched)["bankId" := true]
      ensures errors == old(errors)
    {
      formData := formData["bankId" := Str(bankId)];
      touched := touched["bankId" := true];
    }

    /** `handleSubmit`: marks every property touched and validates every string
        property; with no error it yields the submission, otherwise it stores the
        errors. The clock reading is the `submittedAt` parameter. */
    method HandleSubmit(submittedAt: string) returns (submission: Option<Submission>)
      modifies this
      ensures formData == old(formData)
      ensures touched == AllTouched(old(formData))
      ensures submission.Some? <==> SubmitErrors(formData, validEmail) == map[]
      ensures submission.Some? ==>
        submission.value == Submission(formData, BankDetailsOf(SelectedBank(formData)), submittedAt)
      ensures errors == (if submission.Some? then old(errors) else SubmitErrors(formData, validEmail))
    {
      touched := AllTouched(formData);
      var newErrors := CollectSubmitErrors(formData, validEmail);
      if |newErrors.Keys| == 0 {
        var selectedBank := SelectedBank(formData);
        submission := Some(Submission(formData, BankDetailsOf(selectedBank), submittedAt));
      } else {
        errors := newErrors;
        submission := None;
      }
    }

    /** The error effect: replaces the error map by the errors of the touched fields. */
    method RecomputeErrors()
      modifies this
      ensures errors == TouchedErrors(formData, touched, validEmail)
      ensures formData == old(formData) && touched == old(touched)
    {
      errors := CollectTouchedErrors(formData, touched, validEmail);
    }

    /** The auto-fill effect; `updated` tells whether it wrote the snapshot. */
    method AutoFillFromBank() returns (updated: bool)
      modifies this
      ensures formData == AutoFilled(old(formData))
      ensures updated <==> AutoFillApplies(old(formData))
      ensures touched == old(touched) && errors == old(errors)
    {
      var next;
      next, updated := AutoFill(formData);
      formData := next;
    }

    /** The effects React runs after a handler turned the snapshot `before` into the
        current one: the error effect, then the auto-fill effect when one of its
        dependencies changed, then the error effect again if the auto-fill wrote. */
    method RunEffects(before: FormData)
      modifies this
      ensures formData == Settled(before, old(formData))
      ensures touched == old(touched)
      ensures errors == TouchedErrors(formData, touched, validEmail)
    {
      RecomputeErrors();
      if AutoFillDepsChanged(before, formData) {
        var updated := AutoFillFromBank();
        if updated {
          RecomputeErrors();
        }
      }
    }

    /** One user interaction: the handler, then the effects. */
    method Handle(event: Event) returns (submission: Option<Submission>)
      requires Valid()
      modifies this
      ensures Valid()
      ensures event.Change? ==>
        && formData == Settled(old(formData),
             old(formData)[event.name := ChangedValue(event.inputType, event.value, event.checked)])
        && touched == old(touched) && submission.None?
      ensures event.AccountFieldChange? ==>
        && formData == old(formData)["accountFields" := Record(AccountFields(old(formData))[event.fieldName := event.value])]
        && touched == old(touched) && submission.None?
      ensures event.Blur? ==>
        formData == old(formData) && touched == old(touched)[event.name := true] && submission.None?
      ensures event.BankSelect? ==>
        && formData == Settled(old(formData), old(formData)["bankId" := Str(event.bankId)])
        && touched == old(touched)["bankId" := true] && submission.None?
      ensures event.Submit? ==>
        && formData == old(formData)
        && touched == AllTouched(old(formData))
        && (submission.Some? <==> SubmitErrors(old(formData), validEmail) == map[])
        && (submission.Some? ==>
              submission.value == Submission(old(formData), BankDetailsOf(SelectedBank(old(formData))), event.submittedAt))
    {
      var before := formData;
      submission := None;
      match event
      case Change(name, inputType, value, checked) =>
        HandleChange(name, inputType, value, checked);
        RunEffects(before);
      case AccountFieldChange(fieldName, value) =>
        HandleAccountFieldChange(fieldName, value);
        RunEffects(before);
      case Blur(name) =>
        HandleBlur(name);
        RunEffects(before);
      case BankSelect(bankId) =>
        HandleBankSelect(bankId);
        RunEffects(before);
      case Submit(submittedAt) =>
        submission := HandleSubmit(submittedAt);
        RunEffects(before);
    }
  }
}
