/**
 * The static tables of the recipient form: the payment-type field schema with its
 * length validators and the mock bank directory.
 */
module Constants {
  import opened Wrappers
  import SeqOps

  /** `{ value, label }`: one entry of a select's option list (`label` is a Dafny keyword,
      hence `labelText` here and in the descriptors). */
  datatype SelectOption = SelectOption(value: string, labelText: string)

  /** The `type` of a field descriptor. */
  datatype InputType = Text | Select

  /** The validation lambdas of the schema, one constructor per lambda. */
  datatype Validator =
    | RoutingNumberLength      // ACH routingNumber
    | AchAccountNumberLength   // ACH accountNumber
    | SwiftCodeLength          // WIRE swiftCode
    | WireAccountNumberLength  // WIRE accountNumber
    | IbanLength               // SEPA iban

  datatype FieldDescriptor = FieldDescriptor(
    name: string,
    labelText: string,
    inputType: InputType,
    required: bool,
    options: Option<seq<SelectOption>>,
    validation: Option<Validator>)

  datatype PaymentTypeConfig = PaymentTypeConfig(labelText: string, fields: seq<FieldDescriptor>)

  /** Applies a validation lambda: '' means valid, anything else is the message shown.
      Every check is on the length of the value only. */
  function Validate(v: Validator, value: string): (message: string)
    ensures v == RoutingNumberLength ==> (message == "" <==> |value| == 9)
    ensures v == AchAccountNumberLength ==> (message == "" <==> |value| >= 4)
    ensures v == WireAccountNumberLength ==> (message == "" <==> |value| >= 4)
    ensures v == SwiftCodeLength ==> (message == "" <==> 8 <= |value| <= 11)
    ensures v == IbanLength ==> (message == "" <==> |value| >= 15)
  {
    match v
    case RoutingNumberLength =>
      if |value| == 9 then "" else "Routing number debe tener 9 dígitos"
    case AchAccountNumberLength =>
      if |value| >= 4 then "" else "Account number debe tener al menos 4 dígitos"
    case SwiftCodeLength =>
      if |value| >= 8 && |value| <= 11 then "" else "SWIFT code debe tener entre 8 y 11 caracteres"
    case WireAccountNumberLength =>
      if |value| >= 4 then "" else "Account number debe tener al menos 4 caracteres"
    case IbanLength =>
      if |value| >= 15 then "" else "IBAN debe tener al menos 15 caracteres"
  }

  const AchConfig := PaymentTypeConfig("ACH (US Bank Transfer)", [
    FieldDescriptor("routingNumber", "Routing Number", Text, true, None, Some(RoutingNumberLength)),
    FieldDescriptor("accountNumber", "Account Number", Text, true, None, Some(AchAccountNumberLength)),
    FieldDescriptor("accountType", "Account Type", Select, true,
      Some([SelectOption("checking", "Checking"), SelectOption("savings", "Savings")]), None)
  ])

  const WireConfig := PaymentTypeConfig("Wire Transfer", [
    FieldDescriptor("swiftCode", "SWIFT Code", Text, true, None, Some(SwiftCodeLength)),
    FieldDescriptor("accountNumber", "IBAN/Account Number", Text, true, None, Some(WireAccountNumberLength))
  ])

  const SepaConfig := PaymentTypeConfig("SEPA Transfer", [
    FieldDescriptor("iban", "IBAN", Text, true, None, Some(IbanLength))
  ])

  /** The keys of `PAYMENT_TYPES_CONFIG`, in declaration order. */
  const PaymentTypeKeys: seq<string> := ["ACH", "WIRE", "SEPA"]

  /** `PAYMENT_TYPES_CONFIG[key]`: `undefined` for a key that is not in the table. */
  function PaymentTypeConfigFor(key: string): (r: Option<PaymentTypeConfig>)
    ensures r.Some? <==> key in PaymentTypeKeys
  {
    if key == "ACH" then Some(AchConfig)
    else if key == "WIRE" then Some(WireConfig)
    else if key == "SEPA" then Some(SepaConfig)
    else None
  }

  /** The payment-type select's options, `Object.entries(...).map(([key, config]) => ...)`. */
  function PaymentTypeOptions(): (r: seq<SelectOption>)
    ensures |r| == |PaymentTypeKeys|
    ensures forall i :: 0 <= i < |r| ==>
      && r[i].value == PaymentTypeKeys[i]
      && r[i].labelText == PaymentTypeConfigFor(PaymentTypeKeys[i]).value.labelText
  {
    seq(|PaymentTypeKeys|, i requires 0 <= i < |PaymentTypeKeys| =>
      SelectOption(PaymentTypeKeys[i], PaymentTypeConfigFor(PaymentTypeKeys[i]).value.labelText))
  }

  /** Field names are unique within a configuration. */
  predicate UniqueFieldNames(c: PaymentTypeConfig) {
    forall i, j :: 0 <= i < j < |c.fields| ==> c.fields[i].name != c.fields[j].name
  }

  /** The shape of the schema: three, two and one fields, all required, names unique
      within each type; only `accountType` is a select, and it has options but no validator,
      while every text field has a validator. */
  lemma SchemaShape()
    ensures |AchConfig.fields| == 3 && |WireConfig.fields| == 2 && |SepaConfig.fields| == 1
    ensures forall k :: k in PaymentTypeKeys ==>
      var c := PaymentTypeConfigFor(k).value;
      && UniqueFieldNames(c)
      && (forall f :: f in c.fields ==> f.required)
      && (forall f :: f in c.fields ==> (f.inputType == Text <==> f.validation.Some?))
      && (forall f :: f in c.fields ==> (f.options.Some? <==> f.name == "accountType"))
  {
    forall k | k in PaymentTypeKeys
      ensures UniqueFieldNames(PaymentTypeConfigFor(k).value)
    {
      var c := PaymentTypeConfigFor(k).value;
      forall i, j | 0 <= i < j < |c.fields| ensures c.fields[i].name != c.fields[j].name {
        assert i == 0 || i == 1;
        assert j == 1 || j == 2;
      }
    }
  }

  /** The `ach` sub-record of a bank. */
  datatype AchDetails = AchDetails(routing: string, name: string)

  /** One record of `MOCK_BANKS`. */
  datatype Bank = Bank(id: string, name: string, address: string, swift: string, ach: AchDetails, iban: string)

  /** `MOCK_BANKS`. Each address is written as two literals joined after the street;
      the joined string is the one the directory lists, and the search lemmas reason
      about the two halves separately. */
  const MockBanks: seq<Bank> := [
    Bank("1", "Bank of America", "100 North Tryon Street, " + "Charlotte, NC 28255", "BOFAUS3N",
      AchDetails("026009593", "Bank of America, N.A"), "US45BOFA1234567890"),
    Bank("2", "Chase", "383 Madison Avenue, " + "New York, NY 10179", "CHASUS33",
      AchDetails("021000021", "JPMorgan Chase Bank, N.A"), "US66CHAS9876543210"),
    Bank("3", "Wells Fargo", "420 Montgomery Street, " + "San Francisco, CA 94104", "WFBIUS6S",
      AchDetails("121000248", "Wells Fargo Bank, N.A"), "US89WFBG5432109876"),
    Bank("4", "Citibank", "388 Greenwich Street, " + "New York, NY 10013", "CITIUS33",
      AchDetails("021000089", "Citibank, N.A"), "US12CITI3456789012")
  ]

  /** The ids are '1' to '4', in order, and pairwise distinct. */
  lemma BankIdsDistinct()
    ensures |MockBanks| == 4
    ensures forall i :: 0 <= i < |MockBanks| ==> MockBanks[i].id == ["1", "2", "3", "4"][i]
    ensures forall i, j :: 0 <= i < j < |MockBanks| ==> MockBanks[i].id != MockBanks[j].id
  {
    forall i | 0 <= i < |MockBanks| ensures MockBanks[i].id == ["1", "2", "3", "4"][i] {
      assert i == 0 || i == 1 || i == 2 || i == 3;
    }
  }

  /** `MOCK_BANKS.find(bank => bank.id === id)`: the bank with that id, if any. */
  function FindBank(id: string): (r: Option<Bank>)
    ensures r.Some? ==> r.value in MockBanks && r.value.id == id
    ensures r.None? <==> forall b :: b in MockBanks ==> b.id != id
  {
    SeqOps.FindFirst(MockBanks, (b: Bank) => b.id == id)
  }

  /** Because the ids are distinct, looking a listed bank up by its id finds that very bank. */
  lemma FindBankById(b: Bank)
    requires b in MockBanks
    ensures FindBank(b.id) == Some(b)
  {
    BankIdsDistinct();
  }

  /** Every value the bank auto-fill copies into the form passes the validator of the
      field it lands in: routing numbers have 9 characters, SWIFT codes 8 and IBANs 18. */
  lemma BankValuesPassValidators()
    ensures forall b :: b in MockBanks ==>
      && |b.ach.routing| == 9 && |b.swift| == 8 && |b.iban| == 18
      && Validate(RoutingNumberLength, b.ach.routing) == ""
      && Validate(SwiftCodeLength, b.swift) == ""
      && Validate(IbanLength, b.iban) == ""
  {
  }
}
