/** The submit-time validation of the checkout form (`validate` in
    `src/pages/Checkout.tsx`): one test per field, all of them run, each
    failure recorded under the field's key. The regular expressions are
    written out as predicates. */
module Validation {
  import opened Text
  import opened Masks

  datatype PaymentMethod = Card | Blik | Cash

  /** `formData`: the delivery fields. */
  datatype ShippingData = ShippingData(
    firstName: string, lastName: string, address: string,
    zip: string, city: string, phone: string)

  /** `cardData`. */
  datatype CardData = CardData(number: string, expiry: string, cvc: string)

  // ---------------------------------------------------------------------
  // The patterns
  // ---------------------------------------------------------------------

  /** The characters `.` does not match. */
  predicate IsLineTerminator(c: char) {
    c == '\n' || c == '\r' || c == '\U{2028}' || c == '\U{2029}'
  }

  /** `/^.{3,}$/`: three characters or more, none of them a line break. */
  predicate NamePattern(s: string) {
    |s| >= 3 && forall i :: 0 <= i < |s| ==> !IsLineTerminator(s[i])
  }

  /** `/^[0-9]{2}-[0-9]{3}$/`. */
  predicate ZipPattern(s: string) {
    && |s| == 6
    && IsDigit(s[0]) && IsDigit(s[1])
    && s[2] == '-'
    && IsDigit(s[3]) && IsDigit(s[4]) && IsDigit(s[5])
  }

  /** `/^\+48\s\d{3}\s\d{3}\s\d{3}$/`: declared among the patterns but never
      tested; the phone check in use is `PhoneCheck`. */
  predicate StrictPhonePattern(s: string) {
    && |s| == 15
    && s[..3] == "+48"
    && IsWhitespace(s[3]) && AllDigits(s[4..7])
    && IsWhitespace(s[7]) && AllDigits(s[8..11])
    && IsWhitespace(s[11]) && AllDigits(s[12..])
  }

  /** The phone test in use: `phone.replace(/\D/g, '').length >= 11`. */
  predicate PhoneCheck(s: string) {
    |Digits(s)| >= 11
  }

  /** `/^[\d\s]{19}$/`: nineteen characters, each a digit or white space. */
  predicate CardPattern(s: string) {
    |s| == 19 && forall i :: 0 <= i < |s| ==> IsDigit(s[i]) || IsWhitespace(s[i])
  }

  /** `0[1-9]|1[0-2]`. */
  predicate MonthPattern(tens: char, units: char) {
    (tens == '0' && '1' <= units <= '9') || (tens == '1' && '0' <= units <= '2')
  }

  /** `/^(0[1-9]|1[0-2])\/[0-9]{2}$/`. */
  predicate ExpiryPattern(s: string) {
    |s| == 5 && MonthPattern(s[0], s[1]) && s[2] == '/' && IsDigit(s[3]) && IsDigit(s[4])
  }

  /** `/^[0-9]{3}$/`. */
  predicate CvcPattern(s: string) {
    |s| == 3 && AllDigits(s)
  }

  // ---------------------------------------------------------------------
  // The error map
  // ---------------------------------------------------------------------

  /** The keys `validate` may write. */
  datatype Field = FirstName | LastName | Address | Zip | City | Phone | BlikCode | CardNumber | Expiry | Cvc
  {
    /** The key as the form writes it. */
    function Key(): string {
      match this
      case FirstName => "firstName"
      case LastName => "lastName"
      case Address => "address"
      case Zip => "zip"
      case City => "city"
      case Phone => "phone"
      case BlikCode => "blik"
      case CardNumber => "cardNumber"
      case Expiry => "expiry"
      case Cvc => "cvc"
    }

    /** The message recorded for the field when it fails. */
    function Message(): string {
      match this
      case FirstName => "Za krótkie imię"
      case LastName => "Za krótkie nazwisko"
      case Address => "Podaj pełny adres"
      case Zip => "Wymagany format: 00-000"
      case City => "Wpisz poprawne miasto"
      case Phone => "Błędny numer"
      case BlikCode => "Kod musi mieć 6 cyfr"
      case CardNumber => "Niepoprawny numer karty"
      case Expiry => "MM/YY"
      case Cvc => "3 cyfry"
    }
  }

  /** Whether `validate` finds `field` wrong. */
  predicate Fails(field: Field, form: ShippingData, payment: PaymentMethod, blik: string, card: CardData) {
    match field
    case FirstName => !NamePattern(form.firstName)
    case LastName => !NamePattern(form.lastName)
    case Address => |form.address| < 5
    case Zip => !ZipPattern(form.zip)
    case City => |form.city| < 3
    case Phone => !PhoneCheck(form.phone)
    case BlikCode => payment == Blik && |blik| != 6
    case CardNumber => payment == Card && !CardPattern(card.number)
    case Expiry => payment == Card && !ExpiryPattern(card.expiry)
    case Cvc => payment == Card && !CvcPattern(card.cvc)
  }

  const AllFields: set<Field> :=
    {FirstName, LastName, Address, Zip, City, Phone, BlikCode, CardNumber, Expiry, Cvc}

  /** The errors of a submission: every failing field, with its message. */
  function Errors(form: ShippingData, payment: PaymentMethod, blik: string, card: CardData): (errors: map<Field, string>)
    ensures forall field :: field in errors <==> Fails(field, form, payment, blik, card)
    ensures forall field :: field in errors ==> errors[field] == field.Message()
  {
    map field | field in AllFields && Fails(field, form, payment, blik, card) :: field.Message()
  }

  /** The position of a field's test in `validate`. */
  function Rank(field: Field): (n: nat)
    ensures n < 10
  {
    match field
    case FirstName => 0
    case LastName => 1
    case Address => 2
    case Zip => 3
    case City => 4
    case Phone => 5
    case BlikCode => 6
    case CardNumber => 7
    case Expiry => 8
    case Cvc => 9
  }

  /** Two tests never share a position. */
  lemma RankInjective(f: Field, g: Field)
    requires Rank(f) == Rank(g)
    ensures f == g
  {
  }

  /** The fields a submission fails. */
  function Failures(form: ShippingData, payment: PaymentMethod, blik: string, card: CardData): (failing: set<Field>)
    ensures forall field :: field in failing <==> Fails(field, form, payment, blik, card)
  {
    set field | field in AllFields && Fails(field, form, payment, blik, card)
  }

  /** The errors the first `n` tests record, when `failing` are the fields
      that fail. */
  function ErrorsUpTo(failing: set<Field>, n: nat): map<Field, string>
  {
    map field | field in failing && Rank(field) < n :: field.Message()
  }

  /** `if (failed) newErrors[field] = message`, as the test at position `n`:
      the errors of the first `n` tests become those of the first `n + 1`. */
  method RecordTest(errors: map<Field, string>, field: Field, failed: bool, ghost n: nat, ghost failing: set<Field>)
    returns (r: map<Field, string>)
    requires n == Rank(field)
    requires errors == ErrorsUpTo(failing, n)
    requires failed <==> field in failing
    ensures r == ErrorsUpTo(failing, n + 1)
  {
    r := errors;
    if failed {
      r := r[field := field.Message()];
      FailedTestRecorded(failing, field);
    } else {
      PassedTestSkipped(failing, field);
    }
  }

  /** A failing test adds its message to the errors of the tests before it. */
  lemma FailedTestRecorded(failing: set<Field>, field: Field)
    requires field in failing
    ensures ErrorsUpTo(failing, Rank(field) + 1) == ErrorsUpTo(failing, Rank(field))[field := field.Message()]
  {
    var after := ErrorsUpTo(failing, Rank(field) + 1);
    var recorded := ErrorsUpTo(failing, Rank(field))[field := field.Message()];
    forall f | Rank(f) == Rank(field)
      ensures f == field
    {
      RankInjective(f, field);
    }
    assert after.Keys == recorded.Keys;
  }

  /** A passing test adds nothing. */
  lemma PassedTestSkipped(failing: set<Field>, field: Field)
    requires field !in failing
    ensures ErrorsUpTo(failing, Rank(field) + 1) == ErrorsUpTo(failing, Rank(field))
  {
    var after := ErrorsUpTo(failing, Rank(field) + 1);
    var before := ErrorsUpTo(failing, Rank(field));
    forall f | Rank(f) == Rank(field)
      ensures f == field
    {
      RankInjective(f, field);
    }
    assert after.Keys == before.Keys;
  }

  /** Without card payment the card tests find nothing. */
  lemma CardTestsSkipped(form: ShippingData, payment: PaymentMethod, blik: string, card: CardData)
    requires payment != Card
    ensures ErrorsUpTo(Failures(form, payment, blik, card), 7) == ErrorsUpTo(Failures(form, payment, blik, card), 10)
  {
    var seven := ErrorsUpTo(Failures(form, payment, blik, card), 7);
    var ten := ErrorsUpTo(Failures(form, payment, blik, card), 10);
    assert forall field :: field in seven <==> field in ten;
  }

  /** After the last test the map holds every failure. */
  lemma AllTestsRun(form: ShippingData, payment: PaymentMethod, blik: string, card: CardData)
    ensures ErrorsUpTo(Failures(form, payment, blik, card), 10) == Errors(form, payment, blik, card)
  {
    var ten := ErrorsUpTo(Failures(form, payment, blik, card), 10);
    var spec := Errors(form, payment, blik, card);
    assert forall field :: field in ten <==> field in spec;
  }

  /** The six delivery-field tests of `validate`, starting from an empty map. */
  method ShippingTests(form: ShippingData, ghost payment: PaymentMethod, ghost blik: string, ghost card: CardData)
    returns (errors: map<Field, string>)
    ensures errors == ErrorsUpTo(Failures(form, payment, blik, card), 6)
  {
    ghost var failing := Failures(form, payment, blik, card);
    errors := map[];
    assert errors == ErrorsUpTo(failing, 0);
    errors := RecordTest(errors, FirstName, !NamePattern(form.firstName), 0, failing);
    errors := RecordTest(errors, LastName, !NamePattern(form.lastName), 1, failing);
    errors := RecordTest(errors, Address, |form.address| < 5, 2, failing);
    errors := RecordTest(errors, Zip, !ZipPattern(form.zip), 3, failing);
    errors := RecordTest(errors, City, |form.city| < 3, 4, failing);
    errors := RecordTest(errors, Phone, !PhoneCheck(form.phone), 5, failing);
  }

  /** The three card tests of `validate`, run under card payment. */
  method CardTests(errors: map<Field, string>, card: CardData,
                   ghost form: ShippingData, ghost payment: PaymentMethod, ghost blik: string)
    returns (r: map<Field, string>)
    requires payment == Card
    requires errors == ErrorsUpTo(Failures(form, payment, blik, card), 7)
    ensures r == ErrorsUpTo(Failures(form, payment, blik, card), 10)
  {
    ghost var failing := Failures(form, payment, blik, card);
    r := RecordTest(errors, CardNumber, !CardPattern(card.number), 7, failing);
    r := RecordTest(r, Expiry, !ExpiryPattern(card.expiry), 8, failing);
    r := RecordTest(r, Cvc, !CvcPattern(card.cvc), 9, failing);
  }

  /** `validate`: `newErrors` is filled test by test, with no early exit
      (the card tests only under card payment), and the result says whether
      it stayed empty. */
  method Validate(form: ShippingData, payment: PaymentMethod, blik: string, card: CardData)
    returns (errors: map<Field, string>, ok: bool)
    ensures errors == Errors(form, payment, blik, card)
    ensures ok <==> FormValid(form, payment, blik, card)
  {
    ghost var failing := Failures(form, payment, blik, card);
    errors := ShippingTests(form, payment, blik, card);
    errors := RecordTest(errors, BlikCode, payment == Blik && |blik| != 6, 6, failing);
    if payment == Card {
      errors := CardTests(errors, card, form, payment, blik);
    } else {
      CardTestsSkipped(form, payment, blik, card);
    }
    AllTestsRun(form, payment, blik, card);
    ok := |errors| == 0;
    NoErrorsIffValid(form, payment, blik, card);
  }

  /** Every field rule holds. */
  predicate FormValid(form: ShippingData, payment: PaymentMethod, blik: string, card: CardData) {
    && NamePattern(form.firstName) && NamePattern(form.lastName)
    && |form.address| >= 5 && ZipPattern(form.zip) && |form.city| >= 3
    && PhoneCheck(form.phone)
    && (payment == Blik ==> |blik| == 6)
    && (payment == Card ==> CardPattern(card.number) && ExpiryPattern(card.expiry) && CvcPattern(card.cvc))
  }

  /** The error map is empty exactly when every rule holds. */
  lemma NoErrorsIffValid(form: ShippingData, payment: PaymentMethod, blik: string, card: CardData)
    ensures |Errors(form, payment, blik, card)| == 0 <==> FormValid(form, payment, blik, card)
  {
    var errors := Errors(form, payment, blik, card);
    if !FormValid(form, payment, blik, card) {
      var field :| Fails(field, form, payment, blik, card);
      assert field in errors;
    }
  }

  /** Without card or BLIK payment, the payment fields play no part. */
  lemma CashIgnoresPaymentFields(form: ShippingData, blik: string, card: CardData, blik': string, card': CardData)
    ensures Errors(form, Cash, blik, card) == Errors(form, Cash, blik', card')
  {
  }

  /** A two-letter first name is reported, whatever else is filled in. */
  lemma ShortFirstNameReported(form: ShippingData, payment: PaymentMethod, blik: string, card: CardData)
    requires form.firstName == "Al"
    ensures FirstName in Errors(form, payment, blik, card)
    ensures !FormValid(form, payment, blik, card)
  {
  }

  // ---------------------------------------------------------------------
  // Masks against patterns
  // ---------------------------------------------------------------------

  /** A masked postal code passes exactly when five digits were typed. */
  lemma ZipMaskValidates(value: string)
    ensures ZipPattern(FormatZip(value)) <==> |Digits(value)| >= 5
  {
    var d := Digits(value);
    var r := FormatZip(value);
    if |d| >= 5 {
      assert r == d[..2] + "-" + d[2..5];
    }
  }

  /** The prefix "+48 " contributes the digits 4 and 8. */
  lemma PrefixDigits(rest: string)
    ensures Digits(PhonePrefix + rest) == "48" + Digits(rest)
  {
    DigitsAppend(PhonePrefix, rest);
    CountryCodeDigits(PhonePrefix);
  }

  /** On a masked phone number, the digit count in use and the declared
      pattern agree: both hold exactly when nine digits follow the prefix. */
  lemma PhoneMaskValidates(value: string)
    requires StartsWith(value, PhonePrefix)
    ensures PhoneCheck(FormatPhone(value)) <==> |PhoneDigits(value)| >= 9
    ensures StrictPhonePattern(FormatPhone(value)) <==> |PhoneDigits(value)| >= 9
  {
    var r := FormatPhone(value);
    var t := Take(PhoneDigits(value), 9);
    FormatPhoneDigits(value);
    FormatPhoneGroups(value);
    assert r == PhonePrefix + r[4..];
    PrefixDigits(r[4..]);
    GroupedLength(t, 3);
    ChunksCount(t, 3);
    if |t| == 9 {
      GroupedUnfold(t, 3);
      GroupedUnfold(t[3..], 3);
      GroupedUnfold(t[3..][3..], 3);
      assert t[3..][3..] == t[6..];
      assert t[3..][..3] == t[3..6];
      assert r == PhonePrefix + t[..3] + " " + t[3..6] + " " + t[6..];
      assert r[4..7] == t[..3] && r[8..11] == t[3..6] && r[12..] == t[6..];
    }
  }

  /** Every number the declared pattern accepts passes the digit count. */
  lemma StrictPhonePassesCheck(s: string)
    requires StrictPhonePattern(s)
    ensures PhoneCheck(s)
  {
    var head, g1, g2, g3 := s[..7], s[4..7], s[8..11], s[12..];
    var front, back := head + [s[7]], g2 + [s[11]] + g3;
    assert s == front + back;
    DigitsAppend(front, back);
    DigitsAround(g2, s[11], g3);
    assert |Digits(front)| == 5 by {
      DigitsAppend(head, [s[7]]);
      DigitsOfNonDigits([s[7]]);
      assert head == s[..4] + g1;
      DigitsAppend(s[..4], g1);
      DigitsOfDigits(g1);
      CountryCodeDigits(s[..4]);
    }
  }

  /** "+48" and a blank hold the digits 4 and 8. */
  lemma CountryCodeDigits(p: string)
    requires |p| == 4 && p[..3] == "+48" && !IsDigit(p[3])
    ensures Digits(p) == "48"
  {
    assert p == ['+'] + "48" + [p[3]];
    DigitsAppend(['+'] + "48", [p[3]]);
    DigitsAppend(['+'], "48");
    DigitsOfNonDigits([p[3]]);
    DigitsOfNonDigits(['+']);
    DigitsOfDigits("48");
  }

  /** With its prefix deleted the phone is no longer masked, and the digit
      count accepts text the declared pattern refuses. */
  lemma UnprefixedPhonePasses()
    ensures var s := "48123456789";
      FormatPhone(s) == s && PhoneCheck(s) && !StrictPhonePattern(s)
  {
    var s := "48123456789";
    assert !StartsWith(s, PhonePrefix) by { assert s[0] != PhonePrefix[0]; }
    DigitsOfDigits(s);
  }

  /** A masked card number (four digits or more) passes exactly when sixteen
      digits were typed. */
  lemma CardMaskValidates(value: string)
    requires |Digits(value)| >= 4
    ensures CardPattern(CardMask(value)) <==> |Digits(value)| >= 16
  {
    CardMaskCases(value);
    CardMaskFull(value);
  }

  /** The card test counts characters, not digits: nineteen blanks, which the
      mask leaves as typed because they hold no digit, pass it. */
  lemma BlankCardNumberPasses()
    ensures var s := seq(19, _ => ' ');
      Digits(s) == [] && CardMask(s) == s && CardPattern(s)
  {
    var s := seq(19, _ => ' ');
    DigitsOfNonDigits(s);
  }

  /** A masked expiry date passes exactly when four digits were typed and the
      first two make a month. */
  lemma ExpiryMaskValidates(value: string)
    ensures var d := Digits(value);
      ExpiryPattern(FormatExpiry(value)) <==> |d| >= 4 && MonthPattern(d[0], d[1])
  {
    var d := Digits(value);
    var r := FormatExpiry(value);
    if |d| >= 2 {
      assert r == d[..2] + "/" + Slice(d, 2, 4);
    }
  }

  /** The masked CVC passes exactly when three digits were typed. */
  lemma CvcMaskValidates(value: string)
    ensures CvcPattern(CvcMask(value)) <==> |Digits(value)| >= 3
  {
  }
}
