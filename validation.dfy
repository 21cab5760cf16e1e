/**
 * The card-entry form's field validator: five string fields, each checked by
 * an ordered chain of rules whose first failure supplies the field's message,
 * collected into a map from field to message that holds only invalid fields.
 */
module Validation {
  import opened Wrappers
  import opened Patterns

  datatype Field = CardholderName | CardNumber | ExpirationMonth | ExpirationYear | Cvv

  const AllFields: set<Field> := {CardholderName, CardNumber, ExpirationMonth, ExpirationYear, Cvv}

  /** The values the form holds, one string per input. */
  datatype FormValues = FormValues(
    cardholderName: string,
    cardNumber: string,
    expirationMonth: string,
    expirationYear: string,
    cvv: string)
  {
    function Get(f: Field): string {
      match f
      case CardholderName => cardholderName
      case CardNumber => cardNumber
      case ExpirationMonth => expirationMonth
      case ExpirationYear => expirationYear
      case Cvv => cvv
    }
  }

  /** Every input starts out empty. */
  const InitialValues := FormValues("", "", "", "", "")

  /** At most one message per field; a field without an error has no key. */
  type Errors = map<Field, string>

  // The messages, as the form shows them.
  const NameRequired := "Cardholder Name is required"
  const NumberRequired := "Card Number is required"
  const NumberNotDigits := "Card Number must contain only digits"
  const NumberWrongLength := "Card Number must be 16 digits"
  const MonthRequired := "Expiration Month is required"
  const MonthOutOfRange := "Expiration Month must be between 01 and 12"
  const YearRequired := "Expiration Year is required"
  const YearNotTwoDigits := "Expiration Year must be in YY format"
  const CvvRequired := "CVV is required"
  const CvvWrongLength := "CVV must be 3 or 4 digits"

  // The patterns the validator tests with.
  /** `^\d+$` */
  const DigitsPattern := Repeat(Digit, 1, None)
  /** `^(0[1-9]|1[0-2])$` */
  const MonthPattern := Alt(Concat(Char('0'), Range('1', '9')), Concat(Char('1'), Range('0', '2')))
  /** `^\d{2}$` */
  const TwoDigitsPattern := Repeat(Digit, 2, Some(2))
  /** `^\d{3,4}$` */
  const CvvPattern := Repeat(Digit, 3, Some(4))

  // What each field must be to pass, stated without the patterns.

  predicate NameValid(s: string) {
    |s| > 0
  }

  predicate NumberValid(s: string) {
    |s| == 16 && AllDigits(s)
  }

  /** Two digits whose decimal value lies between 1 and 12. */
  predicate MonthValid(s: string) {
    |s| == 2 && AllDigits(s) && 1 <= DecimalValue(s) <= 12
  }

  /** Any two digits; there is no range check on the year. */
  predicate YearValid(s: string) {
    |s| == 2 && AllDigits(s)
  }

  predicate CvvValid(s: string) {
    3 <= |s| <= 4 && AllDigits(s)
  }

  predicate FieldValid(f: Field, s: string) {
    match f
    case CardholderName => NameValid(s)
    case CardNumber => NumberValid(s)
    case ExpirationMonth => MonthValid(s)
    case ExpirationYear => YearValid(s)
    case Cvv => CvvValid(s)
  }

  predicate AllValid(values: FormValues) {
    forall f :: FieldValid(f, values.Get(f))
  }

  /** The messages a field can be given, in the order its rules are tried. */
  function Messages(f: Field): seq<string> {
    match f
    case CardholderName => [NameRequired]
    case CardNumber => [NumberRequired, NumberNotDigits, NumberWrongLength]
    case ExpirationMonth => [MonthRequired, MonthOutOfRange]
    case ExpirationYear => [YearRequired, YearNotTwoDigits]
    case Cvv => [CvvRequired, CvvWrongLength]
  }

  // The pattern languages.

  /** `^(0[1-9]|1[0-2])$` accepts exactly "01" to "09", "10", "11" and "12". */
  lemma MonthPatternLanguage(s: string)
    ensures FullMatch(MonthPattern, s) <==> MonthValid(s)
  {
    ConcatOfSingles(Char('0'), Range('1', '9'), s);
    ConcatOfSingles(Char('1'), Range('0', '2'), s);
    if |s| == 2 && AllDigits(s) {
      assert s[..1] == [s[0]];
      assert DecimalValue(s[..1]) == s[0] as int - '0' as int by {
        assert s[..1][..0] == [];
      }
      assert s[..|s| - 1] == s[..1];
    }
  }

  // The rule chains, one per field; the first failing rule supplies the message.

  function NameError(s: string): Option<string> {
    if s == [] then Some(NameRequired) else None
  }

  function NumberError(s: string): Option<string> {
    if s == [] then Some(NumberRequired)
    else if !FullMatch(DigitsPattern, s) then Some(NumberNotDigits)
    else if |s| != 16 then Some(NumberWrongLength)
    else None
  }

  function MonthError(s: string): Option<string> {
    if s == [] then Some(MonthRequired)
    else if !FullMatch(MonthPattern, s) then Some(MonthOutOfRange)
    else None
  }

  function YearError(s: string): Option<string> {
    if s == [] then Some(YearRequired)
    else if !FullMatch(TwoDigitsPattern, s) then Some(YearNotTwoDigits)
    else None
  }

  function CvvError(s: string): Option<string> {
    if s == [] then Some(CvvRequired)
    else if !FullMatch(CvvPattern, s) then Some(CvvWrongLength)
    else None
  }

  function FieldError(f: Field, s: string): Option<string> {
    match f
    case CardholderName => NameError(s)
    case CardNumber => NumberError(s)
    case ExpirationMonth => MonthError(s)
    case ExpirationYear => YearError(s)
    case Cvv => CvvError(s)
  }

  // What each chain decides, in terms of the field rules.

  /** Any non-empty name is accepted; the empty one is "required". */
  lemma NameRules(s: string)
    ensures NameError(s) == None <==> NameValid(s)
    ensures NameError(s) != None ==> NameError(s) == Some(NameRequired)
  {
  }

  /**
   * Empty gives "required"; otherwise any non-digit gives "only digits";
   * otherwise a length other than 16 gives "16 digits"; sixteen ASCII digits pass.
   */
  lemma NumberRules(s: string)
    ensures NumberError(s) == None <==> NumberValid(s)
    ensures s == [] ==> NumberError(s) == Some(NumberRequired)
    ensures s != [] && !AllDigits(s) ==> NumberError(s) == Some(NumberNotDigits)
    ensures s != [] && AllDigits(s) && |s| != 16 ==> NumberError(s) == Some(NumberWrongLength)
  {
    DigitRepeatLanguage(1, None, s);
  }

  /** Empty gives "required"; any value other than "01" to "12" gives the range message. */
  lemma MonthRules(s: string)
    ensures MonthError(s) == None <==> MonthValid(s)
    ensures s == [] ==> MonthError(s) == Some(MonthRequired)
    ensures s != [] && !MonthValid(s) ==> MonthError(s) == Some(MonthOutOfRange)
  {
    MonthPatternLanguage(s);
  }

  /** Empty gives "required"; anything but two ASCII digits gives "YY format". */
  lemma YearRules(s: string)
    ensures YearError(s) == None <==> YearValid(s)
    ensures s == [] ==> YearError(s) == Some(YearRequired)
    ensures s != [] && !YearValid(s) ==> YearError(s) == Some(YearNotTwoDigits)
  {
    DigitRepeatLanguage(2, Some(2), s);
  }

  /** Empty gives "required"; anything but three or four ASCII digits gives "3 or 4 digits". */
  lemma CvvRules(s: string)
    ensures CvvError(s) == None <==> CvvValid(s)
    ensures s == [] ==> CvvError(s) == Some(CvvRequired)
    ensures s != [] && !CvvValid(s) ==> CvvError(s) == Some(CvvWrongLength)
  {
    DigitRepeatLanguage(3, Some(4), s);
  }

  /** Every field's chain fails exactly when its rule does, with one of the field's own messages. */
  lemma FieldRules(values: FormValues)
    ensures forall f :: FieldError(f, values.Get(f)) == None <==> FieldValid(f, values.Get(f))
    ensures forall f :: FieldError(f, values.Get(f)) != None ==> FieldError(f, values.Get(f)).value in Messages(f)
  {
    NameRules(values.cardholderName);
    NumberRules(values.cardNumber);
    MonthRules(values.expirationMonth);
    YearRules(values.expirationYear);
    CvvRules(values.cvv);
    forall f ensures FieldError(f, values.Get(f)) == None <==> FieldValid(f, values.Get(f)) {
      match f
      case CardholderName =>
      case CardNumber =>
      case ExpirationMonth =>
      case ExpirationYear =>
      case Cvv =>
    }
  }

  /**
   * The error map for the whole form: each field's chain is run on that
   * field's value alone, and only the fields that fail get a key.
   */
  function Validate(values: FormValues): (errors: Errors)
    ensures forall f :: f in errors <==> !FieldValid(f, values.Get(f))
    ensures forall f :: f in errors ==> errors[f] in Messages(f)
  {
    FieldRules(values);
    map f | f in AllFields && FieldError(f, values.Get(f)).Some? :: FieldError(f, values.Get(f)).value
  }

  /** Adds `f`'s message to `errors` when it has one. */
  function Record(errors: Errors, f: Field, e: Option<string>): Errors {
    if e.Some? then errors[f := e.value] else errors
  }

  /** The error map is what assigning each field's message in source order builds. */
  lemma ValidateInOrder(values: FormValues)
    ensures Validate(values) ==
      Record(Record(Record(Record(Record(map[],
        CardholderName, NameError(values.cardholderName)),
        CardNumber, NumberError(values.cardNumber)),
        ExpirationMonth, MonthError(values.expirationMonth)),
        ExpirationYear, YearError(values.expirationYear)),
        Cvv, CvvError(values.cvv))
  {
    var built :=
      Record(Record(Record(Record(Record(map[],
        CardholderName, NameError(values.cardholderName)),
        CardNumber, NumberError(values.cardNumber)),
        ExpirationMonth, MonthError(values.expirationMonth)),
        ExpirationYear, YearError(values.expirationYear)),
        Cvv, CvvError(values.cvv));
    forall f ensures (f in built <==> f in Validate(values)) && (f in built ==> built[f] == Validate(values)[f]) {
      match f
      case CardholderName =>
      case CardNumber =>
      case ExpirationMonth =>
      case ExpirationYear =>
      case Cvv =>
    }
  }

  /**
   * The validator as the form runs it: start from an empty error object and
   * assign each failing field's message in turn.
   */
  method ValidateForm(values: FormValues) returns (errors: Errors)
    ensures errors == Validate(values)
    ensures errors == map[] <==> AllValid(values)
  {
    errors := map[];

    ghost var e0 := errors;
    if values.cardholderName == [] {
      errors := errors[CardholderName := NameRequired];
    }
    assert errors == Record(e0, CardholderName, NameError(values.cardholderName));

    ghost var e1 := errors;
    if values.cardNumber == [] {
      errors := errors[CardNumber := NumberRequired];
    } else if !FullMatch(DigitsPattern, values.cardNumber) {
      errors := errors[CardNumber := NumberNotDigits];
    } else if |values.cardNumber| != 16 {
      errors := errors[CardNumber := NumberWrongLength];
    }
    assert errors == Record(e1, CardNumber, NumberError(values.cardNumber));

    ghost var e2 := errors;
    if values.expirationMonth == [] {
      errors := errors[ExpirationMonth := MonthRequired];
    } else if !FullMatch(MonthPattern, values.expirationMonth) {
      errors := errors[ExpirationMonth := MonthOutOfRange];
    }
    assert errors == Record(e2, ExpirationMonth, MonthError(values.expirationMonth));

    ghost var e3 := errors;
    if values.expirationYear == [] {
      errors := errors[ExpirationYear := YearRequired];
    } else if !FullMatch(TwoDigitsPattern, values.expirationYear) {
      errors := errors[ExpirationYear := YearNotTwoDigits];
    }
    assert errors == Record(e3, ExpirationYear, YearError(values.expirationYear));

    ghost var e4 := errors;
    if values.cvv == [] {
      errors := errors[Cvv := CvvRequired];
    } else if !FullMatch(CvvPattern, values.cvv) {
      errors := errors[Cvv := CvvWrongLength];
    }
    assert errors == Record(e4, Cvv, CvvError(values.cvv));

    ValidateInOrder(values);
    ValidateEmptyIff(values);
  }

  /** The form has no errors exactly when every field passes its rules. */
  lemma ValidateEmptyIff(values: FormValues)
    ensures Validate(values) == map[] <==> AllValid(values)
  {
  }

  /** A field's entry in the error map depends on that field's value only. */
  lemma FieldsIndependent(v: FormValues, w: FormValues, f: Field)
    requires v.Get(f) == w.Get(f)
    ensures f in Validate(v) <==> f in Validate(w)
    ensures f in Validate(v) ==> Validate(v)[f] == Validate(w)[f]
  {
  }

  // Worked cases: where each chain stops for a few concrete inputs.

  lemma NumberExampleTooShort()
    ensures NumberError("123") == Some(NumberWrongLength)
  {
    NumberRules("123");
  }

  lemma NumberExampleLetters(s: string)
    requires s == "12345678901234AB"
    ensures NumberError(s) == Some(NumberNotDigits)
  {
    NumberRules(s);
    assert !IsAsciiDigit(s[14]);
  }

  /** Spaces, as in the form's own hint "1234 5678 9123 0000", are not digits. */
  lemma NumberExampleSpaces(s: string)
    requires s == "1234 5678 9123 0000"
    ensures NumberError(s) == Some(NumberNotDigits)
  {
    NumberRules(s);
    assert !IsAsciiDigit(s[4]);
  }

  lemma NumberExampleAccepted(s: string)
    requires s == "1234567890123456"
    ensures NumberError(s) == None
  {
    NumberRules(s);
  }

  lemma MonthExamples()
    ensures MonthError("00") == Some(MonthOutOfRange)
    ensures MonthError("13") == Some(MonthOutOfRange)
    ensures MonthError("1") == Some(MonthOutOfRange)
    ensures MonthError("01") == None && MonthError("12") == None
  {
    MonthRules("00");
    MonthRules("13");
    MonthRules("1");
    MonthRules("01");
    MonthRules("12");
  }

  lemma YearAndCvvExamples()
    ensures YearError("00") == None && YearError("2025") == Some(YearNotTwoDigits)
    ensures CvvError("12") == Some(CvvWrongLength) && CvvError("12345") == Some(CvvWrongLength)
    ensures CvvError("123") == None && CvvError("1234") == None
  {
    YearRules("00");
    YearRules("2025");
    CvvRules("12");
    CvvRules("12345");
    CvvRules("123");
    CvvRules("1234");
  }
}
