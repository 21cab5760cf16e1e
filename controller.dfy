/**
 * The form controller: which of the two screens is up, and which error
 * messages are on show. The form starts in the entry screen; a successful
 * submission replaces it with the thank-you screen for good.
 */
module Controller {
  import opened Wrappers
  import opened Validation

  datatype Screen = PaymentForm | ThankYou

  /**
   * The message shown under field `f`: the validator's message, when the
   * field has a non-empty one and the user has already left the field once.
   */
  function ShownError(errors: Errors, touched: set<Field>, f: Field): Option<string> {
    if f in errors && errors[f] != [] && f in touched then Some(errors[f]) else None
  }

  /** A message appears under a field exactly when the field is touched and breaks its rules. */
  lemma ShownErrorMeaning(values: FormValues, touched: set<Field>, f: Field)
    ensures ShownError(Validate(values), touched, f).Some?
        <==> f in touched && !FieldValid(f, values.Get(f))
    ensures ShownError(Validate(values), touched, f).Some?
        ==> ShownError(Validate(values), touched, f).value in Messages(f)
  {
  }

  /** A valid form shows no message, whatever has been touched. */
  lemma NothingShownWhenValid(values: FormValues, touched: set<Field>)
    requires AllValid(values)
    ensures forall f :: ShownError(Validate(values), touched, f) == None
  {
  }

  /** The form component's own state: whether the card has been submitted. */
  class CardForm {
    var isSubmitted: bool

    constructor ()
      ensures !isSubmitted
    {
      isSubmitted := false;
    }

    function CurrentScreen(): (screen: Screen)
      reads this
      ensures screen == ThankYou <==> isSubmitted
    {
      if isSubmitted then ThankYou else PaymentForm
    }

    /**
     * The submit handler. The form library calls it only with values the
     * validator passes; it records the submission, and nothing ever clears it.
     */
    method OnSubmit(values: FormValues)
      requires Validate(values) == map[]
      modifies this
      ensures isSubmitted
      ensures CurrentScreen() == ThankYou
    {
      isSubmitted := true;
    }
  }

  /** A fresh form shows the entry screen; submitting the sample card moves it to the thank-you screen. */
  method SubmitSampleCard() returns (before: Screen, after: Screen)
    ensures before == PaymentForm && after == ThankYou
  {
    var form := new CardForm();
    before := form.CurrentScreen();
    var sample := FormValues("Jane Appleseed", "1234123412341234", "09", "25", "123");
    assert AllValid(sample) by {
      assert NumberValid(sample.cardNumber);
      assert MonthValid(sample.expirationMonth);
      assert YearValid(sample.expirationYear);
      assert CvvValid(sample.cvv);
      forall f ensures FieldValid(f, sample.Get(f)) {
        match f
        case CardholderName =>
        case CardNumber =>
        case ExpirationMonth =>
        case ExpirationYear =>
        case Cvv =>
      }
    }
    ValidateEmptyIff(sample);
    form.OnSubmit(sample);
    after := form.CurrentScreen();
  }
}
