/**
 * The card preview: each field of the card picture shows the value typed so
 * far, or a fixed placeholder while the field is empty. Nothing is validated
 * here.
 */
module Preview {
  import opened Validation

  const NumberPlaceholder := "0000 0000 0000 0000"
  const NamePlaceholder := "JANE APPLESEED"
  const MonthPlaceholder := "00"
  const YearPlaceholder := "00"
  const CvvPlaceholder := "000"

  function Placeholder(f: Field): string {
    match f
    case CardholderName => NamePlaceholder
    case CardNumber => NumberPlaceholder
    case ExpirationMonth => MonthPlaceholder
    case ExpirationYear => YearPlaceholder
    case Cvv => CvvPlaceholder
  }

  /** JavaScript's `value || fallback` on strings: only the empty string is falsy. */
  function OrElse(value: string, fallback: string): string {
    if value == [] then fallback else value
  }

  /** What the card picture shows, one text per field. */
  datatype CardPreview = CardPreview(number: string, name: string, month: string, year: string, cvv: string)
  {
    function Get(f: Field): string {
      match f
      case CardholderName => name
      case CardNumber => number
      case ExpirationMonth => month
      case ExpirationYear => year
      case Cvv => cvv
    }

    /** The expiry line on the card front, month and year around a slash. */
    function ExpiryLine(): string {
      month + "/" + year
    }
  }

  function Render(values: FormValues): (card: CardPreview)
    ensures forall f :: card.Get(f) != []
    ensures forall f :: values.Get(f) != [] ==> card.Get(f) == values.Get(f)
    ensures forall f :: values.Get(f) == [] ==> card.Get(f) == Placeholder(f)
  {
    CardPreview(
      OrElse(values.cardNumber, NumberPlaceholder),
      OrElse(values.cardholderName, NamePlaceholder),
      OrElse(values.expirationMonth, MonthPlaceholder),
      OrElse(values.expirationYear, YearPlaceholder),
      OrElse(values.cvv, CvvPlaceholder))
  }

  /**
   * The expiry line on the card front shows the month text, a slash and the
   * year text, each field falling back to "00" on its own.
   */
  lemma ExpiryLineShows(values: FormValues)
    ensures Render(values).ExpiryLine()
        == OrElse(values.expirationMonth, MonthPlaceholder) + "/" + OrElse(values.expirationYear, YearPlaceholder)
    ensures Render(values).ExpiryLine()[|Render(values).month|] == '/'
  {
  }

  /** The preview shows typed text as it is, valid or not: "13" shows as month "13". */
  lemma PreviewShowsInvalidInput(values: FormValues, f: Field)
    requires values.Get(f) != [] && !FieldValid(f, values.Get(f))
    ensures Render(values).Get(f) == values.Get(f)
    ensures f in Validate(values)
  {
  }

  /** A completely filled-in form can be read back from its preview. */
  lemma {:induction false} PreviewDeterminesFilledForm(v: FormValues, w: FormValues)
    requires forall f :: v.Get(f) != [] && w.Get(f) != []
    requires Render(v) == Render(w)
    ensures v == w
  {
    forall f ensures v.Get(f) == w.Get(f) {
      assert Render(v).Get(f) == Render(w).Get(f);
    }
    assert v.cardholderName == w.cardholderName by { assert v.Get(CardholderName) == w.Get(CardholderName); }
    assert v.cardNumber == w.cardNumber by { assert v.Get(CardNumber) == w.Get(CardNumber); }
    assert v.expirationMonth == w.expirationMonth by { assert v.Get(ExpirationMonth) == w.Get(ExpirationMonth); }
    assert v.expirationYear == w.expirationYear by { assert v.Get(ExpirationYear) == w.Get(ExpirationYear); }
    assert v.cvv == w.cvv by { assert v.Get(Cvv) == w.Get(Cvv); }
  }

  /**
   * An empty form and one filled in with the placeholder texts look the same
   * on the card, though the empty one fails every rule.
   */
  lemma PlaceholderLookalike()
    ensures Render(InitialValues) == Render(FormValues(NamePlaceholder, NumberPlaceholder, MonthPlaceholder, YearPlaceholder, CvvPlaceholder))
    ensures forall f :: !FieldValid(f, InitialValues.Get(f))
  {
  }

  /**
   * The placeholders are not all valid values: the card-number one has spaces
   * and the month one is "00", while the name, year and CVV ones would pass.
   */
  lemma PlaceholdersAgainstRules()
    ensures !NumberValid(NumberPlaceholder) && !MonthValid(MonthPlaceholder)
    ensures NameValid(NamePlaceholder) && YearValid(YearPlaceholder) && CvvValid(CvvPlaceholder)
  {
  }
}
