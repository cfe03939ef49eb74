/** The trip form: its field values, the currency picker, the clamped number inputs, the
    validator that fills one error per offending field, and the submit handler that passes
    the details on only when the form is valid. */
module TravelForm {
  import opened Wrappers
  import opened JsString
  import opened GeminiService

  datatype Currency = Currency(code: string, symbol: string, name: string)

  /** The picker's table, in display order. */
  const Currencies: seq<Currency> := [
    Currency("INR", "\U{20B9}", "Indian Rupee"),
    Currency("USD", "$", "US Dollar"),
    Currency("EUR", "\U{20AC}", "Euro")
  ]

  /** `cs.find(c => c.code === code)`, as the index of the first entry with that code. */
  function FindCode(cs: seq<Currency>, code: string): (r: Option<nat>)
    ensures r.None? <==> forall j | 0 <= j < |cs| :: cs[j].code != code
    ensures r.Some? ==> r.value < |cs| && cs[r.value].code == code
    ensures r.Some? ==> forall j | 0 <= j < r.value :: cs[j].code != code
  {
    if cs == [] then None
    else if cs[0].code == code then Some(0)
    else match FindCode(cs[1..], code)
      case None => None
      case Some(i) => Some(i + 1)
  }

  /** `currencies.find(c => c.code === code) || currencies[0]`: the listed currency with
      that code, or the first entry (INR) for any code not listed. */
  function SelectCurrency(code: string): (c: Currency)
    ensures c in Currencies
    ensures (exists j | 0 <= j < |Currencies| :: Currencies[j].code == code) ==> c.code == code
    ensures (forall j | 0 <= j < |Currencies| :: Currencies[j].code != code) ==> c == Currencies[0]
  {
    match FindCode(Currencies, code)
    case Some(i) => Currencies[i]
    case None => Currencies[0]
  }

  /** Choosing a listed code selects exactly that table entry; anything else selects INR. */
  lemma SelectListedOrInr(code: string)
    ensures code == "INR" ==> SelectCurrency(code) == Currencies[0]
    ensures code == "USD" ==> SelectCurrency(code) == Currencies[1]
    ensures code == "EUR" ==> SelectCurrency(code) == Currencies[2]
    ensures code !in {"INR", "USD", "EUR"} ==> SelectCurrency(code).code == "INR"
  {
  }

  /** `Math.max(0, value)`: the budget and traveller inputs never hold a negative number,
      and a non-negative entry is kept as typed. */
  function ClampNonNegative(value: int): (r: nat)
    ensures r >= value
    ensures value >= 0 ==> r == value
    ensures value < 0 ==> r == 0
  {
    if value < 0 then 0 else value
  }

  /** The form fields that can carry an error message. */
  datatype Field = Source | Destination | StartDate | EndDate | Budget | Travelers

  const SourceRequired := "Starting location is required"
  const DestinationRequired := "Destination is required"
  const StartDateRequired := "Start date is required"
  const EndDateRequired := "End date is required"
  const StartDateInPast := "Start date cannot be in the past"
  const EndBeforeStartDate := "End date must be after start date"
  const BudgetNotPositive := "Budget must be greater than 0"
  const TravelersNotPositive := "Number of travelers must be greater than 0"

  /** A snapshot of the form's state; a date is absent when the picker was cleared. */
  datatype FormValues = FormValues(
    source: string,
    destination: string,
    startDate: Option<int>,
    endDate: Option<int>,
    budget: int,
    travelers: int,
    interests: seq<string>,
    currency: Currency)

  /** The error each field is to show, field by field. A date that is present is checked
      against `now` and against the other date only when the other date is present too;
      `isBefore` is strict, so equal instants pass. */
  function FieldError(v: FormValues, now: int, f: Field): (r: Option<string>)
    ensures ValidForm(v, now) ==> r.None?
  {
    match f
    case Source => if IsBlank(v.source) then Some(SourceRequired) else None
    case Destination => if IsBlank(v.destination) then Some(DestinationRequired) else None
    case StartDate =>
      if v.startDate.None? then Some(StartDateRequired)
      else if v.endDate.Some? && v.startDate.value < now then Some(StartDateInPast)
      else None
    case EndDate =>
      if v.endDate.None? then Some(EndDateRequired)
      else if v.startDate.Some? && v.endDate.value < v.startDate.value then Some(EndBeforeStartDate)
      else None
    case Budget => if v.budget <= 0 then Some(BudgetNotPositive) else None
    case Travelers => if v.travelers <= 0 then Some(TravelersNotPositive) else None
  }

  /** What a valid form is: both places non-blank, both dates present, the start not
      before `now`, the end not before the start, and a positive budget and head-count. */
  ghost predicate ValidForm(v: FormValues, now: int) {
    && !IsBlank(v.source)
    && !IsBlank(v.destination)
    && v.startDate.Some? && v.endDate.Some?
    && now <= v.startDate.value <= v.endDate.value
    && v.budget > 0
    && v.travelers > 0
  }

  /** Field `f` carries in `m` exactly the error `FieldError` names. */
  ghost predicate AgreesOn(m: map<Field, string>, v: FormValues, now: int, f: Field) {
    (f in m <==> FieldError(v, now, f).Some?)
    && (f in m ==> m[f] == FieldError(v, now, f).value)
  }

  /** The body of `validateForm` up to `setErrors`: fills the error dictionary one check
      at a time. Every field gets exactly the error `FieldError` names, and no other key. */
  method CollectErrors(v: FormValues, now: int) returns (newErrors: map<Field, string>)
    ensures forall f :: f in newErrors <==> FieldError(v, now, f).Some?
    ensures forall f | f in newErrors :: newErrors[f] == FieldError(v, now, f).value
  {
    newErrors := map[];
    if IsBlank(v.source) { newErrors := newErrors[Source := SourceRequired]; }
    if IsBlank(v.destination) { newErrors := newErrors[Destination := DestinationRequired]; }
    if v.startDate.None? { newErrors := newErrors[StartDate := StartDateRequired]; }
    if v.endDate.None? { newErrors := newErrors[EndDate := EndDateRequired]; }
    if v.startDate.Some? && v.endDate.Some? {
      if v.startDate.value < now {
        newErrors := newErrors[StartDate := StartDateInPast];
      }
      if v.endDate.value < v.startDate.value {
        newErrors := newErrors[EndDate := EndBeforeStartDate];
      }
    }
    if v.budget <= 0 { newErrors := newErrors[Budget := BudgetNotPositive]; }
    if v.travelers <= 0 { newErrors := newErrors[Travelers := TravelersNotPositive]; }
    AgreesEverywhere(newErrors, v, now);
  }

  /** Agreement on each of the six fields is agreement everywhere. */
  lemma AgreesEverywhere(m: map<Field, string>, v: FormValues, now: int)
    requires AgreesOn(m, v, now, Source) && AgreesOn(m, v, now, Destination)
    requires AgreesOn(m, v, now, StartDate) && AgreesOn(m, v, now, EndDate)
    requires AgreesOn(m, v, now, Budget) && AgreesOn(m, v, now, Travelers)
    ensures forall f :: f in m <==> FieldError(v, now, f).Some?
    ensures forall f | f in m :: m[f] == FieldError(v, now, f).value
  {
  }

  /** No field has an error exactly when the form is valid. */
  lemma NoErrorsIffValid(v: FormValues, now: int)
    ensures (forall f :: FieldError(v, now, f).None?) <==> ValidForm(v, now)
  {
    var clean :=
      && FieldError(v, now, Source).None? && FieldError(v, now, Destination).None?
      && FieldError(v, now, StartDate).None? && FieldError(v, now, EndDate).None?
      && FieldError(v, now, Budget).None? && FieldError(v, now, Travelers).None?;
    assert clean <==> ValidForm(v, now);
    if clean {
      forall f ensures FieldError(v, now, f).None? {
        match f
        case Source =>
        case Destination =>
        case StartDate =>
        case EndDate =>
        case Budget =>
        case Travelers =>
      }
    }
  }

  /** A place gets its "required" error exactly when it is empty or all whitespace. */
  lemma PlaceRequiredIffBlank(v: FormValues, now: int)
    ensures FieldError(v, now, Source).Some? <==>
      forall i | 0 <= i < |v.source| :: IsWhitespace(v.source[i])
    ensures FieldError(v, now, Destination).Some? <==>
      forall i | 0 <= i < |v.destination| :: IsWhitespace(v.destination[i])
  {
    AllWhitespaceIffBlank(v.source);
    AllWhitespaceIffBlank(v.destination);
  }

  /** A missing date is "required"; the past-date and ordering checks need both dates, so
      a start in the past passes while the end date is missing. */
  lemma DateChecks(v: FormValues, now: int)
    ensures v.startDate.None? ==> FieldError(v, now, StartDate) == Some(StartDateRequired)
    ensures v.endDate.None? ==> FieldError(v, now, EndDate) == Some(EndDateRequired)
    ensures v.startDate.Some? && v.endDate.None? ==> FieldError(v, now, StartDate).None?
    ensures v.startDate.None? && v.endDate.Some? ==> FieldError(v, now, EndDate).None?
  {
  }

  /** With both dates present: a start before `now` is in the past, an end before the
      start is out of order, and an end equal to the start passes. */
  lemma DateOrder(v: FormValues, now: int)
    requires v.startDate.Some? && v.endDate.Some?
    ensures FieldError(v, now, StartDate).Some? <==> v.startDate.value < now
    ensures v.startDate.value < now ==> FieldError(v, now, StartDate) == Some(StartDateInPast)
    ensures FieldError(v, now, EndDate).Some? <==> v.endDate.value < v.startDate.value
    ensures v.endDate.value < v.startDate.value ==>
      FieldError(v, now, EndDate) == Some(EndBeforeStartDate)
    ensures v.endDate == v.startDate ==> FieldError(v, now, EndDate).None?
  {
  }

  /** The budget and traveller checks look at their own field only. */
  lemma CountChecksIndependent(v: FormValues, w: FormValues, now: int, later: int)
    ensures v.budget == w.budget ==> FieldError(v, now, Budget) == FieldError(w, later, Budget)
    ensures v.travelers == w.travelers ==>
      FieldError(v, now, Travelers) == FieldError(w, later, Travelers)
    ensures FieldError(v, now, Budget).Some? <==> v.budget <= 0
    ensures FieldError(v, now, Travelers).Some? <==> v.travelers <= 0
  {
  }

  /** The details handed to `onSubmit`: the form's values and the selected currency's code. */
  function DetailsOf(v: FormValues): TravelDetails
    requires v.startDate.Some? && v.endDate.Some?
  {
    TravelDetails(
      v.source, v.destination, v.startDate.value, v.endDate.value,
      v.budget, v.travelers, v.interests, Some(v.currency.code))
  }

  /** The form component's state. Fields that are only ever set straight from an input
      (`source`, `destination`, the dates, `interests`) are assigned directly by callers. */
  class TravelForm {
    var source: string
    var destination: string
    var startDate: Option<int>
    var endDate: Option<int>
    var budget: int
    var travelers: int
    var interests: seq<string>
    var errors: map<Field, string>
    var currency: Currency

    function Values(): FormValues
      reads this
    {
      FormValues(source, destination, startDate, endDate, budget, travelers, interests, currency)
    }

    /** The initial state: empty places, a trip from 30 to 37 days after `now`, an empty
        budget (which counts as 0), two travellers, no interests, INR. */
    constructor (now: int)
      ensures source == [] && destination == []
      ensures startDate == Some(now + 30 * MsPerDay) && endDate == Some(now + 37 * MsPerDay)
      ensures budget == 0 && travelers == 2 && interests == []
      ensures errors == map[] && currency == Currencies[0]
    {
      source, destination := [], [];
      startDate, endDate := Some(now + 30 * MsPerDay), Some(now + 37 * MsPerDay);
      budget, travelers, interests := 0, 2, [];
      errors := map[];
      currency := Currencies[0];
    }

    /** The currency picker's change handler. */
    method ChangeCurrency(code: string)
      modifies this`currency
      ensures currency == SelectCurrency(code)
      ensures currency in Currencies
    {
      currency := SelectCurrency(code);
    }

    /** The budget input's change handler. */
    method ChangeBudget(input: int)
      modifies this`budget
      ensures budget == ClampNonNegative(input) && budget >= 0
    {
      budget := ClampNonNegative(input);
    }

    /** The traveller-count input's change handler. */
    method ChangeTravelers(input: int)
      modifies this`travelers
      ensures travelers == ClampNonNegative(input) && travelers >= 0
    {
      travelers := ClampNonNegative(input);
    }

    /** `validateForm`: records one error per offending field and reports success exactly
        when none was recorded, which is exactly when the form is valid. */
    method ValidateForm(now: int) returns (ok: bool)
      modifies this`errors
      ensures forall f :: f in errors <==> FieldError(Values(), now, f).Some?
      ensures forall f | f in errors :: errors[f] == FieldError(Values(), now, f).value
      ensures ok <==> errors == map[]
      ensures ok <==> ValidForm(Values(), now)
    {
      var newErrors := CollectErrors(Values(), now);
      errors := newErrors;
      ok := |newErrors| == 0;
      NoErrorsIffValid(Values(), now);
      if !ok {
        var f :| f in newErrors;
        assert FieldError(Values(), now, f).Some?;
      }
    }

    /** `handleSubmit`: validates, and only on success produces the details `onSubmit` is
        called with. */
    method HandleSubmit(now: int) returns (submitted: Option<TravelDetails>)
      modifies this`errors
      ensures forall f :: f in errors <==> FieldError(Values(), now, f).Some?
      ensures forall f | f in errors :: errors[f] == FieldError(Values(), now, f).value
      ensures submitted.Some? <==> ValidForm(Values(), now)
      ensures submitted.Some? ==> submitted.value == DetailsOf(Values())
      ensures submitted.Some? ==> submitted.value.currency == Some(currency.code)
    {
      var ok := ValidateForm(now);
      if !ok {
        return None;
      }
      submitted := Some(DetailsOf(Values()));
    }
  }
}
