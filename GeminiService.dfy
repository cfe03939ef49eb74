/** The pure parts of `GeminiService.generateTravelPlan`: the trip length, the values the
    prompt interpolates, and the wrapping of every failure into one error message. The
    call to the hosted model is a parameter of the model. */
module GeminiService {
  import opened Wrappers
  import opened JsString

  /** What the form submits. Dates are millisecond timestamps; `currency` is optional. */
  datatype TravelDetails = TravelDetails(
    source: string,
    destination: string,
    startDate: int,
    endDate: int,
    budget: int,
    travelers: int,
    interests: seq<string>,
    currency: Option<string>)

  /** 1000 * 60 * 60 * 24 */
  const MsPerDay: int := 86_400_000

  /** `Math.ceil((endDate - startDate) / MsPerDay)`, the number of days the prompt
      announces. The result is the ceiling: the least whole number of days covering the gap. */
  function TripDurationDays(startMs: int, endMs: int): (days: int)
    ensures (days - 1) * MsPerDay < endMs - startMs <= days * MsPerDay
  {
    -((startMs - endMs) / MsPerDay)
  }

  /** The ceiling is the only whole number that brackets the gap that way. */
  lemma DurationIsUnique(startMs: int, endMs: int, d: int)
    requires (d - 1) * MsPerDay < endMs - startMs <= d * MsPerDay
    ensures TripDurationDays(startMs, endMs) == d
  {
  }

  /** A gap of exactly k days gives k; identical dates give 0. */
  lemma ExactDays(startMs: int, k: int)
    ensures TripDurationDays(startMs, startMs + k * MsPerDay) == k
    ensures TripDurationDays(startMs, startMs) == 0
  {
    DurationIsUnique(startMs, startMs + k * MsPerDay, k);
    DurationIsUnique(startMs, startMs, 0);
  }

  /** One millisecond past k whole days counts as k + 1 days. */
  lemma LeftoverRoundsUp(startMs: int, k: int)
    ensures TripDurationDays(startMs, startMs + k * MsPerDay + 1) == k + 1
  {
    DurationIsUnique(startMs, startMs + k * MsPerDay + 1, k + 1);
  }

  /** An end before the start is not clamped: the duration is zero or negative. */
  lemma EndBeforeStart(startMs: int, endMs: int)
    requires endMs < startMs
    ensures TripDurationDays(startMs, endMs) <= 0
  {
  }

  /** `${value}` in a template literal: a given value renders as itself, an absent one as
      "undefined", so the rendering is empty only for an empty value. */
  function Interpolate(value: Option<string>): (r: string)
    ensures value.Some? ==> r == value.value
    ensures value.None? ==> r == "undefined"
    ensures r == [] ==> value == Some([])
  {
    match value
    case Some(s) => s
    case None => "undefined"
  }

  /** `currency || "USD"`: the code for the prompt's Currency line. It is never empty,
      and it is either the submitted code or USD. */
  function PromptCurrency(currency: Option<string>): (code: string)
    ensures code != []
    ensures currency == Some(code) || code == "USD"
    ensures currency.Some? && currency.value != [] ==> code == currency.value
  {
    if currency.Some? && currency.value != [] then currency.value else "USD"
  }

  /** The values the prompt text is built from (the surrounding wording is not modelled). */
  datatype PromptFacts = PromptFacts(
    origin: string,
    destination: string,
    durationDays: int,
    budgetCurrency: string,
    budget: int,
    travelers: int,
    interests: string,
    currency: string)

  /** The places, budget and head-count pass through unchanged; the duration is the
      ceiling of the gap in days; the Budget line shows the code as interpolated and the
      Currency line the code or USD, never empty. */
  function PromptFactsOf(d: TravelDetails): (r: PromptFacts)
    ensures r.origin == d.source && r.destination == d.destination
    ensures r.budget == d.budget && r.travelers == d.travelers
    ensures (r.durationDays - 1) * MsPerDay < d.endDate - d.startDate <= r.durationDays * MsPerDay
    ensures r.currency != []
    ensures r.currency == PromptCurrency(d.currency)
    ensures r.budgetCurrency == Interpolate(d.currency)
    ensures d.interests == [] ==> r.interests == []
  {
    PromptFacts(
      d.source,
      d.destination,
      TripDurationDays(d.startDate, d.endDate),
      Interpolate(d.currency),
      d.budget,
      d.travelers,
      Join(d.interests, ", "),
      PromptCurrency(d.currency))
  }

  /** The Currency line falls back to USD while the Budget line shows the raw value:
      "undefined" when no currency was given, the empty string when it was empty. */
  lemma CurrencyLinesDisagree(d: TravelDetails)
    requires d.currency.None? || d.currency == Some([])
    ensures PromptFactsOf(d).currency == "USD"
    ensures d.currency.None? ==> PromptFactsOf(d).budgetCurrency == "undefined"
    ensures d.currency == Some([]) ==> PromptFactsOf(d).budgetCurrency == []
  {
  }

  /** No interests render as the empty string; one renders as itself; more render as the
      line for all but the last, then ", ", then the last. */
  lemma InterestsLine(d: TravelDetails)
    ensures d.interests == [] ==> PromptFactsOf(d).interests == []
    ensures |d.interests| == 1 ==> PromptFactsOf(d).interests == d.interests[0]
    ensures |d.interests| > 0 ==>
      |PromptFactsOf(d).interests| == TotalLength(d.interests) + 2 * (|d.interests| - 1)
    ensures |d.interests| > 1 ==>
      var n := |d.interests|;
      PromptFactsOf(d).interests ==
        PromptFactsOf(d.(interests := d.interests[..n - 1])).interests + ", " + d.interests[n - 1]
  {
    var n := |d.interests|;
    if n > 1 {
      assert d.interests == d.interests[..n - 1] + [d.interests[n - 1]];
      JoinSnoc(d.interests[..n - 1], d.interests[n - 1], ", ");
    }
  }

  /** What the hosted model's call chain produces for a prompt: text, or a thrown value
      (its message). */
  datatype ProviderReply = Text(text: string) | Thrown(message: string)

  const FailurePrefix: string := "Failed to generate travel plan: "

  /** The message of the Error re-thrown from the catch block. */
  function WrapFailure(message: string): (wrapped: string)
    ensures StartsWith(wrapped, FailurePrefix)
    ensures |wrapped| == |FailurePrefix| + |message|
    ensures wrapped[|FailurePrefix|..] == message
  {
    FailurePrefix + message
  }

  /** Recovers the original message from a wrapped one. */
  function UnwrapFailure(wrapped: string): (message: Option<string>)
    ensures message.Some? <==> StartsWith(wrapped, FailurePrefix)
    ensures message.Some? ==> WrapFailure(message.value) == wrapped
  {
    if StartsWith(wrapped, FailurePrefix) then Some(wrapped[|FailurePrefix|..]) else None
  }

  /** Wrapping loses nothing: the original message is recovered exactly. */
  lemma UnwrapWrap(message: string)
    ensures UnwrapFailure(WrapFailure(message)) == Some(message)
  {
  }

  /** `generateTravelPlan`: ask the provider for the prompt built from `details`; return
      its text, or fail with the prefixed message of whatever was thrown. */
  function GenerateTravelPlan(details: TravelDetails, generate: PromptFacts -> ProviderReply)
    : (r: Result<string, string>)
    ensures r.Ok? <==> generate(PromptFactsOf(details)).Text?
    ensures r.Ok? ==> r.value == generate(PromptFactsOf(details)).text
    ensures r.Err? ==> UnwrapFailure(r.error) == Some(generate(PromptFactsOf(details)).message)
  {
    match generate(PromptFactsOf(details))
    case Text(text) => Ok(text)
    case Thrown(message) => Err(WrapFailure(message))
  }
}
