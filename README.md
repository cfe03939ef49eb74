# TravelGenie.AI request core, modelled in Dafny

TravelGenie.AI is a React page. A form collects a trip, a service asks a hosted language
model for a plan, and the page shows the plan. This project models the decision logic of
four files and proves what they promise:

- `TravelForm` (src/components/TravelForm.tsx): the form's state; the currency picker with
  its fall-back to the first entry (INR); the budget and traveller inputs clamped at 0; the
  validator that fills one error message per offending field; and the submit handler. The
  submit handler passes the details on only when no error was recorded. Dates are integer
  millisecond timestamps, and the current time `now` is a parameter.
- `Home` (src/pages/Home.tsx): the page's request lifecycle. The class `HomePage` has one
  method per event: submit, the awaited call resolving or throwing, abort, the 7-second
  long-wait timer firing, reset, and closing the snackbar. Each method is tied to a pure
  transition function on a `PageState` snapshot. The page invariant `Valid` is proved to
  survive every event sequence. The module also has the rule that turns a failure message
  into one of three user messages.
- `TravelResults` (src/components/TravelResults.tsx): the currency-symbol table lookup and
  its default.
- `GeminiService` (src/services/geminiService.ts): the trip length, which is the ceiling of
  the millisecond gap divided by 86,400,000; the values the prompt interpolates, including
  the `"USD"` fall-back; and the wrapping of every failure in
  `"Failed to generate travel plan: "`. The call to the hosted model is a function
  parameter.
- `JsString` and `Wrappers`: the JavaScript built-ins used above, `trim`, `toLowerCase`
  and `includes` (String) and `join` (Array), and `Option`/`Result`.

The comment at `Home.tsx:35` says the signal lets the service cancel the wait, but
`generateTravelPlan` (`geminiService.ts:42`) takes only the details, so the signal and the
`180000` passed at `Home.tsx:36` are ignored and no race exists. An abort therefore only updates page
state, and the awaited call still ends by resolving or throwing. The model follows the
code. `Home.AbortDoesNotCancel` states the consequence: a plan that arrives after an abort
is still stored.

## Model

| member | source | states |
|---|---|---|
| `JsString.TrimEmptyIffBlank` | src/components/TravelForm.tsx:77-78 | `s.trim()` is empty exactly when every character of `s` is whitespace |
| `JsString.Trim` | src/components/TravelForm.tsx:77-78 | `trim` never lengthens a string, and its result neither starts nor ends with whitespace |
| `JsString.AllWhitespaceIffBlank` | src/components/TravelForm.tsx:77-78 | blankness holds exactly when each character is one of the characters `trim` removes |
| `JsString.TrimStartSpec` | src/components/TravelForm.tsx:77 | trimming the start keeps a suffix, drops only whitespace, and leaves no leading whitespace |
| `JsString.TrimEndSpec` | src/components/TravelForm.tsx:77 | trimming the end keeps a prefix, drops only whitespace, and leaves no trailing whitespace |
| `JsString.IncludesIff` | src/pages/Home.tsx:42-44 | the left-to-right `includes` scan succeeds exactly when the pattern occurs at some index |
| `JsString.IncludesAfterPrefix` | src/pages/Home.tsx:42-44 | when no match can start inside a prefix, searching prefix+rest is searching rest |
| `JsString.Lower` | src/pages/Home.tsx:42-44 | `toLowerCase` keeps the length, turns each ASCII capital into its small letter, and keeps every other character |
| `JsString.Includes` | src/pages/Home.tsx:42-44 | `includes` finds the empty pattern and any prefix, and never a pattern longer than the string |
| `JsString.Join` | src/services/geminiService.ts:63 | an empty list joins to ""; otherwise the result starts with the first element and its length is all element lengths plus one separator per gap |
| `JsString.JoinSnoc` | src/services/geminiService.ts:63 | appending an element to a non-empty list appends a separator and that element |
| `GeminiService.TripDurationDays` | src/services/geminiService.ts:49-52 | the duration is the ceiling: (days-1)·86400000 < end-start <= days·86400000 |
| `GeminiService.DurationIsUnique` | src/services/geminiService.ts:49-52 | any whole number bracketing the gap that way equals the computed duration |
| `GeminiService.ExactDays` | src/services/geminiService.ts:49-52 | a gap of exactly k days gives k, and identical dates give 0 |
| `GeminiService.LeftoverRoundsUp` | src/services/geminiService.ts:49-52 | k days plus one millisecond gives k+1 |
| `GeminiService.EndBeforeStart` | src/services/geminiService.ts:49-52 | an end before the start gives a duration <= 0, with no clamping |
| `GeminiService.PromptCurrency` | src/services/geminiService.ts:64 | the Currency line is never empty, and it is the submitted code when that is non-empty, otherwise "USD" |
| `GeminiService.Interpolate` | src/services/geminiService.ts:61 | `${value}` renders a given value as itself and an absent one as "undefined", so it is empty only for an empty value |
| `GeminiService.PromptFactsOf` | src/services/geminiService.ts:54-81 | the prompt's places, budget and head-count are the details' own; its duration is the ceiling of the gap in days; the Budget line shows the code as `${currency}` renders it; the Currency line is the submitted code when non-empty and "USD" otherwise; no interests render as "" |
| `GeminiService.CurrencyLinesDisagree` | src/services/geminiService.ts:61-64 | with no currency or an empty one, the Currency line says "USD" while the Budget line shows "undefined" or "" |
| `GeminiService.InterestsLine` | src/services/geminiService.ts:63 | no interests render as ""; one renders as itself; more render as the line for all but the last, then ", ", then the last, with n-1 separators in all |
| `GeminiService.WrapFailure` | src/services/geminiService.ts:104-108 | the re-thrown message is the fixed prefix followed by the original message, unchanged |
| `GeminiService.UnwrapFailure` | src/services/geminiService.ts:106-107 | a message has the prefix exactly when it unwraps, and re-wrapping the result restores it |
| `GeminiService.UnwrapWrap` | src/services/geminiService.ts:104-108 | wrapping loses nothing: unwrapping recovers the original message |
| `GeminiService.GenerateTravelPlan` | src/services/geminiService.ts:42-109 | the result is the provider's text when it answers; when it throws, the result is an error from which the thrown message is recovered |
| `TravelResults.CurrencySymbol` | src/components/TravelResults.tsx:13-25 | the symbol is never empty, is always one of the table's, and is the table's entry for any listed code |
| `TravelResults.ListedSymbols` | src/components/TravelResults.tsx:14-22 | INR, USD, EUR, GBP, AUD, CAD, JPY each give their listed symbol |
| `TravelResults.SymbolsDistinct` | src/components/TravelResults.tsx:14-22 | no two listed codes share a symbol |
| `TravelResults.FallsBackToRupee` | src/components/TravelResults.tsx:13-24 | a missing code, any unlisted code and a lowercase "usd" all give "₹" |
| `TravelResults.FormCurrenciesAgree` | src/components/TravelResults.tsx:15-17 | every code the form's picker can submit (INR, USD, EUR) is shown with the same symbol the picker displays |
| `TravelForm.FindCode` | src/components/TravelForm.tsx:221 | the search finds the first table entry with the code, and finds nothing exactly when no entry has it |
| `TravelForm.SelectCurrency` | src/components/TravelForm.tsx:221 | the selection is always a table entry: the one with the chosen code if listed, otherwise the first entry |
| `TravelForm.SelectListedOrInr` | src/components/TravelForm.tsx:53-61 | INR, USD and EUR select their own entries; any other code selects INR |
| `TravelForm.FieldError` | src/components/TravelForm.tsx:77-95 | the message each field check records; a valid form gets none on any field |
| `TravelForm.ClampNonNegative` | src/components/TravelForm.tsx:239-249 | the stored number is never negative, is at least the typed one, and keeps a non-negative entry unchanged |
| `TravelForm.TravelForm.ChangeCurrency` | src/components/TravelForm.tsx:220-222 | picking a code stores the selected table entry |
| `TravelForm.TravelForm.ChangeBudget` | src/components/TravelForm.tsx:239 | the budget input stores the clamped, non-negative value |
| `TravelForm.TravelForm.ChangeTravelers` | src/components/TravelForm.tsx:249 | the traveller input stores the clamped, non-negative value |
| `TravelForm.CollectErrors` | src/components/TravelForm.tsx:75-95 | the filled dictionary has a key exactly for each field with an error, holding that field's message |
| `TravelForm.AgreesEverywhere` | src/components/TravelForm.tsx:75-95 | agreement on each of the six fields is agreement on every key |
| `TravelForm.NoErrorsIffValid` | src/components/TravelForm.tsx:97-98 | no field has an error exactly when both places are non-blank, both dates are present, now <= start <= end, and budget and travellers are positive |
| `TravelForm.PlaceRequiredIffBlank` | src/components/TravelForm.tsx:77-78 | an empty or all-whitespace source or destination gets its "required" error, and a non-blank one never does |
| `TravelForm.DateChecks` | src/components/TravelForm.tsx:79-92 | a missing date gets "required"; the past and ordering checks run only when both dates are present |
| `TravelForm.DateOrder` | src/components/TravelForm.tsx:82-91 | with both dates present: start < now gives the past-date error, end < start gives the ordering error, and end = start passes |
| `TravelForm.CountChecksIndependent` | src/components/TravelForm.tsx:94-95 | budget <= 0 and travellers <= 0 each give their own error, and depend on no other field or on the time |
| `TravelForm.TravelForm.constructor` | src/components/TravelForm.tsx:64-72 | the initial form: empty places, dates 30 and 37 days ahead, empty budget (0), two travellers, INR |
| `TravelForm.TravelForm.ValidateForm` | src/components/TravelForm.tsx:74-99 | stores exactly one message per offending field, and returns true exactly when the stored map is empty, which is exactly when the form is valid |
| `TravelForm.TravelForm.HandleSubmit` | src/components/TravelForm.tsx:101-118 | stores exactly one validator message per offending field; details are passed on only when the form is valid, and then they are the form's values with the selected currency's code |
| `Home.ClassifyFailure` | src/pages/Home.tsx:41-48 | "abort" in any letter case gives the abort message and takes precedence; otherwise "timed out" gives the timeout message; anything else gives the generic message |
| `Home.LowerPrefixShape` | src/services/geminiService.ts:107 | the lower-cased failure prefix contains no "b" or "m" and ends in ": " |
| `Home.NoPatternInPrefix` | src/pages/Home.tsx:42-44 | no "abort" or "timed out" match can start inside the lower-cased failure prefix |
| `Home.ClassifyWrappedFailure` | src/pages/Home.tsx:41-48 | the service's prefix never changes how a failure is classified |
| `Home.InitialValid` | src/pages/Home.tsx:10-17 | the initial page satisfies the page invariant |
| `Home.AtMostOneTimer` | src/pages/Home.tsx:31-32 | on a valid page at most one long-wait timer is pending |
| `Home.SubmitStarts` | src/pages/Home.tsx:22-32 | submitting sets loading, clears the error, closes the snackbar and records the details; the old timer is cleared and exactly the new one is pending |
| `Home.FinallyCleansUp` | src/pages/Home.tsx:50-58 | after the call settles: not loading, hint hidden, no timer held or pending, no controller |
| `Home.SuccessStoresPlan` | src/pages/Home.tsx:36-37 | a resolved call stores its plan, keeps the error as it was, and cleans up |
| `Home.FailureShowsOneMessage` | src/pages/Home.tsx:38-49 | a failed call sets one of the three messages, opens the snackbar, keeps the plan, and cleans up |
| `Home.AbortEffect` | src/pages/Home.tsx:61-73 | with a controller, abort signals that controller, stops loading, hides the hint and shows the abort message; without one, it changes nothing; the call stays in flight |
| `Home.AbortWithoutController` | src/pages/Home.tsx:69-72 | without a controller, abort touches only the timer ref and the timer it held |
| `Home.AbortIdempotent` | src/pages/Home.tsx:61-73 | aborting twice has the same effect as aborting once |
| `Home.AbortDoesNotCancel` | src/pages/Home.tsx:36-37 | a call that resolves after an abort still has its plan stored, next to the abort message |
| `Home.ResetOnlyClearsResult` | src/pages/Home.tsx:83-86 | reset clears the plan and the details, and nothing else |
| `Home.StepKeepsValid` | src/pages/Home.tsx:21-86 | every event that can happen keeps the page invariant |
| `Home.RunKeepsValid` | src/pages/Home.tsx:21-86 | any possible event sequence keeps the invariant, so at most one long-wait timer is ever pending |
| `Home.HomePage.constructor` | src/pages/Home.tsx:10-17 | the page starts in the initial state, which is valid |
| `Home.HomePage.ClearTimerRef` | src/pages/Home.tsx:53-56 | clears the pending timer the ref holds and nulls the ref |
| `Home.HomePage.HandleSubmit` | src/pages/Home.tsx:21-33 | the state becomes the submit transition of the old state, and stays valid |
| `Home.HomePage.Finally` | src/pages/Home.tsx:50-58 | the state becomes the finally transition of the old state |
| `Home.HomePage.SubmitSucceeded` | src/pages/Home.tsx:36-58 | the state becomes the success transition of the old state, and stays valid |
| `Home.HomePage.SubmitFailed` | src/pages/Home.tsx:38-58 | the state becomes the failure transition of the old state, with the classified message, and stays valid |
| `Home.HomePage.HandleAbort` | src/pages/Home.tsx:61-73 | the state becomes the abort transition of the old state, and stays valid |
| `Home.HomePage.LongWaitElapsed` | src/pages/Home.tsx:32 | the pending timer fires and shows the long-wait hint; the page stays valid |
| `Home.HomePage.HandleReset` | src/pages/Home.tsx:83-86 | the state becomes the reset transition of the old state, and stays valid |
| `Home.HomePage.CloseSnackbar` | src/pages/Home.tsx:97 | closing the snackbar changes only `openSnackbar`, and the page stays valid |

## Left out

- Timeout and cancellation race: the code has none. The service ignores the signal and the timeout, so no race is modelled. Abort only updates page state.
- Calls to the Google Generative AI library (model construction, safety settings, `generateContent`, `response.text()`): these are foreign code. `GenerateTravelPlan` takes the provider as a function from the prompt's values to a reply or a thrown message.
- Exact prompt wording and locale formatting (`toLocaleDateString`, `toLocaleString`): the model keeps only the values the prompt interpolates (`PromptFacts`). Numbers are not rendered to text.
- `date-fns` helpers: `isBefore` is strict `<` on timestamps, and `addDays(now, n)` is `now + n·86400000`. Daylight-saving shifts are ignored. The form's own trip-length display (`differenceInDays`, TravelForm.tsx:120) is not modelled.
- `TripDurationDays` is the exact rational ceiling. Double-precision rounding of the division for gaps of millions of days is not modelled.
- `JsString.LowerChar` lowers only ASCII `A`–`Z`. The only non-ASCII characters whose lower case contains ASCII letters are U+0130 (to "i" followed by U+0307) and U+212A (to "k"); neither letter occurs in "abort", and the "i" is always followed by U+0307 rather than the "m" of "timed out", so the classification is unaffected.
- `TravelForm.FieldError`, `TravelForm.NoErrorsIffValid`: a present date is always an integer timestamp. An invalid date (a partly typed date the picker reports as a `Date` holding NaN) is not modelled. The source's validator lets such a date through, because `!startDate` is false for it and `isBefore` against NaN is false, and the service then computes a NaN duration.
- JavaScript coercions: budget and traveller count are integers. An empty budget is 0; `NaN`, fractional numbers and prototype-key lookups in the symbol table are not modelled.
- Rendering (JSX, MUI, Markdown), `Header.tsx`, `NotFound.tsx`, `App.tsx`, `theme.ts`, scroll-into-view, and the interests autocomplete list: no decision logic.
- React runtime: state updates are immediate field writes. Batching and stale closures are not modelled. The unmount effect (Home.tsx:76-81) captures the initial null controller and never aborts, so it is left out.
- Fields that are set straight from an input (places, dates, interests) have no setter methods. Callers assign the `TravelForm` fields directly.
- `Home.Run` returns `None` for an event sequence that cannot happen: a settlement with no call in flight, or a timer that is not pending. The submit button is disabled while loading, but the handler itself does not check this, so `Submit` is allowed in any state.
- The API key from the environment and all console logging.
