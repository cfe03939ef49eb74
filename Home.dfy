/** The home page's request lifecycle: the state a submission, its completion, the abort
    button, the long-wait timer and the "plan another trip" button change, and the rule
    that turns a failure message into the one the snackbar shows.

    The awaited `generateTravelPlan` call never looks at the abort signal or the timeout
    it is handed, so a submission ends only when that call resolves or rejects; aborting
    merely updates the page state. */
module Home {
  import opened Wrappers
  import opened JsString
  import opened GeminiService

  const AbortedMessage: string := "Generation aborted by user."
  const TimedOutMessage: string := "Generation timed out. Try again or shorten the request."
  const GenericFailureMessage: string := "Error: Failed to generate travel plan:"

  /** The catch block's message rule. "abort" (in any letter case) wins over "timed out";
      anything else gets the generic message. */
  function ClassifyFailure(message: string): (shown: string)
    ensures shown == AbortedMessage <==> exists i :: OccursAt(Lower(message), "abort", i)
    ensures shown == TimedOutMessage <==>
      (!exists i :: OccursAt(Lower(message), "abort", i))
      && (exists i :: OccursAt(Lower(message), "timed out", i))
    ensures shown == GenericFailureMessage <==>
      (!exists i :: OccursAt(Lower(message), "abort", i))
      && (!exists i :: OccursAt(Lower(message), "timed out", i))
  {
    var lower := Lower(message);
    IncludesIff(lower, "abort");
    IncludesIff(lower, "timed out");
    if Includes(lower, "abort") then AbortedMessage
    else if Includes(lower, "timed out") then TimedOutMessage
    else GenericFailureMessage
  }

  /** The lower-cased failure prefix holds no "b" and no "m", and ends in ": ". */
  lemma LowerPrefixShape()
    ensures |Lower(FailurePrefix)| == |FailurePrefix| == 32
    ensures forall j | 0 <= j < 32 :: Lower(FailurePrefix)[j] != 'b' && Lower(FailurePrefix)[j] != 'm'
    ensures Lower(FailurePrefix)[30] == ':' && Lower(FailurePrefix)[31] == ' '
  {
  }

  /** No occurrence of `p` can start inside the lower-cased failure prefix, for `p` either
      pattern the catch block looks for. */
  lemma NoPatternInPrefix(rest: string, p: string)
    requires p == "abort" || p == "timed out"
    ensures forall i | 0 <= i < |Lower(FailurePrefix)| ::
      !StartsWith((Lower(FailurePrefix) + rest)[i..], p)
  {
    LowerPrefixShape();
    var lp := Lower(FailurePrefix);
    forall i | 0 <= i < |lp| ensures !StartsWith((lp + rest)[i..], p) {
      var s := (lp + rest)[i..];
      if |p| <= |s| {
        // the character of `p` that cannot sit inside the prefix, and its offset
        var k := if p == "abort" then 1 else 2;
        if i + k < 32 {
          assert s[k] == lp[i + k] && s[k] != p[k];
        } else {
          assert s[0] == lp[i] && s[0] != p[0];
        }
        assert s[..|p|][k] == s[k] && s[..|p|][0] == s[0];
      }
    }
  }

  /** Wrapping a provider failure does not change how the page classifies it: the
      prefix contributes neither "abort" nor "timed out". */
  lemma ClassifyWrappedFailure(message: string)
    ensures ClassifyFailure(WrapFailure(message)) == ClassifyFailure(message)
  {
    var lower := Lower(WrapFailure(message));
    LowerAppend(FailurePrefix, message);
    NoPatternInPrefix(Lower(message), "abort");
    NoPatternInPrefix(Lower(message), "timed out");
    IncludesAfterPrefix(Lower(FailurePrefix), Lower(message), "abort");
    IncludesAfterPrefix(Lower(FailurePrefix), Lower(message), "timed out");
    IncludesIff(lower, "abort");
    IncludesIff(lower, "timed out");
    IncludesIff(Lower(message), "abort");
    IncludesIff(Lower(message), "timed out");
  }

  /** A snapshot of the page: its React state, the long-wait timer ref, and the
      environment the handlers touch. `liveTimers` are the browser timeouts still pending,
      `abortedSignals` the controllers whose `abort()` has been called, `inFlight` the
      awaited generation calls not yet settled; the `next…` counters hand out fresh
      controller and timer identities. */
  datatype PageState = PageState(
    isLoading: bool,
    error: Option<string>,
    openSnackbar: bool,
    travelPlan: Option<string>,
    travelDetails: Option<TravelDetails>,
    abortController: Option<nat>,
    abortedSignals: set<nat>,
    showLongWait: bool,
    longWaitTimer: Option<nat>,
    liveTimers: set<nat>,
    nextController: nat,
    nextTimer: nat,
    inFlight: nat)

  const InitialState: PageState :=
    PageState(
      isLoading := false, error := None, openSnackbar := false,
      travelPlan := None, travelDetails := None,
      abortController := None, abortedSignals := {},
      showLongWait := false, longWaitTimer := None, liveTimers := {},
      nextController := 0, nextTimer := 0, inFlight := 0)

  /** What the handlers keep true of the page:
      - at most one long-wait timer is pending, and it is the one the ref holds;
      - a timer is held only while loading with a controller in place;
      - the long-wait hint shows only while such a timer is held;
      - the page is loading, or holds a controller, only while a call is in flight;
      - the snackbar is open only with an error to show. */
  ghost predicate Valid(s: PageState) {
    && (s.longWaitTimer.None? ==> s.liveTimers == {})
    && (s.longWaitTimer.Some? ==>
          s.liveTimers <= {s.longWaitTimer.value} && s.longWaitTimer.value < s.nextTimer)
    && (s.longWaitTimer.Some? ==> s.isLoading && s.abortController.Some?)
    && (s.showLongWait ==> s.longWaitTimer.Some?)
    && (s.isLoading ==> s.inFlight > 0)
    && (s.abortController.Some? ==> s.inFlight > 0)
    && (s.openSnackbar ==> s.error.Some?)
  }

  /** `if (ref.current) { clearTimeout(ref.current); ref.current = null; }` */
  function ClearLongWaitTimer(s: PageState): PageState {
    match s.longWaitTimer
    case Some(t) => s.(liveTimers := s.liveTimers - {t}, longWaitTimer := None)
    case None => s
  }

  /** `handleSubmit` up to the `await`: loading, no error, details recorded, snackbar
      closed, a fresh controller, the old timer cleared and a new one armed. */
  function AfterSubmit(s: PageState, details: TravelDetails): PageState {
    var started := s.(isLoading := true, error := None, travelDetails := Some(details),
                      openSnackbar := false, abortController := Some(s.nextController),
                      nextController := s.nextController + 1);
    var cleared := match started.longWaitTimer
      case Some(t) => started.(liveTimers := started.liveTimers - {t})
      case None => started;
    var t := cleared.nextTimer;
    cleared.(longWaitTimer := Some(t), liveTimers := cleared.liveTimers + {t},
             nextTimer := t + 1, inFlight := cleared.inFlight + 1)
  }

  /** The `finally` block, run when the awaited call settles. */
  function AfterFinally(s: PageState): PageState
    requires s.inFlight > 0
  {
    var cleared := ClearLongWaitTimer(s.(isLoading := false, showLongWait := false));
    cleared.(abortController := None, inFlight := cleared.inFlight - 1)
  }

  /** The awaited call resolved with `plan`. */
  function AfterSuccess(s: PageState, plan: string): PageState
    requires s.inFlight > 0
  {
    AfterFinally(s.(travelPlan := Some(plan)))
  }

  /** The awaited call threw an error with `message`. */
  function AfterFailure(s: PageState, message: string): PageState
    requires s.inFlight > 0
  {
    AfterFinally(s.(error := Some(ClassifyFailure(message)), openSnackbar := true))
  }

  /** `handleAbort` */
  function AfterAbort(s: PageState): PageState {
    var aborted := match s.abortController
      case Some(c) => s.(abortedSignals := s.abortedSignals + {c}, isLoading := false,
                         showLongWait := false, openSnackbar := true,
                         error := Some(AbortedMessage))
      case None => s;
    ClearLongWaitTimer(aborted)
  }

  /** The pending long-wait timer `t` fires. */
  function AfterLongWait(s: PageState, t: nat): PageState
    requires t in s.liveTimers
  {
    s.(liveTimers := s.liveTimers - {t}, showLongWait := true)
  }

  /** `handleReset` */
  function AfterReset(s: PageState): PageState {
    s.(travelPlan := None, travelDetails := None)
  }

  /** The snackbar's `onClose`. */
  function AfterSnackbarClose(s: PageState): PageState {
    s.(openSnackbar := false)
  }

  /** The events the page reacts to, in the order they happen. */
  datatype Event =
    | Submit(details: TravelDetails)
    | Resolved(plan: string)
    | Rejected(message: string)
    | AbortClicked
    | LongWaitFired(timer: nat)
    | ResetClicked
    | SnackbarClosed

  /** Whether `e` can happen in `s`: a call can settle only while one is in flight, and
      only a pending timer can fire. */
  predicate CanHappen(s: PageState, e: Event) {
    match e
    case Resolved(_) => s.inFlight > 0
    case Rejected(_) => s.inFlight > 0
    case LongWaitFired(t) => t in s.liveTimers
    case _ => true
  }

  function Step(s: PageState, e: Event): PageState
    requires CanHappen(s, e)
  {
    match e
    case Submit(d) => AfterSubmit(s, d)
    case Resolved(plan) => AfterSuccess(s, plan)
    case Rejected(message) => AfterFailure(s, message)
    case AbortClicked => AfterAbort(s)
    case LongWaitFired(t) => AfterLongWait(s, t)
    case ResetClicked => AfterReset(s)
    case SnackbarClosed => AfterSnackbarClose(s)
  }

  /** The state after `events`, each applied in turn; `None` if one of them could not
      have happened at its turn. */
  function Run(s: PageState, events: seq<Event>): Option<PageState>
    decreases |events|
  {
    if events == [] then Some(s)
    else if CanHappen(s, events[0]) then Run(Step(s, events[0]), events[1..])
    else None
  }

  lemma InitialValid()
    ensures Valid(InitialState)
  {
  }

  /** At most one long-wait timer is ever pending. */
  lemma AtMostOneTimer(s: PageState)
    requires Valid(s)
    ensures |s.liveTimers| <= 1
  {
    if s.longWaitTimer.Some? {
      var t := s.longWaitTimer.value;
      assert s.liveTimers == {} || s.liveTimers == {t};
    }
  }

  /** Starting a submission: loading, no error, snackbar closed, details recorded, and
      exactly one pending timer, the new one; the previous one no longer pending. */
  lemma SubmitStarts(s: PageState, details: TravelDetails)
    requires Valid(s)
    ensures Valid(AfterSubmit(s, details))
    ensures AfterSubmit(s, details).isLoading && AfterSubmit(s, details).error.None?
    ensures !AfterSubmit(s, details).openSnackbar
    ensures AfterSubmit(s, details).travelDetails == Some(details)
    ensures AfterSubmit(s, details).longWaitTimer.Some?
    ensures AfterSubmit(s, details).liveTimers == {AfterSubmit(s, details).longWaitTimer.value}
    ensures s.longWaitTimer.Some? ==> s.longWaitTimer.value !in AfterSubmit(s, details).liveTimers
  {
  }

  /** Every exit from `handleSubmit`: not loading, hint hidden, no timer held or pending,
      no controller. */
  lemma FinallyCleansUp(s: PageState)
    requires Valid(s) && s.inFlight > 0
    ensures !AfterFinally(s).isLoading && !AfterFinally(s).showLongWait
    ensures AfterFinally(s).longWaitTimer.None? && AfterFinally(s).liveTimers == {}
    ensures AfterFinally(s).abortController.None?
  {
  }

  /** A resolved call stores its plan and cleans up; errors and the snackbar stay as they
      were. */
  lemma SuccessStoresPlan(s: PageState, plan: string)
    requires Valid(s) && s.inFlight > 0
    ensures Valid(AfterSuccess(s, plan))
    ensures AfterSuccess(s, plan).travelPlan == Some(plan)
    ensures AfterSuccess(s, plan).error == s.error
    ensures !AfterSuccess(s, plan).isLoading && AfterSuccess(s, plan).liveTimers == {}
    ensures AfterSuccess(s, plan).abortController.None?
  {
  }

  /** A failed call shows one of the three messages in an open snackbar, and cleans up. */
  lemma FailureShowsOneMessage(s: PageState, message: string)
    requires Valid(s) && s.inFlight > 0
    ensures Valid(AfterFailure(s, message))
    ensures AfterFailure(s, message).openSnackbar
    ensures AfterFailure(s, message).error == Some(ClassifyFailure(message))
    ensures ClassifyFailure(message) in {AbortedMessage, TimedOutMessage, GenericFailureMessage}
    ensures !AfterFailure(s, message).isLoading && AfterFailure(s, message).liveTimers == {}
    ensures AfterFailure(s, message).travelPlan == s.travelPlan
  {
  }

  /** Without a controller, aborting changes nothing (the invariant already has no timer
      held then); with one, it aborts that controller's signal, stops the spinner, hides the
      hint and reports the abort, but leaves the call in flight. */
  lemma AbortEffect(s: PageState)
    requires Valid(s)
    ensures Valid(AfterAbort(s))
    ensures s.abortController.None? ==> AfterAbort(s) == s
    ensures s.abortController.Some? ==>
      && !AfterAbort(s).isLoading && !AfterAbort(s).showLongWait
      && AfterAbort(s).openSnackbar && AfterAbort(s).error == Some(AbortedMessage)
      && AfterAbort(s).longWaitTimer.None? && AfterAbort(s).liveTimers == {}
    ensures s.abortController.Some? ==> s.abortController.value in AfterAbort(s).abortedSignals
    ensures AfterAbort(s).inFlight == s.inFlight
    ensures AfterAbort(s).travelPlan == s.travelPlan
  {
  }

  /** Without a controller, aborting touches only the timer ref and the timer it held,
      whatever else the state holds. */
  lemma AbortWithoutController(s: PageState)
    requires s.abortController.None?
    ensures AfterAbort(s) == ClearLongWaitTimer(s)
    ensures AfterAbort(s).(longWaitTimer := s.longWaitTimer, liveTimers := s.liveTimers) == s
  {
  }

  /** Pressing abort twice has the effect of pressing it once. */
  lemma AbortIdempotent(s: PageState)
    ensures AfterAbort(AfterAbort(s)) == AfterAbort(s)
  {
  }

  /** The awaited call never sees the abort signal: if it resolves after an abort, its
      plan is still stored (next to the "aborted" message). */
  lemma AbortDoesNotCancel(s: PageState, plan: string)
    requires Valid(s) && s.inFlight > 0
    ensures AfterAbort(s).inFlight > 0
    ensures AfterSuccess(AfterAbort(s), plan).travelPlan == Some(plan)
    ensures s.abortController.Some? ==>
      AfterSuccess(AfterAbort(s), plan).error == Some(AbortedMessage)
  {
  }

  /** Reset clears the plan and the details and nothing else. */
  lemma ResetOnlyClearsResult(s: PageState)
    ensures AfterReset(s).travelPlan.None? && AfterReset(s).travelDetails.None?
    ensures AfterReset(s).(travelPlan := s.travelPlan, travelDetails := s.travelDetails) == s
  {
  }

  /** Every event that can happen keeps the page valid. */
  lemma StepKeepsValid(s: PageState, e: Event)
    requires Valid(s) && CanHappen(s, e)
    ensures Valid(Step(s, e))
  {
  }

  /** Any sequence of events that can happen, from a valid page, ends on a valid page;
      in particular at most one long-wait timer is ever pending. */
  lemma {:induction false} RunKeepsValid(s: PageState, events: seq<Event>)
    requires Valid(s)
    ensures Run(s, events).Some? ==> Valid(Run(s, events).value)
    ensures Run(s, events).Some? ==> |Run(s, events).value.liveTimers| <= 1
    decreases |events|
  {
    if events == [] {
      AtMostOneTimer(s);
    } else if CanHappen(s, events[0]) {
      StepKeepsValid(s, events[0]);
      RunKeepsValid(Step(s, events[0]), events[1..]);
    }
  }

  /** The page component. Each handler writes the fields the source's handler sets, and
      leaves the page in the state the matching transition function describes. */
  class HomePage {
    var isLoading: bool
    var error: Option<string>
    var openSnackbar: bool
    var travelPlan: Option<string>
    var travelDetails: Option<TravelDetails>
    var abortController: Option<nat>
    var abortedSignals: set<nat>
    var showLongWait: bool
    var longWaitTimer: Option<nat>
    var liveTimers: set<nat>
    var nextController: nat
    var nextTimer: nat
    var inFlight: nat

    function State(): PageState
      reads this
    {
      PageState(isLoading, error, openSnackbar, travelPlan, travelDetails, abortController,
                abortedSignals, showLongWait, longWaitTimer, liveTimers, nextController,
                nextTimer, inFlight)
    }

    constructor ()
      ensures State() == InitialState && Valid(State())
    {
      isLoading, error, openSnackbar := false, None, false;
      travelPlan, travelDetails := None, None;
      abortController, abortedSignals := None, {};
      showLongWait, longWaitTimer, liveTimers := false, None, {};
      nextController, nextTimer, inFlight := 0, 0, 0;
    }

    /** `if (longWaitTimerRef.current) { clearTimeout(…); longWaitTimerRef.current = null; }` */
    method ClearTimerRef()
      modifies this`liveTimers, this`longWaitTimer
      ensures State() == ClearLongWaitTimer(old(State()))
    {
      if longWaitTimer.Some? {
        liveTimers := liveTimers - {longWaitTimer.value};
        longWaitTimer := None;
      }
    }

    /** `handleSubmit(details)` up to the awaited call. */
    method HandleSubmit(details: TravelDetails)
      requires Valid(State())
      modifies this
      ensures State() == AfterSubmit(old(State()), details) && Valid(State())
    {
      SubmitStarts(State(), details);
      isLoading := true;
      error := None;
      travelDetails := Some(details);
      openSnackbar := false;
      abortController := Some(nextController);
      nextController := nextController + 1;
      if longWaitTimer.Some? {
        liveTimers := liveTimers - {longWaitTimer.value};
      }
      longWaitTimer := Some(nextTimer);
      liveTimers := liveTimers + {nextTimer};
      nextTimer := nextTimer + 1;
      inFlight := inFlight + 1;
    }

    /** The `finally` block. */
    method Finally()
      requires inFlight > 0
      modifies this
      ensures State() == AfterFinally(old(State()))
    {
      isLoading := false;
      showLongWait := false;
      ClearTimerRef();
      abortController := None;
      inFlight := inFlight - 1;
    }

    /** The awaited call resolves with `plan`: `setTravelPlan(plan)`, then `finally`. */
    method SubmitSucceeded(plan: string)
      requires Valid(State()) && inFlight > 0
      modifies this
      ensures State() == AfterSuccess(old(State()), plan) && Valid(State())
    {
      SuccessStoresPlan(State(), plan);
      travelPlan := Some(plan);
      Finally();
    }

    /** The awaited call throws an error whose message is `message`: the catch block, then
        `finally`. */
    method SubmitFailed(message: string)
      requires Valid(State()) && inFlight > 0
      modifies this
      ensures State() == AfterFailure(old(State()), message) && Valid(State())
    {
      FailureShowsOneMessage(State(), message);
      error := Some(ClassifyFailure(message));
      openSnackbar := true;
      Finally();
    }

    /** `handleAbort` */
    method HandleAbort()
      requires Valid(State())
      modifies this
      ensures State() == AfterAbort(old(State())) && Valid(State())
    {
      AbortEffect(State());
      if abortController.Some? {
        abortedSignals := abortedSignals + {abortController.value};
        isLoading := false;
        showLongWait := false;
        openSnackbar := true;
        error := Some(AbortedMessage);
      }
      ClearTimerRef();
    }

    /** The pending long-wait timer `t` fires: `setShowLongWait(true)`. */
    method LongWaitElapsed(t: nat)
      requires Valid(State()) && t in liveTimers
      modifies this
      ensures State() == AfterLongWait(old(State()), t) && Valid(State())
    {
      StepKeepsValid(State(), LongWaitFired(t));
      liveTimers := liveTimers - {t};
      showLongWait := true;
    }

    /** `handleReset` */
    method HandleReset()
      requires Valid(State())
      modifies this
      ensures State() == AfterReset(old(State())) && Valid(State())
    {
      travelPlan := None;
      travelDetails := None;
    }

    /** The snackbar's `onClose`. */
    method CloseSnackbar()
      requires Valid(State())
      modifies this
      ensures State() == AfterSnackbarClose(old(State())) && Valid(State())
    {
      openSnackbar := false;
    }
  }
}
