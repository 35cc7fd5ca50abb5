/**
 * The healing orchestrator: try the original locator, then the
 * deterministic fallbacks, then AI suggestions, then report failure.
 *
 * The device driver is a value of oracles (which locators resolve, whether
 * page source, capabilities and screenshots can be fetched); the AI
 * suggestions are an input list, already ranked. Sleeps are recorded as the
 * list of delays requested, driver calls as the list of calls made, and log
 * calls as the changes to the `HealingLogger` object.
 */
module ElementHealer {
  import opened Wrappers
  import opened JsString
  import opened Strategies
  import opened Config
  import opened Logger

  datatype FindOutcome = Found(handle: nat) | NotFound(message: string)

  /**
   * The driver session as seen by the healer: the locators that resolve, with
   * the element each finds; the message of a failed lookup; and whether page
   * source, the platform name (from the capabilities) and a screenshot can be
   * fetched.
   */
  datatype Driver = Driver(
    elements: map<(string, string), nat>,
    failureMessage: string,
    pageSource: Result<string>,
    platformName: Result<Option<string>>,
    screenshot: Result<string>)

  /** driver.findElement: the element a locator resolves to, or the lookup's error. */
  function Find(d: Driver, strategy: string, selector: string): FindOutcome {
    if (strategy, selector) in d.elements then Found(d.elements[(strategy, selector)]) else NotFound(d.failureMessage)
  }

  /** An AI suggestion; `confidence` is the number as a template literal prints it. */
  datatype AILocatorSuggestion = AILocatorSuggestion(strategy: string, selector: string, confidence: string, reasoning: string)

  datatype DriverCall = FindCall(strategy: string, selector: string) | PageSourceCall | CapabilitiesCall | ScreenshotCall

  /** HealingResult without the elapsed time. */
  datatype HealingResult = HealingResult(
    success: bool,
    element: Option<nat>,
    strategyUsed: Option<string>,
    selectorUsed: Option<string>,
    attemptCount: int,
    healingPath: seq<string>)

  /** How a call ends: a returned result or a thrown error with its message. */
  datatype Outcome = Returned(result: HealingResult) | Thrown(message: string)

  /** 2 to the power n. */
  function Pow2(n: nat): (r: nat)
    ensures r >= 1
  {
    if n == 0 then 1 else 2 * Pow2(n - 1)
  }

  /** `baseDelay` doubled `n` times. */
  function Doubled(baseDelay: int, n: nat): int {
    if n == 0 then baseDelay else 2 * Doubled(baseDelay, n - 1)
  }

  /** getRetryDelay: the base delay, doubled for every attempt after the first under exponential backoff. */
  function GetRetryDelay(attempt: int, baseDelay: int, useExponential: bool): int
    requires attempt >= 1
  {
    if !useExponential then baseDelay else Doubled(baseDelay, attempt - 1)
  }

  /** The delay is `baseDelay * 2^(attempt - 1)` under backoff, `baseDelay` otherwise. */
  lemma {:induction false} RetryDelayFormula(attempt: int, baseDelay: int, useExponential: bool)
    requires attempt >= 1
    ensures GetRetryDelay(attempt, baseDelay, useExponential)
            == if useExponential then baseDelay * Pow2(attempt - 1) else baseDelay
    decreases attempt
  {
    if useExponential && attempt > 1 {
      RetryDelayFormula(attempt - 1, baseDelay, true);
      assert Doubled(baseDelay, attempt - 1) == 2 * Doubled(baseDelay, attempt - 2);
      assert Pow2(attempt - 1) == 2 * Pow2(attempt - 2);
      assert baseDelay * (2 * Pow2(attempt - 2)) == 2 * (baseDelay * Pow2(attempt - 2));
    }
  }

  /** Each backoff delay is twice the previous one; without backoff they are all equal. */
  lemma RetryDelayLaw(attempt: int, baseDelay: int)
    requires attempt >= 1
    ensures GetRetryDelay(attempt + 1, baseDelay, false) == GetRetryDelay(attempt, baseDelay, false)
    ensures GetRetryDelay(1, baseDelay, true) == baseDelay
    ensures GetRetryDelay(attempt + 1, baseDelay, true) == 2 * GetRetryDelay(attempt, baseDelay, true)
  {
  }

  lemma RetryDelayExample()
    ensures GetRetryDelay(3, 1000, true) == 4000
  {
  }

  // ---------------------------------------------------------------------
  // The pieces of the expected behaviour
  // ---------------------------------------------------------------------

  /** The fixed inputs of one call. */
  datatype Request = Request(
    strategy: string,
    selector: string,
    description: Option<string>,
    ai: seq<AILocatorSuggestion>,
    elapsedMs: nat)

  function OriginalEntry(strategy: string, selector: string): string {
    "Original: " + strategy + "=" + selector
  }

  function AttemptEntry(attempt: nat, c: LocatorStrategy): string {
    "Attempt " + NatToString(attempt) + ": " + c.strategy + "=" + c.selector
  }

  const AIEntry := "AI-powered healing with Gemini Flash"

  function SuggestionEntry(i: nat, s: AILocatorSuggestion): string {
    "AI Suggestion " + NatToString(i + 1) + ": " + s.strategy + "=" + s.selector + " (confidence: " + s.confidence + ")"
  }

  /** The platform is iOS exactly when its lower-cased name is `ios`. */
  predicate IsIOS(platformName: Option<string>) {
    platformName.Some? && ToLower(platformName.value) == "ios"
  }

  function Candidates(platformName: Option<string>, strategy: string, selector: string, pageSource: string): seq<LocatorStrategy> {
    if IsIOS(platformName) then GenerateIOSFallbackLocators(strategy, selector)
    else GenerateFallbackLocators(strategy, selector, pageSource)
  }

  /** A page source that cannot be fetched is treated as empty. */
  function PageSourceOrEmpty(d: Driver): string {
    if d.pageSource.Ok? then d.pageSource.value else ""
  }

  /** The number of loop iterations `maxRetries` allows. */
  function Budget(cfg: HealingConfig): nat {
    if cfg.maxRetries < 0 then 0 else cfg.maxRetries
  }

  function Min(a: nat, b: nat): nat {
    if a <= b then a else b
  }

  function Pairs(fl: seq<LocatorStrategy>): (r: seq<(string, string)>)
    ensures |r| == |fl|
    ensures forall i :: 0 <= i < |fl| ==> r[i] == (fl[i].strategy, fl[i].selector)
  {
    if fl == [] then [] else [(fl[0].strategy, fl[0].selector)] + Pairs(fl[1..])
  }

  function SuggestionPairs(ai: seq<AILocatorSuggestion>): (r: seq<(string, string)>)
    ensures |r| == |ai|
    ensures forall i :: 0 <= i < |ai| ==> r[i] == (ai[i].strategy, ai[i].selector)
  {
    if ai == [] then [] else [(ai[0].strategy, ai[0].selector)] + SuggestionPairs(ai[1..])
  }

  /** The first index below `n` (and inside `locs`), from `i` on, whose locator resolves. */
  function FirstFoundFrom(d: Driver, locs: seq<(string, string)>, n: nat, i: nat): (r: Option<nat>)
    decreases n - i
    ensures r.Some? ==> i <= r.value < n && r.value < |locs| && Find(d, locs[r.value].0, locs[r.value].1).Found?
  {
    if i >= n || i >= |locs| then None
    else if Find(d, locs[i].0, locs[i].1).Found? then Some(i)
    else FirstFoundFrom(d, locs, n, i + 1)
  }

  /** The search answers the first resolving position: none before it resolves, and none at all when it finds nothing. */
  lemma {:induction false} FirstFoundIsFirst(d: Driver, locs: seq<(string, string)>, n: nat, i: nat)
    ensures var r := FirstFoundFrom(d, locs, n, i);
      (r.Some? ==> forall j :: i <= j < r.value ==> Find(d, locs[j].0, locs[j].1).NotFound?) &&
      (r.None? ==> forall j :: i <= j < n && j < |locs| ==> Find(d, locs[j].0, locs[j].1).NotFound?)
    decreases n - i
  {
    if i < n && i < |locs| && !Find(d, locs[i].0, locs[i].1).Found? {
      FirstFoundIsFirst(d, locs, n, i + 1);
    }
  }

  /** Raising the bound by one position adds that position if it resolves. */
  lemma {:induction false} FirstFoundExtend(d: Driver, locs: seq<(string, string)>, n: nat, i: nat)
    requires i <= n < |locs|
    requires FirstFoundFrom(d, locs, n, i).None?
    ensures FirstFoundFrom(d, locs, n + 1, i) == (if Find(d, locs[n].0, locs[n].1).Found? then Some(n) else None)
    decreases n - i
  {
    if i < n {
      FirstFoundExtend(d, locs, n, i + 1);
    }
  }

  /** A hit below one bound is the hit below any larger bound. */
  lemma {:induction false} FirstFoundRaise(d: Driver, locs: seq<(string, string)>, n: nat, n': nat, i: nat)
    requires n <= n'
    requires FirstFoundFrom(d, locs, n, i).Some?
    ensures FirstFoundFrom(d, locs, n', i) == FirstFoundFrom(d, locs, n, i)
    decreases n - i
  {
    if !Find(d, locs[i].0, locs[i].1).Found? {
      FirstFoundRaise(d, locs, n, n', i + 1);
    }
  }

  /** Bounds past the end of the list all give the same answer. */
  lemma {:induction false} FirstFoundPastEnd(d: Driver, locs: seq<(string, string)>, n: nat, i: nat)
    requires |locs| <= n
    ensures FirstFoundFrom(d, locs, n, i) == FirstFoundFrom(d, locs, |locs|, i)
    decreases n - i
  {
    if i < |locs| && !Find(d, locs[i].0, locs[i].1).Found? {
      FirstFoundPastEnd(d, locs, n, i + 1);
    }
  }

  // Each accumulator below extends a given base, one step per loop iteration.

  /** The delays slept for attempts 1..n. */
  function Delays(cfg: HealingConfig, n: nat): (r: seq<int>)
    ensures |r| == n
  {
    if n == 0 then [] else Delays(cfg, n - 1) + [GetRetryDelay(n, cfg.retryDelayMs, cfg.useExponentialBackoff)]
  }

  /** `path` followed by the entries of attempts 1..n. */
  function WithAttemptEntries(path: seq<string>, fl: seq<LocatorStrategy>, n: nat): (r: seq<string>)
    requires n <= |fl|
    ensures |r| == |path| + n
  {
    if n == 0 then path else WithAttemptEntries(path, fl, n - 1) + [AttemptEntry(n, fl[n - 1])]
  }

  /** `path` followed by the entries of suggestions 1..n. */
  function WithSuggestionEntries(path: seq<string>, ai: seq<AILocatorSuggestion>, n: nat): (r: seq<string>)
    requires n <= |ai|
    ensures |r| == |path| + n
  {
    if n == 0 then path else WithSuggestionEntries(path, ai, n - 1) + [SuggestionEntry(n - 1, ai[n - 1])]
  }

  /** `calls` followed by lookups of the first n locators. */
  function WithFindCalls(calls: seq<DriverCall>, locs: seq<(string, string)>, n: nat): (r: seq<DriverCall>)
    requires n <= |locs|
    ensures |r| == |calls| + n
  {
    if n == 0 then calls else WithFindCalls(calls, locs, n - 1) + [FindCall(locs[n - 1].0, locs[n - 1].1)]
  }

  function FallbackEvent(req: Request, reason: string, attempt: nat, c: LocatorStrategy, success: bool): HealingEvent {
    HealingEvent(req.strategy, req.selector, reason, attempt, c.strategy, Some(c.selector), success, req.elapsedMs, false)
  }

  function AIEvent(req: Request, reason: string, cfg: HealingConfig, i: nat, success: bool): HealingEvent
    requires i < |req.ai|
  {
    HealingEvent(req.strategy, req.selector, reason, cfg.maxRetries + i + 1, req.ai[i].strategy, Some(req.ai[i].selector), success, req.elapsedMs, true)
  }

  function FinalEvent(req: Request, reason: string, cfg: HealingConfig): HealingEvent {
    HealingEvent(req.strategy, req.selector, reason, cfg.maxRetries, "none", None, false, req.elapsedMs, cfg.enableAIFallback)
  }

  /** The logger after failed fallback attempts 1..n (logged only when the configuration asks). */
  function FallbackLog(cfg: HealingConfig, req: Request, reason: string, fl: seq<LocatorStrategy>, n: nat, st: LogState): LogState
    requires n <= |fl|
  {
    if n == 0 then st
    else
      var prev := FallbackLog(cfg, req, reason, fl, n - 1, st);
      if cfg.logHealingAttempts then AttemptLogged(prev, FallbackEvent(req, reason, n, fl[n - 1], false)) else prev
  }

  /** The logger after failed AI suggestions 1..n. */
  function AILog(cfg: HealingConfig, req: Request, reason: string, n: nat, st: LogState): LogState
    requires n <= |req.ai|
  {
    if n == 0 then st
    else
      var prev := AILog(cfg, req, reason, n - 1, st);
      if cfg.logHealingAttempts then AttemptLogged(prev, AIEvent(req, reason, cfg, n - 1, false)) else prev
  }

  /** The logger after failed fallback attempts 1..k and a successful attempt k+1. */
  function FallbackHitLog(cfg: HealingConfig, req: Request, reason: string, fl: seq<LocatorStrategy>, k: nat, st: LogState): LogState
    requires k < |fl|
  {
    if cfg.logHealingAttempts then SuccessLogged(FallbackLog(cfg, req, reason, fl, k, st), FallbackEvent(req, reason, k + 1, fl[k], true))
    else FallbackLog(cfg, req, reason, fl, k, st)
  }

  /** The logger after failed AI suggestions 1..i and a successful suggestion i+1. */
  function AIHitLog(cfg: HealingConfig, req: Request, reason: string, i: nat, st: LogState): LogState
    requires i < |req.ai|
  {
    if cfg.logHealingAttempts then SuccessLogged(AILog(cfg, req, reason, i, st), AIEvent(req, reason, cfg, i, true))
    else AILog(cfg, req, reason, i, st)
  }

  /** What one call does: its outcome, the delays it sleeps, the driver calls it makes
      and the logger state it leaves. */
  datatype Trace = Trace(outcome: Outcome, delays: seq<int>, calls: seq<DriverCall>, log: LogState)

  /** The failure result once every tier is exhausted. */
  function Exhausted(cfg: HealingConfig, req: Request, reason: string, path: seq<string>, delays: seq<int>,
                     calls: seq<DriverCall>, st: LogState): Trace {
    Trace(Returned(HealingResult(false, None, None, None, cfg.maxRetries + 1, path)),
          delays, calls,
          if cfg.logHealingAttempts then FailureLogged(st, FinalEvent(req, reason, cfg)) else st)
  }

  predicate AIApplies(cfg: HealingConfig, req: Request) {
    cfg.enableAIFallback && req.description.Some? && req.description.value != ""
  }

  /** The AI tier: a screenshot, then at most three suggestions in order. */
  function AIPhase(cfg: HealingConfig, d: Driver, req: Request, reason: string,
                   path: seq<string>, delays: seq<int>, calls: seq<DriverCall>, st: LogState): Trace
  {
    var path2 := path + [AIEntry];
    var calls2 := calls + [ScreenshotCall];
    if d.screenshot.Err? then Exhausted(cfg, req, reason, path2, delays, calls2, st)
    else SuggestionTier(cfg, d, req, reason, path2, delays, calls2, st)
  }

  /** The suggestions, tried in order, at most three. */
  function SuggestionTier(cfg: HealingConfig, d: Driver, req: Request, reason: string,
                          path2: seq<string>, delays: seq<int>, calls2: seq<DriverCall>, st: LogState): Trace
  {
    var locs := SuggestionPairs(req.ai);
    match FirstFoundFrom(d, locs, 3, 0)
    case Some(i) =>
      var s := req.ai[i];
      Trace(Returned(HealingResult(true, Some(Find(d, s.strategy, s.selector).handle), Some(s.strategy), Some(s.selector),
                                   cfg.maxRetries + i + 2, WithSuggestionEntries(path2, req.ai, i + 1))),
            delays, WithFindCalls(calls2, locs, i + 1),
            AIHitLog(cfg, req, reason, i, st))
    case None =>
      var n := Min(3, |req.ai|);
      Exhausted(cfg, req, reason, WithSuggestionEntries(path2, req.ai, n), delays, WithFindCalls(calls2, locs, n),
                AILog(cfg, req, reason, n, st))
  }

  /** The state the suggestion loop leaves when suggestion `i` was found. */
  predicate SuggestionFound(cfg: HealingConfig, d: Driver, req: Request, reason: string,
                            path2: seq<string>, calls2: seq<DriverCall>, st: LogState, i: nat,
                            outcome: Outcome, calls1: seq<DriverCall>, st1: LogState)
  {
    && FirstFoundFrom(d, SuggestionPairs(req.ai), 3, 0) == Some(i)
    && i < |req.ai|
    && Find(d, req.ai[i].strategy, req.ai[i].selector).Found?
    && outcome == Returned(HealingResult(true, Some(Find(d, req.ai[i].strategy, req.ai[i].selector).handle),
                                         Some(req.ai[i].strategy), Some(req.ai[i].selector),
                                         cfg.maxRetries + i + 2, WithSuggestionEntries(path2, req.ai, i + 1)))
    && calls1 == WithFindCalls(calls2, SuggestionPairs(req.ai), i + 1)
    && st1 == AIHitLog(cfg, req, reason, i, st)
  }

  lemma SuggestionHitUnfolds(cfg: HealingConfig, d: Driver, req: Request, reason: string,
                             path2: seq<string>, delays: seq<int>, calls2: seq<DriverCall>, st: LogState, i: nat,
                             outcome: Outcome, calls1: seq<DriverCall>, st1: LogState)
    requires SuggestionFound(cfg, d, req, reason, path2, calls2, st, i, outcome, calls1, st1)
    ensures SuggestionTier(cfg, d, req, reason, path2, delays, calls2, st) == Trace(outcome, delays, calls1, st1)
  {
  }

  /** The state the suggestion loop leaves when no suggestion was found. */
  predicate SuggestionMissed(cfg: HealingConfig, d: Driver, req: Request, reason: string,
                             path2: seq<string>, calls2: seq<DriverCall>, st: LogState,
                             path1: seq<string>, calls1: seq<DriverCall>, st1: LogState)
  {
    var n := Min(3, |req.ai|);
    && FirstFoundFrom(d, SuggestionPairs(req.ai), 3, 0).None?
    && path1 == WithSuggestionEntries(path2, req.ai, n)
    && calls1 == WithFindCalls(calls2, SuggestionPairs(req.ai), n)
    && st1 == AILog(cfg, req, reason, n, st)
  }

  lemma SuggestionMissUnfolds(cfg: HealingConfig, d: Driver, req: Request, reason: string,
                              path2: seq<string>, delays: seq<int>, calls2: seq<DriverCall>, st: LogState,
                              path1: seq<string>, calls1: seq<DriverCall>, st1: LogState)
    requires SuggestionMissed(cfg, d, req, reason, path2, calls2, st, path1, calls1, st1)
    ensures SuggestionTier(cfg, d, req, reason, path2, delays, calls2, st) == Exhausted(cfg, req, reason, path1, delays, calls1, st1)
  {
  }

  /** The fallback tier and what follows it; `calls` are the calls made before it. */
  function FallbackPhase(cfg: HealingConfig, d: Driver, req: Request, reason: string, fl: seq<LocatorStrategy>,
                         calls: seq<DriverCall>, st: LogState): Trace
  {
    var m := Budget(cfg);
    var locs := Pairs(fl);
    var path0 := [OriginalEntry(req.strategy, req.selector)];
    match FirstFoundFrom(d, locs, m, 0)
    case Some(k) =>
      Trace(Returned(HealingResult(true, Some(Find(d, fl[k].strategy, fl[k].selector).handle), Some(fl[k].strategy), Some(fl[k].selector),
                                   k + 2, WithAttemptEntries(path0, fl, k + 1))),
            Delays(cfg, k + 1), WithFindCalls(calls, locs, k + 1),
            FallbackHitLog(cfg, req, reason, fl, k, st))
    case None =>
      var tried := Min(m, |fl|);
      var delays := Delays(cfg, if m <= |fl| then m else |fl| + 1);
      var path := WithAttemptEntries(path0, fl, tried);
      var calls1 := WithFindCalls(calls, locs, tried);
      AfterFallbacks(cfg, d, req, reason, path, delays, calls1, FallbackLog(cfg, req, reason, fl, tried, st))
  }

  lemma ExpectedReachesFallbacks(cfg: HealingConfig, d: Driver, req: Request, st: LogState)
    requires Find(d, req.strategy, req.selector).NotFound? && cfg.maxRetries != 0 && d.platformName.Ok?
    ensures Expected(cfg, Some(d), req, st)
         == FallbackPhase(cfg, d, req, Find(d, req.strategy, req.selector).message,
                          Candidates(d.platformName.value, req.strategy, req.selector, PageSourceOrEmpty(d)),
                          [FindCall(req.strategy, req.selector)] + [PageSourceCall, CapabilitiesCall], st)
  {
  }

  /** The state the retry loop leaves when fallback locator `k` was found as element `h`. */
  predicate FallbackFound(cfg: HealingConfig, d: Driver, req: Request, reason: string, fl: seq<LocatorStrategy>,
                          calls: seq<DriverCall>, st: LogState, k: nat, h: nat,
                          path1: seq<string>, delays1: seq<int>, calls1: seq<DriverCall>, st1: LogState)
  {
    && FirstFoundFrom(d, Pairs(fl), Budget(cfg), 0) == Some(k)
    && k < |fl|
    && Find(d, fl[k].strategy, fl[k].selector) == Found(h)
    && path1 == WithAttemptEntries([OriginalEntry(req.strategy, req.selector)], fl, k + 1)
    && delays1 == Delays(cfg, k + 1)
    && calls1 == WithFindCalls(calls, Pairs(fl), k + 1)
    && st1 == FallbackHitLog(cfg, req, reason, fl, k, st)
  }

  lemma FallbackHitUnfolds(cfg: HealingConfig, d: Driver, req: Request, reason: string, fl: seq<LocatorStrategy>,
                           calls: seq<DriverCall>, st: LogState, k: nat, h: nat,
                           path1: seq<string>, delays1: seq<int>, calls1: seq<DriverCall>, st1: LogState)
    requires FallbackFound(cfg, d, req, reason, fl, calls, st, k, h, path1, delays1, calls1, st1)
    ensures FallbackPhase(cfg, d, req, reason, fl, calls, st)
         == Trace(Returned(HealingResult(true, Some(h), Some(fl[k].strategy), Some(fl[k].selector), k + 2, path1)), delays1, calls1, st1)
  {
  }

  /** The state the retry loop leaves when no fallback locator was found. */
  predicate FallbackMissed(cfg: HealingConfig, d: Driver, req: Request, reason: string, fl: seq<LocatorStrategy>,
                           calls: seq<DriverCall>, st: LogState,
                           path1: seq<string>, delays1: seq<int>, calls1: seq<DriverCall>, st1: LogState)
  {
    var tried := Min(Budget(cfg), |fl|);
    && FirstFoundFrom(d, Pairs(fl), Budget(cfg), 0).None?
    && path1 == WithAttemptEntries([OriginalEntry(req.strategy, req.selector)], fl, tried)
    && delays1 == Delays(cfg, if Budget(cfg) <= |fl| then Budget(cfg) else |fl| + 1)
    && calls1 == WithFindCalls(calls, Pairs(fl), tried)
    && st1 == FallbackLog(cfg, req, reason, fl, tried, st)
  }

  lemma FallbackMissUnfolds(cfg: HealingConfig, d: Driver, req: Request, reason: string, fl: seq<LocatorStrategy>,
                            calls: seq<DriverCall>, st: LogState,
                            path1: seq<string>, delays1: seq<int>, calls1: seq<DriverCall>, st1: LogState)
    requires FallbackMissed(cfg, d, req, reason, fl, calls, st, path1, delays1, calls1, st1)
    ensures FallbackPhase(cfg, d, req, reason, fl, calls, st) == AfterFallbacks(cfg, d, req, reason, path1, delays1, calls1, st1)
  {
  }

  /** After the fallbacks failed: the AI tier when it applies, otherwise the conclusion. */
  function AfterFallbacks(cfg: HealingConfig, d: Driver, req: Request, reason: string,
                          path: seq<string>, delays: seq<int>, calls: seq<DriverCall>, st: LogState): Trace
  {
    if AIApplies(cfg, req) then AIPhase(cfg, d, req, reason, path, delays, calls, st)
    else Exhausted(cfg, req, reason, path, delays, calls, st)
  }

  /** The complete expected behaviour of findElementWithHealing under configuration `cfg`,
      starting from logger state `st`. */
  function Expected(cfg: HealingConfig, session: Option<Driver>, req: Request, st: LogState): Trace {
    if session.None? then Trace(Thrown("No active driver session"), [], [], st)
    else
      var d := session.value;
      var c0 := [FindCall(req.strategy, req.selector)];
      match Find(d, req.strategy, req.selector)
      case Found(h) =>
        Trace(Returned(HealingResult(true, Some(h), Some(req.strategy), Some(req.selector), 1, [OriginalEntry(req.strategy, req.selector)])),
              [], c0, st)
      case NotFound(reason) =>
        if cfg.maxRetries == 0 then Trace(Thrown(reason), [], c0, st)
        else
          var c1 := c0 + [PageSourceCall, CapabilitiesCall];
          match d.platformName
          case Err(e) => Trace(Thrown(e), [], c1, st)
          case Ok(name) =>
            FallbackPhase(cfg, d, req, reason, Candidates(name, req.strategy, req.selector, PageSourceOrEmpty(d)), c1, st)
  }

  // ---------------------------------------------------------------------
  // The orchestrator
  // ---------------------------------------------------------------------

  /**
   * findElementWithHealing, with the configuration read from `store`, log
   * calls going to `logger`, the AI tier's answer given as `aiSuggestions` and
   * the elapsed time at every measurement given as `elapsedMs`.
   * Returns the outcome, the delays slept and the driver calls made.
   */
  method FindElementWithHealing(store: HealingConfigStore, logger: HealingLogger, session: Option<Driver>,
                                strategy: string, selector: string, elementDescription: Option<string>,
                                aiSuggestions: seq<AILocatorSuggestion>, elapsedMs: nat)
    returns (outcome: Outcome, delays: seq<int>, calls: seq<DriverCall>)
    modifies logger
    ensures Trace(outcome, delays, calls, LogState(logger.history, logger.sink))
         == Expected(store.current, session, Request(strategy, selector, elementDescription, aiSuggestions, elapsedMs), old(LogState(logger.history, logger.sink)))
  {
    var req := Request(strategy, selector, elementDescription, aiSuggestions, elapsedMs);
    var config := store.GetHealingConfig();
    var healingPath := [OriginalEntry(strategy, selector)];
    delays, calls := [], [];
    if session.None? {
      outcome := Thrown("No active driver session");
      return;
    }
    var driver := session.value;
    calls := calls + [FindCall(strategy, selector)];
    var first := Find(driver, strategy, selector);
    if first.Found? {
      outcome := Returned(HealingResult(true, Some(first.handle), Some(strategy), Some(selector), 1, healingPath));
      return;
    }
    var originalError := first.message;
    if config.maxRetries == 0 {
      outcome := Thrown(originalError);
      return;
    }
    calls := calls + [PageSourceCall];
    var pageSource := "";
    if driver.pageSource.Ok? {
      pageSource := driver.pageSource.value;
    }
    calls := calls + [CapabilitiesCall];
    if driver.platformName.Err? {
      outcome := Thrown(driver.platformName.error);
      return;
    }
    var fallbackLocators := ChooseFallbacks(driver.platformName.value, strategy, selector, pageSource);
    assert calls == [FindCall(strategy, selector)] + [PageSourceCall, CapabilitiesCall];
    ExpectedReachesFallbacks(config, driver, req, LogState(logger.history, logger.sink));
    outcome, delays, calls := HealWithFallbacks(logger, driver, config, req, originalError, fallbackLocators, calls);
  }

  /** The platform check and the choice of generator. */
  method ChooseFallbacks(platformName: Option<string>, strategy: string, selector: string, pageSource: string)
    returns (fallbackLocators: seq<LocatorStrategy>)
    ensures fallbackLocators == Candidates(platformName, strategy, selector, pageSource)
  {
    var platform := if platformName.Some? then Some(ToLower(platformName.value)) else None;
    if platform == Some("ios") {
      fallbackLocators := GenerateIOSFallbackLocators(strategy, selector);
    } else {
      fallbackLocators := GenerateFallbackLocators(strategy, selector, pageSource);
    }
  }

  /** The fallback tier: the retry loop, then the AI tier or the conclusion. */
  method HealWithFallbacks(logger: HealingLogger, driver: Driver, config: HealingConfig, req: Request, originalError: string,
                           fallbackLocators: seq<LocatorStrategy>, callsIn: seq<DriverCall>)
    returns (outcome: Outcome, delays: seq<int>, calls: seq<DriverCall>)
    modifies logger
    ensures Trace(outcome, delays, calls, LogState(logger.history, logger.sink))
         == FallbackPhase(config, driver, req, originalError, fallbackLocators, callsIn, old(LogState(logger.history, logger.sink)))
  {
    ghost var st0 := LogState(logger.history, logger.sink);
    var hit, k, element, healingPath;
    hit, k, element, healingPath, delays, calls := RetryFallbacks(logger, driver, config, req, originalError, fallbackLocators, callsIn);
    if hit {
      var locatorToTry := fallbackLocators[k];
      outcome := Returned(HealingResult(true, Some(element), Some(locatorToTry.strategy), Some(locatorToTry.selector),
                                        k + 2, healingPath));
      FallbackHitUnfolds(config, driver, req, originalError, fallbackLocators, callsIn, st0, k, element,
                         healingPath, delays, calls, LogState(logger.history, logger.sink));
      return;
    }
    FallbackMissUnfolds(config, driver, req, originalError, fallbackLocators, callsIn, st0,
                        healingPath, delays, calls, LogState(logger.history, logger.sink));
    outcome, calls := ContinueAfterFallbacks(logger, driver, config, req, originalError, healingPath, delays, calls);
  }

  /**
   * The retry loop over the fallback locators. On a hit (`hit`) locator `k` was
   * found as `element` (the result is built by the caller); otherwise the path, delays, calls and log are
   * those the loop leaves for the next tier.
   */
  method RetryFallbacks(logger: HealingLogger, driver: Driver, config: HealingConfig, req: Request, originalError: string,
                        fallbackLocators: seq<LocatorStrategy>, callsIn: seq<DriverCall>)
    returns (hit: bool, k: nat, element: nat, healingPath: seq<string>, delays: seq<int>, calls: seq<DriverCall>)
    modifies logger
    ensures hit ==> FallbackFound(config, driver, req, originalError, fallbackLocators, callsIn, old(LogState(logger.history, logger.sink)),
                                  k, element, healingPath, delays, calls, LogState(logger.history, logger.sink))
    ensures !hit ==> FallbackMissed(config, driver, req, originalError, fallbackLocators, callsIn, old(LogState(logger.history, logger.sink)),
                                    healingPath, delays, calls, LogState(logger.history, logger.sink))
  {
    ghost var fl := fallbackLocators;
    ghost var locs := Pairs(fl);
    ghost var m := Budget(config);
    ghost var st0 := LogState(logger.history, logger.sink);
    hit, k, element := false, 0, 0;
    healingPath := [OriginalEntry(req.strategy, req.selector)];
    ghost var path0 := healingPath;
    delays, calls := [], callsIn;
    var attempt := 1;
    ghost var broke := false;
    while attempt <= config.maxRetries
      invariant 1 <= attempt && attempt - 1 <= m && attempt - 1 <= |fl|
      invariant m == if config.maxRetries < 0 then 0 else config.maxRetries
      invariant FirstFoundFrom(driver, locs, attempt - 1, 0).None?
      invariant healingPath == WithAttemptEntries(path0, fl, attempt - 1)
      invariant delays == Delays(config, attempt - 1)
      invariant calls == WithFindCalls(callsIn, locs, attempt - 1)
      invariant LogState(logger.history, logger.sink) == FallbackLog(config, req, originalError, fl, attempt - 1, st0)
    {
      var delay := GetRetryDelay(attempt, config.retryDelayMs, config.useExponentialBackoff);
      delays := delays + [delay];
      if attempt - 1 >= |fallbackLocators| {
        assert Min(m, |fl|) == |fl| && m > |fl|;
        FirstFoundPastEnd(driver, locs, m, 0);
        assert delays == Delays(config, |fl| + 1);
        broke := true;
        break;
      }
      var locatorToTry := fallbackLocators[attempt - 1];
      var found;
      found, healingPath, calls := FallbackAttempt(logger, driver, config, req, originalError, fallbackLocators, attempt,
                                                   healingPath, calls, path0, callsIn, st0);
      if found.Found? {
        hit, k, element := true, attempt - 1, found.handle;
        return;
      }
      attempt := attempt + 1;
    }
    if !broke {
      assert attempt - 1 == m == Min(m, |fl|);
    }
  }

  /** The branch after the retry loop. */
  method ContinueAfterFallbacks(logger: HealingLogger, driver: Driver, config: HealingConfig, req: Request, originalError: string,
                                healingPath: seq<string>, ghost delays: seq<int>, callsIn: seq<DriverCall>)
    returns (outcome: Outcome, calls: seq<DriverCall>)
    modifies logger
    ensures Trace(outcome, delays, calls, LogState(logger.history, logger.sink)) == AfterFallbacks(config, driver, req, originalError, healingPath, delays, callsIn, old(LogState(logger.history, logger.sink)))
  {
    calls := callsIn;
    if config.enableAIFallback && req.description.Some? && req.description.value != "" {
      outcome, calls := HealWithAI(logger, driver, config, req, originalError, healingPath, delays, calls);
    } else {
      outcome := Conclude(logger, config, req, originalError, healingPath, delays, calls);
    }
  }

  /** The AI tier: a screenshot, then the suggestions. */
  method HealWithAI(logger: HealingLogger, driver: Driver, config: HealingConfig, req: Request, originalError: string,
                    pathIn: seq<string>, ghost delays: seq<int>, callsIn: seq<DriverCall>)
    returns (outcome: Outcome, calls: seq<DriverCall>)
    modifies logger
    ensures Trace(outcome, delays, calls, LogState(logger.history, logger.sink)) == AIPhase(config, driver, req, originalError, pathIn, delays, callsIn, old(LogState(logger.history, logger.sink)))
  {
    var healingPath := pathIn + [AIEntry];
    calls := callsIn + [ScreenshotCall];
    if driver.screenshot.Err? {
      outcome := Conclude(logger, config, req, originalError, healingPath, delays, calls);
    } else {
      outcome, calls := TrySuggestions(logger, driver, config, req, originalError, healingPath, delays, calls);
    }
  }

  /** The AI suggestions, then the conclusion when none was found. */
  method TrySuggestions(logger: HealingLogger, driver: Driver, config: HealingConfig, req: Request, originalError: string,
                        pathIn: seq<string>, ghost delays: seq<int>, callsIn: seq<DriverCall>)
    returns (outcome: Outcome, calls: seq<DriverCall>)
    modifies logger
    ensures Trace(outcome, delays, calls, LogState(logger.history, logger.sink)) == SuggestionTier(config, driver, req, originalError, pathIn, delays, callsIn, old(LogState(logger.history, logger.sink)))
  {
    ghost var st0 := LogState(logger.history, logger.sink);
    var hit, healingPath;
    ghost var i;
    hit, i, outcome, healingPath, calls := RetrySuggestions(logger, driver, config, req, originalError, pathIn, callsIn);
    if hit {
      SuggestionHitUnfolds(config, driver, req, originalError, pathIn, delays, callsIn, st0, i,
                           outcome, calls, LogState(logger.history, logger.sink));
      return;
    }
    SuggestionMissUnfolds(config, driver, req, originalError, pathIn, delays, callsIn, st0,
                          healingPath, calls, LogState(logger.history, logger.sink));
    outcome := Conclude(logger, config, req, originalError, healingPath, delays, calls);
  }

  /**
   * The loop over at most three AI suggestions. On a hit (`hit`) suggestion `i`
   * was found and the outcome is the AI tier's; otherwise the path, calls and
   * log are those the loop leaves for the conclusion.
   */
  method RetrySuggestions(logger: HealingLogger, driver: Driver, config: HealingConfig, req: Request, originalError: string,
                          pathIn: seq<string>, callsIn: seq<DriverCall>)
    returns (hit: bool, ghost i: nat, outcome: Outcome, healingPath: seq<string>, calls: seq<DriverCall>)
    modifies logger
    ensures hit ==> SuggestionFound(config, driver, req, originalError, pathIn, callsIn, old(LogState(logger.history, logger.sink)),
                                    i, outcome, calls, LogState(logger.history, logger.sink))
    ensures !hit ==> SuggestionMissed(config, driver, req, originalError, pathIn, callsIn, old(LogState(logger.history, logger.sink)),
                                      healingPath, calls, LogState(logger.history, logger.sink))
  {
    ghost var st0 := LogState(logger.history, logger.sink);
    var aiSuggestions := req.ai;
    ghost var locs := SuggestionPairs(aiSuggestions);
    hit, i, outcome := false, 0, Thrown(originalError);
    healingPath := pathIn;
    calls := callsIn;
    var j := 0;
    while j < Min(|aiSuggestions|, 3)
      invariant 0 <= j <= Min(|aiSuggestions|, 3)
      invariant FirstFoundFrom(driver, locs, j, 0).None?
      invariant healingPath == WithSuggestionEntries(pathIn, aiSuggestions, j)
      invariant calls == WithFindCalls(callsIn, locs, j)
      invariant LogState(logger.history, logger.sink) == AILog(config, req, originalError, j, st0)
    {
      var suggestion := aiSuggestions[j];
      var found;
      found, healingPath, calls := SuggestionAttempt(logger, driver, config, req, originalError, j,
                                                     healingPath, calls, pathIn, callsIn, st0);
      if found.Found? {
        hit, i := true, j;
        outcome := Returned(HealingResult(true, Some(found.handle), Some(suggestion.strategy), Some(suggestion.selector),
                                          config.maxRetries + j + 2, healingPath));
        return;
      }
      j := j + 1;
    }
    if |aiSuggestions| < 3 {
      FirstFoundPastEnd(driver, locs, 3, 0);
    }
  }

  /** Fallback attempt number `attempt`: the path entry, the event, the lookup and its log call. */
  method FallbackAttempt(logger: HealingLogger, driver: Driver, config: HealingConfig, req: Request, originalError: string,
                         fallbackLocators: seq<LocatorStrategy>, attempt: nat, pathIn: seq<string>, callsIn: seq<DriverCall>,
                         ghost path0: seq<string>, ghost calls0: seq<DriverCall>, ghost st0: LogState)
    returns (found: FindOutcome, healingPath: seq<string>, calls: seq<DriverCall>)
    requires 1 <= attempt <= |fallbackLocators|
    requires pathIn == WithAttemptEntries(path0, fallbackLocators, attempt - 1)
    requires callsIn == WithFindCalls(calls0, Pairs(fallbackLocators), attempt - 1)
    requires LogState(logger.history, logger.sink) == FallbackLog(config, req, originalError, fallbackLocators, attempt - 1, st0)
    requires attempt <= Budget(config) && FirstFoundFrom(driver, Pairs(fallbackLocators), attempt - 1, 0).None?
    modifies logger
    ensures found == Find(driver, fallbackLocators[attempt - 1].strategy, fallbackLocators[attempt - 1].selector)
    ensures found.Found? ==> FirstFoundFrom(driver, Pairs(fallbackLocators), Budget(config), 0) == Some(attempt - 1)
    ensures !found.Found? ==> FirstFoundFrom(driver, Pairs(fallbackLocators), attempt, 0).None?
    ensures healingPath == WithAttemptEntries(path0, fallbackLocators, attempt)
    ensures calls == WithFindCalls(calls0, Pairs(fallbackLocators), attempt)
    ensures LogState(logger.history, logger.sink)
         == if found.Found? then FallbackHitLog(config, req, originalError, fallbackLocators, attempt - 1, st0)
            else FallbackLog(config, req, originalError, fallbackLocators, attempt, st0)
  {
    var locatorToTry := fallbackLocators[attempt - 1];
    healingPath := pathIn + [AttemptEntry(attempt, locatorToTry)];
    var healingEvent := HealingEvent(req.strategy, req.selector, originalError, attempt, locatorToTry.strategy,
                                     Some(locatorToTry.selector), false, 0, false);
    assert healingEvent.(success := true, timeTakenMs := req.elapsedMs) == FallbackEvent(req, originalError, attempt, locatorToTry, true);
    assert healingEvent.(timeTakenMs := req.elapsedMs) == FallbackEvent(req, originalError, attempt, locatorToTry, false);
    calls := callsIn + [FindCall(locatorToTry.strategy, locatorToTry.selector)];
    found := TryLocator(logger, driver, config.logHealingAttempts, locatorToTry.strategy, locatorToTry.selector,
                        healingEvent, req.elapsedMs);
    FirstFoundExtend(driver, Pairs(fallbackLocators), attempt - 1, 0);
    if found.Found? {
      FirstFoundRaise(driver, Pairs(fallbackLocators), attempt, Budget(config), 0);
    }
  }

  /** AI suggestion number `i` + 1: the path entry, the event, the lookup and its log call. */
  method SuggestionAttempt(logger: HealingLogger, driver: Driver, config: HealingConfig, req: Request, originalError: string,
                           i: nat, pathIn: seq<string>, callsIn: seq<DriverCall>,
                           ghost path0: seq<string>, ghost calls0: seq<DriverCall>, ghost st0: LogState)
    returns (found: FindOutcome, healingPath: seq<string>, calls: seq<DriverCall>)
    requires i < |req.ai|
    requires pathIn == WithSuggestionEntries(path0, req.ai, i)
    requires callsIn == WithFindCalls(calls0, SuggestionPairs(req.ai), i)
    requires LogState(logger.history, logger.sink) == AILog(config, req, originalError, i, st0)
    requires i < 3 && FirstFoundFrom(driver, SuggestionPairs(req.ai), i, 0).None?
    modifies logger
    ensures found == Find(driver, req.ai[i].strategy, req.ai[i].selector)
    ensures found.Found? ==> FirstFoundFrom(driver, SuggestionPairs(req.ai), 3, 0) == Some(i)
    ensures !found.Found? ==> FirstFoundFrom(driver, SuggestionPairs(req.ai), i + 1, 0).None?
    ensures healingPath == WithSuggestionEntries(path0, req.ai, i + 1)
    ensures calls == WithFindCalls(calls0, SuggestionPairs(req.ai), i + 1)
    ensures LogState(logger.history, logger.sink)
         == if found.Found? then AIHitLog(config, req, originalError, i, st0)
            else AILog(config, req, originalError, i + 1, st0)
  {
    var suggestion := req.ai[i];
    healingPath := pathIn + [SuggestionEntry(i, suggestion)];
    var healingEvent := HealingEvent(req.strategy, req.selector, originalError, config.maxRetries + i + 1, suggestion.strategy,
                                     Some(suggestion.selector), false, 0, true);
    assert healingEvent.(success := true, timeTakenMs := req.elapsedMs) == AIEvent(req, originalError, config, i, true);
    assert healingEvent.(timeTakenMs := req.elapsedMs) == AIEvent(req, originalError, config, i, false);
    calls := callsIn + [FindCall(suggestion.strategy, suggestion.selector)];
    found := TryLocator(logger, driver, config.logHealingAttempts, suggestion.strategy, suggestion.selector,
                        healingEvent, req.elapsedMs);
    FirstFoundExtend(driver, SuggestionPairs(req.ai), i, 0);
    if found.Found? {
      FirstFoundRaise(driver, SuggestionPairs(req.ai), i + 1, 3, 0);
    }
  }

  /**
   * One try block of either loop: look the locator up; on success stamp the
   * event as successful and log it as a success, otherwise log it as an attempt
   * (logging only when `log` is set).
   */
  method TryLocator(logger: HealingLogger, driver: Driver, log: bool, strategy: string, selector: string,
                    healingEvent: HealingEvent, elapsedMs: nat)
    returns (found: FindOutcome)
    modifies logger
    ensures found == Find(driver, strategy, selector)
    ensures LogState(logger.history, logger.sink) ==
      (if !log then old(LogState(logger.history, logger.sink))
       else if found.Found? then SuccessLogged(old(LogState(logger.history, logger.sink)), healingEvent.(success := true, timeTakenMs := elapsedMs))
       else AttemptLogged(old(LogState(logger.history, logger.sink)), healingEvent.(timeTakenMs := elapsedMs)))
  {
    var event := healingEvent;
    found := Find(driver, strategy, selector);
    if found.Found? {
      event := event.(success := true, timeTakenMs := elapsedMs);
      if log {
        logger.LogHealingSuccess(event);
      }
    } else {
      event := event.(timeTakenMs := elapsedMs);
      if log {
        logger.LogHealingAttempt(event);
      }
    }
  }

  /** The final failure event and the failure result. */
  method Conclude(logger: HealingLogger, config: HealingConfig, req: Request, originalError: string, healingPath: seq<string>,
                  ghost delays: seq<int>, ghost calls: seq<DriverCall>)
    returns (outcome: Outcome)
    modifies logger
    ensures Trace(outcome, delays, calls, LogState(logger.history, logger.sink)) == Exhausted(config, req, originalError, healingPath, delays, calls, old(LogState(logger.history, logger.sink)))
  {
    var finalEvent := HealingEvent(req.strategy, req.selector, originalError, config.maxRetries, "none", None, false,
                                   req.elapsedMs, config.enableAIFallback);
    if config.logHealingAttempts {
      logger.LogHealingFailure(finalEvent);
    }
    outcome := Returned(HealingResult(false, None, None, None, config.maxRetries + 1, healingPath));
  }
}
