/**
 * What findElementWithHealing promises, proved of its model `Expected`:
 * a success reports the locator that found the element, a failure reports
 * maxRetries + 1 attempts and nothing else, the sleeps follow the retry
 * schedule, the AI tier runs only when enabled and described, and the
 * history only ever receives failed attempts.
 */
module HealerProperties {
  import opened Wrappers
  import opened Strategies
  import opened Config
  import opened Logger
  import opened ElementHealer

  /** A successful result names a locator, and the element is what that locator resolves to. */
  predicate ElementMatches(d: Driver, o: Outcome) {
    o.Returned? && o.result.success ==>
      && o.result.strategyUsed.Some? && o.result.selectorUsed.Some?
      && Find(d, o.result.strategyUsed.value, o.result.selectorUsed.value).Found?
      && o.result.element == Some(Find(d, o.result.strategyUsed.value, o.result.selectorUsed.value).handle)
  }

  /** A failed result has no element and no locator, and counts maxRetries + 1 attempts. */
  predicate FailureShape(cfg: HealingConfig, o: Outcome) {
    o.Returned? && !o.result.success ==>
      && o.result.element.None? && o.result.strategyUsed.None? && o.result.selectorUsed.None?
      && o.result.attemptCount == cfg.maxRetries + 1
  }

  /** From `st` to `st1` the history only grows, and only by failed attempts. */
  predicate HistoryGrowsByFailures(st: LogState, st1: LogState) {
    && |st.history| <= |st1.history|
    && st1.history[..|st.history|] == st.history
    && forall j :: |st.history| <= j < |st1.history| ==> !st1.history[j].success
  }

  /** The logger is left alone when logging is off. */
  predicate QuietUnlessLogging(cfg: HealingConfig, st: LogState, st1: LogState) {
    !cfg.logHealingAttempts ==> st1 == st
  }

  predicate LogSound(cfg: HealingConfig, st: LogState, st1: LogState) {
    HistoryGrowsByFailures(st, st1) && QuietUnlessLogging(cfg, st, st1)
  }

  /** Everything the lemmas below prove of one call's trace. */
  predicate Sound(cfg: HealingConfig, d: Driver, st: LogState, t: Trace) {
    ElementMatches(d, t.outcome) && FailureShape(cfg, t.outcome) && LogSound(cfg, st, t.log)
  }

  lemma LogSoundTransitive(cfg: HealingConfig, st0: LogState, st1: LogState, st2: LogState)
    requires LogSound(cfg, st0, st1) && LogSound(cfg, st1, st2)
    ensures LogSound(cfg, st0, st2)
  {
    assert st2.history[..|st0.history|] == st2.history[..|st1.history|][..|st0.history|];
  }

  /** One failed attempt logged when logging is on. */
  lemma AttemptStep(cfg: HealingConfig, st0: LogState, prev: LogState, e: HealingEvent)
    requires LogSound(cfg, st0, prev) && !e.success
    ensures LogSound(cfg, st0, if cfg.logHealingAttempts then AttemptLogged(prev, e) else prev)
  {
    if cfg.logHealingAttempts {
      var next := AttemptLogged(prev, e);
      assert next.history[..|prev.history|] == prev.history;
      LogSoundTransitive(cfg, st0, prev, next);
    }
  }

  lemma {:induction false} FallbackLogSound(cfg: HealingConfig, req: Request, reason: string, fl: seq<LocatorStrategy>,
                                            n: nat, st: LogState)
    requires n <= |fl|
    ensures LogSound(cfg, st, FallbackLog(cfg, req, reason, fl, n, st))
  {
    if n == 0 {
      assert st.history[..|st.history|] == st.history;
    } else {
      FallbackLogSound(cfg, req, reason, fl, n - 1, st);
      AttemptStep(cfg, st, FallbackLog(cfg, req, reason, fl, n - 1, st), FallbackEvent(req, reason, n, fl[n - 1], false));
    }
  }

  lemma {:induction false} AILogSound(cfg: HealingConfig, req: Request, reason: string, n: nat, st: LogState)
    requires n <= |req.ai|
    ensures LogSound(cfg, st, AILog(cfg, req, reason, n, st))
  {
    if n == 0 {
      assert st.history[..|st.history|] == st.history;
    } else {
      AILogSound(cfg, req, reason, n - 1, st);
      AttemptStep(cfg, st, AILog(cfg, req, reason, n - 1, st), AIEvent(req, reason, cfg, n - 1, false));
    }
  }

  lemma ExhaustedSound(cfg: HealingConfig, d: Driver, req: Request, reason: string, path: seq<string>,
                       delays: seq<int>, calls: seq<DriverCall>, st0: LogState, st: LogState)
    requires LogSound(cfg, st0, st)
    ensures Sound(cfg, d, st0, Exhausted(cfg, req, reason, path, delays, calls, st))
  {
    var t := Exhausted(cfg, req, reason, path, delays, calls, st);
    assert t.log.history == st.history;
  }

  lemma SuggestionTierSound(cfg: HealingConfig, d: Driver, req: Request, reason: string, path: seq<string>,
                            delays: seq<int>, calls: seq<DriverCall>, st0: LogState, st: LogState)
    requires LogSound(cfg, st0, st)
    ensures Sound(cfg, d, st0, SuggestionTier(cfg, d, req, reason, path, delays, calls, st))
  {
    var locs := SuggestionPairs(req.ai);
    match FirstFoundFrom(d, locs, 3, 0)
    case Some(i) =>
      assert locs[i] == (req.ai[i].strategy, req.ai[i].selector);
      AILogSound(cfg, req, reason, i, st);
      LogSoundTransitive(cfg, st0, st, AILog(cfg, req, reason, i, st));
      var t := SuggestionTier(cfg, d, req, reason, path, delays, calls, st);
      assert t.log.history == AILog(cfg, req, reason, i, st).history;
    case None =>
      var n := Min(3, |req.ai|);
      AILogSound(cfg, req, reason, n, st);
      LogSoundTransitive(cfg, st0, st, AILog(cfg, req, reason, n, st));
      ExhaustedSound(cfg, d, req, reason, WithSuggestionEntries(path, req.ai, n), delays, WithFindCalls(calls, locs, n),
                     st0, AILog(cfg, req, reason, n, st));
  }

  lemma AfterFallbacksSound(cfg: HealingConfig, d: Driver, req: Request, reason: string, path: seq<string>,
                            delays: seq<int>, calls: seq<DriverCall>, st0: LogState, st: LogState)
    requires LogSound(cfg, st0, st)
    ensures Sound(cfg, d, st0, AfterFallbacks(cfg, d, req, reason, path, delays, calls, st))
  {
    if AIApplies(cfg, req) {
      if d.screenshot.Err? {
        ExhaustedSound(cfg, d, req, reason, path + [AIEntry], delays, calls + [ScreenshotCall], st0, st);
      } else {
        SuggestionTierSound(cfg, d, req, reason, path + [AIEntry], delays, calls + [ScreenshotCall], st0, st);
      }
    } else {
      ExhaustedSound(cfg, d, req, reason, path, delays, calls, st0, st);
    }
  }

  lemma FallbackPhaseSound(cfg: HealingConfig, d: Driver, req: Request, reason: string, fl: seq<LocatorStrategy>,
                           calls: seq<DriverCall>, st: LogState)
    ensures Sound(cfg, d, st, FallbackPhase(cfg, d, req, reason, fl, calls, st))
  {
    var m := Budget(cfg);
    var locs := Pairs(fl);
    match FirstFoundFrom(d, locs, m, 0)
    case Some(k) =>
      assert locs[k] == (fl[k].strategy, fl[k].selector);
      FallbackLogSound(cfg, req, reason, fl, k, st);
      var t := FallbackPhase(cfg, d, req, reason, fl, calls, st);
      assert t.log.history == FallbackLog(cfg, req, reason, fl, k, st).history;
    case None =>
      var tried := Min(m, |fl|);
      FallbackLogSound(cfg, req, reason, fl, tried, st);
      AfterFallbacksSound(cfg, d, req, reason, WithAttemptEntries([OriginalEntry(req.strategy, req.selector)], fl, tried),
                          Delays(cfg, if m <= |fl| then m else |fl| + 1), WithFindCalls(calls, locs, tried),
                          st, FallbackLog(cfg, req, reason, fl, tried, st));
  }

  /**
   * With a driver session, every result is sound: a success names the locator
   * whose element it returns, a failure has the failure shape, and the
   * history grows only by failed attempts (not at all when logging is off).
   */
  lemma ExpectedSound(cfg: HealingConfig, d: Driver, req: Request, st: LogState)
    ensures Sound(cfg, d, st, Expected(cfg, Some(d), req, st))
  {
    assert st.history[..|st.history|] == st.history;
    match Find(d, req.strategy, req.selector)
    case Found(h) =>
    case NotFound(reason) =>
      if cfg.maxRetries != 0 && d.platformName.Ok? {
        FallbackPhaseSound(cfg, d, req, reason, Candidates(d.platformName.value, req.strategy, req.selector, PageSourceOrEmpty(d)),
                           [FindCall(req.strategy, req.selector)] + [PageSourceCall, CapabilitiesCall], st);
      }
  }

  /** Once the fallback phase starts, every path ends in a returned result. */
  lemma FallbackPhaseReturns(cfg: HealingConfig, d: Driver, req: Request, reason: string, fl: seq<LocatorStrategy>,
                             calls: seq<DriverCall>, st: LogState)
    ensures FallbackPhase(cfg, d, req, reason, fl, calls, st).outcome.Returned?
  {
    if FirstFoundFrom(d, Pairs(fl), Budget(cfg), 0).None? {
      var tried := Min(Budget(cfg), |fl|);
      var path := WithAttemptEntries([OriginalEntry(req.strategy, req.selector)], fl, tried);
      var delays := Delays(cfg, if Budget(cfg) <= |fl| then Budget(cfg) else |fl| + 1);
      var calls1 := WithFindCalls(calls, Pairs(fl), tried);
      var st1 := FallbackLog(cfg, req, reason, fl, tried, st);
      if AIApplies(cfg, req) && d.screenshot.Ok? {
        assert SuggestionTier(cfg, d, req, reason, path + [AIEntry], delays, calls1 + [ScreenshotCall], st1).outcome.Returned?;
      }
    }
  }

  /**
   * The call throws exactly in three cases: there is no session, the
   * original locator fails with maxRetries 0 (the driver's error is
   * rethrown), or it fails and the capabilities cannot be read. Every other
   * path, including a failed screenshot, returns a result.
   */
  lemma ThrowsOnlyBeforeHealing(cfg: HealingConfig, session: Option<Driver>, req: Request, st: LogState)
    ensures Expected(cfg, session, req, st).outcome.Thrown? <==>
      session.None?
      || (Find(session.value, req.strategy, req.selector).NotFound?
          && (cfg.maxRetries == 0 || session.value.platformName.Err?))
  {
    if session.Some? {
      var d := session.value;
      if Find(d, req.strategy, req.selector).NotFound? && cfg.maxRetries != 0 && d.platformName.Ok? {
        ExpectedReachesFallbacks(cfg, d, req, st);
        FallbackPhaseReturns(cfg, d, req, Find(d, req.strategy, req.selector).message,
                             Candidates(d.platformName.value, req.strategy, req.selector, PageSourceOrEmpty(d)),
                             [FindCall(req.strategy, req.selector)] + [PageSourceCall, CapabilitiesCall], st);
      }
    }
  }

  /** Without a session the call throws before touching the driver or the logger. */
  lemma NoSessionThrows(cfg: HealingConfig, req: Request, st: LogState)
    ensures Expected(cfg, None, req, st) == Trace(Thrown("No active driver session"), [], [], st)
  {
  }

  /** A locator that resolves at once is returned with one attempt, no sleep and no logging. */
  lemma OriginalLocatorFirst(cfg: HealingConfig, d: Driver, req: Request, st: LogState)
    requires Find(d, req.strategy, req.selector).Found?
    ensures Expected(cfg, Some(d), req, st)
         == Trace(Returned(HealingResult(true, Some(Find(d, req.strategy, req.selector).handle), Some(req.strategy), Some(req.selector),
                                         1, [OriginalEntry(req.strategy, req.selector)])),
                  [], [FindCall(req.strategy, req.selector)], st)
  {
  }

  /** With no retries allowed the original error is rethrown after the single lookup. */
  lemma ZeroRetriesRethrows(cfg: HealingConfig, d: Driver, req: Request, st: LogState)
    requires Find(d, req.strategy, req.selector).NotFound? && cfg.maxRetries == 0
    ensures Expected(cfg, Some(d), req, st)
         == Trace(Thrown(d.failureMessage), [], [FindCall(req.strategy, req.selector)], st)
  {
  }

  /** Healing calls alone never raise the success rate above zero: successes are not recorded in the history. */
  lemma SuccessRateStaysZero(cfg: HealingConfig, d: Driver, req: Request, st: LogState)
    requires forall j :: 0 <= j < |st.history| ==> !st.history[j].success
    ensures SuccessRate(Expected(cfg, Some(d), req, st).log.history) == 0.0
  {
    ExpectedSound(cfg, d, req, st);
    var h := Expected(cfg, Some(d), req, st).log.history;
    forall j | 0 <= j < |h|
      ensures !h[j].success
    {
      if j < |st.history| {
        assert h[j] == h[..|st.history|][j];
      }
    }
    AllFailedCountsZero(h);
  }

  // -------------------------------------------------------------------------
  // Sleeps
  // -------------------------------------------------------------------------

  /** The i-th delay of the schedule is the retry delay of attempt i + 1. */
  lemma {:induction false} DelaysSchedule(cfg: HealingConfig, n: nat)
    ensures forall i :: 0 <= i < n ==> Delays(cfg, n)[i] == GetRetryDelay(i + 1, cfg.retryDelayMs, cfg.useExponentialBackoff)
  {
    if n > 0 {
      DelaysSchedule(cfg, n - 1);
      assert forall i :: 0 <= i < n - 1 ==> Delays(cfg, n)[i] == Delays(cfg, n - 1)[i];
    }
  }

  lemma AfterFallbacksKeepsDelays(cfg: HealingConfig, d: Driver, req: Request, reason: string, path: seq<string>,
                                  delays: seq<int>, calls: seq<DriverCall>, st: LogState)
    ensures AfterFallbacks(cfg, d, req, reason, path, delays, calls, st).delays == delays
  {
  }

  /** The delays are requested per the retry schedule, and at most maxRetries of them. */
  predicate OnSchedule(cfg: HealingConfig, delays: seq<int>) {
    && |delays| <= Budget(cfg)
    && forall i :: 0 <= i < |delays| ==> delays[i] == GetRetryDelay(i + 1, cfg.retryDelayMs, cfg.useExponentialBackoff)
  }

  lemma FallbackPhaseDelays(cfg: HealingConfig, d: Driver, req: Request, reason: string, fl: seq<LocatorStrategy>,
                            calls: seq<DriverCall>, st: LogState)
    ensures OnSchedule(cfg, FallbackPhase(cfg, d, req, reason, fl, calls, st).delays)
    ensures |FallbackPhase(cfg, d, req, reason, fl, calls, st).delays| ==
      match FirstFoundFrom(d, Pairs(fl), Budget(cfg), 0)
      case Some(k) => k + 1
      case None => Min(Budget(cfg), |fl| + 1)
  {
    var m := Budget(cfg);
    var locs := Pairs(fl);
    match FirstFoundFrom(d, locs, m, 0)
    case Some(k) =>
      DelaysSchedule(cfg, k + 1);
    case None =>
      var tried := Min(m, |fl|);
      var n := if m <= |fl| then m else |fl| + 1;
      DelaysSchedule(cfg, n);
      AfterFallbacksKeepsDelays(cfg, d, req, reason, WithAttemptEntries([OriginalEntry(req.strategy, req.selector)], fl, tried),
                                Delays(cfg, n), WithFindCalls(calls, locs, tried), FallbackLog(cfg, req, reason, fl, tried, st));
  }

  /** Every call sleeps on the retry schedule, never more than maxRetries times. */
  lemma ExpectedDelays(cfg: HealingConfig, session: Option<Driver>, req: Request, st: LogState)
    ensures OnSchedule(cfg, Expected(cfg, session, req, st).delays)
  {
    if session.Some? {
      var d := session.value;
      if Find(d, req.strategy, req.selector).NotFound? && cfg.maxRetries != 0 && d.platformName.Ok? {
        ExpectedReachesFallbacks(cfg, d, req, st);
        FallbackPhaseDelays(cfg, d, req, Find(d, req.strategy, req.selector).message,
                            Candidates(d.platformName.value, req.strategy, req.selector, PageSourceOrEmpty(d)),
                            [FindCall(req.strategy, req.selector)] + [PageSourceCall, CapabilitiesCall], st);
      }
    }
  }

  // -------------------------------------------------------------------------
  // Driver calls
  // -------------------------------------------------------------------------

  lemma {:induction false} FindCallsNoScreenshot(calls: seq<DriverCall>, locs: seq<(string, string)>, n: nat)
    requires n <= |locs|
    ensures ScreenshotCall in WithFindCalls(calls, locs, n) <==> ScreenshotCall in calls
  {
    if n > 0 {
      FindCallsNoScreenshot(calls, locs, n - 1);
    }
  }

  /** The AI tier (the only screenshot) runs only after the fallbacks missed, and only when enabled and described. */
  lemma ScreenshotOnlyForAI(cfg: HealingConfig, d: Driver, req: Request, reason: string, fl: seq<LocatorStrategy>,
                            calls: seq<DriverCall>, st: LogState)
    requires ScreenshotCall !in calls
    ensures ScreenshotCall in FallbackPhase(cfg, d, req, reason, fl, calls, st).calls
        ==> AIApplies(cfg, req) && FirstFoundFrom(d, Pairs(fl), Budget(cfg), 0).None?
  {
    var m := Budget(cfg);
    var locs := Pairs(fl);
    match FirstFoundFrom(d, locs, m, 0)
    case Some(k) =>
      FindCallsNoScreenshot(calls, locs, k + 1);
    case None =>
      FindCallsNoScreenshot(calls, locs, Min(m, |fl|));
  }

  /** No call asks the driver for a screenshot unless the AI tier applies. */
  lemma ExpectedScreenshot(cfg: HealingConfig, session: Option<Driver>, req: Request, st: LogState)
    ensures ScreenshotCall in Expected(cfg, session, req, st).calls ==> AIApplies(cfg, req)
  {
    if session.Some? {
      var d := session.value;
      var c0 := [FindCall(req.strategy, req.selector)];
      var c1 := c0 + [PageSourceCall, CapabilitiesCall];
      assert ScreenshotCall !in c1 by {
        assert forall i :: 0 <= i < |c1| ==> c1[i] != ScreenshotCall;
      }
      if Find(d, req.strategy, req.selector).NotFound? && cfg.maxRetries != 0 && d.platformName.Ok? {
        var reason := Find(d, req.strategy, req.selector).message;
        var fl := Candidates(d.platformName.value, req.strategy, req.selector, PageSourceOrEmpty(d));
        ExpectedReachesFallbacks(cfg, d, req, st);
        ScreenshotOnlyForAI(cfg, d, req, reason, fl, c1, st);
      } else {
        assert Expected(cfg, session, req, st).calls in {c0, c1};
      }
    }
  }

  /** After the fallbacks: at most one screenshot and three suggestion lookups. */
  lemma AfterFallbacksCalls(cfg: HealingConfig, d: Driver, req: Request, reason: string, path: seq<string>,
                            delays: seq<int>, calls: seq<DriverCall>, st: LogState)
    ensures |AfterFallbacks(cfg, d, req, reason, path, delays, calls, st).calls| <= |calls| + 4
  {
    if AIApplies(cfg, req) && d.screenshot.Ok? {
      var locs := SuggestionPairs(req.ai);
      match FirstFoundFrom(d, locs, 3, 0)
      case Some(i) =>
      case None =>
    }
  }

  /**
   * The fallback tier makes one lookup per candidate tried, at most maxRetries and
   * at most the number of candidates, before the AI tier.
   */
  lemma FallbackPhaseCalls(cfg: HealingConfig, d: Driver, req: Request, reason: string, fl: seq<LocatorStrategy>,
                           calls: seq<DriverCall>, st: LogState)
    ensures |FallbackPhase(cfg, d, req, reason, fl, calls, st).calls| <= |calls| + Min(Budget(cfg), |fl|) + 4
    ensures FirstFoundFrom(d, Pairs(fl), Budget(cfg), 0).Some? ==>
      |FallbackPhase(cfg, d, req, reason, fl, calls, st).calls| == |calls| + FirstFoundFrom(d, Pairs(fl), Budget(cfg), 0).value + 1
  {
    var m := Budget(cfg);
    var locs := Pairs(fl);
    match FirstFoundFrom(d, locs, m, 0)
    case Some(k) =>
    case None =>
      var tried := Min(m, |fl|);
      AfterFallbacksCalls(cfg, d, req, reason, WithAttemptEntries([OriginalEntry(req.strategy, req.selector)], fl, tried),
                          Delays(cfg, if m <= |fl| then m else |fl| + 1), WithFindCalls(calls, locs, tried),
                          FallbackLog(cfg, req, reason, fl, tried, st));
  }

  /**
   * The number of driver calls is bounded: the original lookup, the page source
   * and capabilities, one lookup per candidate tried (at most maxRetries and at
   * most the number of candidates), one screenshot and at most three suggestion
   * lookups. A call that never reaches the fallbacks makes at most three.
   */
  lemma ExpectedCallBound(cfg: HealingConfig, session: Option<Driver>, req: Request, st: LogState)
    ensures |Expected(cfg, session, req, st).calls| <= Budget(cfg) + 7
    ensures if session.Some? && Find(session.value, req.strategy, req.selector).NotFound?
               && cfg.maxRetries != 0 && session.value.platformName.Ok?
            then |Expected(cfg, session, req, st).calls|
                   <= Min(Budget(cfg), |Candidates(session.value.platformName.value, req.strategy, req.selector,
                                                   PageSourceOrEmpty(session.value))|) + 7
            else |Expected(cfg, session, req, st).calls| <= 3
  {
    if session.Some? {
      var d := session.value;
      if Find(d, req.strategy, req.selector).NotFound? && cfg.maxRetries != 0 && d.platformName.Ok? {
        ExpectedReachesFallbacks(cfg, d, req, st);
        FallbackPhaseCalls(cfg, d, req, Find(d, req.strategy, req.selector).message,
                           Candidates(d.platformName.value, req.strategy, req.selector, PageSourceOrEmpty(d)),
                           [FindCall(req.strategy, req.selector)] + [PageSourceCall, CapabilitiesCall], st);
      }
    }
  }
}
