# Self-healing element lookup for mcp-appium, in Dafny

This project models the element-healing engine of the mcp-appium server and
the pure translators beside it. It also proves properties of that model.

- **Fallback strategies** (`Strategies`). A failed locator is turned into a
  list of alternative (strategy, selector, priority) locators sorted by
  priority. There is one generator for Android and one for iOS. Android
  also reads attribute values out of XPath predicates and builds two
  catch-all UiAutomator selectors from a keyword.
- **Healing configuration** (`Config`). There are four presets and one
  active configuration. The configuration is held by the class
  `HealingConfigStore`: selecting a mode replaces it, and a partial override
  merges into it field by field.
- **Healing history** (`Logger`). The class `HealingLogger` keeps the event
  history and the records sent to the log sink. Success rate and report
  counts are folds over the history.
- **The orchestrator** (`ElementHealer`, with properties in
  `HealerProperties`). `findElementWithHealing` tries the original locator,
  then up to `maxRetries` fallbacks, then up to three AI suggestions, and
  otherwise returns a failure result.
  - It is written as a method with the source's two loops.
  - Its `ensures` ties what it does to the specification function
    `Expected`. What it does covers the outcome, the delays slept, the
    driver calls made and the logger state.
  - The lemmas about `Expected` state the promises of the source.
- **Scroll locator translation** (`ScrollToElement`, `Scroll`). `getValue`,
  `transformXPath`, `transformLocator` and the UiScrollable selector
  template. src/tools/scroll.ts repeats these helpers word for word, so
  they are defined once and `Scroll` states its properties against them.
- **Tool metadata** (`MetadataLoader`). These turn a YAML parameter tree
  into a schema value: a recursive converter with explicit error cases,
  the object shape builder, the required-field checks of
  `loadToolMetadata`, and the metadata file name.
- **Locator export** (`GenerateAllLocators`):
  - the element filter;
  - the pre-order walk that pushes rows into a shared list, modelled as the
    class `LocatorCollector`;
  - the CSV and JSON content of `exportResults`.

`Wrappers` holds `Option` and `Result`. `JsString` holds the JavaScript
string operations the source relies on: `indexOf` (which returns -1),
`substring` (which clamps and swaps its arguments), `includes`, a
single-character `replace`, `toLowerCase`, `join` and `split`.

The device driver is a value of oracles:

- which (strategy, selector) pairs resolve, and to which element;
- the message of a failed lookup;
- whether page source, the platform name and a screenshot can be fetched.

The AI healer's answer is an input list, already ranked. Sleeps are
recorded as the list of requested delays. Driver calls are recorded as a
list of calls.

Once the original lookup has failed, not every failure is caught. In
src/healing/element-healer.ts, `driver.getCapabilities()` at line 68 is
outside any `try`. Only the page-source fetch (lines 61-66) and the AI
block (lines 133-188) are guarded, so a failure to read the capabilities
reaches the caller. `HealerProperties.ThrowsOnlyBeforeHealing` states
exactly when the call throws.

## Model

| member | source | states |
|---|---|---|
| Strategies.Insert | src/healing/strategies.ts:99 | inserting into a priority-sorted list keeps it sorted, adds exactly the new element (as a multiset) and grows the length by one |
| Strategies.SortByPriority | src/healing/strategies.ts:99 | the sorted list is a permutation of the input and is ordered by ascending priority |
| Strategies.SortSortedIsIdentity | src/healing/strategies.ts:99 | sorting a list that is already in priority order leaves it unchanged, which the generators rely on |
| Strategies.InsertAfterAll | src/healing/strategies.ts:99 | an element whose priority is at least every priority in the list goes last, so equal priorities keep their push order |
| Strategies.CloseQuote | src/healing/strategies.ts:52-56 | the lazy `(.*?)['"]` part of the attribute regexes: it finds the first quote after the opening one and crosses no line terminator; when no quote is found, every later quote has a line terminator before it |
| Strategies.MatchAtSound | src/healing/strategies.ts:52-56 | a match reported at a position is an `attr=`, a quote, a value with no quote or line terminator, and a closing quote |
| Strategies.MatchAtComplete | src/healing/strategies.ts:52-56 | every such quoted attribute at a position is found there, with exactly its value |
| Strategies.CloseQuoteFirst | src/healing/strategies.ts:52-56 | the closing quote found is the first quote after the value, so the capture is the shortest possible |
| Strategies.AttrMatchFromSpec | src/healing/strategies.ts:52-56 | `String.match` returns the value of the leftmost quoted `attr=` occurrence, and returns nothing exactly when no position holds one |
| Strategies.QuoteFreeEnd | src/healing/strategies.ts:104 | the run of non-quote characters from a position ends at the next quote or at the end of the string |
| Strategies.WordEnd | src/healing/strategies.ts:104 | the `\w` run from a position ends at the first non-word character or at the end of the string |
| Strategies.RemoveQuotes | src/healing/strategies.ts:106 | `replace(/['"]/g, '')` leaves no quote in its result |
| Strategies.RemoveQuotesOfPlain | src/healing/strategies.ts:106 | removing quotes from a string with no quotes changes nothing |
| Strategies.RemoveQuotesAround | src/healing/strategies.ts:106 | removing quotes from a quoted run gives back the text between the quotes |
| Strategies.RemoveQuotesAppend | src/healing/strategies.ts:106 | removing quotes works piece by piece over a concatenation |
| Strategies.QuotedRunFromFirst | src/healing/strategies.ts:104 | when no quoted run (quote, non-quote characters, quote) starts in `[p, q)` and one runs from `q` to `e`, the first quoted match from `p` is `s[q..e]` with both quotes |
| Strategies.QuotedRunAtGuard | src/healing/strategies.ts:104 | the quoted-match search stops at `r` exactly when a quoted run starts at `r` |
| Strategies.QuotedRunFromNone | src/healing/strategies.ts:104-105 | there is no quoted match from `p` if and only if no quoted run starts at or after `p` |
| Strategies.QuoteFreeEndIs | src/healing/strategies.ts:104 | the end of a non-quote run is the first quote after its start |
| Strategies.KeywordOfQuotedRun | src/healing/strategies.ts:102-107 | when the selector has a quoted run, the keyword is that run without its two quotes and holds no quote |
| Strategies.QuotedRunShape | src/healing/strategies.ts:104 | a quoted run found by `['"]([^'"]+)['"]` is at least three characters long, opens and closes with a quote and has no quote inside |
| Strategies.KeywordOfTextXPath | src/healing/strategies.ts:102-107 | the keyword of `//*[@text="Submit"]` is `Submit` |
| Strategies.KeywordOfWord | src/healing/strategies.ts:102-107 | a non-empty selector made only of word characters is its own keyword |
| Strategies.WordRunFromFirst | src/healing/strategies.ts:104 | the first `\w+` match from `p` is the maximal word run at the first word character `q` |
| Strategies.KeywordOfFirstWord | src/healing/strategies.ts:102-107 | with no quoted run anywhere, the keyword is the maximal word run that starts at the first word character |
| Strategies.KeywordOfClassSelector | src/healing/strategies.ts:102-107 | the keyword of `.submit-btn` is `submit` |
| Strategies.KeywordOfIdentifier | src/healing/strategies.ts:102-107 | the keyword of `loginButton123` is `loginButton123` |
| Strategies.WordEndIs | src/healing/strategies.ts:104 | the end of a word run is the first non-word character after its start |
| Strategies.NoWordRun | src/healing/strategies.ts:104 | with no word character at or after `p`, there is no `\w+` run from `p` |
| Strategies.KeywordFallsBackToPrefix | src/healing/strategies.ts:108 | with no quoted run starting anywhere and no word character, the keyword is the first 20 characters, or the whole selector when it is shorter |
| Strategies.KeywordOfStrayQuote | src/healing/strategies.ts:102-108 | a lone quote opens no quoted run: the keyword of `-'-` is `-'-` |
| Strategies.CatchAllsIncreasing | src/healing/strategies.ts:87-97 | the two catch-all locators come in strictly increasing priority, both at priority 4 or above |
| Strategies.XPathTiersIncreasing | src/healing/strategies.ts:51-78 | the xpath tiers come in strictly increasing priority, all below 4 |
| Strategies.TiersThenCatchAllsIncreasing | src/healing/strategies.ts:15-97 | for every strategy, the pushed locators are in strictly increasing priority before sorting |
| Strategies.AndroidUnsorted | src/healing/strategies.ts:15-99 | the Android result is the strategy's own tiers followed by the two catch-alls, in push order, because the final sort changes nothing |
| Strategies.AndroidEndsWithCatchAlls | src/healing/strategies.ts:87-97 | every Android result has at least two entries and ends with `descriptionContains` of the keyword at priority 4, then `textContains` of the same keyword at priority 5 |
| Strategies.AndroidForId | src/healing/strategies.ts:15-32 | for `id` the result is exactly: accessibility id, the `@resource-id` xpath, the `contains(@resource-id` xpath, then the catch-alls |
| Strategies.AndroidForAccessibilityId | src/healing/strategies.ts:33-50 | for `accessibility id` the result is exactly: id, the `@content-desc` xpath, the `contains(@content-desc` xpath, then the catch-alls |
| Strategies.AndroidForXPath | src/healing/strategies.ts:51-78 | for `xpath`, each of the id, accessibility id and `@text` tiers is present exactly when its attribute regex matches and carries the captured value; the length is between 2 and 5 |
| Strategies.AndroidForClassName | src/healing/strategies.ts:79-85 | for `class name` the result is `//selector` at priority 1, then the catch-alls |
| Strategies.AndroidForOtherStrategy | src/healing/strategies.ts:87-97 | any other strategy yields only the two catch-alls |
| Strategies.AndroidIgnoresPageSource | src/healing/strategies.ts:8-13 | the result does not depend on the page source |
| Strategies.AndroidStrictlyIncreasing | src/healing/strategies.ts:99 | the Android result is sorted with pairwise distinct priorities |
| Strategies.IOSUnsorted | src/healing/strategies.ts:111-161 | the iOS result is its tiers in push order, strictly increasing in priority |
| Strategies.IOSForIdOrName | src/healing/strategies.ts:117-139 | for `id` or `name` the result is exactly four locators: accessibility id, the `@name` xpath, `name ==` and `name CONTAINS`, at priorities 1 to 4 |
| Strategies.IOSForAccessibilityId | src/healing/strategies.ts:140-157 | for `accessibility id` the result is exactly id, name and `label ==`, at priorities 1 to 3 |
| Strategies.IOSForOtherStrategy | src/healing/strategies.ts:111-161 | every other strategy yields an empty list |
| Config.PresetModeIsKey | src/healing/config.ts:19-60 | every preset's mode field is the key it is stored under |
| Config.DisabledPreset | src/healing/config.ts:50-59 | the disabled preset has 0 retries, 0 ms delay, and no backoff, AI, visual matching, logging or auto-update |
| Config.EnabledPresets | src/healing/config.ts:20-49 | the moderate, conservative and aggressive presets have exactly their listed retry counts, delays and switches |
| Config.MergeFieldwise | src/healing/config.ts:72-74 | the spread merge takes each field from the override when it is given and keeps the current value otherwise |
| Config.MergeIdempotent | src/healing/config.ts:72-74 | applying the same override twice is the same as applying it once |
| Config.HealingConfigStore.constructor | src/healing/config.ts:62 | the active configuration starts as the moderate preset |
| Config.HealingConfigStore.SetHealingConfig | src/healing/config.ts:64-66 | selecting a mode makes the active configuration that mode's preset in every field |
| Config.HealingConfigStore.GetHealingConfig | src/healing/config.ts:68-70 | reading returns the active configuration and changes nothing |
| Config.HealingConfigStore.SetCustomHealingConfig | src/healing/config.ts:72-74 | the new active configuration is the old one merged with the override |
| Config.SelectThenRead | src/healing/config.ts:64-70 | after selecting a mode, reading returns that mode's preset |
| Logger.CountSuccessful | src/healing/logger.ts:69 | the number of successful events is at most the history length |
| Logger.CountAIUsed | src/healing/logger.ts:83 | the number of AI-assisted events is at most the history length |
| Logger.SuccessRate | src/healing/logger.ts:67-71 | the rate is 0 for an empty history; otherwise rate × total = 100 × successes, so it lies in [0, 100] |
| Logger.ReportOf | src/healing/logger.ts:77-95 | the report counts: total is the history length, successful ≤ total, failed = total − successful ≥ 0, AI-used ≤ total; the average time is 0 on an empty history and otherwise average × total = the summed time |
| Logger.CountsAppend | src/healing/logger.ts:67-95 | success, AI-used and time totals add up over concatenated histories |
| Logger.AllFailedCountsZero | src/healing/logger.ts:67-71 | a history of failed events has no successes and a success rate of 0 |
| Logger.OneInThree | src/healing/logger.ts:67-71 | one success in three events gives a rate of 100/3 |
| Logger.HealingLogger.constructor | src/healing/logger.ts:47-48 | the history and the sink start empty |
| Logger.HealingLogger.LogHealingAttempt | src/healing/logger.ts:50-53 | the event is appended at the end of the history, earlier entries unchanged, and one info record goes to the sink |
| Logger.HealingLogger.LogHealingSuccess | src/healing/logger.ts:55-57 | the history is unchanged; one info record goes to the sink |
| Logger.HealingLogger.LogHealingFailure | src/healing/logger.ts:59-61 | the history is unchanged; one error record goes to the sink |
| Logger.HealingLogger.GetHealingHistory | src/healing/logger.ts:63-65 | returns the history in insertion order and changes nothing |
| Logger.HealingLogger.GetSuccessRate | src/healing/logger.ts:67-71 | 0 on an empty history; otherwise 100 × successes / total, within [0, 100] |
| Logger.HealingLogger.ClearHistory | src/healing/logger.ts:73-75 | the history becomes empty and the sink is untouched |
| Logger.HealingLogger.GenerateReport | src/healing/logger.ts:77-95 | the report's total is the history length, successful + failed = total, AI-used ≤ total, and its rate is the success rate |
| ElementHealer.RetryDelayFormula | src/healing/element-healer.ts:22-25 | the delay is the base delay without backoff, and base × 2^(attempt−1) with it |
| ElementHealer.RetryDelayLaw | src/healing/element-healer.ts:22-25 | without backoff every attempt waits the same; with it the first attempt waits the base delay and each later attempt waits twice the previous one |
| ElementHealer.RetryDelayExample | src/healing/element-healer.ts:22-25 | base 1000 ms at attempt 3 with backoff gives 4000 ms |
| ElementHealer.FirstFoundIsFirst | src/healing/element-healer.ts:75-127 | the candidate a loop stops at is the first that resolves: every earlier one was not found; when none is found, every candidate tried was not found |
| ElementHealer.FindElementWithHealing | src/healing/element-healer.ts:27-214 | the outcome, the delays slept, the driver calls and the final logger state are exactly those of `Expected` for the active configuration and the starting logger state |
| ElementHealer.ChooseFallbacks | src/healing/element-healer.ts:68-73 | the iOS generator is used exactly when the lower-cased platform name is `ios`; otherwise the Android generator is used with the page source |
| ElementHealer.HealWithFallbacks | src/healing/element-healer.ts:75-127 | the fallback phase and everything after it produce the trace `FallbackPhase` defines |
| ElementHealer.RetryFallbacks | src/healing/element-healer.ts:75-127 | the retry loop stops at the first candidate that resolves within min(maxRetries, candidates), with one path entry and one find per candidate tried, one delay per iteration and one logged failure per miss when logging is on; otherwise it tries them all |
| ElementHealer.FallbackAttempt | src/healing/element-healer.ts:76-126 | one iteration after its sleep: it adds the path entry, makes the find call and logs a success or a failed attempt when logging is on |
| ElementHealer.ContinueAfterFallbacks | src/healing/element-healer.ts:129-212 | after the fallbacks fail, the AI tier runs when it applies, then the failure is concluded, as `AfterFallbacks` defines |
| ElementHealer.HealWithAI | src/healing/element-healer.ts:129-189 | a screenshot, then the suggestion tier; a failed screenshot goes straight to the failure result |
| ElementHealer.TrySuggestions | src/healing/element-healer.ts:141-189 | the first of at most three suggestions that resolves is returned with attemptCount maxRetries + i + 2; otherwise the call concludes in failure |
| ElementHealer.RetrySuggestions | src/healing/element-healer.ts:141-185 | the suggestion loop stops at the first of at most three suggestions that resolves, with one path entry, one find and one logged failure per miss |
| ElementHealer.SuggestionAttempt | src/healing/element-healer.ts:142-184 | one suggestion: it adds the path entry, makes the find call and logs an AI-assisted event numbered maxRetries + i + 1 |
| ElementHealer.TryLocator | src/healing/element-healer.ts:102-124 | a find, then a success record or a failed-attempt record, each stamped with the elapsed time, and only when logging is on |
| ElementHealer.Conclude | src/healing/element-healer.ts:191-212 | the final failure event (strategy `none`, the original error message) is logged when logging is on, and the result is a failure with attemptCount maxRetries + 1 |
| HealerProperties.ExpectedSound | src/healing/element-healer.ts:27-214 | with a session, a success names the locator whose element it returns, a failure has no element or locator and counts maxRetries + 1 attempts, and the history grows only by failed events and not at all when logging is off |
| HealerProperties.FallbackPhaseSound | src/healing/element-healer.ts:75-127 | the same guarantees hold for every trace that starts at the fallback phase |
| HealerProperties.AfterFallbacksSound | src/healing/element-healer.ts:129-212 | the same guarantees hold for every trace after the fallbacks |
| HealerProperties.SuggestionTierSound | src/healing/element-healer.ts:141-189 | the same guarantees hold for every trace of the suggestion tier |
| HealerProperties.ExhaustedSound | src/healing/element-healer.ts:191-212 | the failure result has the failure shape and adds no success to the history |
| HealerProperties.FallbackLogSound | src/healing/element-healer.ts:120-124 | failed fallback attempts append only failed events, and only when logging is on |
| HealerProperties.AILogSound | src/healing/element-healer.ts:179-183 | failed suggestions append only failed events, and only when logging is on |
| HealerProperties.FallbackPhaseReturns | src/healing/element-healer.ts:75-212 | once the fallback phase starts, every path returns a result rather than throwing |
| HealerProperties.ThrowsOnlyBeforeHealing | src/healing/element-healer.ts:36-73 | the call throws exactly when there is no session, or the original lookup fails and either maxRetries is 0 or the capabilities cannot be read |
| HealerProperties.NoSessionThrows | src/healing/element-healer.ts:36-39 | without a session the call throws `No active driver session`, with no driver call, no delay and no log change |
| HealerProperties.OriginalLocatorFirst | src/healing/element-healer.ts:41-51 | when the original locator resolves, the result is that element, attemptCount 1 and the single `Original:` path entry, after one find and nothing else |
| HealerProperties.ZeroRetriesRethrows | src/healing/element-healer.ts:52-55 | with maxRetries 0 a failed original lookup rethrows the driver's error, after one find, with no page source, no fallback and no log change |
| HealerProperties.SuccessRateStaysZero | src/healing/element-healer.ts:104-124 | a history with no successes still has success rate 0 after any healing call, because successes go only to the sink |
| HealerProperties.DelaysSchedule | src/healing/element-healer.ts:75-77 | the i-th delay slept is the retry delay of attempt i + 1 |
| HealerProperties.AfterFallbacksKeepsDelays | src/healing/element-healer.ts:129-212 | nothing after the fallback loop sleeps |
| HealerProperties.FallbackPhaseDelays | src/healing/element-healer.ts:75-80 | the delays of the fallback phase follow the retry schedule from attempt 1; there are k + 1 of them when candidate k resolves, else min(maxRetries, candidates + 1), counting the iteration that breaks when candidates run out |
| HealerProperties.ExpectedDelays | src/healing/element-healer.ts:27-214 | every delay a call sleeps follows the retry schedule |
| HealerProperties.ScreenshotOnlyForAI | src/healing/element-healer.ts:129-134 | a screenshot is taken only when AI fallback is enabled, a description is given, and no fallback resolved |
| HealerProperties.ExpectedScreenshot | src/healing/element-healer.ts:27-214 | a call takes a screenshot only when AI fallback is enabled and a non-empty description is given |
| HealerProperties.AfterFallbacksCalls | src/healing/element-healer.ts:129-189 | the AI tier makes at most four driver calls: one screenshot and at most three finds |
| HealerProperties.FallbackPhaseCalls | src/healing/element-healer.ts:75-189 | the fallback phase adds at most min(maxRetries, candidates) + 4 driver calls, and exactly k + 1 when candidate k resolves |
| HealerProperties.ExpectedCallBound | src/healing/element-healer.ts:27-214 | a call that reaches the fallbacks makes at most min(maxRetries, candidates) + 7 driver calls; any other call makes at most 3 |
| ScrollToElement.Normalise | src/tools/scroll-to-element.ts:16 | replacing `"` with `'` keeps the length and leaves no `"` |
| ScrollToElement.GetValueBetweenQuotes | src/tools/scroll-to-element.ts:4-10 | when the expression first occurs at p and is followed by two `'`, `getValue` returns exactly the characters strictly between them, which hold no `'` |
| ScrollToElement.ValueStartAt | src/tools/scroll-to-element.ts:6-7 | the value starts right after the first `'` that follows the expression |
| ScrollToElement.FirstRuleIsFirst | src/tools/scroll-to-element.ts:17-36 | the rule chosen is the first whose substring occurs; no rule is chosen exactly when none occurs |
| ScrollToElement.TransformXPathByRules | src/tools/scroll-to-element.ts:12-41 | translation normalises the quotes, applies the first matching rule of the four in order, and otherwise raises the unsupported-expression error |
| ScrollToElement.GetValueChars | src/tools/scroll-to-element.ts:4-10 | every character of an extracted value comes from the xpath |
| ScrollToElement.TransformXPathResult | src/tools/scroll-to-element.ts:17-36 | a successful translation's strategy is one of `text`, `description`, `textContains` or `descriptionContains`, and its value has no `"` |
| ScrollToElement.TransformXPathError | src/tools/scroll-to-element.ts:38-40 | a failed translation reports `Unsupported XPath expression:` with the normalised xpath and the list of supported forms |
| ScrollToElement.TransformLocatorRenames | src/tools/scroll-to-element.ts:43-53 | `id` becomes `resourceId`, `class name` becomes `className`, `xpath` goes through `transformXPath`, and every other strategy passes unchanged; only `xpath` can fail |
| ScrollToElement.UiScrollableSelectorRoundTrip | src/tools/scroll-to-element.ts:109 | the strategy and selector can be read back from the built selector |
| ScrollToElement.AndroidScrollSelectorTemplate | src/tools/scroll-to-element.ts:102-109 | the selector is exactly `new UiScrollable(new UiSelector().scrollable(true)).scrollIntoView(new UiSelector().S("V"))` for the translated (S, V); it fails only for an unsupported xpath, with that error |
| Scroll.ScrollSelector | src/tools/scroll.ts:125-132 | the selector exists exactly when the locator translates, carries its error otherwise, and reads back to the translated locator |
| Scroll.SameSelectorAsScrollToElement | src/tools/scroll.ts:125-132 | both scroll tools build the same selector for every locator |
| Scroll.GetValueOfPredicate | src/tools/scroll.ts:6-12 | in `pre + expression + gap + 'v' + rest`, with the expression first occurring after `pre` and no `'` in the gap or in v, `getValue` returns exactly v |
| Scroll.XPathDispatchOrder | src/tools/scroll.ts:18-38 | each of the four forms is used only when every earlier form is absent from the normalised xpath, and its value is read after that form |
| Scroll.UnsupportedXPath | src/tools/scroll.ts:40-42 | translation fails exactly when none of the four forms occurs, and the error quotes the normalised xpath |
| Scroll.TransformLocatorStable | src/tools/scroll.ts:45-55 | a translated locator is never one the translation rewrites, so translating it again changes nothing |
| MetadataLoader.BuildZodSchemaForParameter | src/tools/metadata-loader.ts:59-116 | the converter method, with its loop over object properties, computes exactly the recursive definition `ParameterSchema` |
| MetadataLoader.BuildZodSchema | src/tools/metadata-loader.ts:124-141 | the result is an object schema over the parameter shape exactly when every parameter converts, and the first error otherwise |
| MetadataLoader.PropertySchemas | src/tools/metadata-loader.ts:89-100 | a converted property list has one entry per property |
| MetadataLoader.PropertySchemasPrefixErr | src/tools/metadata-loader.ts:95-98 | the first property that fails to convert decides the error, so no later property is looked at |
| MetadataLoader.ShapeOfPrefixErr | src/tools/metadata-loader.ts:129-138 | the first parameter that fails to convert decides the error |
| MetadataLoader.ParameterSchemaOkIff | src/tools/metadata-loader.ts:59-116 | a parameter converts exactly when its tree is well formed: a known type at every node, options for enums, items for arrays and properties for objects |
| MetadataLoader.PropertySchemasOkIff | src/tools/metadata-loader.ts:89-100 | a property list converts exactly when every property is well formed |
| MetadataLoader.ParameterErrors | src/tools/metadata-loader.ts:76-102 | an enum without options, an array without items, an object without properties, and an unknown type each raise their own message naming the parameter or the type |
| MetadataLoader.ArrayItemNamed | src/tools/metadata-loader.ts:82-88 | an array's items are converted under the name `${name}Item`; their error is the array's error, and otherwise the array wraps the item schema |
| MetadataLoader.PropertySchemasShape | src/tools/metadata-loader.ts:89-100 | the object shape has the property names as keys, in order, each mapped to that property's schema |
| MetadataLoader.PropertySchemasPointwise | src/tools/metadata-loader.ts:89-100 | entry i of the object shape is property i's name and converted schema |
| MetadataLoader.ObjectKeepsKeys | src/tools/metadata-loader.ts:89-100 | a converted object schema has exactly the property names as its keys |
| MetadataLoader.ParameterModifiers | src/tools/metadata-loader.ts:105-113 | a schema is optional exactly when `required` is false or a default is given; a description is attached exactly when it is non-empty; the converter attaches no default |
| MetadataLoader.ShapeOfKeepsKeysAndDefaults | src/tools/metadata-loader.ts:124-141 | the shape keeps exactly the parameter keys in order, and each schema is the parameter's converted schema with its default attached where one is defined |
| MetadataLoader.ShapeOfPointwise | src/tools/metadata-loader.ts:124-141 | entry i of the shape is parameter i's key and converted schema with its default |
| MetadataLoader.DefaultsWhereDefined | src/tools/metadata-loader.ts:132-137 | each shape entry has a default exactly when its parameter defines one |
| MetadataLoader.ShapeOfOkIff | src/tools/metadata-loader.ts:124-141 | the shape builds exactly when every parameter is well formed |
| MetadataLoader.LoadToolMetadataAccepts | src/tools/metadata-loader.ts:149-185 | loading succeeds exactly when the document was read and has a truthy name and description, parameters and annotations; it then returns the document unchanged, and every error starts with `Failed to load metadata from <path>: ` |
| MetadataLoader.MissingFieldReported | src/tools/metadata-loader.ts:167-184 | the first missing field, checked in the order name, description, parameters, annotations, is reported with its own message, wrapped in the load error |
| MetadataLoader.MetadataFilenameReplacesFirst | src/tools/metadata-loader.ts:192-194 | the first `.ts` is replaced by `.yaml` and the rest is kept; a name without `.ts` is unchanged |
| MetadataLoader.MetadataFilenameExample | src/tools/metadata-loader.ts:192-194 | `scroll.ts` gives `scroll.yaml` |
| GenerateAllLocators.ShouldIncludeIff | src/locators/generate-all-locators.ts:47-98 | an element is included exactly when: its tag is listed (if a list is given), it is not excluded, it has one required attribute with a value, it has no fewer attributes than the minimum, it is clickable when asked, and it is interactable when asked |
| GenerateAllLocators.DefaultFiltersAdmit | src/locators/generate-all-locators.ts:35-42 | with no filters, every element except a `hierarchy` element is included |
| GenerateAllLocators.StricterFiltersAdmitLess | src/locators/generate-all-locators.ts:56-95 | turning on clickableOnly or fetchableOnly, or excluding one more tag, never admits an element that was rejected before |
| GenerateAllLocators.InteractableByTag | src/locators/generate-all-locators.ts:79-92 | `android.widget.TextView` counts as interactable by its tag alone |
| GenerateAllLocators.Put | src/locators/generate-all-locators.ts:121 | writing a key into a record keeps keys unique, makes that key hold the new value, leaves every other key unchanged and adds no other keys |
| GenerateAllLocators.FromEntriesLookup | src/locators/generate-all-locators.ts:121 | `Object.fromEntries` has each key once, holding the value of its last entry |
| GenerateAllLocators.Attempt | src/locators/generate-all-locators.ts:109-134 | a row is produced exactly when the locator generator succeeds and the element has attributes; otherwise the error line names the element's path |
| GenerateAllLocators.RowFields | src/locators/generate-all-locators.ts:119-128 | text, content-desc and resource-id are the attribute value or empty; the three flags are true exactly when the attribute is the string `true`; each strategy holds its last suggestion |
| GenerateAllLocators.LocatorCollector.constructor | src/locators/generate-all-locators.ts:45 | the collected rows and error lines start empty |
| GenerateAllLocators.LocatorCollector.Visit | src/locators/generate-all-locators.ts:109-134 | visiting one element appends its row or its error line, and nothing when it is filtered out |
| GenerateAllLocators.LocatorCollector.Traverse | src/locators/generate-all-locators.ts:100-140 | the walk appends the rows and the error lines of the element and its whole subtree, in visiting order |
| GenerateAllLocators.GenerateAllElementLocators | src/locators/generate-all-locators.ts:29-148 | no tree gives no rows; otherwise the rows and errors are those of the walk under the resolved filters |
| GenerateAllLocators.Flatten | src/locators/generate-all-locators.ts:100-140 | the pre-order listing of a tree starts with its root |
| GenerateAllLocators.Included | src/locators/generate-all-locators.ts:101 | only included elements are kept |
| GenerateAllLocators.VisitsArePreorder | src/locators/generate-all-locators.ts:100-140 | the attempts of a walk are those of the included elements of the tree in pre-order; children of excluded elements are still visited |
| GenerateAllLocators.VisitsAllArePreorder | src/locators/generate-all-locators.ts:103-105 | the attempts for a list of children are those of their included descendants, in pre-order |
| GenerateAllLocators.OutputIsIncludedElements | src/locators/generate-all-locators.ts:100-147 | when the locator generator never fails, the output is exactly one row per included element, in document order, and no error line |
| GenerateAllLocators.IncludedSubset | src/locators/generate-all-locators.ts:100-140 | every element kept comes from the tree |
| GenerateAllLocators.SuccessesAppend | src/locators/generate-all-locators.ts:109-134 | rows and error lines accumulate piece by piece over consecutive attempts |
| GenerateAllLocators.CsvTable | src/locators/generate-all-locators.ts:161-187 | the table has the header row and one row per result |
| GenerateAllLocators.CsvShape | src/locators/generate-all-locators.ts:161-186 | the header has 12 names starting `Path`, `TagName`, while every data row has 10 cells, starting with the tag name, with the clickable flag in cell 4 |
| GenerateAllLocators.LineRoundTrip | src/locators/generate-all-locators.ts:188 | a line of quoted cells splits back at its commas into the original cells, when no cell has a comma or a newline |
| GenerateAllLocators.CsvRoundTrip | src/locators/generate-all-locators.ts:187-189 | the CSV content parses back into the table when no cell has a comma or a newline |
| GenerateAllLocators.Escape | src/locators/generate-all-locators.ts:157 | JSON string escaping leaves no control character |
| GenerateAllLocators.EscapeRoundTrip | src/locators/generate-all-locators.ts:157 | unescaping an escaped string gives it back |
| GenerateAllLocators.JsonStringRoundTrip | src/locators/generate-all-locators.ts:157 | a JSON string literal is quoted and its body unescapes to the original string |
| GenerateAllLocators.JsonItems | src/locators/generate-all-locators.ts:157 | one indented object per result, in order |
| GenerateAllLocators.JsonShape | src/locators/generate-all-locators.ts:157 | an empty list prints as `[]`; otherwise the content opens with `[` and a newline, then the first indented object, and closes with a newline and `]` |
| GenerateAllLocators.ExportResults | src/locators/generate-all-locators.ts:151-199 | the format, `json` by default, is matched case-insensitively; json or csv give the file name `<filename>.<format>` with that content; any other format raises `Unsupported format:` with the format as given |
| GenerateAllLocators.ExportIgnoresCase | src/locators/generate-all-locators.ts:155 | a format and its lower-case form give the same result |
| GenerateAllLocators.ExportUpperCaseCsv | src/locators/generate-all-locators.ts:155-190 | `CSV` with file name `out` gives `out.csv` with the CSV content |
| JsString.IndexOf | src/tools/scroll-to-element.ts:6-8 | JavaScript `indexOf`: the first occurrence at or after the clamped start, or -1 exactly when there is none |
| JsString.ReplaceChar | src/tools/scroll-to-element.ts:16 | replacing one character everywhere keeps the length and changes only that character |
| JsString.ToLower | src/locators/generate-all-locators.ts:155 | lower-casing keeps the length and maps each character on its own |
| JsString.ToLowerIdempotent | src/healing/element-healer.ts:68 | lower-casing twice is the same as lower-casing once |
| JsString.SplitJoin | src/locators/generate-all-locators.ts:188-189 | splitting a join at its separator gives back the parts when no part holds the separator |

## Left out

- The AI healer is not part of this model. That covers the Gemini call, the image processing and the confidence sort in src/healing/ai-healer.ts. Its ranked suggestions are an input list.
- `setTimeout` sleeps, `Date.now`, ISO timestamps and the `timeTakenMs` fields of results are left out. Delays are a recorded list. One elapsed time per call is given as an input and stamped on every logged event.
- winston, the `healing-logs` directory and all console output are left out. The logger's sink is recorded as a list of (level, message, event) records.
- The session store, `instanceof` platform detection and tool registration are left out. That includes the `execute` bodies of the scroll tools, their iOS branches, their response texts and the unused `scrollOniOSToElement`. The driver is a value of oracles.
- File and YAML I/O are left out. `loadToolMetadata` takes the parsed document, or the read error, as input. `fs.writeFileSync` in `exportResults` is left out, and the model returns the file name and content instead.
- The XML-to-JSON parser and the per-element locator generator are not part of this model. The parsed tree is an input, and the generator is an oracle that returns (strategy, selector) pairs or fails.
- Strategies.ExtractKeyword: counts characters, not UTF-16 code units. JavaScript's `substring(0, 20)` counts code units, so a selector with characters outside the Basic Multilingual Plane can be cut at a different place, or inside a surrogate pair.
- ScrollToElement.GetValue: counts characters, not UTF-16 code units. `indexOf` and `substring` in JavaScript count code units; the answer is the same text for selectors without characters outside the Basic Multilingual Plane.
- Config.Merge: numbers are integers. A fractional `maxRetries` or `retryDelayMs` is not modelled; in the source the fallback loop counts `attempt` from 1 while `attempt <= maxRetries`, so a positive fractional `maxRetries` runs it floor(maxRetries) times.
- Config.HealingConfigStore.GetHealingConfig: returns a value. The source returns the active object itself, which after a mode selection is the shared preset object, so a caller that mutates it changes the preset; that aliasing is not modelled.
- JsString.ToLower: maps ASCII letters only. Every comparison the source makes after lower-casing (`ios`, `json`, `csv`) gives the same answer either way.
- Floating point is left out. The success rate and average time are `real` values, and the `toFixed` text of `generateReport` is not modelled; the report is a record of its counts.
- Fields set explicitly to `undefined` or `null` in a partial configuration or filter options are left out; a field is either given or absent. A fractional `minAttributeCount` is left out too.
- Records keep insertion order. JavaScript lists integer-like keys first in `Object.keys` and `JSON.stringify`; this is not modelled.
- Attributes are looked up as own keys only. Lookups that reach the prototype chain are not modelled.
- The error object that `console.error` prints beside the error line is left out.
- The JSON unescaper used in the round-trip lemmas reads back only the escapes the escaper writes.
