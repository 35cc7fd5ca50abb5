/**
 * The pure locator translation behind the `appium_scroll_to_element` and
 * `appium_scroll` tools. On Android an element is reached by asking
 * UiAutomator to scroll a `UiScrollable` until a `UiSelector` matches, so a
 * WebDriver locator (strategy, selector) is first rewritten into a
 * `UiSelector` method name and its argument:
 *   - `getValue` takes the quoted value that follows an XPath predicate;
 *   - `transformXPath` recognises four XPath predicate shapes, first hit wins;
 *   - `transformLocator` renames `id` and `class name` and sends `xpath`
 *     through `transformXPath`;
 * and the result is put into a fixed UiScrollable selector template.
 * The two tool files carry identical copies of these helpers; they are
 * defined once here.
 */
module ScrollToElement {
  import opened Wrappers
  import opened JsString

  /** A `{ strategy, selector }` pair. */
  datatype Locator = Locator(strategy: string, selector: string)

  /** `getValue(xpath, expression)`: the text between the first `'` after
      the first occurrence of `expression` and the next `'`, with the exact
      `indexOf`/`substring` behaviour when either is missing. */
  function GetValue(xpath: string, expression: string): string {
    var start := ValueStart(xpath, expression);
    Substring(xpath, start, IndexOf(xpath, "'", start))
  }

  /** One past the first `'` after the first occurrence of `expression`
      (0 when there is no such `'`). */
  function ValueStart(xpath: string, expression: string): int {
    var afterExpression := IndexOf(xpath, expression, 0) + |expression|;
    IndexOf(xpath, "'", afterExpression) + 1
  }

  const TextExpr := "@text="
  const DescExpr := "@content-desc="
  const TextContainsExpr := "contains(@text,"
  const DescContainsExpr := "contains(@content-desc,"

  /** The xpath with every `"` replaced by `'`. */
  function Normalise(xpath: string): (x: string)
    ensures |x| == |xpath| && '"' !in x
  {
    ReplaceChar(xpath, '"', '\'')
  }

  function UnsupportedMessage(x: string): string {
    "Unsupported XPath expression: " + x
      + ". Supported expressions are: @text, @content-desc, contains(@text, ...), contains(@content-desc, ...)"
  }

  /** `transformXPath`; the thrown `Error` becomes `Err`. */
  function TransformXPath(xpath: string): Result<Locator> {
    var x := Normalise(xpath);
    if Includes(x, TextExpr) then Ok(Locator("text", GetValue(x, TextExpr)))
    else if Includes(x, DescExpr) then Ok(Locator("description", GetValue(x, DescExpr)))
    else if Includes(x, TextContainsExpr) then Ok(Locator("textContains", GetValue(x, TextContainsExpr)))
    else if Includes(x, DescContainsExpr) then Ok(Locator("descriptionContains", GetValue(x, DescContainsExpr)))
    else Err(UnsupportedMessage(x))
  }

  /** `transformLocator`. */
  function TransformLocator(strategy: string, selector: string): Result<Locator> {
    if strategy == "id" then Ok(Locator("resourceId", selector))
    else if strategy == "xpath" then TransformXPath(selector)
    else if strategy == "class name" then Ok(Locator("className", selector))
    else Ok(Locator(strategy, selector))
  }

  const ScrollPrefix := "new UiScrollable(new UiSelector().scrollable(true)).scrollIntoView(new UiSelector()."
  const ScrollSuffix := "\"))"

  /** The UiAutomator selector that scrolls until `l` is visible. */
  function UiScrollableSelector(l: Locator): string {
    ScrollPrefix + l.strategy + "(\"" + l.selector + ScrollSuffix
  }

  /** The Android branch of both tools: translate, then fill the template;
      an unsupported xpath propagates its error. */
  function AndroidScrollSelector(strategy: string, selector: string): Result<string> {
    match TransformLocator(strategy, selector)
    case Ok(l) => Ok(UiScrollableSelector(l))
    case Err(e) => Err(e)
  }

  // ---------------------------------------------------------------------
  // Reference definitions

  /** The four XPath shapes, each with its `UiSelector` method, in the order
      they are tried. */
  const Rules: seq<(string, string)> := [
    (TextExpr, "text"),
    (DescExpr, "description"),
    (TextContainsExpr, "textContains"),
    (DescContainsExpr, "descriptionContains")
  ]

  /** Reads a UiScrollable selector back into the locator it was built from;
      the method name ends at the first `("`. */
  function ParseUiScrollableSelector(s: string): Option<Locator> {
    if |s| >= |ScrollPrefix| + |ScrollSuffix| && s[..|ScrollPrefix|] == ScrollPrefix
       && s[|s| - |ScrollSuffix|..] == ScrollSuffix
    then
      var body := s[|ScrollPrefix|..|s| - |ScrollSuffix|];
      var i := IndexOf(body, "(\"", 0);
      if 0 <= i && i + 2 <= |body| then Some(Locator(body[..i], body[i + 2..])) else None
    else None
  }

  // ---------------------------------------------------------------------
  // Properties

  /** The first `c` at or after `from` is where `indexOf` stops. */
  lemma FirstChar(s: string, c: char, from: nat, q: nat)
    requires from <= q < |s| && s[q] == c
    requires forall k :: from <= k < q ==> s[k] != c
    ensures IndexOf(s, [c], from) == q
  {
    assert s[q..q + 1] == [c];
    forall k | from <= k < q
      ensures !OccursAt(s, [c], k)
    {
      assert s[k..k + 1][0] == s[k];
    }
    IndexOfFirst(s, [c], from, q);
  }

  /** The value starts right after the first `'` that follows `expression`. */
  lemma ValueStartAt(xpath: string, expression: string, p: nat, q1: nat)
    requires IndexOf(xpath, expression, 0) == p
    requires p + |expression| <= q1 < |xpath| && xpath[q1] == '\''
    requires forall k :: p + |expression| <= k < q1 ==> xpath[k] != '\''
    ensures ValueStart(xpath, expression) == q1 + 1
  {
    assert "'" == ['\''];
    FirstChar(xpath, '\'', p + |expression|, q1);
  }

  /** When the first occurrence of `expression` (at `p`) is followed by a `'`
      at `q1` and the next `'` is at `q2`, `getValue` returns exactly the
      characters strictly between them, and none of them is a `'`. */
  lemma GetValueBetweenQuotes(xpath: string, expression: string, p: nat, q1: nat, q2: nat)
    requires IndexOf(xpath, expression, 0) == p
    requires p + |expression| <= q1 < q2 < |xpath|
    requires xpath[q1] == '\'' && xpath[q2] == '\''
    requires forall k :: p + |expression| <= k < q1 ==> xpath[k] != '\''
    requires forall k :: q1 < k < q2 ==> xpath[k] != '\''
    ensures GetValue(xpath, expression) == xpath[q1 + 1..q2]
    ensures '\'' !in GetValue(xpath, expression)
  {
    ValueStartAt(xpath, expression, p, q1);
    assert "'" == ['\''];
    FirstChar(xpath, '\'', q1 + 1, q2);
    assert IndexOf(xpath, "'", q1 + 1) == q2;
    assert GetValue(xpath, expression) == Substring(xpath, q1 + 1, q2);
    assert Clamp(q1 + 1, |xpath|) == q1 + 1 && Clamp(q2, |xpath|) == q2;
    var v := xpath[q1 + 1..q2];
    assert forall i :: 0 <= i < |v| ==> v[i] == xpath[q1 + 1 + i];
    assert forall i :: 0 <= i < |v| ==> v[i] != '\'';
  }

  /** The first rule whose shape occurs in `x`. */
  function FirstRule(x: string, rules: seq<(string, string)>): Option<(string, string)> {
    if |rules| == 0 then None
    else if Includes(x, rules[0].0) then Some(rules[0])
    else FirstRule(x, rules[1..])
  }

  /** `FirstRule` finds nothing exactly when no shape occurs, and otherwise
      the earliest rule whose shape occurs. */
  lemma {:induction false} FirstRuleIsFirst(x: string, rules: seq<(string, string)>)
    ensures FirstRule(x, rules).None? <==> forall i :: 0 <= i < |rules| ==> !Includes(x, rules[i].0)
    ensures FirstRule(x, rules).Some? ==>
      exists i :: 0 <= i < |rules| && FirstRule(x, rules).value == rules[i] && Includes(x, rules[i].0)
        && forall j :: 0 <= j < i ==> !Includes(x, rules[j].0)
    decreases |rules|
  {
    if |rules| > 0 && !Includes(x, rules[0].0) {
      FirstRuleIsFirst(x, rules[1..]);
      assert forall i :: 1 <= i < |rules| ==> rules[i] == rules[1..][i - 1];
      if FirstRule(x, rules[1..]).Some? {
        var i :| 0 <= i < |rules[1..]| && FirstRule(x, rules[1..]).value == rules[1..][i]
          && Includes(x, rules[1..][i].0) && forall j :: 0 <= j < i ==> !Includes(x, rules[1..][j].0);
        assert FirstRule(x, rules).value == rules[i + 1];
        assert forall j :: 0 <= j < i + 1 ==> !Includes(x, rules[j].0) by {
          forall j | 0 <= j < i + 1
            ensures !Includes(x, rules[j].0)
          {
            if j > 0 {
              assert rules[j] == rules[1..][j - 1];
            }
          }
        }
      }
    }
  }

  /** `transformXPath` is the first-matching-rule translation of the
      normalised xpath over `Rules`, and fails with the
      "Unsupported XPath expression" message when no rule matches. */
  lemma TransformXPathByRules(xpath: string)
    ensures var x := Normalise(xpath);
      TransformXPath(xpath) == match FirstRule(x, Rules)
        case Some(rule) => Ok(Locator(rule.1, GetValue(x, rule.0)))
        case None => Err(UnsupportedMessage(x))
  {
    var x := Normalise(xpath);
    var r1 := [(DescExpr, "description"), (TextContainsExpr, "textContains"), (DescContainsExpr, "descriptionContains")];
    var r2 := [(TextContainsExpr, "textContains"), (DescContainsExpr, "descriptionContains")];
    var r3 := [(DescContainsExpr, "descriptionContains")];
    assert Rules[1..] == r1 && r1[1..] == r2 && r2[1..] == r3 && r3[1..] == [];
    if Includes(x, TextExpr) {
      assert FirstRule(x, Rules) == Some(Rules[0]);
    } else if Includes(x, DescExpr) {
      assert FirstRule(x, Rules) == FirstRule(x, r1) == Some(r1[0]);
    } else if Includes(x, TextContainsExpr) {
      assert FirstRule(x, Rules) == FirstRule(x, r1) == FirstRule(x, r2) == Some(r2[0]);
    } else if Includes(x, DescContainsExpr) {
      assert FirstRule(x, Rules) == FirstRule(x, r1) == FirstRule(x, r2) == FirstRule(x, r3) == Some(r3[0]);
    } else {
      assert FirstRule(x, Rules) == FirstRule(x, r1) == FirstRule(x, r2) == FirstRule(x, r3) == FirstRule(x, []) == None;
    }
  }

  /** `getValue` only ever returns characters of the xpath. */
  lemma GetValueChars(xpath: string, expression: string)
    ensures forall c :: c in GetValue(xpath, expression) ==> c in xpath
  {
    var afterExpression := IndexOf(xpath, expression, 0) + |expression|;
    var start := IndexOf(xpath, "'", afterExpression) + 1;
    SubstringChars(xpath, start, IndexOf(xpath, "'", start));
  }

  /** No target method name holds a `(`. */
  lemma PlainMethodNames()
    ensures '(' !in "text" && '(' !in "description" && '(' !in "textContains" && '(' !in "descriptionContains"
  {
  }

  /** A successful `transformXPath` names one of the four `UiSelector`
      methods, and its value holds no `"`, so it cannot break out of the
      template's string literal. */
  lemma TransformXPathResult(xpath: string)
    ensures TransformXPath(xpath).Ok? ==>
      TransformXPath(xpath).value.strategy in {"text", "description", "textContains", "descriptionContains"}
    ensures TransformXPath(xpath).Ok? ==> '(' !in TransformXPath(xpath).value.strategy
    ensures TransformXPath(xpath).Ok? ==> '"' !in TransformXPath(xpath).value.selector
  {
    var x := Normalise(xpath);
    PlainMethodNames();
    if Includes(x, TextExpr) {
      GetValueChars(x, TextExpr);
    } else if Includes(x, DescExpr) {
      GetValueChars(x, DescExpr);
    } else if Includes(x, TextContainsExpr) {
      GetValueChars(x, TextContainsExpr);
    } else if Includes(x, DescContainsExpr) {
      GetValueChars(x, DescContainsExpr);
    }
  }

  /** An unsupported xpath is reported with its normalised text. */
  lemma TransformXPathError(xpath: string)
    ensures TransformXPath(xpath).Err? ==> TransformXPath(xpath).error == UnsupportedMessage(Normalise(xpath))
  {
    var x := Normalise(xpath);
    if !Includes(x, TextExpr) && !Includes(x, DescExpr) && !Includes(x, TextContainsExpr) && !Includes(x, DescContainsExpr) {
      assert TransformXPath(xpath) == Err(UnsupportedMessage(x));
    } else {
      assert TransformXPath(xpath).Ok?;
    }
  }

  /** `transformLocator` changes only `id`, `xpath` and `class name`
      locators, keeps the selector unless it routes through
      `transformXPath`, and only an xpath can fail. */
  lemma TransformLocatorRenames(strategy: string, selector: string)
    ensures strategy == "id" ==> TransformLocator(strategy, selector) == Ok(Locator("resourceId", selector))
    ensures strategy == "class name" ==> TransformLocator(strategy, selector) == Ok(Locator("className", selector))
    ensures strategy == "xpath" ==> TransformLocator(strategy, selector) == TransformXPath(selector)
    ensures strategy !in {"id", "xpath", "class name"} ==>
      TransformLocator(strategy, selector) == Ok(Locator(strategy, selector))
    ensures TransformLocator(strategy, selector).Err? ==> strategy == "xpath"
  {
  }

  /** The template is faithful: the method name and argument can be read
      back from the selector whenever the method name holds no `(`. */
  lemma UiScrollableSelectorRoundTrip(l: Locator)
    requires '(' !in l.strategy
    ensures ParseUiScrollableSelector(UiScrollableSelector(l)) == Some(l)
  {
    var s := UiScrollableSelector(l);
    var body := l.strategy + "(\"" + l.selector;
    assert s == ScrollPrefix + body + ScrollSuffix;
    assert s[..|ScrollPrefix|] == ScrollPrefix;
    assert s[|s| - |ScrollSuffix|..] == ScrollSuffix;
    assert s[|ScrollPrefix|..|s| - |ScrollSuffix|] == body;
    var n := |l.strategy|;
    assert body[n..n + 2] == "(\"";
    forall k | 0 <= k < n
      ensures !OccursAt(body, "(\"", k)
    {
      assert body[k] == l.strategy[k];
      if k + 2 <= |body| {
        assert body[k..k + 2][0] == body[k];
      }
    }
    IndexOfFirst(body, "(\"", 0, n);
    assert body[..n] == l.strategy;
    assert body[n + 2..] == l.selector;
  }

  /** The Android scroll selector is the template filled with the translated
      locator, which reads back unchanged; it fails only for an xpath that
      `transformXPath` rejects, with that error. */
  lemma AndroidScrollSelectorTemplate(strategy: string, selector: string)
    requires '(' !in strategy
    ensures var t := TransformLocator(strategy, selector);
      AndroidScrollSelector(strategy, selector).Ok? <==> t.Ok?
    ensures var t := TransformLocator(strategy, selector);
      t.Ok? ==>
        (AndroidScrollSelector(strategy, selector).value
           == ScrollPrefix + t.value.strategy + "(\"" + t.value.selector + "\"))"
         && ParseUiScrollableSelector(AndroidScrollSelector(strategy, selector).value) == Some(t.value))
    ensures AndroidScrollSelector(strategy, selector).Err? ==>
      strategy == "xpath" && AndroidScrollSelector(strategy, selector).error == UnsupportedMessage(Normalise(selector))
  {
    var t := TransformLocator(strategy, selector);
    TransformLocatorRenames(strategy, selector);
    if t.Ok? {
      if strategy == "xpath" {
        TransformXPathResult(selector);
      }
      UiScrollableSelectorRoundTrip(t.value);
    } else {
      assert t == TransformXPath(selector);
      TransformXPathError(selector);
    }
  }
}
