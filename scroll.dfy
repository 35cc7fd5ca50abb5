/**
 * The `scroll_to_element` tool of src/tools/scroll.ts. Its `getValue`,
 * `transformXPath` and `transformLocator` are character-for-character the
 * helpers of the `appium_scroll_to_element` tool, so this module reuses the
 * definitions of `ScrollToElement` and states what scroll.ts relies on in
 * forms of its own: a value read out of a concrete quoted predicate, the
 * dispatch order of the four XPath shapes, and translation being stable.
 */
module Scroll {
  import opened Wrappers
  import opened JsString
  import opened ScrollToElement

  /** The Android branch of `scroll_to_element`: translate the locator, then
      build the UiScrollable selector handed to `-android uiautomator`. */
  function ScrollSelector(strategy: string, selector: string): (r: Result<string>)
    ensures r.Ok? <==> TransformLocator(strategy, selector).Ok?
    ensures r.Err? ==> r.error == TransformLocator(strategy, selector).error
    ensures r.Ok? && '(' !in strategy ==>
      ParseUiScrollableSelector(r.value) == Some(TransformLocator(strategy, selector).value)
  {
    match TransformLocator(strategy, selector)
    case Ok(l) =>
      var sel := "new UiScrollable(new UiSelector().scrollable(true)).scrollIntoView(new UiSelector()." + l.strategy + "(\"" + l.selector + "\"))";
      assert '(' !in strategy ==> ParseUiScrollableSelector(sel) == Some(l) by {
        if '(' !in strategy {
          AndroidScrollSelectorTemplate(strategy, selector);
        }
      }
      Ok(sel)
    case Err(e) => Err(e)
  }

  /** Both tools hand the driver the same selector for every locator. */
  lemma SameSelectorAsScrollToElement(strategy: string, selector: string)
    ensures ScrollSelector(strategy, selector) == AndroidScrollSelector(strategy, selector)
  {
  }

  /** A quoted value read out of a concrete predicate: when `expression` first
      occurs right after `pre`, and is followed by quote-free text `gap`, a
      `'`, the value `v` and another `'`, `getValue` returns exactly `v`. */
  lemma GetValueOfPredicate(pre: string, expression: string, gap: string, v: string, rest: string)
    requires forall k :: 0 <= k < |pre| ==> !OccursAt(pre + expression, expression, k)
    requires '\'' !in gap && '\'' !in v
    ensures GetValue(pre + expression + gap + "'" + v + "'" + rest, expression) == v
  {
    var head := pre + expression;
    var x := head + gap + "'" + v + "'" + rest;
    FirstOccurrenceAfter(pre, expression, gap + "'" + v + "'" + rest);
    assert x == head + (gap + "'" + v + "'" + rest);
    QuotesAfter(head, gap, v, rest);
    GetValueBetweenQuotes(x, expression, |pre|, |head| + |gap|, |head| + |gap| + 1 + |v|);
  }

  /** `expression` first occurs right after `pre` when no earlier position
      of `pre + expression` starts it. */
  lemma FirstOccurrenceAfter(pre: string, expression: string, tail: string)
    requires forall k :: 0 <= k < |pre| ==> !OccursAt(pre + expression, expression, k)
    ensures IndexOf(pre + expression + tail, expression, 0) == |pre|
  {
    var x := pre + expression + tail;
    var p := |pre|;
    assert x[..p + |expression|] == pre + expression;
    assert OccursAt(x, expression, p) by {
      assert x[p..p + |expression|] == expression;
    }
    forall k | 0 <= k < p
      ensures !OccursAt(x, expression, k)
    {
      assert !OccursAt(pre + expression, expression, k);
    }
    IndexOfFirst(x, expression, 0, p);
  }

  /** Where the quotes sit in `head + gap + "'" + v + "'" + rest`. */
  lemma QuotesAfter(head: string, gap: string, v: string, rest: string)
    requires '\'' !in gap && '\'' !in v
    ensures var x := head + gap + "'" + v + "'" + rest;
      var q1, q2 := |head| + |gap|, |head| + |gap| + 1 + |v|;
      && q2 < |x| && x[q1] == '\'' && x[q2] == '\''
      && (forall k :: |head| <= k < q1 ==> x[k] != '\'')
      && (forall k :: q1 < k < q2 ==> x[k] != '\'')
      && x[q1 + 1..q2] == v
  {
    var x := head + gap + "'" + v + "'" + rest;
    var q1, q2 := |head| + |gap|, |head| + |gap| + 1 + |v|;
    forall k | |head| <= k < q1
      ensures x[k] != '\''
    {
      assert x[k] == gap[k - |head|];
    }
    forall k | q1 < k < q2
      ensures x[k] != '\''
    {
      assert x[k] == v[k - q1 - 1];
    }
    assert x[q1 + 1..q2] == v;
  }

  /** The dispatch order of `transformXPath` on the normalised xpath `x`:
      each shape is used only when every earlier shape is absent, and the
      value is read after that shape. */
  lemma XPathDispatchOrder(xpath: string)
    ensures var x := Normalise(xpath);
      && (Includes(x, "@text=") ==> TransformXPath(xpath) == Ok(Locator("text", GetValue(x, "@text="))))
      && (!Includes(x, "@text=") && Includes(x, "@content-desc=") ==>
            TransformXPath(xpath) == Ok(Locator("description", GetValue(x, "@content-desc="))))
      && (!Includes(x, "@text=") && !Includes(x, "@content-desc=") && Includes(x, "contains(@text,") ==>
            TransformXPath(xpath) == Ok(Locator("textContains", GetValue(x, "contains(@text,"))))
      && (!Includes(x, "@text=") && !Includes(x, "@content-desc=") && !Includes(x, "contains(@text,")
          && Includes(x, "contains(@content-desc,") ==>
            TransformXPath(xpath) == Ok(Locator("descriptionContains", GetValue(x, "contains(@content-desc,"))))
  {
  }

  /** An xpath fails exactly when none of the four shapes occurs after
      normalisation, and the error quotes the normalised xpath. */
  lemma UnsupportedXPath(xpath: string)
    ensures var x := Normalise(xpath);
      TransformXPath(xpath).Err? <==>
        !Includes(x, "@text=") && !Includes(x, "@content-desc=")
        && !Includes(x, "contains(@text,") && !Includes(x, "contains(@content-desc,")
    ensures TransformXPath(xpath).Err? ==>
      TransformXPath(xpath).error == "Unsupported XPath expression: " + Normalise(xpath)
        + ". Supported expressions are: @text, @content-desc, contains(@text, ...), contains(@content-desc, ...)"
  {
  }

  /** Translation is stable: a translated locator is never one of the
      strategies `transformLocator` rewrites, so translating it again changes
      nothing. */
  lemma TransformLocatorStable(strategy: string, selector: string)
    ensures var t := TransformLocator(strategy, selector);
      t.Ok? ==> (t.value.strategy !in {"id", "xpath", "class name"}
                 && TransformLocator(t.value.strategy, t.value.selector) == t)
  {
    if strategy == "xpath" {
      TransformXPathResult(selector);
    }
  }
}
