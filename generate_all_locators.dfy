/**
 * src/locators/generate-all-locators.ts: walk the page-source tree, keep
 * the elements the filters admit, record each with the locators suggested
 * for it, and render the records as CSV or JSON text.
 *
 * The XML-to-JSON parser and the per-element locator generator live in
 * files that are not part of this model: the parsed tree is an input, and
 * the generator is the oracle `suggest`, which either yields the
 * (strategy, selector) pairs or fails (the `catch` at lines 129-134).
 */
module GenerateAllLocators {
  import opened Wrappers
  import opened JsString

  // ---------------------------------------------------------------------
  // Elements and filters
  // ---------------------------------------------------------------------

  /** A node of the parsed page source. */
  datatype JSONElement = JSONElement(
    tagName: string,
    attributes: Option<map<string, string>>,
    children: seq<JSONElement>,
    path: string)

  /** `element.attributes?.[name]`. */
  function Attribute(e: JSONElement, name: string): Option<string> {
    if e.attributes.Some? && name in e.attributes.value then Some(e.attributes.value[name]) else None
  }

  /** The attribute is truthy: present and non-empty. */
  predicate HasValue(e: JSONElement, name: string) {
    Attribute(e, name).Some? && Attribute(e, name).value != ""
  }

  /** `element.attributes?.[name] === 'true'`. */
  predicate IsTrue(e: JSONElement, name: string) {
    Attribute(e, name) == Some("true")
  }

  /** The filters as a caller passes them; a missing field takes its default. */
  datatype FilterOptions = FilterOptions(
    includeTagNames: Option<seq<string>>,
    excludeTagNames: Option<seq<string>>,
    requireAttributes: Option<seq<string>>,
    minAttributeCount: Option<int>,
    fetchableOnly: Option<bool>,
    clickableOnly: Option<bool>)

  /** `filters = {}`. */
  const NoFilters := FilterOptions(None, None, None, None, None, None)

  /** The filters after the defaults are applied. */
  datatype Filters = Filters(
    includeTagNames: seq<string>,
    excludeTagNames: seq<string>,
    requireAttributes: seq<string>,
    minAttributeCount: int,
    fetchableOnly: bool,
    clickableOnly: bool)

  /** The destructuring with defaults at the head of generateAllElementLocators. */
  function Resolve(o: FilterOptions): Filters {
    Filters(
      o.includeTagNames.GetOr([]),
      o.excludeTagNames.GetOr(["hierarchy"]),
      o.requireAttributes.GetOr([]),
      o.minAttributeCount.GetOr(0),
      o.fetchableOnly.GetOr(false),
      o.clickableOnly.GetOr(false))
  }

  const InteractableTags: seq<string> :=
    ["EditText", "Button", "ImageButton", "CheckBox", "RadioButton", "Switch", "ToggleButton", "TextView"]

  /** The `fetchableOnly` test: the tag contains an interactable class name,
      or the element is clickable or focusable. */
  predicate Interactable(e: JSONElement) {
    (exists t :: t in InteractableTags && Includes(e.tagName, t))
    || IsTrue(e, "clickable") || IsTrue(e, "focusable")
  }

  /** shouldIncludeElement: the rules in their order, each able to reject. */
  predicate ShouldInclude(f: Filters, e: JSONElement) {
    if |f.includeTagNames| > 0 && e.tagName !in f.includeTagNames then false
    else if e.tagName in f.excludeTagNames then false
    else if |f.requireAttributes| > 0 && !(exists a :: a in f.requireAttributes && HasValue(e, a)) then false
    else if e.attributes.Some? && |e.attributes.value| < f.minAttributeCount then false
    else if f.clickableOnly && !IsTrue(e, "clickable") then false
    else if f.fetchableOnly && !Interactable(e) then false
    else true
  }

  /** An element is included exactly when it passes every rule: listed when
      a list is given, not excluded, carrying one required attribute with a
      value, not short of attributes, clickable when asked and interactable
      when asked. An element without attributes passes the count rule. */
  lemma ShouldIncludeIff(f: Filters, e: JSONElement)
    ensures ShouldInclude(f, e) <==>
      && (|f.includeTagNames| > 0 ==> e.tagName in f.includeTagNames)
      && e.tagName !in f.excludeTagNames
      && (|f.requireAttributes| > 0 ==> exists a :: a in f.requireAttributes && HasValue(e, a))
      && (e.attributes.Some? ==> |e.attributes.value| >= f.minAttributeCount)
      && (f.clickableOnly ==> IsTrue(e, "clickable"))
      && (f.fetchableOnly ==> Interactable(e))
  {
  }

  /** The inclusion test as the closure traverseElements calls. */
  type Predicate = JSONElement -> bool

  function Includer(f: Filters): Predicate {
    e => ShouldInclude(f, e)
  }

  /** With no filters given, every element except a `hierarchy` root is included. */
  lemma DefaultFiltersAdmit(e: JSONElement)
    ensures ShouldInclude(Resolve(NoFilters), e) <==> e.tagName != "hierarchy"
  {
    if e.attributes.Some? {
      assert |e.attributes.value| >= 0;
    }
  }

  /** Turning on `clickableOnly` or `fetchableOnly`, or excluding one more tag,
      never admits an element that was rejected before. */
  lemma StricterFiltersAdmitLess(f: Filters, e: JSONElement, tag: string)
    ensures ShouldInclude(f.(clickableOnly := true), e) ==> ShouldInclude(f, e) && IsTrue(e, "clickable")
    ensures ShouldInclude(f.(fetchableOnly := true), e) ==> ShouldInclude(f, e) && Interactable(e)
    ensures ShouldInclude(f.(excludeTagNames := f.excludeTagNames + [tag]), e) ==>
      ShouldInclude(f, e) && e.tagName != tag
  {
  }

  /** A `Button` element passes `fetchableOnly` whatever its attributes, and so
      does any tag containing `TextView`, such as `android.widget.TextView`. */
  lemma InteractableByTag(e: JSONElement)
    requires e.tagName == "android.widget.TextView"
    ensures Interactable(e)
  {
    var t := "TextView";
    assert t in InteractableTags;
    assert OccursAt(e.tagName, t, 15) by {
      assert e.tagName[15..23] == t;
    }
    IncludesIff(e.tagName, t);
  }

  // ---------------------------------------------------------------------
  // Locator records
  // ---------------------------------------------------------------------

  /** A plain object built by `Object.fromEntries`: its keys in insertion order. */
  type Record = seq<(string, string)>

  predicate UniqueKeys(rec: Record) {
    forall i, j :: 0 <= i < j < |rec| ==> rec[i].0 != rec[j].0
  }

  /** `rec[k]`, when the key is present. */
  function Lookup(rec: Record, k: string): Option<string> {
    if rec == [] then None
    else if rec[0].0 == k then Some(rec[0].1)
    else Lookup(rec[1..], k)
  }

  /** `rec[k] = v`: an existing key keeps its place, a new key goes last. */
  function Put(rec: Record, k: string, v: string): (r: Record)
    ensures UniqueKeys(rec) ==> UniqueKeys(r)
    ensures forall j :: Lookup(r, j) == if j == k then Some(v) else Lookup(rec, j)
    ensures forall i :: 0 <= i < |r| ==> r[i].0 == k || (exists i' :: 0 <= i' < |rec| && rec[i'].0 == r[i].0)
  {
    if rec == [] then [(k, v)]
    else if rec[0].0 == k then [(k, v)] + rec[1..]
    else
      var t := Put(rec[1..], k, v);
      var r := [rec[0]] + t;
      assert forall i :: 1 <= i < |r| ==> r[i] == t[i - 1];
      assert forall i' :: 0 <= i' < |rec| - 1 ==> rec[1..][i'] == rec[i' + 1];
      r
  }

  /** The value of the last entry with key `k`. */
  function LastValue(entries: seq<(string, string)>, k: string): Option<string> {
    if entries == [] then None
    else if entries[|entries| - 1].0 == k then Some(entries[|entries| - 1].1)
    else LastValue(entries[..|entries| - 1], k)
  }

  /** `Object.fromEntries(entries)`. */
  function FromEntries(entries: seq<(string, string)>): Record {
    if entries == [] then []
    else
      var last := entries[|entries| - 1];
      Put(FromEntries(entries[..|entries| - 1]), last.0, last.1)
  }

  /** Each key appears once, and holds the value of its last entry: a later
      suggestion for the same strategy overwrites an earlier one. */
  lemma {:induction false} FromEntriesLookup(entries: seq<(string, string)>)
    ensures UniqueKeys(FromEntries(entries))
    ensures forall k :: Lookup(FromEntries(entries), k) == LastValue(entries, k)
  {
    if entries != [] {
      FromEntriesLookup(entries[..|entries| - 1]);
    }
  }

  // ---------------------------------------------------------------------
  // traverseElements and generateAllElementLocators
  // ---------------------------------------------------------------------

  /** One row of the output. */
  datatype ElementWithLocators = ElementWithLocators(
    tagName: string,
    locators: Record,
    text: string,
    contentDesc: string,
    resourceId: string,
    clickable: bool,
    enabled: bool,
    displayed: bool)

  /** The locator generator: the (strategy, selector) pairs for an element, or
      a failure. */
  type Suggest = JSONElement -> Result<seq<(string, string)>>

  /** The console line written when generating locators for `e` fails. */
  function ErrorLine(e: JSONElement): string {
    "Error generating locators for element at path " + e.path + ":"
  }

  /** `element.attributes[name] || ''`. */
  function AttributeOrEmpty(e: JSONElement, name: string): string {
    Attribute(e, name).GetOr("")
  }

  /** The `try` block for an included element: the row it pushes, or the error
      line its `catch` prints. Reading a field of missing attributes throws
      too, so an element without attributes fails. */
  function Attempt(suggest: Suggest, e: JSONElement): (r: Result<ElementWithLocators>)
    ensures r.Ok? <==> suggest(e).Ok? && e.attributes.Some?
    ensures r.Err? ==> r.error == ErrorLine(e)
    ensures r.Ok? ==> r.value.tagName == e.tagName
  {
    match suggest(e)
    case Err(_) => Err(ErrorLine(e))
    case Ok(strategyMap) =>
      if e.attributes.None? then Err(ErrorLine(e))
      else Ok(ElementWithLocators(
        e.tagName, FromEntries(strategyMap),
        AttributeOrEmpty(e, "text"), AttributeOrEmpty(e, "content-desc"), AttributeOrEmpty(e, "resource-id"),
        IsTrue(e, "clickable"), IsTrue(e, "enabled"), IsTrue(e, "displayed")))
  }

  /** The fields of a row: each text field is the attribute's value, or empty
      when the attribute is missing; each flag holds exactly when its
      attribute is the string `true`; each strategy holds its last suggestion. */
  lemma RowFields(suggest: Suggest, e: JSONElement)
    requires Attempt(suggest, e).Ok?
    ensures var row := Attempt(suggest, e).value;
      && (row.text != "" ==> Attribute(e, "text") == Some(row.text))
      && (row.text == "" <==> !HasValue(e, "text"))
      && (row.contentDesc != "" ==> Attribute(e, "content-desc") == Some(row.contentDesc))
      && (row.contentDesc == "" <==> !HasValue(e, "content-desc"))
      && (row.resourceId != "" ==> Attribute(e, "resource-id") == Some(row.resourceId))
      && (row.resourceId == "" <==> !HasValue(e, "resource-id"))
      && (row.clickable <==> Attribute(e, "clickable") == Some("true"))
      && (row.enabled <==> Attribute(e, "enabled") == Some("true"))
      && (row.displayed <==> Attribute(e, "displayed") == Some("true"))
      && UniqueKeys(row.locators)
      && forall k :: Lookup(row.locators, k) == LastValue(suggest(e).value, k)
  {
    FromEntriesLookup(suggest(e).value);
  }

  /** The attempts made while visiting `e` and its subtree: one for `e` when
      it is included, then those of each child in order. */
  function Visits(admits: Predicate, suggest: Suggest, e: JSONElement): seq<Result<ElementWithLocators>>
    decreases e
  {
    Own(admits, suggest, e) + VisitsAll(admits, suggest, e.children)
  }

  /** The attempt made for `e` itself: one when it is included, none otherwise. */
  function Own(admits: Predicate, suggest: Suggest, e: JSONElement): seq<Result<ElementWithLocators>> {
    if admits(e) then [Attempt(suggest, e)] else []
  }

  function VisitsAll(admits: Predicate, suggest: Suggest, es: seq<JSONElement>): seq<Result<ElementWithLocators>>
    decreases es
  {
    if es == [] then []
    else VisitsAll(admits, suggest, es[..|es| - 1]) + Visits(admits, suggest, es[|es| - 1])
  }

  /** One more child visited: its rows and error lines follow those so far. */
  lemma TraverseStep(admits: Predicate, suggest: Suggest, own: seq<Result<ElementWithLocators>>, es: seq<JSONElement>, i: nat,
                     r0: seq<ElementWithLocators>, r1: seq<ElementWithLocators>, r2: seq<ElementWithLocators>,
                     e0: seq<string>, e1: seq<string>, e2: seq<string>)
    requires i < |es|
    requires r1 == r0 + Successes(own + VisitsAll(admits, suggest, es[..i]))
    requires r2 == r1 + Successes(Visits(admits, suggest, es[i]))
    requires e1 == e0 + Failures(own + VisitsAll(admits, suggest, es[..i]))
    requires e2 == e1 + Failures(Visits(admits, suggest, es[i]))
    ensures r2 == r0 + Successes(own + VisitsAll(admits, suggest, es[..i + 1]))
    ensures e2 == e0 + Failures(own + VisitsAll(admits, suggest, es[..i + 1]))
  {
    var done := own + VisitsAll(admits, suggest, es[..i]);
    var next := Visits(admits, suggest, es[i]);
    VisitsAllStep(admits, suggest, es, i);
    Associative(own, VisitsAll(admits, suggest, es[..i]), next);
    AppendStep(done, next, r0, r1, r2, e0, e1, e2);
  }

  lemma Associative<T>(a: seq<T>, b: seq<T>, c: seq<T>)
    ensures a + (b + c) == (a + b) + c
  {
  }

  lemma AppendStep(done: seq<Result<ElementWithLocators>>, next: seq<Result<ElementWithLocators>>,
                   r0: seq<ElementWithLocators>, r1: seq<ElementWithLocators>, r2: seq<ElementWithLocators>,
                   e0: seq<string>, e1: seq<string>, e2: seq<string>)
    requires r1 == r0 + Successes(done) && r2 == r1 + Successes(next)
    requires e1 == e0 + Failures(done) && e2 == e1 + Failures(next)
    ensures r2 == r0 + Successes(done + next)
    ensures e2 == e0 + Failures(done + next)
  {
    SuccessesAppend(done, next);
  }

  lemma VisitsAllStep(admits: Predicate, suggest: Suggest, es: seq<JSONElement>, i: nat)
    requires i < |es|
    ensures VisitsAll(admits, suggest, es[..i + 1]) == VisitsAll(admits, suggest, es[..i]) + Visits(admits, suggest, es[i])
  {
    assert es[..i + 1][..i] == es[..i];
  }

  /** The rows of the successful attempts, in order. */
  function Successes(rs: seq<Result<ElementWithLocators>>): (r: seq<ElementWithLocators>)
    ensures |r| <= |rs|
  {
    if rs == [] then []
    else Successes(rs[..|rs| - 1]) + (if rs[|rs| - 1].Ok? then [rs[|rs| - 1].value] else [])
  }

  /** The error lines of the failed attempts, in order. */
  function Failures(rs: seq<Result<ElementWithLocators>>): (r: seq<string>)
    ensures |r| <= |rs|
  {
    if rs == [] then []
    else Failures(rs[..|rs| - 1]) + (if rs[|rs| - 1].Err? then [rs[|rs| - 1].error] else [])
  }

  lemma {:induction false} SuccessesAppend(a: seq<Result<ElementWithLocators>>, b: seq<Result<ElementWithLocators>>)
    ensures Successes(a + b) == Successes(a) + Successes(b)
    ensures Failures(a + b) == Failures(a) + Failures(b)
    decreases |b|
  {
    if b == [] {
      assert a + b == a;
    } else {
      assert (a + b)[..|a + b| - 1] == a + b[..|b| - 1];
      SuccessesAppend(a, b[..|b| - 1]);
    }
  }

  lemma OneAttempt(r: Result<ElementWithLocators>)
    ensures Successes([r]) == (if r.Ok? then [r.value] else [])
    ensures Failures([r]) == (if r.Err? then [r.error] else [])
  {
    assert [r][..0] == [];
  }

  /** The array every row is pushed onto, and the console lines of the
      elements whose locators could not be generated. */
  class LocatorCollector {
    var results: seq<ElementWithLocators>
    var errors: seq<string>

    constructor ()
      ensures results == [] && errors == []
    {
      results := [];
      errors := [];
    }

    /** The body of traverseElements for an included element: push its row,
        or print the error line when its locators cannot be generated. */
    method Visit(admits: Predicate, suggest: Suggest, e: JSONElement)
      modifies this
      ensures results == old(results) + Successes(Own(admits, suggest, e))
      ensures errors == old(errors) + Failures(Own(admits, suggest, e))
    {
      if !admits(e) {
        return;
      }
      OneAttempt(Attempt(suggest, e));
      var strategyMap := suggest(e);
      if strategyMap.Ok? && e.attributes.Some? {
        var row := ElementWithLocators(
          e.tagName, FromEntries(strategyMap.value),
          AttributeOrEmpty(e, "text"), AttributeOrEmpty(e, "content-desc"), AttributeOrEmpty(e, "resource-id"),
          IsTrue(e, "clickable"), IsTrue(e, "enabled"), IsTrue(e, "displayed"));
        results := results + [row];
      } else {
        errors := errors + [ErrorLine(e)];
      }
    }

    /** traverseElements: record `e` when it is included, then visit every
        child, whether or not `e` was included. */
    method Traverse(admits: Predicate, suggest: Suggest, e: JSONElement)
      modifies this
      ensures results == old(results) + Successes(Visits(admits, suggest, e))
      ensures errors == old(errors) + Failures(Visits(admits, suggest, e))
      decreases e
    {
      Visit(admits, suggest, e);
      ghost var own := Own(admits, suggest, e);
      var children := e.children;
      var i := 0;
      while i < |children|
        invariant 0 <= i <= |children|
        invariant results == old(results) + Successes(own + VisitsAll(admits, suggest, children[..i]))
        invariant errors == old(errors) + Failures(own + VisitsAll(admits, suggest, children[..i]))
      {
        ghost var before, errorsBefore := results, errors;
        Traverse(admits, suggest, children[i]);
        TraverseStep(admits, suggest, own, children, i, old(results), before, results, old(errors), errorsBefore, errors);
        i := i + 1;
      }
      assert children[..i] == children;
      assert Visits(admits, suggest, e) == own + VisitsAll(admits, suggest, children);
    }
  }

  /**
   * generateAllElementLocators after parsing: `sourceJSON` is what the parser
   * returned for the page source. Returns the rows and the error lines.
   */
  method GenerateAllElementLocators(sourceJSON: Option<JSONElement>, filters: FilterOptions, suggest: Suggest)
    returns (results: seq<ElementWithLocators>, errors: seq<string>)
    ensures sourceJSON.None? ==> results == [] && errors == []
    ensures sourceJSON.Some? ==>
      && results == Successes(Visits(Includer(Resolve(filters)), suggest, sourceJSON.value))
      && errors == Failures(Visits(Includer(Resolve(filters)), suggest, sourceJSON.value))
  {
    var f := Resolve(filters);
    var collector := new LocatorCollector();
    if sourceJSON.Some? {
      collector.Traverse(Includer(f), suggest, sourceJSON.value);
    }
    results := collector.results;
    errors := collector.errors;
  }

  // ---------------------------------------------------------------------
  // The traversal is a filtered pre-order walk
  // ---------------------------------------------------------------------

  /** The nodes of the tree in document (pre-)order. */
  function Flatten(e: JSONElement): (r: seq<JSONElement>)
    ensures |r| >= 1 && r[0] == e
    decreases e
  {
    [e] + FlattenAll(e.children)
  }

  function FlattenAll(es: seq<JSONElement>): seq<JSONElement>
    decreases es
  {
    if es == [] then [] else FlattenAll(es[..|es| - 1]) + Flatten(es[|es| - 1])
  }

  /** The elements of `xs` that the filters admit, in order. */
  function Included(admits: Predicate, xs: seq<JSONElement>): (r: seq<JSONElement>)
    ensures forall i :: 0 <= i < |r| ==> admits(r[i])
  {
    if xs == [] then []
    else Included(admits, xs[..|xs| - 1]) + (if admits(xs[|xs| - 1]) then [xs[|xs| - 1]] else [])
  }

  /** One attempt per element. */
  function Attempts(suggest: Suggest, xs: seq<JSONElement>): (r: seq<Result<ElementWithLocators>>)
    ensures |r| == |xs|
    ensures forall i :: 0 <= i < |xs| ==> r[i] == Attempt(suggest, xs[i])
  {
    seq(|xs|, i requires 0 <= i < |xs| => Attempt(suggest, xs[i]))
  }

  lemma {:induction false} IncludedAppend(admits: Predicate, a: seq<JSONElement>, b: seq<JSONElement>)
    ensures Included(admits, a + b) == Included(admits, a) + Included(admits, b)
    decreases |b|
  {
    if b == [] {
      assert a + b == a;
    } else {
      assert (a + b)[..|a + b| - 1] == a + b[..|b| - 1];
      IncludedAppend(admits, a, b[..|b| - 1]);
    }
  }

  /** Visiting a tree makes exactly one attempt per included node, in
      document order: excluded nodes are skipped but their subtrees are not. */
  lemma {:induction false} VisitsArePreorder(admits: Predicate, suggest: Suggest, e: JSONElement)
    ensures Visits(admits, suggest, e) == Attempts(suggest, Included(admits, Flatten(e)))
    decreases e
  {
    var below := FlattenAll(e.children);
    VisitsAllArePreorder(admits, suggest, e.children);
    var rest := Included(admits, below);
    IncludedAppend(admits, [e], below);
    var head := Included(admits, [e]);
    IncludedOne(admits, e);
    AttemptsAppend(suggest, head, rest);
    assert Attempts(suggest, head) == Own(admits, suggest, e);
    assert Included(admits, Flatten(e)) == head + rest;
  }

  lemma IncludedOne(admits: Predicate, e: JSONElement)
    ensures Included(admits, [e]) == if admits(e) then [e] else []
  {
    assert [e][..0] == [];
  }

  lemma AttemptsAppend(suggest: Suggest, a: seq<JSONElement>, b: seq<JSONElement>)
    ensures Attempts(suggest, a + b) == Attempts(suggest, a) + Attempts(suggest, b)
  {
  }

  lemma {:induction false} VisitsAllArePreorder(admits: Predicate, suggest: Suggest, es: seq<JSONElement>)
    ensures VisitsAll(admits, suggest, es) == Attempts(suggest, Included(admits, FlattenAll(es)))
    decreases es
  {
    if es != [] {
      var init := es[..|es| - 1];
      var last := es[|es| - 1];
      VisitsAllArePreorder(admits, suggest, init);
      VisitsArePreorder(admits, suggest, last);
      IncludedAppend(admits, FlattenAll(init), Flatten(last));
      AttemptsAppend(suggest, Included(admits, FlattenAll(init)), Included(admits, Flatten(last)));
    }
  }

  /** When locator generation succeeds for every included element, the output
      is exactly the included elements in document order, one row each, and
      nothing is reported on the console. */
  lemma OutputIsIncludedElements(admits: Predicate, suggest: Suggest, e: JSONElement)
    requires forall x :: x in Flatten(e) && admits(x) ==> suggest(x).Ok? && x.attributes.Some?
    ensures var rows := Successes(Visits(admits, suggest, e));
      var xs := Included(admits, Flatten(e));
      && |rows| == |xs|
      && (forall i :: 0 <= i < |xs| ==> Attempt(suggest, xs[i]).Ok? && rows[i] == Attempt(suggest, xs[i]).value && rows[i].tagName == xs[i].tagName)
      && Failures(Visits(admits, suggest, e)) == []
  {
    VisitsArePreorder(admits, suggest, e);
    var xs := Included(admits, Flatten(e));
    IncludedSubset(admits, Flatten(e));
    AllSucceed(Attempts(suggest, xs));
  }

  lemma {:induction false} IncludedSubset(admits: Predicate, xs: seq<JSONElement>)
    ensures forall y :: y in Included(admits, xs) ==> y in xs
  {
    if xs != [] {
      IncludedSubset(admits, xs[..|xs| - 1]);
    }
  }

  lemma {:induction false} AllSucceed(rs: seq<Result<ElementWithLocators>>)
    requires forall i :: 0 <= i < |rs| ==> rs[i].Ok?
    ensures |Successes(rs)| == |rs|
    ensures forall i :: 0 <= i < |rs| ==> Successes(rs)[i] == rs[i].value
    ensures Failures(rs) == []
  {
    if rs != [] {
      AllSucceed(rs[..|rs| - 1]);
    }
  }

  // ---------------------------------------------------------------------
  // exportResults: CSV content
  // ---------------------------------------------------------------------

  const CsvHeaders: seq<string> := ["Path", "TagName", "Text", "ContentDesc", "ResourceId", "Bounds",
    "Clickable", "XPath", "ID", "ClassName", "AccessibilityId", "UiAutomator"]

  /** `b.toString()`. */
  function BoolText(b: bool): string {
    if b then "true" else "false"
  }

  /** `item.locators[k] || ''`. */
  function LocatorOrEmpty(item: ElementWithLocators, k: string): string {
    Lookup(item.locators, k).GetOr("")
  }

  /** The ten cells written for one row. */
  function CsvCells(item: ElementWithLocators): seq<string> {
    [item.tagName, item.text, item.contentDesc, item.resourceId, BoolText(item.clickable),
     LocatorOrEmpty(item, "xpath"), LocatorOrEmpty(item, "id"), LocatorOrEmpty(item, "class name"),
     LocatorOrEmpty(item, "accessibility id"), LocatorOrEmpty(item, "-android uiautomator")]
  }

  /** The header row followed by one row per result. */
  function CsvTable(results: seq<ElementWithLocators>): (t: seq<seq<string>>)
    ensures |t| == |results| + 1
  {
    [CsvHeaders] + seq(|results|, i requires 0 <= i < |results| => CsvCells(results[i]))
  }

  /** `"${cell}"`. */
  function Quote(cell: string): string {
    "\"" + cell + "\""
  }

  function CsvLine(cells: seq<string>): string {
    Join(seq(|cells|, i requires 0 <= i < |cells| => Quote(cells[i])), ",")
  }

  function CsvContent(results: seq<ElementWithLocators>): string {
    var t := CsvTable(results);
    Join(seq(|t|, i requires 0 <= i < |t| => CsvLine(t[i])), "\n")
  }

  /** The header names twelve columns while each row has ten cells: the
      `Path` and `Bounds` columns have no cell of their own, so from the
      first column on each cell sits under the header one to its left. */
  lemma CsvShape(results: seq<ElementWithLocators>)
    ensures var t := CsvTable(results);
      && |t[0]| == 12
      && (forall i :: 1 <= i < |t| ==>
            |t[i]| == 10 && t[i][0] == results[i - 1].tagName && t[i][4] == BoolText(results[i - 1].clickable))
      && t[0][0] == "Path" && t[0][1] == "TagName"
  {
  }

  /** Reading the CSV back: split into lines, each line into cells, and strip
      the quotes around each cell. */
  function Unquote(q: string): string {
    if |q| >= 2 then q[1..|q| - 1] else q
  }

  function ParseCsv(content: string): seq<seq<string>> {
    var lines := Split(content, '\n');
    seq(|lines|, i requires 0 <= i < |lines| =>
      var cells := Split(lines[i], ',');
      seq(|cells|, j requires 0 <= j < |cells| => Unquote(cells[j])))
  }

  /** No cell holds a comma or a line break. */
  predicate PlainCells(t: seq<seq<string>>) {
    forall i, j :: 0 <= i < |t| && 0 <= j < |t[i]| ==> ',' !in t[i][j] && '\n' !in t[i][j]
  }

  lemma LineRoundTrip(cells: seq<string>)
    requires |cells| >= 1
    requires forall j :: 0 <= j < |cells| ==> ',' !in cells[j] && '\n' !in cells[j]
    ensures '\n' !in CsvLine(cells)
    ensures var parts := Split(CsvLine(cells), ',');
      && |parts| == |cells|
      && forall j :: 0 <= j < |cells| ==> Unquote(parts[j]) == cells[j]
  {
    var quoted := seq(|cells|, i requires 0 <= i < |cells| => Quote(cells[i]));
    forall j | 0 <= j < |cells|
      ensures ',' !in quoted[j] && '\n' !in quoted[j] && Unquote(quoted[j]) == cells[j]
    {
      assert quoted[j] == ['"'] + cells[j] + ['"'];
    }
    JoinAvoids(quoted, ",", '\n');
    SplitJoin(quoted, ',');
  }

  /** The CSV reads back as the table it was written from, as long as no cell
      holds a comma or a line break: the header row first, then one row of
      ten cells per result. */
  lemma CsvRoundTrip(results: seq<ElementWithLocators>)
    requires PlainCells(CsvTable(results))
    ensures ParseCsv(CsvContent(results)) == CsvTable(results)
  {
    var t := CsvTable(results);
    var lines := seq(|t|, i requires 0 <= i < |t| => CsvLine(t[i]));
    forall i | 0 <= i < |t|
      ensures '\n' !in lines[i]
      ensures var parts := Split(lines[i], ',');
        |parts| == |t[i]| && forall j :: 0 <= j < |t[i]| ==> Unquote(parts[j]) == t[i][j]
    {
      LineRoundTrip(t[i]);
    }
    SplitJoin(lines, '\n');
    var p := ParseCsv(CsvContent(results));
    assert |p| == |t|;
    forall i | 0 <= i < |t|
      ensures p[i] == t[i]
    {
      assert |p[i]| == |t[i]|;
    }
  }

  // ---------------------------------------------------------------------
  // exportResults: JSON content (`JSON.stringify(results, null, 2)`)
  // ---------------------------------------------------------------------

  function HexDigit(d: int): char
    requires 0 <= d < 16
  {
    if d < 10 then (48 + d) as char else (87 + d) as char
  }

  function HexValue(c: char): int {
    if '0' <= c <= '9' then c as int - 48
    else if 'a' <= c <= 'f' then c as int - 87
    else -1
  }

  /** How a character is written inside a JSON string literal: quote and
      backslash escaped, the five named control escapes, any other control
      character as `\u00xx` in lower-case hex. */
  function EscapeChar(c: char): (r: string)
    ensures forall i :: 0 <= i < |r| ==> r[i] as int >= 32
  {
    if c == '"' then ['\\', '"']
    else if c == '\\' then ['\\', '\\']
    else if c as int == 8 then ['\\', 'b']
    else if c as int == 9 then ['\\', 't']
    else if c as int == 10 then ['\\', 'n']
    else if c as int == 12 then ['\\', 'f']
    else if c as int == 13 then ['\\', 'r']
    else if c as int < 32 then ['\\', 'u', '0', '0', HexDigit(c as int / 16), HexDigit(c as int % 16)]
    else [c]
  }

  function Escape(s: string): (r: string)
    ensures forall i :: 0 <= i < |r| ==> r[i] as int >= 32
  {
    if s == [] then [] else EscapeChar(s[0]) + Escape(s[1..])
  }

  /** A JSON string literal. */
  function JsonString(s: string): string {
    "\"" + Escape(s) + "\""
  }

  /** The character a one-letter escape stands for. */
  function NamedEscape(c: char): char {
    if c == 'b' then 8 as char
    else if c == 't' then 9 as char
    else if c == 'n' then 10 as char
    else if c == 'f' then 12 as char
    else if c == 'r' then 13 as char
    else c
  }

  /** Reading escapes back: the named escapes, `\u00xx`, and a backslash
      before any other character standing for that character. */
  function Unescape(s: string): string
    decreases |s|
  {
    if s == [] then []
    else if s[0] != '\\' || |s| == 1 then [s[0]] + Unescape(s[1..])
    else if s[1] == 'u' && |s| >= 6 && s[2] == '0' && s[3] == '0' && 0 <= HexValue(s[4]) < 16 && 0 <= HexValue(s[5]) < 16 then
      [(16 * HexValue(s[4]) + HexValue(s[5])) as char] + Unescape(s[6..])
    else [NamedEscape(s[1])] + Unescape(s[2..])
  }

  lemma UnescapeChar(c: char, rest: string)
    ensures Unescape(EscapeChar(c) + rest) == [c] + Unescape(rest)
  {
    var s := EscapeChar(c) + rest;
    if c != '"' && c != '\\' && c as int !in {8, 9, 10, 12, 13} && c as int < 32 {
      var hi := c as int / 16;
      var lo := c as int % 16;
      assert s[4] == HexDigit(hi) && s[5] == HexDigit(lo);
      assert HexValue(s[4]) == hi && HexValue(s[5]) == lo;
      assert s[6..] == rest;
    } else if c == '"' || c == '\\' || c as int in {8, 9, 10, 12, 13} {
      assert s[2..] == rest;
    } else {
      assert s[1..] == rest;
    }
  }

  /** Every string is recovered from its JSON literal. */
  lemma {:induction false} JsonStringRoundTrip(s: string)
    ensures var j := JsonString(s);
      |j| >= 2 && j[0] == '"' && j[|j| - 1] == '"' && Unescape(j[1..|j| - 1]) == s
  {
    EscapeRoundTrip(s);
    var j := JsonString(s);
    assert j[1..|j| - 1] == Escape(s);
  }

  lemma {:induction false} EscapeRoundTrip(s: string)
    ensures Unescape(Escape(s)) == s
  {
    if s != [] {
      EscapeRoundTrip(s[1..]);
      UnescapeChar(s[0], Escape(s[1..]));
      assert [s[0]] + s[1..] == s;
    }
  }

  /** `n` levels of two-space indentation. */
  function Indent(n: nat): string {
    if n == 0 then "" else "  " + Indent(n - 1)
  }

  /** An object at nesting level `n` whose members' values are already
      written; an empty object is `{}`. */
  function JsonObject(members: seq<(string, string)>, n: nat): string {
    if members == [] then "{}"
    else
      "{\n"
      + Join(seq(|members|, i requires 0 <= i < |members| =>
               Indent(n + 1) + JsonString(members[i].0) + ": " + members[i].1), ",\n")
      + "\n" + Indent(n) + "}"
  }

  function LocatorsJson(rec: Record, n: nat): string {
    JsonObject(seq(|rec|, i requires 0 <= i < |rec| => (rec[i].0, JsonString(rec[i].1))), n)
  }

  function ElementJson(item: ElementWithLocators, n: nat): string {
    JsonObject([
      ("tagName", JsonString(item.tagName)),
      ("locators", LocatorsJson(item.locators, n + 1)),
      ("text", JsonString(item.text)),
      ("contentDesc", JsonString(item.contentDesc)),
      ("resourceId", JsonString(item.resourceId)),
      ("clickable", BoolText(item.clickable)),
      ("enabled", BoolText(item.enabled)),
      ("displayed", BoolText(item.displayed))], n)
  }

  function JsonContent(results: seq<ElementWithLocators>): string {
    if results == [] then "[]"
    else
      "[\n" + Join(JsonItems(results), ",\n") + "\n]"
  }

  /** Each result as an object at nesting level one, indented. */
  function JsonItems(results: seq<ElementWithLocators>): (items: seq<string>)
    ensures |items| == |results|
    ensures forall i :: 0 <= i < |results| ==> items[i] == Indent(1) + ElementJson(results[i], 1)
  {
    seq(|results|, i requires 0 <= i < |results| => Indent(1) + ElementJson(results[i], 1))
  }

  /** The JSON text is an array: `[]` when there are no results, otherwise
      the objects one per item, separated by `,` and a line break, between
      `[` and `]` on lines of their own. */
  lemma JsonShape(results: seq<ElementWithLocators>)
    ensures results == [] ==> JsonContent(results) == "[]"
    ensures results != [] ==>
      var c := JsonContent(results);
      var first := Indent(1) + ElementJson(results[0], 1);
      && |c| >= 2 + |first| + 2
      && c[..2] == "[\n"
      && c[2..2 + |first|] == first
      && c[|c| - 2..] == "\n]"
  {
    if results != [] {
      var items := JsonItems(results);
      var body := Join(items, ",\n");
      JoinStartsWithFirst(items, ",\n");
      Bracketed("[\n", body, "\n]");
    }
  }

  lemma Bracketed(open: string, body: string, close: string)
    ensures var c := open + body + close;
      && c[..|open|] == open
      && c[|open|..|open| + |body|] == body
      && c[|c| - |close|..] == close
  {
  }

  lemma {:induction false} JoinStartsWithFirst(parts: seq<string>, sep: string)
    requires |parts| >= 1
    ensures |Join(parts, sep)| >= |parts[0]| && Join(parts, sep)[..|parts[0]|] == parts[0]
  {
    if |parts| > 1 {
      var j := Join(parts, sep);
      assert j == parts[0] + (sep + Join(parts[1..], sep));
    }
  }

  // ---------------------------------------------------------------------
  // exportResults
  // ---------------------------------------------------------------------

  /**
   * exportResults without the file write: the name of the file written and
   * the content written to it, or the error for an unknown format. `format`
   * defaults to `json` and `filename` to `all-locators`.
   */
  function ExportResults(results: seq<ElementWithLocators>, format: Option<string>, filename: Option<string>)
    : (r: Result<(string, string)>)
    ensures var fmt := format.GetOr("json");
      && (r.Ok? <==> ToLower(fmt) == "json" || ToLower(fmt) == "csv")
      && (r.Err? ==> r.error == "Unsupported format: " + fmt)
      && (r.Ok? ==> r.value.0 == filename.GetOr("all-locators") + "." + ToLower(fmt))
      && (r.Ok? && ToLower(fmt) == "json" ==> r.value.1 == JsonContent(results))
      && (r.Ok? && ToLower(fmt) == "csv" ==> r.value.1 == CsvContent(results))
  {
    var fmt := format.GetOr("json");
    var name := filename.GetOr("all-locators");
    var lower := ToLower(fmt);
    if lower == "json" then Ok((name + ".json", JsonContent(results)))
    else if lower == "csv" then Ok((name + ".csv", CsvContent(results)))
    else Err("Unsupported format: " + fmt)
  }

  /** The format is matched without regard to case: any spelling exports the
      same file as its lower-case form, and only the error message keeps the
      spelling it was given. */
  lemma ExportIgnoresCase(results: seq<ElementWithLocators>, format: string, filename: Option<string>)
    ensures ExportResults(results, Some(format), filename).Ok? <==> ExportResults(results, Some(ToLower(format)), filename).Ok?
    ensures ExportResults(results, Some(format), filename).Ok? ==>
      ExportResults(results, Some(format), filename) == ExportResults(results, Some(ToLower(format)), filename)
  {
    ToLowerIdempotent(format);
  }

  /** `CSV` selects the CSV writer and the `.csv` extension. */
  lemma ExportUpperCaseCsv(results: seq<ElementWithLocators>)
    ensures ExportResults(results, Some("CSV"), Some("out")) == Ok(("out.csv", CsvContent(results)))
  {
    var l := ToLower("CSV");
    assert l[0] == 'c' && l[1] == 's' && l[2] == 'v';
    assert l == "csv";
    assert "out" + ".csv" == "out.csv";
  }
}
