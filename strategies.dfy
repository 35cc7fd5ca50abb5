/**
 * Deterministic fallback-locator generation: a failed (strategy, selector)
 * pair is rewritten into an ordered list of alternative locators, one rule
 * set for Android and one for iOS.
 */
module Strategies {
  import opened Wrappers
  import opened JsString

  /** One candidate locator; candidates are tried in ascending `priority`. */
  datatype LocatorStrategy = LocatorStrategy(strategy: string, selector: string, priority: int)

  // ---------------------------------------------------------------------
  // Array.prototype.sort with the comparator `a.priority - b.priority`.
  // ECMAScript requires the sort to be stable; it is modelled here as a
  // stable insertion sort.
  // ---------------------------------------------------------------------

  predicate SortedByPriority(xs: seq<LocatorStrategy>) {
    forall i, j :: 0 <= i < j < |xs| ==> xs[i].priority <= xs[j].priority
  }

  /** Priorities increase strictly: sorted, and no two candidates share one. */
  predicate StrictlyIncreasing(xs: seq<LocatorStrategy>) {
    forall i, j :: 0 <= i < j < |xs| ==> xs[i].priority < xs[j].priority
  }

  /** Places `x` after every element whose priority is at most its own. */
  function Insert(x: LocatorStrategy, xs: seq<LocatorStrategy>): (r: seq<LocatorStrategy>)
    ensures |r| == |xs| + 1
    ensures multiset(r) == multiset(xs) + multiset{x}
    ensures r[0] == x || (xs != [] && r[0] == xs[0])
    ensures SortedByPriority(xs) ==> SortedByPriority(r)
  {
    if xs == [] then [x]
    else if xs[0].priority <= x.priority then
      var rest := Insert(x, xs[1..]);
      assert xs == [xs[0]] + xs[1..];
      assert SortedByPriority(xs) ==> SortedByPriority([xs[0]] + rest) by {
        if SortedByPriority(xs) {
          assert SortedByPriority(xs[1..]);
          PrependSorted(xs[0], rest);
        }
      }
      [xs[0]] + rest
    else
      assert SortedByPriority(xs) ==> SortedByPriority([x] + xs) by {
        if SortedByPriority(xs) {
          PrependSorted(x, xs);
        }
      }
      [x] + xs
  }

  /** A candidate no later than the head of a sorted list may go in front of it. */
  lemma PrependSorted(y: LocatorStrategy, rest: seq<LocatorStrategy>)
    requires SortedByPriority(rest)
    requires rest != [] ==> y.priority <= rest[0].priority
    ensures SortedByPriority([y] + rest)
  {
    var r := [y] + rest;
    forall i, j | 0 <= i < j < |r|
      ensures r[i].priority <= r[j].priority
    {
      if i == 0 {
        assert r[j] == rest[j - 1];
        assert rest[0].priority <= rest[j - 1].priority;
      } else {
        assert r[i] == rest[i - 1] && r[j] == rest[j - 1];
      }
    }
  }

  function SortByPriority(xs: seq<LocatorStrategy>): (r: seq<LocatorStrategy>)
    ensures multiset(r) == multiset(xs)
    ensures SortedByPriority(r)
  {
    if xs == [] then []
    else
      assert xs == xs[..|xs| - 1] + [xs[|xs| - 1]];
      Insert(xs[|xs| - 1], SortByPriority(xs[..|xs| - 1]))
  }

  lemma {:induction false} InsertAfterAll(x: LocatorStrategy, xs: seq<LocatorStrategy>)
    requires forall i :: 0 <= i < |xs| ==> xs[i].priority <= x.priority
    ensures Insert(x, xs) == xs + [x]
  {
    if xs != [] {
      InsertAfterAll(x, xs[1..]);
      assert [xs[0]] + (xs[1..] + [x]) == xs + [x];
    }
  }

  /** Sorting a list that is already in priority order leaves it as it is. */
  lemma {:induction false} SortSortedIsIdentity(xs: seq<LocatorStrategy>)
    requires SortedByPriority(xs)
    ensures SortByPriority(xs) == xs
  {
    if xs != [] {
      var init := xs[..|xs| - 1];
      assert SortedByPriority(init);
      SortSortedIsIdentity(init);
      InsertAfterAll(xs[|xs| - 1], init);
      assert init + [xs[|xs| - 1]] == xs;
    }
  }

  // ---------------------------------------------------------------------
  // The regular expression /@attr=['"](.*?)['"]/ (first match, group 1).
  // `.` matches anything but a line terminator.
  // ---------------------------------------------------------------------

  predicate IsQuote(c: char) {
    c == '\'' || c == '"'
  }

  predicate IsLineTerminator(c: char) {
    c == '\n' || c == '\r' || c == '\U{2028}' || c == '\U{2029}'
  }

  /** Neither a quote nor a line terminator: what the lazy `(.*?)` may consume before its closing quote. */
  predicate Plain(c: char) {
    !IsQuote(c) && !IsLineTerminator(c)
  }

  /** `attr`, an opening quote, `v` and a closing quote occur in `s` from index `p`, with `v` free of quotes and line terminators. */
  ghost predicate QuotedAt(s: string, attr: string, p: nat, v: string) {
    && p + |attr| + |v| + 2 <= |s|
    && OccursAt(s, attr, p)
    && IsQuote(s[p + |attr|])
    && s[p + |attr| + 1..p + |attr| + 1 + |v|] == v
    && IsQuote(s[p + |attr| + 1 + |v|])
    && forall i :: 0 <= i < |v| ==> Plain(v[i])
  }

  /** The index of the first quote at or after `k`, if it comes before any line terminator. */
  function CloseQuote(s: string, k: nat): (r: Option<nat>)
    requires k <= |s|
    decreases |s| - k
    ensures r.Some? ==> k <= r.value < |s| && IsQuote(s[r.value])
    ensures r.Some? ==> forall i :: k <= i < r.value ==> Plain(s[i])
    ensures r.None? ==> forall j :: k <= j < |s| && IsQuote(s[j]) ==> exists i :: k <= i < j && IsLineTerminator(s[i])
  {
    if k == |s| then None
    else if IsQuote(s[k]) then Some(k)
    else if IsLineTerminator(s[k]) then None
    else CloseQuote(s, k + 1)
  }

  /** The lazy match attempted at position `p` alone. */
  function MatchAt(s: string, attr: string, p: nat): Option<string>
    requires p <= |s|
  {
    if OccursAt(s, attr, p) && p + |attr| < |s| && IsQuote(s[p + |attr|]) then
      match CloseQuote(s, p + |attr| + 1)
      case Some(j) => Some(s[p + |attr| + 1..j])
      case None => None
    else None
  }

  lemma MatchAtSound(s: string, attr: string, p: nat)
    requires p <= |s| && MatchAt(s, attr, p).Some?
    ensures QuotedAt(s, attr, p, MatchAt(s, attr, p).value)
  {
    var v := MatchAt(s, attr, p).value;
    var j := CloseQuote(s, p + |attr| + 1).value;
    assert |v| == j - (p + |attr| + 1);
    forall i | 0 <= i < |v| ensures Plain(v[i]) {
      assert v[i] == s[p + |attr| + 1 + i];
    }
  }

  lemma {:induction false} MatchAtComplete(s: string, attr: string, p: nat, v: string)
    requires QuotedAt(s, attr, p, v)
    ensures MatchAt(s, attr, p) == Some(v)
  {
    var k := p + |attr| + 1;
    var j := k + |v|;
    forall i | k <= i < j ensures Plain(s[i]) {
      assert s[i] == v[i - k];
    }
    CloseQuoteFirst(s, k, j);
  }

  lemma {:induction false} CloseQuoteFirst(s: string, k: nat, j: nat)
    requires k <= j < |s| && IsQuote(s[j])
    requires forall i :: k <= i < j ==> Plain(s[i])
    ensures CloseQuote(s, k) == Some(j)
    decreases j - k
  {
    if k < j {
      CloseQuoteFirst(s, k + 1, j);
    }
  }

  function AttrMatchFrom(s: string, attr: string, p: nat): (r: Option<string>)
    requires p <= |s|
    decreases |s| - p
  {
    if MatchAt(s, attr, p).Some? then MatchAt(s, attr, p)
    else if p == |s| then None
    else AttrMatchFrom(s, attr, p + 1)
  }

  /** Group 1 of the first match of `/attr['"](.*?)['"]/` in `s`, if any. */
  function AttrMatch(s: string, attr: string): Option<string> {
    AttrMatchFrom(s, attr, 0)
  }

  /** The match found is a quoted value at the leftmost position where one exists;
      no match means there is no quoted value after `attr` anywhere. */
  lemma {:induction false} AttrMatchFromSpec(s: string, attr: string, p: nat)
    requires p <= |s|
    decreases |s| - p
    ensures AttrMatchFrom(s, attr, p).Some? ==>
      exists q :: p <= q <= |s| && QuotedAt(s, attr, q, AttrMatchFrom(s, attr, p).value)
        && forall q', v' :: p <= q' < q ==> !QuotedAt(s, attr, q', v')
    ensures AttrMatchFrom(s, attr, p).None? ==>
      forall q, v :: p <= q ==> !QuotedAt(s, attr, q, v)
  {
    forall v' | QuotedAt(s, attr, p, v') ensures MatchAt(s, attr, p).Some? {
      MatchAtComplete(s, attr, p, v');
    }
    if MatchAt(s, attr, p).Some? {
      MatchAtSound(s, attr, p);
    } else if p < |s| {
      AttrMatchFromSpec(s, attr, p + 1);
    }
  }

  // ---------------------------------------------------------------------
  // extractKeyword
  // ---------------------------------------------------------------------

  predicate IsWordChar(c: char) {
    ('a' <= c <= 'z') || ('A' <= c <= 'Z') || ('0' <= c <= '9') || c == '_'
  }

  /** The end of the run of non-quote characters starting at `k`. */
  function QuoteFreeEnd(s: string, k: nat): (e: nat)
    requires k <= |s|
    decreases |s| - k
    ensures k <= e <= |s|
    ensures forall i :: k <= i < e ==> !IsQuote(s[i])
    ensures e < |s| ==> IsQuote(s[e])
  {
    if k == |s| || IsQuote(s[k]) then k else QuoteFreeEnd(s, k + 1)
  }

  /** The first match of `/['"]([^'"]+)['"]/g` at or after `p` (the whole match, quotes included). */
  function QuotedRunFrom(s: string, p: nat): Option<string>
    requires p <= |s|
    decreases |s| - p
  {
    if p + 1 < |s| && IsQuote(s[p]) && !IsQuote(s[p + 1]) && QuoteFreeEnd(s, p + 1) < |s| then
      Some(s[p..QuoteFreeEnd(s, p + 1) + 1])
    else if p == |s| then None
    else QuotedRunFrom(s, p + 1)
  }

  function WordEnd(s: string, k: nat): (e: nat)
    requires k <= |s|
    decreases |s| - k
    ensures k <= e <= |s|
    ensures forall i :: k <= i < e ==> IsWordChar(s[i])
    ensures e < |s| ==> !IsWordChar(s[e])
  {
    if k < |s| && IsWordChar(s[k]) then WordEnd(s, k + 1) else k
  }

  /** The first match of `/\w+/g` at or after `p`: a maximal run of word characters. */
  function WordRunFrom(s: string, p: nat): Option<string>
    requires p <= |s|
    decreases |s| - p
  {
    if p == |s| then None
    else if IsWordChar(s[p]) then Some(s[p..WordEnd(s, p)])
    else WordRunFrom(s, p + 1)
  }

  /** `m.replace(/['"]/g, '')`. */
  function RemoveQuotes(m: string): (r: string)
    ensures forall i :: 0 <= i < |r| ==> !IsQuote(r[i])
  {
    if m == [] then "" else (if IsQuote(m[0]) then "" else [m[0]]) + RemoveQuotes(m[1..])
  }

  /** extractKeyword: the first quoted run (quotes stripped), else the first word, else the first 20 characters. */
  function ExtractKeyword(selector: string): string {
    var matches := if QuotedRunFrom(selector, 0).Some? then QuotedRunFrom(selector, 0) else WordRunFrom(selector, 0);
    match matches
    case Some(m) => RemoveQuotes(m)
    case None => Substring(selector, 0, 20)
  }

  lemma {:induction false} RemoveQuotesOfPlain(m: string)
    requires forall i :: 0 <= i < |m| ==> !IsQuote(m[i])
    ensures RemoveQuotes(m) == m
  {
    if m != [] {
      RemoveQuotesOfPlain(m[1..]);
    }
  }

  lemma {:induction false} RemoveQuotesAround(q: char, v: string, q': char)
    requires IsQuote(q) && IsQuote(q')
    requires forall i :: 0 <= i < |v| ==> !IsQuote(v[i])
    ensures RemoveQuotes([q] + v + [q']) == v
  {
    var m := [q] + v + [q'];
    assert m[1..] == v + [q'];
    RemoveQuotesAppend(v, [q']);
    RemoveQuotesOfPlain(v);
    assert RemoveQuotes([q']) == "" by {
      assert [q'][1..] == [];
    }
  }

  lemma {:induction false} RemoveQuotesAppend(a: string, b: string)
    ensures RemoveQuotes(a + b) == RemoveQuotes(a) + RemoveQuotes(b)
  {
    if a != [] {
      assert (a + b)[1..] == a[1..] + b;
      RemoveQuotesAppend(a[1..], b);
    } else {
      assert a + b == b;
    }
  }

  /**
   * A quoted run starts at `r`: a quote, one or more non-quote characters and a
   * closing quote, the shape `/['"][^'"]+['"]/` matches.
   */
  predicate QuotedRunAt(s: string, r: nat) {
    r < |s| && IsQuote(s[r])
    && exists e :: r + 1 < e < |s| && IsQuote(s[e]) && forall i :: r < i < e ==> !IsQuote(s[i])
  }

  /** `QuotedRunFrom` stops at `r` exactly when a quoted run starts at `r`. */
  lemma QuotedRunAtGuard(s: string, r: nat)
    requires r <= |s|
    ensures QuotedRunAt(s, r) <==>
      (r + 1 < |s| && IsQuote(s[r]) && !IsQuote(s[r + 1]) && QuoteFreeEnd(s, r + 1) < |s|)
  {
    if QuotedRunAt(s, r) {
      var e :| r + 1 < e < |s| && IsQuote(s[e]) && forall i :: r < i < e ==> !IsQuote(s[i]);
      QuoteFreeEndIs(s, r + 1, e);
    }
    if r + 1 < |s| && IsQuote(s[r]) && !IsQuote(s[r + 1]) && QuoteFreeEnd(s, r + 1) < |s| {
      var e := QuoteFreeEnd(s, r + 1);
      assert r + 1 < e && forall i :: r < i < e ==> !IsQuote(s[i]);
    }
  }

  /** A quoted run from `q` to `e`, with no quoted run starting in `[p, q)`, is the first quoted match from `p`. */
  lemma {:induction false} QuotedRunFromFirst(s: string, p: nat, q: nat, e: nat)
    requires p <= q && q + 1 < e < |s|
    requires IsQuote(s[q]) && IsQuote(s[e])
    requires forall i :: q < i < e ==> !IsQuote(s[i])
    requires forall r :: p <= r < q ==> !QuotedRunAt(s, r)
    ensures QuotedRunFrom(s, p) == Some(s[q..e + 1])
    decreases q - p
  {
    if p < q {
      QuotedRunAtGuard(s, p);
      QuotedRunFromFirst(s, p + 1, q, e);
    } else {
      assert QuoteFreeEnd(s, q + 1) == e by { QuoteFreeEndIs(s, q + 1, e); }
    }
  }

  /** There is no quoted match at or after `p` exactly when no quoted run starts there. */
  lemma {:induction false} QuotedRunFromNone(s: string, p: nat)
    requires p <= |s|
    ensures QuotedRunFrom(s, p).None? <==> forall r :: p <= r < |s| ==> !QuotedRunAt(s, r)
    decreases |s| - p
  {
    QuotedRunAtGuard(s, p);
    if p < |s| {
      QuotedRunFromNone(s, p + 1);
    }
  }

  lemma {:induction false} QuoteFreeEndIs(s: string, k: nat, e: nat)
    requires k <= e < |s| && IsQuote(s[e])
    requires forall i :: k <= i < e ==> !IsQuote(s[i])
    ensures QuoteFreeEnd(s, k) == e
    decreases e - k
  {
    if k < e {
      QuoteFreeEndIs(s, k + 1, e);
    }
  }

  /** Whenever a quoted match exists, the keyword is its inner run, which holds no quote. */
  lemma KeywordOfQuotedRun(s: string)
    requires QuotedRunFrom(s, 0).Some?
    ensures var m := QuotedRunFrom(s, 0).value;
      |m| >= 3 && ExtractKeyword(s) == m[1..|m| - 1]
      && forall i :: 0 <= i < |ExtractKeyword(s)| ==> !IsQuote(ExtractKeyword(s)[i])
  {
    QuotedRunShape(s, 0);
    var m := QuotedRunFrom(s, 0).value;
    assert m == [m[0]] + m[1..|m| - 1] + [m[|m| - 1]];
    RemoveQuotesAround(m[0], m[1..|m| - 1], m[|m| - 1]);
  }

  lemma {:induction false} QuotedRunShape(s: string, p: nat)
    requires p <= |s| && QuotedRunFrom(s, p).Some?
    decreases |s| - p
    ensures var m := QuotedRunFrom(s, p).value;
      |m| >= 3 && IsQuote(m[0]) && IsQuote(m[|m| - 1]) && forall i :: 0 < i < |m| - 1 ==> !IsQuote(m[i])
  {
    if !(p + 1 < |s| && IsQuote(s[p]) && !IsQuote(s[p + 1]) && QuoteFreeEnd(s, p + 1) < |s|) {
      QuotedRunShape(s, p + 1);
    }
  }

  /** Example from the keyword rule: an xpath whose text predicate is "Submit" yields `Submit`. */
  lemma KeywordOfTextXPath()
    ensures ExtractKeyword("//*[@text=\"Submit\"]") == "Submit"
  {
    var s := "//*[@text=\"Submit\"]";
    forall r | 0 <= r < 10 ensures !QuotedRunAt(s, r) {
      assert !IsQuote(s[r]);
    }
    QuotedRunFromFirst(s, 0, 10, 17);
    assert s[10..18] == "\"Submit\"";
    KeywordOfQuotedRun(s);
  }

  /** The first word run at or after `p` begins at the first word character `q`. */
  lemma {:induction false} WordRunFromFirst(s: string, p: nat, q: nat)
    requires p <= q < |s| && IsWordChar(s[q])
    requires forall r :: p <= r < q ==> !IsWordChar(s[r])
    ensures WordRunFrom(s, p) == Some(s[q..WordEnd(s, q)])
    decreases q - p
  {
    if p < q {
      WordRunFromFirst(s, p + 1, q);
    }
  }

  /** With no quoted run anywhere, the keyword is the maximal word run at the first word character `q`. */
  lemma KeywordOfFirstWord(s: string, q: nat)
    requires forall r :: 0 <= r < |s| ==> !QuotedRunAt(s, r)
    requires q < |s| && IsWordChar(s[q])
    requires forall r :: 0 <= r < q ==> !IsWordChar(s[r])
    ensures ExtractKeyword(s) == s[q..WordEnd(s, q)]
  {
    QuotedRunFromNone(s, 0);
    WordRunFromFirst(s, 0, q);
    var w := s[q..WordEnd(s, q)];
    forall i | 0 <= i < |w| ensures !IsQuote(w[i]) {
      assert IsWordChar(s[q + i]);
    }
    RemoveQuotesOfPlain(w);
  }

  /** A selector made only of word characters is its own keyword. */
  lemma KeywordOfWord(s: string)
    requires |s| > 0
    requires forall i :: 0 <= i < |s| ==> IsWordChar(s[i])
    ensures ExtractKeyword(s) == s
  {
    forall r | 0 <= r < |s| ensures !QuotedRunAt(s, r) {
      assert IsWordChar(s[r]);
    }
    WordEndIs(s, 0, |s|);
    KeywordOfFirstWord(s, 0);
    assert s[0..|s|] == s;
  }

  /** Example from the keyword rule: a bare identifier is its own keyword. */
  lemma KeywordOfIdentifier()
    ensures ExtractKeyword("loginButton123") == "loginButton123"
  {
    KeywordOfWord("loginButton123");
  }

  /** A CSS-like selector without quotes: the keyword is its first word, `submit`. */
  lemma KeywordOfClassSelector()
    ensures ExtractKeyword(".submit-btn") == "submit"
  {
    var s := ".submit-btn";
    forall r | 0 <= r < |s| ensures !QuotedRunAt(s, r) {
      assert !IsQuote(s[r]);
    }
    WordEndIs(s, 1, 7);
    KeywordOfFirstWord(s, 1);
    assert s[1..7] == "submit";
  }

  lemma {:induction false} WordEndIs(s: string, k: nat, e: nat)
    requires k <= e <= |s|
    requires forall i :: k <= i < e ==> IsWordChar(s[i])
    requires e < |s| ==> !IsWordChar(s[e])
    ensures WordEnd(s, k) == e
    decreases e - k
  {
    if k < e {
      WordEndIs(s, k + 1, e);
    }
  }

  lemma {:induction false} NoWordRun(s: string, p: nat)
    requires p <= |s|
    requires forall i :: p <= i < |s| ==> !IsWordChar(s[i])
    ensures WordRunFrom(s, p).None?
    decreases |s| - p
  {
    if p < |s| {
      NoWordRun(s, p + 1);
    }
  }

  /** With neither a quoted run nor a word character, the keyword is the first 20 characters. */
  lemma KeywordFallsBackToPrefix(s: string)
    requires forall r :: 0 <= r < |s| ==> !QuotedRunAt(s, r) && !IsWordChar(s[r])
    ensures ExtractKeyword(s) == s[..if |s| < 20 then |s| else 20]
  {
    QuotedRunFromNone(s, 0);
    NoWordRun(s, 0);
  }

  /** A lone quote opens no quoted run: the keyword of `-'-` is the whole selector. */
  lemma KeywordOfStrayQuote()
    ensures ExtractKeyword("-'-") == "-'-"
  {
    var s := "-'-";
    assert !IsWordChar(s[0]) && !IsWordChar(s[1]) && !IsWordChar(s[2]);
    assert !IsQuote(s[0]) && !IsQuote(s[2]);
    KeywordFallsBackToPrefix(s);
  }

  // ---------------------------------------------------------------------
  // generateFallbackLocators (Android)
  // ---------------------------------------------------------------------

  const UiAutomator := "-android uiautomator"

  /** The two catch-all candidates appended for every Android original. */
  function CatchAlls(selector: string): seq<LocatorStrategy> {
    [ LocatorStrategy(UiAutomator, "new UiSelector().descriptionContains(\"" + ExtractKeyword(selector) + "\")", 4),
      LocatorStrategy(UiAutomator, "new UiSelector().textContains(\"" + ExtractKeyword(selector) + "\")", 5) ]
  }

  function Opt(present: bool, x: LocatorStrategy): seq<LocatorStrategy> {
    if present then [x] else []
  }

  /** The strategy-specific candidates, in the order they are pushed. */
  function AndroidTiers(strategy: string, selector: string): seq<LocatorStrategy> {
    if strategy == "id" then
      [ LocatorStrategy("accessibility id", selector, 1),
        LocatorStrategy("xpath", "//*[@resource-id=\"" + selector + "\"]", 2),
        LocatorStrategy("xpath", "//*[contains(@resource-id, \"" + selector + "\")]", 3) ]
    else if strategy == "accessibility id" then
      [ LocatorStrategy("id", selector, 1),
        LocatorStrategy("xpath", "//*[@content-desc=\"" + selector + "\"]", 2),
        LocatorStrategy("xpath", "//*[contains(@content-desc, \"" + selector + "\")]", 3) ]
    else if strategy == "xpath" then
      var idMatch := AttrMatch(selector, "@resource-id=");
      var contentDescMatch := AttrMatch(selector, "@content-desc=");
      var textMatch := AttrMatch(selector, "@text=");
      Opt(idMatch.Some?, LocatorStrategy("id", idMatch.GetOr(""), 1))
        + Opt(contentDescMatch.Some?, LocatorStrategy("accessibility id", contentDescMatch.GetOr(""), 2))
        + Opt(textMatch.Some?, LocatorStrategy("xpath", "//*[@text=\"" + textMatch.GetOr("") + "\"]", 3))
    else if strategy == "class name" then
      [ LocatorStrategy("xpath", "//" + selector, 1) ]
    else []
  }

  /** generateFallbackLocators. The page source is accepted and never consulted. */
  function GenerateFallbackLocators(strategy: string, selector: string, pageSource: string): seq<LocatorStrategy> {
    SortByPriority(AndroidTiers(strategy, selector) + CatchAlls(selector))
  }

  /** Concatenating two increasing lists, the first entirely below the second, is increasing. */
  lemma ConcatIncreasing(xs: seq<LocatorStrategy>, ys: seq<LocatorStrategy>, bound: int)
    requires StrictlyIncreasing(xs) && StrictlyIncreasing(ys)
    requires forall i :: 0 <= i < |xs| ==> xs[i].priority < bound
    requires forall j :: 0 <= j < |ys| ==> bound <= ys[j].priority
    ensures StrictlyIncreasing(xs + ys)
  {
    forall i, j | 0 <= i < j < |xs + ys| ensures (xs + ys)[i].priority < (xs + ys)[j].priority {
      if j < |xs| {
      } else if i >= |xs| {
        assert (xs + ys)[i] == ys[i - |xs|] && (xs + ys)[j] == ys[j - |xs|];
      } else {
        assert (xs + ys)[j] == ys[j - |xs|];
      }
    }
  }

  lemma CatchAllsIncreasing(selector: string)
    ensures StrictlyIncreasing(CatchAlls(selector))
    ensures forall j :: 0 <= j < |CatchAlls(selector)| ==> 4 <= CatchAlls(selector)[j].priority
  {
  }

  lemma PrioritiesOneToN(t: seq<LocatorStrategy>)
    requires forall i :: 0 <= i < |t| ==> t[i].priority == i + 1
    ensures StrictlyIncreasing(t)
  {
  }

  lemma XPathTiersIncreasing(selector: string)
    ensures StrictlyIncreasing(AndroidTiers("xpath", selector))
    ensures forall i :: 0 <= i < |AndroidTiers("xpath", selector)| ==> AndroidTiers("xpath", selector)[i].priority < 4
  {
    XPathTiersShape(AttrMatch(selector, "@resource-id="), AttrMatch(selector, "@content-desc="), AttrMatch(selector, "@text="));
  }

  /** The three optional xpath candidates, whatever was matched, come out at
      priorities 1, 2 and 3 in that order. */
  lemma XPathTiersShape(idMatch: Option<string>, contentDescMatch: Option<string>, textMatch: Option<string>)
    ensures var tiers :=
      Opt(idMatch.Some?, LocatorStrategy("id", idMatch.GetOr(""), 1))
        + Opt(contentDescMatch.Some?, LocatorStrategy("accessibility id", contentDescMatch.GetOr(""), 2))
        + Opt(textMatch.Some?, LocatorStrategy("xpath", "//*[@text=\"" + textMatch.GetOr("") + "\"]", 3));
      StrictlyIncreasing(tiers) && forall i :: 0 <= i < |tiers| ==> tiers[i].priority < 4
  {
    var a := Opt(idMatch.Some?, LocatorStrategy("id", idMatch.GetOr(""), 1));
    var b := Opt(contentDescMatch.Some?, LocatorStrategy("accessibility id", contentDescMatch.GetOr(""), 2));
    var c := Opt(textMatch.Some?, LocatorStrategy("xpath", "//*[@text=\"" + textMatch.GetOr("") + "\"]", 3));
    AppendOpt([], idMatch.Some?, LocatorStrategy("id", idMatch.GetOr(""), 1));
    assert [] + a == a;
    AppendOpt(a, contentDescMatch.Some?, LocatorStrategy("accessibility id", contentDescMatch.GetOr(""), 2));
    AppendOpt(a + b, textMatch.Some?, LocatorStrategy("xpath", "//*[@text=\"" + textMatch.GetOr("") + "\"]", 3));
  }

  /** Appending an optional candidate above everything so far keeps the list
      increasing, and bounded by that candidate's priority. */
  lemma AppendOpt(xs: seq<LocatorStrategy>, present: bool, x: LocatorStrategy)
    requires StrictlyIncreasing(xs)
    requires forall i :: 0 <= i < |xs| ==> xs[i].priority < x.priority
    ensures StrictlyIncreasing(xs + Opt(present, x))
    ensures forall i :: 0 <= i < |xs + Opt(present, x)| ==> (xs + Opt(present, x))[i].priority <= x.priority
  {
    if !present {
      assert xs + Opt(present, x) == xs;
    }
  }


  lemma TiersThenCatchAllsIncreasing(strategy: string, selector: string)
    ensures StrictlyIncreasing(AndroidTiers(strategy, selector) + CatchAlls(selector))
  {
    var t := AndroidTiers(strategy, selector);
    CatchAllsIncreasing(selector);
    if strategy == "xpath" {
      XPathTiersIncreasing(selector);
    } else {
      assert |t| <= 3;
      assert forall i :: 0 <= i < |t| ==> t[i].priority == i + 1;
      PrioritiesOneToN(t);
    }
    ConcatIncreasing(t, CatchAlls(selector), 4);
  }

  /** The pushes are already in priority order, so the final sort changes nothing. */
  lemma AndroidUnsorted(strategy: string, selector: string, pageSource: string)
    ensures GenerateFallbackLocators(strategy, selector, pageSource) == AndroidTiers(strategy, selector) + CatchAlls(selector)
  {
    TiersThenCatchAllsIncreasing(strategy, selector);
    SortSortedIsIdentity(AndroidTiers(strategy, selector) + CatchAlls(selector));
  }

  /** Every Android list ends with the two keyword catch-alls, at priorities 4 and 5. */
  lemma AndroidEndsWithCatchAlls(strategy: string, selector: string, pageSource: string)
    ensures var r := GenerateFallbackLocators(strategy, selector, pageSource);
      var k := ExtractKeyword(selector);
      && |r| >= 2
      && r[|r| - 2] == LocatorStrategy("-android uiautomator", "new UiSelector().descriptionContains(\"" + k + "\")", 4)
      && r[|r| - 1] == LocatorStrategy("-android uiautomator", "new UiSelector().textContains(\"" + k + "\")", 5)
  {
    AndroidUnsorted(strategy, selector, pageSource);
  }

  lemma AndroidForId(selector: string, pageSource: string)
    ensures GenerateFallbackLocators("id", selector, pageSource) ==
      [ LocatorStrategy("accessibility id", selector, 1),
        LocatorStrategy("xpath", "//*[@resource-id=\"" + selector + "\"]", 2),
        LocatorStrategy("xpath", "//*[contains(@resource-id, \"" + selector + "\")]", 3) ]
      + CatchAlls(selector)
  {
    AndroidUnsorted("id", selector, pageSource);
  }

  lemma AndroidForAccessibilityId(selector: string, pageSource: string)
    ensures GenerateFallbackLocators("accessibility id", selector, pageSource) ==
      [ LocatorStrategy("id", selector, 1),
        LocatorStrategy("xpath", "//*[@content-desc=\"" + selector + "\"]", 2),
        LocatorStrategy("xpath", "//*[contains(@content-desc, \"" + selector + "\")]", 3) ]
      + CatchAlls(selector)
  {
    AndroidUnsorted("accessibility id", selector, pageSource);
  }

  /** For an xpath original each tier appears exactly when its attribute pattern matches,
      carrying the captured value; the list has between 2 and 5 entries. */
  lemma AndroidForXPath(selector: string, pageSource: string)
    ensures var r := GenerateFallbackLocators("xpath", selector, pageSource);
      var idMatch := AttrMatch(selector, "@resource-id=");
      var descMatch := AttrMatch(selector, "@content-desc=");
      var textMatch := AttrMatch(selector, "@text=");
      && 2 <= |r| <= 5
      && r == (if idMatch.Some? then [LocatorStrategy("id", idMatch.value, 1)] else [])
            + (if descMatch.Some? then [LocatorStrategy("accessibility id", descMatch.value, 2)] else [])
            + (if textMatch.Some? then [LocatorStrategy("xpath", "//*[@text=\"" + textMatch.value + "\"]", 3)] else [])
            + CatchAlls(selector)
  {
    AndroidUnsorted("xpath", selector, pageSource);
  }

  lemma AndroidForClassName(selector: string, pageSource: string)
    ensures GenerateFallbackLocators("class name", selector, pageSource) ==
      [LocatorStrategy("xpath", "//" + selector, 1)] + CatchAlls(selector)
  {
    AndroidUnsorted("class name", selector, pageSource);
  }

  lemma AndroidForOtherStrategy(strategy: string, selector: string, pageSource: string)
    requires strategy !in {"id", "accessibility id", "xpath", "class name"}
    ensures GenerateFallbackLocators(strategy, selector, pageSource) == CatchAlls(selector)
  {
    AndroidUnsorted(strategy, selector, pageSource);
  }

  /** The result does not depend on the page source. */
  lemma AndroidIgnoresPageSource(strategy: string, selector: string, p1: string, p2: string)
    ensures GenerateFallbackLocators(strategy, selector, p1) == GenerateFallbackLocators(strategy, selector, p2)
  {
  }

  lemma AndroidStrictlyIncreasing(strategy: string, selector: string, pageSource: string)
    ensures StrictlyIncreasing(GenerateFallbackLocators(strategy, selector, pageSource))
  {
    AndroidUnsorted(strategy, selector, pageSource);
    TiersThenCatchAllsIncreasing(strategy, selector);
  }

  // ---------------------------------------------------------------------
  // generateIOSFallbackLocators
  // ---------------------------------------------------------------------

  const IosPredicate := "-ios predicate string"

  function IOSTiers(strategy: string, selector: string): seq<LocatorStrategy> {
    if strategy == "id" || strategy == "name" then
      [ LocatorStrategy("accessibility id", selector, 1),
        LocatorStrategy("xpath", "//*[@name=\"" + selector + "\"]", 2),
        LocatorStrategy(IosPredicate, "name == \"" + selector + "\"", 3),
        LocatorStrategy(IosPredicate, "name CONTAINS \"" + selector + "\"", 4) ]
    else if strategy == "accessibility id" then
      [ LocatorStrategy("id", selector, 1),
        LocatorStrategy("name", selector, 2),
        LocatorStrategy(IosPredicate, "label == \"" + selector + "\"", 3) ]
    else []
  }

  /** generateIOSFallbackLocators. */
  function GenerateIOSFallbackLocators(strategy: string, selector: string): seq<LocatorStrategy> {
    SortByPriority(IOSTiers(strategy, selector))
  }

  lemma IOSUnsorted(strategy: string, selector: string)
    ensures GenerateIOSFallbackLocators(strategy, selector) == IOSTiers(strategy, selector)
    ensures StrictlyIncreasing(GenerateIOSFallbackLocators(strategy, selector))
  {
    var t := IOSTiers(strategy, selector);
    assert forall i :: 0 <= i < |t| ==> t[i].priority == i + 1;
    SortSortedIsIdentity(t);
  }

  lemma IOSForIdOrName(strategy: string, selector: string)
    requires strategy == "id" || strategy == "name"
    ensures GenerateIOSFallbackLocators(strategy, selector) ==
      [ LocatorStrategy("accessibility id", selector, 1),
        LocatorStrategy("xpath", "//*[@name=\"" + selector + "\"]", 2),
        LocatorStrategy("-ios predicate string", "name == \"" + selector + "\"", 3),
        LocatorStrategy("-ios predicate string", "name CONTAINS \"" + selector + "\"", 4) ]
  {
    IOSUnsorted(strategy, selector);
  }

  lemma IOSForAccessibilityId(selector: string)
    ensures GenerateIOSFallbackLocators("accessibility id", selector) ==
      [ LocatorStrategy("id", selector, 1),
        LocatorStrategy("name", selector, 2),
        LocatorStrategy("-ios predicate string", "label == \"" + selector + "\"", 3) ]
  {
    IOSUnsorted("accessibility id", selector);
  }

  lemma IOSForOtherStrategy(strategy: string, selector: string)
    requires strategy !in {"id", "name", "accessibility id"}
    ensures GenerateIOSFallbackLocators(strategy, selector) == []
  {
    IOSUnsorted(strategy, selector);
  }
}
