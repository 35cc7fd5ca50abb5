/**
 * The JavaScript string operations the core relies on, with their exact
 * ECMAScript semantics on out-of-range arguments: `indexOf` with a start
 * position, `substring` (clamping, swapping), `includes`, a one-character
 * global `replace`, `toLowerCase` on ASCII letters, decimal printing of
 * naturals and `Array.prototype.join`.
 */
module JsString {

  /** `sub` occurs in `s` starting at index `i`. */
  predicate OccursAt(s: string, sub: string, i: nat) {
    i + |sub| <= |s| && s[i..i + |sub|] == sub
  }

  /** `x` clamped into `[0, hi]`, as ECMAScript clamps string positions. */
  function Clamp(x: int, hi: nat): (r: nat)
    ensures r <= hi
    ensures 0 <= x <= hi ==> r == x
  {
    if x < 0 then 0 else if x > hi then hi else x
  }

  function IndexOfFromNat(s: string, sub: string, i: nat): (r: int)
    requires i <= |s|
    decreases |s| - i
    ensures r == -1 || (i <= r <= |s| && OccursAt(s, sub, r))
    ensures r == -1 ==> forall k :: i <= k <= |s| ==> !OccursAt(s, sub, k)
    ensures r >= 0 ==> forall k :: i <= k < r ==> !OccursAt(s, sub, k)
  {
    if OccursAt(s, sub, i) then i
    else if i == |s| then -1
    else IndexOfFromNat(s, sub, i + 1)
  }

  /** `s.indexOf(sub, from)`: the first occurrence at or after `from`
      (clamped into `[0, |s|]`), or -1 when there is none. */
  function IndexOf(s: string, sub: string, from: int): (r: int)
    ensures r == -1 || (Clamp(from, |s|) <= r <= |s| && OccursAt(s, sub, r))
    ensures r == -1 ==> forall k :: Clamp(from, |s|) <= k <= |s| ==> !OccursAt(s, sub, k)
    ensures r >= 0 ==> forall k :: Clamp(from, |s|) <= k < r ==> !OccursAt(s, sub, k)
  {
    IndexOfFromNat(s, sub, Clamp(from, |s|))
  }

  /** `s.includes(sub)`. */
  predicate Includes(s: string, sub: string) {
    IndexOf(s, sub, 0) >= 0
  }

  lemma IncludesIff(s: string, sub: string)
    ensures Includes(s, sub) <==> exists k :: 0 <= k <= |s| && OccursAt(s, sub, k)
  {
  }

  /** The first occurrence at or after `from` is the one `indexOf` reports. */
  lemma IndexOfFirst(s: string, sub: string, from: nat, q: nat)
    requires from <= q <= |s| && OccursAt(s, sub, q)
    requires forall k :: from <= k < q ==> !OccursAt(s, sub, k)
    ensures IndexOf(s, sub, from) == q
  {
  }

  /** `s.substring(a, b)`: both ends clamped into `[0, |s|]`, then swapped if out of order. */
  function Substring(s: string, a: int, b: int): string {
    var lo, hi := Clamp(a, |s|), Clamp(b, |s|);
    if lo <= hi then s[lo..hi] else s[hi..lo]
  }

  /** Every character of a substring comes from the string. */
  lemma SubstringChars(s: string, a: int, b: int)
    ensures forall c :: c in Substring(s, a, b) ==> c in s
  {
    var lo, hi := Clamp(a, |s|), Clamp(b, |s|);
    if lo <= hi {
      assert forall i :: 0 <= i < hi - lo ==> s[lo..hi][i] == s[lo + i];
    } else {
      assert forall i :: 0 <= i < lo - hi ==> s[hi..lo][i] == s[hi + i];
    }
  }

  /** `s.replace(/c/g, d)` for a single character `c`. */
  function ReplaceChar(s: string, c: char, d: char): (r: string)
    ensures |r| == |s|
    ensures forall i :: 0 <= i < |s| ==> r[i] == (if s[i] == c then d else s[i])
  {
    if s == [] then [] else [if s[0] == c then d else s[0]] + ReplaceChar(s[1..], c, d)
  }

  function LowerChar(c: char): char {
    if 'A' <= c <= 'Z' then (c as int + 32) as char else c
  }

  /** `s.toLowerCase()` on ASCII letters; other characters are left as they are. */
  function ToLower(s: string): (r: string)
    ensures |r| == |s|
    ensures forall i :: 0 <= i < |s| ==> r[i] == LowerChar(s[i])
  {
    if s == [] then [] else [LowerChar(s[0])] + ToLower(s[1..])
  }

  lemma ToLowerIdempotent(s: string)
    ensures ToLower(ToLower(s)) == ToLower(s)
  {
  }

  function DigitChar(d: nat): char
    requires d < 10
  {
    (48 + d) as char
  }

  /** `n` divided by ten, by repeated subtraction. */
  function Tens(n: nat): (q: nat)
    ensures 10 * q <= n < 10 * q + 10
  {
    if n < 10 then 0 else 1 + Tens(n - 10)
  }

  /** The decimal text of `n`, as a template literal prints an integer. */
  function NatToString(n: nat): (r: string)
  {
    if n < 10 then [DigitChar(n)] else NatToString(Tens(n)) + [DigitChar(n - 10 * Tens(n))]
  }

  /** The decimal text is a non-empty run of digits. */
  lemma {:induction false} NatToStringDigits(n: nat)
    ensures |NatToString(n)| >= 1
    ensures forall i :: 0 <= i < |NatToString(n)| ==> '0' <= NatToString(n)[i] <= '9'
  {
    if n >= 10 {
      NatToStringDigits(Tens(n));
    }
  }

  lemma NatToStringExamples()
    ensures NatToString(7) == "7"
    ensures NatToString(42) == "42"
  {
  }

  /** `parts.join(sep)`. */
  function Join(parts: seq<string>, sep: string): string {
    if parts == [] then ""
    else if |parts| == 1 then parts[0]
    else parts[0] + sep + Join(parts[1..], sep)
  }

  /** The number of occurrences of character `c` in `s`. */
  function CountChar(s: string, c: char): nat {
    if s == [] then 0 else (if s[0] == c then 1 else 0) + CountChar(s[1..], c)
  }

  lemma {:induction false} CountCharAppend(a: string, b: string, c: char)
    ensures CountChar(a + b, c) == CountChar(a, c) + CountChar(b, c)
  {
    if a == [] {
      assert a + b == b;
    } else {
      assert (a + b)[1..] == a[1..] + b;
      CountCharAppend(a[1..], b, c);
    }
  }

  /** Joining lines free of `c` with the one-character separator `[c]`
      yields exactly `|lines| - 1` occurrences of `c`. */
  lemma {:induction false} JoinCountsSeparators(lines: seq<string>, c: char)
    requires |lines| >= 1
    requires forall i :: 0 <= i < |lines| ==> CountChar(lines[i], c) == 0
    ensures CountChar(Join(lines, [c]), c) == |lines| - 1
  {
    if |lines| > 1 {
      JoinCountsSeparators(lines[1..], c);
      CountCharAppend(lines[0] + [c], Join(lines[1..], [c]), c);
      CountCharAppend(lines[0], [c], c);
    }
  }

  /** `s.split(c)` for a one-character separator: the pieces between the
      occurrences of `c`, always at least one. */
  function Split(s: string, c: char): (r: seq<string>)
    ensures |r| >= 1
  {
    if s == [] then [""]
    else if s[0] == c then [""] + Split(s[1..], c)
    else
      var rest := Split(s[1..], c);
      [[s[0]] + rest[0]] + rest[1..]
  }

  /** A prefix free of `c` is glued onto the first piece. */
  lemma {:induction false} SplitPrefix(a: string, rest: string, c: char)
    requires c !in a
    ensures Split(a + rest, c) == [a + Split(rest, c)[0]] + Split(rest, c)[1..]
  {
    if a != [] {
      assert (a + rest)[0] == a[0];
      assert (a + rest)[1..] == a[1..] + rest;
      SplitPrefix(a[1..], rest, c);
      assert [a[0]] + (a[1..] + Split(rest, c)[0]) == a + Split(rest, c)[0];
    } else {
      assert a + rest == rest;
      var r := Split(rest, c);
      assert a + r[0] == r[0];
      assert [r[0]] + r[1..] == r;
    }
  }

  /** Splitting undoes joining with a one-character separator that no part contains. */
  lemma {:induction false} SplitJoin(parts: seq<string>, c: char)
    requires |parts| >= 1
    requires forall i :: 0 <= i < |parts| ==> c !in parts[i]
    ensures Split(Join(parts, [c]), c) == parts
  {
    if |parts| == 1 {
      SplitPrefix(parts[0], "", c);
      assert parts[0] + "" == parts[0];
    } else {
      var tail := Join(parts[1..], [c]);
      SplitJoin(parts[1..], c);
      assert parts[0] + [c] + tail == parts[0] + ([c] + tail);
      assert Join(parts, [c]) == parts[0] + ([c] + tail);
      SplitPrefix(parts[0], [c] + tail, c);
      assert ([c] + tail)[1..] == tail;
      assert Split([c] + tail, c) == [""] + parts[1..];
      assert parts[0] + "" == parts[0];
      assert [parts[0]] + parts[1..] == parts;
    }
  }

  /** A character in neither the parts nor the separator is not in the join. */
  lemma {:induction false} JoinAvoids(parts: seq<string>, sep: string, c: char)
    requires c !in sep
    requires forall i :: 0 <= i < |parts| ==> c !in parts[i]
    ensures c !in Join(parts, sep)
  {
    if |parts| > 1 {
      JoinAvoids(parts[1..], sep, c);
    }
  }
}
