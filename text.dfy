/** An optional value: the model's stand-in for a JavaScript field that may be
    `undefined` or `null`. */
module Wrappers {
  datatype Option<+T> = None | Some(value: T)
}

/** The few JavaScript string operations the page scripts rely on. */
module JsText {
  import opened Wrappers

  /** JavaScript truthiness of an optional string: absent, null and "" are falsy. */
  predicate Truthy(o: Option<string>) {
    o.Some? && o.value != ""
  }

  /** `o || fallback` for an optional string. */
  function OrElse(o: Option<string>, fallback: string): string {
    if Truthy(o) then o.value else fallback
  }

  // ---------------------------------------------------------------- upper case

  /** `toUpperCase` on one character, restricted to the ASCII letters. */
  function UpperChar(c: char): char {
    if 'a' <= c <= 'z' then (c as int - 32) as char else c
  }

  /** `String.prototype.toUpperCase`, letter by letter, on ASCII letters. */
  function ToUpper(s: string): (r: string)
    ensures |r| == |s|
    ensures forall i :: 0 <= i < |s| ==> r[i] == UpperChar(s[i])
  {
    if s == [] then [] else [UpperChar(s[0])] + ToUpper(s[1..])
  }

  /** Upper-casing twice is upper-casing once: the role and status checks
      that upper-case their input are insensitive to the input's case. */
  lemma {:induction false} ToUpperIdempotent(s: string)
    ensures ToUpper(ToUpper(s)) == ToUpper(s)
  {
    if s != [] {
      ToUpperIdempotent(s[1..]);
      assert ToUpper(s)[1..] == ToUpper(s[1..]);
    }
  }

  /** A string is the upper-cased form of another when they agree letter by
      letter under UpperChar. */
  lemma ToUpperIs(s: string, u: string)
    requires |s| == |u| && forall i :: 0 <= i < |s| ==> UpperChar(s[i]) == u[i]
    ensures ToUpper(s) == u
  {
  }

  // --------------------------------------------------------------- substrings

  /** `sub` occurs in `s` starting at index `i`. */
  predicate OccursAt(s: string, sub: string, i: nat) {
    i + |sub| <= |s| && s[i..i + |sub|] == sub
  }

  /** `String.prototype.includes`. */
  function Contains(s: string, sub: string): (b: bool)
    ensures b <==> exists i: nat :: OccursAt(s, sub, i)
    decreases |s|
  {
    if |sub| > |s| then
      assert forall i: nat :: !OccursAt(s, sub, i);
      false
    else if s[..|sub|] == sub then
      assert OccursAt(s, sub, 0);
      true
    else
      OccursShift(s, sub);
      Contains(s[1..], sub)
  }

  /** An occurrence in the tail of `s` is an occurrence in `s` one place later. */
  lemma OccursShift(s: string, sub: string)
    requires |s| > 0 && !OccursAt(s, sub, 0)
    ensures (exists i: nat :: OccursAt(s[1..], sub, i)) <==> (exists i: nat :: OccursAt(s, sub, i))
  {
    forall i: nat | OccursAt(s[1..], sub, i)
      ensures OccursAt(s, sub, i + 1)
    {
      assert s[1..][i..i + |sub|] == s[i + 1..i + 1 + |sub|];
    }
    forall i: nat | OccursAt(s, sub, i)
      ensures i >= 1 && OccursAt(s[1..], sub, i - 1)
    {
      assert s[1..][i - 1..i - 1 + |sub|] == s[i..i + |sub|];
    }
  }

  /** An occurrence of `sub` in `p + v` lies inside `v` when the first
      character of `sub` appears nowhere in `p`. */
  lemma ContainsAfterPrefix(p: string, v: string, sub: string)
    requires sub != [] && forall k :: 0 <= k < |p| ==> p[k] != sub[0]
    ensures Contains(p + v, sub) ==> Contains(v, sub)
  {
    if Contains(p + v, sub) {
      var i: nat :| OccursAt(p + v, sub, i);
      assert (p + v)[i] == sub[0] by {
        assert (p + v)[i..i + |sub|][0] == (p + v)[i];
      }
      assert (p + v)[i..i + |sub|] == v[i - |p|..i - |p| + |sub|];
      assert OccursAt(v, sub, i - |p|);
    }
  }

  /** An occurrence of `sub` in `v` is an occurrence in `p + v`. */
  lemma ContainsInSuffix(p: string, v: string, sub: string)
    ensures Contains(v, sub) ==> Contains(p + v, sub)
  {
    if Contains(v, sub) {
      var i: nat :| OccursAt(v, sub, i);
      assert (p + v)[|p| + i..|p| + i + |sub|] == v[i..i + |sub|];
      assert OccursAt(p + v, sub, |p| + i);
    }
  }

  // --------------------------------------------------------------------- trim

  /** The characters `String.prototype.trim` removes: white space and line
      terminators. */
  predicate IsJsSpace(c: char) {
    c == ' ' || c == '\t' || c == '\n' || c == '\r' || c == '\U{000B}' || c == '\U{000C}'
    || c == '\U{00A0}' || c == '\U{1680}' || ('\U{2000}' <= c <= '\U{200A}')
    || c == '\U{2028}' || c == '\U{2029}' || c == '\U{202F}' || c == '\U{205F}'
    || c == '\U{3000}' || c == '\U{FEFF}'
  }

  predicate AllSpace(s: string) {
    forall i :: 0 <= i < |s| ==> IsJsSpace(s[i])
  }

  /** The index of the first character at or after `i` that is not white
      space, or |s| when there is none. */
  function SpaceEnd(s: string, i: nat): (n: nat)
    requires i <= |s|
    ensures i <= n <= |s|
    ensures forall k :: i <= k < n ==> IsJsSpace(s[k])
    ensures n == |s| || !IsJsSpace(s[n])
    decreases |s| - i
  {
    if i < |s| && IsJsSpace(s[i]) then SpaceEnd(s, i + 1) else i
  }

  /** The index just past the last character before `j`, down to `lo`, that
      is not white space, or `lo` when there is none. */
  function SpaceStart(s: string, lo: nat, j: nat): (n: nat)
    requires lo <= j <= |s|
    ensures lo <= n <= j
    ensures forall k :: n <= k < j ==> IsJsSpace(s[k])
    ensures n == lo || !IsJsSpace(s[n - 1])
    decreases j - lo
  {
    if lo < j && IsJsSpace(s[j - 1]) then SpaceStart(s, lo, j - 1) else j
  }

  /** `String.prototype.trim`: the input with its leading and trailing
      white space removed. No white space is left at either end, and the
      result is empty exactly when the input held nothing but white space. */
  function Trim(s: string): (r: string)
    ensures |r| <= |s|
    ensures exists a, b :: 0 <= a <= b <= |s| && r == s[a..b] && AllSpace(s[..a]) && AllSpace(s[b..])
    ensures r == [] || (!IsJsSpace(r[0]) && !IsJsSpace(r[|r| - 1]))
    ensures r == [] <==> AllSpace(s)
  {
    var a := SpaceEnd(s, 0);
    var b := SpaceStart(s, a, |s|);
    TrimBounds(s, a, b);
    s[a..b]
  }

  /** The two bounds of the trimmed slice have only white space outside
      them, and meet exactly when the input is all white space. */
  lemma TrimBounds(s: string, a: nat, b: nat)
    requires a == SpaceEnd(s, 0) && b == SpaceStart(s, a, |s|)
    ensures AllSpace(s[..a]) && AllSpace(s[b..])
    ensures a < b ==> !IsJsSpace(s[a]) && !IsJsSpace(s[b - 1])
    ensures a == b <==> AllSpace(s)
  {
    assert forall k :: 0 <= k < a ==> s[..a][k] == s[k];
    assert forall k :: 0 <= k < |s| - b ==> s[b..][k] == s[b + k];
  }

  // ---------------------------------------------------------- decimal numbers

  function DigitChar(d: nat): (c: char)
    requires d < 10
    ensures '0' <= c <= '9'
  {
    "0123456789"[d]
  }

  function DigitValue(c: char): int {
    c as int - '0' as int
  }

  /** The value of a string of decimal digits (the partner of NatToString). */
  function DecimalValue(s: string): int {
    if s == [] then 0 else 10 * DecimalValue(s[..|s| - 1]) + DigitValue(s[|s| - 1])
  }

  /** The decimal text of a natural number, as template literals print it. */
  function NatToString(n: nat): (r: string)
    ensures r != []
    ensures forall i :: 0 <= i < |r| ==> '0' <= r[i] <= '9'
  {
    if n < 10 then [DigitChar(n)] else NatToString(n / 10) + [DigitChar(n % 10)]
  }

  /** Reading back the decimal text gives the number. */
  lemma {:induction false} NatToStringRoundTrip(n: nat)
    ensures DecimalValue(NatToString(n)) == n
  {
    var s := NatToString(n);
    if n < 10 {
      assert s[..|s| - 1] == [];
    } else {
      assert s[..|s| - 1] == NatToString(n / 10);
      NatToStringRoundTrip(n / 10);
    }
  }

  /** The decimal text of an integer, with a leading '-' when negative. */
  function IntToString(n: int): (r: string)
    ensures r != []
    ensures n < 0 <==> r[0] == '-'
  {
    if n < 0 then "-" + NatToString(-n) else NatToString(n)
  }

  /** The value of an optionally signed decimal text. */
  function SignedDecimalValue(s: string): int {
    if s != [] && s[0] == '-' then -DecimalValue(s[1..]) else DecimalValue(s)
  }

  /** Reading back the text of an integer gives the integer. */
  lemma {:induction false} IntToStringRoundTrip(n: int)
    ensures SignedDecimalValue(IntToString(n)) == n
  {
    if n < 0 {
      var m: nat := -n;
      var t := NatToString(m);
      assert IntToString(n) == "-" + t;
      NatToStringRoundTrip(m);
      SignedNegative(t);
    } else {
      NatToStringRoundTrip(n);
    }
  }

  /** A leading '-' negates the value of the digits after it. */
  lemma SignedNegative(t: string)
    ensures SignedDecimalValue("-" + t) == -DecimalValue(t)
  {
    assert ("-" + t)[1..] == t;
  }
}
