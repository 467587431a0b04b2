/**
 * The pieces of JavaScript string and object semantics the application relies on:
 * the `\s` character class, `parseInt` with the default radix, number-to-string
 * conversion in template literals, `String.prototype.replace` with a string pattern,
 * `toLowerCase` and the object spread `{...obj, [name]: value}`.
 */
module Js {
  import opened Wrappers

  /** The characters matched by the regular-expression class `\s`. */
  predicate IsSpace(c: char)
  {
    || c == '\t' || c == '\n' || c == '\U{000B}' || c == '\U{000C}' || c == '\r' || c == ' '
    || c == '\U{00A0}' || c == '\U{1680}' || ('\U{2000}' <= c <= '\U{200A}')
    || c == '\U{2028}' || c == '\U{2029}' || c == '\U{202F}' || c == '\U{205F}'
    || c == '\U{3000}' || c == '\U{FEFF}'
  }

  predicate IsDigit(c: char)
  {
    '0' <= c <= '9'
  }

  predicate AllDigits(s: string)
  {
    forall i :: 0 <= i < |s| ==> IsDigit(s[i])
  }

  function DigitChar(d: nat): (c: char)
    requires d < 10
    ensures IsDigit(c) && c as int - '0' as int == d
  {
    ('0' as int + d) as char
  }

  /** The value of a decimal numeral, most significant digit first. */
  function DigitsValue(s: string): nat
    requires AllDigits(s)
  {
    if |s| == 0 then 0
    else 10 * DigitsValue(s[..|s| - 1]) + (s[|s| - 1] as int - '0' as int)
  }

  /** The decimal rendering of a natural number, as `${n}` prints it; reading it back gives n. */
  function NatToString(n: nat): (r: string)
    ensures |r| > 0 && AllDigits(r)
    ensures DigitsValue(r) == n
  {
    if n < 10 then [DigitChar(n)]
    else
      var prefix := NatToString(n / 10);
      var r := prefix + [DigitChar(n % 10)];
      assert r[..|r| - 1] == prefix;
      r
  }

  /** The number of leading characters of s in the class `\s`. */
  function SpacePrefix(s: string): (n: nat)
    ensures n <= |s|
    ensures forall i :: 0 <= i < n ==> IsSpace(s[i])
    ensures n < |s| ==> !IsSpace(s[n])
  {
    if |s| > 0 && IsSpace(s[0]) then 1 + SpacePrefix(s[1..]) else 0
  }

  /** The length of the longest run of decimal digits at the start of s. */
  function DigitPrefix(s: string): (n: nat)
    ensures n <= |s|
    ensures forall i :: 0 <= i < n ==> IsDigit(s[i])
    ensures n < |s| ==> !IsDigit(s[n])
  {
    if |s| > 0 && IsDigit(s[0]) then 1 + DigitPrefix(s[1..]) else 0
  }

  /** What is left of s once the leading white space and one optional sign are skipped. */
  function Unsigned(s: string): string
  {
    var t := s[SpacePrefix(s)..];
    if |t| > 0 && (t[0] == '-' || t[0] == '+') then t[1..] else t
  }

  /**
   * `parseInt(s)` with the default radix: leading white space, an optional sign, then the
   * longest run of decimal digits. None stands for NaN, the result when no digit follows.
   */
  function ParseInt(s: string): (r: Option<int>)
    ensures r.None? <==> |Unsigned(s)| == 0 || !IsDigit(Unsigned(s)[0])
  {
    var t := s[SpacePrefix(s)..];
    var u := Unsigned(s);
    var n := DigitPrefix(u);
    if n == 0 then None
    else if t[0] == '-' then Some(0 - DigitsValue(u[..n]) as int)
    else Some(DigitsValue(u[..n]))
  }

  /** A numeral made only of digits parses to its value. */
  lemma ParseIntOfNumeral(s: string)
    requires |s| > 0 && AllDigits(s)
    ensures ParseInt(s) == Some(DigitsValue(s))
  {
    assert !IsSpace(s[0]);
    assert SpacePrefix(s) == 0;
    assert s[0..] == s;
    assert Unsigned(s) == s;
    assert DigitPrefix(s) == |s|;
    assert s[..|s|] == s;
  }

  /** Printing a number and parsing it back is the identity (`parseInt(`${n}`) === n`). */
  lemma ParseIntNatToString(n: nat)
    ensures ParseInt(NatToString(n)) == Some(n)
  {
    ParseIntOfNumeral(NatToString(n));
  }

  predicate OccursAt(s: string, pat: string, i: nat)
  {
    i + |pat| <= |s| && s[i..i + |pat|] == pat
  }

  /** The index of the first occurrence of pat in s at or after `from`. */
  function IndexFrom(s: string, pat: string, from: nat): (r: Option<nat>)
    requires from <= |s|
    ensures r.Some? ==> from <= r.value && OccursAt(s, pat, r.value)
    ensures r.Some? ==> forall j :: from <= j < r.value ==> !OccursAt(s, pat, j)
    ensures r.None? ==> forall j :: from <= j <= |s| ==> !OccursAt(s, pat, j)
    decreases |s| - from
  {
    if OccursAt(s, pat, from) then Some(from)
    else if from == |s| then None
    else IndexFrom(s, pat, from + 1)
  }

  /** `s.replace(pat, rep)` with a string pattern: only the first occurrence is replaced. */
  function ReplaceFirst(s: string, pat: string, rep: string): (r: string)
    ensures (forall j :: 0 <= j <= |s| ==> !OccursAt(s, pat, j)) ==> r == s
    ensures forall i: nat :: OccursAt(s, pat, i) && (forall j :: 0 <= j < i ==> !OccursAt(s, pat, j)) ==>
      r == s[..i] + rep + s[i + |pat|..]
  {
    match IndexFrom(s, pat, 0)
    case None => s
    case Some(i) => s[..i] + rep + s[i + |pat|..]
  }

  /** When the text before an occurrence cannot start the pattern, that occurrence is the one replaced. */
  lemma {:induction false} ReplaceFirstAfterPlainPrefix(a: string, pat: string, b: string, rep: string)
    requires |pat| > 0 && pat[0] !in a
    ensures ReplaceFirst(a + pat + b, pat, rep) == a + rep + b
  {
    var s := a + pat + b;
    assert s[|a|..|a| + |pat|] == pat;
    assert OccursAt(s, pat, |a|);
    forall j | 0 <= j < |a|
      ensures !OccursAt(s, pat, j)
    {
      if j + |pat| <= |s| {
        assert s[j..j + |pat|][0] == s[j] == a[j];
      }
    }
    assert s[..|a|] == a;
    assert s[|a| + |pat|..] == b;
  }

  function LowerChar(c: char): char
  {
    if 'A' <= c <= 'Z' then (c as int + 32) as char else c
  }

  /** `s.toLowerCase()` on the ASCII letters. */
  function ToLower(s: string): (r: string)
    ensures |r| == |s|
    ensures forall i :: 0 <= i < |s| ==> r[i] == LowerChar(s[i])
  {
    seq(|s|, i requires 0 <= i < |s| => LowerChar(s[i]))
  }

  /** The truthiness of `obj[name]` on an object whose values are strings: present and not empty. */
  predicate Filled(obj: map<string, string>, name: string)
  {
    name in obj && obj[name] != ""
  }

  /** `obj[name]` on an object whose values are strings, reading a missing key as empty. */
  function Field(obj: map<string, string>, name: string): string
  {
    if name in obj then obj[name] else ""
  }

  /** `{...obj, [name]: value}`: the named key holds the new value and every other key is kept. */
  function WithField(obj: map<string, string>, name: string, value: string): (r: map<string, string>)
    ensures name in r && r[name] == value
    ensures forall k :: k != name ==> (k in r <==> k in obj)
    ensures forall k :: k != name && k in obj ==> r[k] == obj[k]
  {
    obj[name := value]
  }
}
