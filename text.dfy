/**
 * The few string operations the OS classifier and the image fetcher rely on:
 * String.toLowerCase, String.contains, String.endsWith and the "%d" format.
 */
module Text {

  predicate IsUpper(c: char) {
    'A' <= c <= 'Z'
  }

  predicate IsDigit(c: char) {
    '0' <= c <= '9'
  }

  /** Lower-cases one character; only the ASCII letters A-Z are mapped. */
  function LowerChar(c: char): char {
    if IsUpper(c) then (c as int + 32) as char else c
  }

  /** String.toLowerCase, restricted to ASCII letters. */
  function ToLower(s: string): (r: string)
    ensures |r| == |s|
    ensures forall i :: 0 <= i < |s| ==> r[i] == LowerChar(s[i])
    ensures forall i :: 0 <= i < |r| ==> !IsUpper(r[i])
  {
    if s == [] then [] else [LowerChar(s[0])] + ToLower(s[1..])
  }

  /** Lower-casing twice is lower-casing once. */
  lemma ToLowerIdempotent(s: string)
    ensures ToLower(ToLower(s)) == ToLower(s)
  {
    var t := ToLower(s);
    assert forall i :: 0 <= i < |t| ==> ToLower(t)[i] == t[i];
  }

  /** Lower-casing distributes over concatenation. */
  lemma ToLowerAppend(a: string, b: string)
    ensures ToLower(a + b) == ToLower(a) + ToLower(b)
  {
    assert forall i :: 0 <= i < |a + b| ==> ToLower(a + b)[i] == (ToLower(a) + ToLower(b))[i];
  }

  /** t occurs in s starting at index i. */
  predicate OccursAt(s: string, t: string, i: int) {
    0 <= i && i + |t| <= |s| && s[i..i + |t|] == t
  }

  /** String.contains: t occurs somewhere in s. */
  function Contains(s: string, t: string): (b: bool)
    ensures b <==> exists i :: OccursAt(s, t, i)
    decreases |s|
  {
    if |t| > |s| then false
    else if s[..|t|] == t then assert OccursAt(s, t, 0); true
    else
      var b := Contains(s[1..], t);
      assert forall i :: OccursAt(s[1..], t, i) ==> OccursAt(s, t, i + 1);
      assert forall i :: OccursAt(s, t, i) && i > 0 ==> OccursAt(s[1..], t, i - 1);
      b
  }

  /** An occurrence survives adding text on either side. */
  lemma ContainsInContext(a: string, s: string, b: string, t: string)
    requires Contains(s, t)
    ensures Contains(a + s + b, t)
  {
    var i :| OccursAt(s, t, i);
    assert (a + s + b)[|a| + i..|a| + i + |t|] == s[i..i + |t|];
    assert OccursAt(a + s + b, t, |a| + i);
  }

  /** String.endsWith. */
  predicate EndsWith(s: string, suffix: string) {
    |suffix| <= |s| && s[|s| - |suffix|..] == suffix
  }

  function DigitChar(d: nat): char
    requires d < 10
  {
    ('0' as int + d) as char
  }

  /** The decimal digits of n, most significant first, without leading zeros. */
  function Digits(n: nat): (r: string)
    ensures 1 <= |r|
    ensures forall i :: 0 <= i < |r| ==> IsDigit(r[i])
    ensures n > 0 ==> r[0] != '0'
  {
    if n < 10 then [DigitChar(n)] else Digits(n / 10) + [DigitChar(n % 10)]
  }

  /** String.format("%d", n), with ASCII digits. */
  function DecimalString(n: int): (r: string)
    ensures 1 <= |r| && IsDigit(r[|r| - 1])
  {
    if n < 0 then "-" + Digits(-n) else Digits(n)
  }

  /** The value of a string of decimal digits. */
  function DigitsValue(s: string): nat
    requires forall i :: 0 <= i < |s| ==> IsDigit(s[i])
  {
    if s == [] then 0
    else
      assert IsDigit(s[|s| - 1]);
      DigitsValue(s[..|s| - 1]) * 10 + (s[|s| - 1] as int - '0' as int)
  }

  /** Integer.parseInt for what DecimalString produces. */
  function ParseDecimal(s: string): (n: int)
    ensures (n < 0) ==> s[0] == '-'
    requires 1 <= |s|
    requires forall i :: 1 <= i < |s| ==> IsDigit(s[i])
    requires s[0] == '-' || IsDigit(s[0])
  {
    if s[0] == '-' then -(DigitsValue(s[1..]) as int) else DigitsValue(s)
  }

  lemma {:induction false} DigitsRoundTrip(n: nat)
    ensures DigitsValue(Digits(n)) == n
  {
    if n >= 10 {
      DigitsRoundTrip(n / 10);
      var d := Digits(n / 10) + [DigitChar(n % 10)];
      assert d[..|d| - 1] == Digits(n / 10);
    }
  }

  /** Parsing the "%d" rendering of any integer gives the integer back. */
  lemma DecimalRoundTrip(n: int)
    ensures var s := DecimalString(n);
      && (forall i :: 1 <= i < |s| ==> IsDigit(s[i]))
      && (s[0] == '-' || IsDigit(s[0]))
      && ParseDecimal(s) == n
  {
    if n < 0 {
      DigitsRoundTrip(-n);
      assert DecimalString(n)[1..] == Digits(-n);
    } else {
      DigitsRoundTrip(n);
    }
  }
}
