/** String helpers standing in for the Python built-ins the program uses on text:
    `in` on strings, `str.lower`, `str.ljust`, `str.join`, `str.split`, slicing
    with `[:n]`, `int()` on a number, `str()` of ints and floats and the `:.1f`
    format. Only ASCII is given case and word-character meaning. */
module Text {

  /** Python's `t in s` for strings. */
  predicate Contains(s: string, t: string) {
    exists i :: 0 <= i <= |s| && OccursAt(s, t, i)
  }

  predicate OccursAt(s: string, t: string, i: nat) {
    i + |t| <= |s| && s[i..i + |t|] == t
  }

  /** A text cannot contain a pattern whose first character it does not contain. */
  lemma NotContainsWithoutFirstChar(s: string, t: string)
    requires |t| > 0 && t[0] !in s
    ensures !Contains(s, t)
  {
    forall i | 0 <= i <= |s| && i + |t| <= |s|
      ensures !OccursAt(s, t, i)
    {
      assert s[i..i + |t|][0] == s[i];
    }
  }

  /** A text contains every piece it is built around. */
  lemma ContainsMiddle(a: string, t: string, b: string)
    ensures Contains(a + t + b, t)
  {
    assert (a + t + b)[|a|..|a| + |t|] == t;
    assert OccursAt(a + t + b, t, |a|);
  }

  /** A text that contains `u + t` contains `t`. */
  lemma ContainsTail(s: string, u: string, t: string)
    requires Contains(s, u + t)
    ensures Contains(s, t)
  {
    var i :| 0 <= i <= |s| && OccursAt(s, u + t, i);
    assert s[i + |u|..i + |u| + |t|] == (u + t)[|u|..];
    assert OccursAt(s, t, i + |u|);
  }

  function LowerChar(c: char): char {
    if 'A' <= c <= 'Z' then (c as int + 32) as char else c
  }

  /** `str.lower()`, restricted to ASCII letters. */
  function Lower(s: string): (r: string)
    ensures |r| == |s|
    ensures forall i :: 0 <= i < |s| ==> r[i] == LowerChar(s[i])
  {
    seq(|s|, i requires 0 <= i < |s| => LowerChar(s[i]))
  }

  /** `str.upper()`, restricted to ASCII letters. */
  function Upper(s: string): (r: string)
    ensures |r| == |s|
    ensures forall i :: 0 <= i < |s| ==> r[i] == if 'a' <= s[i] <= 'z' then (s[i] as int - 32) as char else s[i]
  {
    seq(|s|, i requires 0 <= i < |s| => if 'a' <= s[i] <= 'z' then (s[i] as int - 32) as char else s[i])
  }

  /** Lower-casing twice is lower-casing once. */
  lemma LowerIdempotent(s: string)
    ensures Lower(Lower(s)) == Lower(s)
  {
    forall i | 0 <= i < |s|
      ensures Lower(Lower(s))[i] == Lower(s)[i]
    {
      assert Lower(s)[i] == LowerChar(s[i]);
    }
  }

  /** Lower-casing works character by character, so it distributes over `+`. */
  lemma LowerConcat(a: string, b: string)
    ensures Lower(a + b) == Lower(a) + Lower(b)
  {
    assert forall i :: 0 <= i < |a| ==> (a + b)[i] == a[i];
    assert forall i :: |a| <= i < |a| + |b| ==> (a + b)[i] == b[i - |a|];
  }

  /** Upper-casing a word of lower-case letters and lower-casing it again gives the
      word back. */
  lemma LowerOfUpper(word: string)
    requires forall j :: 0 <= j < |word| ==> 'a' <= word[j] <= 'z'
    ensures Lower(Upper(word)) == word
  {
    forall j | 0 <= j < |word|
      ensures Lower(Upper(word))[j] == word[j]
    {
      assert Upper(word)[j] == (word[j] as int - 32) as char;
    }
  }

  /** `s.startswith(p)` */
  predicate StartsWith(s: string, p: string) {
    |p| <= |s| && s[..|p|] == p
  }

  /** `s.endswith(p)` */
  predicate EndsWith(s: string, p: string) {
    |p| <= |s| && s[|s| - |p|..] == p
  }

  /** A text built as head, middle, tail starts with the head and ends with the tail. */
  lemma Framed(head: string, middle: string, tail: string)
    ensures StartsWith(head + middle + tail, head)
    ensures EndsWith(head + middle + tail, tail)
  {
    var r := head + middle + tail;
    assert r[..|head|] == head;
    assert r[|r| - |tail|..] == tail;
  }

  /** The characters `\w` matches, restricted to ASCII. */
  predicate IsWordChar(c: char) {
    'a' <= c <= 'z' || 'A' <= c <= 'Z' || '0' <= c <= '9' || c == '_'
  }

  /** `s[:n]` */
  function Take(s: string, n: nat): (r: string)
    ensures r <= s && |r| == (if n <= |s| then n else |s|)
  {
    if n <= |s| then s[..n] else s
  }

  /** `s.ljust(width, fill)` */
  function Ljust(s: string, width: nat, fill: char): (r: string)
    ensures |r| == if |s| >= width then |s| else width
    ensures s <= r
  {
    if |s| >= width then s else s + seq(width - |s|, _ => fill)
  }

  /** `sep.join(parts)` */
  function Join(sep: string, parts: seq<string>): string {
    if |parts| == 0 then ""
    else if |parts| == 1 then parts[0]
    else parts[0] + sep + Join(sep, parts[1..])
  }

  /** `s.split(sep)` for a one-character separator: never empty, "" gives [""]. */
  function Split(s: string, sep: char): (parts: seq<string>)
    ensures |parts| >= 1
    decreases |s|
  {
    if |s| == 0 then [""]
    else
      var rest := Split(s[1..], sep);
      if s[0] == sep then [""] + rest else [[s[0]] + rest[0]] + rest[1..]
  }

  function DigitChar(d: nat): char
    requires d < 10
  {
    ('0' as int + d) as char
  }

  /** `str(n)` for a non-negative integer. */
  function NatToString(n: nat): (r: string)
    ensures |r| >= 1
    decreases n
  {
    if n < 10 then [DigitChar(n)] else NatToString(n / 10) + [DigitChar(n % 10)]
  }

  /** `str(i)` for an integer. */
  function IntToString(i: int): string {
    if i < 0 then "-" + NatToString(-i) else NatToString(i)
  }

  /** `%02d`, as `strftime` prints hours and minutes. */
  function TwoDigits(n: nat): string {
    if n < 10 then "0" + NatToString(n) else NatToString(n)
  }

  /** `int(x)` for a number: truncation toward zero. */
  function Trunc(x: real): (r: int)
    ensures x >= 0.0 ==> r == x.Floor
    ensures x < 0.0 ==> r == -((-x).Floor)
  {
    if x >= 0.0 then x.Floor else -((-x).Floor)
  }

  function Pow10(k: nat): (r: nat)
    ensures r >= 1
  {
    if k == 0 then 1 else 10 * Pow10(k - 1)
  }

  /** Rounding to the nearest integer, ties to the even neighbour. */
  function RoundHalfEven(x: real): int {
    var f := x.Floor;
    var frac := x - f as real;
    if frac > 0.5 then f + 1
    else if frac < 0.5 then f
    else if f % 2 == 0 then f else f + 1
  }

  /** The last `k` decimal digits of `units`, leading zeros included. */
  function LastDigits(units: nat, k: nat): (r: string)
    ensures |r| == k
  {
    if k == 0 then "" else LastDigits(units / 10, k - 1) + [DigitChar(units % 10)]
  }

  /** `units / 10^k`: the digits left once the last `k` are dropped. */
  function DropDigits(units: nat, k: nat): nat {
    if k == 0 then units else DropDigits(units / 10, k - 1)
  }

  /** `x` rounded to `k >= 1` decimal places and printed, with a sign when `x` is negative. */
  function FixedPoint(x: real, k: nat): string
    requires k >= 1
  {
    var magnitude := if x < 0.0 then -x else x;
    var n := RoundHalfEven(magnitude * Pow10(k) as real);
    var units: nat := if n < 0 then 0 else n;
    (if x < 0.0 then "-" else "") + NatToString(DropDigits(units, k)) + "." + LastDigits(units, k)
  }

  /** The `:.1f` format. */
  function FormatTenths(x: real): string {
    FixedPoint(x, 1)
  }

  function DecimalPlaces(x: real, k: nat): (r: nat)
    requires k >= 1
    ensures r >= 1
    decreases 17 - k
  {
    var scaled := x * Pow10(k) as real;
    if k >= 17 || scaled == scaled.Floor as real then k else DecimalPlaces(x, k + 1)
  }

  /** `str()` of a float in fixed-point form: the shortest decimal with at least
      one decimal place. The exponent form `str()` uses below 1e-4 and from 1e16
      is not rendered. */
  function FloatText(x: real): string {
    FixedPoint(x, DecimalPlaces(x, 1))
  }
}
