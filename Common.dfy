/** Shared value types and the small pieces of Python string behaviour the model needs:
    truthiness of optional text, `str.replace`, `str.lower` on ASCII, the `in` test on
    strings, `str(int)`, the `:.1f` format and `json.dumps` of a list of strings. */
module Common {

  datatype Option<+T> = None | Some(value: T)

  /** Python truthiness of a nullable string column: None and "" are false. */
  predicate Truthy(s: Option<string>)
  {
    s.Some? && s.value != ""
  }

  function Min(a: int, b: int): int
  {
    if a < b then a else b
  }

  function Abs(x: real): real
  {
    if x < 0.0 then -x else x
  }

  /** Python's `s[-k:]`: the last k elements, or all of s when it is shorter. */
  function LastN<T>(s: seq<T>, k: nat): seq<T>
  {
    s[|s| - Min(k, |s|)..]
  }

  /** The elements of s in the opposite order. */
  function Reverse<T>(s: seq<T>): (r: seq<T>)
    ensures |r| == |s|
  {
    seq(|s|, i requires 0 <= i < |s| => s[|s| - 1 - i])
  }

  /** `s.replace(a, b)` for one-character a and b. */
  function Replace(s: string, a: char, b: char): string
  {
    seq(|s|, i requires 0 <= i < |s| => if s[i] == a then b else s[i])
  }

  /** `s.lower()`, on ASCII letters. */
  function Lower(s: string): string
  {
    seq(|s|, i requires 0 <= i < |s| => if 'A' <= s[i] <= 'Z' then (s[i] as int + 32) as char else s[i])
  }

  predicate StartsWith(s: string, t: string)
  {
    |t| <= |s| && s[..|t|] == t
  }

  predicate EndsWith(s: string, t: string)
  {
    |t| <= |s| && s[|s| - |t|..] == t
  }

  /** Python's `t in s` for strings: t occurs as a contiguous block of s. */
  predicate Contains(s: string, t: string)
    decreases |s|
  {
    StartsWith(s, t) || (|s| > 0 && Contains(s[1..], t))
  }

  /** A character of the pattern that the text lacks rules the pattern out. */
  lemma {:induction false} NotContainsMissingChar(s: string, t: string, c: char)
    requires c in t && c !in s
    ensures !Contains(s, t)
    decreases |s|
  {
    if |s| > 0 {
      NotContainsMissingChar(s[1..], t, c);
    }
  }

  /** A pattern written into the text is found there. */
  lemma {:induction false} ContainsInfix(a: string, t: string, b: string)
    ensures Contains(a + t + b, t)
    decreases |a|
  {
    if a == [] {
      assert (a + t + b)[..|t|] == t;
    } else {
      assert (a + t + b)[1..] == a[1..] + t + b;
      ContainsInfix(a[1..], t, b);
    }
  }

  function Digit(d: nat): char
    requires d < 10
  {
    "0123456789"[d]
  }

  predicate IsDigit(c: char)
  {
    '0' <= c <= '9'
  }

  /** `str(n)` for a natural number. */
  function NatText(n: nat): (r: string)
    ensures |r| >= 1 && forall i :: 0 <= i < |r| ==> IsDigit(r[i])
  {
    if n < 10 then [Digit(n)] else NatText(n / 10) + [Digit(n % 10)]
  }

  /** `str(i)` for an integer. */
  function IntText(i: int): string
  {
    if i < 0 then "-" + NatText(-i) else NatText(i)
  }

  /** Rounds a non-negative real to the nearest integer, ties to the even one,
      as the `:.1f` format does on an exact tie. */
  function RoundHalfEven(y: real): (n: nat)
    requires y >= 0.0
    ensures -0.5 <= n as real - y <= 0.5
  {
    var f := y.Floor;
    var frac := y - f as real;
    if frac > 0.5 then f + 1
    else if frac < 0.5 then f
    else if f % 2 == 0 then f else f + 1
  }

  /** `f"{x:.1f}"`: sign, integer part, a point and one rounded decimal. */
  function Fixed1(x: real): (r: string)
    ensures forall i :: 0 <= i < |r| ==> IsDigit(r[i]) || r[i] == '.' || r[i] == '-'
  {
    var m := RoundHalfEven(Abs(x) * 10.0);
    (if x < 0.0 then "-" else "") + NatText(m / 10) + "." + [Digit(m % 10)]
  }

  /** `json.dumps` of a list of plain identifiers: `["a", "b"]`. */
  function JsonList(items: seq<string>): string
  {
    "[" + JsonItems(items) + "]"
  }

  function JsonItems(items: seq<string>): string
  {
    if items == [] then ""
    else if |items| == 1 then "\"" + items[0] + "\""
    else "\"" + items[0] + "\", " + JsonItems(items[1..])
  }
}
