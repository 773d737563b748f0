/**
 * The few pieces of JavaScript semantics the complaint handlers rely on:
 * values of a parsed JSON request body and their truthiness, `a || b` on an
 * optional string, `Number.prototype.toString` on a non-negative integer, and
 * `String.prototype.split(" ")`.
 */
module Js {

  datatype Option<+T> = None | Some(value: T)

  /** A value of a parsed JSON body; `Undefined` is a key the body does not have. */
  datatype Json = Undefined | Null | Bool(b: bool) | Num(n: real) | Str(s: string) | Composite

  /** `!!v`: JSON has no NaN, so a number is falsy exactly when it is zero. */
  predicate Truthy(v: Json)
    ensures Truthy(v) <==> v !in {Undefined, Null, Bool(false), Num(0.0), Str("")}
  {
    match v
    case Undefined => false
    case Null => false
    case Bool(b) => b
    case Num(n) => n != 0.0
    case Str(s) => s != ""
    case Composite => true
  }

  /**
   * `!v` for a field that holds a string when present; `None` stands for both
   * `undefined` and `null`.
   */
  predicate Missing(v: Option<string>)
    ensures !Missing(v) <==> v.Some? && |v.value| > 0
  {
    v == None || v == Some("")
  }

  /** `v || d` for such a field. */
  function OrElse(v: Option<string>, d: string): (r: string)
    ensures Missing(v) ==> r == d
    ensures !Missing(v) ==> r == v.value && r != ""
  {
    if Missing(v) then d else v.value
  }

  // ---------- decimal digits ----------

  predicate IsDigit(c: char)
  {
    '0' <= c <= '9'
  }

  function DigitChar(d: nat): (c: char)
    requires d < 10
    ensures IsDigit(c) && DigitValue(c) == d
  {
    ('0' as int + d) as char
  }

  function DigitValue(c: char): int
  {
    c as int - '0' as int
  }

  function Pow10(k: nat): nat
  {
    if k == 0 then 1 else 10 * Pow10(k - 1)
  }

  /** `n.toString()` for an integral, non-negative `n`: no sign, no leading zero. */
  function NumberToString(n: nat): (s: string)
    ensures |s| >= 1
    ensures forall i :: 0 <= i < |s| ==> IsDigit(s[i])
    ensures s[0] == '0' <==> n == 0
    decreases n
  {
    if n < 10 then [DigitChar(n)] else NumberToString(n / 10) + [DigitChar(n % 10)]
  }

  /** The value of a string of decimal digits, most significant first. */
  function DecimalValue(s: string): int
  {
    if s == [] then 0 else 10 * DecimalValue(s[..|s| - 1]) + DigitValue(s[|s| - 1])
  }

  lemma {:induction false} DecimalValueOfNumberToString(n: nat)
    ensures DecimalValue(NumberToString(n)) == n
    decreases n
  {
    var s := NumberToString(n);
    if n >= 10 {
      DecimalValueOfNumberToString(n / 10);
      assert s[..|s| - 1] == NumberToString(n / 10);
    }
  }

  /** A number with k + 1 digits prints as exactly k + 1 characters. */
  lemma {:induction false} NumberToStringLength(n: nat, k: nat)
    requires Pow10(k) <= n < Pow10(k + 1)
    ensures |NumberToString(n)| == k + 1
    decreases n
  {
    if k == 0 {
      assert n < 10;
    } else {
      NumberToStringLength(n / 10, k - 1);
    }
  }

  // ---------- split(" ") ----------

  /** `parts.join(" ")` */
  function JoinWithSpace(parts: seq<string>): string
    requires |parts| >= 1
  {
    if |parts| == 1 then parts[0] else parts[0] + " " + JoinWithSpace(parts[1..])
  }

  /**
   * `s.split(" ")`: the pieces between single spaces, first to last, so that
   * joining them with a space gives `s` back; a string without a space is one
   * piece (the empty string included).
   */
  function SplitOnSpace(s: string): (parts: seq<string>)
    ensures |parts| >= 1
    ensures forall i :: 0 <= i < |parts| ==> ' ' !in parts[i]
    ensures JoinWithSpace(parts) == s
    ensures |parts| == 1 <==> ' ' !in s
    decreases |s|
  {
    if s == [] then [""]
    else
      var rest := SplitOnSpace(s[1..]);
      assert s == [s[0]] + s[1..];
      if s[0] == ' ' then
        var parts := [""] + rest;
        assert parts[1..] == rest;
        parts
      else
        var parts := [[s[0]] + rest[0]] + rest[1..];
        assert |rest| > 1 ==>
          parts[1..] == rest[1..] && JoinWithSpace(rest) == rest[0] + " " + JoinWithSpace(rest[1..]);
        parts
  }

  /** Splitting a space-free prefix followed by a space peels that prefix off. */
  lemma {:induction false} SplitAfterWord(a: string, b: string)
    requires ' ' !in a
    ensures SplitOnSpace(a + " " + b) == [a] + SplitOnSpace(b)
    decreases |a|
  {
    if a == [] {
      assert a + " " + b == [' '] + b;
      assert (a + " " + b)[1..] == b;
    } else {
      var s := a + " " + b;
      assert s[1..] == a[1..] + " " + b;
      SplitAfterWord(a[1..], b);
      assert [a[0]] + a[1..] == a;
    }
  }

  /** A space-free string is its own single piece. */
  lemma SplitWord(a: string)
    requires ' ' !in a
    ensures SplitOnSpace(a) == [a]
  {
  }
}
