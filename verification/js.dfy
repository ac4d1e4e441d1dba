/** The small slice of JavaScript value semantics the lead server relies on:
    `undefined`/`null`/string values read from a parsed request body or from
    the process environment, truthiness (`!x`), the `x || y` default idiom,
    template-literal interpolation, `String.prototype.includes`, and the
    completion of a call that may throw.
 */
module Wrappers {

  datatype Option<+T> = None | Some(value: T)
}

module Js {

  /** A value read from a JSON request body or from `process.env`.
      Non-string JSON values are not part of this model. */
  datatype Value = Undefined | Null | Str(s: string)

  /** JavaScript truthiness restricted to `Value`: only a non-empty string is truthy. */
  predicate Truthy(v: Value) {
    v.Str? && v.s != ""
  }

  /** `a || b`: the first operand when it is truthy, the second otherwise. */
  function Or(a: Value, b: Value): Value {
    if Truthy(a) then a else b
  }

  /** `v || 'fallback'` where the fallback is a string literal. */
  function OrElse(v: Value, fallback: string): string {
    Or(v, Str(fallback)).s
  }

  /** `v || ''`: the normalisation applied to every optional field. */
  function OrEmpty(v: Value): string {
    OrElse(v, "")
  }

  /** What `${v}` produces inside a template literal. */
  function Interpolate(v: Value): string {
    match v
    case Undefined => "undefined"
    case Null => "null"
    case Str(s) => s
  }

  /** The outcome of evaluating something that may throw: a normal return, or an
      exception whose `message` is recorded. */
  datatype Completion<+T> = Returned(value: T) | Threw(message: string)

  /** `s.includes(sub)`. */
  predicate Contains(s: string, sub: string)
    decreases |s|
  {
    sub <= s || (|s| > 0 && Contains(s[1..], sub))
  }

  /** `Contains` agrees with the positional definition: `sub` occurs at some index of `s`. */
  lemma {:induction false} ContainsAt(s: string, sub: string)
    ensures Contains(s, sub) <==> exists i :: 0 <= i <= |s| && sub <= s[i..]
    decreases |s|
  {
    if sub <= s {
      assert sub <= s[0..];
    } else if |s| == 0 {
      forall i | 0 <= i <= |s|
        ensures !(sub <= s[i..])
      {
        assert s[i..] == s;
      }
    } else {
      ContainsAt(s[1..], sub);
      if Contains(s[1..], sub) {
        var j :| 0 <= j <= |s[1..]| && sub <= s[1..][j..];
        assert s[1..][j..] == s[j + 1..];
      } else {
        forall i | 0 <= i <= |s|
          ensures !(sub <= s[i..])
        {
          if i > 0 {
            assert s[1..][i - 1..] == s[i..];
          }
        }
      }
    }
  }

  /** Whatever sits between a prefix and a suffix is contained in the whole. */
  lemma ContainsInfix(pre: string, mid: string, post: string)
    ensures Contains(pre + mid + post, mid)
  {
    var s := pre + mid + post;
    assert mid <= s[|pre|..];
    ContainsAt(s, mid);
  }
}

/** Decimal rendering of a non-negative integer, as `${n}` does for the integral
    millisecond values `Date.now()` returns, together with its inverse. */
module Decimal {

  predicate IsDigit(c: char) {
    '0' <= c <= '9'
  }

  predicate IsDigits(s: string) {
    forall i :: 0 <= i < |s| ==> IsDigit(s[i])
  }

  function DigitChar(d: nat): (c: char)
    requires d < 10
    ensures IsDigit(c)
  {
    ('0' as int + d) as char
  }

  function DigitValue(c: char): (d: nat)
    requires IsDigit(c)
    ensures d < 10
  {
    c as int - '0' as int
  }

  /** The shortest decimal rendering of `n`: non-empty, all digits, no leading zero. */
  function DecimalString(n: nat): (s: string)
    ensures |s| >= 1 && IsDigits(s)
    ensures s[0] == '0' ==> n == 0
    decreases n
  {
    if n < 10 then [DigitChar(n)] else DecimalString(n / 10) + [DigitChar(n % 10)]
  }

  /** Reads a string of digits back as a number. */
  function DecimalValue(s: string): nat
    requires IsDigits(s)
  {
    if |s| == 0 then 0 else DecimalValue(s[..|s| - 1]) * 10 + DigitValue(s[|s| - 1])
  }

  lemma {:induction false} DecimalRoundTrip(n: nat)
    ensures DecimalValue(DecimalString(n)) == n
    decreases n
  {
    if n >= 10 {
      var s := DecimalString(n);
      assert s[..|s| - 1] == DecimalString(n / 10);
      DecimalRoundTrip(n / 10);
    }
  }

  /** Distinct numbers never share a rendering. */
  lemma DecimalStringInjective(a: nat, b: nat)
    ensures DecimalString(a) == DecimalString(b) <==> a == b
  {
    DecimalRoundTrip(a);
    DecimalRoundTrip(b);
  }
}
