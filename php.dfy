// The small part of PHP's semantics that the Instagram service relies on:
// truthiness of nullable strings, integer-to-string conversion in `implode`,
// `array_reverse` and the first chunk of `array_chunk`.
module Php {

  datatype Option<T> = None | Some(value: T)

  /** PHP_INT_MAX on a 64-bit build. */
  const PHP_INT_MAX: nat := 0x7FFF_FFFF_FFFF_FFFF

  /** A PHP string is falsy exactly when it is "" or "0". */
  predicate TruthyString(s: string) {
    s != "" && s != "0"
  }

  /** A nullable string (null is None) in a boolean context. */
  predicate Truthy(v: Option<string>) {
    v.Some? && TruthyString(v.value)
  }

  predicate IsDigit(c: char) {
    '0' <= c <= '9'
  }

  predicate AllDigits(s: string) {
    forall i :: 0 <= i < |s| ==> IsDigit(s[i])
  }

  /** The decimal text PHP produces when it converts a non-negative int to a string. */
  function DecimalString(n: nat): (s: string)
    ensures |s| >= 1 && AllDigits(s)
  {
    var d := ('0' as int + n % 10) as char;
    if n < 10 then [d] else DecimalString(n / 10) + [d]
  }

  /** The value of a string of decimal digits. */
  function DecimalValue(s: string): nat
    requires AllDigits(s)
  {
    if s == [] then 0 else DecimalValue(s[..|s| - 1]) * 10 + (s[|s| - 1] as int - '0' as int)
  }

  lemma {:induction false} DecimalRoundTrip(n: nat)
    ensures DecimalValue(DecimalString(n)) == n
  {
    var s := DecimalString(n);
    assert s[..|s| - 1] == if n < 10 then [] else DecimalString(n / 10);
    if n >= 10 {
      DecimalRoundTrip(n / 10);
    }
  }

  lemma DecimalStringInjective(m: nat, n: nat)
    requires DecimalString(m) == DecimalString(n)
    ensures m == n
  {
    DecimalRoundTrip(m);
    DecimalRoundTrip(n);
  }

  /** array_reverse */
  function Reverse<T>(s: seq<T>): seq<T> {
    if s == [] then [] else Reverse(s[1..]) + [s[0]]
  }

  lemma {:induction false} ReverseAt<T>(s: seq<T>, k: nat)
    requires k < |s|
    ensures |Reverse(s)| == |s| && Reverse(s)[k] == s[|s| - 1 - k]
  {
    ReverseLength(s[1..]);
    if k < |s| - 1 {
      ReverseAt(s[1..], k);
    }
  }

  lemma {:induction false} ReverseLength<T>(s: seq<T>)
    ensures |Reverse(s)| == |s|
  {
    if s != [] {
      ReverseLength(s[1..]);
    }
  }

  function Min(a: nat, b: nat): nat {
    if a < b then a else b
  }

  /**
   * `array_chunk($s, $size)[0]`: the first chunk of size `size`, or null
   * (None) when `s` is empty, since array_chunk then returns an empty array.
   */
  function FirstChunk<T>(s: seq<T>, size: nat): Option<seq<T>>
    requires size >= 1
  {
    if s == [] then None else Some(s[..Min(size, |s|)])
  }
}
