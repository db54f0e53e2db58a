/**
 * The handful of Python built-ins whose behaviour the monitor script relies on:
 * exceptions as values, the length of `range(n)`, `str.rstrip()` and `str(int)`.
 */
module PyBuiltins {

  datatype Option<+T> = None | Some(value: T)

  /** A value, or the exception that Python would raise instead. */
  datatype Result<+T, +E> = Ok(value: T) | Err(error: E) {
    predicate IsFailure() {
      Err?
    }

    function PropagateFailure<U>(): Result<U, E>
      requires Err?
    {
      Err(error)
    }

    function Extract(): T
      requires Ok?
    {
      value
    }
  }

  /** The exceptions the core can raise; none of them is caught anywhere. */
  datatype Exception =
    | IndexError(index: nat)      // stdout[i] with i past the last line
    | ValueError(text: string)    // float() refused the text of a line
    | ZeroDivisionError           // max_time / wait_time with wait_time == 0.0
    | SleepLengthError(seconds: real)  // time.sleep(s) with s < 0.0 (a ValueError in Python 3)

  /** `range(n)`: the integers 0, 1, …, n-1 in increasing order, none when n is not positive. */
  function Range(n: int): (r: seq<int>)
    ensures |r| == LenRange(n)
    ensures forall k :: 0 <= k < |r| ==> r[k] == k
    ensures forall i :: i in r <==> 0 <= i < n
    decreases n
  {
    if n <= 0 then [] else Range(n - 1) + [n - 1]
  }

  /** The number of values `range(n)` produces (see `Range`). */
  function LenRange(n: int): nat
  {
    if n > 0 then n else 0
  }

  /** The characters for which Python's `str.isspace()` holds. */
  predicate IsSpace(c: char) {
    ('\t' <= c <= '\r') || ('\U{1c}' <= c <= ' ') || c == '\U{85}' || c == '\U{a0}'
    || c == '\U{1680}' || ('\U{2000}' <= c <= '\U{200a}') || c == '\U{2028}' || c == '\U{2029}'
    || c == '\U{202f}' || c == '\U{205f}' || c == '\U{3000}'
  }

  /**
   * `s.rstrip()`: the longest prefix of `s` whose removed suffix is all
   * whitespace and that does not itself end in whitespace.
   */
  function RStrip(s: string): (r: string)
    ensures r <= s
    ensures |r| == 0 || !IsSpace(r[|r| - 1])
    ensures forall i :: |r| <= i < |s| ==> IsSpace(s[i])
    decreases |s|
  {
    if |s| > 0 && IsSpace(s[|s| - 1]) then RStrip(s[..|s| - 1]) else s
  }

  predicate IsDigits(s: string) {
    forall i :: 0 <= i < |s| ==> '0' <= s[i] <= '9'
  }

  function DigitChar(d: nat): (c: char)
    requires d < 10
  {
    ('0' as int + d) as char
  }

  /** `str(n)` for a non-negative integer: its canonical decimal numeral. */
  function Decimal(n: nat): (s: string)
    ensures |s| > 0 && IsDigits(s)
    ensures s[0] == '0' <==> n == 0
    decreases n
  {
    if n < 10 then [DigitChar(n)] else Decimal(n / 10) + [DigitChar(n % 10)]
  }

  /** The number a string of decimal digits denotes. */
  function DecimalValue(s: string): nat
    requires IsDigits(s)
    decreases |s|
  {
    if |s| == 0 then 0 else 10 * DecimalValue(s[..|s| - 1]) + (s[|s| - 1] as int - '0' as int)
  }

  /** Reading back the numeral `str(n)` gives `n`. */
  lemma {:induction false} DecimalRoundTrip(n: nat)
    ensures DecimalValue(Decimal(n)) == n
  {
    if n >= 10 {
      var s := Decimal(n);
      assert s[..|s| - 1] == Decimal(n / 10);
      DecimalRoundTrip(n / 10);
    }
  }

  /** Different numbers have different numerals. */
  lemma DecimalInjective(m: nat, n: nat)
    ensures Decimal(m) == Decimal(n) ==> m == n
  {
    DecimalRoundTrip(m);
    DecimalRoundTrip(n);
  }
}
