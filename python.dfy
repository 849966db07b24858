/** The pieces of Python's runtime that the analyzers lean on: the exceptions
    they can raise, indexing and slicing of strings and lists, `str.strip()`
    and `int()` applied to a string. */
module Python {

  /** An exception the analyzers can raise on malformed input. */
  datatype Fault = IndexError | KeyError | ValueError

  datatype Option<T> = None | Some(value: T)

  /** A value, or the exception raised while computing it. */
  datatype Result<T> = Ok(value: T) | Fail(fault: Fault) {
    predicate IsFailure() { Fail? }
    function PropagateFailure<U>(): Result<U> requires Fail? { Fail(fault) }
    function Extract(): T requires Ok? { value }
  }

  /** The state left behind by a statement that changes state, and the
      exception it raised, if any. A statement may change part of the state
      before it raises. */
  datatype Outcome<S> = Outcome(state: S, fault: Option<Fault>)

  function Done<S>(s: S): Outcome<S> { Outcome(s, None) }

  function Halt<S>(s: S, f: Fault): Outcome<S> { Outcome(s, Some(f)) }

  /** `s[k]` for a non-negative index: IndexError past the end. */
  function At<T>(s: seq<T>, k: nat): (r: Result<T>)
    ensures r.Ok? <==> k < |s|
    ensures r.Ok? ==> r.value == s[k]
    ensures r.Fail? ==> r.fault == IndexError
  {
    if k < |s| then Ok(s[k]) else Fail(IndexError)
  }

  /** `entry[k]` on a string: a string of one character. */
  function CharAt(entry: string, k: nat): (r: Result<string>)
    ensures r.Ok? <==> k < |entry|
    ensures r.Ok? ==> r.value == [entry[k]]
    ensures r.Fail? ==> r.fault == IndexError
  {
    if k < |entry| then Ok([entry[k]]) else Fail(IndexError)
  }

  function Min(a: nat, b: nat): nat { if a <= b then a else b }

  /** `s[i:j]` with 0 <= i <= j: slicing clamps both bounds to the length and
      never raises. */
  function Slice<T>(s: seq<T>, i: nat, j: nat): (r: seq<T>)
    requires i <= j
    ensures |r| == Min(j, |s|) - Min(i, |s|)
    ensures j <= |s| ==> r == s[i..j]
    ensures i <= |s| <= j ==> r == s[i..]
    ensures |s| <= i ==> r == []
  {
    s[Min(i, |s|)..Min(j, |s|)]
  }

  /** `c.isspace()` for a single character, as Python defines whitespace. */
  predicate IsSpace(c: char) {
    var n := c as int;
    || 9 <= n <= 13
    || 28 <= n <= 32
    || n == 0x85 || n == 0xA0 || n == 0x1680
    || 0x2000 <= n <= 0x200A
    || n == 0x2028 || n == 0x2029 || n == 0x202F || n == 0x205F || n == 0x3000
  }

  /** Neither end of `s` is whitespace. */
  predicate Trimmed(s: string) {
    s == [] || (!IsSpace(s[0]) && !IsSpace(s[|s| - 1]))
  }

  /** `s.lstrip()`: drops the leading whitespace and nothing else. */
  function TrimLeft(s: string): (r: string)
    ensures |r| <= |s| && r == s[|s| - |r|..]
    ensures forall k :: 0 <= k < |s| - |r| ==> IsSpace(s[k])
    ensures r == [] || !IsSpace(r[0])
  {
    if s != [] && IsSpace(s[0]) then TrimLeft(s[1..]) else s
  }

  /** `s.rstrip()`: drops the trailing whitespace and nothing else. */
  function TrimRight(s: string): (r: string)
    ensures |r| <= |s| && r == s[..|r|]
    ensures forall k :: |r| <= k < |s| ==> IsSpace(s[k])
    ensures r == [] || !IsSpace(r[|r| - 1])
  {
    if s != [] && IsSpace(s[|s| - 1]) then TrimRight(s[..|s| - 1]) else s
  }

  /** `s.strip()`: the result is the infix of `s` left once the whitespace at
      both ends is gone. */
  function Strip(s: string): (r: string)
    ensures Trimmed(r)
    ensures var i := |s| - |TrimLeft(s)|;
            && i + |r| <= |s| && r == s[i..i + |r|]
            && (forall k :: 0 <= k < i ==> IsSpace(s[k]))
            && (forall k :: i + |r| <= k < |s| ==> IsSpace(s[k]))
  {
    TrimRight(TrimLeft(s))
  }

  /** A string whose ends are not whitespace survives `strip()` unchanged. */
  lemma StripTrimmed(s: string)
    requires Trimmed(s)
    ensures Strip(s) == s
  {
  }

  /** `n` spaces. */
  function Spaces(n: nat): (r: string)
    ensures |r| == n && forall k :: 0 <= k < n ==> r[k] == ' '
  {
    seq(n, _ => ' ')
  }

  /** A field right-padded with spaces to `width`, as fixed-width records
      store symbols. */
  function PadRight(s: string, width: nat): (r: string)
    requires |s| <= width
    ensures |r| == width && r[..|s|] == s
  {
    s + Spaces(width - |s|)
  }

  /** Stripping a padded field gives back the field, provided the field itself
      has no whitespace at its ends. */
  lemma {:induction false} StripPadRight(s: string, width: nat)
    requires |s| <= width && Trimmed(s)
    ensures Strip(PadRight(s, width)) == s
  {
    var p := PadRight(s, width);
    if s == [] {
      assert forall k :: 0 <= k < |p| ==> IsSpace(p[k]);
    } else {
      assert !IsSpace(p[0]);
      assert TrimLeft(p) == p;
      assert !IsSpace(p[|s| - 1]) && p[..|s|] == s;
      assert forall k :: |s| <= k < |p| ==> IsSpace(p[k]);
    }
  }

  predicate IsDigit(c: char) { '0' <= c <= '9' }

  predicate AllDigits(s: string) {
    forall k :: 0 <= k < |s| ==> IsDigit(s[k])
  }

  /** The number a string of decimal digits denotes, leading zeros allowed. */
  function DigitsValue(s: string): nat
    requires AllDigits(s)
  {
    if s == [] then 0
    else DigitsValue(s[..|s| - 1]) * 10 + (s[|s| - 1] as int - '0' as int)
  }

  /** `int(s)` for a string: the value of a non-empty run of ASCII digits,
      or None where Python raises ValueError. */
  function ParseInt(s: string): (r: Option<nat>)
    ensures r.Some? <==> |s| > 0 && AllDigits(s)
  {
    if |s| > 0 && AllDigits(s) then Some(DigitsValue(s)) else None
  }

  function Pow10(n: nat): (r: nat)
    ensures r >= 1
  {
    if n == 0 then 1 else 10 * Pow10(n - 1)
  }

  /** `n` written as exactly `width` decimal digits, zero-padded on the left,
      keeping only the low `width` digits. */
  function Digits(n: nat, width: nat): (r: string)
    ensures |r| == width && AllDigits(r)
  {
    if width == 0 then []
    else Digits(n / 10, width - 1) + [('0' as int + n % 10) as char]
  }

  /** Zero-padded digits read back as the number they were written from. */
  lemma {:induction false} DigitsValueOfDigits(n: nat, width: nat)
    requires n < Pow10(width)
    ensures DigitsValue(Digits(n, width)) == n
  {
    if width > 0 {
      var d := Digits(n, width);
      assert d[..|d| - 1] == Digits(n / 10, width - 1);
      DigitsValueOfDigits(n / 10, width - 1);
    }
  }

  /** `int()` of a zero-padded numeric field returns the number written. */
  lemma ParseIntOfDigits(n: nat, width: nat)
    requires 0 < width && n < Pow10(width)
    ensures ParseInt(Digits(n, width)) == Some(n)
  {
    DigitsValueOfDigits(n, width);
  }
}
