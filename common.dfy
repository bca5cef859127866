/** Values shared by every part of the collector model: optional and
    fallible results, Python values as far as the collector inspects them,
    and decimal digit strings (Python's `str(int)` and zero-padded fields). */
module Common {

  datatype Option<+T> = None | Some(value: T)

  datatype Result<+T, +E> = Ok(value: T) | Err(error: E)

  /** A Python value as far as the collector looks at it: the `isinstance(_, int)`
      test, truthiness, `str(_)` and the name of its type. `bool` is a subclass
      of `int` in Python, so `PyBool` passes an `int` check. Any other object is
      `PyOther`, carrying its type name, its `str` and its truthiness. */
  datatype PyValue =
    | PyInt(i: int)
    | PyBool(b: bool)
    | PyStr(s: string)
    | PyNone
    | PyOther(typeName: string, text: string, truthy: bool)

  /** `bool(v)` in Python. */
  predicate PyTruthy(v: PyValue) {
    match v
    case PyInt(i) => i != 0
    case PyBool(b) => b
    case PyStr(s) => s != ""
    case PyNone => false
    case PyOther(_, _, t) => t
  }

  /** `isinstance(v, int)`: true for ints and for bools. */
  predicate IsPyInt(v: PyValue) {
    v.PyInt? || v.PyBool?
  }

  /** The integer an int-like value stands for (`True == 1`). */
  function PyIntValue(v: PyValue): int
    requires IsPyInt(v)
  {
    if v.PyInt? then v.i else if v.b then 1 else 0
  }

  /** `type(v).__name__` */
  function PyTypeName(v: PyValue): string {
    match v
    case PyInt(_) => "int"
    case PyBool(_) => "bool"
    case PyStr(_) => "str"
    case PyNone => "NoneType"
    case PyOther(n, _, _) => n
  }

  /** `str(v)` */
  function PyStrOf(v: PyValue): string {
    match v
    case PyInt(i) => IntToString(i)
    case PyBool(b) => if b then "True" else "False"
    case PyStr(s) => s
    case PyNone => "None"
    case PyOther(_, t, _) => t
  }

  /** Truthiness of an optional string parameter (`None` and `""` are falsy). */
  predicate TruthyText(t: Option<string>) {
    t.Some? && t.value != ""
  }

  /** Truthiness of an optional integer parameter (`None` and `0` are falsy). */
  predicate TruthyInt(t: Option<int>) {
    t.Some? && t.value != 0
  }

  // ---------------------------------------------------------------------
  // Decimal digits

  predicate IsDigit(c: char) {
    '0' <= c <= '9'
  }

  predicate AllDigits(s: string) {
    forall i :: 0 <= i < |s| ==> IsDigit(s[i])
  }

  function DigitValue(c: char): nat
    requires IsDigit(c)
  {
    c as int - '0' as int
  }

  function DigitChar(d: nat): (c: char)
    requires d < 10
    ensures IsDigit(c) && DigitValue(c) == d
  {
    ('0' as int + d) as char
  }

  /** The value of a string of decimal digits, most significant digit first. */
  function DigitsValue(s: string): nat
    requires AllDigits(s)
  {
    if s == [] then 0 else DigitsValue(s[..|s| - 1]) * 10 + DigitValue(s[|s| - 1])
  }

  function Pow10(n: nat): (p: nat)
    ensures p >= 1
  {
    if n == 0 then 1 else 10 * Pow10(n - 1)
  }

  /** `x` written with exactly `width` digits, zero-padded on the left
      (the `%02d`-style fields of `strftime`). */
  function Pad(x: nat, width: nat): (s: string)
    requires x < Pow10(width)
    ensures |s| == width && AllDigits(s)
  {
    if width == 0 then "" else Pad(x / 10, width - 1) + [DigitChar(x % 10)]
  }

  /** Reading a padded field back gives the number that was written. */
  lemma {:induction false} PadRoundTrip(x: nat, width: nat)
    requires x < Pow10(width)
    ensures DigitsValue(Pad(x, width)) == x
  {
    if width > 0 {
      var s := Pad(x, width);
      PadRoundTrip(x / 10, width - 1);
      assert s[..|s| - 1] == Pad(x / 10, width - 1);
    }
  }

  /** Any digit string of length `width` is below `10^width`. */
  lemma {:induction false} DigitsValueBound(s: string)
    requires AllDigits(s)
    ensures DigitsValue(s) < Pow10(|s|)
  {
    if s != [] {
      DigitsValueBound(s[..|s| - 1]);
    }
  }

  /** Writing back a digit string at its own width reproduces it. */
  lemma {:induction false} DigitsPadRoundTrip(s: string)
    requires AllDigits(s)
    ensures DigitsValue(s) < Pow10(|s|) && Pad(DigitsValue(s), |s|) == s
  {
    DigitsValueBound(s);
    if s != [] {
      var init := s[..|s| - 1];
      DigitsPadRoundTrip(init);
      var v := DigitsValue(s);
      assert v / 10 == DigitsValue(init) && v % 10 == DigitValue(s[|s| - 1]);
      assert s == init + [s[|s| - 1]];
    }
  }

  /** Number of digits Python prints for `x`. */
  function NumDigits(x: nat): (n: nat)
    ensures 1 <= n && x < Pow10(n)
    ensures n > 1 ==> Pow10(n - 1) <= x
  {
    if x < 10 then 1 else 1 + NumDigits(x / 10)
  }

  /** `str(x)` for a non-negative integer: no leading zeros. */
  function NatToString(x: nat): (s: string)
    ensures AllDigits(s) && |s| == NumDigits(x)
  {
    Pad(x, NumDigits(x))
  }

  /** `str(i)` for any Python int. */
  function IntToString(i: int): string {
    if i < 0 then "-" + NatToString(-i) else NatToString(i)
  }

  /** `str(x)` reads back as `x`, and it has exactly four characters
      precisely for the four-digit numbers. */
  lemma NatToStringRoundTrip(x: nat)
    ensures DigitsValue(NatToString(x)) == x
    ensures |NatToString(x)| == 4 <==> 1000 <= x <= 9999
  {
    PadRoundTrip(x, NumDigits(x));
    NumDigitsFour(x);
  }

  lemma {:induction false} NumDigitsFour(x: nat)
    ensures NumDigits(x) == 4 <==> 1000 <= x <= 9999
  {
    if x >= 10 {
      NumDigitsFour(x / 10);
      if x / 10 >= 10 {
        NumDigitsFour(x / 100);
      }
    }
  }

  /** `sep.join(parts)` */
  function Join(parts: seq<string>, sep: string): string {
    if parts == [] then ""
    else if |parts| == 1 then parts[0]
    else parts[0] + sep + Join(parts[1..], sep)
  }
}
