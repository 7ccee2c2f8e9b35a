/** Numbers as the views read and show them: the content of an
    `<input type="number">`, JavaScript's coercions of it, `parseFloat` of a
    string such as "12% APY", and `toFixed(2)`. */
module Numbers {
  import opened Options

  /** What an `<input type="number">` holds: the browser delivers either the
      empty string or a well-formed number. */
  datatype Field = Blank | Num(value: real)

  /** A JavaScript number that may be `NaN`. */
  datatype JsNumber = Finite(value: real) | NaN

  /** `Number(field)`, the coercion that `*` and `<=` apply: "" becomes 0. */
  function ToNumber(f: Field): (r: real)
    ensures f.Blank? ==> r == 0.0
    ensures f.Num? ==> r == f.value
  {
    match f
    case Blank => 0.0
    case Num(v) => v
  }

  /** `parseFloat(field)`: "" becomes NaN. */
  function ParseFloat(f: Field): (r: JsNumber)
    ensures r.NaN? <==> f.Blank?
    ensures f.Num? ==> r == Finite(f.value)
  {
    match f
    case Blank => NaN
    case Num(v) => Finite(v)
  }

  /** The amount checks of the transfer and purchase forms:
      `!amount || isNaN(parseFloat(amount)) || parseFloat(amount) <= 0` rejects,
      and so does `!amount || amount <= 0`; both accept exactly a positive number. */
  predicate IsPositiveAmount(f: Field) {
    f.Num? && f.value > 0.0
  }

  /** `r` is a whole number of hundredths, as `toFixed(2)` writes it. */
  predicate WholeHundredths(r: real) {
    (r * 100.0).Floor as real == r * 100.0
  }

  /** `x.toFixed(2)` read back as a number: the nearest hundredth, halves
      rounded away from zero. */
  function Round2(x: real): (r: real)
    ensures WholeHundredths(r)
    ensures -0.005 <= r - x <= 0.005
    ensures x >= 0.0 ==> r >= 0.0
  {
    if x >= 0.0 then Hundredths(x)
    else
      var h := Hundredths(-x);
      NegatedWholeHundredths(h);
      -h
  }

  lemma NegatedWholeHundredths(h: real)
    requires WholeHundredths(h)
    ensures WholeHundredths(-h)
  {
    var n := (h * 100.0).Floor;
    assert -h * 100.0 == (-n) as real;
  }

  /** Round half up to hundredths, for a non-negative `x`. */
  function Hundredths(x: real): (r: real)
    requires x >= 0.0
    ensures 0.0 <= r && -0.005 <= r - x <= 0.005
    ensures WholeHundredths(r)
  {
    var y := x * 100.0 + 0.5;
    var n := y.Floor;
    assert n as real <= y < n as real + 1.0;
    assert n >= 0;
    var r := n as real / 100.0;
    assert r * 100.0 == n as real;
    r
  }

  // ---- parseFloat of a string that starts with a decimal number ----------

  predicate IsDigit(c: char) {
    '0' <= c <= '9'
  }

  function DigitValue(c: char): nat
    requires IsDigit(c)
  {
    c as int - '0' as int
  }

  /** The length of the run of digits at the front of `s`. */
  function DigitRun(s: string): (n: nat)
    ensures n <= |s|
    ensures forall i :: 0 <= i < n ==> IsDigit(s[i])
    ensures n < |s| ==> !IsDigit(s[n])
  {
    if s != [] && IsDigit(s[0]) then 1 + DigitRun(s[1..]) else 0
  }

  /** The value of a string of decimal digits, most significant first. */
  function DigitsValue(d: string): nat
    requires forall i :: 0 <= i < |d| ==> IsDigit(d[i])
  {
    if d == [] then 0 else DigitsValue(d[..|d| - 1]) * 10 + DigitValue(d[|d| - 1])
  }

  function Pow10(n: nat): (r: nat)
    ensures r > 0
  {
    if n == 0 then 1 else 10 * Pow10(n - 1)
  }

  /** `parseFloat(s)` for a string that starts with digits, a point and more
      digits (either run may be empty, not both), ignoring whatever follows;
      `None` stands for `NaN`. */
  function ParseLeadingDecimal(s: string): Option<real> {
    var k := DigitRun(s);
    if k < |s| && s[k] == '.' then
      var m := DigitRun(s[k + 1..]);
      if k == 0 && m == 0 then None
      else Some(DigitsValue(s[..k]) as real + DigitsValue(s[k + 1..k + 1 + m]) as real / Pow10(m) as real)
    else if k == 0 then None
    else Some(DigitsValue(s[..k]) as real)
  }

  /** The decimal digits of `n`, as `String(n)` writes them. */
  function NatToDigits(n: nat): (d: string)
    ensures |d| > 0
    ensures forall i :: 0 <= i < |d| ==> IsDigit(d[i])
  {
    if n < 10 then [('0' as int + n) as char]
    else NatToDigits(n / 10) + [('0' as int + n % 10) as char]
  }

  lemma {:induction false} DigitsValueOfNatToDigits(n: nat)
    ensures DigitsValue(NatToDigits(n)) == n
  {
    var d := NatToDigits(n);
    if n >= 10 {
      DigitsValueOfNatToDigits(n / 10);
      assert d[..|d| - 1] == NatToDigits(n / 10);
    }
  }

  lemma {:induction false} DigitRunOfPrefix(d: string, rest: string)
    requires forall i :: 0 <= i < |d| ==> IsDigit(d[i])
    requires rest == [] || !IsDigit(rest[0])
    ensures DigitRun(d + rest) == |d|
  {
    if d != [] {
      DigitRunOfPrefix(d[1..], rest);
      assert (d + rest)[1..] == d[1..] + rest;
    } else {
      assert d + rest == rest;
    }
  }

  /** Round trip: `parseFloat` reads back a whole number written out in
      decimal and followed by text that starts with neither a digit nor a
      point, as in "12% APY". */
  lemma ParseWrittenNumber(n: nat, rest: string)
    requires rest == [] || (!IsDigit(rest[0]) && rest[0] != '.')
    ensures ParseLeadingDecimal(NatToDigits(n) + rest) == Some(n as real)
  {
    var d := NatToDigits(n);
    var s := d + rest;
    DigitRunOfPrefix(d, rest);
    assert s[..|d|] == d;
    DigitsValueOfNatToDigits(n);
    if |d| < |s| {
      assert s[|d|] == rest[0];
    }
  }

  /** A string that starts with neither a digit nor a point does not parse:
      `parseFloat("N/A")` is `NaN`. */
  lemma ParseNonNumeric(s: string)
    requires s != [] && !IsDigit(s[0]) && s[0] != '.'
    ensures ParseLeadingDecimal(s) == None
  {
  }
}
