// JavaScript's text-to-number conversions as the editor uses them:
// `Number(text)` (whole text must be a number, blank text is 0),
// `parseFloat(text)` and `parseInt(text)` (longest numeric prefix). `None`
// stands for NaN. Only plain decimal notation is read: optional sign,
// digits, optional fraction.

module JsNumber {
  import opened Types
  import opened JsString

  predicate IsDigit(c: char) {
    '0' <= c <= '9'
  }

  predicate AllDigits(s: string) {
    forall i :: 0 <= i < |s| ==> IsDigit(s[i])
  }

  function DigitValue(c: char): (d: nat)
    requires IsDigit(c)
    ensures d < 10
  {
    c as int - '0' as int
  }

  /** The number of leading decimal digits. */
  function DigitRun(s: string): (n: nat)
    ensures n <= |s| && AllDigits(s[..n])
    ensures n < |s| ==> !IsDigit(s[n])
  {
    if s == [] || !IsDigit(s[0]) then 0
    else
      var n := DigitRun(s[1..]);
      assert s[..n + 1] == [s[0]] + s[1..][..n];
      n + 1
  }

  /** The value of a digit string read as a decimal integer. */
  function NatValue(ds: string): nat
    requires AllDigits(ds)
  {
    if ds == [] then 0
    else NatValue(ds[..|ds| - 1]) * 10 + DigitValue(ds[|ds| - 1])
  }

  /** The value of the digits after a decimal point. */
  function FracValue(ds: string): real
    requires AllDigits(ds)
  {
    if ds == [] then 0.0
    else (DigitValue(ds[0]) as real + FracValue(ds[1..])) / 10.0
  }

  /** A number read from the start of a text and how many characters it took. */
  datatype Scan = Scan(value: real, length: nat)

  /** Reads `digits [ "." digits ]` or `"." digits` from the start of `s`. */
  function ScanUnsigned(s: string): (r: Option<Scan>)
    ensures r.Some? ==> 0 < r.value.length <= |s| && r.value.value >= 0.0
  {
    var a := DigitRun(s);
    var whole := NatValue(s[..a]) as real;
    if a < |s| && s[a] == '.' then
      var b := DigitRun(s[a + 1..]);
      if a + b == 0 then None
      else
        FracNonNegative(s[a + 1..][..b]);
        Some(Scan(whole + FracValue(s[a + 1..][..b]), a + 1 + b))
    else if a == 0 then None
    else Some(Scan(whole, a))
  }

  lemma FracNonNegative(ds: string)
    requires AllDigits(ds)
    ensures 0.0 <= FracValue(ds)
  {
  }

  /** Reads an optionally signed decimal number from the start of `s`. */
  function ScanNumber(s: string): (r: Option<Scan>)
    ensures r.Some? ==> 0 < r.value.length <= |s|
  {
    if s != [] && (s[0] == '+' || s[0] == '-') then
      match ScanUnsigned(s[1..])
      case None => None
      case Some(sc) => Some(Scan(if s[0] == '-' then -sc.value else sc.value, sc.length + 1))
    else ScanUnsigned(s)
  }

  /** `Number(text)`: the trimmed text must be one number; blank text is 0. */
  function ToNumber(s: string): Option<real> {
    var t := Trim(s);
    if t == [] then Some(0.0)
    else
      match ScanNumber(t)
      case Some(sc) => if sc.length == |t| then Some(sc.value) else None
      case None => None
  }

  /** `parseFloat(text)`: the number at the start of the text after leading
      white space; the rest of the text is ignored. */
  function ParseFloat(s: string): Option<real> {
    match ScanNumber(TrimStart(s))
    case Some(sc) => Some(sc.value)
    case None => None
  }

  /** `parseInt(text)` in base ten: the optionally signed digits at the start
      of the text after leading white space. */
  function ParseInt(s: string): Option<int> {
    var t := TrimStart(s);
    var negative := t != [] && t[0] == '-';
    var u := if t != [] && (t[0] == '+' || t[0] == '-') then t[1..] else t;
    var a := DigitRun(u);
    var magnitude: int := if a == 0 then 0 else NatValue(u[..a]);
    if a == 0 then None
    else if negative then Some(-magnitude)
    else Some(magnitude)
  }

  /** The decimal text of a natural number, as `String(n)` writes it. */
  function ShowNat(n: nat): (s: string)
    ensures s != [] && AllDigits(s)
  {
    if n < 10 then [('0' as int + n) as char]
    else ShowNat(n / 10) + [('0' as int + n % 10) as char]
  }

  /** Reading back the decimal text of a natural number gives the number. */
  lemma {:induction false} NatValueShowNat(n: nat)
    ensures NatValue(ShowNat(n)) == n
  {
    var s := ShowNat(n);
    if n >= 10 {
      NatValueShowNat(n / 10);
      assert s[..|s| - 1] == ShowNat(n / 10);
    }
  }

  /** Each of the three conversions reads a plain digit string as its
      decimal value. */
  lemma ParseDigits(ds: string)
    requires ds != [] && AllDigits(ds)
    ensures ToNumber(ds) == Some(NatValue(ds) as real)
    ensures ParseFloat(ds) == Some(NatValue(ds) as real)
    ensures ParseInt(ds) == Some(NatValue(ds))
  {
    assert IsDigit(ds[0]) && IsDigit(ds[|ds| - 1]);
    assert TrimStart(ds) == ds;
    assert Trim(ds) == ds by { assert TrimEnd(ds) == ds; }
    DigitRunAll(ds);
    assert ds[..|ds|] == ds;
    assert ds[0] != '+' && ds[0] != '-';
    assert ScanUnsigned(ds) == Some(Scan(NatValue(ds) as real, |ds|));
    assert ScanNumber(ds) == Some(Scan(NatValue(ds) as real, |ds|));
  }

  lemma DigitRunAll(ds: string)
    requires AllDigits(ds)
    ensures DigitRun(ds) == |ds|
  {
    if ds != [] {
      DigitRunAll(ds[1..]);
    }
  }

  /** `Number(String(n))` gives `n` back. */
  lemma {:induction false} ToNumberShowNat(n: nat)
    ensures ToNumber(ShowNat(n)) == Some(n as real)
    ensures ParseFloat(ShowNat(n)) == Some(n as real)
  {
    ParseDigits(ShowNat(n));
    NatValueShowNat(n);
  }

  /** Text after the number is ignored by `parseFloat` but makes `Number`
      NaN: "12px" reads as 12 and as NaN. */
  lemma TrailingText()
    ensures ParseFloat("12px") == Some(12.0)
    ensures ToNumber("12px") == None
  {
    var s := "12px";
    assert !IsSpace(s[0]) && !IsSpace(s[3]);
    assert TrimStart(s) == s;
    assert Trim(s) == s;
    assert DigitRun(s[2..]) == 0;
    assert DigitRun(s[1..]) == 1;
    assert DigitRun(s) == 2;
    assert s[..2] == "12";
    assert NatValue("12"[..1]) == 1;
    assert NatValue("12") == 12;
    assert ScanNumber(s) == Some(Scan(12.0, 2));
  }
}
