/** Python's `int(x)`, `float(x)` and `str(n)` on the values the core converts. */
module PyNumbers {
  import opened Wrappers
  import opened JsonValues

  predicate IsDigit(c: char) { '0' <= c <= '9' }

  predicate AllDigits(s: string) { forall i :: 0 <= i < |s| ==> IsDigit(s[i]) }

  function DigitChar(d: nat): (c: char)
    requires d < 10
    ensures IsDigit(c) && c as int - '0' as int == d
  {
    ('0' as int + d) as char
  }

  /** The value of a string of decimal digits, most significant first. */
  function DigitsValue(s: string): nat
    requires AllDigits(s)
    decreases |s|
  {
    if s == [] then 0
    else 10 * DigitsValue(s[..|s| - 1]) + (s[|s| - 1] as int - '0' as int)
  }

  /** `str(n)` for n >= 0: decimal digits without leading zeros. */
  function NatToString(n: nat): (s: string)
    ensures |s| > 0 && AllDigits(s)
    ensures s[0] == '0' ==> n == 0
    decreases n
  {
    if n < 10 then [DigitChar(n)]
    else NatToString(n / 10) + [DigitChar(n % 10)]
  }

  /** `str(n)` for any int. */
  function IntToString(n: int): (s: string)
    ensures |s| > 0
    ensures n < 0 <==> s[0] == '-'
  {
    if n < 0 then "-" + NatToString(-n) else NatToString(n)
  }

  /** `int(s)` for a str: an optional sign followed by at least one decimal digit. */
  function ParseInt(s: string): Option<int> {
    if |s| > 0 && (s[0] == '+' || s[0] == '-') then
      if |s| > 1 && AllDigits(s[1..]) then
        Some(if s[0] == '-' then -(DigitsValue(s[1..]) as int) else DigitsValue(s[1..]))
      else None
    else if |s| > 0 && AllDigits(s) then Some(DigitsValue(s))
    else None
  }

  lemma {:induction false} DigitsValueOfNatToString(n: nat)
    ensures DigitsValue(NatToString(n)) == n
    decreases n
  {
    if n >= 10 {
      var s := NatToString(n);
      assert s[..|s| - 1] == NatToString(n / 10);
      DigitsValueOfNatToString(n / 10);
    }
  }

  /** What `str` writes, `int` reads back. */
  lemma ParseIntOfIntToString(n: int)
    ensures ParseInt(IntToString(n)) == Some(n)
  {
    if n < 0 {
      var s := IntToString(n);
      assert s[1..] == NatToString(-n);
      DigitsValueOfNatToString(-n);
    } else {
      DigitsValueOfNatToString(n);
    }
  }

  /** The position of the first `c` in `s`, or |s| when there is none. */
  function IndexOf(s: string, c: char): (k: nat)
    ensures k <= |s| && (k < |s| ==> s[k] == c)
    ensures forall i :: 0 <= i < k ==> s[i] != c
  {
    if s == [] || s[0] == c then 0 else 1 + IndexOf(s[1..], c)
  }

  function Pow10(n: nat): (p: nat)
    ensures p > 0
  {
    if n == 0 then 1 else 10 * Pow10(n - 1)
  }

  /** `float(s)` for an unsigned decimal literal: digits, optionally a point and more digits,
      with at least one digit in all. */
  function ParseUnsignedDecimal(u: string): Option<real> {
    var k := IndexOf(u, '.');
    var whole := u[..k];
    var frac := if k < |u| then u[k + 1..] else "";
    if AllDigits(whole) && AllDigits(frac) && (whole != "" || frac != "") then
      Some(DigitsValue(whole) as real + DigitsValue(frac) as real / Pow10(|frac|) as real)
    else None
  }

  /** `float(s)` for a str: an optional sign and an unsigned decimal literal. */
  function ParseDecimal(s: string): Option<real> {
    if |s| > 0 && (s[0] == '+' || s[0] == '-') then
      match ParseUnsignedDecimal(s[1..])
      case None => None
      case Some(x) => Some(if s[0] == '-' then -x else x)
    else ParseUnsignedDecimal(s)
  }

  /** Every integer literal `int` accepts, `float` accepts with the same value. */
  lemma ParseDecimalOfInteger(s: string)
    requires ParseInt(s).Some?
    ensures ParseDecimal(s) == Some(ParseInt(s).value as real)
  {
    var u := if s[0] == '+' || s[0] == '-' then s[1..] else s;
    assert AllDigits(u) && u != "";
    assert IndexOf(u, '.') == |u|;
    assert u[..|u|] == u;
    assert ParseUnsignedDecimal(u) == Some(DigitsValue(u) as real);
  }

  /** `int(r)` for a float truncates toward zero. */
  function Trunc(r: real): (n: int)
    ensures 0.0 <= r ==> 0 <= n && n as real <= r < n as real + 1.0
    ensures r < 0.0 ==> n <= 0 && n as real - 1.0 < r <= n as real
  {
    if r >= 0.0 then r.Floor else -((-r).Floor)
  }

  /** `int(x)` for a decoded JSON value. */
  function PyInt(j: Json): (r: Result<int>)
    ensures r.Err? ==> r.fault == (if j.JString? then ValueError else TypeError)
    ensures j.JString? ==> (r.Ok? <==> ParseInt(j.s).Some?)
    ensures j.JString? && r.Ok? ==> r.value == ParseInt(j.s).value
    ensures IsNumber(j) ==> r.Ok? && r.value == Trunc(NumberValue(j))
    ensures (j.JNull? || j.JArray? || j.JObject?) ==> r == Err(TypeError)
  {
    match j
    case JBool(b) => Ok(if b then 1 else 0)
    case JInt(i) => Ok(i)
    case JFloat(x) => Ok(Trunc(x))
    case JString(s) => if ParseInt(s).Some? then Ok(ParseInt(s).value) else Err(ValueError)
    case _ => Err(TypeError)
  }

  /** `float(x)` for a decoded JSON value. */
  function PyFloat(j: Json): (r: Result<real>)
    ensures r.Err? ==> r.fault == (if j.JString? then ValueError else TypeError)
    ensures IsNumber(j) ==> r == Ok(NumberValue(j))
    ensures j.JString? ==> (r.Ok? <==> ParseDecimal(j.s).Some?)
    ensures j.JString? && r.Ok? ==> r.value == ParseDecimal(j.s).value
    ensures (j.JNull? || j.JArray? || j.JObject?) ==> r == Err(TypeError)
  {
    match j
    case JBool(b) => Ok(if b then 1.0 else 0.0)
    case JInt(i) => Ok(i as real)
    case JFloat(x) => Ok(x)
    case JString(s) => if ParseDecimal(s).Some? then Ok(ParseDecimal(s).value) else Err(ValueError)
    case _ => Err(TypeError)
  }

  /** `int(str(n)) == n`. */
  lemma PyIntOfStr(n: int)
    ensures PyInt(JString(IntToString(n))) == Ok(n)
  {
    ParseIntOfIntToString(n);
  }
}
