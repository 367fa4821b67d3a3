/**
 * The small part of the Java platform that the configuration code relies on:
 * nullable strings, exceptions, `Map.getOrDefault`, `Properties.getProperty`,
 * `Integer.parseInt`, `Long.parseLong`, `Boolean.parseBoolean`, `Enum.valueOf`
 * and `TimeUnit.MILLISECONDS.toMicros`.
 */
module Java {

  datatype Option<+T> = None | Some(value: T)

  /** A Java `String` reference: `None` is `null`. */
  type JString = Option<string>

  /** The exceptions the modelled code can raise. */
  datatype Exception =
    | NumberFormat      // java.lang.NumberFormatException
    | IllegalArgument   // java.lang.IllegalArgumentException (also an unknown enum name)
    | NullPointer       // java.lang.NullPointerException
    | StackOverflow     // java.lang.StackOverflowError
    | IO                // java.io.IOException (PulsarClientException is one)

  /** A value, or the exception thrown instead of producing it. */
  datatype Result<+T> = Ok(value: T) | Throws(exception: Exception)

  /** How a `void` call ended: normally or by an exception. */
  datatype Outcome = Normal | Threw(exception: Exception)

  /**
   * How a call that may retry without bound stands once the script of
   * attempts driving it is used up: it returned a value, an exception
   * escaped it, or it is still retrying.
   */
  datatype Progress<+T> = Returned(value: T) | Raised(exception: Exception) | Retrying

  const IntMin: int := -0x8000_0000
  const IntMax: int := 0x7fff_ffff
  const LongMin: int := -0x8000_0000_0000_0000
  const LongMax: int := 0x7fff_ffff_ffff_ffff

  /** `map.get(key)`: the value, or `null` when the key is absent. */
  function Get(m: map<string, string>, key: string): (r: JString)
    ensures r.Some? <==> key in m
    ensures r.Some? ==> r.value == m[key]
  {
    if key in m then Some(m[key]) else None
  }

  /** `map.getOrDefault(key, fallback)`. */
  function GetOrDefault(m: map<string, string>, key: string, fallback: JString): (r: JString)
    ensures key in m ==> r == Some(m[key])
    ensures key !in m ==> r == fallback
  {
    if key in m then Some(m[key]) else fallback
  }

  /**
   * `System.getenv().getOrDefault(envName, props.getProperty(propName, fallback))`:
   * the environment variable, else the property, else the literal fallback.
   * The result is never null.
   */
  function Resolve(env: map<string, string>, envName: string,
                   props: map<string, string>, propName: string, fallback: string): (r: string)
    ensures envName in env ==> r == env[envName]
    ensures envName !in env && propName in props ==> r == props[propName]
    ensures envName !in env && propName !in props ==> r == fallback
  {
    GetOrDefault(env, envName, Some(GetOrDefault(props, propName, Some(fallback)).value)).value
  }

  /** `String.valueOf(obj)`: a null reference becomes the four letters "null". */
  function StringValueOf(s: JString): (r: string)
    ensures s.Some? ==> r == s.value
    ensures s.None? ==> r == "null"
  {
    if s.Some? then s.value else "null"
  }

  // ---------------------------------------------------------------------
  // Decimal numbers

  predicate IsDigit(c: char) { '0' <= c <= '9' }

  predicate AllDigits(s: string) { forall i :: 0 <= i < |s| ==> IsDigit(s[i]) }

  /** The value of a string of decimal digits, most significant first. */
  function DigitsValue(s: string): nat
    requires AllDigits(s)
  {
    if s == [] then 0
    else DigitsValue(s[..|s| - 1]) * 10 + (s[|s| - 1] as int - '0' as int)
  }

  /**
   * The common core of `Integer.parseInt` and `Long.parseLong` (radix 10):
   * an optional '+' or '-', then at least one digit, and the value must lie
   * within [lo, hi]; anything else, `null` included, is rejected.
   */
  function ParseDecimal(s: JString, lo: int, hi: int): (r: Option<int>)
    ensures r.Some? ==> lo <= r.value <= hi
    ensures r.Some? ==> s.Some? && |s.value| > 0
  {
    if s.None? || |s.value| == 0 then None
    else
      var t := s.value;
      var signed := t[0] == '-' || t[0] == '+';
      var digits := if signed then t[1..] else t;
      if |digits| == 0 || !AllDigits(digits) then None
      else
        var magnitude: int := DigitsValue(digits);
        var v := if t[0] == '-' then -magnitude else magnitude;
        if lo <= v <= hi then Some(v) else None
  }

  /** `Integer.parseInt(s)`. */
  function ParseInt(s: JString): (r: Result<int>)
    ensures r.Ok? ==> IntMin <= r.value <= IntMax
    ensures r.Throws? ==> r.exception == NumberFormat
    ensures s.None? ==> r == Throws(NumberFormat)
  {
    var p := ParseDecimal(s, IntMin, IntMax);
    if p.Some? then Ok(p.value) else Throws(NumberFormat)
  }

  /** `Long.parseLong(s)`. */
  function ParseLong(s: JString): (r: Result<int>)
    ensures r.Ok? ==> LongMin <= r.value <= LongMax
    ensures r.Throws? ==> r.exception == NumberFormat
    ensures s.None? ==> r == Throws(NumberFormat)
  {
    var p := ParseDecimal(s, LongMin, LongMax);
    if p.Some? then Ok(p.value) else Throws(NumberFormat)
  }

  /** The decimal digits of a natural number, without leading zeros. */
  function NatDigits(n: nat): (s: string)
    ensures |s| > 0 && AllDigits(s)
  {
    if n < 10 then ['0' + n as char] else NatDigits(n / 10) + ['0' + (n % 10) as char]
  }

  /** `Integer.toString(v)` / `Long.toString(v)`. */
  function DecimalString(v: int): string
  {
    if v < 0 then "-" + NatDigits(-v) else NatDigits(v)
  }

  lemma {:induction false} NatDigitsValue(n: nat)
    ensures DigitsValue(NatDigits(n)) == n
  {
    if n >= 10 {
      var s := NatDigits(n);
      assert s[..|s| - 1] == NatDigits(n / 10);
      NatDigitsValue(n / 10);
    }
  }

  /** Parsing the decimal text of any value in range gives that value back. */
  lemma ParseDecimalRoundTrip(v: int, lo: int, hi: int)
    requires lo <= v <= hi
    ensures ParseDecimal(Some(DecimalString(v)), lo, hi) == Some(v)
  {
    var t := DecimalString(v);
    if v < 0 {
      NatDigitsValue(-v);
      assert t[1..] == NatDigits(-v);
    } else {
      NatDigitsValue(v);
      assert !(t[0] == '-' || t[0] == '+');
    }
  }

  /** `Integer.parseInt(Integer.toString(v)) == v` for every 32-bit int. */
  lemma ParseIntRoundTrip(v: int)
    requires IntMin <= v <= IntMax
    ensures ParseInt(Some(DecimalString(v))) == Ok(v)
  {
    ParseDecimalRoundTrip(v, IntMin, IntMax);
  }

  /** `Long.parseLong(Long.toString(v)) == v` for every 64-bit long. */
  lemma ParseLongRoundTrip(v: int)
    requires LongMin <= v <= LongMax
    ensures ParseLong(Some(DecimalString(v))) == Ok(v)
  {
    ParseDecimalRoundTrip(v, LongMin, LongMax);
  }

  /**
   * A character that is neither a digit nor a leading sign makes the text
   * unparsable, whatever the range.
   */
  lemma ParseDecimalRejects(s: string, i: nat, lo: int, hi: int)
    requires i < |s| && !IsDigit(s[i])
    requires i == 0 ==> s[i] != '-' && s[i] != '+'
    ensures ParseDecimal(Some(s), lo, hi) == None
  {
    if s[0] == '-' || s[0] == '+' {
      assert s[1..][i - 1] == s[i];
    }
  }

  // ---------------------------------------------------------------------
  // Booleans and enums

  function LowerAscii(c: char): char
  {
    if 'A' <= c <= 'Z' then (c as int + 32) as char else c
  }

  /** `a.equalsIgnoreCase(b)` restricted to ASCII letters. */
  predicate EqualsIgnoreCase(a: string, b: string)
  {
    |a| == |b| && forall i :: 0 <= i < |a| ==> LowerAscii(a[i]) == LowerAscii(b[i])
  }

  /**
   * `Boolean.parseBoolean(s)`: true exactly for "true" in any letter case;
   * never throws, and `null` gives false.
   */
  function ParseBoolean(s: JString): (r: bool)
    ensures r <==> s.Some? && |s.value| == 4
                   && forall i :: 0 <= i < 4 ==> s.value[i] == "true"[i] || s.value[i] == "TRUE"[i]
    ensures s == Some("true") || s == Some("TRUE") || s == Some("True") ==> r
    ensures s.None? ==> !r
  {
    s.Some? && EqualsIgnoreCase(s.value, "true")
  }

  /**
   * `E.valueOf(name)` for an enum whose constants are named `constants`:
   * an exact, case-sensitive match; `null` throws NullPointerException and
   * an unknown name IllegalArgumentException.
   */
  function ValueOf(constants: seq<string>, name: JString): (r: Result<string>)
    ensures r.Ok? <==> name.Some? && name.value in constants
    ensures r.Ok? ==> r.value == name.value
    ensures name.None? ==> r == Throws(NullPointer)
    ensures name.Some? && name.value !in constants ==> r == Throws(IllegalArgument)
  {
    if name.None? then Throws(NullPointer)
    else if name.value in constants then Ok(name.value)
    else Throws(IllegalArgument)
  }

  // ---------------------------------------------------------------------
  // Time units

  /**
   * `TimeUnit.MILLISECONDS.toMicros(d)`: d * 1000, saturated to
   * Long.MIN_VALUE / Long.MAX_VALUE when the product would overflow.
   */
  function MillisToMicros(d: int): (r: int)
    requires LongMin <= d <= LongMax
    ensures LongMin <= r <= LongMax
    ensures LongMin <= d * 1000 <= LongMax ==> r == d * 1000
    ensures d * 1000 > LongMax ==> r == LongMax
    ensures d * 1000 < LongMin ==> r == LongMin
  {
    var bound := LongMax / 1000;
    if d > bound then LongMax
    else if d < -bound then LongMin
    else d * 1000
  }
}
