/**
 * The JavaScript values the application passes around, and the integer
 * test `parseInt(x) + "" === x` that both order validators apply to the
 * fields of a submitted order.
 */
module JsValues {

  datatype Option<T> = None | Some(value: T)

  /** A primitive JavaScript value as it appears in a data row or in a
      submitted order. Finite numbers are exact (`real`), the number NaN is
      a value of its own; a Date object is kept as its time value in
      milliseconds. */
  datatype JsValue =
    | Undefined
    | Null
    | Bool(b: bool)
    | Num(r: real)
    | NaN
    | Str(s: string)
    | DateObj(ms: int)

  /** JavaScript truthiness: undefined, null, false, 0 and "" are falsy;
      every object, a Date included, is truthy. */
  predicate Truthy(v: JsValue)
  {
    match v
    case Undefined => false
    case Null => false
    case Bool(b) => b
    case Num(r) => r != 0.0
    case NaN => false
    case Str(s) => s != ""
    case DateObj(_) => true
  }

  /** `a === b`. Primitives compare by value, except that NaN equals
      nothing; a Date object is only identical to itself, and no two of the
      values compared here are the same Date object. */
  predicate StrictEquals(a: JsValue, b: JsValue)
  {
    !a.DateObj? && !a.NaN? && a == b
  }

  /** `Number(v)`, the coercion of `<`, `-` and `*`; None stands for NaN.
      How a string converts is the parameter `stringToNumber`. */
  function ToNumber(v: JsValue, stringToNumber: string -> Option<real>): (n: Option<real>)
    ensures v.Num? ==> n == Some(v.r)
    ensures v.Undefined? || v.NaN? ==> n == None
    ensures v.Null? ==> n == Some(0.0)
    ensures v.Bool? ==> n == Some(if v.b then 1.0 else 0.0)
    ensures v.DateObj? ==> n == Some(v.ms as real)
  {
    match v
    case Undefined => None
    case Null => Some(0.0)
    case Bool(b) => Some(if b then 1.0 else 0.0)
    case Num(r) => Some(r)
    case NaN => None
    case Str(s) => stringToNumber(s)
    case DateObj(ms) => Some(ms as real)
  }

  /** `parseFloat(v)`: a number reads back as itself, a string as the
      parameter `parseFloatText` says; every other value prints as text
      that starts with a letter, which reads as NaN (None). */
  function ParseFloat(v: JsValue, parseFloatText: string -> Option<real>): (n: Option<real>)
    ensures v.Num? ==> n == Some(v.r)
    ensures !v.Num? && !v.Str? ==> n == None
  {
    match v
    case Num(r) => Some(r)
    case Str(s) => parseFloatText(s)
    case _ => None
  }

  /** A data row: an object whose own properties are the keys of the map. */
  type Row = map<string, JsValue>

  /** `row[key]`: undefined when the row has no such property. */
  function Field(row: Row, key: string): (v: JsValue)
    ensures key !in row ==> v == Undefined
    ensures key in row ==> v == row[key]
  {
    if key in row then row[key] else Undefined
  }

  // ---------------------------------------------------------------------
  // Decimal digits

  predicate IsDigit(c: char)
  {
    '0' <= c <= '9'
  }

  predicate AllDigits(t: string)
  {
    forall k :: 0 <= k < |t| ==> IsDigit(t[k])
  }

  function DigitValue(c: char): nat
    requires IsDigit(c)
  {
    c as int - '0' as int
  }

  function DigitChar(d: nat): (c: char)
    requires d < 10
    ensures IsDigit(c) && DigitValue(c) == d
  {
    ('0' as int + d) as char
  }

  /** The value of a string of decimal digits, most significant first. */
  function DigitsValue(t: string): nat
    requires AllDigits(t)
  {
    if t == [] then 0 else DigitsValue(t[..|t| - 1]) * 10 + DigitValue(t[|t| - 1])
  }

  /** The shortest decimal rendering of a natural number. */
  function Digits(n: nat): (t: string)
    ensures |t| > 0 && AllDigits(t)
  {
    if n < 10 then [DigitChar(n)] else Digits(n / 10) + [DigitChar(n % 10)]
  }

  // ---------------------------------------------------------------------
  // parseInt and Number-to-string

  /** The white space `parseInt` skips before the number. */
  predicate IsJsSpace(c: char)
  {
    c == ' ' || c == '\t' || c == '\n' || c == '\r' || c == '\U{000B}' || c == '\U{000C}'
    || c == '\U{00A0}' || c == '\U{2028}' || c == '\U{2029}' || c == '\U{FEFF}'
  }

  function TrimStart(s: string): (t: string)
    ensures |t| <= |s| && t == s[|s| - |t|..]
    ensures t == [] || !IsJsSpace(t[0])
  {
    if s != [] && IsJsSpace(s[0]) then TrimStart(s[1..]) else s
  }

  /** The longest prefix of `t` made of decimal digits. */
  function DigitPrefix(t: string): (p: string)
    ensures AllDigits(p) && |p| <= |t| && p == t[..|p|]
    ensures |p| < |t| ==> !IsDigit(t[|p|])
  {
    if t != [] && IsDigit(t[0]) then [t[0]] + DigitPrefix(t[1..]) else []
  }

  /** `parseInt(s)` with the default radix: leading white space, an
      optional sign, then the longest run of decimal digits; `None` stands
      for NaN (no digit at all). */
  function ParseInt(s: string): Option<int>
  {
    var t := TrimStart(s);
    var negative := t != [] && t[0] == '-';
    var rest := if t != [] && (t[0] == '-' || t[0] == '+') then t[1..] else t;
    var digits := DigitPrefix(rest);
    if digits == [] then None
    else if negative then Some(-(DigitsValue(digits) as int))
    else Some(DigitsValue(digits))
  }

  /** `n + ""` for the result of parseInt: "NaN", or the shortest decimal
      rendering with a minus sign for negative values (-0 renders as "0"). */
  function NumberText(n: Option<int>): string
  {
    match n
    case None => "NaN"
    case Some(v) => if v < 0 then "-" + Digits(-v) else Digits(v)
  }

  /** The integer test exactly as the validators write it:
      `parseInt(s) + "" === s`. */
  predicate PassesIntegerTest(s: string)
  {
    NumberText(ParseInt(s)) == s
  }

  /** A canonical decimal integer: "0", or an optional minus sign followed
      by digits that do not start with 0. */
  predicate IsIntegerText(s: string)
  {
    s == "0" || CanonicalMagnitude(s) || (|s| > 1 && s[0] == '-' && CanonicalMagnitude(s[1..]))
  }

  predicate CanonicalMagnitude(t: string)
  {
    |t| > 0 && AllDigits(t) && t[0] != '0'
  }

  /** The integer a canonical decimal string denotes. */
  function IntegerValue(s: string): int
    requires IsIntegerText(s)
  {
    if s == "0" then 0
    else if s[0] == '-' then -(DigitsValue(s[1..]) as int)
    else DigitsValue(s)
  }

  // ---------------------------------------------------------------------
  // Lemmas

  lemma {:induction false} DigitsValueOfDigits(n: nat)
    ensures DigitsValue(Digits(n)) == n
  {
    if n >= 10 {
      var t := Digits(n);
      assert t[..|t| - 1] == Digits(n / 10);
      DigitsValueOfDigits(n / 10);
    }
  }

  lemma {:induction false} DigitsLeadingDigit(n: nat)
    ensures Digits(n)[0] == '0' <==> n == 0
  {
    if n >= 10 {
      DigitsLeadingDigit(n / 10);
    }
  }

  /** A run of digits without a leading zero is at least 10^(length-1). */
  lemma {:induction false} DigitsValueLowerBound(t: string)
    requires CanonicalMagnitude(t)
    ensures |t| > 1 ==> DigitsValue(t) >= 10
    ensures DigitsValue(t) > 0
  {
    if |t| > 1 {
      var init := t[..|t| - 1];
      assert init[0] == t[0];
      DigitsValueLowerBound(init);
    } else {
      assert DigitsValue(t) == DigitValue(t[0]);
    }
  }

  /** Rendering the value of a canonical run of digits gives it back. */
  lemma {:induction false} DigitsOfDigitsValue(t: string)
    requires CanonicalMagnitude(t)
    ensures Digits(DigitsValue(t)) == t
  {
    var n := DigitsValue(t);
    if |t| == 1 {
      assert t[..|t| - 1] == [];
      assert n == DigitsValue(t[..|t| - 1]) * 10 + DigitValue(t[0]);
      assert Digits(n) == [DigitChar(n)];
    } else {
      var init := t[..|t| - 1];
      assert init[0] == t[0];
      DigitsValueLowerBound(t);
      DigitsOfDigitsValue(init);
      assert n / 10 == DigitsValue(init) && n % 10 == DigitValue(t[|t| - 1]);
      assert t == init + [t[|t| - 1]];
    }
  }

  lemma {:induction false} DigitPrefixOfDigits(t: string)
    requires AllDigits(t)
    ensures DigitPrefix(t) == t
  {
    if t != [] {
      DigitPrefixOfDigits(t[1..]);
    }
  }

  /** Every rendering of a parsed integer is canonical, and parsing it
      back gives the integer. */
  lemma NumberTextIsCanonical(v: int)
    ensures IsIntegerText(NumberText(Some(v)))
    ensures IntegerValue(NumberText(Some(v))) == v
  {
    var m: nat := if v < 0 then -v else v;
    DigitsLeadingDigit(m);
    DigitsValueOfDigits(m);
    var d := Digits(m);
    if v < 0 {
      assert NumberText(Some(v)) == "-" + d;
      assert ("-" + d)[1..] == d;
    } else if v == 0 {
      assert d == [DigitChar(0)];
    }
  }

  /** On canonical text parseInt yields its integer value. */
  lemma ParseIntOfIntegerText(s: string)
    requires IsIntegerText(s)
    ensures ParseInt(s) == Some(IntegerValue(s))
  {
    assert TrimStart(s) == s;
    if s == "0" {
      DigitPrefixOfDigits(s);
      assert s[..|s| - 1] == [];
      assert DigitsValue(s) == 0;
      assert ParseInt(s) == Some(0);
    } else if s[0] == '-' {
      DigitPrefixOfDigits(s[1..]);
    } else {
      DigitPrefixOfDigits(s);
    }
  }

  /** What the source's integer test accepts: exactly the canonical
      decimal integers, and the text "NaN". */
  lemma IntegerTestCharacterisation(s: string)
    ensures PassesIntegerTest(s) <==> IsIntegerText(s) || s == "NaN"
  {
    var p := ParseInt(s);
    if PassesIntegerTest(s) && p.Some? {
      NumberTextIsCanonical(p.value);
    }
    if IsIntegerText(s) {
      ParseIntOfIntegerText(s);
      if s == "0" {
        assert NumberText(Some(0)) == Digits(0) == "0";
      } else if s[0] == '-' {
        DigitsValueLowerBound(s[1..]);
        DigitsOfDigitsValue(s[1..]);
        assert s == "-" + s[1..];
      } else {
        DigitsValueLowerBound(s);
        DigitsOfDigitsValue(s);
      }
    }
  }

  /** "7" and "-12" pass the integer test. */
  lemma IntegerTestAccepts()
    ensures PassesIntegerTest("7") && PassesIntegerTest("-12")
  {
    assert CanonicalMagnitude("7");
    IntegerTestCharacterisation("7");
    assert "-12"[1..] == "12" && CanonicalMagnitude("12");
    IntegerTestCharacterisation("-12");
  }

  /** Text that is neither canonical nor "NaN" fails the integer test. */
  lemma NonCanonicalTextFails(s: string)
    requires !IsIntegerText(s) && s != "NaN"
    ensures !PassesIntegerTest(s)
  {
    IntegerTestCharacterisation(s);
  }

  /** "07", "7a" and "" fail the integer test. */
  lemma IntegerTestRejects()
    ensures !PassesIntegerTest("07") && !PassesIntegerTest("7a") && !PassesIntegerTest("")
  {
    assert !IsDigit("7a"[1]);
    NonCanonicalTextFails("07");
    NonCanonicalTextFails("7a");
    NonCanonicalTextFails("");
  }

  /** A plus sign and a negative zero fail the integer test. */
  lemma IntegerTestRejectsSigns()
    ensures !PassesIntegerTest("+7") && !PassesIntegerTest("-0")
  {
    assert !IsDigit("+7"[0]) && "-0"[1..] == "0";
    NonCanonicalTextFails("+7");
    NonCanonicalTextFails("-0");
  }

  /** The text "NaN" passes the integer test although it is no integer. */
  lemma NaNPassesIntegerTest()
    ensures PassesIntegerTest("NaN") && !IsIntegerText("NaN")
  {
    assert TrimStart("NaN") == "NaN";
    assert DigitPrefix("NaN") == [];
  }
}
