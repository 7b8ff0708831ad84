/** A decoded JSON document as the Python and JavaScript handlers see it, together with the
    few Python built-ins the handlers apply to such values: truth testing, `str()` and `int()`. */
module JsonValue {
  import opened Base

  /** One JSON value. Numbers are integers only (floating point is not modelled). */
  datatype Value =
    | Null
    | Bool(b: bool)
    | Int(i: int)
    | Str(s: string)
    | Arr(items: seq<Value>)
    | Obj(fields: map<string, Value>)

  /** Python's truth test `bool(v)`: None, False, 0 and every empty string, list or dict are false. */
  predicate PyTruthy(v: Value)
    // false exactly for the six falsy values; every other value is true
    ensures PyTruthy(v) <==>
              !(v == Null || v == Bool(false) || v == Int(0) || v == Str("") || v == Arr([]) || v == Obj(map[]))
  {
    match v
    case Null => false
    case Bool(b) => b
    case Int(i) => i != 0
    case Str(s) => s != ""
    case Arr(items) => items != []
    case Obj(fields) => fields != map[]
  }

  /** `d.get(key)` on a Python dict: the member, or None when the key is absent. */
  function PyGet(fields: map<string, Value>, key: string): Value {
    if key in fields then fields[key] else Null
  }

  predicate IsDigit(c: char) {
    '0' <= c <= '9'
  }

  predicate AllDigits(s: string) {
    forall k :: 0 <= k < |s| ==> IsDigit(s[k])
  }

  function DigitChar(d: nat): (c: char)
    requires d < 10
    ensures IsDigit(c) && (c as int) - ('0' as int) == d
  {
    (('0' as int) + d) as char
  }

  /** The shortest decimal numeral of `n`. */
  function Digits(n: nat): (s: string)
    ensures s != [] && AllDigits(s)
    ensures n < 10 <==> |s| == 1
  {
    if n < 10 then [DigitChar(n)] else Digits(n / 10) + [DigitChar(n % 10)]
  }

  /** Python's `str(n)` for an integer `n`. */
  function DecimalText(i: int): string {
    if i < 0 then "-" + Digits(-i) else Digits(i)
  }

  /** The number a string of decimal digits denotes (leading zeros allowed). */
  function DigitsValue(s: string): nat
    requires AllDigits(s)
  {
    if s == [] then 0
    else DigitsValue(s[..|s| - 1]) * 10 + ((s[|s| - 1] as int) - ('0' as int))
  }

  /** Python's `int(s)` on a string: an optional sign followed by at least one ASCII digit;
      anything else raises ValueError, here None. */
  function ParseInt(s: string): (r: Option<int>)
    // accepted exactly when the text is digits, or a sign followed by digits
    ensures r.Some? <==>
              (s != [] && AllDigits(s)) || (|s| >= 2 && (s[0] == '-' || s[0] == '+') && AllDigits(s[1..]))
    ensures s != [] && AllDigits(s) ==> r == Some(DigitsValue(s))
    ensures |s| >= 2 && s[0] == '+' && AllDigits(s[1..]) ==> r == Some(DigitsValue(s[1..]))
    ensures |s| >= 2 && s[0] == '-' && AllDigits(s[1..]) ==> r == Some(-(DigitsValue(s[1..]) as int))
  {
    if s != [] && (s[0] == '-' || s[0] == '+') then
      var t := s[1..];
      if t != [] && AllDigits(t) then
        var n: int := DigitsValue(t);
        Some(if s[0] == '-' then -n else n)
      else None
    else if s != [] && AllDigits(s) then Some(DigitsValue(s))
    else None
  }

  /** Python's `int(v)` on a decoded JSON value: integers as they are, booleans as 0 and 1,
      numeral strings parsed; None, lists and dicts raise TypeError, here None. */
  function IntOf(v: Value): (r: Option<int>)
    ensures v.Int? ==> r == Some(v.i)
    ensures v.Null? || v.Arr? || v.Obj? ==> r.None?
    ensures v.Bool? ==> r == Some(if v.b then 1 else 0)
    ensures v.Str? ==> r == ParseInt(v.s)
  {
    match v
    case Int(i) => Some(i)
    case Bool(b) => Some(if b then 1 else 0)
    case Str(s) => ParseInt(s)
    case _ => None
  }

  /** Python's `str(v)` (what an f-string inserts). Lists and dicts are rendered by a
      placeholder rather than by Python's repr. */
  function PyStr(v: Value): (text: string)
    // a string is inserted as it is; an integer by a numeral that `int()` reads back
    ensures v.Str? ==> text == v.s
    ensures v.Int? ==> IntOf(Str(text)) == Some(v.i)
    ensures v.Null? ==> text == "None"
  {
    match v
    case Null => "None"
    case Bool(b) => if b then "True" else "False"
    case Int(i) =>
      IntOfStrRoundTrip(i);
      DecimalText(i)
    case Str(s) => s
    case Arr(_) => "[...]"
    case Obj(_) => "{...}"
  }

  lemma {:induction false} DigitsValueOfDigits(n: nat)
    ensures DigitsValue(Digits(n)) == n
  {
    if n >= 10 {
      var s := Digits(n);
      assert s[..|s| - 1] == Digits(n / 10);
      DigitsValueOfDigits(n / 10);
    }
  }

  /** `int(str(n)) == n`: the numeral Python prints for an integer parses back to it. */
  lemma {:induction false} IntOfStrRoundTrip(n: int)
    ensures IntOf(Str(DecimalText(n))) == Some(n)
  {
    var s := DecimalText(n);
    if n < 0 {
      var d := Digits(-n);
      assert s == "-" + d && s[0] == '-' && s[1..] == d;
      DigitsValueOfDigits(-n);
      assert ParseInt(s) == Some(n);
    } else {
      var d := Digits(n);
      assert IsDigit(d[0]);
      DigitsValueOfDigits(n);
      assert ParseInt(s) == Some(n);
    }
  }
}
