/** The values `response.json()` yields, and how Python's str() renders them. */
module Json {

  /** A decoded JSON value. An object is a dict from string keys; floats are not modelled. */
  datatype Value =
    | Null
    | Bool(b: bool)
    | Int(i: int)
    | Str(s: string)
    | Arr(items: seq<Value>)
    | Obj(fields: map<string, Value>)

  /** `sub` occurs in `s` starting at index `i`. */
  predicate OccursAt(s: string, sub: string, i: int) {
    0 <= i <= |s| - |sub| && s[i..i + |sub|] == sub
  }

  /** Python's `sub in s` on strings: `sub` occurs in `s` as a contiguous substring. */
  predicate Contains(s: string, sub: string) {
    exists i | 0 <= i <= |s| - |sub| :: OccursAt(s, sub, i)
  }

  function DigitChar(d: nat): (c: char)
    requires d < 10
    ensures '0' <= c <= '9' && c as int - '0' as int == d
  {
    ('0' as int + d) as char
  }

  /** Every character of `s` is a decimal digit. */
  predicate AllDigits(s: string) {
    forall k :: 0 <= k < |s| ==> '0' <= s[k] <= '9'
  }

  /** The number a string of decimal digits denotes, most significant first. */
  function DigitsValue(s: string): nat
    requires AllDigits(s)
  {
    if s == [] then 0 else DigitsValue(s[..|s| - 1]) * 10 + (s[|s| - 1] as int - '0' as int)
  }

  /** Decimal digits of `n`, most significant first, without leading zeros. */
  function Digits(n: nat): (r: string)
    ensures |r| > 0 && AllDigits(r)
    ensures DigitsValue(r) == n
    ensures (r[0] == '0') <==> n == 0
  {
    if n < 10 then [DigitChar(n)]
    else
      var r := Digits(n / 10) + [DigitChar(n % 10)];
      assert r[..|r| - 1] == Digits(n / 10);
      r
  }

  /** Python's str() of an int: an optional minus sign, then the digits of the magnitude. */
  function IntText(i: int): (r: string)
    ensures |r| > 0
    ensures (r[0] == '-') <==> i < 0
    ensures i >= 0 ==> AllDigits(r) && DigitsValue(r) == i
    ensures i < 0 ==> AllDigits(r[1..]) && DigitsValue(r[1..]) == -i
    ensures r[0] == '0' ==> r == "0"
    ensures i < 0 ==> |r| > 1 && r[1] != '0'
  {
    if i < 0 then "-" + Digits(-i) else Digits(i)
  }

  /** Different ints print differently. */
  lemma IntTextInjective(i: int, j: int)
    requires IntText(i) == IntText(j)
    ensures i == j
  {
    var r := IntText(i);
    if i < 0 {
      assert DigitsValue(r[1..]) == -i == -j;
    } else {
      assert DigitsValue(r) == i == j;
    }
  }

  /** The name Python's `type(v).__name__` gives a decoded JSON value. */
  function TypeName(v: Value): string {
    match v
    case Null => "NoneType"
    case Bool(_) => "bool"
    case Int(_) => "int"
    case Str(_) => "str"
    case Arr(_) => "list"
    case Obj(_) => "dict"
  }

  /**
   * Python's str() of a decoded value, as an f-string interpolates it.
   * Arrays and objects are rendered by a fixed placeholder (their repr is not modelled).
   */
  function PyStr(v: Value): (r: string)
    ensures v.Str? ==> r == v.s
    ensures v.Int? ==> r == IntText(v.i)
    ensures v.Null? ==> r == "None"
    ensures v.Bool? ==> r == if v.b then "True" else "False"
  {
    match v
    case Null => "None"
    case Bool(b) => if b then "True" else "False"
    case Int(i) => IntText(i)
    case Str(s) => s
    case Arr(_) => "[...]"
    case Obj(_) => "{...}"
  }

  /** An int name and a string name can print the same: `1` and `"1"`. */
  lemma PyStrConflatesIntAndString()
    ensures PyStr(Int(1)) == PyStr(Str("1"))
  {
    assert IntText(1) == Digits(1) == ['1'];
  }
}
