/**
 * Request and file values as JavaScript and Python see them after JSON
 * parsing, with the coercions the adapters apply to them: truthiness,
 * `Number(x)`/`isNaN(x)`, `String(x)` and Python `str(x)`.
 */
module Json {
  import opened Wrappers
  import opened Strings

  datatype Value =
    | Undefined
    | Null
    | Bool(b: bool)
    | Num(n: int)
    | Str(s: string)
    | Arr(items: seq<Value>)
    | Obj(fields: map<string, Value>)

  /** JavaScript ToBoolean: `undefined`, `null`, `false`, `0` and `""` are falsy. */
  predicate Truthy(v: Value) {
    match v
    case Undefined => false
    case Null => false
    case Bool(b) => b
    case Num(n) => n != 0
    case Str(s) => s != ""
    case Arr(_) => true
    case Obj(_) => true
  }

  /** Python `bool(v)`: also empty lists and empty dicts are falsy. */
  predicate PyTruthy(v: Value) {
    match v
    case Undefined => false
    case Null => false
    case Bool(b) => b
    case Num(n) => n != 0
    case Str(s) => s != ""
    case Arr(items) => items != []
    case Obj(fields) => fields != map[]
  }

  /** `obj.key`: the field of an object, undefined for a missing key or a non-object. */
  function Field(v: Value, key: string): Value {
    if v.Obj? && key in v.fields then v.fields[key] else Undefined
  }

  /** JavaScript `String(v)` (arrays render as their comma-joined elements). */
  function JsString(v: Value): string
    decreases v
  {
    match v
    case Undefined => "undefined"
    case Null => "null"
    case Bool(b) => if b then "true" else "false"
    case Num(n) => IntToDecimal(n)
    case Str(s) => s
    case Arr(items) =>
      Join(seq(|items|, i requires 0 <= i < |items| =>
        if items[i].Undefined? || items[i].Null? then "" else JsString(items[i])), ",")
    case Obj(_) => "[object Object]"
  }

  /** The value of a hexadecimal digit of either case; None for any other character. */
  function HexDigitValue(c: char): (d: Option<nat>)
    ensures d.Some? ==> d.value < 16
    ensures IsDigit(c) ==> d == Some(DigitValue(c))
  {
    if '0' <= c <= '9' then Some((c as int) - ('0' as int))
    else if 'a' <= c <= 'f' then Some((c as int) - ('a' as int) + 10)
    else if 'A' <= c <= 'F' then Some((c as int) - ('A' as int) + 10)
    else None
  }

  predicate AllRadixDigits(s: string, radix: nat) {
    forall i :: 0 <= i < |s| ==> HexDigitValue(s[i]).Some? && HexDigitValue(s[i]).value < radix
  }

  /** The value of a digit string in base `radix`, most significant digit first. */
  function RadixValue(s: string, radix: nat): nat
    requires AllRadixDigits(s, radix)
  {
    if s == [] then 0 else RadixValue(s[..|s| - 1], radix) * radix + HexDigitValue(s[|s| - 1]).value
  }

  /** Read in base ten, a decimal digit string has its decimal value. */
  lemma {:induction false} RadixTenIsDecimal(s: string)
    requires AllDigits(s)
    ensures AllRadixDigits(s, 10)
    ensures RadixValue(s, 10) == DecimalValue(s)
  {
    if s != [] {
      RadixTenIsDecimal(s[..|s| - 1]);
    }
  }

  /** The base a `0x`, `0o` or `0b` prefix announces, in either case. */
  function RadixOfPrefix(c: char): (r: Option<nat>)
    ensures r.Some? ==> r.value in {2, 8, 16}
  {
    if c == 'x' || c == 'X' then Some(16)
    else if c == 'o' || c == 'O' then Some(8)
    else if c == 'b' || c == 'B' then Some(2)
    else None
  }

  /** `0x1F`, `0o17`, `0b101`: a prefix and at least one digit of its base, no sign. */
  predicate RadixLiteral(t: string) {
    |t| > 2 && t[0] == '0' && RadixOfPrefix(t[1]).Some? && AllRadixDigits(t[2..], RadixOfPrefix(t[1]).value)
  }

  /** An optional sign followed by decimal digits. */
  predicate SignedDecimal(t: string) {
    IsDigitString(t) || (|t| > 1 && (t[0] == '+' || t[0] == '-') && IsDigitString(t[1..]))
  }

  /**
   * JavaScript StringToNumber on trimmed integer text: the empty string is 0,
   * an optional sign may precede decimal digits, and an unsigned `0x`, `0o`
   * or `0b` prefix reads the digits in base 16, 8 or 2. Text with a fraction
   * or an exponent, and "Infinity", read as NaN (None) here: values are
   * integers in this model.
   */
  function NumberOfText(t: string): (r: Option<int>)
    ensures t == [] ==> r == Some(0)
    ensures IsDigitString(t) ==> r == Some(DecimalValue(t))
    ensures |t| > 1 && t[0] == '+' && IsDigitString(t[1..]) ==> r == Some(DecimalValue(t[1..]))
    ensures |t| > 1 && t[0] == '-' && IsDigitString(t[1..]) ==> r == Some(-(DecimalValue(t[1..]) as int))
    ensures RadixLiteral(t) ==> r == Some(RadixValue(t[2..], RadixOfPrefix(t[1]).value))
    ensures r.Some? <==> t == [] || SignedDecimal(t) || RadixLiteral(t)
  {
    if t == [] then Some(0)
    else if IsDigitString(t) then Some(DecimalValue(t))
    else if t[0] == '+' && IsDigitString(t[1..]) then Some(DecimalValue(t[1..]))
    else if t[0] == '-' && IsDigitString(t[1..]) then Some(-(DecimalValue(t[1..]) as int))
    else if RadixLiteral(t) then Some(RadixValue(t[2..], RadixOfPrefix(t[1]).value))
    else None
  }

  /** `Number(s)` on text: surrounding white space is ignored, so blank text is 0. */
  function NumberOfString(s: string): (r: Option<int>)
    ensures AllWhitespace(s) ==> r == Some(0)
    ensures r.Some? <==> AllWhitespace(s) || SignedDecimal(Trim(s)) || RadixLiteral(Trim(s))
  {
    NumberOfText(Trim(s))
  }

  /** JavaScript `Number(v)`; None stands for NaN. */
  function ToNumber(v: Value): Option<int> {
    match v
    case Undefined => None
    case Null => Some(0)
    case Bool(b) => Some(if b then 1 else 0)
    case Num(n) => Some(n)
    case Str(s) => NumberOfString(s)
    case Arr(_) => NumberOfString(JsString(v))
    case Obj(_) => None
  }

  /** JavaScript `isNaN(v)`. */
  predicate IsNaN(v: Value) {
    ToNumber(v).None?
  }

  /** `Number(String(n)) === n`: the decimal rendering of an integer reads back as that integer. */
  lemma NumberOfDecimal(n: int)
    ensures NumberOfString(IntToDecimal(n)) == Some(n)
    ensures ToNumber(Str(JsString(Num(n)))) == Some(n)
  {
    DecimalNoEdge(n);
    TrimNoEdge(IntToDecimal(n));
    DecimalText(n);
  }

  /** A rendered integer starts with '-' or a digit and ends with a digit, so trimming keeps it. */
  lemma DecimalNoEdge(n: int)
    ensures NoEdgeSpace(IntToDecimal(n))
  {
    var digits := NatToDecimal(if n < 0 then -n else n);
    var t := IntToDecimal(n);
    assert t[|t| - 1] == digits[|digits| - 1];
    assert IsDigit(t[|t| - 1]);
    assert t[0] == '-' || IsDigit(t[0]);
  }

  /** The rendered integer is a signed decimal whose value is the integer. */
  lemma DecimalText(n: int)
    ensures NumberOfText(IntToDecimal(n)) == Some(n)
  {
    var m: nat := if n < 0 then -n else n;
    DecimalRoundTrip(m);
    if n < 0 {
      var t := "-" + NatToDecimal(m);
      assert t[1..] == NatToDecimal(m);
      assert !IsDigitString(t) by { assert !IsDigit(t[0]); }
    }
  }

  /** `Number("0x10")` is 16. */
  lemma HexExample()
    ensures NumberOfText("0x10") == Some(16)
  {
    var t := "0x10";
    assert !IsDigit(t[1]);
    assert t[2..] == "10";
    assert RadixValue("10", 16) == 16 by {
      assert "10"[..1] == "1";
      assert "1"[..0] == "";
    }
  }

  /** `Number("0b101")` is 5. */
  lemma BinaryExample()
    ensures NumberOfText("0b101") == Some(5)
  {
    var t := "0b101";
    assert !IsDigit(t[1]);
    assert t[2..] == "101";
    assert RadixValue("101", 2) == 5 by {
      assert "101"[..2] == "10";
      assert "10"[..1] == "1";
      assert "1"[..0] == "";
    }
  }

  /** A sign is not allowed before a base prefix: `Number("-0x10")` is NaN. */
  lemma SignedRadixIsNaN()
    ensures NumberOfText("-0x10") == None
  {
    var t := "-0x10";
    assert !IsDigit(t[0]) && !IsDigit(t[1..][1]);
    assert t[0] != '0';
  }

  /** Python `str(v)` for the scalar values a JSON request carries. */
  function PyStr(v: Value): string {
    match v
    case Undefined => "None"
    case Null => "None"
    case Bool(b) => if b then "True" else "False"
    case Num(n) => IntToDecimal(n)
    case Str(s) => s
    case Arr(_) => "[...]"
    case Obj(_) => "{...}"
  }
}
