/** The few JavaScript value semantics the client code relies on: the values a
    JSON body or an argument can hold, truthiness (`!x`, `x || y`), member
    access `x.data`, and the string conversion a template literal applies. */
module Js {

  datatype Option<+T> = None | Some(value: T)

  /** The largest integer a double holds exactly together with all smaller
      ones (`Number.MAX_SAFE_INTEGER`, 2^53 - 1). */
  const MaxSafeInteger: int := 0x1F_FFFF_FFFF_FFFF

  /** The safe integers: those a JavaScript number prints in plain decimal
      notation, digit for digit. */
  type SafeInt = n: int | -MaxSafeInteger <= n <= MaxSafeInteger

  /** A JavaScript value as it can appear in a decoded JSON body or as an
      argument. Numbers are limited to the safe integers. */
  datatype Value =
    | Undefined
    | Null
    | Bool(b: bool)
    | Num(n: SafeInt)
    | Str(s: string)
    | Arr(items: seq<Value>)
    | Obj(fields: map<string, Value>)

  /** ToBoolean: what `if (x)`, `!x` and `x || y` test. */
  predicate Truthy(v: Value)
  {
    match v
    case Undefined => false
    case Null => false
    case Bool(b) => b
    case Num(n) => n != 0
    case Str(s) => s != ""
    case Arr(_) => true
    case Obj(_) => true
  }

  /** `x || y` */
  function Or(x: Value, y: Value): (r: Value)
    ensures r == x || r == y
    ensures Truthy(r) <==> Truthy(x) || Truthy(y)
  {
    if Truthy(x) then x else y
  }

  /** The member access `v.data`. `None` stands for the TypeError thrown when
      `v` is `undefined` or `null`; an object without the key, and every other
      primitive, yields `undefined` ("data" is not an inherited property of
      any built-in prototype). */
  function DataMember(v: Value): (r: Option<Value>)
    ensures r.None? <==> (v.Undefined? || v.Null?)
    ensures v.Obj? && "data" in v.fields ==> r == Some(v.fields["data"])
    ensures r.Some? && !(v.Obj? && "data" in v.fields) ==> r == Some(Undefined)
  {
    match v
    case Undefined => None
    case Null => None
    case Obj(m) => if "data" in m then Some(m["data"]) else Some(Undefined)
    case _ => Some(Undefined)
  }

  predicate IsDigit(c: char)
  {
    '0' <= c <= '9'
  }

  function DigitChar(d: nat): (c: char)
    requires d < 10
    ensures IsDigit(c) && (c as int) - ('0' as int) == d
  {
    ('0' as int + d) as char
  }

  /** Decimal notation of a natural number, as `String(n)` prints it. */
  function NatToDecimal(n: nat): (r: string)
    ensures |r| >= 1
    ensures forall i | 0 <= i < |r| :: IsDigit(r[i])
    ensures r[0] == '0' ==> n == 0
    decreases n
  {
    if n < 10 then [DigitChar(n)] else NatToDecimal(n / 10) + [DigitChar(n % 10)]
  }

  /** The number a string of decimal digits denotes; the inverse of NatToDecimal. */
  function DecimalValue(s: string): (n: nat)
    requires forall i | 0 <= i < |s| :: IsDigit(s[i])
  {
    if s == [] then 0
    else
      assert IsDigit(s[|s| - 1]);
      10 * DecimalValue(s[..|s| - 1]) + ((s[|s| - 1] as int) - ('0' as int))
  }

  lemma {:induction false} DecimalRoundTrip(n: nat)
    ensures DecimalValue(NatToDecimal(n)) == n
    decreases n
  {
    if n >= 10 {
      var r := NatToDecimal(n);
      assert r[..|r| - 1] == NatToDecimal(n / 10);
      DecimalRoundTrip(n / 10);
    }
  }

  /** `String(n)` for a safe integer: a minus sign for a negative number,
      then the digits of its magnitude, which read back to that magnitude. */
  function IntToDecimal(n: int): (r: string)
    ensures |r| >= 1
    ensures (r[0] == '-') <==> n < 0
    ensures var digits := if n < 0 then r[1..] else r;
      && (forall i | 0 <= i < |digits| :: IsDigit(digits[i]))
      && DecimalValue(digits) == (if n < 0 then -n else n)
  {
    var magnitude := if n < 0 then -n else n;
    DecimalRoundTrip(magnitude);
    if n < 0 then "-" + NatToDecimal(magnitude) else NatToDecimal(magnitude)
  }

  /** The string a template literal `${v}` substitutes for `v` (ToString).
      Array elements are joined with "," and `undefined`/`null` elements become
      empty, as `Array.prototype.join` does; a plain object prints as
      "[object Object]". */
  function TemplateString(v: Value): (r: string)
    ensures v.Str? ==> r == v.s
    ensures v.Undefined? ==> r == "undefined"
    ensures v.Null? ==> r == "null"
    ensures v.Num? ==> (|r| >= 1 && (r[0] == '-' <==> v.n < 0))
    ensures v.Num? && v.n >= 0 ==>
      (forall i | 0 <= i < |r| :: IsDigit(r[i])) && DecimalValue(r) == v.n
    decreases v, 1
  {
    match v
    case Undefined => "undefined"
    case Null => "null"
    case Bool(b) => if b then "true" else "false"
    case Num(n) => IntToDecimal(n)
    case Str(s) => s
    case Arr(items) => Join(v, items)
    case Obj(_) => "[object Object]"
  }

  /** `items.join(",")` for the items of the array `owner`. */
  function Join(owner: Value, items: seq<Value>): (r: string)
    requires owner.Arr? && items <= owner.items
    decreases owner, 0, |items|
  {
    if items == [] then ""
    else
      var init := Join(owner, items[..|items| - 1]);
      var last := items[|items| - 1];
      assert last in owner.items;
      var text := if last.Undefined? || last.Null? then "" else TemplateString(last);
      if |items| == 1 then text else init + "," + text
  }
}
