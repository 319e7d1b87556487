/**
 * JavaScript values as the server and the client see them after JSON
 * parsing. `Undefined` stands for a property that is not there. Numbers
 * are integers in this model.
 */
module Json {
  import opened Wrappers

  datatype Value =
    | Undefined
    | Null
    | Bool(b: bool)
    | Num(n: int)
    | Str(s: string)
    | Arr(items: seq<Value>)
    | Obj(fields: map<string, Value>)

  /** JavaScript truthiness: `undefined`, `null`, `false`, `0` and `""` are falsy. */
  predicate Truthy(v: Value) {
    match v
    case Undefined => false
    case Null => false
    case Bool(b) => b
    case Num(n) => n != 0
    case Str(s) => s != ""
    case Arr(_) => true
    case Obj(_) => true
  }

  /**
   * Property read `v.key` on a value that is not null or undefined: only an
   * object has own properties of the names used in this model.
   */
  function Get(v: Value, key: string): Value {
    if v.Obj? && key in v.fields then v.fields[key] else Undefined
  }

  /** The decimal digits of a natural number, most significant first. */
  function Digits(n: nat): (s: string)
    ensures |s| >= 1
    ensures forall i :: 0 <= i < |s| ==> '0' <= s[i] <= '9'
  {
    if n < 10 then [('0' as int + n) as char]
    else Digits(n / 10) + [('0' as int + n % 10) as char]
  }

  /** `String(n)` for an integer. */
  function DecimalString(n: int): string {
    if n < 0 then "-" + Digits(-n) else Digits(n)
  }

  /** The strings joined with commas, as `Array.prototype.join` does. */
  function JoinWithCommas(parts: seq<string>): string {
    if |parts| == 0 then ""
    else if |parts| == 1 then parts[0]
    else parts[0] + "," + JoinWithCommas(parts[1..])
  }

  /**
   * `v` is, or holds as an element of arrays nested in it, an object with an
   * own `toString` member. JSON parsing can give an object such a member, and
   * its value is never a function.
   */
  predicate HoldsOwnToString(v: Value)
    decreases v
  {
    match v
    case Obj(fields) => "toString" in fields
    case Arr(items) => exists i :: 0 <= i < |items| && HoldsOwnToString(items[i])
    case _ => false
  }

  /**
   * `String(v)`, the string conversion JavaScript applies, or None when it
   * throws a TypeError. An array joins its elements with commas, writing
   * `null` and `undefined` elements as empty strings and converting the
   * others in turn. An object converts through its `toString` member: the
   * inherited one gives "[object Object]"; an own one is not callable, and
   * neither is any other method that could yield a primitive, so the
   * conversion throws.
   */
  function ToJsString(v: Value): Option<string>
    decreases v, 0
  {
    match v
    case Undefined => Some("undefined")
    case Null => Some("null")
    case Bool(b) => Some(if b then "true" else "false")
    case Num(n) => Some(DecimalString(n))
    case Str(s) => Some(s)
    case Arr(items) =>
      var parts := seq(|items|, i requires 0 <= i < |items| => ElementString(items[i]));
      if forall i :: 0 <= i < |parts| ==> parts[i].Some? then
        Some(JoinWithCommas(seq(|parts|, i requires 0 <= i < |parts| && parts[i].Some? => parts[i].value)))
      else None
    case Obj(fields) => if "toString" in fields then None else Some("[object Object]")
  }

  /** An array element as `join` writes it: `null` and `undefined` give "". */
  function ElementString(e: Value): Option<string>
    decreases e, 1
  {
    if e.Undefined? || e.Null? then Some("") else ToJsString(e)
  }

  /** The conversion throws exactly when the value holds an object with an own `toString`. */
  lemma {:induction false} ConversionThrowsIffOwnToString(v: Value)
    ensures ToJsString(v).None? <==> HoldsOwnToString(v)
    decreases v
  {
    match v
    case Arr(items) =>
      var parts := seq(|items|, i requires 0 <= i < |items| => ElementString(items[i]));
      forall i | 0 <= i < |items|
        ensures parts[i].None? <==> HoldsOwnToString(items[i])
      {
        ConversionThrowsIffOwnToString(items[i]);
      }
      assert ToJsString(v).None? <==> exists i :: 0 <= i < |parts| && parts[i].None?;
    case _ =>
  }
}
