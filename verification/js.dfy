/** The JavaScript values the handler can see in a parsed JSON request body, and
    the three language operations it applies to them: the `!` falsiness test, a
    property read, and conversion to text inside a template literal, which can
    throw. */
module Js {
  import Decimal

  /** The largest integer a JavaScript number holds exactly, 2^53 - 1. */
  const MaxSafeInteger: int := 0x1F_FFFF_FFFF_FFFF

  /** The integers a JavaScript number represents exactly. */
  type SafeInteger = n: int | -MaxSafeInteger <= n <= MaxSafeInteger

  /** A JSON value as `express.json()` hands it to the handler. Numbers are safe
      integers; objects map each key to the last value given for it. */
  datatype Value =
    | Undefined
    | Null
    | Bool(b: bool)
    | Num(n: SafeInteger)
    | Str(s: string)
    | Arr(items: seq<Value>)
    | Obj(fields: map<string, Value>)

  /** A thrown JavaScript error: one raised by an external call (identified by
      an opaque code), or a TypeError raised by the language itself. */
  datatype Error = Raised(code: nat) | TypeError

  /** A value, or the error thrown while computing it. */
  datatype Result<T> = Ok(value: T) | Err(error: Error)

  /** `null` and `undefined`: reading a property of either throws a TypeError. */
  predicate IsNullish(v: Value) {
    v.Undefined? || v.Null?
  }

  /** The five falsy values a JSON document can produce. */
  const FalsyValues: set<Value> := {Undefined, Null, Bool(false), Num(0), Str("")}

  /** `!v` is false. */
  predicate Truthy(v: Value)
    ensures Truthy(v) <==> v !in FalsyValues
  {
    match v
    case Undefined => false
    case Null => false
    case Bool(b) => b
    case Num(n) => n != 0
    case Str(s) => s != ""
    case Arr(_) => true
    case Obj(_) => true
  }

  /** `v[key]` (also destructuring `const { key } = v`) for a non-index,
      non-inherited key such as `account_id` or `file_id`: an own field of an
      object, `undefined` for every other non-nullish value. */
  function Get(v: Value, key: string): Value
    requires !IsNullish(v)
  {
    match v
    case Obj(fields) => if key in fields then fields[key] else Undefined
    case _ => Undefined
  }

  /** `${v}` does not throw. An object parsed from JSON that has its own
      `toString` key has no callable `toString`, and its inherited `valueOf`
      returns the object itself, so converting it throws; an array converts
      its elements, so it throws when one of them does, at any depth. */
  predicate Printable(v: Value)
    decreases v
  {
    match v
    case Obj(fields) => "toString" !in fields
    case Arr(items) => forall i :: 0 <= i < |items| ==> Printable(items[i])
    case _ => true
  }

  /** Evaluating `${v}`. An array joins its elements with commas, an element
      that is null or undefined contributing nothing; a plain object prints as
      "[object Object]"; an object with its own `toString` key throws. */
  function TemplateString(v: Value): (r: Result<string>)
    ensures r.Ok? <==> Printable(v)
    ensures r.Err? ==> r.error == TypeError
    ensures v.Num? && v.n >= 0 ==>
      r.Ok? && Decimal.IsCanonical(r.value) && Decimal.ParseDigits(r.value) == v.n
    ensures v.Num? && v.n < 0 ==>
      && r.Ok? && |r.value| > 1 && r.value[0] == '-'
      && Decimal.IsCanonical(r.value[1..]) && Decimal.ParseDigits(r.value[1..]) == -v.n
    ensures v.Str? ==> r == Ok(v.s)
    decreases v
  {
    match v
    case Undefined => Ok("undefined")
    case Null => Ok("null")
    case Bool(b) => Ok(if b then "true" else "false")
    case Num(n) => Ok(Decimal.IntToString(n))
    case Str(s) => Ok(s)
    case Arr(items) => Join(items)
    case Obj(fields) => if "toString" in fields then Err(TypeError) else Ok("[object Object]")
  }

  /** `items.join(",")`: the elements in order, stopping at the first that
      throws. */
  function Join(items: seq<Value>): (r: Result<string>)
    ensures r.Ok? <==> forall i :: 0 <= i < |items| ==> Printable(items[i])
    ensures r.Err? ==> r.error == TypeError
    decreases items
  {
    if |items| == 0 then Ok("")
    else
      var first := if IsNullish(items[0]) then Ok("") else TemplateString(items[0]);
      if first.Err? then first
      else if |items| == 1 then first
      else match Join(items[1..])
        case Err(e) => Err(e)
        case Ok(rest) =>
          assert forall i :: 1 <= i < |items| ==> items[i] == items[1..][i - 1];
          Ok(first.value + "," + rest)
  }

  /** The text of a value that converts without throwing. */
  function Text(v: Value): string
    requires Printable(v)
  {
    TemplateString(v).value
  }

  /** Number conversion loses nothing: two numbers print alike only when they
      are the same number. */
  lemma NumbersPrintDistinctly(a: SafeInteger, b: SafeInteger)
    ensures Text(Num(a)) == Text(Num(b)) <==> a == b
  {
  }

  /** Conversions that throw, and one that does not. */
  lemma ConversionExamples()
    ensures TemplateString(Obj(map["toString" := Num(0)])) == Err(TypeError)
    ensures TemplateString(Arr([Num(1), Arr([Obj(map["toString" := Null])])])) == Err(TypeError)
    ensures TemplateString(Obj(map["valueOf" := Num(0)])) == Ok("[object Object]")
    ensures TemplateString(Arr([Null, Num(7), Arr([Str("a"), Undefined])])) == Ok(",7,a,")
  {
    assert Decimal.IntToString(7) == "7";
    var inner := [Str("a"), Undefined];
    assert inner[1..] == [Undefined];
    assert Join([Undefined]) == Ok("");
    assert "a" + "," + "" == "a,";
    assert Join(inner) == Ok("a,");
    var outer := [Null, Num(7), Arr(inner)];
    assert outer[1..][1..] == [Arr(inner)];
    assert Join(outer[1..][1..]) == Ok("a,");
    assert "7" + "," + "a," == "7,a,";
    assert Join(outer[1..]) == Ok("7,a,");
    assert "" + "," + "7,a," == ",7,a,";
  }
}
