/** JSON request values and the handful of JavaScript operators the route checks apply to them:
    truthiness, `isNaN`, `<`, property access, strict equality and `String(...)`. */
module JsValue {
  import opened Wrappers
  import opened JsText
  import opened JsNumber

  /** A value as it reaches a handler: a parsed JSON body field, a route parameter (always `Str`),
      or `Undefined` for an absent field. Arrays and objects compare by reference in JavaScript,
      and every one a request carries is a distinct object. */
  datatype Value =
    | Undefined
    | Null
    | Bool(b: bool)
    | Num(n: Number)
    | Str(s: string)
    | Arr(elems: seq<Value>)
    | Obj(fields: map<string, Value>)

  /** `!!v`. */
  predicate Truthy(v: Value) {
    match v
    case Undefined => false
    case Null => false
    case Bool(b) => b
    case Num(n) => !(n.NaN? || n == Finite(0.0))
    case Str(s) => s != ""
    case Arr(_) => true
    case Obj(_) => true
  }

  /** `a || b`. */
  function Or(a: Value, b: Value): (r: Value)
    ensures Truthy(a) ==> r == a
    ensures !Truthy(a) ==> r == b
  {
    if Truthy(a) then a else b
  }

  /** `Number(v)` (ECMA-262 section 7.1.4): an array goes through its string form, which for a
      single element is that element's string form and is "" for `null`/`undefined`. */
  function ToNumber(v: Value): Number {
    match v
    case Undefined => NaN
    case Null => Finite(0.0)
    case Bool(b) => Finite(if b then 1.0 else 0.0)
    case Num(n) => n
    case Str(s) => StringToNumber(s)
    case Obj(_) => NaN
    case Arr(es) =>
      if |es| == 0 then Finite(0.0)
      else if |es| > 1 then NaN
      else
        match es[0]
        case Undefined => Finite(0.0)
        case Null => Finite(0.0)
        case Bool(_) => NaN
        case _ => ToNumber(es[0])
  }

  /** The global `isNaN(v)`. */
  predicate IsNaN(v: Value) {
    ToNumber(v).NaN?
  }

  /** `v < c` for a numeric literal `c`: the value is converted to a number and NaN compares false. */
  predicate LessThan(v: Value, c: real) {
    match ToNumber(v)
    case Finite(r) => r < c
    case NegInf => true
    case _ => false
  }

  /** `v.key`: `None` is the TypeError thrown when `v` is `null` or `undefined`. Strings and arrays
      answer `length`; every other missing property reads as `undefined`. */
  function Prop(v: Value, key: string): (r: Option<Value>)
    ensures r.None? <==> v.Undefined? || v.Null?
    ensures v.Obj? ==> r == Some(if key in v.fields then v.fields[key] else Undefined)
  {
    match v
    case Undefined => None
    case Null => None
    case Obj(fields) => Some(if key in fields then fields[key] else Undefined)
    case Str(s) => Some(if key == "length" then Num(Finite(|s| as real)) else Undefined)
    case Arr(es) => Some(if key == "length" then Num(Finite(|es| as real)) else Undefined)
    case _ => Some(Undefined)
  }

  /** The TypeError of reading `key` from `null` or `undefined`. */
  function PropError(v: Value, key: string): string {
    "Cannot read properties of " + (if v.Null? then "null" else "undefined") + " (reading '" + key + "')"
  }

  /** A field of a request body, `undefined` when absent. */
  function Field(body: map<string, Value>, key: string): (r: Value)
    ensures key !in body ==> r.Undefined?
    ensures key in body ==> r == body[key]
  {
    if key in body then body[key] else Undefined
  }

  /** `a === b`. */
  predicate StrictEquals(a: Value, b: Value) {
    match (a, b)
    case (Num(x), Num(y)) => x == y && !x.NaN?
    case (Arr(_), _) => false
    case (Obj(_), _) => false
    case _ => a == b
  }

  /** Joins the parts with the separator, or `None` when some part has no text. */
  function JoinTexts(parts: seq<Option<string>>, sep: string): (r: Option<string>)
    ensures r.Some? <==> forall i :: 0 <= i < |parts| ==> parts[i].Some?
  {
    if |parts| == 0 then Some("")
    else if |parts| == 1 then parts[0]
    else
      var tail := JoinTexts(parts[1..], sep);
      assert (forall i :: 0 <= i < |parts| ==> parts[i].Some?) ==>
        forall i :: 0 <= i < |parts[1..]| ==> parts[1..][i].Some?;
      if parts[0].Some? && tail.Some? then Some(parts[0].value + sep + tail.value) else None
  }

  /** 10^21: from this magnitude on, `String(...)` prints a number in exponent form. */
  const ExponentFormBound: nat := 1_000_000_000_000_000_000_000

  /** `r` has no fractional part. */
  predicate IsIntegral(r: real) {
    r == r.Floor as real
  }

  /** `String(v)` (ECMA-262 section 7.1.17). `None` marks the numbers whose text this model does
      not produce: non-integral ones and those of magnitude 10^21 or more, which print in
      exponent form. */
  function ToText(v: Value): Option<string> {
    match v
    case Undefined => Some("undefined")
    case Null => Some("null")
    case Bool(b) => Some(if b then "true" else "false")
    case Str(s) => Some(s)
    case Obj(_) => Some("[object Object]")
    case Num(n) =>
      (match n
       case NaN => Some("NaN")
       case PosInf => Some("Infinity")
       case NegInf => Some("-Infinity")
       case Finite(r) =>
         if IsIntegral(r) && -(ExponentFormBound as real) < r < ExponentFormBound as real then
           Some(IntToString(r.Floor))
         else
           None)
    case Arr(es) =>
      JoinTexts(seq(|es|, i requires 0 <= i < |es| =>
                      if es[i].Undefined? || es[i].Null? then Some("") else ToText(es[i])), ",")
  }

  /** How a module reaches a function it imports: as the code is wired, where the import names a
      function the other module does not export, so the name is `undefined` and every call
      throws a TypeError; or as evidently intended, where the function exists. */
  datatype Wiring = AsWritten | Intended

  /** The TypeError of calling the `undefined` bound to `name`. */
  function NotAFunction(name: string): string {
    name + " is not a function"
  }

  // ---------------------------------------------------------------- properties

  /** A route parameter made of decimal digits is a number: it passes `isNaN`. */
  lemma DigitParamIsNumber(s: string)
    requires |s| > 0 && AllDigits(s)
    ensures ToNumber(Str(s)) == Finite(DigitsValue(s) as real)
    ensures !IsNaN(Str(s)) && Truthy(Str(s))
  {
    DigitStringValue(s);
  }

  /** A parameter with no digit at all that is not blank or `Infinity` is NaN. */
  lemma NoDigitParamIsNaN(s: string)
    requires NoNumeral(s)
    ensures IsNaN(Str(s))
  {
    NoDigitIsNaN(s);
    assert ToNumber(Str(s)) == NaN;
  }

  /** A natural number printed by `String(...)` reads back as the same number. */
  lemma NumberTextRoundTrip(n: nat)
    requires n < ExponentFormBound
    ensures ToText(Num(Finite(n as real))) == Some(NatToString(n))
    ensures ToNumber(Str(NatToString(n))) == Finite(n as real)
  {
    NumberText(n);
    NatToStringRoundTrip(n);
  }

  lemma NumberText(n: nat)
    requires n < ExponentFormBound
    ensures ToText(Num(Finite(n as real))) == Some(NatToString(n))
  {
    var r := n as real;
    assert r.Floor == n;
    assert IsIntegral(r);
    assert -(ExponentFormBound as real) < r < ExponentFormBound as real;
    assert IntToString(n) == NatToString(n);
  }
}
