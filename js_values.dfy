/** The JSON-shaped values that travel as event arguments, and the few pieces
    of JavaScript semantics the client applies to them: truthiness, loose
    comparison with 0, string conversion and property access. Numbers are
    integers here. */
module JsValues {
  import opened Decimal

  datatype Value =
    | Undefined
    | Null
    | Bool(b: bool)
    | Num(n: int)
    | Str(s: string)
    | Obj(fields: map<string, Value>)

  datatype Option<T> = None | Some(value: T)

  predicate IsPrefix(p: string, s: string) {
    |p| <= |s| && s[..|p|] == p
  }

  predicate IsSuffix(p: string, s: string) {
    |p| <= |s| && s[|s| - |p|..] == p
  }

  /** Positional argument `i` of a handler call; missing arguments are `undefined`. */
  function Arg(args: seq<Value>, i: nat): Value {
    if i < |args| then args[i] else Undefined
  }

  /** The truth value JavaScript gives `v` in an `if` or `!`. */
  predicate Truthy(v: Value) {
    match v
    case Undefined => false
    case Null => false
    case Bool(b) => b
    case Num(n) => n != 0
    case Str(s) => s != ""
    case Obj(_) => true
  }

  /** `v == 0` with JavaScript's loose equality, for the values modelled:
      numbers, booleans, and strings that are empty or all decimal digits. */
  predicate LooselyZero(v: Value) {
    match v
    case Num(n) => n == 0
    case Bool(b) => !b
    case Str(s) => s == "" || (AllDigits(s) && ParseNat(s) == 0)
    case _ => false
  }

  /** `String(v)`, which is what `+=` and `+` on a string apply to `v`. */
  function ToJsString(v: Value): string {
    match v
    case Undefined => "undefined"
    case Null => "null"
    case Bool(b) => if b then "true" else "false"
    case Num(n) => IntToString(n)
    case Str(s) => s
    case Obj(_) => "[object Object]"
  }

  /** Reading property `key` of `v`: `None` is the TypeError JavaScript throws
      for `null` and `undefined`; other primitives have none of the keys the
      client reads. */
  function Prop(v: Value, key: string): (r: Option<Value>)
    ensures r.None? <==> (v == Undefined || v == Null)
    ensures v.Obj? && key in v.fields ==> r == Some(v.fields[key])
  {
    match v
    case Undefined => None
    case Null => None
    case Obj(m) => Some(if key in m then m[key] else Undefined)
    case _ => Some(Undefined)
  }

  lemma LooselyZeroExamples()
    ensures LooselyZero(Num(0)) && LooselyZero(Str("0")) && LooselyZero(Str("00"))
    ensures !LooselyZero(Num(80)) && !LooselyZero(Str("80")) && !LooselyZero(Null)
  {
    assert ParseNat("0") == 0;
    assert "00"[..1] == "0";
    assert ParseNat("00") == 0;
    assert "80"[..1] == "8";
    assert ParseNat("80") == 80;
  }
}
