/**
 * JavaScript values as the commit-template code sees them: configuration objects,
 * prompt answers and JSON documents.
 *
 * Numbers are integers (floating point, NaN and infinities are not modelled).
 * An object is a map from property name to value; the order of its properties is
 * not modelled. A function value carries an identity, its `length` (the number of
 * parameters it declares before any default or rest parameter) and its source
 * text; calling it is left to a `HookRunner` supplied by the caller, since its
 * body is user code.
 */
module JsValues {
  import opened JsStrings

  datatype Value =
    | Undefined
    | Null
    | Bool(b: bool)
    | Num(n: int)
    | Str(s: string)
    | Arr(items: seq<Value>)
    | Obj(props: map<string, Value>)
    | Func(id: nat, arity: nat, source: string)

  /** Runs a user-supplied function value on its arguments and yields what it returns. */
  type HookRunner = (Value, seq<Value>) -> Value

  /** What a prompt's `validate` callback returns: `true`, or the message shown to the user. */
  datatype Verdict = Accept | Reject(reason: string)

  /** JavaScript truthiness: everything but undefined, null, false, 0 and the empty string. */
  predicate Truthy(v: Value)
  {
    match v
    case Undefined => false
    case Null => false
    case Bool(b) => b
    case Num(n) => n != 0
    case Str(s) => s != ""
    case _ => true
  }

  /** The `a || b` operator. */
  function Or(a: Value, b: Value): Value
  {
    if Truthy(a) then a else b
  }

  /** Property access `o[key]` on an object given by its own properties. */
  function Get(props: map<string, Value>, key: string): Value
  {
    if key in props then props[key] else Undefined
  }

  /** `typeof v === 'function'`. */
  predicate IsFunction(v: Value)
  {
    v.Func?
  }

  /** The text a template literal `${v}` inserts for `v` (JavaScript's `String(v)`). */
  function ToJsString(v: Value): string
  {
    match v
    case Undefined => "undefined"
    case Null => "null"
    case Bool(b) => if b then "true" else "false"
    case Num(n) => IntToString(n)
    case Str(s) => s
    case Arr(items) =>
      // Array.prototype.join(","): undefined and null elements become empty text
      Join(seq(|items|, i requires 0 <= i < |items| =>
             if items[i].Undefined? || items[i].Null? then "" else ToJsString(items[i])), ",")
    case Obj(_) => "[object Object]"
    case Func(_, _, source) => source
  }

  /**
   * `v.length` on a value that is neither undefined nor null: the size of an
   * array or string, the declared parameter count of a function, an object's own
   * `length` property; numbers and booleans have none.
   */
  function LengthOf(v: Value): (r: Value)
    ensures v.Arr? ==> r == Num(|v.items|)
    ensures v.Str? ==> r == Num(|v.s|)
    ensures v.Func? ==> r == Num(v.arity)
    ensures v.Obj? ==> r == Get(v.props, "length")
  {
    match v
    case Arr(items) => Num(|items|)
    case Str(s) => Num(|s|)
    case Func(_, arity, _) => Num(arity)
    case Obj(props) => Get(props, "length")
    case _ => Undefined
  }

  /**
   * `v > 0`: `v` is turned into a primitive (an array, object or function into
   * its text), then into a number, and `NaN` is not greater than anything.
   */
  predicate IsPositive(v: Value)
  {
    match v
    case Num(n) => n > 0
    case Bool(b) => b
    case Undefined => false
    case Null => false
    case Str(s) => PositiveNumeral(s)
    case _ => PositiveNumeral(ToJsString(v))
  }

  /**
   * The text reads as a number above zero: after trimming, an optional `+` and
   * a decimal numeral whose value is not zero. The empty text is `0`.
   */
  predicate PositiveNumeral(s: string)
  {
    var t := Trim(s);
    var digits := if t != [] && t[0] == '+' then t[1..] else t;
    digits != [] && AllDigits(digits) && DigitsValue(digits) > 0
  }

  /** Values that keep a property assigned to them: objects, arrays and functions. */
  predicate HoldsProperties(v: Value)
  {
    v.Obj? || v.Arr? || v.Func?
  }

  /**
   * Property read `v.key` on a value from a JSON document or an object literal:
   * an object's own property, undefined on anything else (arrays and strings
   * have no named own properties there).
   */
  function Prop(v: Value, key: string): Value
  {
    if v.Obj? then Get(v.props, key) else Undefined
  }

  /**
   * `target.key = v` as it shows once the value is written out as JSON: an
   * object gets the property; an array or function keeps it only in memory,
   * where JSON does not see it; a primitive ignores it (sloppy mode).
   */
  function SetProperty(target: Value, key: string, v: Value): (r: Value)
    ensures r.Obj? <==> target.Obj?
    ensures target.Obj? ==> r.props == target.props[key := v]
    ensures !target.Obj? ==> r == target
  {
    if target.Obj? then Obj(target.props[key := v]) else target
  }

  /**
   * Strict-mode `target.key = v`: assigning to a property of a primitive, null
   * or undefined throws a `TypeError` (`None`); otherwise a later read of `key`
   * gives `v` on an object and every other read is unchanged.
   */
  function AssignStrict(target: Value, key: string, v: Value): (r: Option<Value>)
    ensures r.Some? <==> HoldsProperties(target)
    ensures r.Some? ==> r.value == SetProperty(target, key, v)
    ensures r.Some? ==> forall other :: Prop(r.value, other) == if target.Obj? && other == key then v else Prop(target, other)
  {
    if HoldsProperties(target) then Some(SetProperty(target, key, v)) else None
  }

  /** A second assignment to the same property replaces the first. */
  lemma SetPropertyTwice(target: Value, key: string, a: Value, b: Value)
    ensures SetProperty(SetProperty(target, key, a), key, b) == SetProperty(target, key, b)
  {
    if target.Obj? {
      assert target.props[key := a][key := b] == target.props[key := b];
    }
  }

  /** Reading a property after an assignment: the assigned value on an object, what was there otherwise. */
  lemma PropAfterSet(target: Value, key: string, v: Value, other: string)
    ensures Prop(SetProperty(target, key, v), other) == if target.Obj? && other == key then v else Prop(target, other)
  {
  }
}
