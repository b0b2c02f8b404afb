/**
  JavaScript values as the handlers and models see them: the fields of a parsed
  JSON body, the values bound to SQL placeholders and the cells of a row.
 */
module Js {

  /** `null` in JSON, or nothing at all. */
  datatype Option<+T> = None | Some(value: T)

  /** A string that is given and not empty: what `if (x)` accepts of a string. */
  predicate NonEmpty(o: Option<string>)
  {
    o.Some? && o.value != ""
  }

  /** `o` when `if (o)` accepts it, no value otherwise: how `if (x) filters.k = x` fills a key. */
  function KeptIfNonEmpty(o: Option<string>): Option<string>
  {
    if NonEmpty(o) then o else None
  }

  /** The result of an awaited call: its value, or the message of the Error it threw. */
  datatype Outcome<+T> = Ok(value: T) | Threw(message: string)

  /** A JavaScript value. Numbers are reals (NaN and the infinities are not modelled);
      `Date(t)` is a `Date` object holding the instant `t`. */
  datatype Value = Undefined | Null | Bool(b: bool) | Num(x: real) | Str(s: string) | Date(t: int)

  /** JavaScript truthiness: what `if (v)` and `!v` test. */
  predicate Truthy(v: Value)
  {
    match v
    case Undefined => false
    case Null => false
    case Bool(b) => b
    case Num(x) => x != 0.0
    case Str(s) => s != ""
    case Date(_) => true
  }

  /** `a || b`: the left operand when it is truthy, otherwise the right one. */
  function Or(a: Value, b: Value): Value
  {
    if Truthy(a) then a else b
  }

  /** A destructuring default `{ x = d } = obj`: applies only when the property is `undefined`. */
  function Default(v: Value, d: Value): Value
  {
    if v == Undefined then d else v
  }

  /** `isNaN(v)`: converts `v` with `Number(...)` and tests for NaN. Whether a string
      spells a number is left to `numericText`. */
  function IsNaN(v: Value, numericText: string -> bool): bool
  {
    match v
    case Undefined => true
    case Null => false
    case Bool(_) => false
    case Num(_) => false
    case Str(s) => !numericText(s)
    case Date(_) => false
  }

  /** The two operators differ exactly on falsy values that are not `undefined`:
      `quantity || 1` turns `0`, `null` and `""` into 1, `quantity = 1` keeps them. */
  lemma OrAgreesWithDefaultOnlyOffFalsy(v: Value, d: Value)
    requires Truthy(d)
    ensures Or(v, d) == Default(v, d) <==> Truthy(v) || v == Undefined
  {
  }
}
