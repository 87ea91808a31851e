/** The JavaScript values that the record-handling snippets pass around.
    A plain object is a map from property names to values; numbers stored in
    records are integral (ids, ages, timestamps). */
module JsValues {
  import Decimal

  datatype Value =
    | Undefined
    | Null
    | Bool(b: bool)
    | Num(n: int)
    | Str(s: string)
    | Obj(fields: map<string, Value>)

  /** A plain object: its own enumerable properties. */
  type Record = map<string, Value>

  /** Property read `r[key]`: an absent property reads as `undefined`. */
  function Get(r: Record, key: string): (v: Value)
    ensures key !in r ==> v == Undefined
    ensures key in r ==> v == r[key]
  {
    if key in r then r[key] else Undefined
  }

  /** The properties that `...v` contributes to an object literal: an
      object's own properties; nothing for undefined, null, booleans and
      numbers. */
  function OwnFields(v: Value): Record {
    if v.Obj? then v.fields else map[]
  }

  /** Object literal `{...base, ...over}`: every property of `over`, and the
      properties of `base` that `over` does not redefine. */
  function Spread(base: Record, over: Record): (r: Record)
    ensures r.Keys == base.Keys + over.Keys
    ensures forall k :: k in over ==> r[k] == over[k]
    ensures forall k :: k in base && k !in over ==> r[k] == base[k]
  {
    base + over
  }

  /** The text a template literal `${v}` inserts for `v`. */
  function TemplateText(v: Value): (text: string)
    ensures v.Str? ==> text == v.s
    ensures v.Num? ==> |text| > 0
    ensures v.Undefined? ==> text == "undefined"
    ensures v.Null? ==> text == "null"
  {
    match v
    case Undefined => "undefined"
    case Null => "null"
    case Bool(b) => if b then "true" else "false"
    case Num(n) => Decimal.IntToString(n)
    case Str(s) => s
    case Obj(_) => "[object Object]"
  }

  /** A number is inserted as decimal text that reads back as the number. */
  lemma TemplateTextOfNumber(n: int)
    ensures Decimal.IsDecimalOf(TemplateText(Num(n)), n)
  {
    Decimal.IntToStringReadsBack(n);
  }
}
