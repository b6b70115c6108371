/**
 * The small part of JavaScript's value model that bill records use:
 * a bill is a plain object, that is a finite map from property names
 * to values, and reading a property that is not there yields `undefined`.
 */
module JsValues {

  /** A property value: `undefined`, a string or an (integral) number. */
  datatype Value = Undefined | Str(s: string) | Num(n: int)

  /** A plain object, by its own properties. */
  type Record = map<string, Value>

  /** Property access `o[k]`. */
  function Get(o: Record, k: string): (v: Value)
    ensures k !in o ==> v == Undefined
    ensures k in o ==> v == o[k]
  {
    if k in o then o[k] else Undefined
  }

  /** The object literal `{...o, k: v}`: a copy of `o` whose property `k` is `v`. */
  function With(o: Record, k: string, v: Value): (r: Record)
    ensures r.Keys == o.Keys + {k}
    ensures Get(r, k) == v
    ensures forall j :: j != k ==> Get(r, j) == Get(o, j)
  {
    o[k := v]
  }
}
