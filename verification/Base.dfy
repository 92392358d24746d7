/** Small shared vocabulary: optional values, JSON values, and the abstract slot map. */
module Base {

  datatype Option<+T> = None | Some(value: T)

  /** A decoded JSON value. Objects are maps, so member order carries no meaning. */
  datatype Json =
    | Null
    | Bool(b: bool)
    | Num(n: real)
    | Str(s: string)
    | Arr(items: seq<Json>)
    | Obj(members: map<string, Json>)

  type Object = map<string, Json>

  /** The value a lookup of `key` yields in Go: the member, or nil when it is absent. */
  function Get(o: Object, key: string): Json {
    if key in o then o[key] else Null
  }

  /** A Go conversion of a float64 to int drops the fraction. */
  function Truncate(x: real): int {
    if x >= 0.0 then x.Floor else -((-x).Floor)
  }

  /** The string in a value, or "" when the value is not a string. */
  function AsString(j: Json): string {
    if j.Str? then j.s else ""
  }
}

/**
 * The abstract slot map. Every log implementation keeps one value per logical slot:
 * an empty slot stores, an equal value is absorbed, a different value is refused.
 */
module SlotMap {

  predicate Accepts<S(==), V(==)>(m: map<S, V>, s: S, v: V) {
    s in m ==> m[s] == v
  }

  function Put<S(==), V>(m: map<S, V>, s: S, v: V): map<S, V> {
    if s in m then m else m[s := v]
  }

  ghost predicate Extends<S, V(!new)>(m: map<S, V>, m': map<S, V>) {
    forall s | s in m :: s in m' && m'[s] == m[s]
  }
}
