/** Optional values and JSON documents, shared by the modelled components. */
module Wrappers {

  datatype Option<+T> = None | Some(value: T)
}

/** The JSON values that the update coordinator reads from HTTP bodies and keeps in its result column. */
module Json {
  import opened Wrappers

  /** A float is a finite number, or one of the infinities and NaN. */
  datatype FloatValue = Finite(number: real) | NotFinite

  datatype Json =
    | Null
    | Bool(flag: bool)
    | Int(number: int)
    | Float(float: FloatValue)
    | Str(text: string)
    | Arr(items: seq<Json>)
    | Obj(fields: map<string, Json>)

  /** `value.get(name)` on an object; a missing member reads as None, i.e. Null. */
  function Get(value: Json, name: string): Json
    requires value.Obj?
  {
    if name in value.fields then value.fields[name] else Null
  }

  /** Testing membership of a list or an object in a Python set raises TypeError. */
  predicate Unhashable(value: Json) {
    value.Arr? || value.Obj?
  }

  predicate IsText(value: Json, choices: set<string>) {
    value.Str? && value.text in choices
  }
}
