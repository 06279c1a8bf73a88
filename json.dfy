/**
  The parsed configuration document. The loader hands the validator whatever
  the YAML parser produced; this model restricts that to the JSON data model
  without floating-point numbers: null, booleans, integers, strings, lists and
  mappings with string keys. Booleans are a constructor of their own, so that
  `true` is never an integer (the validator treats them apart as well).
*/
module Json {

  datatype Value =
    | JNull
    | JBool(b: bool)
    | JInt(i: int)
    | JStr(s: string)
    | JArr(items: seq<Value>)
    | JObj(fields: map<string, Value>)
}
