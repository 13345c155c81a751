/** JSON values as the journal files hold them: objects are key-to-value maps, numbers are integers. */
module Json {
  import opened Common

  datatype Value =
    | Null
    | Bool(flag: bool)
    | Num(number: int)
    | Str(text: string)
    | Arr(items: seq<Value>)
    | Obj(fields: map<string, Value>)
  {
    function AsStr(): Option<string> {
      if Str? then Some(text) else None
    }
  }

  /** `map.get(key)`. */
  function Get(fields: map<string, Value>, key: string): Option<Value> {
    if key in fields then Some(fields[key]) else None
  }

  /** `map.get(key)` with `null` read as absent. */
  function Present(fields: map<string, Value>, key: string): Option<Value> {
    if key in fields && fields[key] != Null then Some(fields[key]) else None
  }
}
