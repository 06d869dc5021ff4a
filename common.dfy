/** Values shared by both conversion scripts: optional values and failures,
    Python floats, decoded JSON documents and civil timestamps. */
module Common {

  datatype Option<+T> = None | Some(value: T)

  /** The exceptions the modelled code can raise, by their Python names. */
  datatype Error =
    | KeyError(key: string)
    | IndexError(index: int)
    | ValueError(what: string)
    | AttributeError(name: string)
    | TypeError(what: string)
    | FileNotFoundError(path: string)

  datatype Result<+T> = Ok(value: T) | Err(error: Error)

  /** A Python (numpy) float. Only NaN is kept apart from the finite values:
      the infinities are not modelled. */
  datatype Float = NaN | Fin(val: real)

  /** A document as json.load returns it and json.dumps takes it. */
  datatype Json =
    | JNull
    | JBool(b: bool)
    | JInt(i: int)
    | JNum(f: Float)
    | JStr(s: string)
    | JArr(items: seq<Json>)
    | JObj(fields: map<string, Json>)

  /** The fields of a Python datetime, as strptime fills them. */
  datatype DateTime = DateTime(year: nat, month: nat, day: nat, hour: nat, minute: nat, second: nat)

  /** Python's `s[i]`, where a negative index counts from the end. */
  function PyIndex<T>(s: seq<T>, i: int): (r: Result<T>)
    ensures r.Ok? <==> -|s| <= i < |s|
    ensures 0 <= i < |s| ==> r == Ok(s[i])
    ensures -|s| <= i < 0 ==> r == Ok(s[|s| + i])
    ensures r.Err? ==> r.error == IndexError(i)
  {
    if 0 <= i < |s| then Ok(s[i])
    else if -|s| <= i < 0 then Ok(s[|s| + i])
    else Err(IndexError(i))
  }
}
