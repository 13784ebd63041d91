/**
 * The dictionaries that `to_dict` produces and that loading feeds back into a
 * record constructor as keyword arguments (`Cls(**d)`): a map from field name
 * to a JSON value.
 */
module Dicts {

  /** A JSON value as the standard decoder yields it (numbers split into int and float). */
  datatype Value =
    | Int(i: int)
    | Num(r: real)
    | Str(s: string)
    | Bool(b: bool)
    | Null

  type Dict = map<string, Value>

  /** Why a dictionary could not become a record. */
  datatype Error =
    | UnexpectedKeyword   // a key that names no constructor parameter (Python's TypeError)
    | MissingArgument     // a required constructor parameter has no key (Python's TypeError)
    | WrongType           // a value of a kind the field cannot hold

  datatype Result<T> = Ok(value: T) | Err(error: Error)

  /**
   * Python's keyword binding of `Cls(**d)` before the body runs: every key
   * must name a parameter, and every parameter without a default must be given.
   */
  function Bind(d: Dict, params: set<string>, required: set<string>): (r: Result<()>)
    ensures r.Ok? <==> d.Keys <= params && required <= d.Keys
  {
    if !(d.Keys <= params) then Err(UnexpectedKeyword)
    else if !(required <= d.Keys) then Err(MissingArgument)
    else Ok(())
  }

  /** The value of optional key `k`, or `Null` (Python's `None` default) when it is absent. */
  function Optional(d: Dict, k: string): Value
  {
    if k in d then d[k] else Null
  }

  /**
   * A list comprehension that rebuilds one record per dictionary, in order.
   * The first dictionary that fails ends it with that dictionary's error.
   */
  function LoadAll<T>(ds: seq<Dict>, rebuild: Dict -> Result<T>): (r: Result<seq<T>>)
    ensures r.Ok? ==> |r.value| == |ds| && forall k :: 0 <= k < |ds| ==> rebuild(ds[k]) == Ok(r.value[k])
    ensures r.Ok? <==> forall k :: 0 <= k < |ds| ==> rebuild(ds[k]).Ok?
    ensures r.Err? ==>
              exists k :: 0 <= k < |ds| && rebuild(ds[k]) == Err(r.error) &&
                forall j :: 0 <= j < k ==> rebuild(ds[j]).Ok?
    decreases |ds|
  {
    if ds == [] then Ok([])
    else
      match rebuild(ds[0])
      case Err(e) => Err(e)
      case Ok(x) =>
        match LoadAll(ds[1..], rebuild)
        case Err(e) => Err(e)
        case Ok(rest) => Ok([x] + rest)
  }
}
