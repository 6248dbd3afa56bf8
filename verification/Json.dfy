/**
  JSON at the level of field maps, with the rules of Go's json.Unmarshal for the
  field types the payload structs use: an absent or null member leaves the zero
  value, a member of another type is an error.
 */
module Json {
  import opened Prelude

  datatype Json =
    | Null
    | Bool(b: bool)
    | Int(n: int)
    | Fraction                                        // a number that is no integer literal
    | Str(text: string, instant: Option<Time>)        // instant: its RFC 3339 reading, if any
    | Arr(items: seq<Json>)
    | Obj(fields: map<string, Json>)

  datatype Failure = Undecodable | MissingInstallation

  type Fields = map<string, Json>

  function Get(f: Fields, name: string): Json {
    if name in f then f[name] else Null
  }

  function AsFields(j: Json): Result<Fields, Failure> {
    match j
    case Null => Ok(map[])
    case Obj(f) => Ok(f)
    case _ => Err(Undecodable)
  }

  function AsInt(j: Json): Result<Int64, Failure> {
    match j
    case Null => Ok(0)
    case Int(n) => if -INT64_LIMIT <= n < INT64_LIMIT then Ok(n) else Err(Undecodable)
    case _ => Err(Undecodable)
  }

  function AsIntPtr(j: Json): Result<Option<Int64>, Failure> {
    if j.Null? then Ok(None) else var n :- AsInt(j); Ok(Some(n))
  }

  function AsBool(j: Json): Result<bool, Failure> {
    match j
    case Null => Ok(false)
    case Bool(b) => Ok(b)
    case _ => Err(Undecodable)
  }

  function AsString(j: Json): Result<string, Failure> {
    match j
    case Null => Ok("")
    case Str(s, _) => Ok(s)
    case _ => Err(Undecodable)
  }

  function AsTimePtr(j: Json): Result<Option<Time>, Failure> {
    match j
    case Null => Ok(None)
    case Str(_, Some(t)) => Ok(Some(t))
    case _ => Err(Undecodable)
  }

  function AsTime(j: Json): Result<Time, Failure> {
    var t :- AsTimePtr(j);
    Ok(GetOr(t, ZERO_TIME))
  }

  function AsItems(j: Json): Result<seq<Json>, Failure> {
    match j
    case Null => Ok([])
    case Arr(items) => Ok(items)
    case _ => Err(Undecodable)
  }

  function AsStrings(items: seq<Json>): (r: Result<seq<string>, Failure>)
    ensures r.Err? ==> r.error == Undecodable
  {
    if items == [] then Ok([])
    else
      var head :- AsString(items[0]);
      var tail :- AsStrings(items[1..]);
      Ok([head] + tail)
  }

  /** A string member of a nested object, both defaulting as json.Unmarshal does. */
  function NestedString(f: Fields, outer: string, inner: string): Result<string, Failure> {
    var o :- AsFields(Get(f, outer));
    AsString(Get(o, inner))
  }
}
