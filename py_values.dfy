/**
  Decoded JSON values and the few pieces of Python semantics the robot code
  relies on when it inspects them: subscripting (`x[k]`), truthiness
  (`if x:`) and dictionary membership (`x in d`). Every failure Python would
  raise is an explicit `Err`, so the model never invents a check the code
  does not make.
 */
module PyValues {

  datatype Option<+T> = None | Some(value: T)

  /** A subscript key: an integer index or a string key. */
  datatype Key = IntKey(i: int) | StrKey(s: string)

  /** The exceptions the modelled code can raise. */
  datatype PyError =
    | TypeError
    | KeyError(key: Key)
    | IndexError
    | ValueError(message: string)
    | UnboundLocalError(name: string)

  datatype Result<+T> = Ok(value: T) | Err(error: PyError)

  /** The value `json.loads` produces. JSON numbers are kept as integers
      (the bounding boxes the robot code handles are integer pixels). */
  datatype Json =
    | JNull
    | JBool(b: bool)
    | JNum(n: int)
    | JStr(s: string)
    | JArr(items: seq<Json>)
    | JObj(fields: map<string, Json>)

  /** Python truthiness of a decoded value. */
  predicate Truthy(j: Json)
    ensures !Truthy(j) <==> j in {JNull, JBool(false), JNum(0), JStr([]), JArr([]), JObj(map[])}
  {
    match j
    case JNull => false
    case JBool(b) => b
    case JNum(n) => n != 0
    case JStr(s) => |s| > 0
    case JArr(items) => |items| > 0
    case JObj(fields) => |fields| > 0
  }

  /** Python `j[k]` on a decoded value. Lists and strings take integer
      indexes (negative ones count from the end), dictionaries take string
      keys (JSON keys are always strings, so an integer key is a KeyError),
      and scalars are not subscriptable. */
  function Subscript(j: Json, k: Key): (r: Result<Json>)
    ensures r.Ok? <==>
      || (j.JArr? && k.IntKey? && -|j.items| <= k.i < |j.items|)
      || (j.JStr? && k.IntKey? && -|j.s| <= k.i < |j.s|)
      || (j.JObj? && k.StrKey? && k.s in j.fields)
    ensures j.JObj? && k.StrKey? && k.s in j.fields ==> r == Ok(j.fields[k.s])
    ensures j.JArr? && k.IntKey? && 0 <= k.i < |j.items| ==> r == Ok(j.items[k.i])
    ensures j.JArr? && k.IntKey? && -|j.items| <= k.i < 0 ==> r == Ok(j.items[|j.items| + k.i])
    ensures j.JStr? && k.IntKey? && 0 <= k.i < |j.s| ==> r == Ok(JStr([j.s[k.i]]))
    ensures j.JStr? && k.IntKey? && -|j.s| <= k.i < 0 ==> r == Ok(JStr([j.s[|j.s| + k.i]]))
    ensures (j.JArr? || j.JStr?) && k.StrKey? ==> r == Err(TypeError)
    ensures (j.JArr? && k.IntKey? && !(-|j.items| <= k.i < |j.items|)) ==> r == Err(IndexError)
    ensures (j.JStr? && k.IntKey? && !(-|j.s| <= k.i < |j.s|)) ==> r == Err(IndexError)
    ensures j.JObj? && !(k.StrKey? && k.s in j.fields) ==> r == Err(KeyError(k))
    ensures !(j.JArr? || j.JStr? || j.JObj?) ==> r == Err(TypeError)
  {
    match j
    case JArr(items) =>
      (match k
       case IntKey(i) =>
         if 0 <= i < |items| then Ok(items[i])
         else if -|items| <= i < 0 then Ok(items[|items| + i])
         else Err(IndexError)
       case StrKey(_) => Err(TypeError))
    case JStr(s) =>
      (match k
       case IntKey(i) =>
         if 0 <= i < |s| then Ok(JStr([s[i]]))
         else if -|s| <= i < 0 then Ok(JStr([s[|s| + i]]))
         else Err(IndexError)
       case StrKey(_) => Err(TypeError))
    case JObj(fields) =>
      (match k
       case StrKey(s) => if s in fields then Ok(fields[s]) else Err(KeyError(k))
       case IntKey(_) => Err(KeyError(k)))
    case _ => Err(TypeError)
  }

  /** A chain of subscripts `j[k0][k1]...`, evaluated left to right; the
      first failing subscript decides the error. */
  function Path(j: Json, keys: seq<Key>): Result<Json>
    decreases |keys|
  {
    if keys == [] then Ok(j)
    else
      match Subscript(j, keys[0])
      case Err(e) => Err(e)
      case Ok(v) => Path(v, keys[1..])
  }

  /** Python `x in d` for a dictionary whose keys are the strings `keys`:
      a list or dictionary is unhashable, any other non-string is never a key. */
  function DictContains(keys: set<string>, x: Json): (r: Result<bool>)
    ensures r.Err? <==> x.JArr? || x.JObj?
    ensures r == Ok(true) <==> x.JStr? && x.s in keys
  {
    match x
    case JArr(_) => Err(TypeError)
    case JObj(_) => Err(TypeError)
    case JStr(s) => Ok(s in keys)
    case _ => Ok(false)
  }
}
