/** JSON values as Python's `json` module decodes them, and the few Python
    operations the agents and the orchestrator apply to them: `dict.get`,
    the `in` operator, subscripting, iteration and truthiness. Every Python
    exception that the source does not catch is collapsed into `Raised`. */
module PyJson {

  datatype Option<+T> = None | Some(value: T)

  /** A decoded JSON document: `None`, `bool`, `int`, `str`, `list` or `dict`.
      JSON numbers with a fraction (Python floats) are not part of this model. */
  datatype Json =
    | JNull
    | JBool(b: bool)
    | JInt(i: int)
    | JStr(s: string)
    | JArr(items: seq<Json>)
    | JObj(fields: map<string, Json>)

  /** The outcome of evaluating a Python expression: a value, or an exception. */
  datatype Py<+T> = Ok(value: T) | Raised

  /** The empty dict `{}` that the source passes as a default. */
  const EmptyObj: Json := JObj(map[])

  /** `v.get(key, default)`: only a dict has `get`; on any other value Python
      raises AttributeError. */
  function Get(v: Json, key: string, default: Json): Py<Json>
  {
    match v
    case JObj(fields) => if key in fields then Ok(fields[key]) else Ok(default)
    case _ => Raised
  }

  /** Python's `bool(v)`: `None`, `False`, `0`, `""`, `[]` and `{}` are false. */
  predicate Truthy(v: Json)
  {
    match v
    case JNull => false
    case JBool(b) => b
    case JInt(i) => i != 0
    case JStr(s) => s != ""
    case JArr(items) => items != []
    case JObj(fields) => fields != map[]
  }

  /** `needle` occurs as a contiguous piece of `hay`. */
  predicate IsSubstring(needle: string, hay: string)
  {
    exists i {:trigger hay[i..]} :: 0 <= i <= |hay| - |needle| && hay[i..i + |needle|] == needle
  }

  /** `key in v`: a key of a dict, an element of a list, a substring of a str;
      on `None`, a bool or an int Python raises TypeError. */
  function Contains(v: Json, key: string): Py<bool>
  {
    match v
    case JObj(fields) => Ok(key in fields)
    case JArr(items) => Ok(JStr(key) in items)
    case JStr(s) => Ok(IsSubstring(key, s))
    case _ => Raised
  }

  /** A subscript as the source writes them: a str key or an int index. */
  datatype Key = Name(name: string) | Index(index: int)

  /** `v[k]`. A dict looks up str keys (an int never equals a JSON key, so it
      raises KeyError); a list or str takes an int index, counting from the end
      when negative, and raises IndexError out of range; every other
      combination raises TypeError. Indexing a str yields a one-character str. */
  function Subscript(v: Json, k: Key): Py<Json>
  {
    match (v, k)
    case (JObj(fields), Name(name)) => if name in fields then Ok(fields[name]) else Raised
    case (JArr(items), Index(i)) =>
      if 0 <= i < |items| then Ok(items[i])
      else if -|items| <= i < 0 then Ok(items[|items| + i])
      else Raised
    case (JStr(s), Index(i)) =>
      if 0 <= i < |s| then Ok(JStr([s[i]]))
      else if -|s| <= i < 0 then Ok(JStr([s[|s| + i]]))
      else Raised
    case _ => Raised
  }

  /** `v[k1][k2]...`, raising as soon as one step raises. */
  function Path(v: Json, keys: seq<Key>): Py<Json>
    decreases |keys|
  {
    if keys == [] then Ok(v)
    else match Subscript(v, keys[0])
      case Raised => Raised
      case Ok(w) => Path(w, keys[1..])
  }
}
