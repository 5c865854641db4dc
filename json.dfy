/** JSON-shaped request bodies, built as nested objects and read back by key path. */
module Json {
  import opened Util

  /** A request body as the controller receives it: strings, booleans and nested objects. */
  datatype JVal = JStr(text: string) | JBool(flag: bool) | JObj(fields: map<string, JVal>)

  /** The value at `key` of an object; None for a missing key or a non-object. */
  function Get(v: JVal, key: string): Option<JVal>
  {
    if v.JObj? && key in v.fields then Some(v.fields[key]) else None
  }

  /** The value found by following `path` key by key from `v`. */
  function At(v: JVal, path: seq<string>): Option<JVal>
  {
    AtFrom(v, path, 0)
  }

  /** The value found by following `path[i..]` from `v`. */
  function AtFrom(v: JVal, path: seq<string>, i: nat): Option<JVal>
    decreases |path| - i
  {
    if i >= |path| then Some(v)
    else
      match Get(v, path[i])
      case None => None
      case Some(child) => AtFrom(child, path, i + 1)
  }

  /** The keys of the object at `path`; empty when there is no object there. */
  function KeysAt(v: JVal, path: seq<string>): set<string>
  {
    match At(v, path)
    case Some(JObj(m)) => m.Keys
    case _ => {}
  }

  /** The string at `path`, if a string is stored there. */
  function StrAt(v: JVal, path: seq<string>): Option<string>
  {
    match At(v, path)
    case Some(JStr(s)) => Some(s)
    case _ => None
  }

  /**
   * The member `key` of the object at `path` (for a key that is not a fixed
   * name, such as a tenant id); an empty object when there is none.
   */
  function Member(v: JVal, path: seq<string>, key: string): JVal
  {
    match At(v, path)
    case Some(JObj(m)) => if key in m then m[key] else JObj(map[])
    case _ => JObj(map[])
  }
}
