/** The values Python's `json` module decodes, the dictionary and container
    operations the chat app applies to them, and the exceptions those
    operations raise when a value has the wrong shape. */
module PyValues {
  import opened PyText

  /** A decoded JSON value. Objects are Python dicts keyed by strings;
      numbers are modelled as integers. */
  datatype Json =
    | JNull
    | JBool(b: bool)
    | JNum(n: int)
    | JStr(s: string)
    | JArr(items: seq<Json>)
    | JObj(fields: map<string, Json>)

  datatype Result<+T, +E> = Ok(value: T) | Err(error: E)

  datatype Option<+T> = None | Some(value: T)

  /** The name Python gives the type of a decoded value. */
  function TypeName(j: Json): string {
    match j
    case JNull => "NoneType"
    case JBool(_) => "bool"
    case JNum(_) => "int"
    case JStr(_) => "str"
    case JArr(_) => "list"
    case JObj(_) => "dict"
  }

  /** `d.get(key, default)` on a dict. */
  function Get(m: map<string, Json>, key: string, default: Json): (r: Json)
    ensures key in m ==> r == m[key]
    ensures key !in m ==> r == default
  {
    if key in m then m[key] else default
  }

  /** A `{"role": ..., "content": ...}` dict: a record of `Memory` and a
      message of a completion request alike. */
  function Message(role: Json, content: Json): (r: Json)
    ensures r.JObj? && r.fields.Keys == {"role", "content"}
    ensures r.fields["role"] == role && r.fields["content"] == content
  {
    JObj(map["role" := role, "content" := content])
  }

  /** What goes between the brackets of a subscript `x[k]`. */
  datatype Key = Name(name: string) | Pos(index: nat)

  /** The exceptions the app's code can raise on decoded values. */
  datatype PyError =
    | KeyError(key: Key)
    | IndexError(container: string)
    | ListIndicesNotInt
    | StrIndicesNotInt
    | NotSubscriptable(typeName: string)
    | NotIterable(typeName: string)
    | NoAttribute(typeName: string, attribute: string)
    | ConcatNonStr(typeName: string)

  /** `str(e)` for each exception, in CPython 3.12's words. A key is
      printed with `repr`, which for the app's literal keys (plain
      letters) is the key in single quotes. */
  function ErrorText(e: PyError): string {
    match e
    case KeyError(Name(k)) => "'" + k + "'"
    case KeyError(Pos(i)) => Decimal(i)
    case IndexError(c) => c + " index out of range"
    case ListIndicesNotInt => "list indices must be integers or slices, not str"
    case StrIndicesNotInt => "string indices must be integers, not 'str'"
    case NotSubscriptable(t) => "'" + t + "' object is not subscriptable"
    case NotIterable(t) => "argument of type '" + t + "' is not iterable"
    case NoAttribute(t, a) => "'" + t + "' object has no attribute '" + a + "'"
    case ConcatNonStr(t) => "can only concatenate str (not \"" + t + "\") to str"
  }

  /** `x[k]` on a decoded value. */
  function Subscript(x: Json, k: Key): (r: Result<Json, PyError>)
    ensures x.JObj? && k.Name? && k.name in x.fields ==> r == Ok(x.fields[k.name])
    ensures x.JArr? && k.Pos? && k.index < |x.items| ==> r == Ok(x.items[k.index])
    ensures x.JStr? && k.Pos? && k.index < |x.s| ==> r == Ok(JStr([x.s[k.index]]))
    ensures r.Ok? <==>
      (x.JObj? && k.Name? && k.name in x.fields)
      || (x.JArr? && k.Pos? && k.index < |x.items|)
      || (x.JStr? && k.Pos? && k.index < |x.s|)
  {
    match x
    case JObj(m) =>
      (match k
       case Name(n) => if n in m then Ok(m[n]) else Err(KeyError(k))
       case Pos(_) => Err(KeyError(k)))
    case JArr(xs) =>
      (match k
       case Pos(i) => if i < |xs| then Ok(xs[i]) else Err(IndexError("list"))
       case Name(_) => Err(ListIndicesNotInt))
    case JStr(s) =>
      (match k
       case Pos(i) => if i < |s| then Ok(JStr([s[i]])) else Err(IndexError("string"))
       case Name(_) => Err(StrIndicesNotInt))
    case _ => Err(NotSubscriptable(TypeName(x)))
  }

  /** `x[k0][k1]...`: subscripts applied left to right, stopping at the
      first one that raises. */
  function Walk(x: Json, path: seq<Key>): Result<Json, PyError>
    decreases |path|
  {
    if path == [] then Ok(x)
    else
      match Subscript(x, path[0])
      case Ok(y) => Walk(y, path[1..])
      case Err(e) => Err(e)
  }

  /** Python's `needle in x` for a string `needle`: a key of a dict, an
      element of a list, a substring of a string; other values are not
      containers. */
  function Contains(x: Json, needle: string): (r: Result<bool, PyError>)
    ensures x.JObj? ==> r == Ok(needle in x.fields)
    ensures r.Err? <==> !(x.JObj? || x.JArr? || x.JStr?)
  {
    match x
    case JObj(m) => Ok(needle in m)
    case JArr(xs) => Ok(JStr(needle) in xs)
    case JStr(s) => Ok(IsSubstring(needle, s))
    case _ => Err(NotIterable(TypeName(x)))
  }
}
