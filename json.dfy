/** JSON-like values as the bridge API returns them once decoded into Python
    dictionaries and lists, and Python's subscript operator on them. */
module Json {

  /** A decoded JSON value. Numbers are opaque payload: the extractor never
      does arithmetic on them, so only their literal text is kept. */
  datatype Json =
    | JNull
    | JBool(b: bool)
    | JNum(literal: string)
    | JStr(s: string)
    | JArr(items: seq<Json>)
    | JObj(fields: map<string, Json>)

  /** The exceptions a string subscript `v[key]` can raise in Python. */
  datatype PyError =
    | KeyError(key: string)   // `v` is a dict without `key`
    | TypeError               // `v` is not a dict (list, str, number, bool, None)

  /** Either the value of an expression or the exception it raised. */
  datatype Result<+T> = Ok(value: T) | Err(error: PyError) {
    predicate IsFailure() { Err? }

    function PropagateFailure<U>(): Result<U>
      requires Err?
    {
      Err(error)
    }

    function Extract(): T
      requires Ok?
    {
      value
    }
  }

  /** Python's `v[key]` for a string key. */
  function Subscript(v: Json, key: string): (r: Result<Json>)
    ensures r.Ok? <==> v.JObj? && key in v.fields
    ensures r.Ok? ==> r.value == v.fields[key]
    ensures r.Err? ==> r.error == if v.JObj? then KeyError(key) else TypeError
  {
    match v
    case JObj(fields) => if key in fields then Ok(fields[key]) else Err(KeyError(key))
    case _ => Err(TypeError)
  }

  /** Reference reading of a chain of subscripts `v[path[0]][path[1]]...`,
      stopping at the first exception. */
  function Lookup(v: Json, path: seq<string>): (r: Result<Json>)
    decreases |path|
  {
    if path == [] then Ok(v)
    else
      match Subscript(v, path[0])
      case Err(e) => Err(e)
      case Ok(child) => Lookup(child, path[1..])
  }

  /** Reading `p + q` is reading `p` and then reading `q` from what was found. */
  lemma {:induction false} LookupAppend(v: Json, p: seq<string>, q: seq<string>)
    ensures Lookup(v, p + q) ==
      match Lookup(v, p)
      case Err(e) => Err(e)
      case Ok(u) => Lookup(u, q)
    decreases |p|
  {
    if p == [] {
      assert p + q == q;
    } else {
      assert (p + q)[0] == p[0];
      assert (p + q)[1..] == p[1..] + q;
      match Subscript(v, p[0])
      case Err(e) =>
      case Ok(child) => LookupAppend(child, p[1..], q);
    }
  }

  /** A one-key chain is a single subscript. */
  lemma LookupOne(v: Json, k: string)
    ensures Lookup(v, [k]) == Subscript(v, k)
  {
  }

  /** A two-key chain is a subscript of a subscript. */
  lemma LookupTwo(v: Json, k1: string, k2: string)
    ensures Lookup(v, [k1, k2]) ==
      match Subscript(v, k1)
      case Err(e) => Err(e)
      case Ok(u) => Subscript(u, k2)
  {
    LookupAppend(v, [k1], [k2]);
    assert [k1] + [k2] == [k1, k2];
    LookupOne(v, k1);
    match Subscript(v, k1)
    case Err(e) =>
    case Ok(u) => LookupOne(u, k2);
  }
}
