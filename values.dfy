/** Documents as the backend sees them: the values a stored record can hold,
    records as maps from field names to values, and the two dict idioms the
    routes are built from (`{**a, **b}` and `d[k] = d.get(k, default)`). */
module Values {

  datatype Option<+T> = None | Some(value: T)

  datatype Result<+T, +E> = Ok(value: T) | Err(error: E)

  /** A JSON/BSON value. `Time` is a stored datetime; `iso` is the text its
      `isoformat()` renders. Numbers are inert here, so they are integers. */
  datatype Value =
    | Null
    | Bool(b: bool)
    | Num(n: int)
    | Str(s: string)
    | List(items: seq<Value>)
    | Obj(fields: map<string, Value>)
    | Time(iso: string)

  type Record = map<string, Value>

  /** A stored document: the identity the store assigned it (its `_id`) and its fields. */
  datatype Doc = Doc(id: nat, fields: Record)

  /** `m.get(k, default)`: a stored value, null included, wins over the default. */
  function Get(m: Record, k: string, default: Value): Value
  {
    if k in m then m[k] else default
  }

  /** The dict spread `{**under, **over}`: every key of either side, the right side winning. */
  function Spread(under: Record, over: Record): (r: Record)
    ensures r.Keys == under.Keys + over.Keys
    ensures forall k :: k in over ==> r[k] == over[k]
    ensures forall k :: k in under && k !in over ==> r[k] == under[k]
  {
    under + over
  }

  /** The statement `m[k] = m.get(k, default)`: the default is written only when the key is absent. */
  function KeepOrDefault(m: Record, k: string, default: Value): (r: Record)
    ensures k in m ==> r == m
    ensures k !in m ==> r.Keys == m.Keys + {k} && r[k] == default
    ensures forall j :: j in m ==> j in r && r[j] == m[j]
  {
    m[k := Get(m, k, default)]
  }
}
