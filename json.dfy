/**
 * The part of `serde_json::Value` the hook payloads and configuration files use.
 * Numbers are integers: no inspector of the core reads a fractional number.
 */
module Json {
  import opened Wrappers

  /** Largest values of Rust's `u32` and `u64`. */
  const U32_MAX: int := 0xFFFF_FFFF
  const U64_MAX: int := 0xFFFF_FFFF_FFFF_FFFF

  datatype Value =
    | Null
    | Bool(b: bool)
    | Number(n: int)
    | Str(s: string)
    | Array(items: seq<Value>)
    | Object(fields: map<string, Value>)

  /** `value[key]` (the `Index` impl): the member of an object, `Null` for anything missing. */
  function Get(v: Value, key: string): (r: Value)
    ensures r != Null ==> v.Object? && key in v.fields && r == v.fields[key]
    ensures v.Object? && key in v.fields ==> r == v.fields[key]
  {
    if v.Object? && key in v.fields then v.fields[key] else Null
  }

  /** `Value::as_str`. */
  function AsStr(v: Value): (r: Option<string>)
    ensures r.Some? <==> v.Str?
    ensures r.Some? ==> v == Str(r.value)
  {
    if v.Str? then Some(v.s) else None
  }

  /** `Value::as_u64`: a number that fits in 64 unsigned bits. */
  function AsU64(v: Value): (r: Option<nat>)
    ensures r.Some? <==> v.Number? && 0 <= v.n <= U64_MAX
    ensures r.Some? ==> v == Number(r.value)
  {
    if v.Number? && 0 <= v.n <= U64_MAX then Some(v.n) else None
  }

  /**
   * `value[key] = x` (the `IndexMut` impl): inserts into an object, turns `Null`
   * into a one-member object, and panics (`None`) on any other value.
   */
  function Insert(v: Value, key: string, x: Value): (r: Option<Value>)
    ensures r.Some? <==> v.Object? || v.Null?
    ensures r.Some? ==> r.value.Object? && key in r.value.fields && r.value.fields[key] == x
    ensures r.Some? ==> forall k | k in r.value.fields && k != key :: v.Object? && k in v.fields && r.value.fields[k] == v.fields[k]
    ensures v.Object? ==> r.Some? && r.value.fields.Keys == v.fields.Keys + {key}
  {
    match v
    case Object(m) => Some(Object(m[key := x]))
    case Null => Some(Object(map[key := x]))
    case _ => None
  }

  lemma InsertThenGet(v: Value, key: string, x: Value, other: string)
    requires v.Object?
    ensures Get(Insert(v, key, x).value, key) == x
    ensures other != key ==> Get(Insert(v, key, x).value, other) == Get(v, other)
  {
  }
}
