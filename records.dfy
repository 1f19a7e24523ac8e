/**
 * The loosely-typed company record that the extractors build and the
 * normaliser consumes: a dictionary from field name to None, a string, or a
 * list whose entries are dictionaries of strings, bare strings, or anything
 * else.
 */
module Records {
  import opened Wrappers

  /** An entry of a list field: a dict (its string members), a bare string, or another value. */
  datatype RawEntry = Dict(fields: map<string, string>) | Plain(s: string) | Opaque

  /** A value of the raw record. */
  datatype RawValue = Null | Str(s: string) | List(entries: seq<RawEntry>)

  type Record = map<string, RawValue>

  /** `d.get(key)` on a dictionary of strings. */
  function Get(fields: map<string, string>, key: string): (r: Option<string>)
    ensures r.Some? <==> key in fields
  {
    if key in fields then Some(fields[key]) else None
  }

  /** `raw.get(key)` for a field holding a string or None. */
  function Scalar(raw: Record, key: string): (r: Option<string>)
    ensures r.Some? <==> key in raw && raw[key].Str?
  {
    if key in raw && raw[key].Str? then Some(raw[key].s) else None
  }

  /** The entries of `raw[key]` when it is a list (`isinstance(value, list)`). */
  function Entries(raw: Record, key: string): (r: Option<seq<RawEntry>>)
    ensures r.Some? <==> key in raw && raw[key].List?
  {
    if key in raw && raw[key].List? then Some(raw[key].entries) else None
  }

  /** Python truthiness of an optional string. */
  predicate Truthy(v: Option<string>)
  {
    v.Some? && v.value != ""
  }

  /** Python's `a or b` on optional strings. */
  function Or(a: Option<string>, b: Option<string>): (r: Option<string>)
    ensures r == a || r == b
    ensures Truthy(a) ==> r == a
  {
    if Truthy(a) then a else b
  }
}
