/**
 * The JSON values the converter reads and writes as Python dicts and lists.
 * Object key order is not represented, and numbers are integers only.
 */
module JsonValues {
  import opened Wrappers

  datatype Json =
    | Null
    | Bool(b: bool)
    | Num(n: int)
    | Str(s: string)
    | Arr(items: seq<Json>)
    | Obj(fields: map<string, Json>)

  /** Python truthiness of a value. */
  predicate Truthy(j: Json) {
    match j
    case Null => false
    case Bool(b) => b
    case Num(n) => n != 0
    case Str(s) => s != ""
    case Arr(xs) => |xs| > 0
    case Obj(m) => |m| > 0
  }

  /** `key in d` for a dict `d`. */
  predicate Has(j: Json, key: string) {
    j.Obj? && key in j.fields
  }

  /** `d.get(key)`: `None` when the key is missing or `j` is not a dict. */
  function Get(j: Json, key: string): (r: Json)
    ensures Has(j, key) ==> r == j.fields[key]
    ensures !Has(j, key) ==> r == Null
  {
    if Has(j, key) then j.fields[key] else Null
  }

  /** `d.get(key, default)`. */
  function GetOr(j: Json, key: string, default: Json): (r: Json)
    ensures Has(j, key) ==> r == j.fields[key]
    ensures !Has(j, key) ==> r == default
  {
    if Has(j, key) then j.fields[key] else default
  }

  /** The text of a string value, or `""` for anything else. */
  function AsStr(j: Json): string {
    if j.Str? then j.s else ""
  }

  /** The elements of a list value, or `[]` for anything else. */
  function AsList(j: Json): seq<Json> {
    if j.Arr? then j.items else []
  }

  /** The entries of a dict value, or `{}` for anything else. */
  function AsMap(j: Json): map<string, Json> {
    if j.Obj? then j.fields else map[]
  }

  /** `d[key] = v` on a dict; other values are left as they are. */
  function Set(j: Json, key: string, v: Json): (r: Json)
    ensures j.Obj? ==> r.Obj? && r.fields == j.fields[key := v]
  {
    if j.Obj? then Obj(j.fields[key := v]) else j
  }

  /** `del d[key]` on a dict. */
  function Remove(j: Json, key: string): (r: Json)
    ensures j.Obj? ==> r.Obj? && r.fields.Keys == j.fields.Keys - {key}
    ensures j.Obj? ==> forall k :: k in r.fields ==> r.fields[k] == j.fields[k]
  {
    if j.Obj? then Obj(map k | k in j.fields && k != key :: j.fields[k]) else j
  }

  function S(s: string): Json { Str(s) }
}
