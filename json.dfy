/** JSON values as the server's encoding/json and the client's json module
    hand them over: numbers are reals, objects are finite maps from member
    names to values.  Member order is not modelled. */
module JsonValues {
  import opened Wrappers

  datatype Json =
    | JNull
    | JBool(b: bool)
    | JNum(n: real)
    | JStr(s: string)
    | JArr(items: seq<Json>)
    | JObj(fields: map<string, Json>)

  /** Member `key` of an object, or None when j is not an object or lacks it. */
  function Member(j: Json, key: string): Option<Json>
  {
    if j.JObj? && key in j.fields then Some(j.fields[key]) else None
  }

  /** The Go type assertion m[key].(map[string]interface{}): the member when it
      is an object; a missing member, null or any other value fails. */
  function ObjectField(m: map<string, Json>, key: string): (r: Option<map<string, Json>>)
    ensures r.Some? <==> key in m && m[key].JObj?
    ensures r.Some? ==> m[key] == JObj(r.value)
  {
    if key in m && m[key].JObj? then Some(m[key].fields) else None
  }

  /** The Go type assertion m[key].(float64). */
  function NumberField(m: map<string, Json>, key: string): (r: Option<real>)
    ensures r.Some? <==> key in m && m[key].JNum?
    ensures r.Some? ==> m[key] == JNum(r.value)
  {
    if key in m && m[key].JNum? then Some(m[key].n) else None
  }

  /** The Go type assertion m[key].(string). */
  function StringField(m: map<string, Json>, key: string): (r: Option<string>)
    ensures r.Some? <==> key in m && m[key].JStr?
    ensures r.Some? ==> m[key] == JStr(r.value)
  {
    if key in m && m[key].JStr? then Some(m[key].s) else None
  }
}
