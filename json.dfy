/**
 * The JSON values the exporter builds, as a tree rather than as text. Floating-point
 * numbers are an opaque payload `N`; an object maps field names of type `K` to values,
 * since the field order inside an object is not part of the document.
 */
module Json {

  import opened Wrappers

  datatype Json<K, N> =
    | JString(str: string)
    | JNumber(num: N)        // a floating-point number, carried verbatim
    | JInteger(integer: int) // a number built from an integer
    | JArray(items: seq<Json<K, N>>)
    | JObject(fields: map<K, Json<K, N>>)

  function StringField<K, N>(fields: map<K, Json<K, N>>, key: K): (r: Option<string>)
    ensures r.Some? <==> key in fields && fields[key].JString?
    ensures r.Some? ==> fields[key] == JString(r.value)
  {
    if key in fields && fields[key].JString? then Some(fields[key].str) else None
  }

  function IntegerField<K, N>(fields: map<K, Json<K, N>>, key: K): (r: Option<int>)
    ensures r.Some? <==> key in fields && fields[key].JInteger?
    ensures r.Some? ==> fields[key] == JInteger(r.value)
  {
    if key in fields && fields[key].JInteger? then Some(fields[key].integer) else None
  }

  function ArrayField<K, N>(fields: map<K, Json<K, N>>, key: K): (r: Option<seq<Json<K, N>>>)
    ensures r.Some? <==> key in fields && fields[key].JArray?
    ensures r.Some? ==> fields[key] == JArray(r.value)
  {
    if key in fields && fields[key].JArray? then Some(fields[key].items) else None
  }

}
