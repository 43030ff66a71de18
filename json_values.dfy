/** The JSON values the services pass around (Python dicts, lists and scalars
    as produced by `json.loads`), with lookup along a path of object keys. */
module JsonValues {
  import opened Wrappers

  /** A JSON value; an object is a map from key to value (Python `dict`). */
  datatype Json =
    | JNull
    | JBool(b: bool)
    | JInt(i: int)
    | JStr(s: string)
    | JArr(items: seq<Json>)
    | JObj(fields: map<string, Json>)

  /** Python `d.get(key, default)` on a dict. */
  function GetOr(fields: map<string, Json>, key: string, default: Json): (v: Json)
    ensures key in fields ==> v == fields[key]
    ensures key !in fields ==> v == default
  {
    if key in fields then fields[key] else default
  }

  /** The value reached from `j` by following the object keys of `path`, or
      None when some step is missing or is not an object. */
  function Lookup(j: Json, path: seq<string>): Option<Json>
    decreases |path|
  {
    if path == [] then Some(j)
    else if j.JObj? && path[0] in j.fields then Lookup(j.fields[path[0]], path[1..])
    else None
  }

  /** `del j[p0][p1]...[pn]` guarded by "every step is an object holding the
      next key": the value with the entry at `path` removed when it exists,
      and `j` itself otherwise. */
  function DeletePath(j: Json, path: seq<string>): (r: Json)
    requires path != []
    ensures j.JObj? <==> r.JObj?
    decreases |path|
  {
    if !j.JObj? || path[0] !in j.fields then j
    else if |path| == 1 then JObj(j.fields - {path[0]})
    else JObj(j.fields[path[0] := DeletePath(j.fields[path[0]], path[1..])])
  }

  /** Deleting `d` makes every path that extends `d` vanish, leaves every path
      that neither extends nor is a proper prefix of `d` untouched, and keeps
      every proper prefix of `d` present. */
  lemma {:induction false} LookupAfterDelete(j: Json, d: seq<string>, p: seq<string>)
    requires d != []
    ensures d <= p ==> Lookup(DeletePath(j, d), p) == None
    ensures !(d <= p) && !(p <= d) ==> Lookup(DeletePath(j, d), p) == Lookup(j, p)
    ensures p < d ==> (Lookup(DeletePath(j, d), p).Some? <==> Lookup(j, p).Some?)
    ensures p < d && Lookup(j, p).Some? ==>
              (Lookup(j, p).value.JObj? <==> Lookup(DeletePath(j, d), p).value.JObj?)
    decreases |d|
  {
    if p != [] && j.JObj? && d[0] in j.fields && |d| > 1 && p[0] == d[0] {
      assert d[1..] <= p[1..] <==> d <= p;
      assert p[1..] <= d[1..] <==> p <= d;
      assert p[1..] < d[1..] <==> p < d;
      LookupAfterDelete(j.fields[d[0]], d[1..], p[1..]);
    }
  }
}
