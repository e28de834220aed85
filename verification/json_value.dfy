/** Decoded JSON values, the shape every LLM answer and LangGraph state dict takes. */
module JsonValues {
  import opened Wrappers
  import opened Errors

  /** A value as `json.loads` returns it; an object keeps its members in text order. */
  datatype Json =
    | JNull
    | JBool(b: bool)
    | JNumber(n: real)
    | JString(s: string)
    | JArray(items: seq<Json>)
    | JObject(fields: seq<(string, Json)>)

  /** The value a decoded object holds for `key`: when a key is repeated, the last one wins. */
  function Lookup(fields: seq<(string, Json)>, key: string): (r: Option<Json>)
    ensures r.Some? <==> exists i :: 0 <= i < |fields| && fields[i].0 == key
    ensures r.Some? ==> exists i :: 0 <= i < |fields| && fields[i] == (key, r.value)
                                   && forall k :: i < k < |fields| ==> fields[k].0 != key
  {
    if |fields| == 0 then None
    else if fields[|fields| - 1].0 == key then Some(fields[|fields| - 1].1)
    else Lookup(fields[..|fields| - 1], key)
  }

  /** `value.get(key, default)`: only an object has `.get`; anything else raises AttributeError. */
  function Get(j: Json, key: string, default: Json): (r: Result<Json, Error>)
    ensures r.Failure? <==> !j.JObject?
    ensures r.Failure? ==> r.error == AttributeError("get")
    ensures j.JObject? && Lookup(j.fields, key).None? ==> r == Success(default)
    ensures j.JObject? && Lookup(j.fields, key).Some? ==> r == Success(Lookup(j.fields, key).value)
  {
    match j
    case JObject(fields) => Success(Lookup(fields, key).GetOr(default))
    case _ => Failure(AttributeError("get"))
  }
}
