/**
 * The structured values the browser client and the Python server exchange.
 * Decoding and encoding text (JSON.parse, JSON.stringify, json.loads,
 * json.dumps) are not modelled here: the components that need them take
 * them as function parameters.
 */
module Json {
  import opened Wrappers

  datatype Json =
    | JNull
    | JBool(b: bool)
    | JNum(n: int)
    | JStr(s: string)
    | JArr(items: seq<Json>)
    | JObj(fields: map<string, Json>)

  /** JavaScript truthiness of a decoded value, as in `if (value) ...`. */
  predicate Truthy(j: Json) {
    match j
    case JNull => false
    case JBool(b) => b
    case JNum(n) => n != 0
    case JStr(s) => s != ""
    case JArr(_) => true
    case JObj(_) => true
  }

  /** Property access `value.key`: `None` is `undefined` (a missing key, or a value that is not an object). */
  function Field(j: Json, key: string): Option<Json> {
    if j.JObj? && key in j.fields then Some(j.fields[key]) else None
  }

  /** Strings as a JSON array of strings. */
  function StrArray(names: seq<string>): Json {
    JArr(seq(|names|, i requires 0 <= i < |names| => JStr(names[i])))
  }

  /** The strings of a JSON array whose every element is a string; `None` for anything else. */
  function Strings(j: Json): (r: Option<seq<string>>)
    ensures r.Some? ==> StrArray(r.value) == j
  {
    if j.JArr? && forall i :: 0 <= i < |j.items| ==> j.items[i].JStr?
    then Some(seq(|j.items|, i requires 0 <= i < |j.items| => j.items[i].s))
    else None
  }

  /** Reading back an encoded array of strings gives the strings. */
  lemma StringsOfStrArray(names: seq<string>)
    ensures Strings(StrArray(names)) == Some(names)
  {
    var j := StrArray(names);
    assert forall i :: 0 <= i < |j.items| ==> j.items[i].JStr?;
    assert seq(|j.items|, i requires 0 <= i < |j.items| => j.items[i].s) == names;
  }
}
