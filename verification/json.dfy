/**
 * The values `json.loads` produces, and the Python operations the client applies to them:
 * `v[key]`, `for x in v`, `key in v` and `v.get(key, default)`, each with the exception
 * CPython raises when `v` has the wrong type.
 */
module Json {
  import opened Wrappers
  import opened Errors
  import Dict
  import Strings

  /** A decoded JSON value. Numbers are integers; an object is a dict (distinct keys, in
      document order). */
  datatype Json =
    | JNull
    | JBool(b: bool)
    | JNum(n: int)
    | JStr(s: string)
    | JArr(elems: seq<Json>)
    | JObj(fields: Dict.Dict<string, Json>)

  /** An object literal built from key/value pairs. */
  function Obj(fields: seq<(string, Json)>): Json {
    JObj(Dict.Dict(fields))
  }

  /** `type(v).__name__` of the decoded value. */
  function TypeName(j: Json): string {
    match j
    case JNull => "NoneType"
    case JBool(_) => "bool"
    case JNum(_) => "int"
    case JStr(_) => "str"
    case JArr(_) => "list"
    case JObj(_) => "dict"
  }

  /** `j[key]` with a string key. Only a dict holding `key` answers. */
  function Index(j: Json, key: string): (r: Result<Json, Error>)
    ensures r.Success? <==> j.JObj? && key in Dict.Keys(j.fields)
    ensures r.Success? ==> Dict.Get(j.fields, key) == Some(r.value)
    ensures j.JObj? && r.Failure? ==> r.error == KeyError(key)
    ensures !j.JObj? ==> r.Failure? && r.error.TypeError?
  {
    match j
    case JObj(fs) =>
      (match Dict.Get(fs, key)
       case Some(v) => Success(v)
       case None => Failure(KeyError(key)))
    case JArr(_) => Failure(TypeError("list indices must be integers or slices, not str"))
    case JStr(_) => Failure(TypeError("string indices must be integers, not 'str'"))
    case _ => Failure(TypeError("'" + TypeName(j) + "' object is not subscriptable"))
  }

  /** The elements `for x in j` visits: a list's items, a dict's keys, a string's characters. */
  function Iter(j: Json): (r: Result<seq<Json>, Error>)
    ensures r.Success? <==> j.JArr? || j.JObj? || j.JStr?
    ensures j.JArr? ==> r == Success(j.elems)
    ensures j.JObj? ==> r.Success? && |r.value| == |j.fields.entries|
                        && forall i :: 0 <= i < |r.value| ==> r.value[i] == JStr(j.fields.entries[i].0)
    ensures j.JStr? ==> r.Success? && |r.value| == |j.s|
                        && forall i :: 0 <= i < |r.value| ==> r.value[i] == JStr([j.s[i]])
  {
    match j
    case JArr(xs) => Success(xs)
    case JObj(fs) => Success(seq(|fs.entries|, i requires 0 <= i < |fs.entries| => JStr(fs.entries[i].0)))
    case JStr(s) => Success(seq(|s|, i requires 0 <= i < |s| => JStr([s[i]])))
    case _ => Failure(TypeError("'" + TypeName(j) + "' object is not iterable"))
  }

  /** `key in j` for a string `key`: a dict key, a list element, or a substring. */
  function Contains(j: Json, key: string): (r: Result<bool, Error>)
    ensures r.Success? <==> j.JArr? || j.JObj? || j.JStr?
    ensures j.JObj? ==> r == Success(key in Dict.Keys(j.fields))
    ensures j.JArr? ==> r == Success(JStr(key) in j.elems)
    ensures j.JStr? ==> r == Success(Strings.Occurs(key, j.s))
  {
    match j
    case JObj(fs) => Success(key in Dict.Keys(fs))
    case JArr(xs) => Success(JStr(key) in xs)
    case JStr(s) => Success(Strings.Occurs(key, s))
    case _ => Failure(TypeError("argument of type '" + TypeName(j) + "' is not iterable"))
  }

  /** `j.get(key, default)`: only a dict has `.get`; a present key answers its value, even null. */
  function GetOr(j: Json, key: string, default: Json): (r: Result<Json, Error>)
    ensures r.Success? <==> j.JObj?
    ensures j.JObj? && key in Dict.Keys(j.fields) ==> Dict.Get(j.fields, key) == Some(r.value)
    ensures j.JObj? && key !in Dict.Keys(j.fields) ==> r == Success(default)
    ensures !j.JObj? ==> r.Failure? && r.error.AttributeError?
  {
    match j
    case JObj(fs) => Success(Dict.Get(fs, key).GetOr(default))
    case _ => Failure(AttributeError("'" + TypeName(j) + "' object has no attribute 'get'"))
  }

  /** A value the model needs as a Python `str` (names, content addresses). */
  function AsString(j: Json, what: string): (r: Result<string, Error>)
    ensures r.Success? <==> j.JStr?
    ensures r.Success? ==> r.value == j.s
  {
    if j.JStr? then Success(j.s) else Failure(TypeError(what + " must be a str, not '" + TypeName(j) + "'"))
  }

  /** Subscripting an object literal with one of its keys finds that key's value. */
  lemma IndexObj(fields: seq<(string, Json)>, i: nat)
    requires Dict.Distinct(fields) && i < |fields|
    ensures Index(Obj(fields), fields[i].0) == Success(fields[i].1)
  {
    Dict.LookupAt(fields, i);
  }
}
