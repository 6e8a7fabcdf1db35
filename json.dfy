/**
 * Decoded JSON documents as the Python code sees them (dicts, lists, strings,
 * integers, booleans, None), the exceptions the modelled code raises, and the
 * handful of Python operations on such values that the code uses: truthiness,
 * `in`, `d[k]`, `d.get(k, default)` and iteration.
 */
module Json {
  import opened Wrappers
  import Text

  datatype Json =
    | JNull
    | JBool(b: bool)
    | JInt(i: int)
    | JStr(s: string)
    | JArr(items: seq<Json>)
    | JObj(fields: map<string, Json>)

  /** The Python exceptions the modelled code raises, propagates or catches. */
  datatype Exc =
    | AttributeError(message: string)
    | KeyError(key: string)
    | TypeError
    | RuntimeError(message: string)
    | HttpError(status: int)
    | ConnectionFailure
    | NameError(name: string)

  /**
   * The Python built-ins that turn values into text and back: `str(v)`,
   * `json.dumps(v)` and `json.loads(s)` (`None` when `s` is not JSON), and
   * the order in which a dict yields its keys (the order they were inserted
   * in, which a decoded value does not record). They are parameters of the
   * model rather than definitions of it.
   */
  datatype Builtins = Builtins(str: Json -> string, dumps: Json -> string, loads: string -> Option<Json>,
                               keys: map<string, Json> -> seq<string>)

  /** `ks` lists the keys of `m`, each once. */
  ghost predicate ListsKeys(ks: seq<string>, m: map<string, Json>) {
    (forall k :: k in m <==> k in ks) &&
    (forall i, j :: 0 <= i < j < |ks| ==> ks[i] != ks[j])
  }

  /** Python truthiness: `None`, `False`, `0`, `""`, `[]` and `{}` are false. */
  predicate Truthy(j: Json) {
    match j
    case JNull => false
    case JBool(b) => b
    case JInt(i) => i != 0
    case JStr(s) => s != ""
    case JArr(a) => |a| > 0
    case JObj(m) => |m| > 0
  }

  /** Lists and dicts cannot be dict keys or be looked up in one. */
  predicate Hashable(j: Json) {
    !j.JArr? && !j.JObj?
  }

  /** The Python type name used in error messages. */
  function TypeName(j: Json): string {
    match j
    case JNull => "NoneType"
    case JBool(_) => "bool"
    case JInt(_) => "int"
    case JStr(_) => "str"
    case JArr(_) => "list"
    case JObj(_) => "dict"
  }

  /** `key in container` for a string key: a dict tests its keys, a list its elements, a string its substrings. */
  function Contains(container: Json, key: string): Result<bool, Exc> {
    match container
    case JObj(m) => Ok(key in m)
    case JArr(a) => Ok(JStr(key) in a)
    case JStr(s) => Ok(Text.IsSubstring(key, s))
    case _ => Err(TypeError)
  }

  /** The `AttributeError` raised when a value of type `typeName` has no attribute `attr`. */
  function NoAttribute(typeName: string, attr: string): (e: Exc)
    ensures e.AttributeError? && Text.StartsWith(e.message, "'" + typeName + "'")
  {
    AttributeError("'" + typeName + "' object has no attribute '" + attr + "'")
  }

  /** `container[key]` for a string key. */
  function Index(container: Json, key: string): Result<Json, Exc> {
    match container
    case JObj(m) => if key in m then Ok(m[key]) else Err(KeyError(key))
    case _ => Err(TypeError)
  }

  /** `d.get(key, default)`; only a dict has `get`. */
  function Get(d: Json, key: string, default: Json): Result<Json, Exc> {
    match d
    case JObj(m) => Ok(if key in m then m[key] else default)
    case _ => Err(NoAttribute(TypeName(d), "get"))
  }

  /** A string has no `get`. */
  lemma StrHasNoGet(s: string, key: string, default: Json)
    ensures Get(JStr(s), key, default) == Err(NoAttribute("str", "get"))
  {
  }

  /**
   * The elements a Python `for` loop visits: a list's items, a string's
   * characters, a dict's keys (as strings, in the order `py.keys` gives).
   */
  function Iterate(py: Builtins, j: Json): (r: Result<seq<Json>, Exc>)
    ensures r.Ok? <==> j.JArr? || j.JStr? || j.JObj?
    ensures j.JArr? ==> r == Ok(j.items)
    ensures j.JStr? ==> r.Ok? && |r.value| == |j.s| && forall k :: 0 <= k < |j.s| ==> r.value[k] == JStr([j.s[k]])
    ensures j.JObj? ==> r.Ok? && |r.value| == |py.keys(j.fields)| &&
                        forall k :: 0 <= k < |r.value| ==> r.value[k] == JStr(py.keys(j.fields)[k])
  {
    match j
    case JArr(a) => Ok(a)
    case JStr(s) => Ok(seq(|s|, k requires 0 <= k < |s| => JStr([s[k]])))
    case JObj(m) => var ks := py.keys(m); Ok(seq(|ks|, k requires 0 <= k < |ks| => JStr(ks[k])))
    case _ => Err(TypeError)
  }

  /** Python's `str(v)`: a string is itself; `None`, booleans and integers have fixed spellings; lists and dicts use `py.str`. */
  function Str(py: Builtins, j: Json): string {
    match j
    case JStr(s) => s
    case JNull => "None"
    case JBool(b) => if b then "True" else "False"
    case JInt(i) => Decimal(i)
    case _ => py.str(j)
  }

  /** Decimal spelling of an integer, with a leading `-` when negative. */
  function Decimal(i: int): string
    decreases if i < 0 then 1 - i else i
  {
    if i < 0 then "-" + Decimal(-i)
    else if i < 10 then [['0', '1', '2', '3', '4', '5', '6', '7', '8', '9'][i]]
    else Decimal(i / 10) + Decimal(i % 10)
  }

  /** The search loop `for x in items: if x.get(key) == value: return x`; `.get` on a non-dict element raises. */
  function FirstWith(items: seq<Json>, key: string, value: string): (r: Result<Option<Json>, Exc>)
    ensures r.Ok? && r.value.Some? ==>
      r.value.value in items && r.value.value.JObj? && Get(r.value.value, key, JNull) == Ok(JStr(value))
  {
    if items == [] then Ok(None)
    else
      var v :- Get(items[0], key, JNull);
      if v == JStr(value) then Ok(Some(items[0]))
      else FirstWith(items[1..], key, value)
  }

  /** Every item before index `i` is a dict whose `key` is not `value`. */
  predicate NoneWithBefore(items: seq<Json>, key: string, value: string, i: int)
    requires 0 <= i <= |items|
  {
    forall k :: 0 <= k < i ==> items[k].JObj? && Get(items[k], key, JNull) != Ok(JStr(value))
  }

  /** The search returns the earliest match, and reports none only after checking every item. */
  lemma {:induction false} FirstWithIsFirst(items: seq<Json>, key: string, value: string)
    ensures FirstWith(items, key, value) == Ok(None) ==> NoneWithBefore(items, key, value, |items|)
    ensures FirstWith(items, key, value).Ok? && FirstWith(items, key, value).value.Some? ==>
      exists i :: 0 <= i < |items| && items[i] == FirstWith(items, key, value).value.value && NoneWithBefore(items, key, value, i)
  {
    if items != [] {
      FirstWithIsFirst(items[1..], key, value);
      var r := FirstWith(items, key, value);
      if items[0].JObj? && Get(items[0], key, JNull) != Ok(JStr(value)) {
        if r.Ok? && r.value.Some? {
          var i :| 0 <= i < |items[1..]| && items[1..][i] == r.value.value && NoneWithBefore(items[1..], key, value, i);
          assert items[i + 1] == r.value.value && NoneWithBefore(items, key, value, i + 1);
        }
      } else if items[0].JObj? {
        assert items[0] == r.value.value && NoneWithBefore(items, key, value, 0);
      }
    }
  }

  /** Over a list of dicts the search never raises. */
  lemma {:induction false} FirstWithTotal(items: seq<Json>, key: string, value: string)
    requires forall k :: 0 <= k < |items| ==> items[k].JObj?
    ensures FirstWith(items, key, value).Ok?
  {
    if items != [] {
      FirstWithTotal(items[1..], key, value);
    }
  }
}
