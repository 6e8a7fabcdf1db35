/**
 * The request bodies of the prompt and tool JSON routes, as the pydantic
 * models `PromptCreate`, `PromptUpdate`, `ToolCreate` and `ToolUpdate`
 * validate them, and the column dictionaries `model_dump` hands to the store.
 */
module Schemas {
  import opened Wrappers
  import opened Json

  const MaxNameLength: nat := 100

  /** `Field(..., min_length=1, max_length=100)` on `name`. */
  predicate ValidName(name: string) {
    1 <= |name| <= MaxNameLength
  }

  /** The value types the models declare. */
  datatype Kind =
    | Name      // str, 1..100 characters
    | Text      // str
    | OptText   // Optional[str]
    | OptName   // Optional[str], 1..100 characters when a str
    | OptDict   // Optional[Dict[str, Any]]

  predicate Accepts(kind: Kind, v: Json) {
    match kind
    case Name => v.JStr? && ValidName(v.s)
    case Text => v.JStr?
    case OptText => v.JNull? || v.JStr?
    case OptName => v.JNull? || (v.JStr? && ValidName(v.s))
    case OptDict => v.JNull? || v.JObj?
  }

  /** A declared field: its key, its type, and whether it has no default. */
  datatype Field = Field(key: string, kind: Kind, required: bool)

  const PromptCreateFields: seq<Field> :=
    [Field("name", Name, true), Field("content", Text, true), Field("metadata", OptDict, false)]
  const PromptUpdateFields: seq<Field> :=
    [Field("name", OptName, false), Field("content", OptText, false), Field("metadata", OptDict, false)]
  const ToolCreateFields: seq<Field> :=
    [Field("name", Name, true), Field("description", OptText, false), Field("parameters", OptDict, false), Field("api_config", OptDict, false)]
  const ToolUpdateFields: seq<Field> :=
    [Field("name", OptName, false), Field("description", OptText, false), Field("parameters", OptDict, false), Field("api_config", OptDict, false)]

  /** Ordered key/value pairs, as `dict.items()` yields them. */
  type Items = seq<(string, Json)>

  /** `base.update(items)`: later pairs overwrite earlier ones. */
  function Assign(base: map<string, Json>, items: Items): map<string, Json> {
    if items == [] then base
    else
      var last := items[|items| - 1];
      Assign(base, items[..|items| - 1])[last.0 := last.1]
  }

  /** `dict(items)`. */
  function Columns(items: Items): map<string, Json> {
    Assign(map[], items)
  }

  function Keys(fields: seq<Field>): set<string> {
    set f | f in fields :: f.key
  }

  predicate Fails(f: Field, body: map<string, Json>) {
    if f.key in body then !Accepts(f.kind, body[f.key]) else f.required
  }

  /** The keys of the fields that fail validation, in declaration order. */
  function Errors(fields: seq<Field>, body: map<string, Json>): (r: seq<string>)
    ensures r == [] <==> forall i :: 0 <= i < |fields| ==> !Fails(fields[i], body)
    ensures forall k :: k in r ==> k in Keys(fields)
  {
    if fields == [] then []
    else (if Fails(fields[0], body) then [fields[0].key] else []) + Errors(fields[1..], body)
  }

  /**
   * `model_dump()` (every declared field, an absent one as None) or
   * `model_dump(exclude_unset=True)` (only the fields the body sets).
   * Undeclared keys of the body are dropped.
   */
  function Dump(fields: seq<Field>, body: map<string, Json>, excludeUnset: bool): Items {
    if fields == [] then []
    else
      var key := fields[0].key;
      (if key in body then [(key, body[key])] else if excludeUnset then [] else [(key, JNull)])
      + Dump(fields[1..], body, excludeUnset)
  }

  /** Request-body validation: the dumped items, or the keys of the invalid fields (HTTP 422). */
  function Validate(fields: seq<Field>, body: Json, excludeUnset: bool): (r: Result<Items, seq<string>>)
    ensures r.Ok? <==> body.JObj? && forall i :: 0 <= i < |fields| ==> !Fails(fields[i], body.fields)
    ensures r.Err? ==> r.error != []
  {
    if !body.JObj? then Err(["body"])
    else
      var errors := Errors(fields, body.fields);
      if errors != [] then Err(errors) else Ok(Dump(fields, body.fields, excludeUnset))
  }

  // ----- Properties -----

  predicate DistinctKeys(fields: seq<Field>) {
    forall i, j :: 0 <= i < j < |fields| ==> fields[i].key != fields[j].key
  }

  /** The columns a dump yields, key by key. */
  function Dumped(fields: seq<Field>, body: map<string, Json>, excludeUnset: bool): map<string, Json> {
    if excludeUnset then map k | k in body && k in Keys(fields) :: body[k]
    else map k | k in Keys(fields) :: if k in body then body[k] else JNull
  }

  lemma {:induction false} AssignAppend(base: map<string, Json>, a: Items, b: Items)
    ensures Assign(base, a + b) == Assign(Assign(base, a), b)
    decreases |b|
  {
    if b == [] {
      assert a + b == a;
    } else {
      var last := b[|b| - 1];
      assert (a + b)[..|a + b| - 1] == a + b[..|b| - 1];
      AssignAppend(base, a, b[..|b| - 1]);
    }
  }

  /** Applying pairs one by one is a dict union with the pairs' own dict. */
  lemma {:induction false} AssignIsUnion(base: map<string, Json>, items: Items)
    ensures Assign(base, items) == base + Columns(items)
    decreases |items|
  {
    if items != [] {
      AssignIsUnion(base, items[..|items| - 1]);
    }
  }

  /** The pair a dump emits for its first field, if any. */
  function HeadPair(f: Field, body: map<string, Json>, excludeUnset: bool): Items {
    if f.key in body then [(f.key, body[f.key])] else if excludeUnset then [] else [(f.key, JNull)]
  }

  lemma DistinctTail(fields: seq<Field>)
    requires DistinctKeys(fields) && fields != []
    ensures DistinctKeys(fields[1..])
    ensures fields[0].key !in Keys(fields[1..])
    ensures Keys(fields) == {fields[0].key} + Keys(fields[1..])
  {
    var rest := fields[1..];
    forall i, j | 0 <= i < j < |rest| ensures rest[i].key != rest[j].key {
      assert rest[i] == fields[i + 1] && rest[j] == fields[j + 1];
    }
    forall j | 0 <= j < |rest| ensures rest[j].key != fields[0].key {
      assert rest[j] == fields[j + 1];
    }
    assert fields == [fields[0]] + rest;
  }

  lemma DumpedCons(fields: seq<Field>, body: map<string, Json>, excludeUnset: bool)
    requires DistinctKeys(fields) && fields != []
    ensures Columns(HeadPair(fields[0], body, excludeUnset)) + Dumped(fields[1..], body, excludeUnset)
      == Dumped(fields, body, excludeUnset)
  {
    DistinctTail(fields);
    HeadColumns(fields[0], body, excludeUnset);
    if excludeUnset {
      DumpedConsSet(fields, body);
    } else {
      DumpedConsAll(fields, body);
    }
  }

  lemma HeadColumns(f: Field, body: map<string, Json>, excludeUnset: bool)
    ensures Columns(HeadPair(f, body, excludeUnset)) ==
      if f.key in body then map[f.key := body[f.key]] else if excludeUnset then map[] else map[f.key := JNull]
  {
    var head := HeadPair(f, body, excludeUnset);
    if head != [] {
      assert |head| == 1 && head[..0] == [];
      assert Columns(head) == Assign(map[], [])[head[0].0 := head[0].1];
    }
  }

  lemma DumpedConsSet(fields: seq<Field>, body: map<string, Json>)
    requires fields != [] && fields[0].key !in Keys(fields[1..]) && Keys(fields) == {fields[0].key} + Keys(fields[1..])
    ensures (if fields[0].key in body then map[fields[0].key := body[fields[0].key]] else map[]) + Dumped(fields[1..], body, true)
      == Dumped(fields, body, true)
  {
    var key := fields[0].key;
    var l := (if key in body then map[key := body[key]] else map[]) + Dumped(fields[1..], body, true);
    var r := Dumped(fields, body, true);
    assert l.Keys == r.Keys;
    forall k | k in l ensures l[k] == r[k] {}
  }

  lemma DumpedConsAll(fields: seq<Field>, body: map<string, Json>)
    requires fields != [] && fields[0].key !in Keys(fields[1..]) && Keys(fields) == {fields[0].key} + Keys(fields[1..])
    ensures map[fields[0].key := if fields[0].key in body then body[fields[0].key] else JNull] + Dumped(fields[1..], body, false)
      == Dumped(fields, body, false)
  {
    var key := fields[0].key;
    var l := map[key := if key in body then body[key] else JNull] + Dumped(fields[1..], body, false);
    var r := Dumped(fields, body, false);
    assert l.Keys == r.Keys;
    forall k | k in l ensures l[k] == r[k] {}
  }

  lemma {:induction false} DumpColumns(fields: seq<Field>, body: map<string, Json>, excludeUnset: bool)
    requires DistinctKeys(fields)
    ensures Columns(Dump(fields, body, excludeUnset)) == Dumped(fields, body, excludeUnset)
    decreases |fields|
  {
    if fields == [] {
      assert Keys(fields) == {};
    } else {
      var head := HeadPair(fields[0], body, excludeUnset);
      var tail := Dump(fields[1..], body, excludeUnset);
      assert Dump(fields, body, excludeUnset) == head + tail;
      DistinctTail(fields);
      DumpColumns(fields[1..], body, excludeUnset);
      AssignAppend(map[], head, tail);
      AssignIsUnion(Columns(head), tail);
      DumpedCons(fields, body, excludeUnset);
    }
  }

  /**
   * A valid creation body is dumped with every declared field, an absent
   * optional one as None, and nothing else.
   */
  lemma CreateDump(fields: seq<Field>, body: Json)
    requires DistinctKeys(fields) && Validate(fields, body, false).Ok?
    ensures var columns := Columns(Validate(fields, body, false).value);
      columns.Keys == Keys(fields) &&
      forall k :: k in columns ==> columns[k] == if k in body.fields then body.fields[k] else JNull
  {
    DumpColumns(fields, body.fields, false);
  }

  /** A valid update body is dumped with exactly the declared fields it sets. */
  lemma UpdateDump(fields: seq<Field>, body: Json)
    requires DistinctKeys(fields) && Validate(fields, body, true).Ok?
    ensures var columns := Columns(Validate(fields, body, true).value);
      columns.Keys == body.fields.Keys * Keys(fields) &&
      forall k :: k in columns ==> columns[k] == body.fields[k]
  {
    DumpColumns(fields, body.fields, true);
  }

  /** A valid field's value is accepted by its declared type; a required one is present. */
  lemma ValidFieldAccepted(fields: seq<Field>, body: Json, excludeUnset: bool, i: nat)
    requires Validate(fields, body, excludeUnset).Ok? && i < |fields|
    ensures fields[i].required ==> fields[i].key in body.fields
    ensures fields[i].key in body.fields ==> Accepts(fields[i].kind, body.fields[fields[i].key])
  {
    assert !Fails(fields[i], body.fields);
  }

  lemma FieldListsDistinct()
    ensures DistinctKeys(PromptCreateFields) && DistinctKeys(PromptUpdateFields)
    ensures DistinctKeys(ToolCreateFields) && DistinctKeys(ToolUpdateFields)
  {
  }

  /** A prompt needs a name of 1..100 characters and a string content; metadata may be absent, None or a dict. */
  lemma PromptCreateRule(body: map<string, Json>)
    ensures Validate(PromptCreateFields, JObj(body), false).Ok? <==>
      "name" in body && body["name"].JStr? && ValidName(body["name"].s) &&
      "content" in body && body["content"].JStr? &&
      ("metadata" in body ==> body["metadata"].JNull? || body["metadata"].JObj?)
  {
    var fs := PromptCreateFields;
    assert fs[0] == Field("name", Name, true) && fs[1] == Field("content", Text, true) && fs[2] == Field("metadata", OptDict, false);
  }

  /** Every prompt-update field is optional; a name, when a string, has 1..100 characters. */
  lemma PromptUpdateRule(body: map<string, Json>)
    ensures Validate(PromptUpdateFields, JObj(body), true).Ok? <==>
      ("name" in body ==> body["name"].JNull? || (body["name"].JStr? && ValidName(body["name"].s))) &&
      ("content" in body ==> body["content"].JNull? || body["content"].JStr?) &&
      ("metadata" in body ==> body["metadata"].JNull? || body["metadata"].JObj?)
  {
    var fs := PromptUpdateFields;
    assert fs[0] == Field("name", OptName, false) && fs[1] == Field("content", OptText, false) && fs[2] == Field("metadata", OptDict, false);
  }

  /** A tool needs only a name of 1..100 characters; description, parameters and api_config are optional. */
  lemma ToolCreateRule(body: map<string, Json>)
    ensures Validate(ToolCreateFields, JObj(body), false).Ok? <==>
      "name" in body && body["name"].JStr? && ValidName(body["name"].s) &&
      ("description" in body ==> body["description"].JNull? || body["description"].JStr?) &&
      ("parameters" in body ==> body["parameters"].JNull? || body["parameters"].JObj?) &&
      ("api_config" in body ==> body["api_config"].JNull? || body["api_config"].JObj?)
  {
    var fs := ToolCreateFields;
    assert fs[0] == Field("name", Name, true) && fs[1] == Field("description", OptText, false);
    assert fs[2] == Field("parameters", OptDict, false) && fs[3] == Field("api_config", OptDict, false);
  }

  /** Every tool-update field is optional; the empty body is a valid update. */
  lemma ToolUpdateRule(body: map<string, Json>)
    ensures Validate(ToolUpdateFields, JObj(body), true).Ok? <==>
      ("name" in body ==> body["name"].JNull? || (body["name"].JStr? && ValidName(body["name"].s))) &&
      ("description" in body ==> body["description"].JNull? || body["description"].JStr?) &&
      ("parameters" in body ==> body["parameters"].JNull? || body["parameters"].JObj?) &&
      ("api_config" in body ==> body["api_config"].JNull? || body["api_config"].JObj?)
    ensures Validate(ToolUpdateFields, JObj(map[]), true) == Ok([])
  {
    var fs := ToolUpdateFields;
    assert fs[0] == Field("name", OptName, false) && fs[1] == Field("description", OptText, false);
    assert fs[2] == Field("parameters", OptDict, false) && fs[3] == Field("api_config", OptDict, false);
  }
}
