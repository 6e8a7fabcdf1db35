/**
 * `SwaggerModel`, a read-only wrapper that exposes the keys of a JSON
 * document as attributes, and `Loader`, which finds resource declarations and
 * model definitions in a Swagger 1.2 resource listing.
 */
module SwaggerModel {
  import opened Wrappers
  import opened Json

  /** A wrapped JSON value together with the API client it belongs to. */
  datatype Model<C> = Model(apiClient: C, raw: Json)

  /** What reading an attribute gives back: a nested model for a dict, the plain value otherwise. */
  datatype Attr<C> = Nested(model: Model<C>) | Plain(value: Json)

  /** The JSON value behind an attribute, whichever way it was returned. */
  function Unwrap<C>(a: Attr<C>): Json {
    match a
    case Nested(m) => m.raw
    case Plain(v) => v
  }

  /**
   * `SwaggerModel.__getattr__(item)`. Python calls it only for names that
   * ordinary lookup misses, so its `__dict__` fallback (which holds only the
   * two instance attributes) never answers and is not modelled.
   */
  function GetAttr<C>(m: Model<C>, item: string): (r: Result<Attr<C>, Exc>)
    ensures r.Ok? && r.value.Nested? ==> r.value.model.apiClient == m.apiClient && r.value.model.raw.JObj?
    ensures r.Ok? && r.value.Plain? ==> !r.value.value.JObj?
  {
    var present :- Contains(m.raw, item);
    if present then
      var val :- Index(m.raw, item);
      if val.JObj? then Ok(Nested(Model(m.apiClient, val))) else Ok(Plain(val))
    else
      Err(NoAttribute("SwaggerModel", item))
  }

  /** `raw_json`: the wrapped value itself. */
  function RawJson<C>(m: Model<C>): Json {
    m.raw
  }

  /**
   * Over a dict, reading a key and unwrapping the answer gives back exactly
   * the stored value, and reading a missing key raises `AttributeError`.
   */
  lemma GetAttrRoundTrip<C>(m: Model<C>, item: string)
    requires m.raw.JObj?
    ensures item in m.raw.fields ==> GetAttr(m, item).Ok? && Unwrap(GetAttr(m, item).value) == RawJson(m).fields[item]
    ensures item in m.raw.fields ==> (GetAttr(m, item).value.Nested? <==> m.raw.fields[item].JObj?)
    ensures item !in m.raw.fields ==> GetAttr(m, item).Err? && GetAttr(m, item).error.AttributeError?
  {
  }

  /** `Loader.get_resource(name)` over the loaded resource listing `resources`. */
  function GetResource<C>(apiClient: C, resources: Json, name: string, py: Builtins): (r: Result<Model<C>, Exc>)
    ensures r.Ok? ==> r.value.apiClient == apiClient && r.value.raw.JObj? && Get(r.value.raw, "name", JNull) == Ok(JStr(name))
    ensures !Truthy(resources) ==> r == Err(AttributeError("Resource '" + name + "' not found in Swagger spec"))
  {
    var hasApis :- if Truthy(resources) then Contains(resources, "apis") else Ok(false);
    var found :- if hasApis then
        var apis :- Index(resources, "apis");
        var decls :- Iterate(py, apis);
        FirstWith(decls, "name", name)
      else Ok(None);
    if found.Some? then Ok(Model(apiClient, found.value))
    else Err(AttributeError("Resource '" + name + "' not found in Swagger spec"))
  }

  /** With a listing whose `apis` is a list of dicts, `get_resource` succeeds exactly when some declaration carries the name. */
  lemma GetResourceFindsDeclared<C>(apiClient: C, apis: seq<Json>, rest: map<string, Json>, name: string, py: Builtins)
    requires forall k :: 0 <= k < |apis| ==> apis[k].JObj?
    ensures var r := GetResource(apiClient, JObj(rest["apis" := JArr(apis)]), name, py);
      (r.Ok? <==> exists k :: 0 <= k < |apis| && Get(apis[k], "name", JNull) == Ok(JStr(name)))
      && (r.Err? ==> r.error.AttributeError?)
      && (r.Ok? ==> r.value.apiClient == apiClient && r.value.raw in apis)
  {
    FirstWithIsFirst(apis, "name", name);
    var resources := JObj(rest["apis" := JArr(apis)]);
    assert Truthy(resources) by { assert "apis" in resources.fields; }
    FirstWithTotal(apis, "name", name);
  }

  /** `Loader.load_model(name)`: the `models` entry when present, `None` otherwise. */
  function LoadModel(resources: Json, modelName: string): (r: Result<Option<Json>, Exc>)
    ensures !Truthy(resources) ==> r == Ok(None)
    ensures r.Ok? && r.value.Some? ==>
      resources.JObj? && "models" in resources.fields && resources.fields["models"].JObj? &&
      modelName in resources.fields["models"].fields && r.value.value == resources.fields["models"].fields[modelName]
  {
    var hasModels :- if Truthy(resources) then Contains(resources, "models") else Ok(false);
    if !hasModels then Ok(None)
    else
      var models :- Index(resources, "models");
      var present :- Contains(models, modelName);
      if !present then Ok(None)
      else
        var m :- Index(models, modelName);
        Ok(Some(m))
  }

  /** When `models` is a dict, `load_model` returns `models[name]` if present and `None` if not; it never raises. */
  lemma LoadModelFromDict(rest: map<string, Json>, models: map<string, Json>, name: string)
    ensures var r := LoadModel(JObj(rest["models" := JObj(models)]), name);
      r.Ok? && (name in models ==> r.value == Some(models[name])) && (name !in models ==> r.value == None)
  {
    assert "models" in rest["models" := JObj(models)];
  }
}
