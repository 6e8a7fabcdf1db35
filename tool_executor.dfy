/**
 * `execute_api_tool(api_config, parameters_schema, tool_input)`: the
 * decision procedure that turns a tool's configuration, its parameter schema
 * and the model's input into either an error message or an HTTP request
 * plan, and the formatting of the request's outcome as the tool's answer.
 * The HTTP exchange itself is a parameter.
 */
module ToolExecutor {
  import opened Wrappers
  import opened Json
  import Text

  const MissingUrl: string := "Error: " + "API URL is not defined in tool configuration."

  /** The request timeout in seconds (a float in the source). */
  const Timeout: int := 20

  /** The request `client.request(...)` is asked to send. */
  datatype Plan = Plan(verb: string, url: Json, params: Option<map<string, Json>>, json: Option<Json>, data: Option<string>, headers: Json, timeout: int)

  /** Either an error message returned before any request, or the request to send. */
  datatype Decision = Refused(message: string) | Send(plan: Plan)

  /** The input after normalisation, or the error message that ends the call. */
  datatype Parsed = Input(value: Json) | Reject(message: string)

  /** What the HTTP exchange produced: a response, an `httpx.RequestError`, or any other exception. */
  datatype Outcome = Answered(status: int, text: string) | RequestFailed(detail: string) | Crashed(detail: string)

  /** Python's `len`. */
  function Len(j: Json): Result<int, Exc> {
    match j
    case JStr(s) => Ok(|s|)
    case JArr(a) => Ok(|a|)
    case JObj(m) => Ok(|m|)
    case _ => Err(TypeError)
  }

  /** `required_params[0]` for a one-element value. */
  function FirstOf(required: Json): Result<Json, Exc>
    requires Len(required) == Ok(1)
  {
    match required
    case JArr(a) => Ok(a[0])
    case JStr(s) => Ok(JStr(s))
    case JObj(_) => Err(KeyError("0"))
  }

  /** `props.get(key, {}).get("type")`; dict keys are strings here, so a key of another type finds nothing. */
  function PropType(props: Json, key: Json): Result<Json, Exc> {
    if !props.JObj? then Err(NoAttribute(TypeName(props), "get"))
    else if !Hashable(key) then Err(TypeError)
    else
      var prop := if key.JStr? && key.s in props.fields then props.fields[key.s] else JObj(map[]);
      Get(prop, "type", JNull)
  }

  /** `parameters_schema and parameters_schema.get("type") == "object"`. */
  function IsObjectSchema(schema: Json): Result<bool, Exc> {
    if !Truthy(schema) then Ok(false)
    else
      var ty :- Get(schema, "type", JNull);
      Ok(ty == JStr("object"))
  }

  /** The condition of line 36: an object schema with more than one property. */
  function ExpectsSeveral(schema: Json): Result<bool, Exc> {
    var isObject :- IsObjectSchema(schema);
    if !isObject then Ok(false)
    else
      var props :- Get(schema, "properties", JObj(map[]));
      var n :- Len(props);
      Ok(n > 1)
  }

  function NotValidJson(input: string, name: string): (m: string)
    ensures Text.StartsWith(m, "Error: ")
  {
    "Error: Input '" + input + "' for tool '" + name + "' is not valid JSON for the expected parameters."
  }

  function NotAnObject(name: string, input: string): (m: string)
    ensures Text.StartsWith(m, "Error: ")
  {
    "Error: Tool '" + name + "' expects a JSON object, but received a plain string: " + input
  }

  /**
   * Lines 32-52: a string input is decoded as JSON; a string that is not JSON
   * is kept, unless the schema expects several properties, in which case it
   * fills the one required string property or is rejected.
   */
  function ParseInput(schema: Json, toolInput: Json, name: string, py: Builtins): (r: Result<Parsed, Exc>)
    ensures !toolInput.JStr? ==> r == Ok(Input(toolInput))
    ensures toolInput.JStr? && py.loads(toolInput.s).Some? ==> r == Ok(Input(py.loads(toolInput.s).value))
    ensures r.Err? ==> toolInput.JStr? && py.loads(toolInput.s) == None
    ensures r.Ok? && r.value.Reject? ==>
      toolInput.JStr? && py.loads(toolInput.s) == None && r.value.message == NotValidJson(toolInput.s, name)
    ensures r.Ok? && r.value.Input? && toolInput.JStr? && py.loads(toolInput.s) == None ==>
      r.value.value == toolInput ||
      (r.value.value.JObj? && |r.value.value.fields| == 1 && toolInput in r.value.value.fields.Values)
  {
    if !toolInput.JStr? then Ok(Input(toolInput))
    else match py.loads(toolInput.s)
      case Some(v) => Ok(Input(v))
      case None =>
        var several :- ExpectsSeveral(schema);
        if !several then Ok(Input(toolInput))
        else
          var required :- Get(schema, "required", JArr([]));
          var props :- Get(schema, "properties", JObj(map[]));
          var count :- Len(required);
          if count != 1 then Ok(Reject(NotValidJson(toolInput.s, name)))
          else
            var first :- FirstOf(required);
            var ty :- PropType(props, first);
            if ty == JStr("string") && first.JStr? then Ok(Input(JObj(map[first.s := toolInput])))
            else Ok(Reject(NotValidJson(toolInput.s, name)))
  }

  /** Lines 55-67: the query parameters of a GET. */
  function QueryFor(parsed: Json, schema: Json): (r: Result<map<string, Json>, Exc>)
    ensures parsed.JObj? ==> r == Ok(parsed.fields)
    ensures r.Err? ==> !parsed.JObj? && Truthy(schema)
    ensures r.Ok? && !parsed.JObj? ==> |r.value| <= 1 && forall k :: k in r.value ==> r.value[k] == parsed
  {
    if parsed.JObj? then Ok(parsed.fields)
    else if !Truthy(schema) then Ok(map[])
    else
      var props :- Get(schema, "properties", JObj(map[]));
      if !props.JObj? then Err(NoAttribute(TypeName(props), "keys"))
      else if |props.fields| != 1 then Ok(map[])
      else
        var k := OnlyKey(props.fields);
        var _ :- Get(props.fields[k], "type", JNull);
        Ok(map[k := parsed])
  }

  /** The single key of a one-entry dict. */
  function OnlyKey<V>(m: map<string, V>): (k: string)
    requires |m| == 1
    ensures k in m && m.Keys == {k}
  {
    var k :| k in m;
    assert m.Keys == {k} by {
      var rest := m.Keys - {k};
      assert m.Keys == rest + {k};
      assert |rest| == 0;
    }
    k
  }

  predicate SendsBody(verb: string) {
    verb == "POST" || verb == "PUT" || verb == "PATCH"
  }

  /** Lines 70-85: the body of a POST, PUT or PATCH. */
  function BodyFor(parsed: Json, schema: Json, toolInput: Json, name: string, py: Builtins): (r: Result<Result<Json, string>, Exc>)
    ensures parsed.JObj? ==> r == Ok(Ok(parsed))
    ensures r.Err? ==> parsed.JStr? && py.loads(parsed.s) == None
    ensures r.Ok? && r.value.Err? ==>
      parsed.JStr? && py.loads(parsed.s) == None && r.value.error == NotAnObject(name, Str(py, toolInput))
    ensures r.Ok? && r.value.Ok? ==>
      r.value.value == parsed || r.value.value == JObj(map["value" := parsed]) ||
      (parsed.JStr? && py.loads(parsed.s) == Some(r.value.value))
  {
    if parsed.JObj? then Ok(Ok(parsed))
    else if !parsed.JStr? then Ok(Ok(JObj(map["value" := parsed])))
    else match py.loads(parsed.s)
      case Some(v) => Ok(Ok(v))
      case None =>
        var isObject :- IsObjectSchema(schema);
        if isObject then Ok(Err(NotAnObject(name, Str(py, toolInput))))
        else Ok(Ok(JObj(map["value" := parsed])))
  }

  /** Lines 94-104: what reaches `client.request`. */
  function Assemble(verb: string, url: Json, query: map<string, Json>, body: Option<Json>, headers: Json): (p: Plan)
    ensures p.verb == verb && p.url == url && p.headers == headers && p.timeout == Timeout
    ensures p.params.Some? ==> verb == "GET" && |p.params.value| > 0
    ensures p.json.Some? || p.data.Some? ==> SendsBody(verb)
    ensures !(p.json.Some? && p.data.Some?)
  {
    Plan(verb, url,
         if verb == "GET" && |query| > 0 then Some(query) else None,
         if SendsBody(verb) && body.Some? && (body.value.JObj? || body.value.JArr?) then body else None,
         if SendsBody(verb) && body.Some? && body.value.JStr? then Some(body.value.s) else None,
         headers, Timeout)
  }

  /** `api_config.get("method", "GET").upper()`. */
  function VerbOf(config: Json): Result<string, Exc> {
    var m :- Get(config, "method", JStr("GET"));
    if m.JStr? then Ok(Text.Upper(m.s)) else Err(NoAttribute(TypeName(m), "upper"))
  }

  /** Everything `execute_api_tool` decides before the request. */
  function Prepare(config: Json, schema: Json, toolInput: Json, py: Builtins): (r: Result<Decision, Exc>)
    ensures r.Ok? && r.value.Send? ==> Truthy(r.value.plan.url) && r.value.plan.timeout == Timeout
    ensures r.Ok? && r.value.Refused? ==> Text.StartsWith(r.value.message, "Error: ")
    ensures !config.JObj? ==> r == Err(NoAttribute(TypeName(config), "get"))
    ensures r.Err? ==> r.error.TypeError? || r.error.AttributeError? || r.error.KeyError?
  {
    // Every `api_config.get` raises alike on a value that is not a dict.
    if !config.JObj? then Err(NoAttribute(TypeName(config), "get"))
    else
    var url := Get(config, "url", JNull).value;
    var verb :- VerbOf(config);
    var headers := Get(config, "headers", JObj(map[])).value;
    var name := Str(py, Get(config, "name", JStr("Unknown Tool")).value);
    if !Truthy(url) then Ok(Refused(MissingUrl))
    else
      var parsed :- ParseInput(schema, toolInput, name, py);
      match parsed
      case Reject(message) => Ok(Refused(message))
      case Input(value) =>
        if verb == "GET" then
          var query :- QueryFor(value, schema);
          Ok(Send(Assemble(verb, url, query, None, headers)))
        else if SendsBody(verb) then
          var body :- BodyFor(value, schema, toolInput, name, py);
          match body
          case Err(message) => Ok(Refused(message))
          case Ok(b) => Ok(Send(Assemble(verb, url, map[], Some(b), headers)))
        else Ok(Send(Assemble(verb, url, map[], None, headers)))
  }

  /** `text[:200]`. */
  function Truncate(text: string, n: nat): (r: string)
    ensures |r| <= n && Text.StartsWith(text, r)
    ensures |text| <= n ==> r == text
  {
    if |text| <= n then text else text[..n]
  }

  /** `response.raise_for_status()` in httpx raises for every status outside 2xx. */
  predicate IsSuccess(status: int) {
    200 <= status < 300
  }

  /** The tool's answer when the request went wrong. */
  function ErrorText(message: string): (r: string)
    ensures Text.StartsWith(r, "Error: ") && r[|"Error: "|..] == message
  {
    Text.StartsWithConcat("Error: ", message);
    assert ("Error: " + message)[|"Error: "|..] == message;
    "Error: " + message
  }

  /** Lines 107-129: the tool's answer for each outcome of the request. */
  function Report(url: Json, outcome: Outcome, py: Builtins): (r: string)
    ensures !(outcome.Answered? && IsSuccess(outcome.status)) ==> Text.StartsWith(r, "Error: ")
    ensures outcome.Answered? && IsSuccess(outcome.status) && py.loads(outcome.text) == None ==> r == outcome.text
  {
    match outcome
    case Answered(status, text) =>
      if IsSuccess(status) then
        match py.loads(text)
        case Some(v) => py.dumps(v)
        case None => text
      else
        var details := match py.loads(text)
          case Some(v) => py.dumps(v)
          case None => Truncate(text, 200);
        ErrorText("API request to " + Str(py, url) + " failed with status " + Decimal(status) + ". Details: " + details)
    case RequestFailed(detail) => ErrorText("Could not connect to API at " + Str(py, url) + ". Details: " + detail)
    case Crashed(detail) => ErrorText("An unexpected error occurred during the API call. " + detail)
  }

  /** `execute_api_tool`, with the HTTP exchange as `send`; an `Err` is an exception raised before the request. */
  function ExecuteApiTool(config: Json, schema: Json, toolInput: Json, py: Builtins, send: Plan -> Outcome): (r: Result<string, Exc>)
    ensures r.Err? <==> Prepare(config, schema, toolInput, py).Err?
    ensures r.Ok? && Prepare(config, schema, toolInput, py).value.Refused? ==>
      r.value == Prepare(config, schema, toolInput, py).value.message
    ensures r.Ok? && Prepare(config, schema, toolInput, py).value.Send? ==>
      var plan := Prepare(config, schema, toolInput, py).value.plan;
      r.value == Report(plan.url, send(plan), py)
    ensures r.Ok? && !Text.StartsWith(r.value, "Error: ") ==>
      Prepare(config, schema, toolInput, py).value.Send? &&
      var outcome := send(Prepare(config, schema, toolInput, py).value.plan);
      outcome.Answered? && IsSuccess(outcome.status)
  {
    var decision :- Prepare(config, schema, toolInput, py);
    match decision
    case Refused(message) => Ok(message)
    case Send(plan) => Ok(Report(plan.url, send(plan), py))
  }

  // ----- Properties -----

  /** A configuration dict whose method, if present, is a string. */
  predicate WellFormedConfig(config: Json) {
    config.JObj? && ("method" in config.fields ==> config.fields["method"].JStr?)
  }

  function VerbIn(config: Json): string
    requires WellFormedConfig(config)
  {
    Text.Upper(if "method" in config.fields then config.fields["method"].s else "GET")
  }

  function NameIn(config: Json, py: Builtins): string
    requires config.JObj?
  {
    Str(py, if "name" in config.fields then config.fields["name"] else JStr("Unknown Tool"))
  }

  /** A missing or empty URL is reported before anything else is looked at, and no request is made. */
  lemma MissingUrlRefused(config: Json, schema: Json, toolInput: Json, py: Builtins, send: Plan -> Outcome)
    requires WellFormedConfig(config)
    requires "url" !in config.fields || !Truthy(config.fields["url"])
    ensures Prepare(config, schema, toolInput, py) == Ok(Refused(MissingUrl))
    ensures ExecuteApiTool(config, schema, toolInput, py, send) == Ok(MissingUrl)
  {
  }

  /** A refusal is the answer whatever the network would do: no request is made. */
  lemma RefusalSendsNothing(config: Json, schema: Json, toolInput: Json, py: Builtins, send1: Plan -> Outcome, send2: Plan -> Outcome)
    requires Prepare(config, schema, toolInput, py).Ok? && Prepare(config, schema, toolInput, py).value.Refused?
    ensures ExecuteApiTool(config, schema, toolInput, py, send1) == ExecuteApiTool(config, schema, toolInput, py, send2)
    ensures ExecuteApiTool(config, schema, toolInput, py, send1) == Ok(Prepare(config, schema, toolInput, py).value.message)
  {
  }

  /** Every plan uses the configured method upper-cased (GET when absent), the configured URL and headers, and a 20-second timeout. */
  lemma PlanKeepsConfig(config: Json, schema: Json, toolInput: Json, py: Builtins)
    requires WellFormedConfig(config)
    requires Prepare(config, schema, toolInput, py).Ok? && Prepare(config, schema, toolInput, py).value.Send?
    ensures var plan := Prepare(config, schema, toolInput, py).value.plan;
      plan.verb == VerbIn(config) && plan.timeout == Timeout &&
      plan.url == config.fields["url"] && Truthy(plan.url) &&
      plan.headers == (if "headers" in config.fields then config.fields["headers"] else JObj(map[]))
  {
  }

  /** Only a GET carries query parameters, and only a POST, PUT or PATCH a body. */
  lemma PlanShape(config: Json, schema: Json, toolInput: Json, py: Builtins)
    requires Prepare(config, schema, toolInput, py).Ok? && Prepare(config, schema, toolInput, py).value.Send?
    ensures var plan := Prepare(config, schema, toolInput, py).value.plan;
      (plan.params.Some? ==> plan.verb == "GET" && |plan.params.value| > 0) &&
      (plan.json.Some? || plan.data.Some? ==> SendsBody(plan.verb)) &&
      !(plan.json.Some? && plan.data.Some?)
  {
  }

  /** GET with a non-empty dict input sends that dict as the query. */
  lemma GetDictInput(config: Json, schema: Json, fields: map<string, Json>, py: Builtins)
    requires WellFormedConfig(config) && VerbIn(config) == "GET"
    requires "url" in config.fields && Truthy(config.fields["url"]) && |fields| > 0
    ensures Prepare(config, schema, JObj(fields), py).Ok?
    ensures Prepare(config, schema, JObj(fields), py).value.Send?
    ensures Prepare(config, schema, JObj(fields), py).value.plan.params == Some(fields)
  {
  }

  /** GET with a non-string, non-dict input and a one-property schema sends `{property: input}`. */
  lemma GetScalarToSingleProperty(config: Json, prop: string, propSchema: map<string, Json>, schemaRest: map<string, Json>, toolInput: Json, py: Builtins)
    requires WellFormedConfig(config) && VerbIn(config) == "GET"
    requires "url" in config.fields && Truthy(config.fields["url"])
    requires !toolInput.JStr? && !toolInput.JObj?
    ensures var schema := JObj(schemaRest["properties" := JObj(map[prop := JObj(propSchema)])]);
      Prepare(config, schema, toolInput, py) == Ok(Send(Plan("GET", config.fields["url"], Some(map[prop := toolInput]), None, None,
        if "headers" in config.fields then config.fields["headers"] else JObj(map[]), Timeout)))
  {
    var schema := JObj(schemaRest["properties" := JObj(map[prop := JObj(propSchema)])]);
    var headers := if "headers" in config.fields then config.fields["headers"] else JObj(map[]);
    QueryForSingleProperty(toolInput, schemaRest, prop, propSchema);
    assert VerbOf(config) == Ok("GET");
    assert Prepare(config, schema, toolInput, py) == Ok(Send(Assemble("GET", config.fields["url"], map[prop := toolInput], None, headers)));
  }

  /** A non-dict value against a one-property schema becomes the query `{property: value}`. */
  lemma QueryForSingleProperty(parsed: Json, schemaRest: map<string, Json>, prop: string, propSchema: map<string, Json>)
    requires !parsed.JObj?
    ensures QueryFor(parsed, JObj(schemaRest["properties" := JObj(map[prop := JObj(propSchema)])])) == Ok(map[prop := parsed])
  {
    var props := map[prop := JObj(propSchema)];
    assert OnlyKey(props) == prop;
  }

  /** POST, PUT and PATCH send a dict input, or the object a JSON string decodes to, as the JSON body. */
  lemma BodyFromObject(config: Json, schema: Json, toolInput: Json, fields: map<string, Json>, py: Builtins)
    requires WellFormedConfig(config) && SendsBody(VerbIn(config))
    requires "url" in config.fields && Truthy(config.fields["url"])
    requires toolInput == JObj(fields) || (toolInput.JStr? && py.loads(toolInput.s) == Some(JObj(fields)))
    ensures Prepare(config, schema, toolInput, py).Ok?
    ensures Prepare(config, schema, toolInput, py).value.Send?
    ensures Prepare(config, schema, toolInput, py).value.plan.json == Some(JObj(fields))
    ensures Prepare(config, schema, toolInput, py).value.plan.data == None
  {
  }

  /** A plain (non-JSON) string for a body, against an object schema of at most one property, is refused. */
  lemma PlainStringForObjectRefused(config: Json, schemaFields: map<string, Json>, text: string, py: Builtins)
    requires WellFormedConfig(config) && SendsBody(VerbIn(config))
    requires "url" in config.fields && Truthy(config.fields["url"])
    requires py.loads(text) == None
    requires "type" in schemaFields && schemaFields["type"] == JStr("object")
    requires "properties" in schemaFields && schemaFields["properties"].JObj? && |schemaFields["properties"].fields| <= 1
    ensures Prepare(config, JObj(schemaFields), JStr(text), py) == Ok(Refused(NotAnObject(NameIn(config, py), text)))
  {
    var schema, name := JObj(schemaFields), NameIn(config, py);
    assert ExpectsSeveral(schema) == Ok(false);
    assert ParseInput(schema, JStr(text), name, py) == Ok(Input(JStr(text)));
    assert BodyFor(JStr(text), schema, JStr(text), name, py) == Ok(Err(NotAnObject(name, text)));
  }

  /** Without an object schema, a plain string or any non-dict value is wrapped as `{"value": input}`. */
  lemma BodyWrapsValue(config: Json, schema: Json, toolInput: Json, py: Builtins)
    requires WellFormedConfig(config) && SendsBody(VerbIn(config))
    requires "url" in config.fields && Truthy(config.fields["url"])
    requires IsObjectSchema(schema) == Ok(false)
    requires !toolInput.JObj? && (toolInput.JStr? ==> py.loads(toolInput.s) == None)
    ensures Prepare(config, schema, toolInput, py).Ok?
    ensures Prepare(config, schema, toolInput, py).value.Send?
    ensures Prepare(config, schema, toolInput, py).value.plan.json == Some(JObj(map["value" := toolInput]))
  {
  }

  /** The schema condition of lines 36-37: an object schema with several properties. */
  predicate SeveralProperties(schemaFields: map<string, Json>) {
    "type" in schemaFields && schemaFields["type"] == JStr("object") &&
    "properties" in schemaFields && schemaFields["properties"].JObj? && |schemaFields["properties"].fields| > 1
  }

  /**
   * A non-JSON string against an object schema of several properties whose
   * single required property is a string fills that property.
   */
  lemma SeveralPropertiesFillRequired(schemaFields: map<string, Json>, key: string, text: string, name: string, py: Builtins)
    requires py.loads(text) == None && SeveralProperties(schemaFields)
    requires "required" in schemaFields && schemaFields["required"] == JArr([JStr(key)])
    requires var props := schemaFields["properties"].fields;
      key in props && props[key].JObj? && "type" in props[key].fields && props[key].fields["type"] == JStr("string")
    ensures ParseInput(JObj(schemaFields), JStr(text), name, py) == Ok(Input(JObj(map[key := JStr(text)])))
  {
  }

  /**
   * Otherwise (no single required property, or one that is not declared a
   * string) the non-JSON string is rejected with the not-valid-JSON message.
   */
  lemma SeveralPropertiesRejected(schemaFields: map<string, Json>, text: string, name: string, py: Builtins)
    requires py.loads(text) == None && SeveralProperties(schemaFields)
    requires "required" !in schemaFields || schemaFields["required"].JArr?
    requires var required := if "required" in schemaFields then schemaFields["required"].items else [];
      var props := schemaFields["properties"].fields;
      |required| != 1 ||
      (required[0].JStr? && (required[0].s in props ==>
         props[required[0].s].JObj? && ("type" in props[required[0].s].fields ==> props[required[0].s].fields["type"] != JStr("string"))))
    ensures ParseInput(JObj(schemaFields), JStr(text), name, py) == Ok(Reject(NotValidJson(text, name)))
  {
  }

  /** A non-2xx response is reported with the URL and status, followed by the details. */
  lemma StatusErrorReport(url: Json, status: int, text: string, py: Builtins)
    requires !IsSuccess(status)
    ensures Text.StartsWith(Report(url, Answered(status, text), py),
      ErrorText("API request to " + Str(py, url) + " failed with status " + Decimal(status) + ". Details: "))
  {
    var details := match py.loads(text) case Some(v) => py.dumps(v) case None => Truncate(text, 200);
    ErrorTextPrefix("API request to " + Str(py, url) + " failed with status " + Decimal(status) + ". Details: ", details);
  }

  /** A connection failure is reported with the URL, then the failure's details. */
  lemma ConnectFailureReport(url: Json, detail: string, py: Builtins)
    ensures Text.StartsWith(Report(url, RequestFailed(detail), py), ErrorText("Could not connect to API at " + Str(py, url) + ". Details: "))
  {
    ErrorTextPrefix("Could not connect to API at " + Str(py, url) + ". Details: ", detail);
  }

  /** The error text of a longer message starts with that of its beginning. */
  lemma ErrorTextPrefix(head: string, tail: string)
    ensures Text.StartsWith(ErrorText(head + tail), ErrorText(head))
  {
    assert ErrorText(head + tail) == ErrorText(head) + tail;
    Text.StartsWithConcat(ErrorText(head), tail);
  }

  /** A successful response that is not JSON is returned as its raw text; a JSON one is re-encoded. */
  lemma SuccessReport(url: Json, status: int, text: string, py: Builtins)
    requires IsSuccess(status)
    ensures py.loads(text) == None ==> Report(url, Answered(status, text), py) == text
    ensures py.loads(text).Some? ==> Report(url, Answered(status, text), py) == py.dumps(py.loads(text).value)
  {
  }
}
