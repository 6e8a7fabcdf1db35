/**
 * The decision points of `app/services/ai_service.py`: which tool records
 * become LangChain tools, which model backend is chosen and when its key is
 * missing, where the chat history lives, which system prompt and template
 * are used, and whether the agent or the plain conversation chain runs.
 * LangChain itself (building and invoking the runner) is a parameter.
 */
module AiService {
  import opened Wrappers
  import opened Json
  import Text
  import Crud

  const DefaultSystemPrompt: string :=
    "You are a helpful assistant. You have access to the following tools. Use them when appropriate."
  const OpenAiPlaceholder: string := "your_openai_api_key_here"
  const GeminiPlaceholder: string := "your_gemini_api_key_here"
  const OpenAiKeyMissing: string := "Error: " + "OpenAI API key not configured."
  const GeminiKeyMissing: string := "Error: " + "Gemini API key not configured."
  const NoValidResponse: string := "Error: AI did not produce a valid response."
  const ConversationSuffix: string := ConversationLead + "{history}" + HumanTurn + "{input}" + AiTurn
  const ConversationLead: string := "\n\nCurrent conversation:\n"
  const HumanTurn: string := "\nHuman: "
  const AiTurn: string := "\nAI:"

  /** `crud.get_tools(db, limit=100)`. */
  const ToolLimit: nat := 100

  /** The settings the service reads. */
  datatype AiSettings = AiSettings(defaultAiModel: string, openAiKey: string, geminiKey: string,
                                   redisHost: string, redisPort: int, redisPassword: string)

  /** A tool as handed to LangChain: its name, the config its coroutine passes to `execute_api_tool`, its parameter schema and its description. */
  datatype LoadedTool = LoadedTool(name: Json, config: map<string, Json>, schema: Json, description: Json)

  function Column(row: Crud.Row, c: string): Json {
    if c in row.columns then row.columns[c] else JNull
  }

  /** One record of the tool loop: skipped (None), loaded, or the exception `.get` raises on a non-dict config. */
  function ToolFrom(row: Crud.Row, py: Builtins): (r: Result<Option<LoadedTool>, Exc>)
    ensures r.Ok? && r.value.Some? ==>
      var config := Column(row, "api_config");
      config.JObj? && "url" in config.fields && Truthy(config.fields["url"]) &&
      r.value.value.config == config.fields["name" := Column(row, "name")] &&
      r.value.value.name == Column(row, "name") && r.value.value.schema == Column(row, "parameters")
    ensures r.Ok? && r.value.None? <==>
      var config := Column(row, "api_config");
      !Truthy(config) || (config.JObj? && !Truthy(if "url" in config.fields then config.fields["url"] else JNull))
  {
    var config := Column(row, "api_config");
    if !Truthy(config) then Ok(None)
    else if !config.JObj? then Err(NoAttribute(TypeName(config), "get"))
    else
      var url := if "url" in config.fields then config.fields["url"] else JNull;
      if !Truthy(url) then Ok(None)
      else
        var name := Column(row, "name");
        var description := Column(row, "description");
        Ok(Some(LoadedTool(name, config.fields["name" := name], Column(row, "parameters"),
                           if Truthy(description) then description else JStr("Tool named " + Str(py, name) + "."))))
  }

  /** The tool loop over the records in order, as a specification. */
  function ToolsFrom(rows: seq<Crud.Row>, py: Builtins): Result<seq<LoadedTool>, Exc> {
    if rows == [] then Ok([])
    else
      var tools :- ToolsFrom(rows[..|rows| - 1], py);
      var t :- ToolFrom(rows[|rows| - 1], py);
      Ok(if t.Some? then tools + [t.value] else tools)
  }

  /** `load_langchain_tools_from_db`: the first hundred tool records, loaded one by one. */
  method LoadLangchainTools(table: Crud.Table, py: Builtins) returns (r: Result<seq<LoadedTool>, Exc>)
    ensures r == ToolsFrom(Crud.Page(table.rows, 0, ToolLimit), py)
  {
    var rows := Crud.Page(table.rows, 0, ToolLimit);
    var tools: seq<LoadedTool> := [];
    var i := 0;
    while i < |rows|
      invariant 0 <= i <= |rows|
      invariant ToolsFrom(rows[..i], py) == Ok(tools)
    {
      assert rows[..i + 1][..i] == rows[..i];
      var t := ToolFrom(rows[i], py);
      if t.Err? {
        ToolErrorPersists(rows, i + 1, py);
        return Err(t.error);
      }
      if t.value.Some? {
        tools := tools + [t.value.value];
      }
      i := i + 1;
    }
    assert rows[..|rows|] == rows;
    r := Ok(tools);
  }

  lemma {:induction false} ToolErrorPersists(rows: seq<Crud.Row>, n: nat, py: Builtins)
    requires 0 < n <= |rows| && ToolFrom(rows[n - 1], py).Err? && ToolsFrom(rows[..n - 1], py).Ok?
    ensures ToolsFrom(rows, py) == Err(ToolFrom(rows[n - 1], py).error)
    decreases |rows|
  {
    assert rows[..n][..n - 1] == rows[..n - 1];
    if n < |rows| {
      var init := rows[..|rows| - 1];
      assert init[n - 1] == rows[n - 1] && init[..n - 1] == rows[..n - 1];
      ToolErrorPersists(init, n, py);
      assert rows[..|rows| - 1][..n - 1] == rows[..n - 1];
    } else {
      assert rows[..n] == rows;
    }
  }

  /** The records that become tools, in order: a reference definition scanning from the front. */
  function Kept(rows: seq<Crud.Row>, py: Builtins): seq<LoadedTool> {
    if rows == [] then []
    else
      var t := ToolFrom(rows[0], py);
      (if t.Ok? && t.value.Some? then [t.value.value] else []) + Kept(rows[1..], py)
  }

  lemma {:induction false} KeptAppend(rows: seq<Crud.Row>, row: Crud.Row, py: Builtins)
    ensures Kept(rows + [row], py) == Kept(rows, py) + Kept([row], py)
    decreases |rows|
  {
    if rows == [] {
      assert rows + [row] == [row];
    } else {
      var t := ToolFrom(rows[0], py);
      var head := if t.Ok? && t.value.Some? then [t.value.value] else [];
      assert (rows + [row])[0] == rows[0];
      assert (rows + [row])[1..] == rows[1..] + [row];
      assert Kept(rows + [row], py) == head + Kept(rows[1..] + [row], py);
      KeptAppend(rows[1..], row, py);
      assert Kept(rows, py) == head + Kept(rows[1..], py);
    }
  }

  /**
   * When no record raises, the loop loads exactly the records whose config
   * has a URL, in their original order.
   */
  lemma {:induction false} ToolsKeepOrder(rows: seq<Crud.Row>, py: Builtins)
    requires forall k :: 0 <= k < |rows| ==> ToolFrom(rows[k], py).Ok?
    ensures ToolsFrom(rows, py) == Ok(Kept(rows, py))
    decreases |rows|
  {
    if rows != [] {
      var init := rows[..|rows| - 1];
      var last := rows[|rows| - 1];
      assert forall k :: 0 <= k < |init| ==> init[k] == rows[k];
      ToolsKeepOrder(init, py);
      assert rows == init + [last];
      KeptAppend(init, last, py);
      assert [last][1..] == [];
      var t := ToolFrom(last, py);
      assert Kept([last], py) == (if t.value.Some? then [t.value.value] else []);
      assert ToolsFrom(rows, py) == Ok(if t.value.Some? then Kept(init, py) + [t.value.value] else Kept(init, py));
      assert Kept(rows, py) == Kept(init, py) + Kept([last], py);
      assert Kept(init, py) + [] == Kept(init, py);
    }
  }

  /** A record without a description is described as "Tool named <name>."; the record's own config is extended, not replaced. */
  lemma ToolDescription(row: Crud.Row, py: Builtins)
    requires ToolFrom(row, py).Ok? && ToolFrom(row, py).value.Some?
    ensures var t := ToolFrom(row, py).value.value;
      (Truthy(Column(row, "description")) ==> t.description == Column(row, "description")) &&
      (!Truthy(Column(row, "description")) ==> t.description == JStr("Tool named " + Str(py, Column(row, "name")) + ".")) &&
      forall k :: k in Column(row, "api_config").fields && k != "name" ==> k in t.config && t.config[k] == Column(row, "api_config").fields[k]
  {
  }

  // ----- Model selection -----

  datatype Backend = OpenAi | Gemini

  /** `model_preference if model_preference else settings.DEFAULT_AI_MODEL`. */
  function ChosenModel(modelPreference: Option<string>, settings: AiSettings): (name: string)
    ensures modelPreference.Some? && modelPreference.value != "" ==> name == modelPreference.value
    ensures modelPreference.None? || modelPreference.value == "" ==> name == settings.defaultAiModel
  {
    if modelPreference.Some? && modelPreference.value != "" then modelPreference.value else settings.defaultAiModel
  }

  predicate KeyMissing(key: string, placeholder: string) {
    key == "" || key == placeholder
  }

  function Unsupported(name: string): string {
    "Error: " + "Unsupported AI model type '" + name + "'. Please choose 'openai' or 'gemini'."
  }

  /** The backend for a model name compared case-insensitively, or the message returned instead of an answer. */
  function SelectBackend(name: string, settings: AiSettings): (r: Result<Backend, string>)
    ensures r == Ok(OpenAi) <==> Text.Lower(name) == "openai" && !KeyMissing(settings.openAiKey, OpenAiPlaceholder)
    ensures r == Ok(Gemini) <==> Text.Lower(name) == "gemini" && !KeyMissing(settings.geminiKey, GeminiPlaceholder)
    ensures Text.Lower(name) != "openai" && Text.Lower(name) != "gemini" ==> r == Err(Unsupported(name))
    ensures r.Err? ==> Text.StartsWith(r.error, "Error: ")
  {
    if Text.Lower(name) == "openai" then
      if KeyMissing(settings.openAiKey, OpenAiPlaceholder) then Err(OpenAiKeyMissing) else Ok(OpenAi)
    else if Text.Lower(name) == "gemini" then
      if KeyMissing(settings.geminiKey, GeminiPlaceholder) then Err(GeminiKeyMissing) else Ok(Gemini)
    else Err(Unsupported(name))
  }

  function InitFailure(backend: Backend, detail: string): string {
    match backend
    case OpenAi => "Error: Could not initialize OpenAI model. " + detail
    case Gemini => "Error: Could not initialize Gemini model. " + detail
  }

  // ----- Chat history -----

  /** What `get_redis_client()` and the ping on it did. */
  datatype RedisProbe = NoClient | PingOk | PingRaised

  datatype History = InMemory | RedisHistory(sessionKey: string, url: string)

  function RedisUrl(settings: AiSettings): string {
    "redis://" + (if settings.redisPassword != "" then ":" + settings.redisPassword + "@" else "")
    + settings.redisHost + ":" + Decimal(settings.redisPort) + "/0"
  }

  /**
   * The history store. When the ping or the setup raises, the handler's
   * `except redis.exceptions.ConnectionError` names a module the file never
   * imports, so evaluating that clause raises `NameError`.
   */
  function HistoryFor(probe: RedisProbe, sessionId: string, settings: AiSettings): (r: Result<History, Exc>)
    ensures r.Err? <==> probe == PingRaised
    ensures r == Ok(InMemory) <==> probe == NoClient
    ensures r.Ok? && r.value.RedisHistory? ==>
      Text.StartsWith(r.value.sessionKey, "ari_chat_history:") && Text.EndsWith(r.value.sessionKey, sessionId) &&
      |r.value.sessionKey| == |"ari_chat_history:"| + |sessionId|
  {
    match probe
    case NoClient => Ok(InMemory)
    case PingOk => Ok(RedisHistory("ari_chat_history:" + sessionId, RedisUrl(settings)))
    case PingRaised => Err(NameError("redis"))
  }

  // ----- Prompt and runner -----

  /** The system prompt: the stored prompt's content when `prompt_name` names one, otherwise the default. */
  function SystemPrompt(promptName: Option<string>, prompts: seq<Crud.Row>, py: Builtins): (r: string)
    ensures (promptName.None? || promptName.value == "" || Crud.FindByName(prompts, JStr(promptName.value)).None?) ==>
      r == DefaultSystemPrompt
    ensures promptName.Some? && promptName.value != "" && Crud.FindByName(prompts, JStr(promptName.value)).Some? ==>
      r == Str(py, Column(Crud.FindByName(prompts, JStr(promptName.value)).value, "content"))
  {
    if promptName.None? || promptName.value == "" then DefaultSystemPrompt
    else match Crud.FindByName(prompts, JStr(promptName.value))
      case None => DefaultSystemPrompt
      case Some(row) => Str(py, Column(row, "content"))
  }

  /** The conversation-chain template: the system prompt itself when it has both slots, otherwise the prompt with the conversation appended. */
  function ChainTemplate(system: string): (t: string)
    ensures Text.IsSubstring("{history}", t) && Text.IsSubstring("{input}", t)
    ensures Text.StartsWith(t, system)
    ensures Text.IsSubstring("{history}", system) && Text.IsSubstring("{input}", system) ==> t == system
  {
    if Text.IsSubstring("{history}", system) && Text.IsSubstring("{input}", system) then system
    else
      SuffixHasSlots(system);
      system + ConversationSuffix
  }

  /** The appended conversation supplies both slots. */
  lemma SuffixHasSlots(system: string)
    ensures Text.IsSubstring("{history}", system + ConversationSuffix)
    ensures Text.IsSubstring("{input}", system + ConversationSuffix)
  {
    var t := system + ConversationSuffix;
    var before := system + ConversationLead;
    var after := HumanTurn + "{input}" + AiTurn;
    assert t == before + "{history}" + after;
    Text.OccursInside(before, "{history}", after);
    var upTo := before + "{history}" + HumanTurn;
    assert t == upTo + "{input}" + AiTurn;
    Text.OccursInside(upTo, "{input}", AiTurn);
  }

  /** The OpenAI functions agent over the tools, or the plain conversation chain. */
  datatype Runner = Agent(systemPrompt: string, tools: seq<LoadedTool>) | Chain(template: string)

  function RunnerFor(backend: Backend, tools: seq<LoadedTool>, system: string): (r: Runner)
    ensures r.Agent? <==> backend == OpenAi && |tools| > 0
    ensures r.Agent? ==> r.systemPrompt == system && r.tools == tools
    ensures r.Chain? ==> r.template == ChainTemplate(system)
  {
    if backend == OpenAi && |tools| > 0 then Agent(system, tools) else Chain(ChainTemplate(system))
  }

  /**
   * LangChain as parameters: whether building the model raised (and its
   * message), what the Redis probe did, and what invoking the runner
   * returned (the output value, None when the key is missing, or the
   * message of the exception it raised).
   */
  datatype World = World(initError: Backend -> Option<string>, probe: RedisProbe,
                         invoke: (Runner, History, string) -> Result<Option<Json>, string>)

  /**
   * `get_ai_response`; an `Err` is an exception that escapes it. The
   * conversation-chain branch calls `ConversationChain`, a name the file never
   * imports, outside the `try` around the invocation: that branch always
   * raises `NameError`.
   */
  function GetAiResponse(textInput: string, sessionId: string, modelPreference: Option<string>, promptName: Option<string>,
                         settings: AiSettings, toolRows: seq<Crud.Row>, promptRows: seq<Crud.Row>,
                         py: Builtins, world: World): (r: Result<string, Exc>)
    ensures SelectBackend(ChosenModel(modelPreference, settings), settings).Err? ==>
      r == Ok(SelectBackend(ChosenModel(modelPreference, settings), settings).error)
    ensures r.Err? ==> r.error.NameError? || ToolsFrom(Crud.Page(toolRows, 0, ToolLimit), py).Err?
    ensures var backend := SelectBackend(ChosenModel(modelPreference, settings), settings);
      var tools := ToolsFrom(Crud.Page(toolRows, 0, ToolLimit), py);
      (r.Ok? && backend.Ok? && world.initError(backend.value).None?) ==>
        (backend.value == OpenAi && tools.Ok? && |tools.value| > 0)
  {
    var name := ChosenModel(modelPreference, settings);
    match SelectBackend(name, settings)
    case Err(message) => Ok(message)
    case Ok(backend) =>
      if world.initError(backend).Some? then Ok(InitFailure(backend, world.initError(backend).value))
      else
        var tools :- ToolsFrom(Crud.Page(toolRows, 0, ToolLimit), py);
        var history :- HistoryFor(world.probe, sessionId, settings);
        var runner := RunnerFor(backend, tools, SystemPrompt(promptName, promptRows, py));
        if runner.Chain? then Err(NameError("ConversationChain"))
        else Ok(Answer(world.invoke(runner, history, textInput), py))
  }

  /** The reply for what invoking the runner produced. */
  function Answer(outcome: Result<Option<Json>, string>, py: Builtins): (r: string)
    ensures outcome.Err? ==>
      Text.StartsWith(r, "Error: AI processing failed. Details: ") && Text.EndsWith(r, outcome.error)
    ensures outcome == Ok(None) ==> r == NoValidResponse
    ensures outcome.Ok? && outcome.value.Some? ==> r == Str(py, outcome.value.value)
  {
    match outcome
    case Err(detail) => "Error: AI processing failed. Details: " + detail
    case Ok(None) => NoValidResponse
    case Ok(Some(output)) => Str(py, output)
  }

  // ----- Properties -----

  /** Model names are compared case-insensitively: names that lower-case alike select the same backend. */
  lemma SelectionIgnoresCase(a: string, b: string, settings: AiSettings)
    requires Text.Lower(a) == Text.Lower(b)
    ensures SelectBackend(a, settings).Ok? <==> SelectBackend(b, settings).Ok?
    ensures SelectBackend(a, settings).Ok? ==> SelectBackend(a, settings) == SelectBackend(b, settings)
  {
  }

  /** A missing or placeholder OpenAI key is reported before any tool is loaded or anything is invoked. */
  lemma MissingOpenAiKey(textInput: string, sessionId: string, modelPreference: Option<string>, promptName: Option<string>,
                         settings: AiSettings, toolRows: seq<Crud.Row>, promptRows: seq<Crud.Row>, py: Builtins, world: World)
    requires Text.Lower(ChosenModel(modelPreference, settings)) == "openai"
    requires KeyMissing(settings.openAiKey, OpenAiPlaceholder)
    ensures GetAiResponse(textInput, sessionId, modelPreference, promptName, settings, toolRows, promptRows, py, world) == Ok(OpenAiKeyMissing)
  {
  }

  /** Likewise for a missing or placeholder Gemini key. */
  lemma MissingGeminiKey(textInput: string, sessionId: string, modelPreference: Option<string>, promptName: Option<string>,
                         settings: AiSettings, toolRows: seq<Crud.Row>, promptRows: seq<Crud.Row>, py: Builtins, world: World)
    requires Text.Lower(ChosenModel(modelPreference, settings)) == "gemini"
    requires KeyMissing(settings.geminiKey, GeminiPlaceholder)
    ensures GetAiResponse(textInput, sessionId, modelPreference, promptName, settings, toolRows, promptRows, py, world) == Ok(GeminiKeyMissing)
  {
  }

  /** Any other model name is refused with a message naming it. */
  lemma UnsupportedModel(textInput: string, sessionId: string, modelPreference: Option<string>, promptName: Option<string>,
                         settings: AiSettings, toolRows: seq<Crud.Row>, promptRows: seq<Crud.Row>, py: Builtins, world: World)
    requires var lower := Text.Lower(ChosenModel(modelPreference, settings)); lower != "openai" && lower != "gemini"
    ensures GetAiResponse(textInput, sessionId, modelPreference, promptName, settings, toolRows, promptRows, py, world)
      == Ok(Unsupported(ChosenModel(modelPreference, settings)))
  {
  }

  /**
   * The agent runs only for OpenAI with at least one loaded tool, and only the
   * agent answers; every other case builds the conversation chain and raises
   * `NameError`.
   */
  lemma AgentOnlyWithTools(textInput: string, sessionId: string, modelPreference: Option<string>, promptName: Option<string>,
                           settings: AiSettings, toolRows: seq<Crud.Row>, promptRows: seq<Crud.Row>, py: Builtins, world: World)
    requires SelectBackend(ChosenModel(modelPreference, settings), settings).Ok?
    requires world.initError(SelectBackend(ChosenModel(modelPreference, settings), settings).value).None?
    requires ToolsFrom(Crud.Page(toolRows, 0, ToolLimit), py).Ok? && HistoryFor(world.probe, sessionId, settings).Ok?
    ensures var backend := SelectBackend(ChosenModel(modelPreference, settings), settings).value;
      var tools := ToolsFrom(Crud.Page(toolRows, 0, ToolLimit), py).value;
      var runner := RunnerFor(backend, tools, SystemPrompt(promptName, promptRows, py));
      var reply := GetAiResponse(textInput, sessionId, modelPreference, promptName, settings, toolRows, promptRows, py, world);
      (runner.Agent? <==> backend == OpenAi && |tools| > 0) &&
      (runner.Agent? ==> reply == Ok(Answer(world.invoke(runner, HistoryFor(world.probe, sessionId, settings).value, textInput), py))) &&
      (runner.Chain? ==> reply == Err(NameError("ConversationChain")))
  {
  }

  /** Gemini always takes the conversation-chain branch, so once its key and model are in place and the history is set up, the call raises. */
  lemma GeminiRaises(textInput: string, sessionId: string, modelPreference: Option<string>, promptName: Option<string>,
                     settings: AiSettings, toolRows: seq<Crud.Row>, promptRows: seq<Crud.Row>, py: Builtins, world: World)
    requires SelectBackend(ChosenModel(modelPreference, settings), settings) == Ok(Gemini)
    requires world.initError(Gemini).None?
    requires ToolsFrom(Crud.Page(toolRows, 0, ToolLimit), py).Ok? && world.probe != PingRaised
    ensures GetAiResponse(textInput, sessionId, modelPreference, promptName, settings, toolRows, promptRows, py, world)
      == Err(NameError("ConversationChain"))
  {
    var tools := ToolsFrom(Crud.Page(toolRows, 0, ToolLimit), py).value;
    assert RunnerFor(Gemini, tools, SystemPrompt(promptName, promptRows, py)).Chain?;
  }

  /** Without a Redis client the history is kept in memory; with one, it is stored under `ari_chat_history:<session id>`. */
  lemma HistoryChoice(sessionId: string, settings: AiSettings)
    ensures HistoryFor(NoClient, sessionId, settings) == Ok(InMemory)
    ensures HistoryFor(PingOk, sessionId, settings).Ok? &&
      Text.StartsWith(HistoryFor(PingOk, sessionId, settings).value.sessionKey, "ari_chat_history:")
    ensures settings.redisPassword == "" ==>
      HistoryFor(PingOk, sessionId, settings).value.url == "redis://" + settings.redisHost + ":" + Decimal(settings.redisPort) + "/0"
    ensures HistoryFor(PingRaised, sessionId, settings).Err?
  {
  }

  /** A model that fails to initialise is reported with the failure's text, before any tool is loaded. */
  lemma InitFailureReported(textInput: string, sessionId: string, modelPreference: Option<string>, promptName: Option<string>,
                            settings: AiSettings, toolRows: seq<Crud.Row>, promptRows: seq<Crud.Row>, py: Builtins, world: World)
    requires SelectBackend(ChosenModel(modelPreference, settings), settings).Ok?
    requires world.initError(SelectBackend(ChosenModel(modelPreference, settings), settings).value).Some?
    ensures var backend := SelectBackend(ChosenModel(modelPreference, settings), settings).value;
      GetAiResponse(textInput, sessionId, modelPreference, promptName, settings, toolRows, promptRows, py, world)
        == Ok(InitFailure(backend, world.initError(backend).value))
  {
  }

  /**
   * Once the tools are loaded, a Redis client whose ping raises makes the
   * whole call raise: the `except` clause that should catch the failure names
   * the `redis` module, which is not imported.
   */
  lemma PingFailureRaises(textInput: string, sessionId: string, modelPreference: Option<string>, promptName: Option<string>,
                          settings: AiSettings, toolRows: seq<Crud.Row>, promptRows: seq<Crud.Row>, py: Builtins, world: World)
    requires SelectBackend(ChosenModel(modelPreference, settings), settings).Ok?
    requires world.initError(SelectBackend(ChosenModel(modelPreference, settings), settings).value).None?
    requires ToolsFrom(Crud.Page(toolRows, 0, ToolLimit), py).Ok?
    requires world.probe == PingRaised
    ensures GetAiResponse(textInput, sessionId, modelPreference, promptName, settings, toolRows, promptRows, py, world)
      == Err(NameError("redis"))
  {
  }

  /** On the agent path the reply is what the agent produced: its output as a string, a fixed message when it has none, or the failure's text. */
  lemma ReplyFromRunner(textInput: string, sessionId: string, modelPreference: Option<string>, promptName: Option<string>,
                        settings: AiSettings, toolRows: seq<Crud.Row>, promptRows: seq<Crud.Row>, py: Builtins, world: World)
    requires SelectBackend(ChosenModel(modelPreference, settings), settings) == Ok(OpenAi)
    requires world.initError(OpenAi).None?
    requires ToolsFrom(Crud.Page(toolRows, 0, ToolLimit), py).Ok? && |ToolsFrom(Crud.Page(toolRows, 0, ToolLimit), py).value| > 0
    requires world.probe != PingRaised
    ensures var runner := RunnerFor(OpenAi, ToolsFrom(Crud.Page(toolRows, 0, ToolLimit), py).value, SystemPrompt(promptName, promptRows, py));
      var outcome := world.invoke(runner, HistoryFor(world.probe, sessionId, settings).value, textInput);
      var reply := GetAiResponse(textInput, sessionId, modelPreference, promptName, settings, toolRows, promptRows, py, world);
      reply.Ok? &&
      (outcome.Err? ==> reply.value == "Error: AI processing failed. Details: " + outcome.error) &&
      (outcome == Ok(None) ==> reply.value == NoValidResponse) &&
      (outcome.Ok? && outcome.value.Some? ==> reply.value == Str(py, outcome.value.value))
  {
    var runner := RunnerFor(OpenAi, ToolsFrom(Crud.Page(toolRows, 0, ToolLimit), py).value, SystemPrompt(promptName, promptRows, py));
    var history := HistoryFor(world.probe, sessionId, settings);
    assert history.Ok?;
    AgentOnlyWithTools(textInput, sessionId, modelPreference, promptName, settings, toolRows, promptRows, py, world);
    AnswerCases(world.invoke(runner, history.value, textInput), py);
  }

  /** The fixed replies for a failed invocation and for one without output. */
  lemma AnswerCases(outcome: Result<Option<Json>, string>, py: Builtins)
    ensures outcome.Err? ==> Answer(outcome, py) == "Error: AI processing failed. Details: " + outcome.error
    ensures outcome == Ok(None) ==> Answer(outcome, py) == NoValidResponse
  {
  }
}
