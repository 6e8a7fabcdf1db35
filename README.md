# ari-API-IA-textonly, modelled in Dafny

The system is a FastAPI service that sits between Asterisk and a language model.

- When a call enters the Stasis application, the ARI listener reads the channel and the dialplan arguments (`KEY=value` strings). It answers the channel, asks the AI service for a reply, and stores that reply in the channel variable `AI_RESPONSE`. As written, the AI call passes the wrong arguments and always fails, so the variable is never set.
- The AI service picks a backend: OpenAI or Gemini. It loads the stored tools and the stored system prompt. It keeps the conversation in Redis, or in memory when Redis is not configured. It then runs an OpenAI functions agent, or else builds a plain conversation chain, which fails because `ConversationChain` is never imported.
- A tool is an HTTP API described by a stored configuration. The tool executor turns the model's tool input into a query string or a JSON body, makes the request, and reports the answer as text.
- Prompts and tools live in two SQL tables. The service offers create, list, read, update and delete routes for both, protected by HTTP Basic authentication.
- The ARI connection goes through a small vendored Swagger 1.2 client:
  - `ari.connect` resolves the resource listing's URL;
  - `swaggerpy.Client` loads the listing and files one resource per API declaration;
  - each resource finds operations by nickname and turns keyword arguments into an HTTP request.

The model has one Dafny module per source file, plus three helper modules:

- `Wrappers`: `Option` and `Result`.
- `Json`: the Python values the code handles, and Python's truthiness, `dict.get`, `in`, `str()` and iteration on them.
- `Text`: `str.split`, `replace`, `strip`, `lower`, `upper`, `rsplit` and `join`, each with its own laws.

The design choices:

- Code that only computes becomes functions and lemmas.
- The objects whose fields the source updates become classes: the Swagger `Client`, the `SynchronousHttpClient`, the SQL table behind the CRUD helpers, the Redis client cache and the ARI listener's globals.
- The loops that update variables become methods with loop invariants. Each is proved against a prefix-recursive specification function. These are the resource filing loop, the two `api_call` parameter loops, the dialplan argument loop, the tool loading loop and the connection retry loop.
- What the program does not compute itself is a parameter of the model:
  - the network, as `Fetch`, `send` and `session`;
  - `json.dumps` and `json.loads`, and `str` on containers, as `Builtins`;
  - language-model initialisation and invocation, as `World`;
  - the channel operations, as `Collaborators`;
  - the Redis ping.

## Model

| member | source | states |
|---|---|---|
| Json.FirstWith | app/vendor/swaggerpy/swagger_model.py:41-45 | The search loop returns a dict whose key holds the value, and raises only on a non-dict item it meets. |
| Json.FirstWithIsFirst | app/vendor/swaggerpy/swagger_model.py:41-46 | The search returns the earliest matching item, and reports no match only when no item matches. |
| Json.FirstWithTotal | app/vendor/swaggerpy/swagger_model.py:41-42 | Over a list of dicts the search never raises. |
| Json.Iterate | app/api/ari_handler.py:29 | A `for` loop visits a list's items, a string's one-character strings, and a dict's keys in the order `keys` gives. Looping over any other value raises. |
| Json.StrHasNoGet | app/vendor/swaggerpy/client.py:102 | Calling `.get` on a string raises `AttributeError` naming `str`. |
| Text.ReplaceIsSplitJoin | app/vendor/swaggerpy/client.py:106 | `s.replace(old, new)` agrees with `new.join(s.split(old))` on every input. |
| Text.ReplaceAbsent | app/vendor/swaggerpy/client.py:208 | A string without the pattern comes back unchanged from `replace`. |
| Text.CharSubstring | app/api/ari_handler.py:30 | `'=' in s` holds exactly when a first `=` exists. |
| Text.SplitAtFirst | app/api/ari_handler.py:31 | `split('=', 1)` gives the text before the first `=` and the text after it. |
| Text.JoinSplit | app/vendor/swaggerpy/client.py:106 | Joining the pieces of a split with the same one-character separator gives the string back. |
| Text.RSplitRejoins | app/vendor/swaggerpy/client.py:163-169 | Cutting a string at its last `/` and gluing it back gives the string. |
| Text.SplitLastIsAfterLast | app/vendor/swaggerpy/client.py:106 | `s.split(c)[-1]` is the text after the last `c`, or the whole string when there is no `c`. |
| Text.FindFirst | app/api/ari_handler.py:30-31 | The index found holds the character and none before it does; -1 means the character does not occur. |
| Text.StripShape | app/api/ari_handler.py:32 | `strip()` removes only whitespace, from both ends, and leaves none at either end. |
| Text.StripIdempotent | app/api/ari_handler.py:32 | Stripping twice is stripping once. |
| Text.LowerKeeps | app/services/ai_service.py:100 | Lower-casing leaves a string without upper-case letters unchanged. |
| HttpClient.MergeHeaders | app/vendor/swaggerpy/http_client.py:38-40 | The request headers are the caller's headers over a default `Content-Type: application/json`. |
| HttpClient.Classify | app/vendor/swaggerpy/http_client.py:53-75 | A 4xx/5xx status or a connection failure is raised again. Otherwise an empty body gives None, a JSON body its decoded value, and any other body its text. |
| HttpClient.SynchronousHttpClient.constructor | app/vendor/swaggerpy/http_client.py:15-18 | A new client has no credentials. |
| HttpClient.SynchronousHttpClient.SetBasicAuth | app/vendor/swaggerpy/http_client.py:20-25 | The credentials become the given username and password; the host is ignored. |
| HttpClient.SynchronousHttpClient.Request | app/vendor/swaggerpy/http_client.py:27-75 | The session receives the verb, URL, parameters, data, credentials, timeout and merged headers. The caller receives the classified outcome. |
| HttpClient.SynchronousHttpClient.Get | app/vendor/swaggerpy/http_client.py:77-79 | A GET request without data. |
| SwaggerModel.GetAttrRoundTrip | app/vendor/swaggerpy/swagger_model.py:12-22 | Over a dict, reading a key and unwrapping the answer gives back the stored value. Reading a missing key raises `AttributeError`. |
| SwaggerModel.GetAttr | app/vendor/swaggerpy/swagger_model.py:12-22 | A dict value comes back as a nested model on the same API client; any other value comes back plain. |
| SwaggerModel.GetResource | app/vendor/swaggerpy/swagger_model.py:37-46 | A resource returned is a dict declaration whose `name` is the one asked for, on the loader's API client. A falsy listing raises `AttributeError` naming the resource. |
| SwaggerModel.LoadModel | app/vendor/swaggerpy/swagger_model.py:48-52 | A falsy listing gives None. A model returned is the listing's `models[name]`. |
| SwaggerModel.GetResourceFindsDeclared | app/vendor/swaggerpy/swagger_model.py:37-46 | Over a list of dict declarations, `get_resource` succeeds exactly when some declaration carries the name. |
| SwaggerModel.LoadModelFromDict | app/vendor/swaggerpy/swagger_model.py:48-52 | When `models` is a dict, `load_model` returns `models[name]` if present and None if not, and never raises. |
| SwaggerClient.NameFromPathShape | app/vendor/swaggerpy/client.py:106 | The name derived from a path is what follows its last `/`, without `.json`, and holds no `/`. |
| SwaggerClient.ResourceName | app/vendor/swaggerpy/client.py:102-106 | Only a dict declaration yields a name; for anything else `.get` raises. |
| SwaggerClient.ResourceNameRule | app/vendor/swaggerpy/client.py:102-108 | Decides which declarations are filed, and under which key. |
| SwaggerClient.SpecUrlReplacesLastSegment | app/vendor/swaggerpy/client.py:163-169 | A resource's declaration URL is the listing URL with its last segment replaced by the declaration's `path`. |
| SwaggerClient.MakeResource | app/vendor/swaggerpy/client.py:139-178 | A declaration with a truthy `path` fetches its own declaration, and falls back to the listing's declaration when the fetch fails. The resource's base path is the listing's. |
| SwaggerClient.NoApisNoResources | app/vendor/swaggerpy/client.py:94 | A listing without `apis` files no resource and raises nothing. |
| SwaggerClient.BuildErrPersists | app/vendor/swaggerpy/client.py:95-116 | An exception from one declaration ends the whole filing loop with that exception. |
| SwaggerClient.BuildKeys | app/vendor/swaggerpy/client.py:102-116 | The table's keys are exactly the truthy names the declarations yield. |
| SwaggerClient.BuildLastWins | app/vendor/swaggerpy/client.py:113 | Under a repeated name, the resource filed is the one built from the last declaration with that name. |
| SwaggerClient.Build | app/vendor/swaggerpy/client.py:95-116 | Every name filed is truthy and hashable. A declaration can only raise `AttributeError` or `TypeError`. |
| SwaggerClient.Processed | app/vendor/swaggerpy/client.py:92-116 | The same for a whole listing, with or without `apis`. |
| SwaggerClient.DictApisRaise | app/vendor/swaggerpy/client.py:94-102 | When `apis` is a non-empty dict, the loop visits its string keys, and the first `.get('name')` raises `AttributeError` on `str`. |
| SwaggerClient.FirstStringRaises | app/vendor/swaggerpy/client.py:102 | A string declaration raises `AttributeError` at `.get('name')`. |
| SwaggerClient.Client.constructor | app/vendor/swaggerpy/client.py:13-38 | A new client has the listing URL, the HTTP client and the listing, and no resources yet. |
| SwaggerClient.Client.ProcessApis | app/vendor/swaggerpy/client.py:92-116 | The loop's resource table equals the specification's filing of the listing's declarations. |
| SwaggerClient.Client.FileAll | app/vendor/swaggerpy/client.py:95-116 | The filing loop leaves exactly the specification's table, or stops with the specification's exception. |
| SwaggerClient.Client.Load | app/vendor/swaggerpy/client.py:39-89 | A failed listing fetch becomes `RuntimeError` before any resource exists. Otherwise the declarations are filed. |
| SwaggerClient.Client.GetAttr | app/vendor/swaggerpy/client.py:119-126 | A filed resource is returned first. Otherwise the loader's `get_resource` answers: the declaration it finds is returned, its `AttributeError` is reworded to name the client, and any other exception passes through unchanged. |
| SwaggerClient.SearchGroups | app/vendor/swaggerpy/client.py:186-189 | An operation found in the groups is a dict whose `nickname` is the requested name. |
| SwaggerClient.FindOperation | app/vendor/swaggerpy/client.py:181-195 | An operation returned is a dict whose `nickname` is the requested name. |
| SwaggerClient.FindFlatOperation | app/vendor/swaggerpy/client.py:190-195 | Without `apis`, the first operation with the nickname is returned, and a miss raises. |
| SwaggerClient.ApisShadowOperations | app/vendor/swaggerpy/client.py:184-195 | A declaration with an empty `apis` list finds nothing, even when its top-level `operations` holds the nickname. |
| SwaggerClient.SearchGroupsFinds | app/vendor/swaggerpy/client.py:186-189 | Over well-shaped groups the search never raises. It finds an operation exactly when some group holds the nickname, and then returns the first match in group-then-operation order. |
| SwaggerClient.FindGroupedOperation | app/vendor/swaggerpy/client.py:184-195 | For a full declaration with well-shaped groups, `__getattr__` succeeds exactly when some group holds the nickname and returns the first match. Otherwise it raises `AttributeError`. |
| SwaggerClient.JoinUrlSeam | app/vendor/swaggerpy/client.py:229-234 | Whatever slashes meet at the seam, the joined URL has exactly one there. |
| SwaggerClient.SubstituteParams | app/vendor/swaggerpy/client.py:204-208 | The path-parameter loop agrees with its specification: supplied path parameters are substituted and removed from the arguments. |
| SwaggerClient.PartitionParams | app/vendor/swaggerpy/client.py:211-219 | The second loop agrees with its specification: supplied query parameters move to the query map and a supplied body parameter to the body. |
| SwaggerClient.SubstKeepsArgs | app/vendor/swaggerpy/client.py:204-208 | The first loop only removes arguments, and never changes a value it keeps. |
| SwaggerClient.SubstKeepsUndeclared | app/vendor/swaggerpy/client.py:207 | An argument that no parameter declares as a path parameter survives the first loop. |
| SwaggerClient.PathUntouched | app/vendor/swaggerpy/client.py:204-208 | When no declared path parameter is supplied, the template is used unchanged. |
| SwaggerClient.SubstAll | app/vendor/swaggerpy/client.py:204-208 | The first loop only removes arguments. A non-string template is kept as is, and a string template stays a string. |
| SwaggerClient.SubstReplaces | app/vendor/swaggerpy/client.py:205-208 | A supplied argument that some parameter declares as a `path` parameter is consumed by the first loop. |
| SwaggerClient.SubstSingle | app/vendor/swaggerpy/client.py:204-208 | With one declared and supplied path parameter, the path is the template with every `{name}` replaced by `str()` of the argument, and the argument is consumed. |
| SwaggerClient.PartAll | app/vendor/swaggerpy/client.py:211-219 | The query and the remaining arguments come from the given arguments and never share a name. |
| SwaggerClient.QueryOnlyDeclared | app/vendor/swaggerpy/client.py:213-217 | Only supplied, declared query parameters reach the query map, with their given values. |
| SwaggerClient.QueryComplete | app/vendor/swaggerpy/client.py:213-217 | With distinct declarations, every supplied query parameter is sent. |
| SwaggerClient.NameUnseen | app/vendor/swaggerpy/client.py:213-219 | An argument stays among the arguments until a declaration of it is visited. |
| SwaggerClient.BodyIsLastSupplied | app/vendor/swaggerpy/client.py:218-219 | The body is None unless a supplied parameter is declared `body`; otherwise it is the value of the last such parameter. |
| SwaggerClient.Call | app/vendor/swaggerpy/client.py:199-314 | `api_call` sends the substituted path joined to the base path, with the partitioned query and body. It returns a status-200 response carrying the session's answer, paired with the operation: its contract is `CallSpec`'s, whose request and response are stated by `Perform`. |
| SwaggerClient.PlanCall | app/vendor/swaggerpy/client.py:199-234 | A request is planned only for an operation dict with `method` and `path`. Its verb is the operation's method, and its query holds only supplied names. |
| SwaggerClient.Perform | app/vendor/swaggerpy/client.py:243-311 | Without an HTTP client the call raises `AttributeError` on `NoneType`. Otherwise the session receives the plan's verb and URL, `params` set to the query, `data` set to `json.dumps(body)` exactly when the body is truthy (else none), the JSON content type, the client's credentials and the default timeout. The call fails exactly when the classified answer is an exception, with that exception; otherwise the status-200 response holds the classified answer `(data, response)` and the operation. |
| SwaggerClient.CallSpec | app/vendor/swaggerpy/client.py:199-311 | A failure before the request is the call's failure. Once the plan is made, the call is `Perform` of that plan, so the request sent and the response returned are those `Perform` states. A result has status 200 and carries the operation. |
| SwaggerClient.PlanSendsOnlyDeclared | app/vendor/swaggerpy/client.py:211-219 | Arguments not declared as query parameters never reach the query string, and those sent keep their values. |
| SwaggerClient.PlanUrlBase | app/vendor/swaggerpy/client.py:227-234 | The request goes to the operation's path joined to the resource's own `basePath`, or to the listing's when it has none. |
| SwaggerClient.PlanFillsPath | app/vendor/swaggerpy/client.py:204-234 | End to end, the URL of a call with one supplied path parameter is the base joined to the filled-in template. |
| AriConnect.SplitUrl | app/vendor/ari_py/__init__.py:27 | The authority holds no `/`, `?` or `#`; the path holds no `?` or `#`; the scheme holds only scheme characters; behind an authority the path is empty or starts with `/`. |
| AriConnect.Clean | app/vendor/ari_py/__init__.py:27 | The URL that `urlsplit` splits holds no tab, CR or LF. |
| AriConnect.Unsplit | app/vendor/ari_py/__init__.py:70 | `urlunsplit` (CPython 3.12) ends with the path and starts with `scheme:`. It writes `//netloc` when there is an authority. Without one it writes `//` and the path made rooted when the scheme has an authority part and the path does not start with `//`. Otherwise it writes the bare path. |
| AriConnect.JoinAgainst | app/vendor/ari_py/__init__.py:70 | `urljoin` gives the bare reference for a scheme it does not resolve against. Otherwise it keeps the base's scheme and authority, and a plain reference ends the result. The base path is resolved against after `urlparse` has cut off its `;params`. |
| AriConnect.MergedIgnoresParams | app/vendor/ari_py/__init__.py:70 | In a base path with a `/`, cutting off `;params` changes no merged path. |
| AriConnect.UnrootedBaseGetsRoot | app/vendor/ari_py/__init__.py:70 | Against a base with a scheme, no authority and a path without `/` (`;params` included), a plain reference resolves to `scheme:///` and the reference. |
| AriConnect.UnrootedBase | app/vendor/ari_py/__init__.py:70 | `http:x` gives `http:///ari/api-docs/resources.json`. |
| AriConnect.ParamsOnlyBase | app/vendor/ari_py/__init__.py:70 | `http:;x` gives `http:///ari/api-docs/resources.json`. |
| AriConnect.DiscoveryUrl | app/vendor/ari_py/__init__.py:70 | The discovery URL always ends with `ari/api-docs/resources.json`. It is exactly that reference for an empty base or a non-resolving scheme, and otherwise starts with the base's scheme. |
| AriConnect.MergedEndsWithRef | app/vendor/ari_py/__init__.py:70 | The merged path of a plain reference ends with the reference. |
| AriConnect.ResolveKeepsPlainTail | app/vendor/ari_py/__init__.py:70 | Resolving dot segments leaves a tail without dot segments in place. |
| AriConnect.RelativeHasNetloc | app/vendor/ari_py/__init__.py:70 | Every scheme `urljoin` resolves against has an authority part. |
| AriConnect.UnsplitEmptyAuthority | app/vendor/ari_py/__init__.py:70 | An empty authority is written as `//` before a rooted path that does not start with `//` when the scheme has an authority part. |
| AriConnect.EmptyAuthorityKept | app/vendor/ari_py/__init__.py:70 | Against a base with a scheme, no authority and a rooted path, the result is `scheme://`, the path's directory, `/` and the reference. |
| AriConnect.SingleSlashBase | app/vendor/ari_py/__init__.py:70 | `http:/x` gives `http:///ari/api-docs/resources.json`. |
| AriConnect.DiscoveryPathIsPlain | app/vendor/ari_py/__init__.py:70 | `ari/api-docs/resources.json` is a relative reference without empty or dot segments. |
| AriConnect.ReferenceReplacesLastSegment | app/vendor/ari_py/__init__.py:70 | For a base path without empty or dot segments, the reference replaces the path's last segment. |
| AriConnect.EmptyPathGivesRoot | app/vendor/ari_py/__init__.py:70 | Against a base with an authority and an empty path, the reference resolves to `<origin>/<reference>`, and the base query and fragment are dropped. |
| AriConnect.PathGivesSibling | app/vendor/ari_py/__init__.py:70 | Against a base with an authority and a path, the reference takes the place of the path's last segment. |
| AriConnect.OriginGivesRootDiscovery | app/vendor/ari_py/__init__.py:70 | A base URL `<scheme>://<host>` gives `<scheme>://<host>/ari/api-docs/resources.json`. |
| AriConnect.DefaultDiscoveryUrl | app/core/config.py:15 | The default `http://localhost:8088` gives `http://localhost:8088/ari/api-docs/resources.json`. |
| AriConnect.DefaultUrlIsOrigin | app/core/config.py:15 | The default ARI URL is `http://localhost:8088`: a plain scheme that `urljoin` resolves against, and a plain host. |
| AriConnect.OpaqueBaseGivesReference | app/vendor/ari_py/__init__.py:70 | A base whose scheme `urljoin` does not resolve against yields the bare reference. |
| AriConnect.Connect | app/vendor/ari_py/__init__.py:17-72 | The discovery URL is `urljoin(base_url, "ari/api-docs/resources.json")`. A client is built exactly when one can be, and it is new and carries the username and password as credentials. |
| AriHandler.SplitAtFirstEquals | app/api/ari_handler.py:31 | The key holds no `=`, and key, `=` and value rebuild the argument. |
| AriHandler.EqualsTestIsSearch | app/api/ari_handler.py:30 | For a string argument, the `'=' in arg` test is the search for its first `=`. |
| AriHandler.DialplanVars | app/api/ari_handler.py:25-34 | String arguments never fail. A failure is a `TypeError` or `AttributeError`, and only when some argument is not a string. |
| AriHandler.DialplanErrPersists | app/api/ari_handler.py:29-34 | Once an argument raises, the loop ends with that exception. |
| AriHandler.ParseArgs | app/api/ari_handler.py:25-34 | The argument loop agrees with its specification, including the exception a non-string argument raises. |
| AriHandler.DialplanKeys | app/api/ari_handler.py:29-34 | String arguments never fail. The keys are exactly those of the arguments holding `=`. |
| AriHandler.DialplanLastWins | app/api/ari_handler.py:32 | Under a repeated key the last assigning argument wins, with its value stripped. |
| AriHandler.LastAssignWins | app/api/ari_handler.py:32 | When the last argument assigns a key, its stripped value is the one kept. |
| AriHandler.DictArgsParsed | app/api/ari_handler.py:25-32 | `args` given as a dict is iterated over its keys. The handler succeeds, and the variables are exactly the keys holding `=`, split at it. |
| AriHandler.OnStasisStart | app/api/ari_handler.py:14-66 | The handler's calls and outcome are those of its specification. |
| AriHandler.StasisStart | app/api/ari_handler.py:14-66 | Only `AttributeError` or `TypeError` escapes. Calls are made only for a truthy channel, with the answer first and at most three calls. |
| AriHandler.NoChannelNoCalls | app/api/ari_handler.py:16-19 | An event without a truthy channel ends the handler before any call. |
| AriHandler.FailuresSwallowed | app/api/ari_handler.py:44-66 | Whatever answering and the AI call do, the handler returns normally exactly when the reads before the `try` block succeed. |
| AriHandler.Converse | app/api/ari_handler.py:44-66 | The channel is answered first. The AI is asked only after a successful answer. `AI_RESPONSE` is set, to exactly the AI's reply, only after that reply. |
| AriHandler.SelectionOrder | app/api/ari_handler.py:38-40 | The input, the session and the model come from the upper-case variable, then the lower-case one, then the default (`N/A`, the channel id, the configured model). |
| AriHandler.Supervisor.constructor | app/api/ari_handler.py:11-12 | No client instance and no task at start. |
| AriHandler.Supervisor.RunWithRetry | app/api/ari_handler.py:69-100 | Every pass calls `connect` with the configured URL, application, username and password, and registers the handler exactly on a successful connection. After any pass the client instance is cleared; the task is untouched. |
| AriHandler.Supervisor.StartListener | app/api/ari_handler.py:102-108 | A new task starts only when there is none or the previous one is done. |
| AriHandler.Supervisor.GetClient | app/api/ari_handler.py:110-111 | The current client instance. |
| ToolExecutor.MissingUrlRefused | app/services/tool_executor.py:24-26 | A missing or empty URL is reported before anything else, and no request is made. |
| ToolExecutor.ParseInput | app/services/tool_executor.py:32-52 | A non-string input is used as is, and a JSON string is decoded. Only a non-JSON string is refused, with the not-valid-JSON message, or replaced by a one-key dict holding it. |
| ToolExecutor.NotValidJson | app/services/tool_executor.py:44 | The refusal starts with `Error: `. |
| ToolExecutor.QueryFor | app/services/tool_executor.py:55-67 | A dict input is the query. A non-dict input yields at most one parameter, holding the input, and raises only when a schema is given. |
| ToolExecutor.QueryForSingleProperty | app/services/tool_executor.py:58-65 | A non-dict input against a one-property schema is the query `{property: input}`. |
| ToolExecutor.BodyFor | app/services/tool_executor.py:70-85 | A dict input is the body. Otherwise the body is the input, `{"value": input}`, or what a JSON string decodes to. A refusal happens only for a non-JSON string, with the expects-an-object message. |
| ToolExecutor.NotAnObject | app/services/tool_executor.py:78 | The refusal starts with `Error: `. |
| ToolExecutor.Assemble | app/services/tool_executor.py:94-104 | The request keeps the verb, URL and headers, with a 20-second timeout. Query parameters go only with a non-empty GET, a body only with POST, PUT or PATCH, and never both `json` and `data`. |
| ToolExecutor.Prepare | app/services/tool_executor.py:18-85 | A request is sent only to a truthy URL, with the 20-second timeout. A refusal starts with `Error: `. A non-dict configuration raises `AttributeError` at `.get`. Any other exception is a `TypeError`, `AttributeError` or `KeyError`. |
| ToolExecutor.ExecuteApiTool | app/services/tool_executor.py:8-129 | The tool raises exactly when the preparation does. A refusal is returned as is, and a sent request is reported. An answer not starting with `Error: ` comes from a successful response. |
| ToolExecutor.RefusalSendsNothing | app/services/tool_executor.py:44 | A refusal is the answer whatever the network would do. |
| ToolExecutor.PlanKeepsConfig | app/services/tool_executor.py:18-20 | Every request uses the upper-cased configured method (GET when absent), the configured URL and headers, and a 20-second timeout. |
| ToolExecutor.PlanShape | app/services/tool_executor.py:94-104 | Only a GET carries query parameters, and only a POST, PUT or PATCH carries a body. |
| ToolExecutor.GetDictInput | app/services/tool_executor.py:55-57 | A GET with a non-empty dict input sends that dict as the query. |
| ToolExecutor.GetScalarToSingleProperty | app/services/tool_executor.py:58-65 | A GET with a non-string, non-dict input and a one-property schema sends `{property: input}`. |
| ToolExecutor.BodyFromObject | app/services/tool_executor.py:70-75 | A dict input, or the object a JSON string decodes to, is the JSON body. |
| ToolExecutor.PlainStringForObjectRefused | app/services/tool_executor.py:76-78 | A plain string for a body, against an object schema of at most one property, is refused. |
| ToolExecutor.BodyWrapsValue | app/services/tool_executor.py:79-85 | Without an object schema, a plain string or any non-dict value is wrapped as `{"value": input}`. |
| ToolExecutor.SeveralPropertiesFillRequired | app/services/tool_executor.py:36-41 | A non-JSON string, against an object schema with several properties whose single required property is a string, fills that property. |
| ToolExecutor.SeveralPropertiesRejected | app/services/tool_executor.py:43-44 | Otherwise the non-JSON string is refused with the not-valid-JSON message. |
| ToolExecutor.Truncate | app/services/tool_executor.py:121 | `text[:200]` is a prefix of at most 200 characters, and is the whole text when it is shorter. |
| ToolExecutor.ErrorText | app/services/tool_executor.py:115-129 | A failure's answer is `Error: ` followed by the message. |
| ToolExecutor.ErrorTextPrefix | app/services/tool_executor.py:116-121 | Appending details to a failure message keeps the beginning of its answer. |
| ToolExecutor.Report | app/services/tool_executor.py:105-129 | Every outcome other than a 2xx response is answered with text starting with `Error: `. A successful non-JSON response is answered with its raw text. |
| ToolExecutor.StatusErrorReport | app/services/tool_executor.py:115-123 | A non-2xx response is answered with `Error: API request to <url> failed with status <status>. Details: `, followed by the details. |
| ToolExecutor.ConnectFailureReport | app/services/tool_executor.py:124-126 | A connection failure is answered with `Error: Could not connect to API at <url>. Details: `, followed by the failure's text. |
| ToolExecutor.SuccessReport | app/services/tool_executor.py:105-113 | A successful non-JSON response is returned as its raw text; a JSON one is re-encoded. |
| Schemas.Errors | app/schemas.py:5-41 | The list of failing fields is empty exactly when no field fails, and it names only declared fields. |
| Schemas.Validate | app/schemas.py:5-41 | A body is accepted exactly when it is a dict in which no field fails; a refusal names at least one field. |
| Schemas.AssignIsUnion | app/crud.py:25-26 | Applying the dumped pairs one by one is a dict union with the pairs' own dict. |
| Schemas.CreateDump | app/crud.py:15 | A valid creation body is dumped with every declared field, an absent optional one as None, and nothing else. |
| Schemas.UpdateDump | app/crud.py:24 | A valid update body is dumped with exactly the declared fields it sets. |
| Schemas.ValidFieldAccepted | app/schemas.py:5-41 | A valid field's value is accepted by its declared type, and a required field is present. |
| Schemas.PromptCreateRule | app/schemas.py:5-8 | A prompt needs a name of 1 to 100 characters and a string content. Its metadata may be absent, None or a dict. |
| Schemas.PromptUpdateRule | app/schemas.py:13-16 | Every prompt-update field is optional. A name, when a string, has 1 to 100 characters. |
| Schemas.ToolCreateRule | app/schemas.py:25-29 | A tool needs only a name of 1 to 100 characters. |
| Schemas.ToolUpdateRule | app/schemas.py:34-38 | Every tool-update field is optional, and the empty body is a valid update. |
| Crud.FindById | app/crud.py:5-6 | The row found carries the id. None is returned exactly when no row does. |
| Crud.FirstIndex | app/crud.py:8-9 | The index found selects its row and no earlier row is selected; -1 means no row is. |
| Crud.FindByName | app/crud.py:8-9 | The first row with that name, or None exactly when no row has it. |
| Crud.Page | app/crud.py:11-12 | The rows from `skip` on, at most `limit` of them, in order. |
| Crud.NextId | app/crud.py:14-19 | A new row's id is positive and larger than every id present. |
| Crud.Table.constructor | app/models/prompt.py:7-10 | An empty table with the model's NOT NULL columns. |
| Crud.Table.Create | app/crud.py:14-19 | An admissible row gets the next id and exactly the dumped columns, and is appended. Otherwise the commit fails with `IntegrityError` and nothing changes. The table stays valid. |
| Crud.Table.Update | app/crud.py:21-29 | A missing id gives None. Otherwise the set fields are assigned, and the row is replaced when admissible. Otherwise `IntegrityError` is raised and nothing changes. |
| Crud.Table.Delete | app/crud.py:31-36 | The row with the id is removed and returned; None when there is none. |
| Crud.AppendKeepsValid | app/models/prompt.py:8 | Adding an admissible row with the next id keeps ids and names unique and the NOT NULL columns filled. |
| Crud.ReplaceKeepsValid | app/crud.py:25-28 | Replacing a row by an admissible one with the same id keeps every constraint. |
| Crud.RemoveKeepsValid | app/crud.py:31-36 | Removing a row keeps ids and names unique and the NOT NULL columns filled. |
| Crud.CreatedIsFound | app/crud.py:14-19 | After a create, the new row is found by its id, and every other id finds what it found before. |
| Crud.DeletedIsGone | app/crud.py:31-36 | After a delete, the id finds nothing. |
| Crud.UpdateChangesOnlySetColumns | app/crud.py:24-26 | An update changes only the columns it sets; the rest of the row and its id stay as they were. |
| Crud.NameLookupIsUnique | app/models/prompt.py:8 | With unique names, the row a name lookup finds is the only row with that name. |
| Crud.PageIsSlice | app/crud.py:11-12 | A page is the slice `rows[skip:skip + limit]`. |
| Routes.ReadRoute | app/api/prompts_router.py:109-131 | 404 exactly when no row has the id; otherwise 200 with that row. |
| Routes.ListRoute | app/api/prompts_router.py:88-107 | 200 with at most `limit` rows, the ones from `skip` on, in order. |
| Routes.ListDefaults | app/api/prompts_router.py:88-107 | Without query parameters, the first hundred rows. |
| Routes.CreateRoute | app/api/prompts_router.py:60-86 | An invalid body gives 422 and a taken name 400, both with the table unchanged. Otherwise the row is created and returned. |
| Routes.UpdateRoute | app/api/prompts_router.py:133-167 | An invalid body gives 422, a missing id 404, and a rename to a taken name 400. Otherwise the update is applied. The table stays valid. |
| Routes.DeleteRoute | app/api/prompts_router.py:169-191 | A missing id gives 404 and leaves the table unchanged. Otherwise the row is removed, the id finds nothing, and 204 is returned. |
| Routes.ValidCreateBody | app/schemas.py:5-8 | A valid creation body sets every NOT NULL column of its table to a string. |
| Routes.ValidUpdateBody | app/schemas.py:13-16 | A valid update body sets `name` to None or to a non-empty string, if at all. |
| Routes.CreateAdmissible | app/api/prompts_router.py:80-86 | A valid body under a free name never meets the database's constraint. |
| Routes.PatchAdmissible | app/api/prompts_router.py:156-167 | When the rename check passes and no NOT NULL column is set to None, the commit succeeds. |
| Routes.RenameCheckFreesName | app/api/prompts_router.py:160-163 | When the rename check passes, the new name is the old one, None, or free. |
| Routes.NullIsRejected | app/models/prompt.py:8 | Setting a NOT NULL column to None fails the commit. |
| Security.CompareDigest | app/core/security.py:24-25 | `compare_digest` on strings tells whether they are equal, and raises `TypeError` exactly when either holds a non-ASCII character. |
| Security.GetCurrentUsername | app/core/security.py:10-35 | Missing configuration gives 500 before any comparison. A non-ASCII string among the four compared raises `TypeError`. Otherwise wrong credentials give 401, and matching ones return the username. Both rejections carry the Basic challenge. |
| Security.ConfigurationFirst | app/core/security.py:15-22 | Without configuration every request gets the 500, whatever it sends. |
| Security.WrongHalfRejected | app/core/security.py:24-33 | A wrong password, or a wrong username, is answered with 401 whatever the other half is, unless a compared string is not ASCII, when `compare_digest` raises. |
| Security.NonAsciiSettingRaises | app/core/security.py:24-25 | A configured username or password with a non-ASCII character makes every request raise `TypeError`, whatever it sends. |
| Security.DefaultLogin | app/core/config.py:12-13 | With the default settings, exactly `admin` / `password` is let in. |
| RedisService.RedisCache.constructor | app/services/redis_service.py:6 | No client at start. |
| RedisService.RedisCache.GetRedisClient | app/services/redis_service.py:8-30 | A cached client is returned as is. Otherwise a client is built on database 0 with decoded responses, and kept only when its ping succeeds. |
| RedisService.BuildsUntilConnected | app/services/redis_service.py:10-28 | Starting without a client, every call retries until one connects, and no call builds a client after that. |
| RedisService.FirstConnected | app/services/redis_service.py:10-28 | The position found is the first successful connection, or the end when none succeeds. |
| RedisService.CachedBuildsNothing | app/services/redis_service.py:10 | A cached client is kept forever. |
| AiService.ToolFrom | app/services/ai_service.py:34-84 | A record without a dict config holding a truthy URL is skipped. Otherwise it is loaded with the record's name, parameters and description. A non-dict config raises. |
| AiService.LoadLangchainTools | app/services/ai_service.py:34-84 | The loop over the first hundred records agrees with its specification. |
| AiService.ToolErrorPersists | app/services/ai_service.py:34-84 | A record that raises ends the loading with its exception. |
| AiService.ToolsKeepOrder | app/services/ai_service.py:34-84 | When no record raises, exactly the records whose config has a URL are loaded, in order. |
| AiService.ToolDescription | app/services/ai_service.py:67-70 | A record without a description is described as "Tool named <name>.". The record's config is extended, not replaced. |
| AiService.ChosenModel | app/services/ai_service.py:95 | The preference when truthy, the configured default otherwise. |
| AiService.SelectBackend | app/services/ai_service.py:100-123 | OpenAI is chosen exactly for a name that lower-cases to `openai` with a key present, and Gemini likewise. Any other name is refused, naming it. Every refusal starts with `Error: `. |
| AiService.SelectionIgnoresCase | app/services/ai_service.py:100-123 | Names that lower-case alike select the same backend. |
| AiService.MissingOpenAiKey | app/services/ai_service.py:100-110 | A missing or placeholder OpenAI key is reported before any tool is loaded. |
| AiService.MissingGeminiKey | app/services/ai_service.py:111-120 | A missing or placeholder Gemini key is reported likewise. |
| AiService.UnsupportedModel | app/services/ai_service.py:121-123 | Any other model name is refused with a message naming it. |
| AiService.InitFailureReported | app/services/ai_service.py:100-120 | A model that fails to initialise is reported with the failure's text, before any tool is loaded. |
| AiService.HistoryChoice | app/services/ai_service.py:131-153 | Without Redis the history is in memory; with it, under `ari_chat_history:<session id>`. A failed ping raises. |
| AiService.HistoryFor | app/services/ai_service.py:131-153 | The setup raises exactly when the ping raises. The history is in memory exactly when there is no Redis client. Otherwise the Redis key is `ari_chat_history:` followed by the session id. |
| AiService.PingFailureRaises | app/services/ai_service.py:143-153 | With tools loaded, a Redis client whose ping raises makes the whole call raise `NameError`. |
| AiService.SystemPrompt | app/services/ai_service.py:156-163 | The stored prompt's content when `prompt_name` names one, otherwise the default prompt. |
| AiService.ChainTemplate | app/services/ai_service.py:183-186 | The system prompt itself when it has both slots, otherwise the prompt followed by the conversation. |
| AiService.SuffixHasSlots | app/services/ai_service.py:184-186 | The appended conversation supplies both the `{history}` and the `{input}` slot. |
| AiService.RunnerFor | app/services/ai_service.py:168-196 | The agent is built exactly for OpenAI with at least one tool, with the system prompt and the tools. Otherwise the chain is built with the chain template. |
| AiService.AgentOnlyWithTools | app/services/ai_service.py:168-196 | The agent runs only for OpenAI with at least one loaded tool, and its answer is the reply. Every other case reaches `ConversationChain`, a name the file never imports, and raises `NameError`. |
| AiService.GeminiRaises | app/services/ai_service.py:111-196 | With Gemini chosen and initialised, and the history set up, the call always raises `NameError` at `ConversationChain`. |
| AiService.GetAiResponse | app/services/ai_service.py:86-226 | A refused model choice is the reply. Only `NameError`, or an exception from tool loading, escapes. A call that returns after a successful initialisation ran the OpenAI agent with tools. |
| AiService.ReplyFromRunner | app/services/ai_service.py:210-226 | The reply is the runner's output as a string, a fixed message when it has none, or the failure's text. |
| AiService.Answer | app/services/ai_service.py:217-226 | A failure is answered with `Error: AI processing failed. Details: ` and the failure's text. A missing output gets the fixed message. Otherwise the reply is `str()` of the output. |
| AiService.AnswerCases | app/services/ai_service.py:218-226 | The exact fixed replies for a failed invocation and for one without output. |

## Left out

- Network and I/O. HTTP requests, Redis pings, LLM initialisation and invocation, and the ARI WebSocket are parameters of the model. It does not send, time out or run concurrently.
- Swagger listing fetches. `client.py` calls `.json()` on what `http_client.get` returns (lines 62 and 172). The model gives the fetch's outcome as a `Fetch` value, so whether that call succeeds is part of the parameter.
- The `MockHttpResponse` class (client.py:275-311). `Call` returns its observable content: the whole `(data, response)` answer as its data, and status 200.
- Logging, in every file.
- asyncio. `start_ari_listener` creates a task, but the task's body is modelled only through `RunWithRetry`. The retry loop's sleep and its endless repetition are modelled as a finite sequence of connection outcomes.
- `AriHandler.Supervisor.RunWithRetry`: does not model the running `ari.run` call between connecting and the next failure.
- LangChain. Agents, chains, memory classes and tool objects are reduced to which runner is built, with which template and tools. The tool coroutine is not invoked.
- The `llm is None` check (ai_service.py:125-126) is dead, since every path reaching it has set the model. No member models it.
- `AriHandler.OnStasisStart`: the AI call at ari_handler.py:50-55 omits the required `db` argument and passes `initial_prompt_str`, a keyword `get_ai_response` does not take. In the program it therefore always raises `TypeError`, which the handler swallows, so `AI_RESPONSE` is never set. The model keeps the AI call as the parameter `co.ai`. `Converse` covers an `ai` that always fails, which is this case, as well as one that answers.
- Dict iteration order is the `Builtins.keys` parameter. The model only requires that it lists each key once (`ListsKeys`).
- `AriConnect.Unsplit`: follows `urlunsplit` as CPython 3.12 writes it, where an empty authority `//` is written for a scheme that has an authority part unless the path starts with `//`. Other Python versions differ on bases without an authority. Versions before the empty-authority rule give `http:/ari/api-docs/resources.json` for the base `http:/x`. Later versions give `http:ari/api-docs/resources.json` for `http:x` and `http:;x`, where the model gives `http:///ari/api-docs/resources.json`.
- The ARI client module itself is not part of this model. `Connect` stops at the discovery URL and the HTTP client it hands over.
- The hostname `connect` computes (ari_py/__init__.py:27-30) is only logged, so it is not in `Connect`'s contract.
- `urlsplit`: port validation and IPv6 brackets are not modelled.
- `urljoin`: only the relative references the code uses are modelled: plain segments, no `..`, no query.
- SQLAlchemy sessions, transactions and refresh. A table is a sequence of rows. SQLite's row id is modelled as one more than the largest id present.
- Only the NOT NULL and UNIQUE constraints of `name` (and of `content` for prompts) are checked at commit.
- Pydantic's error details are reduced to the names of the failing fields.
- Negative `skip` and `limit` are not modelled: they are natural numbers.
- The authentication dependency is modelled on its own and is not composed with each route.
- The HTML routes and the testing router are not part of this model.
- `Security.CompareDigest`: its constant-time behaviour is left out. Equality and the `TypeError` on non-ASCII strings are modelled.
- Floating-point numbers and the `timeout` values are not interpreted.
- `str.lower` and `str.upper` are modelled on ASCII letters only; the few non-ASCII letters that Python maps to ASCII ones (`ı` and `ſ` upper-case to `I` and `S`, the Kelvin sign lower-cases to `k`) are left out. `str.strip` uses the full set of characters Python counts as whitespace.
- `str()` on dicts and lists, and `json.dumps`/`json.loads`, are parameters (`Builtins`), with no laws assumed.
- Python's `True == 1` equality is not modelled as a key collision in dicts.
- `AriHandler.Supervisor.GetClient` is a plain read of the global.

Where the prose description of the system and the code differ, the model follows the code:

- Dialplan keys are kept exactly as written, not upper-cased.
- An exception in the handler is only logged. No `ARI_ERROR` or `SYSTEM_ERROR` channel variable is set.
- Keyword arguments that no parameter declares are never sent.
- A path parameter that is not supplied leaves its `{name}` placeholder in the path.
- A listing without `apis` gives an empty resource table, not an error.
- The vendored HTTP client raises for 4xx and 5xx statuses only. The tool executor's client raises for every non-2xx status.
- The conversation-chain branch of `get_ai_response` cannot run. `ConversationChain` (ai_service.py:196) is never imported, so that branch raises `NameError`. The branch is taken for Gemini and for OpenAI without tools.
- A failing Redis ping in `get_ai_response` is not handled. The `except` clause names the `redis` module, which ai_service.py never imports, so evaluating it raises `NameError`.

