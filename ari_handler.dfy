/**
 * The bridge between Asterisk's dialplan and the AI service: the
 * `StasisStart` handler (argument parsing, value selection, and the ordered
 * answer / ask-the-AI / set-variable calls whose failures are all swallowed)
 * and the reconnect supervisor over the module's two globals, the current
 * ARI client and the listener task.
 */
module AriHandler {
  import opened Wrappers
  import opened Json
  import Text
  import AriConnect

  /** The settings the handler reads. */
  datatype Settings = Settings(ariUrl: string, appName: string, username: string, password: string, defaultAiModel: string)

  /** The configured values when no environment overrides them. */
  const DefaultSettings: Settings := Settings(AriConnect.DefaultAriUrl, "ai_ari_app", "asterisk", "asterisk", "openai")

  // ----- Dialplan arguments -----

  predicate HasEquals(s: string) {
    Text.FindFirst(s, '=') >= 0
  }

  /** `arg.split('=', 1)[0]`. */
  function KeyOf(s: string): string
    requires HasEquals(s)
  {
    s[..Text.FindFirst(s, '=')]
  }

  /** `arg.split('=', 1)[1]`, before stripping. */
  function RawValueOf(s: string): string
    requires HasEquals(s)
  {
    s[Text.FindFirst(s, '=') + 1..]
  }

  /** The split is at the first `=`: the key holds none, and key, `=` and value rebuild the argument. */
  lemma SplitAtFirstEquals(s: string)
    requires HasEquals(s)
    ensures KeyOf(s) + "=" + RawValueOf(s) == s
    ensures forall k :: 0 <= k < |KeyOf(s)| ==> KeyOf(s)[k] != '='
  {
    var i := Text.FindFirst(s, '=');
    assert s == s[..i] + [s[i]] + s[i + 1..];
  }

  /**
   * One pass of `for arg in args`: a string with `=` stores its stripped value
   * under its verbatim key; a string without `=` is skipped; for any other
   * value `'=' in arg` is evaluated, and `arg.split` fails if it holds.
   */
  function ArgStep(vars: map<string, string>, arg: Json): Result<map<string, string>, Exc> {
    match arg
    case JStr(s) =>
      if HasEquals(s) then Ok(vars[KeyOf(s) := Text.Strip(RawValueOf(s))]) else Ok(vars)
    case _ =>
      var found :- Contains(arg, "=");
      if found then Err(NoAttribute(TypeName(arg), "split")) else Ok(vars)
  }

  /** For a string argument the `'=' in arg` test is the search for its first `=`. */
  lemma EqualsTestIsSearch(s: string)
    ensures Contains(JStr(s), "=") == Ok(HasEquals(s))
  {
    Text.CharSubstring('=', s);
  }

  /**
   * `dialplan_vars` after the loop has visited `args` in order. String
   * arguments never fail; the only failures are the `TypeError` of an `in`
   * test and the `AttributeError` of `split` on a non-string argument.
   */
  function DialplanVars(args: seq<Json>): (r: Result<map<string, string>, Exc>)
    ensures AllStrings(args) ==> r.Ok?
    ensures r.Err? ==> (r.error.TypeError? || r.error.AttributeError?) && exists j :: 0 <= j < |args| && !args[j].JStr?
    decreases |args|
  {
    if args == [] then Ok(map[])
    else
      var vars :- DialplanVars(args[..|args| - 1]);
      ArgStep(vars, args[|args| - 1])
  }

  lemma {:induction false} DialplanErrPersists(args: seq<Json>, i: nat)
    requires i <= |args| && DialplanVars(args[..i]).Err?
    ensures DialplanVars(args) == DialplanVars(args[..i])
    decreases |args| - i
  {
    if i < |args| {
      assert args[..i + 1][..i] == args[..i];
      DialplanErrPersists(args, i + 1);
    } else {
      assert args[..i] == args;
    }
  }

  /** The argument loop of `on_stasis_start`. */
  method ParseArgs(args: seq<Json>) returns (r: Result<map<string, string>, Exc>)
    ensures r == DialplanVars(args)
  {
    var vars: map<string, string> := map[];
    var i := 0;
    while i < |args|
      invariant 0 <= i <= |args|
      invariant DialplanVars(args[..i]) == Ok(vars)
    {
      assert args[..i + 1][..i] == args[..i];
      var arg := args[i];
      assert DialplanVars(args[..i + 1]) == ArgStep(vars, arg);
      if arg.JStr? {
        if HasEquals(arg.s) {
          vars := vars[KeyOf(arg.s) := Text.Strip(RawValueOf(arg.s))];
        }
      } else {
        var found := Contains(arg, "=");
        if found.Err? {
          DialplanErrPersists(args, i + 1);
          return Err(found.error);
        }
        if found.value {
          DialplanErrPersists(args, i + 1);
          return Err(NoAttribute(TypeName(arg), "split"));
        }
      }
      i := i + 1;
    }
    assert args[..i] == args;
    r := Ok(vars);
  }

  /** Every argument is a string (what Asterisk sends). */
  predicate AllStrings(args: seq<Json>) {
    forall j :: 0 <= j < |args| ==> args[j].JStr?
  }

  /** Argument `arg` is a string assigning `key`. */
  predicate Assigns(arg: Json, key: string) {
    arg.JStr? && HasEquals(arg.s) && KeyOf(arg.s) == key
  }

  lemma StringStep(vars: map<string, string>, arg: Json)
    requires arg.JStr?
    ensures ArgStep(vars, arg) == Ok(if HasEquals(arg.s) then vars[KeyOf(arg.s) := Text.Strip(RawValueOf(arg.s))] else vars)
  {
  }

  /** String arguments never fail, and the keys are exactly those of the arguments holding `=`. */
  lemma {:induction false} DialplanKeys(args: seq<Json>, key: string)
    requires AllStrings(args)
    ensures DialplanVars(args).Ok?
    ensures key in DialplanVars(args).value <==> exists j :: 0 <= j < |args| && Assigns(args[j], key)
    decreases |args|
  {
    if args != [] {
      var n := |args| - 1;
      var front := args[..n];
      FrontAllStrings(args);
      DialplanKeys(front, key);
      var vars := DialplanVars(front).value;
      StringStep(vars, args[n]);
      assert DialplanVars(args) == ArgStep(vars, args[n]);
      AssignsSplit(args, key);
    }
  }

  /** Under duplicate keys the last assigning argument wins; its value is stripped. */
  lemma {:induction false} DialplanLastWins(args: seq<Json>, j: nat, key: string)
    requires AllStrings(args)
    requires j < |args| && Assigns(args[j], key)
    requires forall k :: j < k < |args| ==> !Assigns(args[k], key)
    ensures DialplanVars(args).Ok? && key in DialplanVars(args).value
    ensures DialplanVars(args).value[key] == Text.Strip(RawValueOf(args[j].s))
    decreases |args|
  {
    var n := |args| - 1;
    var front := args[..n];
    FrontAllStrings(args);
    DialplanKeys(front, key);
    if j < n {
      assert front[j] == args[j];
      assert forall k :: j < k < n ==> front[k] == args[k];
      DialplanLastWins(front, j, key);
      var vars := DialplanVars(front).value;
      assert DialplanVars(args) == ArgStep(vars, args[n]);
      StepKeeps(vars, args[n], key);
    } else {
      LastAssignWins(args, key);
    }
  }

  /** Some argument assigns `key` exactly when one before the last does or the last does. */
  lemma AssignsSplit(args: seq<Json>, key: string)
    requires |args| > 0
    ensures var n := |args| - 1;
      (exists j :: 0 <= j < |args| && Assigns(args[j], key)) <==>
      (exists j :: 0 <= j < n && Assigns(args[..n][j], key)) || Assigns(args[n], key)
  {
    var n := |args| - 1;
    if exists j :: 0 <= j < n && Assigns(args[..n][j], key) {
      var j :| 0 <= j < n && Assigns(args[..n][j], key);
      assert Assigns(args[j], key);
    }
    if exists j :: 0 <= j < |args| && Assigns(args[j], key) {
      var j :| 0 <= j < |args| && Assigns(args[j], key);
      if j < n { assert Assigns(args[..n][j], key); }
    }
  }

  lemma FrontAllStrings(args: seq<Json>)
    requires AllStrings(args) && |args| > 0
    ensures AllStrings(args[..|args| - 1])
  {
    var front := args[..|args| - 1];
    forall k | 0 <= k < |front| ensures front[k].JStr? {
      assert front[k] == args[k];
    }
  }

  /** When the last argument assigns `key`, its stripped value is the one kept. */
  lemma LastAssignWins(args: seq<Json>, key: string)
    requires AllStrings(args) && |args| > 0 && Assigns(args[|args| - 1], key)
    ensures DialplanVars(args).Ok? && key in DialplanVars(args).value
    ensures DialplanVars(args).value[key] == Text.Strip(RawValueOf(args[|args| - 1].s))
  {
    var n := |args| - 1;
    FrontAllStrings(args);
    DialplanKeys(args[..n], key);
    var vars := DialplanVars(args[..n]).value;
    assert DialplanVars(args) == ArgStep(vars, args[n]);
    StringStep(vars, args[n]);
  }

  /** A string argument that does not assign `key` leaves its value alone. */
  lemma StepKeeps(vars: map<string, string>, arg: Json, key: string)
    requires arg.JStr? && !Assigns(arg, key) && key in vars
    ensures ArgStep(vars, arg).Ok? && key in ArgStep(vars, arg).value && ArgStep(vars, arg).value[key] == vars[key]
  {
  }

  // ----- The StasisStart handler -----

  /** The calls the handler makes, in order. */
  datatype Effect =
    | Answer
    | AskAi(textInput: string, sessionId: Json, modelPreference: string)
    | SetChannelVar(variable: string, value: string)

  /**
   * What the collaborators do: whether `channel.answer()` returns normally,
   * and what the AI service returns (or raises) for given input, session and
   * model preference.
   */
  datatype Collaborators = Collaborators(answers: bool, ai: (string, Json, string) -> Result<string, Exc>)

  /** `vars.get(upper, vars.get(lower, fallback))` for string values. */
  function PickText(vars: map<string, string>, upper: string, lower: string, fallback: string): string {
    if upper in vars then vars[upper] else if lower in vars then vars[lower] else fallback
  }

  /** The same fallback chain ending in a value that need not be a string (the channel id). */
  function PickJson(vars: map<string, string>, upper: string, lower: string, fallback: Json): Json {
    if upper in vars then JStr(vars[upper]) else if lower in vars then JStr(vars[lower]) else fallback
  }

  /**
   * The `try` block: answer, then ask the AI, then set `AI_RESPONSE`; the
   * first failure ends it and is swallowed. The channel is answered first,
   * the AI is asked only after a successful answer, and `AI_RESPONSE` is set,
   * to exactly the AI's reply, only after the AI answered.
   */
  function Converse(input: string, session: Json, model: string, co: Collaborators): (t: seq<Effect>)
    ensures 1 <= |t| <= 3 && t[0] == Answer
    ensures |t| >= 2 <==> co.answers
    ensures |t| >= 2 ==> t[1] == AskAi(input, session, model)
    ensures |t| == 3 <==> co.answers && co.ai(input, session, model).Ok?
    ensures |t| == 3 ==> t[2] == SetChannelVar("AI_RESPONSE", co.ai(input, session, model).value)
  {
    if !co.answers then [Answer]
    else match co.ai(input, session, model)
      case Err(_) => [Answer, AskAi(input, session, model)]
      case Ok(text) => [Answer, AskAi(input, session, model), SetChannelVar("AI_RESPONSE", text)]
  }

  /**
   * `on_stasis_start(channel_obj, ev)`: the calls made, or the exception that
   * escapes from the steps before the `try` block (reading the channel and
   * the arguments).
   */
  function StasisStart(channelObj: Json, ev: Json, settings: Settings, co: Collaborators, py: Builtins): (r: Result<seq<Effect>, Exc>)
    ensures r.Err? ==> r.error.AttributeError? || r.error.TypeError?
    ensures r.Ok? && r.value != [] ==>
      channelObj.JObj? && "channel" in channelObj.fields && Truthy(channelObj.fields["channel"]) &&
      r.value[0] == Answer && |r.value| <= 3
  {
    var channel :- Get(channelObj, "channel", JNull);
    if !Truthy(channel) then Ok([])
    else
      var channelId :- Get(channel, "id", JNull);
      var args :- Get(ev, "args", JArr([]));
      var items :- Iterate(py, args);
      var vars :- DialplanVars(items);
      Ok(Converse(PickText(vars, "USER_INPUT", "user_input", "N/A"),
                  PickJson(vars, "UNIQUEID", "uniqueid", channelId),
                  PickText(vars, "AI_MODEL", "ai_model", settings.defaultAiModel), co))
  }

  /** The handler as the source writes it: reads, the argument loop, then the guarded calls. */
  method OnStasisStart(channelObj: Json, ev: Json, settings: Settings, co: Collaborators, py: Builtins) returns (r: Result<seq<Effect>, Exc>)
    ensures r == StasisStart(channelObj, ev, settings, co, py)
  {
    var channel :- Get(channelObj, "channel", JNull);
    if !Truthy(channel) {
      return Ok([]);
    }
    var channelId :- Get(channel, "id", JNull);
    var args :- Get(ev, "args", JArr([]));
    var items :- Iterate(py, args);
    var vars :- ParseArgs(items);
    var input := PickText(vars, "USER_INPUT", "user_input", "N/A");
    var model := PickText(vars, "AI_MODEL", "ai_model", settings.defaultAiModel);
    var session := PickJson(vars, "UNIQUEID", "uniqueid", channelId);
    var effects := [Answer];
    if co.answers {
      effects := effects + [AskAi(input, session, model)];
      var reply := co.ai(input, session, model);
      if reply.Ok? {
        effects := effects + [SetChannelVar("AI_RESPONSE", reply.value)];
      }
    }
    assert effects == Converse(input, session, model, co);
    r := Ok(effects);
  }

  /** An event whose channel is missing or empty ends the handler before any call. */
  lemma NoChannelNoCalls(channelObj: Json, ev: Json, settings: Settings, co: Collaborators, py: Builtins)
    requires channelObj.JObj? && ("channel" !in channelObj.fields || !Truthy(channelObj.fields["channel"]))
    ensures StasisStart(channelObj, ev, settings, co, py) == Ok([])
  {
  }

  /**
   * Whatever answering and the AI call do, the handler's outcome is the same:
   * it returns normally exactly when the reads before the `try` block succeed.
   */
  lemma FailuresSwallowed(channelObj: Json, ev: Json, settings: Settings, co1: Collaborators, co2: Collaborators, py: Builtins)
    ensures StasisStart(channelObj, ev, settings, co1, py).Ok? == StasisStart(channelObj, ev, settings, co2, py).Ok?
    ensures StasisStart(channelObj, ev, settings, co1, py).Err? ==> StasisStart(channelObj, ev, settings, co1, py) == StasisStart(channelObj, ev, settings, co2, py)
  {
  }

  /**
   * With string arguments and a channel dict, the AI is asked with
   * `USER_INPUT` (else `user_input`, else `N/A`), the session `UNIQUEID`
   * (else `uniqueid`, else the channel id) and `AI_MODEL` (else `ai_model`,
   * else the default model).
   */
  lemma SelectionOrder(channel: map<string, Json>, args: seq<Json>, settings: Settings, co: Collaborators, py: Builtins)
    requires |channel| > 0 && AllStrings(args) && co.answers
    ensures DialplanVars(args).Ok?
    ensures var vars := DialplanVars(args).value;
      var id := if "id" in channel then channel["id"] else JNull;
      var r := StasisStart(JObj(map["channel" := JObj(channel)]), JObj(map["args" := JArr(args)]), settings, co, py);
      r.Ok? && |r.value| >= 2 &&
      r.value[1].textInput == (if "USER_INPUT" in vars then vars["USER_INPUT"] else if "user_input" in vars then vars["user_input"] else "N/A") &&
      r.value[1].sessionId == (if "UNIQUEID" in vars then JStr(vars["UNIQUEID"]) else if "uniqueid" in vars then JStr(vars["uniqueid"]) else id) &&
      r.value[1].modelPreference == (if "AI_MODEL" in vars then vars["AI_MODEL"] else if "ai_model" in vars then vars["ai_model"] else settings.defaultAiModel)
  {
    DialplanKeys(args, "");
  }

  /**
   * `args` given as a dict is iterated over its keys: the handler succeeds,
   * and the variables are exactly the keys that hold `=`, split at it.
   */
  lemma DictArgsParsed(channel: map<string, Json>, m: map<string, Json>, settings: Settings, co: Collaborators, py: Builtins, key: string)
    requires |channel| > 0 && ListsKeys(py.keys(m), m)
    ensures var items := Iterate(py, JObj(m)).value;
      DialplanVars(items).Ok? &&
      (key in DialplanVars(items).value <==> exists k :: k in m && HasEquals(k) && KeyOf(k) == key)
    ensures StasisStart(JObj(map["channel" := JObj(channel)]), JObj(map["args" := JObj(m)]), settings, co, py).Ok?
  {
    var items := Iterate(py, JObj(m)).value;
    assert AllStrings(items);
    DialplanKeys(items, key);
    KeysAssign(py.keys(m), items, m, key);
  }

  /** The key strings of a dict, as iterated, assign `key` exactly when one of the dict's keys does. */
  lemma KeysAssign(ks: seq<string>, items: seq<Json>, m: map<string, Json>, key: string)
    requires ListsKeys(ks, m)
    requires |items| == |ks| && forall j :: 0 <= j < |items| ==> items[j] == JStr(ks[j])
    ensures (exists j :: 0 <= j < |items| && Assigns(items[j], key)) <==> exists k :: k in m && HasEquals(k) && KeyOf(k) == key
  {
    if exists j :: 0 <= j < |items| && Assigns(items[j], key) {
      var j :| 0 <= j < |items| && Assigns(items[j], key);
      assert ks[j] in m && HasEquals(ks[j]) && KeyOf(ks[j]) == key;
    }
    if exists k :: k in m && HasEquals(k) && KeyOf(k) == key {
      var k :| k in m && HasEquals(k) && KeyOf(k) == key;
      assert k in ks;
      var j :| 0 <= j < |ks| && ks[j] == k;
      assert Assigns(items[j], key);
    }
  }

  // ----- The reconnect supervisor -----

  /** An ARI client returned by `ari.connect`; the client module itself is not part of this model. */
  type ClientRef = nat

  /** What `ari.connect` was called with. */
  datatype ConnectCall = ConnectCall(baseUrl: string, appName: string, username: string, password: string)

  /** One pass of the retry loop: the connect call made and, when it succeeded, the client on which `StasisStart` was registered. */
  datatype Attempt = Attempt(call: ConnectCall, registeredOn: Option<ClientRef>)

  /** The listener task handle; whether it is done is asked of the event loop. */
  type TaskRef = nat

  /**
   * The module globals `ari_client_instance` and `ari_client_task`, and the
   * three functions that change or read them.
   */
  class Supervisor {
    var instance: Option<ClientRef>
    var task: Option<TaskRef>

    constructor()
      ensures instance == None && task == None
    {
      instance := None;
      task := None;
    }

    /**
     * `_run_ari_client_with_retry` over the successive outcomes of
     * `ari.connect` (the loop itself never ends; each outcome is one pass).
     * Every pass calls connect with the settings, registers the handler on
     * a connected client, and resets the instance whatever happened.
     */
    method RunWithRetry(settings: Settings, outcomes: seq<Result<ClientRef, Exc>>) returns (attempts: seq<Attempt>)
      modifies this
      ensures instance == (if |outcomes| == 0 then old(instance) else None) && task == old(task)
      ensures |attempts| == |outcomes|
      ensures forall i :: 0 <= i < |attempts| ==>
        attempts[i].call == ConnectCall(settings.ariUrl, settings.appName, settings.username, settings.password)
      ensures forall i :: 0 <= i < |attempts| ==>
        attempts[i].registeredOn == (if outcomes[i].Ok? then Some(outcomes[i].value) else None)
    {
      attempts := [];
      var i := 0;
      while i < |outcomes|
        invariant 0 <= i <= |outcomes| && |attempts| == i
        invariant instance == (if i == 0 then old(instance) else None) && task == old(task)
        invariant forall k :: 0 <= k < i ==>
          attempts[k].call == ConnectCall(settings.ariUrl, settings.appName, settings.username, settings.password)
        invariant forall k :: 0 <= k < i ==>
          attempts[k].registeredOn == (if outcomes[k].Ok? then Some(outcomes[k].value) else None)
      {
        var call := ConnectCall(settings.ariUrl, settings.appName, settings.username, settings.password);
        var registered: Option<ClientRef> := None;
        match outcomes[i] {
          case Ok(client) =>
            instance := Some(client);
            registered := Some(client);
          case Err(_) =>
        }
        instance := None;
        attempts := attempts + [Attempt(call, registered)];
        i := i + 1;
      }
    }

    /** `start_ari_listener`: a new task only when there is none or the previous one is done. */
    method StartListener(previousDone: bool, newTask: TaskRef) returns (created: bool)
      modifies this
      ensures created <==> old(task).None? || previousDone
      ensures task == (if created then Some(newTask) else old(task))
      ensures instance == old(instance)
    {
      if task.None? || previousDone {
        task := Some(newTask);
        created := true;
      } else {
        created := false;
      }
    }

    /** `get_ari_client`. */
    function GetClient(): (c: Option<ClientRef>)
      reads this
      ensures c == instance
    {
      instance
    }
  }
}
