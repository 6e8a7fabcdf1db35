/**
 * `SynchronousHttpClient`: stores Basic credentials, merges request headers,
 * hands each request to an HTTP session, and turns the session's answer into
 * the pair (decoded body, response) or an exception. The session itself is
 * a parameter: a function from the request as sent to its outcome.
 */
module HttpClient {
  import opened Wrappers
  import opened Json

  /** A response as received: its status code and its body text. */
  datatype Response = Response(status: int, text: string)

  /** What the session does with a request: a response, or a connection-level exception. */
  datatype Outcome = Received(response: Response) | Unreachable

  /** A request exactly as handed to the session. */
  datatype Sent = Sent(
    verb: Json,
    url: string,
    params: Option<map<string, Json>>,
    data: Option<string>,
    headers: map<string, string>,
    auth: Option<(string, string)>,
    timeout: int)

  /** The `timeout` that `request` and `get` use when the caller gives none. */
  const DefaultTimeout: int := 10

  /** `raise_for_status` raises for client errors (4xx) and server errors (5xx). */
  predicate IsErrorStatus(status: int) {
    400 <= status < 600
  }

  /** `{'Content-Type': 'application/json'}` updated with the caller's headers, when they are non-empty. */
  function MergeHeaders(headers: Option<map<string, string>>): (r: map<string, string>)
    ensures forall k :: k in r <==> k == "Content-Type" || (headers.Some? && k in headers.value)
    ensures forall k :: headers.Some? && k in headers.value ==> r[k] == headers.value[k]
    ensures headers.None? || "Content-Type" !in headers.value ==> r["Content-Type"] == "application/json"
  {
    var defaults := map["Content-Type" := "application/json"];
    if headers.Some? && |headers.value| > 0 then defaults + headers.value else defaults
  }

  /**
   * The result of `request` once the session has answered: an HTTP error or a
   * connection failure is re-raised; otherwise an empty body gives `None`, a
   * JSON body its decoded value, and any other body its text.
   */
  function Classify(outcome: Outcome, loads: string -> Option<Json>): (r: Result<(Json, Response), Exc>)
    ensures r.Err? <==> outcome.Unreachable? || IsErrorStatus(outcome.response.status)
    ensures r.Err? && outcome.Received? ==> r.error == HttpError(outcome.response.status)
    ensures r.Ok? ==> r.value.1 == outcome.response
    ensures r.Ok? && outcome.response.text == "" ==> r.value.0 == JNull
    ensures r.Ok? && outcome.response.text != "" && loads(outcome.response.text).None? ==> r.value.0 == JStr(outcome.response.text)
    ensures r.Ok? && outcome.response.text != "" && loads(outcome.response.text).Some? ==> r.value.0 == loads(outcome.response.text).value
  {
    match outcome
    case Unreachable => Err(ConnectionFailure)
    case Received(resp) =>
      if IsErrorStatus(resp.status) then Err(HttpError(resp.status))
      else if resp.text == "" then Ok((JNull, resp))
      else
        match loads(resp.text)
        case Some(v) => Ok((v, resp))
        case None => Ok((JStr(resp.text), resp))
  }

  class SynchronousHttpClient {
    /** Credentials sent with every request; `None` until `SetBasicAuth`. */
    var auth: Option<(string, string)>

    constructor ()
      ensures auth == None
    {
      auth := None;
    }

    /** `set_basic_auth(host, username, password)`: the host is accepted and ignored. */
    method SetBasicAuth(host: string, username: string, password: string)
      modifies this
      ensures auth == Some((username, password))
    {
      auth := Some((username, password));
    }

    /**
     * `request(method, url, params, data, headers, timeout)`: the request handed
     * to the session, and what the caller receives.
     */
    function Request(verb: Json, url: string, params: Option<map<string, Json>>, data: Option<string>,
                     headers: Option<map<string, string>>, timeout: int,
                     session: Sent -> Outcome, loads: string -> Option<Json>): (r: (Sent, Result<(Json, Response), Exc>))
      reads this
      ensures r.0.verb == verb && r.0.url == url && r.0.params == params && r.0.data == data
      ensures r.0.auth == auth && r.0.timeout == timeout && r.0.headers == MergeHeaders(headers)
      ensures r.1 == Classify(session(r.0), loads)
    {
      var sent := Sent(verb, url, params, data, MergeHeaders(headers), auth, timeout);
      (sent, Classify(session(sent), loads))
    }

    /** `get(url, params, headers, timeout)`: a GET request without data. */
    function Get(url: string, params: Option<map<string, Json>>, headers: Option<map<string, string>>, timeout: int,
                 session: Sent -> Outcome, loads: string -> Option<Json>): (r: (Sent, Result<(Json, Response), Exc>))
      reads this
      ensures r == Request(JStr("GET"), url, params, None, headers, timeout, session, loads)
      ensures r.0.verb == JStr("GET") && r.0.data == None
    {
      var sent := Sent(JStr("GET"), url, params, None, MergeHeaders(headers), auth, timeout);
      (sent, Classify(session(sent), loads))
    }
  }
}
