/**
 * `get_redis_client`: the lazily built, cached Redis client. Building the
 * client and pinging it are outside the model; what they did is a parameter.
 */
module RedisService {
  import opened Wrappers

  datatype RedisSettings = RedisSettings(host: string, port: int, password: string)

  const DefaultRedisSettings: RedisSettings := RedisSettings("localhost", 6379, "")

  /** The arguments of `redis.Redis(...)`. */
  datatype RedisArgs = RedisArgs(host: string, port: int, password: string, db: int, decodeResponses: bool)

  /** What building the client and pinging it did: connected, a `ConnectionError`, or any other exception. */
  datatype Connection = Connected | ConnectionRefused | OtherFailure

  /** A client object. */
  type ClientRef = nat

  function ArgsFor(settings: RedisSettings): RedisArgs {
    RedisArgs(settings.host, settings.port, settings.password, 0, true)
  }

  /** The cache after one call, as a specification. */
  function Next(cached: Option<ClientRef>, outcome: Connection, built: ClientRef): Option<ClientRef> {
    if cached.Some? then cached
    else if outcome == Connected then Some(built)
    else None
  }

  /** How many clients a run of calls builds, each call seeing its own connection outcome. */
  function Builds(cached: Option<ClientRef>, outcomes: seq<Connection>): nat
    decreases |outcomes|
  {
    if outcomes == [] then 0
    else (if cached.None? then 1 else 0) + Builds(Next(cached, outcomes[0], 0), outcomes[1..])
  }

  /** The position of the first successful connection, or the length when there is none. */
  function FirstConnected(outcomes: seq<Connection>): (k: nat)
    ensures k <= |outcomes|
    ensures forall j :: 0 <= j < k ==> outcomes[j] != Connected
    ensures k < |outcomes| ==> outcomes[k] == Connected
  {
    if outcomes == [] then 0
    else if outcomes[0] == Connected then 0
    else 1 + FirstConnected(outcomes[1..])
  }

  /**
   * Starting without a client, every call retries until one connects, and
   * none builds a client after that.
   */
  lemma {:induction false} BuildsUntilConnected(outcomes: seq<Connection>)
    ensures Builds(None, outcomes) == if FirstConnected(outcomes) < |outcomes| then FirstConnected(outcomes) + 1 else |outcomes|
    decreases |outcomes|
  {
    if outcomes != [] {
      if outcomes[0] == Connected {
        CachedBuildsNothing(Some(0), outcomes[1..]);
      } else {
        BuildsUntilConnected(outcomes[1..]);
      }
    }
  }

  /** A cached client is kept forever. */
  lemma {:induction false} CachedBuildsNothing(cached: Option<ClientRef>, outcomes: seq<Connection>)
    requires cached.Some?
    ensures Builds(cached, outcomes) == 0
    decreases |outcomes|
  {
    if outcomes != [] {
      CachedBuildsNothing(cached, outcomes[1..]);
    }
  }

  class RedisCache {
    /** The module global `redis_client`. */
    var client: Option<ClientRef>

    constructor()
      ensures client == None
    {
      client := None;
    }

    /**
     * A cached client is returned as is; otherwise a client is built from the
     * settings (database 0, decoded responses) and pinged, and kept only when
     * the ping succeeds. `built` is the construction made, if any.
     */
    method GetRedisClient(settings: RedisSettings, outcome: Connection, newClient: ClientRef)
      returns (r: Option<ClientRef>, built: Option<RedisArgs>)
      modifies this
      ensures client == Next(old(client), outcome, newClient) && r == client
      ensures old(client).Some? ==> built == None && r == old(client)
      ensures old(client).None? ==> built == Some(ArgsFor(settings)) && (r.Some? <==> outcome == Connected)
    {
      built := None;
      if client.None? {
        built := Some(ArgsFor(settings));
        if outcome == Connected {
          client := Some(newClient);
        } else {
          client := None;
        }
      }
      r := client;
    }
  }
}
