/** The Redis key-value capability provider: its per-actor link table, the
    link lifecycle (link-up, link-down, shutdown), the fallback policy of
    command execution and the translation of Redis replies into the results
    of the key-value contract.

    Redis itself is an oracle: connection set-up is a pair of functions (open
    a client for a URL, then create a connection manager for it) and every
    command is answered by a function `(Conn, Cmd) -> RedisResult<T>`. */
module KvRedis {
  import opened Results
  import opened Text

  /** URL used to reach Redis when no configuration names one. */
  const DEFAULT_CONNECT_URL: string := "redis://127.0.0.1:6379/"

  /** Configuration key that names the Redis URL. */
  const CONFIG_REDIS_URL_KEY: string := "URL"

  /** Rust's `i32` and `u32`, the result types of the counting operations. */
  newtype i32 = x: int | -0x8000_0000 <= x < 0x8000_0000
  newtype u32 = x: int | 0 <= x < 0x1_0000_0000

  /** A Redis client, created from a URL but not yet connected. */
  datatype Client = Client(url: string)

  /** An established connection manager; `session` tells apart connections
      opened to the same URL. */
  datatype Conn = Conn(url: string, session: nat)

  datatype RedisError = RedisError(detail: string)

  type RedisResult<T> = Result<T, RedisError>

  /** Why a link could not be established. */
  datatype LinkError = ClientCreationFailed | ConnectionManagerFailed

  /** What the host passes on link-up: the linked actor and the link's
      key/value configuration. */
  datatype LinkConfig = LinkConfig(sourceId: string, config: map<string, string>)

  /** The invocation context; `actor` is absent when the host did not say
      which actor is calling. */
  datatype Context = Context(actor: Option<string>)

  /** The Redis commands the key-value operations issue. */
  datatype Cmd =
    | Incr(key: string, delta: i32)
    | Exists(key: string)
    | Del(key: string)
    | Get(key: string)
    | RPush(key: string, value: string)
    | LRem(key: string, count: int, value: string)
    | LRange(key: string, start: int, stop: int)
    | Set(key: string, value: string)
    | SetEx(key: string, value: string, seconds: u32)
    | SAdd(key: string, value: string)
    | SRem(key: string, value: string)
    | SInter(keys: seq<string>)
    | SMembers(key: string)
    | SUnion(keys: seq<string>)

  /** Result of `get`: the value, and whether the key is taken to exist. */
  datatype GetResponse = GetResponse(value: string, keyExists: bool)

  // ---------------------------------------------------------------------
  // Configuration

  /** A configuration key that names the Redis URL when case is ignored. */
  predicate IsUrlKey(k: string) {
    EqIgnoreAsciiCase(k, CONFIG_REDIS_URL_KEY)
  }

  /** The eight spellings of "URL" are exactly the keys `IsUrlKey` accepts. */
  lemma UrlKeySpellings(k: string)
    ensures IsUrlKey(k) <==> k in {"url", "urL", "uRl", "uRL", "Url", "UrL", "URl", "URL"}
  {
    if IsUrlKey(k) {
      assert AsciiLower(k[0]) == 'u' && AsciiLower(k[1]) == 'r' && AsciiLower(k[2]) == 'l';
      AsciiLowerPreimage(k[0], 'u');
      AsciiLowerPreimage(k[1], 'r');
      AsciiLowerPreimage(k[2], 'l');
      assert k == [k[0], k[1], k[2]];
    }
  }

  /** The provider-wide default URL, read from the host configuration: the
      value of some key that equals "URL" ignoring ASCII case (which one,
      when several do, depends on hash-map order), otherwise the built-in
      default. */
  ghost function RetrieveDefaultUrl(config: map<string, string>): (url: string)
    ensures (exists k :: k in config && IsUrlKey(k)) ==>
              exists k :: k in config && IsUrlKey(k) && url == config[k]
    ensures (forall k :: k in config ==> !IsUrlKey(k)) ==> url == DEFAULT_CONNECT_URL
  {
    if exists k :: k in config && IsUrlKey(k) then
      var k :| k in config && IsUrlKey(k);
      config[k]
    else
      DEFAULT_CONNECT_URL
  }

  /** "url", "URL" and "Url" all supply the default URL; an empty
      configuration falls back to the built-in one. */
  lemma RetrieveDefaultUrlIgnoresCase(u: string)
    ensures RetrieveDefaultUrl(map["url" := u]) == u
    ensures RetrieveDefaultUrl(map["URL" := u]) == u
    ensures RetrieveDefaultUrl(map["Url" := u]) == u
    ensures RetrieveDefaultUrl(map[]) == DEFAULT_CONNECT_URL
  {
    UrlKeySpellings("url");
    UrlKeySpellings("URL");
    UrlKeySpellings("Url");
  }

  /** The URL a link connects to: the link configuration's value under the
      exact key "URL", otherwise the provider default. */
  function LinkUrl(config: map<string, string>, defaultConnectUrl: string): (url: string)
    ensures CONFIG_REDIS_URL_KEY in config ==> url == config[CONFIG_REDIS_URL_KEY]
    ensures CONFIG_REDIS_URL_KEY !in config ==> url == defaultConnectUrl
  {
    if CONFIG_REDIS_URL_KEY in config then config[CONFIG_REDIS_URL_KEY] else defaultConnectUrl
  }

  /** Unlike the provider default, the link URL is looked up case-sensitively:
      a link configured with "url" gets the provider default, while the same
      map given as host configuration supplies the URL. */
  lemma LinkUrlIsCaseSensitive(u: string, defaultConnectUrl: string)
    ensures LinkUrl(map["url" := u], defaultConnectUrl) == defaultConnectUrl
    ensures RetrieveDefaultUrl(map["url" := u]) == u
  {
    RetrieveDefaultUrlIgnoresCase(u);
  }

  /** Opening a client for `url` and then its connection manager; the first
      step that fails decides the error. */
  function Connect(url: string, openClient: string -> RedisResult<Client>,
                   connectionManager: Client -> RedisResult<Conn>): (r: Result<Conn, LinkError>)
    ensures r == Err(ClientCreationFailed) <==> openClient(url).Err?
    ensures r == Err(ConnectionManagerFailed) <==>
              openClient(url).Ok? && connectionManager(openClient(url).value).Err?
    ensures r.Ok? ==> openClient(url).Ok? && connectionManager(openClient(url).value) == Ok(r.value)
  {
    match openClient(url)
    case Err(_) => Err(ClientCreationFailed)
    case Ok(client) =>
      match connectionManager(client)
      case Err(_) => Err(ConnectionManagerFailed)
      case Ok(conn) => Ok(conn)
  }

  // ---------------------------------------------------------------------
  // Command execution

  /** What executing `cmd` on behalf of `actor` yields against the link table
      `actors`: the backend's reply when the actor is known, linked and the
      command succeeds, and `fallback` (the result type's default) otherwise. */
  function ExecOutcome<T>(actors: map<string, Conn>, actor: Option<string>, cmd: Cmd,
                          query: (Conn, Cmd) -> RedisResult<T>, fallback: T): T
  {
    match actor
    case None => fallback
    case Some(id) =>
      if id !in actors then fallback
      else
        match query(actors[id], cmd)
        case Ok(v) => v
        case Err(_) => fallback
  }

  /** Once an actor's link is deleted, every command it issues yields the
      default value, as if it had never been linked. */
  lemma ExecAfterDeleteLink<T>(actors: map<string, Conn>, id: string, cmd: Cmd,
                               query: (Conn, Cmd) -> RedisResult<T>, fallback: T)
    ensures ExecOutcome(actors - {id}, Some(id), cmd, query, fallback) == fallback
  {
  }

  /** Once an actor is linked to `conn`, its commands are answered on that
      connection: a reply is passed through and an error becomes the default. */
  lemma ExecAfterLinkUp<T>(actors: map<string, Conn>, id: string, conn: Conn, cmd: Cmd,
                           query: (Conn, Cmd) -> RedisResult<T>, fallback: T)
    ensures query(conn, cmd).Ok? ==>
              ExecOutcome(actors[id := conn], Some(id), cmd, query, fallback) == query(conn, cmd).value
    ensures query(conn, cmd).Err? ==>
              ExecOutcome(actors[id := conn], Some(id), cmd, query, fallback) == fallback
  {
  }

  /** After shutdown no actor's command reaches Redis. */
  lemma ExecAfterShutdown<T>(actor: Option<string>, cmd: Cmd,
                             query: (Conn, Cmd) -> RedisResult<T>, fallback: T)
    ensures ExecOutcome(map[], actor, cmd, query, fallback) == fallback
  {
  }

  /** Linking or unlinking one actor does not change what another actor's
      commands yield. */
  lemma ExecIgnoresOtherLinks<T>(actors: map<string, Conn>, id: string, conn: Conn,
                                 other: string, cmd: Cmd,
                                 query: (Conn, Cmd) -> RedisResult<T>, fallback: T)
    requires other != id
    ensures ExecOutcome(actors[id := conn], Some(other), cmd, query, fallback)
            == ExecOutcome(actors, Some(other), cmd, query, fallback)
    ensures ExecOutcome(actors - {id}, Some(other), cmd, query, fallback)
            == ExecOutcome(actors, Some(other), cmd, query, fallback)
  {
  }

  /** The command `set` issues: plain SET when `expires` is 0, SETEX with
      `expires` seconds otherwise. */
  function SetCommand(key: string, value: string, expires: u32): (c: Cmd)
    ensures (c.Set? || c.SetEx?) && c.key == key && c.value == value
    ensures c.Set? <==> expires == 0
    ensures c.SetEx? <==> expires != 0
    ensures c.SetEx? ==> c.seconds == expires
  {
    if expires == 0 then Cmd.Set(key, value) else Cmd.SetEx(key, value, expires)
  }

  // ---------------------------------------------------------------------
  // The provider

  class KvRedisProvider {
    /** One Redis connection per linked actor, keyed by the actor's id. */
    var actors: map<string, Conn>
    /** URL for links whose configuration has no "URL" entry. */
    const defaultConnectUrl: string

    constructor (defaultConnectUrl: string)
      ensures this.defaultConnectUrl == defaultConnectUrl
      ensures actors == map[]
    {
      this.defaultConnectUrl := defaultConnectUrl;
      actors := map[];
    }

    /** Link-up: connect to the link's URL and record the connection under
        the source actor, replacing any earlier one; on failure the table is
        left as it was and the error is reported. */
    method ReceiveLinkConfigAsTarget(link: LinkConfig, openClient: string -> RedisResult<Client>,
                                     connectionManager: Client -> RedisResult<Conn>)
      returns (r: Outcome<LinkError>)
      modifies this
      ensures match Connect(LinkUrl(link.config, defaultConnectUrl), openClient, connectionManager)
              case Ok(conn) => r == Pass && actors == old(actors)[link.sourceId := conn]
              case Err(e) => r == Fail(e) && actors == old(actors)
    {
      var redisUrl := LinkUrl(link.config, defaultConnectUrl);
      match openClient(redisUrl) {
        case Ok(client) =>
          match connectionManager(client) {
            case Ok(connManager) =>
              actors := actors[link.sourceId := connManager];
            case Err(_) =>
              return Fail(ConnectionManagerFailed);
          }
        case Err(_) =>
          return Fail(ClientCreationFailed);
      }
      r := Pass;
    }

    /** Link-down: drop the actor's connection if there is one; always
        succeeds and leaves every other entry alone. */
    method DeleteLink(sourceId: string) returns (r: Outcome<LinkError>)
      modifies this
      ensures r == Pass
      ensures actors == old(actors) - {sourceId}
      ensures sourceId !in old(actors) ==> actors == old(actors)
    {
      if sourceId in actors {
        actors := actors - {sourceId};
      }
      r := Pass;
    }

    /** Shutdown: drain the table, releasing every connection; always
        succeeds. The ghost `released` records the ids drained, one per
        iteration. */
    method Shutdown() returns (r: Outcome<LinkError>, ghost released: set<string>)
      modifies this
      ensures r == Pass
      ensures actors == map[]
      ensures released == old(actors).Keys
    {
      released := {};
      while actors != map[]
        invariant released !! actors.Keys
        invariant released + actors.Keys == old(actors).Keys
        decreases |actors.Keys|
      {
        var id :| id in actors;
        actors := actors - {id};
        released := released + {id};
      }
      r := Pass;
    }

    /** Run one command for the calling actor with the never-fail policy: a
        missing actor id, a missing link and a Redis error all give
        `fallback`; only a successful reply is passed through. The table is
        only read. */
    method Exec<T>(ctx: Context, cmd: Cmd, query: (Conn, Cmd) -> RedisResult<T>, fallback: T)
      returns (v: T)
      ensures ctx.actor.None? ==> v == fallback
      ensures ctx.actor.Some? && ctx.actor.value !in actors ==> v == fallback
      ensures ctx.actor.Some? && ctx.actor.value in actors ==>
                match query(actors[ctx.actor.value], cmd)
                case Ok(reply) => v == reply
                case Err(_) => v == fallback
      ensures v == ExecOutcome(actors, ctx.actor, cmd, query, fallback)
    {
      if ctx.actor.None? {
        return fallback;
      }
      var sourceId := ctx.actor.value;
      if sourceId !in actors {
        return fallback;
      }
      var con := actors[sourceId];
      match query(con, cmd)
      case Ok(reply) => v := reply;
      case Err(_) => v := fallback;
    }

    /** `increment`: INCR by `delta`; 0 under the fallback policy. */
    method Increment(ctx: Context, key: string, delta: i32, query: (Conn, Cmd) -> RedisResult<i32>)
      returns (r: i32)
      ensures r == ExecOutcome(actors, ctx.actor, Cmd.Incr(key, delta), query, 0)
    {
      r := Exec(ctx, Cmd.Incr(key, delta), query, 0);
    }

    /** `contains`: EXISTS; false under the fallback policy. */
    method Contains(ctx: Context, key: string, query: (Conn, Cmd) -> RedisResult<bool>)
      returns (r: bool)
      ensures r == ExecOutcome(actors, ctx.actor, Cmd.Exists(key), query, false)
    {
      r := Exec(ctx, Cmd.Exists(key), query, false);
    }

    /** `del`: DEL, reporting whether Redis counted at least one deleted key. */
    method Del(ctx: Context, key: string, query: (Conn, Cmd) -> RedisResult<i32>)
      returns (deleted: bool)
      ensures deleted <==> ExecOutcome(actors, ctx.actor, Cmd.Del(key), query, 0) > 0
      ensures ctx.actor.None? || ctx.actor.value !in actors ==> !deleted
    {
      var v := Exec(ctx, Cmd.Del(key), query, 0);
      deleted := v > 0;
    }

    /** `get`: GET; the key is reported to exist exactly when the value is
        not empty, so an unlinked actor sees ("", false). */
    method Get(ctx: Context, key: string, query: (Conn, Cmd) -> RedisResult<string>)
      returns (resp: GetResponse)
      ensures resp.value == ExecOutcome(actors, ctx.actor, Cmd.Get(key), query, "")
      ensures resp.keyExists <==> resp.value != ""
      ensures ctx.actor.None? || ctx.actor.value !in actors ==> resp == GetResponse("", false)
    {
      var value := Exec(ctx, Cmd.Get(key), query, "");
      resp := GetResponse(value, value != "");
    }

    /** `list_add`: RPUSH, giving the new length; 0 under the fallback policy. */
    method ListAdd(ctx: Context, listName: string, value: string,
                   query: (Conn, Cmd) -> RedisResult<u32>)
      returns (r: u32)
      ensures r == ExecOutcome(actors, ctx.actor, Cmd.RPush(listName, value), query, 0)
    {
      r := Exec(ctx, Cmd.RPush(listName, value), query, 0);
    }

    /** `list_clear`: the same as `del` on the list's key. */
    method ListClear(ctx: Context, listName: string, query: (Conn, Cmd) -> RedisResult<i32>)
      returns (deleted: bool)
      ensures deleted <==> ExecOutcome(actors, ctx.actor, Cmd.Del(listName), query, 0) > 0
    {
      deleted := Del(ctx, listName, query);
    }

    /** `list_del`: LREM of one occurrence, reporting whether one was removed. */
    method ListDel(ctx: Context, listName: string, value: string,
                   query: (Conn, Cmd) -> RedisResult<i32>)
      returns (removed: bool)
      ensures removed <==> ExecOutcome(actors, ctx.actor, Cmd.LRem(listName, 1, value), query, 0) > 0
      ensures ctx.actor.None? || ctx.actor.value !in actors ==> !removed
    {
      var v := Exec(ctx, Cmd.LRem(listName, 1, value), query, 0);
      removed := v > 0;
    }

    /** `list_range`: LRANGE with the request's bounds; empty under the
        fallback policy. */
    method ListRange(ctx: Context, listName: string, start: int, stop: int,
                     query: (Conn, Cmd) -> RedisResult<seq<string>>)
      returns (r: seq<string>)
      ensures r == ExecOutcome(actors, ctx.actor, Cmd.LRange(listName, start, stop), query, [])
    {
      r := Exec(ctx, Cmd.LRange(listName, start, stop), query, []);
    }

    /** `set`: SET or SETEX, as `SetCommand` chooses; the reply is discarded.
        The ghost `sent` is the command issued on the caller's connection. */
    method Set(ctx: Context, key: string, value: string, expires: u32,
               query: (Conn, Cmd) -> RedisResult<()>)
      returns (ghost sent: Cmd)
      ensures sent == SetCommand(key, value, expires)
      ensures sent.key == key && sent.value == value
      ensures sent.Set? <==> expires == 0
      ensures sent.SetEx? ==> sent.seconds == expires
    {
      var cmd := SetCommand(key, value, expires);
      sent := cmd;
      var _ := Exec(ctx, cmd, query, ());
    }

    /** `set_add`: SADD, giving the number of members added. */
    method SetAdd(ctx: Context, setName: string, value: string,
                  query: (Conn, Cmd) -> RedisResult<u32>)
      returns (r: u32)
      ensures r == ExecOutcome(actors, ctx.actor, Cmd.SAdd(setName, value), query, 0)
    {
      r := Exec(ctx, Cmd.SAdd(setName, value), query, 0);
    }

    /** `set_del`: SREM, giving the number of members removed. */
    method SetDel(ctx: Context, setName: string, value: string,
                  query: (Conn, Cmd) -> RedisResult<u32>)
      returns (r: u32)
      ensures r == ExecOutcome(actors, ctx.actor, Cmd.SRem(setName, value), query, 0)
    {
      r := Exec(ctx, Cmd.SRem(setName, value), query, 0);
    }

    /** `set_clear`: the same as `del` on the set's key. */
    method SetClear(ctx: Context, setName: string, query: (Conn, Cmd) -> RedisResult<i32>)
      returns (deleted: bool)
      ensures deleted <==> ExecOutcome(actors, ctx.actor, Cmd.Del(setName), query, 0) > 0
    {
      deleted := Del(ctx, setName, query);
    }

    /** `set_intersection`: SINTER over the named sets. */
    method SetIntersection(ctx: Context, keys: seq<string>,
                           query: (Conn, Cmd) -> RedisResult<seq<string>>)
      returns (r: seq<string>)
      ensures r == ExecOutcome(actors, ctx.actor, Cmd.SInter(keys), query, [])
    {
      r := Exec(ctx, Cmd.SInter(keys), query, []);
    }

    /** `set_query`: SMEMBERS of one set. */
    method SetQuery(ctx: Context, setName: string,
                    query: (Conn, Cmd) -> RedisResult<seq<string>>)
      returns (r: seq<string>)
      ensures r == ExecOutcome(actors, ctx.actor, Cmd.SMembers(setName), query, [])
    {
      r := Exec(ctx, Cmd.SMembers(setName), query, []);
    }

    /** `set_union`: SUNION over the named sets. */
    method SetUnion(ctx: Context, keys: seq<string>,
                    query: (Conn, Cmd) -> RedisResult<seq<string>>)
      returns (r: seq<string>)
      ensures r == ExecOutcome(actors, ctx.actor, Cmd.SUnion(keys), query, [])
    {
      r := Exec(ctx, Cmd.SUnion(keys), query, []);
    }
  }
}
