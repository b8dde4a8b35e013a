# wasmCloud artifact references and the Redis key-value provider, in Dafny

This project models two small pieces of wasmCloud (Rust) and proves properties of them.

**The host's artifact references** (`crates/host/src/lib.rs`, module `Host` in `host.dfy`).
An actor or provider reference string is classified as a local file, a Bindle or an OCI image.
The registry authority of an identifier is the text before its first `/`.
The registry settings for that authority are looked up, with anonymous and most-restrictive settings as the fallback.
`fetch_actor` and `fetch_provider` then choose the fetcher to call.
File references are refused unless file loading is enabled.
`Url::parse` and `Url::to_file_path` are function parameters.
The fetchers are also a function parameter: it receives a `FetchCall` saying which fetcher runs and with which credentials and flags.

**The Redis key-value provider** (`crates/providers/kv-redis/src/bin/kvredis.rs`, module `KvRedis` in `kvredis.dfy`).
`KvRedisProvider` is a class whose `actors` field maps a source actor id to its Redis connection.
Link-up connects and inserts or replaces that actor's entry.
Link-down removes one entry.
Shutdown drains the whole table.
`Exec` runs one command with the never-fail policy: a missing actor id, a missing link or a Redis error all give the result type's default.
The key-value operations translate replies: `get` reports existence as "value is not empty", `del` and `list_del` report "count > 0", and `set` chooses SET or SETEX.
Redis is an oracle.
Connection set-up is two functions: open a client, then create its connection manager.
Each command is answered by a function `(Conn, Cmd) -> RedisResult<T>`.

`text.dfy` (module `Text`) states the Rust string functions the code relies on: `strip_prefix`, `split_once` and ASCII case folding.
`results.dfy` (module `Results`) holds `Option`, `Result` and `Outcome`.

Behaviour of the code worth noting:
- Link-up reads the link's URL under the exact key `URL` (case-sensitive). Only the provider-wide default read from the host configuration matches `url`, `Url` and the other spellings.
- A file-read failure is reported as "failed to read actor/provider" without naming the reference. Only Bindle and OCI failures name it (`FetchFailure`).
- Link-up performs no authorisation check beyond connecting, although the doc comment at `crates/providers/kv-redis/src/bin/kvredis.rs:78-80` says it should.

## Model

| member | source | states |
|---|---|---|
| Text.StripPrefix | crates/host/src/lib.rs:71-78 | gives a remainder exactly when `p` is a literal prefix of `s`, and then `s == p + remainder` |
| Text.StripPrefixOfConcat | crates/host/src/lib.rs:71-78 | stripping `p` from `p + t` gives back exactly `t` |
| Text.SplitOnce | crates/host/src/lib.rs:96-99 | nothing exactly when the delimiter does not occur; otherwise `s == before + [d] + after` with no delimiter in `before` |
| Text.AsciiLower | crates/providers/kv-redis/src/bin/kvredis.rs:314-317 | folds `A`..`Z` onto `a`..`z` and leaves every other character unchanged |
| Text.AsciiLowerPreimage | crates/providers/kv-redis/src/bin/kvredis.rs:314-317 | the only characters that fold to a lower-case ASCII letter are that letter and its upper-case form |
| KvRedis.UrlKeySpellings | crates/providers/kv-redis/src/bin/kvredis.rs:314-317 | a key equals "URL" ignoring ASCII case exactly when it is one of its eight spellings |
| KvRedis.RetrieveDefaultUrl | crates/providers/kv-redis/src/bin/kvredis.rs:312-326 | if some key matches "URL" ignoring ASCII case, the result is the value of some such key; if none does, it is `redis://127.0.0.1:6379/` |
| KvRedis.RetrieveDefaultUrlIgnoresCase | crates/providers/kv-redis/src/bin/kvredis.rs:336-345 | configurations keyed `url`, `URL` or `Url` all give their URL; an empty configuration gives the default |
| KvRedis.LinkUrl | crates/providers/kv-redis/src/bin/kvredis.rs:86-90 | the link URL is the value under the exact key `URL` when present, otherwise the provider's default URL |
| KvRedis.LinkUrlIsCaseSensitive | crates/providers/kv-redis/src/bin/kvredis.rs:87-90 | a link configured with `url` gets the provider default, while the same map as host configuration supplies the URL |
| KvRedis.Connect | crates/providers/kv-redis/src/bin/kvredis.rs:92-116 | client-open failure gives `ClientCreationFailed`; a manager failure after a good client gives `ConnectionManagerFailed`; success carries the manager's connection |
| KvRedis.ExecAfterDeleteLink | crates/providers/kv-redis/src/bin/kvredis.rs:124-131 | once an actor's entry is removed, every command it issues yields the default, as if never linked |
| KvRedis.ExecAfterLinkUp | crates/providers/kv-redis/src/bin/kvredis.rs:92-97 | once an actor is linked to a connection, its commands are answered on that connection: a reply is passed through and an error becomes the default |
| KvRedis.ExecAfterShutdown | crates/providers/kv-redis/src/bin/kvredis.rs:134-141 | against the drained table every command yields the default |
| KvRedis.ExecIgnoresOtherLinks | crates/providers/kv-redis/src/bin/kvredis.rs:92-131 | inserting or removing one actor's entry does not change what any other actor's commands yield |
| KvRedis.SetCommand | crates/providers/kv-redis/src/bin/kvredis.rs:219-224 | `set` issues SET exactly when `expires == 0`, otherwise SETEX with `expires` seconds, always with the given key and value |
| KvRedis.KvRedisProvider.constructor | crates/providers/kv-redis/src/bin/kvredis.rs:66-73 | a new provider keeps the given default URL and has an empty link table |
| KvRedis.KvRedisProvider.ReceiveLinkConfigAsTarget | crates/providers/kv-redis/src/bin/kvredis.rs:82-120 | on a successful connection to the link URL, the table maps the source id to the new connection, replacing any earlier entry, and is otherwise unchanged; on either failure the error is returned and the table is exactly as before |
| KvRedis.KvRedisProvider.DeleteLink | crates/providers/kv-redis/src/bin/kvredis.rs:124-131 | always `Ok`; afterwards the id is absent and every other entry is unchanged; an absent id leaves the table identical |
| KvRedis.KvRedisProvider.Shutdown | crates/providers/kv-redis/src/bin/kvredis.rs:134-141 | always `Ok`; the table ends empty, and the ghost set of ids drained one by one equals the old table's key set |
| KvRedis.KvRedisProvider.Exec | crates/providers/kv-redis/src/bin/kvredis.rs:285-307 | no actor id, no link, or a Redis error each give the default; otherwise the reply is returned; the table is never changed |
| KvRedis.KvRedisProvider.Increment | crates/providers/kv-redis/src/bin/kvredis.rs:149-152 | the result is the INCR reply under the fallback policy, 0 when it applies |
| KvRedis.KvRedisProvider.Contains | crates/providers/kv-redis/src/bin/kvredis.rs:156-159 | the result is the EXISTS reply under the fallback policy, false when it applies |
| KvRedis.KvRedisProvider.Del | crates/providers/kv-redis/src/bin/kvredis.rs:163-167 | true exactly when DEL's count is positive; an unlinked or anonymous caller gets false |
| KvRedis.KvRedisProvider.Get | crates/providers/kv-redis/src/bin/kvredis.rs:173-180 | the value is the GET reply under the fallback policy, and `exists` holds exactly when the value is not empty; an unlinked caller gets ("", false) |
| KvRedis.KvRedisProvider.ListAdd | crates/providers/kv-redis/src/bin/kvredis.rs:184-187 | the result is the RPUSH reply under the fallback policy, 0 when it applies |
| KvRedis.KvRedisProvider.ListClear | crates/providers/kv-redis/src/bin/kvredis.rs:193-195 | behaves as `del` on the list name |
| KvRedis.KvRedisProvider.ListDel | crates/providers/kv-redis/src/bin/kvredis.rs:199-203 | true exactly when LREM of one occurrence reports a positive count; an unlinked caller gets false |
| KvRedis.KvRedisProvider.ListRange | crates/providers/kv-redis/src/bin/kvredis.rs:210-213 | the result is the LRANGE reply for the request's bounds under the fallback policy, empty when it applies |
| KvRedis.KvRedisProvider.Set | crates/providers/kv-redis/src/bin/kvredis.rs:219-225 | the command sent is SET exactly when `expires == 0`, otherwise SETEX with `expires` seconds, always with the given key and value |
| KvRedis.KvRedisProvider.SetAdd | crates/providers/kv-redis/src/bin/kvredis.rs:229-232 | the result is the SADD reply under the fallback policy, 0 when it applies |
| KvRedis.KvRedisProvider.SetDel | crates/providers/kv-redis/src/bin/kvredis.rs:236-239 | the result is the SREM reply under the fallback policy, 0 when it applies |
| KvRedis.KvRedisProvider.SetClear | crates/providers/kv-redis/src/bin/kvredis.rs:245-247 | behaves as `del` on the set name |
| KvRedis.KvRedisProvider.SetIntersection | crates/providers/kv-redis/src/bin/kvredis.rs:250-253 | the result is the SINTER reply under the fallback policy, empty when it applies |
| KvRedis.KvRedisProvider.SetQuery | crates/providers/kv-redis/src/bin/kvredis.rs:256-259 | the result is the SMEMBERS reply under the fallback policy, empty when it applies |
| KvRedis.KvRedisProvider.SetUnion | crates/providers/kv-redis/src/bin/kvredis.rs:262-265 | the result is the SUNION reply under the fallback policy, empty when it applies |
| Host.TryFrom | crates/host/src/lib.rs:63-93 | a `File` result is the path of a `file` URL; `Bindle(t)` means the scheme is bindle and `s == "bindle://" + t`; `Oci(t)` means either the scheme is oci and `s == "oci://" + t`, or `s` has no scheme, `"oci://" + s` parses, and `t == s` |
| Host.TryFromFile | crates/host/src/lib.rs:67-70 | a `file` URL is `File(p)` when it converts to path `p`, and a conversion error otherwise |
| Host.TryFromBindle | crates/host/src/lib.rs:71-74 | with the bindle scheme, classification succeeds exactly when `s` literally starts with `bindle://`, and is an invalid-Bindle error otherwise |
| Host.TryFromOci | crates/host/src/lib.rs:75-78 | with the oci scheme, classification succeeds exactly when `s` literally starts with `oci://`, and is an invalid-OCI error otherwise |
| Host.TryFromUnsupportedScheme | crates/host/src/lib.rs:79-80 | any scheme other than file, bindle and oci is an unsupported-scheme error naming it |
| Host.TryFromParseFailure | crates/host/src/lib.rs:83-91 | a string with no scheme is `Oci(s)` with the original string when `"oci://" + s` parses, and an error otherwise; every other parse failure is an error naming the string |
| Host.PrefixedRoundTrip | crates/host/src/lib.rs:71-78 | classifying `"bindle://" + t` or `"oci://" + t` gives back `t`, whenever the parser reads that scheme |
| Host.OciAuthority | crates/host/src/lib.rs:96-99 | nothing exactly when `s` has no `/`; otherwise a slash-free `l` with `l + "/"` a prefix of `s` |
| Host.AuthorityUnique | crates/host/src/lib.rs:96-99 | a string has at most one slash-free `l` with `l + "/"` as prefix |
| Host.OciAuthorityIsTheAuthority | crates/host/src/lib.rs:96-99 | `oci_authority` returns `l` exactly when `l` is slash-free and `l + "/"` is a prefix of the string |
| Host.OciAuthorityOfHostPath | crates/host/src/lib.rs:96-99 | the authority of `host + "/" + path` is `host`, e.g. `myregistry.io` for `myregistry.io/ns/actor:0.1.0` |
| Host.NoSlashNoAuthority | crates/host/src/lib.rs:96-99 | a string without `/` has no authority at all |
| Host.SettingsFor | crates/host/src/lib.rs:116-117 | the settings stored under the identifier's authority when that authority is a key, and nothing when no key is its authority |
| Host.Dispatch | crates/host/src/lib.rs:108-137 | fails exactly for a file reference with file loading disabled, with the file-loading-disabled error; otherwise calls the fetcher of the reference's own kind with the reference unchanged |
| Host.OciDispatchSettings | crates/host/src/lib.rs:124-136 | OCI fetches get the authority's `(auth, allow_latest, allow_insecure)` when its settings exist, otherwise `(Anonymous, false, false)` |
| Host.BindleDispatchSettings | crates/host/src/lib.rs:116-123 | Bindle fetches get only the authority's `auth` when its settings exist, otherwise `Anonymous` |
| Host.DispatchNeverWidensPolicy | crates/host/src/lib.rs:124-136 | an OCI fetch with non-anonymous credentials, `latest` or insecure access allowed always uses exactly the settings stored under its authority |
| Host.Plan | crates/host/src/lib.rs:108-137 | a reference that cannot be classified fails with the classification error; a classified reference gets exactly what `Dispatch` decides for it (the file-load refusal, or the fetcher of its kind with its authority's settings) |
| Host.FetchFailure | crates/host/src/lib.rs:114-136 | a fetcher failure is kept as the cause, tagged with the artifact kind, and names the reference for Bindle and OCI fetches |
| Host.FetchActor | crates/host/src/lib.rs:103-138 | classification and gate errors are returned before any fetch; otherwise the chosen fetcher is called once, its bytes are returned unchanged and its failure is returned, never swallowed |
| Host.FetchProvider | crates/host/src/lib.rs:142-196 | as `fetch_actor`, with the link name passed to whichever fetcher is called |
| Host.FetchActorBareOci | crates/host/src/lib.rs:83-91 | a bare `host/path` reference with settings under `host` is planned as an OCI fetch with that host's `(auth, allow_latest, allow_insecure)`; the fetched bytes are returned and a failure is reported as an OCI failure naming the reference |
| Host.FileGateBlocksActorRead | crates/host/src/lib.rs:109-114 | with file loading disabled, a file reference gives the file-loading-disabled error, whatever the file reader would do |
| Host.FileGateBlocksProviderRead | crates/host/src/lib.rs:149-156 | with file loading disabled, a file provider reference gives the error without reading the archive |

## Left out

- The tokio `RwLock` layers around the table and around each connection, and the async execution model. The model is sequential: each operation runs alone on the table.
- `KvRedisProvider` derives `Clone`, and clones share one table through an `Arc`. The model has one provider object and does not model that aliasing.
- Redis client and connection-manager creation, and the meaning of every Redis command (INCR, LRANGE bounds and clamping, SADD, SINTER, …). They are external, so oracles stand in for them.
- `main`, `load_host_data`, `start_provider` and the generated bindings: process start-up and generated code.
- All `tracing` calls and `eprintln!`: diagnostics only.
- `socket_pair`: operating-system I/O.
- `bindle::*`, `oci::*`, `par::read`, `fs::read` and the contents of the provider claims. These fetchers and readers are not part of this model. Their results are opaque type parameters of `FetchActor` and `FetchProvider`.
- `Url::parse` and `Url::to_file_path` internals; `Url` keeps only its scheme and serialised form.
- RetrieveDefaultUrl: when several keys match "URL" ignoring case, the source takes the first in hash-map iteration order. The model only promises the value of some matching key.
- `RegistrySettings` has fields beyond `auth`, `allow_latest` and `allow_insecure` that the dispatch ignores (`..`). They are not modelled.
- Error messages are distinct error constructors, not `anyhow` context text.
- The request types of the key-value contract are not part of this model. `list_range`'s bounds are plain integers after the widening `as isize` cast, and `set`'s `expires` is a `u32`.
- KvRedis.KvRedisProvider.Set: discards Redis's reply and returns nothing, so its contract speaks only of the ghost command it sends, not of the reply.
- KvRedis.KvRedisProvider.Shutdown: the ghost `released` set is bookkeeping for the drain loop; `DeleteLink` and an overwriting link-up also drop a connection but record none, because the source returns nothing that names dropped connections. Releasing a connection itself (closing the socket) is not modelled.
