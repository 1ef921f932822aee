# IP-to-coordinates services, modelled in Dafny

The system has two HTTP services:

- **Service A** resolves an IPv4 address to geographic coordinates by calling
  an external geolocation provider (ip-api.com) and forwards the result to
  Service B.
- **Service B** stores one record per address in Redis and lists them back.

This project models the logic in those services that makes decisions. The
lower-level parts it relies on are either stand-ins or parameters.

**Service A**
- `ip_validation.dfy`: the request schema's address check (`validate_ip`).
  It is a regular-expression match followed by a range check on each octet.
- `geo_lookup.dfy`: the retry loop against the provider
  (`call_external_ip_api`), the single forward to Service B
  (`forward_to_service_b`), and the orchestration (`resolve_ip`).
- `resolve_route.dfy`: the `/resolve` handler. It maps a result to an HTTP
  reply with a case-sensitive substring test on the message.

**Service B**
- `coordinates_store.dfy`: `CoordinatesService`. Saving is an upsert of the
  record without its address. The listing enumerates every key, reads each
  one, and keeps the JSON objects with `ip` set to the key.
- `legacy_storage.dfy`: the older module-level store, `storage.py`. Its
  module globals are modelled as the fields of one object.
- `redis_client.dfy`: the connection manager, `RedisClient`.
- `redis_backend.dfy`: a stand-in for the Redis server and for the
  `redis.Redis` connection. It has a keyspace in `KEYS` order, an "up" flag,
  and the commands SET, GET, KEYS, PING and close.

**Shared**
- `shared_models.dfy`: the `CoordinateItem` record both services exchange,
  with its field constraints and its dump and validation.
- `json.dfy` and `wrappers.dfy`: JSON values, `Option` and `Result`.

The provider and Service B are not called. Each is given as the outcome of
every call it receives:

- `outcomes[i]` is how provider attempt `i` ends.
- `ForwardReply` is how the POST to Service B ends.

Environment variables appear as explicit values: the Service B host, and the
server a Redis client is built for. Exceptions become the `Failure` arm of a
`Result`.

Some behaviours of the code are easy to misread, and the model keeps them as written:

- **Attempts.** `MAX_RETRIES = 2` reads like two retries after a first try.
  But `range(MAX_RETRIES)` makes two attempts in total
  (`GeoLookup.CallExternalIpApi`, `ResolveRoute.NoThirdAttempt`).
- **Refusal vs timeout.** The caller cannot tell a provider-side refusal
  from exhausted timeouts. Both make `call_external_ip_api` return `None`,
  and the handler answers 502 (`GeoLookup.RefusalLooksLikeTimeout`).
- **Missing lat/lon.** A "success" reply without lat or lon passes the
  provider check. Building `CoordinatesPayload` then raises, and the
  handler answers 500 (`ResolveRoute.MissingCoordinatesIsInternalError`).
- **Non-object values.** In the listing, a stored value that parses as JSON
  but is not an object is not caught. `coord_data["ip"] = key` raises, and
  the whole listing fails (`CoordinatesStore.EntryOf`,
  `CoordinatesStore.RaisingKeyFails`).
- **`close_redis`.** In `storage.py` it closes the connection but does not
  reset the global. `get_redis_client` goes on returning the closed
  connection (`LegacyStorage.CloseKeepsClient`).

## Model

| member | source | states |
|---|---|---|
| IpValidation.ValidateIp | service-a/app/schemas.py:10-25 | accepts exactly the dotted quads: four groups of one to three digits, each octet at most 255; an accepted input is returned unchanged; `InvalidFormat` exactly when the pattern fails; otherwise `OctetOutOfRange` names the first octet above 255, in left-to-right order |
| IpValidation.MatchesIpPatternIff | service-a/app/schemas.py:15-17 | `^(\d{1,3}\.){3}\d{1,3}$` matches a string exactly when `split('.')` gives four pieces of one to three digits each |
| IpValidation.MatchesGroupsSplit | service-a/app/schemas.py:15-20 | a string with `dots` dots that the pattern matches splits into `dots + 1` digit groups |
| IpValidation.SplitMatchesGroups | service-a/app/schemas.py:15-20 | a string that splits into `dots + 1` digit groups matches the pattern with `dots` dots |
| IpValidation.JoinMatchesGroups | service-a/app/schemas.py:15-17 | digit groups joined by dots match the pattern |
| IpValidation.SplitJoin | service-a/app/schemas.py:20 | `'.'.join(s.split('.')) == s`, and no piece holds a dot |
| IpValidation.JoinSplit | service-a/app/schemas.py:20 | splitting dot-free pieces joined by dots gives the pieces back |
| IpValidation.FirstBadIndex | service-a/app/schemas.py:21-23 | the loop stops at the first octet above 255; every octet before it is within range |
| IpValidation.LeadingZeroKeepsValue | service-a/app/schemas.py:22 | `int("0" + g) == int(g)` for a string of digits |
| IpValidation.QuadAccepted | service-a/app/schemas.py:10-25 | any four digit groups of value at most 255, joined by dots, are accepted and returned unchanged |
| IpValidation.LeadingZerosAccepted | service-a/app/schemas.py:10-25 | "010.000.0.1" is accepted unchanged: leading zeros pass the check |
| SharedModels.Dump | shared/models.py:12-17 | the dump has exactly the five fields ip, lat, lon, city and country |
| SharedModels.FromFields | shared/models.py:12-17 | a validated item satisfies every field constraint, and its ip, lat and lon are the given ones |
| SharedModels.DumpRoundTrip | shared/models.py:12-17 | validating the dump of a valid item gives the same item back |
| SharedModels.OutOfRangeRefused | shared/models.py:14-15 | a latitude outside [-90, 90] or a longitude outside [-180, 180] is refused |
| SharedModels.BoundsInclusive | shared/models.py:14-17 | both bounds are inclusive; a missing city or country defaults to None |
| GeoLookup.CallExternalIpApi | service-a/app/services.py:15-66 | at most MAX_RETRIES attempts; every attempt before the last one made was retryable; stopping early means a 200 answer; the result is the data of a 200 "success" answer and None otherwise; the result agrees with `Lookup` |
| GeoLookup.LookupFromFound | service-a/app/services.py:27-49 | the lookup returns data exactly when some attempt within the budget is a "success" and all attempts before it were retried |
| GeoLookup.LookupFromIgnoresLaterAttempts | service-a/app/services.py:27 | outcomes after the first MAX_RETRIES never affect the result |
| GeoLookup.TwoTransportFailuresGiveUp | service-a/app/services.py:53-66 | two failed attempts end the lookup with None |
| GeoLookup.RefusalLooksLikeTimeout | service-a/app/services.py:47-49 | a provider refusal returns None at once, the same result as exhausted timeouts |
| GeoLookup.ForwardToServiceB | service-a/app/services.py:69-112 | True exactly when the host is non-empty and Service B answers 200; every other status and every exception give False |
| GeoLookup.ResolveIp | service-a/app/services.py:115-168 | None gives the provider-failure result and no forward; a missing lat or lon raises, with no forward; with both present the payload is handed to `forward_to_service_b` exactly once, the result carries the provider's lat and lon, and it is a success exactly when the forward returns True |
| ResolveRoute.FailureStatus | service-a/app/routes.py:36-43 | 502 when the message contains "Failed to resolve"; otherwise 503 when it contains "failed to store"; otherwise 500 |
| ResolveRoute.ResolveIpAddress | service-a/app/routes.py:31-59 | a successful result becomes the response body field for field; a failed one becomes an HTTP error with `FailureStatus` and the message; an exception becomes a 500; the status is always 502, 503 or 500 |
| ResolveRoute.ResolveFailedMatches | service-a/app/routes.py:38-39 | the provider-failure message passes the 502 test |
| ResolveRoute.StoreFailedMissesResolve | service-a/app/routes.py:38-41 | the forward-failure message fails the 502 test, because the test is case-sensitive |
| ResolveRoute.StoreFailedMatchesStore | service-a/app/routes.py:40-41 | the forward-failure message passes the 503 test |
| ResolveRoute.ProviderFailureIsBadGateway | service-a/app/routes.py:36-48 | end to end: a lookup that returns None answers 502 with the provider-failure message |
| ResolveRoute.ForwardFailureIsServiceUnavailable | service-a/app/routes.py:36-48 | end to end: a lookup with coordinates whose forward fails answers 503 with the forward-failure message |
| ResolveRoute.StoredIsOk | service-a/app/routes.py:50 | end to end: a stored lookup answers 200 with the provider's lat and lon and the request's ip |
| ResolveRoute.MissingCoordinatesIsInternalError | service-a/app/routes.py:54-59 | end to end: a "success" without lat or lon forwards nothing and answers 500 |
| ResolveRoute.NoThirdAttempt | service-a/app/services.py:27-66 | two timeouts followed by an answering provider give 502 and nothing forwarded: no third attempt is made |
| CoordinatesStore.DumpWithoutIp | service-b/app/services/coordinates.py:31 | the stored record has the fields lat, lon, city and country, equal to the item's dump |
| CoordinatesStore.EntryOf | service-b/app/services/coordinates.py:55-63 | a key contributes an item exactly when its value is a JSON object, and the item is that object with `ip` set to the key; a JSON non-object raises TypeError; anything else is skipped |
| CoordinatesStore.Collect | service-b/app/services/coordinates.py:53-66 | the listing succeeds exactly when no key raises; the error is TypeError; it holds no more items than keys, and exactly as many as there are keys whose value is a JSON object; every item comes from some key; every object-valued key contributes its item |
| CoordinatesStore.CollectSnoc | service-b/app/services/coordinates.py:54-63 | listing one more key extends the listing by that key's entry |
| CoordinatesStore.CollectConcat | service-b/app/services/coordinates.py:54 | the listing follows key order: listing `a + b` is listing `a`, then listing `b`, and the first error wins; so each key adds at most its own entry, in key order |
| CoordinatesStore.RaisingKeyFails | service-b/app/services/coordinates.py:58-59 | one key holding a JSON non-object makes the whole listing fail with TypeError |
| CoordinatesStore.SaveKeepsRecords | service-b/app/services/coordinates.py:31-32 | a save keeps every stored value a JSON object |
| CoordinatesStore.AllRecordsListed | service-b/app/services/coordinates.py:42-66 | when every value was written by a save, the listing never raises |
| CoordinatesStore.ListingAfterSave | service-b/app/services/coordinates.py:54-63 | after a save under `ip`, the listing holds that record with `ip` set to the key, and every listed item with that ip is that record |
| CoordinatesStore.ListedRoundTrip | service-b/app/services/coordinates.py:31-59 | a listed record validates back to the saved item, with the key as its address |
| CoordinatesStore.ReadEntries | service-b/app/services/coordinates.py:53-63 | the read loop over the keys returns `Collect` of the keys against the server's data; with the server down, any GET raises RedisError |
| CoordinatesStore.CoordinatesService.constructor | service-b/app/services/coordinates.py:14-16 | the service uses the given client manager |
| CoordinatesStore.CoordinatesService.SaveCoordinate | service-b/app/services/coordinates.py:18-40 | with no client, RuntimeError escapes; otherwise True and an upsert of the record when the server answers, or False with nothing changed |
| CoordinatesStore.CoordinatesService.GetAllCoordinates | service-b/app/services/coordinates.py:42-69 | RuntimeError with no client, RedisError with the server down; otherwise the listing `Collect` gives over all keys in KEYS order |
| CoordinatesStore.LastWriteWins | service-b/app/services/coordinates.py:18-69 | after two saves under one address, the listing holds the second record, and no other item for that address; a valid second record validates back from its listed form |
| RedisManager.RedisClient.constructor | service-b/app/storage/redis.py:12-17 | a new manager holds no client |
| RedisManager.RedisClient.Connect | service-b/app/storage/redis.py:19-35 | the slot holds a fresh connection before the ping; the ping's RedisError is re-raised with the slot still set |
| RedisManager.RedisClient.Close | service-b/app/storage/redis.py:37-42 | the old connection is closed and the slot is emptied; with an empty slot nothing happens |
| RedisManager.RedisClient.Instance | service-b/app/storage/redis.py:44-48 | RuntimeError with the "Call connect() first" message exactly when the slot is empty; otherwise the connection in the slot |
| RedisManager.RedisClient.IsConnected | service-b/app/storage/redis.py:50-58 | True exactly when a client exists and the ping succeeds |
| RedisManager.Lifecycle | service-b/app/storage/redis.py:37-48 | `instance` raises before `connect` and again after `close` |
| LegacyStorage.StorageModule.constructor | service-b/app/storage.py:10 | the global starts as None |
| LegacyStorage.StorageModule.ConnectRedis | service-b/app/storage.py:13-35 | the global holds a fresh connection before the ping; a failed ping re-raises with the global still set |
| LegacyStorage.StorageModule.CloseRedis | service-b/app/storage.py:38-43 | the connection is closed, and the global still refers to it |
| LegacyStorage.StorageModule.GetRedisClient | service-b/app/storage.py:46-50 | RuntimeError with the "Call connect_redis() first" message exactly when the global is None; otherwise the global, even if closed |
| LegacyStorage.StorageModule.IsRedisConnected | service-b/app/storage.py:53-61 | True exactly when the global is set and the ping succeeds |
| LegacyStorage.StorageModule.SaveCoordinate | service-b/app/storage.py:64-86 | with no client, RuntimeError escapes; otherwise True and an upsert of the JSON of `data`, or False with nothing changed |
| LegacyStorage.StorageModule.GetAllCoordinates | service-b/app/storage.py:89-116 | RuntimeError with no client, RedisError with the server down; otherwise the same listing as the service class |
| LegacyStorage.CloseKeepsClient | service-b/app/storage.py:38-50 | saving before any connect raises; after connect and close, `get_redis_client` still returns the same, now closed, connection |

## Left out

- Network I/O: the HTTP calls to the provider and to Service B, and the Redis
  protocol. Their effect is given as outcomes, or provided by the stand-in
  server.
- Concurrency: `async`, concurrent requests, and concurrent writers to Redis.
  Every operation runs alone.
- Timeouts as durations: `IP_API_TIMEOUT` and the 10-second forward timeout.
  Only a timeout's outcome is modelled.
- Floating point: lat and lon are reals. Rounding in JSON encoding and
  decoding is not modelled.
- JSON text: a Redis value is the JSON document it encodes, or a marker for
  empty or unparsable text. Character-level encoding and `json.loads` are not
  modelled.
- Pydantic's lax coercions, e.g. integers or numeric strings accepted for
  float fields, and extra-field handling beyond ignoring extra keys.
- Log messages: every `logger` call.
- The `json.JSONDecodeError` handlers in both `save_coordinate` functions.
  Serialising never raises that error.
- Commands on a closed `redis.Redis` object: the stand-in connection still
  answers.
- The health endpoints, application wiring, server start-up, and the
  context-only route files.
- IpValidation.MatchesIpPattern: reads `\d` as an ASCII digit, and reads `$`
  as the end of the string. Python also accepts other Unicode decimal digits,
  and a single trailing newline.
- SharedModels.IsIPv4Field: `ipaddress.IPv4Address` is modelled by the
  dotted-quad check. Its refusal of leading zeros and the canonical `str()`
  form are not modelled.
- SharedModels.FromFields: the contract states the ip, lat and lon fields,
  not city and country. `DumpRoundTrip` and `BoundsInclusive` cover those.
- GeoLookup.ResolveIp: takes the address as a string. `routes.py` passes
  `request.ip`, which is an `ipaddress.IPv4Address` from the shared
  `IPRequest`, into the `str` field `ip` of `CoordinatesPayload`. The
  pydantic version is not part of this model. Pydantic 2 does not convert an
  `IPv4Address` into a `str` field, so under it every lookup with lat and
  lon would raise, and the handler would answer 500. The model does not capture that
  conversion. `ResolveRoute.ForwardFailureIsServiceUnavailable` and
  `ResolveRoute.StoredIsOk` describe the outcomes for a string address.
- GeoLookup.Lookup: requires at least MAX_RETRIES outcomes. This is how the
  model's environment is given; the code sets no such bound.
