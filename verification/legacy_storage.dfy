/**
 * The older module-level store of Service B: the global `_redis_client`
 * together with `connect_redis`, `close_redis`, `get_redis_client`,
 * `is_redis_connected`, `save_coordinate` and `get_all_coordinates`. The
 * module's globals are the fields of one object.
 */
module LegacyStorage {
  import opened Wrappers
  import opened Json
  import opened RedisBackend
  import CoordinatesStore

  const NotInitialized := "Redis client not initialized. Call connect_redis() first."

  class StorageModule {
    /** The server that REDIS_HOST, REDIS_PORT and REDIS_DB name. */
    const server: Server
    /** `_redis_client`. */
    var redisClient: Option<Connection>

    ghost predicate Valid()
      reads this
    {
      redisClient.Some? ==> redisClient.value.server == server
    }

    function Handle(): (r: set<object>)
      reads this
    {
      if redisClient.Some? then {redisClient.value} else {}
    }

    /** Importing the module: `_redis_client = None`. */
    constructor (server: Server)
      ensures Valid() && this.server == server && redisClient == None
    {
      this.server := server;
      redisClient := None;
    }

    /** `connect_redis`: the global is set before the ping, so a failed ping re-raises and leaves it set. */
    method ConnectRedis() returns (r: Result<(), Error>)
      modifies this
      ensures Valid()
      ensures redisClient.Some? && fresh(redisClient.value) && !redisClient.value.closed
      ensures r == if server.up then Success(()) else Failure(RedisError)
    {
      var c := new Connection(server);
      redisClient := Some(c);
      r := c.Ping();
    }

    /** `close_redis`: closes the connection but leaves the global pointing at it. */
    method CloseRedis()
      modifies Handle()
      ensures redisClient == old(redisClient)
      ensures redisClient.Some? ==> redisClient.value.closed
    {
      if redisClient.Some? {
        redisClient.value.Close();
      }
    }

    /** `get_redis_client`: raises RuntimeError exactly when the global is None, otherwise returns it, closed or not. */
    method GetRedisClient() returns (r: Result<Connection, Error>)
      ensures r.Failure? <==> redisClient.None?
      ensures r.Failure? ==> r.error == RuntimeError(NotInitialized)
      ensures r.Success? ==> redisClient == Some(r.value)
    {
      if redisClient.None? {
        return Failure(RuntimeError(NotInitialized));
      }
      r := Success(redisClient.value);
    }

    /** `is_redis_connected`: False when the global is None or the ping fails. */
    method IsRedisConnected() returns (connected: bool)
      ensures connected <==> redisClient.Some? && redisClient.value.server.up
    {
      if redisClient.None? {
        return false;
      }
      var pong := redisClient.value.Ping();
      connected := pong.Success?;
    }

    /**
     * `save_coordinate`: sets key `ip` to the JSON of `data`, replacing any
     * earlier value; True after the write, False on a Redis error. The
     * RuntimeError of `get_redis_client` is not caught and escapes.
     */
    method SaveCoordinate(ip: string, data: Fields) returns (r: Result<bool, Error>)
      requires Valid() && server.Valid()
      modifies server
      ensures server.Valid() && server.up == old(server.up)
      ensures redisClient.None? ==> r == Failure(RuntimeError(NotInitialized))
      ensures redisClient.Some? ==> r == Success(old(server.up))
      ensures server.data == if r == Success(true) then old(server.data)[ip := Document(JObject(data))]
                             else old(server.data)
      ensures server.order == if r == Success(true) && ip !in old(server.data) then old(server.order) + [ip]
                              else old(server.order)
    {
      var client := GetRedisClient();
      if client.Failure? {
        return Failure(client.error);
      }
      var written := client.value.Set(ip, Document(JObject(data)));
      r := Success(written.Success?);
    }

    /** `get_all_coordinates`: the same listing as the service class gives, over the global client. */
    method GetAllCoordinates() returns (r: Result<seq<Fields>, Error>)
      requires Valid()
      ensures redisClient.None? ==> r == Failure(RuntimeError(NotInitialized))
      ensures redisClient.Some? && !server.up ==> r == Failure(RedisError)
      ensures redisClient.Some? && server.up ==> r == CoordinatesStore.Collect(server.order, server.data)
    {
      var client := GetRedisClient();
      if client.Failure? {
        return Failure(client.error);
      }
      var keys := client.value.Keys();
      if keys.Failure? {
        return Failure(keys.error);
      }
      r := CoordinatesStore.ReadEntries(client.value, keys.value);
    }
  }

  /**
   * The global survives `close_redis`: after connect and close,
   * `get_redis_client` still returns the same, now closed, connection; and
   * before any connect, saving raises instead of returning False.
   */
  method CloseKeepsClient(server: Server, ip: string, data: Fields)
    returns (unconnectedSave: Result<bool, Error>, afterClose: Result<Connection, Error>)
    requires server.Valid()
    modifies server
    ensures unconnectedSave == Failure(RuntimeError(NotInitialized))
    ensures afterClose.Success? && afterClose.value.closed && afterClose.value.server == server
  {
    var storage := new StorageModule(server);
    unconnectedSave := storage.SaveCoordinate(ip, data);
    var _ := storage.ConnectRedis();
    storage.CloseRedis();
    afterClose := storage.GetRedisClient();
  }
}
