/**
 * Service B's connection manager (`RedisClient`): a single `_client` slot
 * that `connect` fills, `close` empties, and `instance` and `is_connected`
 * read. Host, port and database come from the environment; here they are
 * the server the manager is built for.
 */
module RedisManager {
  import opened Wrappers
  import opened RedisBackend

  const NotInitialized := "Redis client not initialized. Call connect() first."

  class RedisClient {
    /** The server that REDIS_HOST, REDIS_PORT and REDIS_DB name. */
    const server: Server
    /** `_client`. */
    var client: Option<Connection>

    ghost predicate Valid()
      reads this
    {
      client.Some? ==> client.value.server == server
    }

    /** The connection object in the slot, if any. */
    function Handle(): (r: set<object>)
      reads this
    {
      if client.Some? then {client.value} else {}
    }

    constructor (server: Server)
      ensures Valid() && this.server == server && client == None
    {
      this.server := server;
      client := None;
    }

    /** `connect`: the slot is filled with a new connection before the ping, so a failed ping re-raises yet leaves it set. */
    method Connect() returns (r: Result<(), Error>)
      modifies this
      ensures Valid()
      ensures client.Some? && fresh(client.value) && !client.value.closed
      ensures r == if server.up then Success(()) else Failure(RedisError)
    {
      var c := new Connection(server);
      client := Some(c);
      r := c.Ping();
    }

    /** `close`: closes and forgets the connection; with an empty slot nothing happens. */
    method Close()
      requires Valid()
      modifies this, Handle()
      ensures Valid() && client == None
      ensures old(client).Some? ==> old(client).value.closed
    {
      if client.Some? {
        client.value.Close();
        client := None;
      }
    }

    /** `instance`: raises `RuntimeError` exactly when the slot is empty, otherwise returns what it holds. */
    method Instance() returns (r: Result<Connection, Error>)
      ensures r.Failure? <==> client.None?
      ensures r.Failure? ==> r.error == RuntimeError(NotInitialized)
      ensures r.Success? ==> client == Some(r.value)
    {
      if client.None? {
        return Failure(RuntimeError(NotInitialized));
      }
      r := Success(client.value);
    }

    /** `is_connected`: False with an empty slot or a failed ping, True when the ping answers. */
    method IsConnected() returns (connected: bool)
      ensures connected <==> client.Some? && client.value.server.up
    {
      if client.None? {
        return false;
      }
      var pong := client.value.Ping();
      connected := pong.Success?;
    }
  }

  /** The lifecycle end to end: a fresh manager has no client, and after close `instance` raises again. */
  method Lifecycle(server: Server) returns (before: Result<Connection, Error>, after: Result<Connection, Error>)
    ensures before == Failure(RuntimeError(NotInitialized))
    ensures after == Failure(RuntimeError(NotInitialized))
  {
    var manager := new RedisClient(server);
    before := manager.Instance();
    var _ := manager.Connect();
    var during := manager.Instance();
    assert during.Success?;
    manager.Close();
    after := manager.Instance();
  }
}
