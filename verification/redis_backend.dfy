/**
 * The Redis server and the `redis.Redis` connection object, as far as the
 * store uses them: SET, GET, KEYS "*", PING and close. Both are outside the
 * services; this is the stand-in the store's code is verified against.
 */
module RedisBackend {
  import opened Wrappers
  import opened Json

  /** A Redis string value, as `if value:` and `json.loads(value)` see it. */
  datatype StoredValue =
    | EmptyText                 // "": falsy
    | Unparsable(raw: string)   // non-empty text that `json.loads` rejects
    | Document(doc: JsonValue)  // the text of a JSON document

  /** The exceptions that can leave the store's operations. */
  datatype Error =
    | RedisError                      // `redis.RedisError`: the server cannot be reached
    | RuntimeError(message: string)   // raised by the code itself when no client exists
    | TypeError                       // `coord_data["ip"] = key` on JSON that is not an object

  predicate NoDuplicates(s: seq<string>) {
    forall i, j :: 0 <= i < j < |s| ==> s[i] != s[j]
  }

  /** GET on a key: its value, or None when it is missing. */
  function Lookup(data: map<string, StoredValue>, key: string): (v: Option<StoredValue>) {
    if key in data then Some(data[key]) else None
  }

  class Server {
    var data: map<string, StoredValue>
    /** The order in which KEYS lists the keyspace. */
    var order: seq<string>
    /** Whether the server answers; when it does not, every command raises `RedisError`. */
    var up: bool

    ghost predicate Valid()
      reads this
    {
      NoDuplicates(order) && forall k :: k in order <==> k in data
    }

    constructor (up: bool)
      ensures Valid() && data == map[] && order == [] && this.up == up
    {
      data, order, this.up := map[], [], up;
    }
  }

  /** A `redis.Redis` object: a handle on one server. */
  class Connection {
    const server: Server
    var closed: bool

    constructor (server: Server)
      ensures this.server == server && !closed
    {
      this.server := server;
      closed := false;
    }

    method Ping() returns (r: Result<(), Error>)
      ensures r == if server.up then Success(()) else Failure(RedisError)
    {
      r := if server.up then Success(()) else Failure(RedisError);
    }

    method Close()
      modifies this
      ensures closed
    {
      closed := true;
    }

    /**
     * SET: an upsert. Redis promises no order for KEYS; this stand-in picks
     * one, a new key joining the end and an existing key keeping its place.
     */
    method Set(key: string, value: StoredValue) returns (r: Result<(), Error>)
      requires server.Valid()
      modifies server
      ensures server.Valid() && server.up == old(server.up)
      ensures r == if old(server.up) then Success(()) else Failure(RedisError)
      ensures server.data == if old(server.up) then old(server.data)[key := value] else old(server.data)
      ensures server.order == if old(server.up) && key !in old(server.data) then old(server.order) + [key]
                              else old(server.order)
    {
      if !server.up {
        return Failure(RedisError);
      }
      if key !in server.data {
        server.order := server.order + [key];
      }
      server.data := server.data[key := value];
      r := Success(());
    }

    method Get(key: string) returns (r: Result<Option<StoredValue>, Error>)
      ensures r == if server.up then Success(Lookup(server.data, key)) else Failure(RedisError)
    {
      r := if server.up then Success(Lookup(server.data, key)) else Failure(RedisError);
    }

    /** KEYS "*". */
    method Keys() returns (r: Result<seq<string>, Error>)
      ensures r == if server.up then Success(server.order) else Failure(RedisError)
    {
      r := if server.up then Success(server.order) else Failure(RedisError);
    }
  }
}
