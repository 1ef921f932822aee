/**
 * Service B's coordinate store (`CoordinatesService`): an upsert of a record
 * under its IP, and a listing that enumerates every key, reads each one and
 * keeps the values that parse as JSON objects, with `ip` set to the key.
 */
module CoordinatesStore {
  import opened Wrappers
  import opened Json
  import opened RedisBackend
  import opened SharedModels
  import RedisManager

  /** `data.model_dump_json(exclude={"ip"})`: the record without its address. */
  function DumpWithoutIp(item: CoordinateItem): (fields: Fields)
    ensures fields.Keys == {"lat", "lon", "city", "country"}
    ensures forall k :: k in fields ==> fields[k] == Dump(item)[k]
  {
    Dump(item) - {"ip"}
  }

  /** The value `save_coordinate` writes for an item. */
  function StoredRecord(item: CoordinateItem): (v: StoredValue) {
    Document(JObject(DumpWithoutIp(item)))
  }

  /** What the listing shows for a record stored under `key`: the stored fields with `ip` set to the key. */
  function Listed(key: string, item: CoordinateItem): (fields: Fields) {
    DumpWithoutIp(item)["ip" := JString(key)]
  }

  /** What one enumerated key adds to the listing. */
  datatype Entry = Skip | Item(fields: Fields) | Raises(error: Error)

  /**
   * One pass of the loop body: a missing or empty value and text that does not
   * parse are skipped; a JSON object gets `ip` set to the key; any other JSON
   * value makes `coord_data["ip"] = key` raise.
   */
  function EntryOf(key: string, value: Option<StoredValue>): (e: Entry)
    ensures e.Item? <==> value.Some? && value.value.Document? && value.value.doc.JObject?
    ensures e.Item? ==> e.fields == value.value.doc.fields["ip" := JString(key)]
    ensures e.Raises? <==> value.Some? && value.value.Document? && !value.value.doc.JObject?
    ensures e.Skip? <==> value.None? || value.value.EmptyText? || value.value.Unparsable?
    ensures e.Raises? ==> e.error == TypeError
  {
    match value
    case None => Skip
    case Some(EmptyText) => Skip
    case Some(Unparsable(_)) => Skip
    case Some(Document(JObject(fields))) => Item(fields["ip" := JString(key)])
    case Some(Document(_)) => Raises(TypeError)
  }

  function EntryAt(keys: seq<string>, data: map<string, StoredValue>, i: int): (e: Entry)
    requires 0 <= i < |keys|
  {
    EntryOf(keys[i], Lookup(data, keys[i]))
  }

  /** The positions in `keys` whose value is a JSON object. */
  function ItemPositions(keys: seq<string>, data: map<string, StoredValue>): (ps: set<int>)
    ensures forall i :: i in ps <==> 0 <= i < |keys| && EntryAt(keys, data, i).Item?
  {
    set i | 0 <= i < |keys| && EntryAt(keys, data, i).Item?
  }

  /** One more key adds its position exactly when its value is a JSON object. */
  lemma ItemPositionsSnoc(keys: seq<string>, data: map<string, StoredValue>)
    requires |keys| > 0
    ensures var n := |keys| - 1;
            |ItemPositions(keys, data)| ==
            |ItemPositions(keys[..n], data)| + (if EntryAt(keys, data, n).Item? then 1 else 0)
  {
    var n := |keys| - 1;
    var front := ItemPositions(keys[..n], data);
    assert forall i :: 0 <= i < n ==> EntryAt(keys[..n], data, i) == EntryAt(keys, data, i);
    if EntryAt(keys, data, n).Item? {
      assert ItemPositions(keys, data) == front + {n};
    } else {
      assert ItemPositions(keys, data) == front;
    }
  }

  /**
   * The listing the loop over `keys` builds against `data`, in key order, or
   * the error that stops it. It holds exactly one item per key whose value is
   * a JSON object, every item comes from some key's value, and every such key
   * contributes its item.
   */
  function Collect(keys: seq<string>, data: map<string, StoredValue>): (r: Result<seq<Fields>, Error>)
    ensures r.Success? <==> forall i :: 0 <= i < |keys| ==> !EntryAt(keys, data, i).Raises?
    ensures r.Failure? ==> r.error == TypeError
    ensures r.Success? ==> |r.value| <= |keys|
    ensures r.Success? ==> |r.value| == |ItemPositions(keys, data)|
    ensures r.Success? ==> forall j :: 0 <= j < |r.value| ==>
              exists i :: 0 <= i < |keys| && EntryAt(keys, data, i) == Item(r.value[j])
    ensures r.Success? ==> forall i :: 0 <= i < |keys| && EntryAt(keys, data, i).Item? ==>
              EntryAt(keys, data, i).fields in r.value
    decreases |keys|
  {
    if keys == [] then Success([])
    else
      var n := |keys| - 1;
      var front := keys[..n];
      assert forall i :: 0 <= i < n ==> EntryAt(front, data, i) == EntryAt(keys, data, i);
      match Collect(front, data)
      case Failure(e) => Failure(e)
      case Success(acc) =>
        ItemPositionsSnoc(keys, data);
        match EntryAt(keys, data, n)
        case Skip => Success(acc)
        case Item(f) => Success(acc + [f])
        case Raises(e) => Failure(e)
  }

  /** Two listings one after the other; the first error wins. */
  function Concat(x: Result<seq<Fields>, Error>, y: Result<seq<Fields>, Error>): (r: Result<seq<Fields>, Error>) {
    if x.Failure? then x
    else if y.Failure? then y
    else Success(x.value + y.value)
  }

  /** Listing with one more key: the old listing and that key's entry. */
  lemma CollectSnoc(keys: seq<string>, key: string, data: map<string, StoredValue>)
    ensures Collect(keys + [key], data) ==
            match Collect(keys, data)
            case Failure(e) => Failure(e)
            case Success(acc) =>
              match EntryOf(key, Lookup(data, key))
              case Skip => Success(acc)
              case Item(f) => Success(acc + [f])
              case Raises(e) => Failure(e)
  {
    assert (keys + [key])[..|keys|] == keys;
  }

  /** The listing follows the key order: listing `a + b` is listing `a`, then listing `b`. */
  lemma {:induction false} CollectConcat(a: seq<string>, b: seq<string>, data: map<string, StoredValue>)
    ensures Collect(a + b, data) == Concat(Collect(a, data), Collect(b, data))
    decreases |b|
  {
    if b == [] {
      assert a + b == a;
      assert Collect(b, data) == Success([]);
      if Collect(a, data).Success? {
        assert Collect(a, data).value + [] == Collect(a, data).value;
      }
    } else {
      var n := |b| - 1;
      var front := b[..n];
      assert b == front + [b[n]];
      assert a + b == (a + front) + [b[n]];
      CollectConcat(a, front, data);
      CollectSnoc(a + front, b[n], data);
      CollectSnoc(front, b[n], data);
      var entry := EntryOf(b[n], Lookup(data, b[n]));
      if Collect(a, data).Success? && Collect(front, data).Success? {
        var x, y := Collect(a, data).value, Collect(front, data).value;
        assert Collect(a + front, data) == Success(x + y);
        if entry.Item? {
          assert x + y + [entry.fields] == x + (y + [entry.fields]);
        }
      }
    }
  }

  /** A key whose value is JSON but not an object makes the whole listing fail with TypeError. */
  lemma RaisingKeyFails(keys: seq<string>, data: map<string, StoredValue>, i: int)
    requires 0 <= i < |keys| && EntryOf(keys[i], Lookup(data, keys[i])).Raises?
    ensures Collect(keys, data) == Failure(TypeError)
  {
    assert EntryAt(keys, data, i).Raises?;
  }

  /** Every stored value is a JSON object, as `save_coordinate` writes them. */
  predicate AllRecords(data: map<string, StoredValue>) {
    forall k :: k in data ==> data[k].Document? && data[k].doc.JObject?
  }

  /** Saving a record keeps every stored value a JSON object. */
  lemma SaveKeepsRecords(data: map<string, StoredValue>, ip: string, item: CoordinateItem)
    requires AllRecords(data)
    ensures AllRecords(data[ip := StoredRecord(item)])
  {
  }

  /** When every value was written by `save_coordinate`, the listing never raises. */
  lemma AllRecordsListed(keys: seq<string>, data: map<string, StoredValue>)
    requires AllRecords(data)
    ensures Collect(keys, data).Success?
  {
    forall i | 0 <= i < |keys| ensures !EntryAt(keys, data, i).Raises? {
    }
  }

  /**
   * After a record is saved under `ip`, the listing holds it, with `ip` set to
   * the key, and every listed item under `ip` is that record: the last write wins.
   */
  lemma ListingAfterSave(keys: seq<string>, data: map<string, StoredValue>, ip: string, item: CoordinateItem)
    requires ip in keys && ip in data && data[ip] == StoredRecord(item)
    requires Collect(keys, data).Success?
    ensures Listed(ip, item) in Collect(keys, data).value
    ensures forall f :: f in Collect(keys, data).value && "ip" in f && f["ip"] == JString(ip) ==> f == Listed(ip, item)
  {
    var listing := Collect(keys, data).value;
    var i :| 0 <= i < |keys| && keys[i] == ip;
    assert EntryAt(keys, data, i) == Item(Listed(ip, item));
    forall f | f in listing && "ip" in f && f["ip"] == JString(ip) ensures f == Listed(ip, item) {
      var j :| 0 <= j < |listing| && listing[j] == f;
      var k :| 0 <= k < |keys| && EntryAt(keys, data, k) == Item(f);
      assert keys[k] == ip;
    }
  }

  /** The listed dict of a record saved under a valid address validates back to that record, with that address. */
  lemma ListedRoundTrip(ip: string, item: CoordinateItem)
    requires IsIPv4Field(ip) && ValidLatitude(item.lat) && ValidLongitude(item.lon)
    ensures FromFields(Listed(ip, item)) == Success(item.(ip := ip))
  {
    assert Listed(ip, item) == Dump(item.(ip := ip));
    DumpRoundTrip(item.(ip := ip));
  }

  /** One pass of the read loop: the listing of the first `i + 1` keys from the listing of the first `i`. */
  lemma CollectStep(keys: seq<string>, data: map<string, StoredValue>, i: int, acc: seq<Fields>)
    requires 0 <= i < |keys| && Collect(keys[..i], data) == Success(acc)
    ensures Collect(keys[..i + 1], data) ==
            match EntryAt(keys, data, i)
            case Skip => Success(acc)
            case Item(f) => Success(acc + [f])
            case Raises(e) => Failure(e)
  {
    assert keys[..i + 1] == keys[..i] + [keys[i]];
    CollectSnoc(keys[..i], keys[i], data);
  }

  /** The `for key in keys` loop over a connection: each GET in turn, keeping what `EntryOf` keeps. */
  method ReadEntries(conn: Connection, keys: seq<string>) returns (r: Result<seq<Fields>, Error>)
    ensures conn.server.up ==> r == Collect(keys, conn.server.data)
    ensures !conn.server.up ==> r == if keys == [] then Success([]) else Failure(RedisError)
  {
    var coordinates: seq<Fields> := [];
    var i := 0;
    while i < |keys|
      invariant 0 <= i <= |keys|
      invariant conn.server.up ==> Collect(keys[..i], conn.server.data) == Success(coordinates)
      invariant !conn.server.up ==> i == 0 && coordinates == []
    {
      var key := keys[i];
      var value := conn.Get(key);
      if value.Failure? {
        return Failure(value.error);
      }
      CollectStep(keys, conn.server.data, i, coordinates);
      match EntryOf(key, value.value) {
        case Skip =>
        case Item(f) =>
          coordinates := coordinates + [f];
        case Raises(e) =>
          RaisingKeyFails(keys, conn.server.data, i);
          return Failure(e);
      }
      i := i + 1;
    }
    assert keys[..i] == keys;
    r := Success(coordinates);
  }

  class CoordinatesService {
    const redisClient: RedisManager.RedisClient

    constructor (redisClient: RedisManager.RedisClient)
      ensures this.redisClient == redisClient
    {
      this.redisClient := redisClient;
    }

    /**
     * `save_coordinate`: upserts the record, without its address, under `ip`;
     * True after the write, False on a Redis error. With no client, the
     * RuntimeError of `instance()` is not caught and escapes.
     */
    method SaveCoordinate(ip: string, item: CoordinateItem) returns (r: Result<bool, Error>)
      requires redisClient.Valid() && redisClient.server.Valid()
      modifies redisClient.server
      ensures redisClient.server.Valid() && redisClient.server.up == old(redisClient.server.up)
      ensures redisClient.client.None? ==> r == Failure(RuntimeError(RedisManager.NotInitialized))
      ensures redisClient.client.Some? ==> r == Success(old(redisClient.server.up))
      ensures redisClient.server.data ==
              if r == Success(true) then old(redisClient.server.data)[ip := StoredRecord(item)]
              else old(redisClient.server.data)
      ensures redisClient.server.order ==
              if r == Success(true) && ip !in old(redisClient.server.data) then old(redisClient.server.order) + [ip]
              else old(redisClient.server.order)
    {
      var client := redisClient.Instance();
      if client.Failure? {
        return Failure(client.error);
      }
      var written := client.value.Set(ip, StoredRecord(item));
      r := Success(written.Success?);
    }

    /**
     * `get_all_coordinates`: the listing of every key in KEYS order. A missing
     * client raises RuntimeError and an unreachable server RedisError.
     */
    method GetAllCoordinates() returns (r: Result<seq<Fields>, Error>)
      requires redisClient.Valid()
      ensures redisClient.client.None? ==> r == Failure(RuntimeError(RedisManager.NotInitialized))
      ensures redisClient.client.Some? && !redisClient.server.up ==> r == Failure(RedisError)
      ensures redisClient.client.Some? && redisClient.server.up ==>
                r == Collect(redisClient.server.order, redisClient.server.data)
    {
      var client := redisClient.Instance();
      if client.Failure? {
        return Failure(client.error);
      }
      var keys := client.value.Keys();
      if keys.Failure? {
        return Failure(keys.error);
      }
      r := ReadEntries(client.value, keys.value);
    }
  }

  /**
   * Saving twice under one address and then listing shows the second record,
   * and nothing else under that address; a valid record validates back from
   * the listing.
   */
  method LastWriteWins(service: CoordinatesService, ip: string, first: CoordinateItem, second: CoordinateItem)
    returns (listing: Result<seq<Fields>, Error>)
    requires service.redisClient.Valid() && service.redisClient.server.Valid()
    requires service.redisClient.client.Some? && service.redisClient.server.up
    requires AllRecords(service.redisClient.server.data)
    modifies service.redisClient.server
    ensures listing.Success? && Listed(ip, second) in listing.value
    ensures forall f :: f in listing.value && "ip" in f && f["ip"] == JString(ip) ==> f == Listed(ip, second)
    ensures IsIPv4Field(ip) && ValidLatitude(second.lat) && ValidLongitude(second.lon) ==>
              FromFields(Listed(ip, second)) == Success(second.(ip := ip))
  {
    var server := service.redisClient.server;
    var _ := service.SaveCoordinate(ip, first);
    SaveKeepsRecords(old(server.data), ip, first);
    var before := server.data;
    var _ := service.SaveCoordinate(ip, second);
    SaveKeepsRecords(before, ip, second);
    assert server.data == before[ip := StoredRecord(second)];
    assert ip in server.order;
    listing := service.GetAllCoordinates();
    AllRecordsListed(server.order, server.data);
    ListingAfterSave(server.order, server.data, ip, second);
    if IsIPv4Field(ip) && ValidLatitude(second.lat) && ValidLongitude(second.lon) {
      ListedRoundTrip(ip, second);
    }
  }
}
