/** Bookkeeping of the MongoDB data-access object: the tag-query rewrite, the table of
    one DAO per `host + port` key (two addresses can share a key), and the queue of
    calls that wait for the connection.

    The database calls themselves are not modelled: a queued call is an opaque `Call`,
    and running it is recorded as an `Invocation` with the collection it was given. */
module MongoDao {
  import opened Wrappers
  import opened Seqs

  // ---------------------------------------------------------------------------
  // Tag queries

  /** The stored name of a query key: operators (keys starting with `$`) are kept, every
      other key becomes a field of the document's `tags`. */
  function PrefixKey(key: string): (r: string)
    ensures |key| > 0 && key[0] == '$' ==> r == key
    ensures !(|key| > 0 && key[0] == '$') ==> r == "tags." + key
  {
    if |key| > 0 && key[0] == '$' then key else "tags." + key
  }

  /** The inverse rewrite. */
  function UnprefixKey(stored: string): string {
    if |stored| > 0 && stored[0] == '$' then stored
    else if |stored| >= 5 && stored[..5] == "tags." then stored[5..]
    else stored
  }

  lemma UnprefixPrefix(key: string)
    ensures UnprefixKey(PrefixKey(key)) == key
  {
    if !(|key| > 0 && key[0] == '$') {
      assert ("tags." + key)[..5] == "tags.";
      assert ("tags." + key)[5..] == key;
    }
  }

  /** Distinct keys are stored under distinct names. */
  lemma PrefixKeyInjective(a: string, b: string)
    ensures PrefixKey(a) == PrefixKey(b) ==> a == b
  {
    UnprefixPrefix(a);
    UnprefixPrefix(b);
  }

  /** The query with every key renamed by `PrefixKey` and its value kept. */
  method TagsPrefix<V>(userQuery: map<string, V>) returns (query: map<string, V>)
    ensures forall key | key in userQuery :: PrefixKey(key) in query && query[PrefixKey(key)] == userQuery[key]
    ensures forall stored | stored in query :: UnprefixKey(stored) in userQuery && PrefixKey(UnprefixKey(stored)) == stored
    ensures |query| == |userQuery|
  {
    query := map[];
    var remaining := userQuery.Keys;
    ghost var done: set<string> := {};
    while remaining != {}
      invariant remaining <= userQuery.Keys && done == userQuery.Keys - remaining
      invariant forall key | key in done :: PrefixKey(key) in query && query[PrefixKey(key)] == userQuery[key]
      invariant forall stored | stored in query :: UnprefixKey(stored) in done && PrefixKey(UnprefixKey(stored)) == stored
      invariant |query| == |done|
      decreases remaining
    {
      var key :| key in remaining;
      var stored := PrefixKey(key);
      UnprefixPrefix(key);
      if stored in query {
        PrefixKeyInjective(key, UnprefixKey(stored));
        assert false;
      }
      query := query[stored := userQuery[key]];
      forall k | k in done
        ensures PrefixKey(k) != stored
      {
        PrefixKeyInjective(k, key);
      }
      remaining := remaining - {key};
      done := done + {key};
    }
  }

  // ---------------------------------------------------------------------------
  // The pending-call queue

  /** A database call waiting for the connection. */
  datatype Call = Call(id: nat)

  /** The collection handle a connected DAO passes to its calls. */
  datatype Collection = Collection(name: string)

  datatype Invocation = Invocation(call: Call, collection: Option<Collection>)

  /** The calls in last-in-first-out order, each given `collection`. */
  function LifoOrder(calls: seq<Call>, collection: Option<Collection>): (r: seq<Invocation>)
    ensures |r| == |calls|
    decreases |calls|
  {
    if calls == [] then []
    else [Invocation(calls[|calls| - 1], collection)] + LifoOrder(calls[..|calls| - 1], collection)
  }

  /** The `i`-th invocation runs the `i`-th call counted from the end. */
  lemma {:induction false} LifoOrderIsReversal(calls: seq<Call>, collection: Option<Collection>)
    ensures forall i | 0 <= i < |calls| :: LifoOrder(calls, collection)[i] == Invocation(calls[|calls| - 1 - i], collection)
    decreases |calls|
  {
    if calls != [] {
      var n := |calls|;
      var front := calls[..n - 1];
      var rest := LifoOrder(front, collection);
      LifoOrderIsReversal(front, collection);
      assert LifoOrder(calls, collection) == [Invocation(calls[n - 1], collection)] + rest;
      forall i | 1 <= i < n
        ensures LifoOrder(calls, collection)[i] == Invocation(calls[n - 1 - i], collection)
      {
        assert LifoOrder(calls, collection)[i] == rest[i - 1];
        assert rest[i - 1] == Invocation(front[n - 2 - (i - 1)], collection);
      }
    }
  }

  /** The connection callback's error argument, rethrown. */
  datatype ConnectError = ConnectError(cause: string)

  /** The DAO of one database address. */
  class Dao {
    const host: string
    const port: nat
    var collection: Option<Collection>
    var queued: seq<Call>
    /** The calls run so far, in order. */
    var invoked: seq<Invocation>

    /** Once connected, nothing waits. */
    ghost predicate Valid()
      reads this
    {
      collection.Some? ==> queued == []
    }

    /** A new DAO is not connected yet; the connection request is outside the model. */
    constructor(host: string, port: nat)
      ensures Valid()
      ensures this.host == host && this.port == port
      ensures collection == None && queued == [] && invoked == []
    {
      this.host := host;
      this.port := port;
      collection := None;
      queued := [];
      invoked := [];
    }

    /** Runs every queued call, the most recently queued first, until none is left. */
    method CallEnqueued()
      modifies this
      ensures queued == []
      ensures invoked == old(invoked) + LifoOrder(old(queued), collection)
      ensures collection == old(collection)
    {
      while |queued| > 0
        invariant collection == old(collection)
        invariant old(invoked) + LifoOrder(old(queued), collection) == invoked + LifoOrder(queued, collection)
        decreases |queued|
      {
        var call := queued[|queued| - 1];
        queued := queued[..|queued| - 1];
        invoked := invoked + [Invocation(call, collection)];
      }
    }

    /** Queues a call; when already connected the queue is run at once. */
    method CallWhenReady(call: Call)
      requires Valid()
      modifies this
      ensures Valid()
      ensures collection == old(collection)
      ensures collection.None? ==> queued == old(queued) + [call] && invoked == old(invoked)
      ensures collection.Some? ==> queued == [] && invoked == old(invoked) + [Invocation(call, collection)]
    {
      queued := queued + [call];
      if collection.Some? {
        assert queued == [call];
        CallEnqueued();
        assert LifoOrder([call], collection) == [Invocation(call, collection)];
      }
    }

    /** The connection callback: an error is rethrown; otherwise the collection is stored
        and the calls queued while waiting run, last queued first. `Some` stands for a
        truthy error argument (the driver passes an error object or nothing), so every
        `Some` raises. */
    method OnConnected(error: Option<string>, connection: Collection) returns (r: Option<ConnectError>)
      requires Valid()
      modifies this
      ensures Valid()
      ensures error.Some? ==>
        && r == Some(ConnectError(error.value)) && collection == old(collection)
        && queued == old(queued) && invoked == old(invoked)
      ensures error.None? ==>
        && r == None && collection == Some(connection) && queued == []
        && invoked == old(invoked) + LifoOrder(old(queued), Some(connection))
    {
      if error.Some? {
        return Some(ConnectError(error.value));
      }
      collection := Some(connection);
      CallEnqueued();
      r := None;
    }
  }

  // ---------------------------------------------------------------------------
  // One DAO per key

  /** The table key: host name and port concatenated. */
  function AddressKey(host: string, port: nat): string {
    host + DecimalString(port)
  }

  /** The table of DAOs, keyed by the concatenated address. */
  class DaoTable {
    var table: map<string, Dao>

    ghost predicate Valid()
      reads this, table.Values
    {
      forall key | key in table :: AddressKey(table[key].host, table[key].port) == key
    }

    constructor()
      ensures Valid() && table == map[]
    {
      table := map[];
    }

    /** The DAO stored under the address's key, created on first request. */
    method Get(host: string, port: nat) returns (dao: Dao)
      requires Valid()
      modifies this
      ensures Valid()
      ensures AddressKey(host, port) in old(table) ==> dao == old(table)[AddressKey(host, port)] && table == old(table)
      ensures AddressKey(host, port) !in old(table) ==>
        && fresh(dao) && dao.host == host && dao.port == port
        && dao.collection == None && dao.queued == [] && dao.invoked == []
        && table == old(table)[AddressKey(host, port) := dao]
    {
      var key := AddressKey(host, port);
      if key !in table {
        var created := new Dao(host, port);
        table := table[key := created];
      }
      dao := table[key];
    }
  }

  /** Two different addresses can share a key: host "db1" on port 2 and host "db" on
      port 12 both give "db12". */
  lemma AddressKeyCollides()
    ensures AddressKey("db1", 2) == AddressKey("db", 12)
    ensures ("db1", 2) != ("db", 12)
  {
    assert DecimalString(2) == "2";
    assert DecimalString(12) == DecimalString(1) + "2";
  }

  /** So the second request gets the DAO of the first, connected to the other host. */
  method SharedDaoForTwoAddresses() returns (first: Dao, second: Dao)
    ensures first == second && second.host == "db1" && second.port == 2
  {
    var daos := new DaoTable();
    first := daos.Get("db1", 2);
    AddressKeyCollides();
    second := daos.Get("db", 12);
  }

  /** The table keyed by each address itself, one DAO per host and port. */
  class AddressTable {
    var table: map<(string, nat), Dao>

    ghost predicate Valid()
      reads this, table.Values
    {
      forall address | address in table :: (table[address].host, table[address].port) == address
    }

    constructor()
      ensures Valid() && table == map[]
    {
      table := map[];
    }

    method Get(host: string, port: nat) returns (dao: Dao)
      requires Valid()
      modifies this
      ensures Valid()
      ensures dao.host == host && dao.port == port
      ensures (host, port) in old(table) ==> dao == old(table)[(host, port)] && table == old(table)
      ensures (host, port) !in old(table) ==>
        && fresh(dao) && dao.collection == None && dao.queued == [] && dao.invoked == []
        && table == old(table)[(host, port) := dao]
    {
      if (host, port) !in table {
        var created := new Dao(host, port);
        table := table[(host, port) := created];
      }
      dao := table[(host, port)];
    }
  }

  /** With the address as key, the two addresses get their own DAOs. */
  method SeparateDaosForTwoAddresses() returns (first: Dao, second: Dao)
    ensures first != second && first.host == "db1" && second.host == "db"
  {
    var daos := new AddressTable();
    first := daos.Get("db1", 2);
    second := daos.Get("db", 12);
  }
}
