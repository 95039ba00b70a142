/** The registry of wrapper connections (a `ConnectionManager` in
    internal/server/manager.go): a map from wrapper ID to its connection
    object, one object per ID. */
module Registry {
  import opened Text
  import opened Connection

  /** Distinct IDs name distinct connection objects. */
  ghost predicate Injective(m: map<string, WrapperConnection>) {
    forall k1, k2 :: k1 in m && k2 in m && k1 != k2 ==> m[k1] != m[k2]
  }

  ghost predicate Distinct<T>(xs: seq<T>) {
    forall i, j :: 0 <= i < j < |xs| ==> xs[i] != xs[j]
  }

  /** `conns` lists the entries of `m` at the distinct keys `ks`. */
  ghost predicate Listing(m: map<string, WrapperConnection>, ks: seq<string>, conns: seq<WrapperConnection>) {
    && |ks| == |conns|
    && Distinct(ks)
    && forall i :: 0 <= i < |ks| ==> ks[i] in m && conns[i] == m[ks[i]]
  }

  /** A listing over all keys holds every value, once per entry. */
  lemma ListingCovers(m: map<string, WrapperConnection>, ks: seq<string>, conns: seq<WrapperConnection>)
    requires Listing(m, ks, conns)
    requires forall k :: k in ks <==> k in m
    ensures forall c :: c in conns <==> c in m.Values
    ensures Injective(m) ==> Distinct(conns)
  {
    forall c | c in m.Values
      ensures c in conns
    {
      var k :| k in m && m[k] == c;
      var i :| 0 <= i < |ks| && ks[i] == k;
      assert conns[i] == c;
    }
  }

  /** DisconnectAll's loop: close each connection of `all` once. */
  method CloseAll(all: map<string, WrapperConnection>)
    requires Injective(all)
    requires forall k :: k in all ==> !all[k].done
    modifies all.Values
    ensures forall k :: k in all ==> all[k].State() == CloseStep(old(all[k].State()))
  {
    var pending := all.Keys;
    while |pending| > 0
      invariant pending <= all.Keys
      invariant forall k :: k in pending ==> all[k].State() == old(all[k].State())
      invariant forall k :: k in all && k !in pending ==> all[k].State() == CloseStep(old(all[k].State()))
      decreases pending
    {
      var k := Pick(pending);
      var c := all[k];
      label before_close:
      c.Close();
      forall k' | k' in all && k' != k
        ensures all[k'].State() == old@before_close(all[k'].State())
      {
        assert all[k'] != c;
      }
      pending := pending - {k};
    }
  }

  class ConnectionManager {
    var connections: map<string, WrapperConnection>

    /** Every ID names its own connection object, whose ID it is; no
        registered connection has been closed yet (closing `done` twice
        would panic) and each keeps the connection invariant. */
    ghost predicate Valid()
      reads this, connections.Values
    {
      && Injective(connections)
      && (forall k :: k in connections ==>
            connections[k].id == k && !connections[k].done && connections[k].Valid())
    }

    constructor ()
      ensures connections == map[] && Valid()
    {
      connections := map[];
    }

    /** Registers a new connection in the `connecting` state, whose
        `manage` loop starts dialing; a duplicate ID is refused and leaves
        the registry as it was. */
    method Connect(id: string, name: string, address: string,
                   username: string, password: string, sharedKey: string)
      returns (err: Option<string>)
      requires Valid()
      modifies this
      ensures Valid()
      ensures id in old(connections) ==>
                err == Some("connection with ID " + id + " already exists") && connections == old(connections)
      ensures id !in old(connections) ==>
                && err == None
                && id in connections && fresh(connections[id])
                && connections == old(connections)[id := connections[id]]
                && connections[id].State() == Initial()
                && connections[id].name == name && connections[id].address == address
                && connections[id].username == username && connections[id].password == password
                && connections[id].sharedKey == sharedKey
    {
      if id in connections {
        return Some("connection with ID " + id + " already exists");
      }
      var c := new WrapperConnection(id, name, address, username, password, sharedKey);
      connections := connections[id := c];
      err := None;
    }

    /** Lookup by ID. */
    method GetConnection(id: string) returns (c: WrapperConnection?, found: bool)
      ensures found <==> id in connections
      ensures found ==> c == connections[id]
      ensures !found ==> c == null
      ensures Valid() && found ==> c.id == id
    {
      if id in connections {
        c, found := connections[id], true;
      } else {
        c, found := null, false;
      }
    }

    /** All registered connections, one element per entry, in the map's
        (unspecified) iteration order. */
    method ListConnections() returns (conns: seq<WrapperConnection>)
      ensures |conns| == |connections|
      ensures forall c :: c in conns <==> c in connections.Values
      ensures Injective(connections) ==> Distinct(conns)
    {
      var pending := connections.Keys;
      ghost var ks: seq<string> := [];
      conns := [];
      while |pending| > 0
        invariant pending <= connections.Keys
        invariant |ks| + |pending| == |connections.Keys|
        invariant forall k :: k in ks <==> k in connections && k !in pending
        invariant Listing(connections, ks, conns)
        decreases pending
      {
        var k := Pick(pending);
        conns := conns + [connections[k]];
        ks := ks + [k];
        pending := pending - {k};
      }
      ListingCovers(connections, ks, conns);
    }

    /** Closes every connection (its socket, if any, and its `done`
        channel) and empties the registry. Each entry is deleted as it
        is closed; the map ends up empty. */
    method DisconnectAll()
      requires Valid()
      modifies this, connections.Values
      ensures connections == map[] && Valid()
      ensures forall k :: k in old(connections) ==>
                old(connections)[k].State() == CloseStep(old(connections[k].State()))
    {
      CloseAll(connections);
      connections := map[];
    }
  }
}
