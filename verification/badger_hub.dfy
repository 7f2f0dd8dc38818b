/**
 * The `hub` of the `badger` package (hub.go): the set of live connections,
 * keyed by identity. The read/write mutex only makes each operation atomic,
 * so each method is one atomic step.
 */
module BadgerHub {
  import opened Common
  import opened BadgerConn

  class Hub {
    var conns: set<Connection>

    /** `newHub`: no connections. */
    constructor ()
      ensures conns == {} && Len() == 0
    {
      conns := {};
    }

    /** `len`: the number of connections held. */
    function Len(): (n: nat)
      reads this
      ensures n == |conns|
      ensures n == 0 <==> conns == {}
      ensures forall c :: c in conns ==> n > 0
    {
      |conns|
    }

    /** `add`: set semantics; the size grows by one exactly when `conn` was absent. */
    method Add(conn: Connection)
      modifies this
      ensures conns == old(conns) + {conn}
      ensures conn in conns
      ensures Len() == old(Len()) + (if conn in old(conns) then 0 else 1)
    {
      if conn in conns {
        assert conns + {conn} == conns;
      } else {
        assert |conns + {conn}| == |conns| + |{conn}|;
      }
      conns := conns + {conn};
    }

    /** `del`: only `conn` goes; deleting an absent connection changes nothing. */
    method Del(conn: Connection)
      modifies this
      ensures conns == old(conns) - {conn}
      ensures conn !in conns
      ensures conn !in old(conns) ==> conns == old(conns)
      ensures Len() == old(Len()) - (if conn in old(conns) then 1 else 0)
    {
      conns := conns - {conn};
    }

    /**
     * `each`: the callback is foreign code, so the model returns the
     * connections in the order the callback receives them: every connection
     * of the hub exactly once, and nothing else. The hub does not change.
     */
    method Each() returns (calls: seq<Connection>)
      ensures |calls| == Len()
      ensures forall c :: c in conns <==> c in calls
      ensures NoDuplicates(calls)
    {
      calls := Enumerate(conns);
    }
  }
}
