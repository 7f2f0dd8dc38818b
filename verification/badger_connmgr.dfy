/**
 * `ConnMgr` of the `badger` package (connmgr.go): a set of connections
 * keyed by identity. The element type `Conn` that it stores is not part of
 * this model, so the manager is generic in it; closing one is a foreign call
 * that the model records instead of performing. The read/write mutex only
 * makes each operation atomic, so each method is one atomic step.
 */
module BadgerConnMgr {
  import opened Common

  class ConnMgr<Conn(==)> {
    var conns: set<Conn>

    /** `NewConnMgr`: no connections. */
    constructor ()
      ensures conns == {} && Count() == 0
    {
      conns := {};
    }

    /** `Count`: the number of connections held. */
    function Count(): (n: nat)
      reads this
      ensures n == |conns|
      ensures n == 0 <==> conns == {}
      ensures forall c :: c in conns ==> n > 0
    {
      |conns|
    }

    /** `Add`: set semantics; other members are unchanged. */
    method Add(conn: Conn)
      modifies this
      ensures conns == old(conns) + {conn}
      ensures forall c :: c != conn ==> (c in conns <==> c in old(conns))
      ensures Count() == old(Count()) + (if conn in old(conns) then 0 else 1)
    {
      if conn in conns {
        assert conns + {conn} == conns;
      } else {
        assert |conns + {conn}| == |conns| + |{conn}|;
      }
      conns := conns + {conn};
    }

    /** `Remove`: only `conn` goes; removing an absent connection changes nothing. */
    method Remove(conn: Conn)
      modifies this
      ensures conns == old(conns) - {conn}
      ensures conn !in conns
      ensures forall c :: c != conn ==> (c in conns <==> c in old(conns))
      ensures conn !in old(conns) ==> conns == old(conns)
    {
      conns := conns - {conn};
    }

    /**
     * `Close`: calls `Close` on every member exactly once, in the
     * unspecified order of a map range, and leaves membership unchanged.
     * The result lists the members in the order their `Close` is called.
     */
    method Close() returns (closed: seq<Conn>)
      ensures |closed| == Count()
      ensures forall c :: c in conns <==> c in closed
      ensures NoDuplicates(closed)
    {
      closed := Enumerate(conns);
    }
  }
}
