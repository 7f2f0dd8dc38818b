/**
 * The dispatcher's router (dispatch/router.go): a table from message name to
 * the handler that processes messages of that name.
 */
module DispatchRouter {
  import opened Common

  /**
   * An application handler. Its code is foreign to the model; only its
   * identity matters, so that lookups can be compared with registrations.
   */
  datatype Handler = Handler(tag: string)

  datatype RouterError = DuplicateRegistration(name: string)

  /** The router's lookup rule on its table: the stored handler, or nil. */
  function Lookup(m: map<string, Handler>, name: string): (h: Option<Handler>)
  {
    if name in m then Some(m[name]) else None
  }

  class Router {
    var m: map<string, Handler>

    /** `newRouter`: an empty table. */
    constructor ()
      ensures m == map[]
    {
      m := map[];
    }

    /** `fetch`: the handler registered under `name`, or nil. */
    function Fetch(name: string): (h: Option<Handler>)
      reads this
      ensures h.Some? <==> name in m
      ensures h.Some? ==> name in m && h.value == m[name]
    {
      Lookup(m, name)
    }

    /**
     * `register`: a name already present panics before any change, so the
     * first registration stays; a fresh name is added and nothing else moves.
     */
    method Register(name: string, handler: Handler) returns (r: Outcome<RouterError>)
      modifies this
      ensures r.Fail? <==> name in old(m)
      ensures r.Fail? ==> r.error == DuplicateRegistration(name) && m == old(m)
      ensures r.Pass? ==> m == old(m)[name := handler]
      ensures r.Pass? ==> Fetch(name) == Some(handler)
      ensures forall other :: other != name ==> Fetch(other) == old(Fetch(other))
    {
      if name in m {
        return Fail(DuplicateRegistration(name));
      }
      m := m[name := handler];
      r := Pass;
    }
  }
}
