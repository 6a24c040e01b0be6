/** Short sessions of a client of the connector, each proved from the
    contracts of the operations it uses alone. */
module Scenarios {
  import opened GatewayTypes
  import opened Multimaps
  import opened Gateway

  /** A connector on an encrypted session with nothing cached. */
  method Fresh() returns (c: Connector)
    ensures fresh(c)
    ensures c.Valid() && c.calls == [] && c.unsecureClient.None? && c.entryUnencrypted.None?
    ensures c.statelessServices == map[] && c.statefulServices == map[] && c.reServices == map[]
    ensures c.importStore.None? && c.derived == map[] && c.lastKeepAlive == 0
    ensures c.entryEncrypted == Entry(2) && c.secureClient == Client(1)
  {
    c := new Connector(SecurityContext(3), Client(1), Entry(2), None, false, None, 0);
  }

  /** A second plain `get` of a stateless service returns the cached proxy
      without a second lookup: the lookup that would fail is never made. */
  method CachedGet() returns (first: Result<Proxy>, second: Result<Proxy>, c: Connector)
    ensures first == Success(Proxy(Service, 7)) && second == first
    ensures c.calls == [GetByName(Entry(2), "admin")]
  {
    c := Fresh();
    first := c.Get("admin", false, Ok(7));
    second := c.Get("admin", false, Failed);
  }

  /** Asking for a secure proxy always looks it up again and replaces the
      cached one. */
  method SecureGetReloads() returns (second: Result<Proxy>, cached: map<string, Proxy>)
    ensures second == Success(Proxy(Service, 8))
    ensures cached == map["admin" := Proxy(Service, 8)]
  {
    var c := Fresh();
    var first := c.Get("admin", false, Ok(7));
    second := c.Get("admin", true, Ok(8));
    cached := c.statelessServices;
  }

  /** Two creations of the same stateful service keep both handles. */
  method RepeatedCreates() returns (held: set<Proxy>)
    ensures held == {Proxy(Stateful, 1), Proxy(Stateful, 2)}
  {
    var c := Fresh();
    var a := c.Create("search", false, Ok(1));
    var b := c.Create("search", false, Ok(2));
    held := Multimaps.Get(c.statefulServices, "search");
  }

  /** Two engines for pixels set 42 are both kept, and shutting that pixels
      set down closes both and leaves no engine. */
  method TwoEnginesForOnePixelsSet() returns (held: set<Proxy>, c: Connector)
    ensures held == {Proxy(RenderingEngine, 5), Proxy(RenderingEngine, 6)}
    ensures c.reServices == map[]
    ensures CloseProxy(Proxy(RenderingEngine, 5)) in c.calls && CloseProxy(Proxy(RenderingEngine, 6)) in c.calls
  {
    c := Fresh();
    var a := c.GetRenderingService(42, 0.8, Ok(5), Ok(()));
    var b := c.GetRenderingService(42, 0.8, Ok(6), Ok(()));
    held := Multimaps.Get(c.reServices, 42);
    ghost var before := c.calls;
    ghost var issued := c.ShutDownRenderingEngine(42);
    ClosesExactlyMember(issued, held, Proxy(RenderingEngine, 5));
    ClosesExactlyMember(issued, held, Proxy(RenderingEngine, 6));
    assert c.reServices.Keys == {};
  }

  /** After a successful keep-alive at time 1000 the session needs another
      one only once more than 30000 ms have passed. */
  method KeepAliveWindow() returns (atLimit: bool, pastLimit: bool)
    ensures !atLimit && pastLimit
  {
    var c := Fresh();
    var ok := c.KeepSessionAlive(1000, Ok(()), Ok(()));
    atLimit := c.NeedsKeepAlive(31000);
    pastLimit := c.NeedsKeepAlive(31001);
  }

  /** A failed keep-alive does not move the time of the last one. */
  method FailedKeepAlive() returns (ok: bool, needed: bool)
    ensures !ok && needed
  {
    var c := Fresh();
    ok := c.KeepSessionAlive(40000, Failed, Ok(()));
    needed := c.NeedsKeepAlive(40000);
  }

  /** A blank user name gives the connector itself and loads nothing. */
  method BlankUserName() returns (r: Result<ConnectorRef>)
    ensures r == Success(Self)
  {
    var c := Fresh();
    r := c.GetConnector(Some(" \t"), Failed);
  }

  /** A loader that throws Ice's unchecked ObjectNotExistException for a
      user not yet cached surfaces as an UncheckedExecutionException, and
      nothing is cached. */
  method UncheckedLoaderFailure() returns (r: Result<ConnectorRef>, cached: map<string, DerivedConnector>)
    ensures r == Failure(UncheckedExecution(ObjectNotExist))
    ensures cached == map[]
  {
    var c := Fresh();
    assert !IsWhitespace("alice"[0]);
    r := c.GetConnector(Some("alice"), NotExist);
    cached := c.derived;
  }

  /** shutdownStateful as written forgets a created handle without closing
      it: the table is empty and no close of the handle was logged. */
  method StatefulShutdownLeaksHandle() returns (c: Connector)
    ensures c.statefulServices == map[]
    ensures CloseProxy(Proxy(Stateful, 9)) !in c.calls
  {
    c := Fresh();
    var r := c.Create("search", false, Ok(9));
    c.ShutdownStatefulAsWritten();
  }

  /** The corrected shutdownStateful closes that handle. */
  method StatefulShutdownClosesHandle() returns (c: Connector)
    ensures c.statefulServices == map[]
    ensures CloseProxy(Proxy(Stateful, 9)) in c.calls
  {
    c := Fresh();
    var r := c.Create("search", false, Ok(9));
    ghost var issued := c.ShutdownStateful();
    ValuesUnderKey(Put(map[], "search", Proxy(Stateful, 9)), "search");
    ClosesExactlyMember(issued, {Proxy(Stateful, 9)}, Proxy(Stateful, 9));
  }

  /** close(true) as written drops a created handle from its table without
      closing it. */
  method CloseLeaksHandleAsWritten() returns (c: Connector)
    ensures c.statefulServices == map[]
    ensures CloseProxy(Proxy(Stateful, 9)) !in c.calls
  {
    c := Fresh();
    var r := c.Create("search", false, Ok(9));
    ghost var before := c.calls;
    ghost var engines := AllValues(c.reServices);
    ghost var issued := c.CloseAsWritten(true, Ok(()), Ok(()));
    CloseLogNetworkUp(issued, c.secureClient, c.unsecureClient, true, c.isSessionLogin, true,
                      {}, None, engines, map[]);
    assert engines == {};
    assert forall x :: x in before ==> x.CreateByName?;
  }

  /** Closing with the network down keeps a created handle in its table and
      closes no service. */
  method CloseWithNetworkDown() returns (c: Connector)
    ensures Multimaps.Get(c.statefulServices, "search") == {Proxy(Stateful, 9)}
    ensures forall x :: x in c.calls ==> !IsServiceClose(x)
  {
    c := Fresh();
    var r := c.Create("search", false, Ok(9));
    ghost var before := c.calls;
    ghost var stateful := AllValues(c.statefulServices);
    ghost var engines := AllValues(c.reServices);
    ghost var issued := c.Close(false, Ok(()), Ok(()));
    CloseLogNetworkDown(issued, c.secureClient, c.unsecureClient, false, c.isSessionLogin, true,
                        stateful, None, engines, map[]);
    assert forall x :: x in before ==> x.CreateByName?;
  }

  /** Closing with the network up closes a created handle and empties its
      table. */
  method CloseWithNetworkUp() returns (c: Connector)
    ensures c.statefulServices == map[]
    ensures CloseProxy(Proxy(Stateful, 9)) in c.calls
  {
    c := Fresh();
    var r := c.Create("search", false, Ok(9));
    ghost var stateful := AllValues(c.statefulServices);
    ghost var engines := AllValues(c.reServices);
    assert Proxy(Stateful, 9) in c.statefulServices["search"];
    ghost var issued := c.Close(true, Ok(()), Ok(()));
    CloseLogNetworkUp(issued, c.secureClient, c.unsecureClient, true, c.isSessionLogin, true,
                      stateful, None, engines, map[]);
  }
}
