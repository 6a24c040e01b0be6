/** The service-handle bookkeeping of omero.gateway.Connector: which tables
    change, and how, when a service proxy is looked up, created, closed or
    torn down, when the session is kept alive or rejoined, and when derived
    connectors are created or closed.

    Each remote call is a parameter holding its outcome, and the ghost field
    `calls` logs the remote calls the connector makes, so that "looks up",
    "attempts" and "closes" can be stated. */
module Gateway {
  import opened GatewayTypes
  import opened Multimaps

  /** ELAPSED_TIME: milliseconds after the last keep-alive before the
      session needs another one. */
  const ElapsedTime: int := 30000

  /** What close(networkUp) logs first: both clients are told to shut down
      fast exactly when the network is down. */
  function FastShutdowns(secure: Client, unsecure: Option<Client>, networkUp: bool): (r: seq<Call>)
    ensures 1 <= |r| && r[0] == SetFastShutdown(secure, !networkUp)
    ensures unsecure.Some? <==> |r| == 2
    ensures |r| == 2 ==> r[1] == SetFastShutdown(unsecure.value, !networkUp)
  {
    [SetFastShutdown(secure, !networkUp)] + if unsecure.Some? then [SetFastShutdown(unsecure.value, !networkUp)] else []
  }

  /** What close(networkUp) logs after the services: a joined session is
      detached from (the unencrypted one only when detaching the secure one
      succeeded), then both clients are destroyed. */
  function Teardown(secure: Client, unsecure: Option<Client>, sessionLogin: bool, detachedOk: bool): (r: seq<Call>)
    ensures Destroy(secure) in r && (unsecure.Some? ==> Destroy(unsecure.value) in r)
    ensures sessionLogin <==> DetachOnDestroy(secure) in r
    ensures sessionLogin && detachedOk && unsecure.Some? ==> DetachOnDestroy(unsecure.value) in r
  {
    var detach := if sessionLogin then
                    [DetachOnDestroy(secure)] + (if detachedOk && unsecure.Some? then [DetachOnDestroy(unsecure.value)] else [])
                  else [];
    detach + [Destroy(secure)] + if unsecure.Some? then [Destroy(unsecure.value)] else []
  }

  /** `s` is what closeDerived(networkUp) logs after visiting the cached
      users of `users`: one close per user, each of that user's cached
      connector, all with the same `networkUp`, and no close of a connector
      that is not cached. */
  ghost predicate DerivedClosesAmong(s: seq<Call>, derived: map<string, DerivedConnector>, users: set<string>, networkUp: bool)
  {
    && |s| == |users|
    && (forall u :: u in users && u in derived ==> Call.CloseDerived(derived[u], networkUp) in s)
    && (forall i :: 0 <= i < |s| ==> s[i].CloseDerived? && s[i].networkUp == networkUp && s[i].child in derived.Values)
  }

  /** `s` is what closeDerived(networkUp) logs: one close per cached user. */
  ghost predicate DerivedCloses(s: seq<Call>, derived: map<string, DerivedConnector>, networkUp: bool)
  {
    DerivedClosesAmong(s, derived, derived.Keys, networkUp)
  }

  /** Closing the connector of one more cached user extends the log of the
      users visited so far. */
  lemma DerivedCloseStep(s: seq<Call>, derived: map<string, DerivedConnector>, users: set<string>,
                         u: string, networkUp: bool)
    requires DerivedClosesAmong(s, derived, users, networkUp)
    requires u in derived && u !in users
    ensures DerivedClosesAmong(s + [Call.CloseDerived(derived[u], networkUp)], derived, users + {u}, networkUp)
  {
  }

  /** `s` is what close(networkUp) logs, in order: the fast-shutdown
      switches, the shutdown of every service when the network is up and of
      none when it is down, the detaches and destructions of the clients,
      and the closes of the derived connectors. */
  ghost predicate CloseLog(s: seq<Call>, secure: Client, unsecure: Option<Client>, networkUp: bool,
                           sessionLogin: bool, detachedOk: bool, stateful: set<Proxy>,
                           store: Option<ImportStore>, engines: set<Proxy>,
                           derived: map<string, DerivedConnector>)
  {
    exists services, closing ::
      && s == FastShutdowns(secure, unsecure, networkUp) + services
              + Teardown(secure, unsecure, sessionLogin, detachedOk) + closing
      && (networkUp ==> ShutdownLog(services, stateful, store, engines))
      && (!networkUp ==> services == [])
      && DerivedCloses(closing, derived, networkUp)
  }

  /** What a close log shows of the clients: both are switched to fast
      shutdown exactly when the network is down, the secure session is
      detached from exactly when it was joined (the unencrypted one too when
      that succeeded), and both clients are destroyed. */
  lemma CloseLogClients(s: seq<Call>, secure: Client, unsecure: Option<Client>, networkUp: bool,
                        sessionLogin: bool, detachedOk: bool, stateful: set<Proxy>,
                        store: Option<ImportStore>, engines: set<Proxy>,
                        derived: map<string, DerivedConnector>)
    requires CloseLog(s, secure, unsecure, networkUp, sessionLogin, detachedOk, stateful, store, engines, derived)
    ensures SetFastShutdown(secure, !networkUp) in s
    ensures unsecure.Some? ==> SetFastShutdown(unsecure.value, !networkUp) in s
    ensures sessionLogin <==> DetachOnDestroy(secure) in s
    ensures sessionLogin && detachedOk && unsecure.Some? ==> DetachOnDestroy(unsecure.value) in s
    ensures Destroy(secure) in s && (unsecure.Some? ==> Destroy(unsecure.value) in s)
  {
    var services, closing :|
      && s == FastShutdowns(secure, unsecure, networkUp) + services
              + Teardown(secure, unsecure, sessionLogin, detachedOk) + closing
      && (networkUp ==> ShutdownLog(services, stateful, store, engines))
      && (!networkUp ==> services == [])
      && DerivedCloses(closing, derived, networkUp);
    var fast := FastShutdowns(secure, unsecure, networkUp);
    var tail := Teardown(secure, unsecure, sessionLogin, detachedOk);
    Members(fast, services, tail, closing);
    assert fast[0] in fast;
    if unsecure.Some? {
      assert fast[1] in fast;
    }
    ClientCallsOnly(secure, unsecure, networkUp, sessionLogin, detachedOk);
    DerivedClosesOnly(closing, derived, networkUp);
    if networkUp {
      ShutdownLogCloses(services, stateful, store, engines);
    }
  }

  /** The four runs close(networkUp) logs make a close log. */
  lemma CloseLogOf(services: seq<Call>, closing: seq<Call>, secure: Client, unsecure: Option<Client>,
                   networkUp: bool, sessionLogin: bool, detachedOk: bool, stateful: set<Proxy>,
                   store: Option<ImportStore>, engines: set<Proxy>, derived: map<string, DerivedConnector>)
    requires networkUp ==> ShutdownLog(services, stateful, store, engines)
    requires !networkUp ==> services == []
    requires DerivedCloses(closing, derived, networkUp)
    ensures CloseLog(FastShutdowns(secure, unsecure, networkUp) + services
                       + Teardown(secure, unsecure, sessionLogin, detachedOk) + closing,
                     secure, unsecure, networkUp, sessionLogin, detachedOk, stateful, store, engines, derived)
  {
  }

  /** With the network up, a close log closes every stateful proxy, every
      rendering engine and the import store, and closes no other proxy. */
  lemma CloseLogNetworkUp(s: seq<Call>, secure: Client, unsecure: Option<Client>, networkUp: bool,
                        sessionLogin: bool, detachedOk: bool, stateful: set<Proxy>,
                        store: Option<ImportStore>, engines: set<Proxy>,
                        derived: map<string, DerivedConnector>)
    requires CloseLog(s, secure, unsecure, networkUp, sessionLogin, detachedOk, stateful, store, engines, derived)

    requires networkUp
    ensures forall p :: p in stateful + engines ==> CloseProxy(p) in s
    ensures store.Some? ==> CloseImportServices(store.value) in s
    ensures forall c :: c in s && c.CloseProxy? ==> c.proxy in stateful + engines
  {
    var services, closing :|
      && s == FastShutdowns(secure, unsecure, networkUp) + services
              + Teardown(secure, unsecure, sessionLogin, detachedOk) + closing
      && (networkUp ==> ShutdownLog(services, stateful, store, engines))
      && (!networkUp ==> services == [])
      && DerivedCloses(closing, derived, networkUp);
    var fast := FastShutdowns(secure, unsecure, networkUp);
    var tail := Teardown(secure, unsecure, sessionLogin, detachedOk);
    Members(fast, services, tail, closing);
    ShutdownLogCloses(services, stateful, store, engines);
    ClientCallsOnly(secure, unsecure, networkUp, sessionLogin, detachedOk);
    DerivedClosesOnly(closing, derived, networkUp);
  }

  /** With the network down, a close log touches no service. */
  lemma CloseLogNetworkDown(s: seq<Call>, secure: Client, unsecure: Option<Client>, networkUp: bool,
                        sessionLogin: bool, detachedOk: bool, stateful: set<Proxy>,
                        store: Option<ImportStore>, engines: set<Proxy>,
                        derived: map<string, DerivedConnector>)
    requires CloseLog(s, secure, unsecure, networkUp, sessionLogin, detachedOk, stateful, store, engines, derived)

    requires !networkUp
    ensures forall c :: c in s ==> !IsServiceClose(c)
  {
    var services, closing :|
      && s == FastShutdowns(secure, unsecure, networkUp) + services
              + Teardown(secure, unsecure, sessionLogin, detachedOk) + closing
      && (networkUp ==> ShutdownLog(services, stateful, store, engines))
      && (!networkUp ==> services == [])
      && DerivedCloses(closing, derived, networkUp);
    var fast := FastShutdowns(secure, unsecure, networkUp);
    var tail := Teardown(secure, unsecure, sessionLogin, detachedOk);
    Members(fast, services, tail, closing);
    ClientCallsOnly(secure, unsecure, networkUp, sessionLogin, detachedOk);
    DerivedClosesOnly(closing, derived, networkUp);
  }

  /** What a close log shows of the derived connectors: each cached one is
      closed, with the same `networkUp`. */
  lemma CloseLogDerived(s: seq<Call>, secure: Client, unsecure: Option<Client>, networkUp: bool,
                        sessionLogin: bool, detachedOk: bool, stateful: set<Proxy>,
                        store: Option<ImportStore>, engines: set<Proxy>,
                        derived: map<string, DerivedConnector>)
    requires CloseLog(s, secure, unsecure, networkUp, sessionLogin, detachedOk, stateful, store, engines, derived)
    ensures forall u :: u in derived ==> Call.CloseDerived(derived[u], networkUp) in s
  {
    var services, closing :|
      && s == FastShutdowns(secure, unsecure, networkUp) + services
              + Teardown(secure, unsecure, sessionLogin, detachedOk) + closing
      && (networkUp ==> ShutdownLog(services, stateful, store, engines))
      && (!networkUp ==> services == [])
      && DerivedCloses(closing, derived, networkUp);
    var fast := FastShutdowns(secure, unsecure, networkUp);
    var tail := Teardown(secure, unsecure, sessionLogin, detachedOk);
    Members(fast, services, tail, closing);
  }

  /** The client runs of a close log make client calls only. */
  lemma ClientCallsOnly(secure: Client, unsecure: Option<Client>, networkUp: bool, sessionLogin: bool, detachedOk: bool)
    ensures forall c :: c in FastShutdowns(secure, unsecure, networkUp) ==> c.SetFastShutdown?
    ensures forall c :: c in Teardown(secure, unsecure, sessionLogin, detachedOk) ==> c.DetachOnDestroy? || c.Destroy?
  {
  }

  /** A log of closeDerived closes derived connectors only. */
  lemma DerivedClosesOnly(s: seq<Call>, derived: map<string, DerivedConnector>, networkUp: bool)
    requires DerivedCloses(s, derived, networkUp)
    ensures forall c :: c in s ==> c.CloseDerived?
  {
    forall c | c in s ensures c.CloseDerived? {
      var i :| 0 <= i < |s| && s[i] == c;
    }
  }

  /** A call is in a log of four runs exactly when it is in one of them. */
  lemma Members(a: seq<Call>, b: seq<Call>, c: seq<Call>, d: seq<Call>)
    ensures forall x :: x in a + b + c + d <==> x in a || x in b || x in c || x in d
  {
  }

  class Connector {
    const context: SecurityContext
    /** The omero.client of the secure connection. */
    const secureClient: Client
    /** The omero.client used for unencrypted data transfer, if any. */
    var unsecureClient: Option<Client>
    var entryEncrypted: Entry
    var entryUnencrypted: Option<Entry>

    /** Stateless proxies, one per service name. */
    var statelessServices: map<string, Proxy>
    /** Stateful proxies (a HashMultimap): any number per service name. */
    var statefulServices: Multimap<string, Proxy>
    /** Rendering engines (a HashMultimap) per pixels set id. */
    var reServices: Multimap<int, Proxy>
    /** The import store, recycled once created. */
    var importStore: Option<ImportStore>
    /** The connectors derived for other users, by user name. */
    var derived: map<string, DerivedConnector>

    /** Time of the last successful keep-alive, in milliseconds. */
    var lastKeepAlive: int
    /** The user name when this is a derived connector. */
    const username: Option<string>
    /** Whether the connector joined a session it did not create. */
    var isSessionLogin: bool

    /** The remote calls made so far, oldest first. */
    ghost var calls: seq<Call>

    /** Each table holds proxies of its own kind, the multimaps drop empty
        keys, no derived connector sits under a blank name, and an
        unencrypted entry point only exists with its client. */
    ghost predicate Valid()
      reads this`statefulServices, this`reServices, this`derived, this`unsecureClient, this`entryUnencrypted
    {
      StatefulValid() && EnginesValid() && DerivedValid() && ClientsValid()
    }

    ghost predicate StatefulValid()
      reads this`statefulServices
    {
      WellFormed(statefulServices) && forall p :: p in AllValues(statefulServices) ==> p.kind == Stateful
    }

    ghost predicate EnginesValid()
      reads this`reServices
    {
      WellFormed(reServices) && forall p :: p in AllValues(reServices) ==> p.kind == RenderingEngine
    }

    ghost predicate DerivedValid()
      reads this`derived
    {
      forall u :: u in derived ==> !IsBlank(Some(u))
    }

    ghost predicate ClientsValid()
      reads this`unsecureClient, this`entryUnencrypted
    {
      entryUnencrypted.Some? ==> unsecureClient.Some?
    }

    /** The constructor once its argument checks have passed and, for an
        unencrypted connector, the unencrypted client and its entry point have
        been obtained. */
    constructor (context: SecurityContext, client: Client, entryEncrypted: Entry,
                 unsecure: Option<(Client, Entry)>, sessionLogin: bool,
                 username: Option<string>, now: int)
      ensures Valid()
      ensures this.context == context && secureClient == client && this.entryEncrypted == entryEncrypted
      ensures unsecure.None? ==> unsecureClient.None? && entryUnencrypted.None?
      ensures unsecure.Some? ==>
                unsecureClient == Some(unsecure.value.0) && entryUnencrypted == Some(unsecure.value.1)
      ensures statelessServices == map[] && statefulServices == map[] && reServices == map[]
      ensures importStore.None? && derived == map[]
      ensures lastKeepAlive == now && isSessionLogin == sessionLogin && this.username == username
      ensures calls == []
    {
      this.context := context;
      secureClient := client;
      this.entryEncrypted := entryEncrypted;
      if unsecure.Some? {
        unsecureClient := Some(unsecure.value.0);
        entryUnencrypted := Some(unsecure.value.1);
      } else {
        unsecureClient := None;
        entryUnencrypted := None;
      }
      statelessServices := map[];
      statefulServices := map[];
      reServices := map[];
      importStore := None;
      derived := map[];
      lastKeepAlive := now;
      this.username := username;
      isSessionLogin := sessionLogin;
      calls := [];
    }

    /** The constructor with its argument checks. A missing security context,
        client or entry point is refused in that order; when `encrypted` is
        false it asks the client for an unencrypted companion client
        (`newClient`) and that client for its session (`newSession`), and a
        failure of either propagates. */
    static method Open(context: Option<SecurityContext>, client: Option<Client>,
                       entryEncrypted: Option<Entry>, encrypted: bool, sessionLogin: bool,
                       username: Option<string>, now: int,
                       newClient: Outcome<Client>, newSession: Outcome<Entry>)
      returns (r: Result<Connector>)
      ensures ArgumentError(context, client, entryEncrypted).Some? ==>
                r == Failure(ArgumentError(context, client, entryEncrypted).value)
      ensures ArgumentError(context, client, entryEncrypted).None? && !encrypted && !newClient.Ok? ==>
                r == Failure(Propagated(newClient.Cause()))
      ensures ArgumentError(context, client, entryEncrypted).None? && !encrypted && newClient.Ok? && !newSession.Ok? ==>
                r == Failure(Propagated(newSession.Cause()))
      ensures r.Success? <==>
                ArgumentError(context, client, entryEncrypted).None? && (encrypted || (newClient.Ok? && newSession.Ok?))
      ensures r.Success? ==>
                && fresh(r.value) && r.value.Valid()
                && r.value.context == context.value && r.value.secureClient == client.value
                && r.value.entryEncrypted == entryEncrypted.value
                && (encrypted ==> r.value.unsecureClient.None? && r.value.entryUnencrypted.None?)
                && (!encrypted ==> r.value.unsecureClient == Some(newClient.value)
                                   && r.value.entryUnencrypted == Some(newSession.value))
                && r.value.statelessServices == map[] && r.value.statefulServices == map[]
                && r.value.reServices == map[] && r.value.importStore.None? && r.value.derived == map[]
                && r.value.lastKeepAlive == now && r.value.isSessionLogin == sessionLogin
                && r.value.username == username
    {
      var err := ArgumentError(context, client, entryEncrypted);
      if err.Some? {
        return Failure(err.value);
      }
      var unsecure: Option<(Client, Entry)> := None;
      if !encrypted {
        if !newClient.Ok? {
          return Failure(Propagated(newClient.Cause()));
        }
        if !newSession.Ok? {
          return Failure(Propagated(newSession.Cause()));
        }
        unsecure := Some((newClient.value, newSession.value));
      }
      var c := new Connector(context.value, client.value, entryEncrypted.value, unsecure,
                             sessionLogin, username, now);
      r := Success(c);
    }

    /** The entry point `get` and `create` call: the unencrypted one when the
        caller does not ask for a secure proxy and one exists, otherwise the
        encrypted one. The rendering-engine and import-store paths use it with
        `secure` false. */
    function LookupEntry(secure: bool): (e: Entry)
      reads this`entryEncrypted, this`entryUnencrypted
      ensures !secure && entryUnencrypted.Some? ==> e == entryUnencrypted.value
      ensures secure || entryUnencrypted.None? ==> e == entryEncrypted
    {
      if !secure && entryUnencrypted.Some? then entryUnencrypted.value else entryEncrypted
    }

    /** getClient: the unencrypted client if there is one, else the secure one. */
    function GetClient(): (c: Client)
      reads this`unsecureClient
      ensures unsecureClient.Some? ==> c == unsecureClient.value
      ensures unsecureClient.None? ==> c == secureClient
    {
      if unsecureClient.Some? then unsecureClient.value else secureClient
    }

    /** needsKeepAlive: more than ELAPSED_TIME milliseconds have passed since
        the last successful keep-alive (strictly more). */
    function NeedsKeepAlive(now: int): (r: bool)
      reads this`lastKeepAlive
      ensures r <==> now > lastKeepAlive + ElapsedTime
    {
      now - lastKeepAlive > ElapsedTime
    }

    /** get(name, secure): a cached proxy is returned as it is unless the
        caller asks for a secure one; otherwise the proxy is looked up by name
        (`lookup` is the outcome of that call) and overwrites the entry under
        `name`. A failed lookup raises and leaves the cache as it was. */
    method Get(name: string, secure: bool, lookup: Outcome<nat>) returns (r: Result<Proxy>)
      requires Valid()
      modifies this`statelessServices, this`calls
      ensures Valid()
      ensures !secure && name in old(statelessServices) ==>
                && r == Success(old(statelessServices)[name])
                && statelessServices == old(statelessServices)
                && calls == old(calls)
      ensures secure || name !in old(statelessServices) ==>
                && calls == old(calls) + [GetByName(LookupEntry(secure), name)]
                && (lookup.Ok? ==>
                      && r == Success(Proxy(Service, lookup.value))
                      && statelessServices == old(statelessServices)[name := Proxy(Service, lookup.value)])
                && (!lookup.Ok? ==>
                      && r == Failure(OutOfService("Could not load " + name, lookup.Cause()))
                      && statelessServices == old(statelessServices))
    {
      if !secure && name in statelessServices {
        return Success(statelessServices[name]);
      }
      calls := calls + [GetByName(LookupEntry(secure), name)];
      if !lookup.Ok? {
        return Failure(OutOfService("Could not load " + name, lookup.Cause()));
      }
      var prx := Proxy(Service, lookup.value);
      statelessServices := statelessServices[name := prx];
      r := Success(prx);
    }

    /** create(name, secure): always a fresh remote creation (`creation` is
        its outcome), never a cache read; the new proxy is added under `name`
        next to the ones already there. A failed creation raises and leaves
        the table as it was. */
    method Create(name: string, secure: bool, creation: Outcome<nat>) returns (r: Result<Proxy>)
      requires Valid()
      modifies this`statefulServices, this`calls
      ensures Valid()
      ensures calls == old(calls) + [CreateByName(LookupEntry(secure), name)]
      ensures creation.Ok? ==>
                && r == Success(Proxy(Stateful, creation.value))
                && statefulServices == Put(old(statefulServices), name, r.value)
      ensures !creation.Ok? ==>
                && r == Failure(OutOfService("Could not create " + name, creation.Cause()))
                && statefulServices == old(statefulServices)
    {
      calls := calls + [CreateByName(LookupEntry(secure), name)];
      if !creation.Ok? {
        return Failure(OutOfService("Could not create " + name, creation.Cause()));
      }
      var prx := Proxy(Stateful, creation.value);
      statefulServices := Put(statefulServices, name, prx);
      r := Success(prx);
    }

    /** getRenderingService(pixelsID, compression): creates a new engine on
        the unencrypted entry point if there is one (`creation`), sets its
        compression level (`compressionSet`) and adds it under `pixelsId`. A
        failed creation raises DSOutOfServiceException; a failure to set the
        compression propagates as it is, and the engine is not recorded. */
    method GetRenderingService(pixelsId: int, compression: real,
                               creation: Outcome<nat>, compressionSet: Outcome<()>)
      returns (r: Result<Proxy>)
      requires Valid()
      modifies this`reServices, this`calls
      ensures Valid()
      ensures !creation.Ok? ==>
                && r == Failure(OutOfService("Could not get rendering engine", creation.Cause()))
                && reServices == old(reServices)
                && calls == old(calls) + [CreateRenderingEngine(LookupEntry(false))]
      ensures creation.Ok? ==>
                && calls == old(calls) + [CreateRenderingEngine(LookupEntry(false)),
                                          SetCompressionLevel(Proxy(RenderingEngine, creation.value), compression)]
                && (compressionSet.Ok? ==>
                      && r == Success(Proxy(RenderingEngine, creation.value))
                      && reServices == Put(old(reServices), pixelsId, r.value))
                && (!compressionSet.Ok? ==>
                      && r == Failure(Propagated(compressionSet.Cause()))
                      && reServices == old(reServices))
    {
      calls := calls + [CreateRenderingEngine(LookupEntry(false))];
      if !creation.Ok? {
        return Failure(OutOfService("Could not get rendering engine", creation.Cause()));
      }
      var prx := Proxy(RenderingEngine, creation.value);
      calls := calls + [SetCompressionLevel(prx, compression)];
      if !compressionSet.Ok? {
        return Failure(Propagated(compressionSet.Cause()));
      }
      reServices := Put(reServices, pixelsId, prx);
      r := Success(prx);
    }

    /** getImportStore: the existing store is returned as it is. Otherwise
        the new `store` is initialized on the unencrypted entry point if there
        is one, else on the encrypted one (`initialized`), and recorded only
        once that succeeded; a failure raises and leaves no store. */
    method GetImportStore(store: ImportStore, initialized: Outcome<()>) returns (r: Result<ImportStore>)
      requires Valid()
      modifies this`importStore, this`calls
      ensures Valid()
      ensures old(importStore).Some? ==>
                r == Success(old(importStore).value) && importStore == old(importStore) && calls == old(calls)
      ensures old(importStore).None? ==>
                && calls == old(calls) + [InitializeImportStore(store, LookupEntry(false))]
                && (initialized.Ok? ==> r == Success(store) && importStore == Some(store))
                && (!initialized.Ok? ==>
                      && r == Failure(OutOfService("Failed to create import store", initialized.Cause()))
                      && importStore.None?)
    {
      if importStore.Some? {
        return Success(importStore.value);
      }
      calls := calls + [InitializeImportStore(store, LookupEntry(false))];
      if !initialized.Ok? {
        return Failure(OutOfService("Failed to create import store", initialized.Cause()));
      }
      importStore := Some(store);
      r := Success(store);
    }

    /** keepSessionAlive: keeps the encrypted session alive and, only when
        that succeeded, the unencrypted one. It never raises: it reports
        whether every call it made succeeded, and only then records `now` as
        the time of the last keep-alive. */
    method KeepSessionAlive(now: int, encryptedAlive: Outcome<()>, unencryptedAlive: Outcome<()>)
      returns (success: bool)
      requires Valid()
      modifies this`lastKeepAlive, this`calls
      ensures Valid()
      ensures success <==> encryptedAlive.Ok? && (entryUnencrypted.None? || unencryptedAlive.Ok?)
      ensures lastKeepAlive == if success then now else old(lastKeepAlive)
      ensures calls == old(calls) + [KeepAllAlive(entryEncrypted)]
                + (if encryptedAlive.Ok? && entryUnencrypted.Some? then [KeepAllAlive(entryUnencrypted.value)] else [])
    {
      success := true;
      calls := calls + [KeepAllAlive(entryEncrypted)];
      if !encryptedAlive.Ok? {
        success := false;
      }
      if entryUnencrypted.Some? && success {
        calls := calls + [KeepAllAlive(entryUnencrypted.value)];
        if !unencryptedAlive.Ok? {
          success := false;
        }
      }
      if success {
        lastKeepAlive := now;
      }
    }

    /** close(proxy): nothing for a null proxy. Otherwise the proxy is closed
        remotely; whatever that does (success, ObjectNotExist, any other
        failure) is caught, so it is not a parameter and the method never
        raises. Then the proxy is removed from every key of its own table: a
        rendering engine from `reServices`, any other proxy from
        `statefulServices`; the other table is untouched. */
    method CloseService(proxy: Option<Proxy>)
      requires Valid()
      requires proxy.Some? ==> proxy.value.kind != Service
      modifies this`statefulServices, this`reServices, this`calls
      ensures Valid()
      ensures proxy.None? ==>
                && statefulServices == old(statefulServices) && reServices == old(reServices)
                && calls == old(calls)
      ensures proxy.Some? ==> calls == old(calls) + [CloseProxy(proxy.value)]
      ensures proxy.Some? && proxy.value.kind == RenderingEngine ==>
                && reServices == RemoveValues(old(reServices), {proxy.value})
                && statefulServices == old(statefulServices)
      ensures proxy.Some? && proxy.value.kind != RenderingEngine ==>
                && statefulServices == RemoveValues(old(statefulServices), {proxy.value})
                && reServices == old(reServices)
    {
      if proxy.None? {
        return;
      }
      var prx := proxy.value;
      calls := calls + [CloseProxy(prx)];
      if prx.kind == RenderingEngine {
        var keys := reServices.Keys;
        ghost var done: set<int> := {};
        while keys != {}
          invariant keys + done == old(reServices).Keys && keys !! done
          invariant reServices == RemoveValueAt(old(reServices), done, prx)
          modifies this`reServices
          decreases keys
        {
          var key := NextKey(keys);
          RemoveValueAtStep(old(reServices), done, key, prx);
          reServices := Remove(reServices, key, prx);
          keys := keys - {key};
          done := done + {key};
        }
        RemoveValueAtEveryKey(old(reServices), prx);
      } else {
        var keys := statefulServices.Keys;
        ghost var done: set<string> := {};
        while keys != {}
          invariant keys + done == old(statefulServices).Keys && keys !! done
          invariant statefulServices == RemoveValueAt(old(statefulServices), done, prx)
          modifies this`statefulServices
          decreases keys
        {
          var key := NextKey(keys);
          RemoveValueAtStep(old(statefulServices), done, key, prx);
          statefulServices := Remove(statefulServices, key, prx);
          keys := keys - {key};
          done := done + {key};
        }
        RemoveValueAtEveryKey(old(statefulServices), prx);
      }
    }

    /** shutDownRenderingEngine(pixelsId): removes every engine under
        `pixelsId` and closes each of them once; closing an engine removes it
        from every other key as well. `issued` is the calls it makes. */
    method ShutDownRenderingEngine(pixelsId: int) returns (ghost issued: seq<Call>)
      requires Valid()
      modifies this`reServices, this`statefulServices, this`calls
      ensures Valid()
      ensures reServices == RemoveValues(RemoveAll(old(reServices), pixelsId), Multimaps.Get(old(reServices), pixelsId))
      ensures statefulServices == old(statefulServices)
      ensures calls == old(calls) + issued
      ensures ClosesExactly(issued, Multimaps.Get(old(reServices), pixelsId))
    {
      var proxies := Multimaps.Get(reServices, pixelsId);
      ValuesUnderKey(reServices, pixelsId);
      reServices := RemoveAll(reServices, pixelsId);
      RemoveNoValues(reServices);
      ghost var closed: set<Proxy> := {};
      issued := [];
      while proxies != {}
        invariant Valid()
        invariant proxies + closed == Multimaps.Get(old(reServices), pixelsId) && proxies !! closed
        invariant forall p :: p in proxies ==> p.kind == RenderingEngine
        invariant reServices == RemoveValues(RemoveAll(old(reServices), pixelsId), closed)
        invariant statefulServices == old(statefulServices)
        invariant calls == old(calls) + issued
        invariant ClosesExactly(issued, closed)
        decreases proxies
      {
        var prx := NextKey(proxies);
        CloseService(Some(prx));
        LogAppend(old(calls), issued, [CloseProxy(prx)]);
        RemoveValuesTwice(RemoveAll(old(reServices), pixelsId), closed, {prx});
        ClosesOne(prx);
        ClosesExactlyAppend(issued, closed, [CloseProxy(prx)], {prx});
        issued := issued + [CloseProxy(prx)];
        proxies := proxies - {prx};
        closed := closed + {prx};
      }
    }

    /** Closes each proxy of a drained collection of stateful proxies, as the
        loop of shutdownStateful does. */
    method CloseDrained(proxies: set<Proxy>) returns (ghost issued: seq<Call>)
      requires Valid()
      requires forall p :: p in proxies ==> p.kind == Stateful
      modifies this`statefulServices, this`reServices, this`calls
      ensures Valid()
      ensures statefulServices == RemoveValues(old(statefulServices), proxies)
      ensures reServices == old(reServices)
      ensures calls == old(calls) + issued
      ensures ClosesExactly(issued, proxies)
    {
      var todo := proxies;
      ghost var closed: set<Proxy> := {};
      issued := [];
      RemoveNoValues(statefulServices);
      while todo != {}
        invariant Valid()
        invariant todo + closed == proxies && todo !! closed
        invariant statefulServices == RemoveValues(old(statefulServices), closed)
        invariant reServices == old(reServices)
        invariant calls == old(calls) + issued
        invariant ClosesExactly(issued, closed)
        decreases todo
      {
        var prx := NextKey(todo);
        CloseService(Some(prx));
        LogAppend(old(calls), issued, [CloseProxy(prx)]);
        RemoveValuesTwice(old(statefulServices), closed, {prx});
        ClosesOne(prx);
        ClosesExactlyAppend(issued, closed, [CloseProxy(prx)], {prx});
        issued := issued + [CloseProxy(prx)];
        todo := todo - {prx};
        closed := closed + {prx};
      }
    }

    /** shutdownStateful as it is written: the collection it closes is the
        live `values()` view of the table, and it is iterated after `clear()`,
        so it is read here after the table has been emptied and closes
        nothing. */
    method ShutdownStatefulAsWritten()
      requires Valid()
      modifies this`statefulServices, this`reServices, this`calls
      ensures Valid()
      ensures statefulServices == map[]
      ensures reServices == old(reServices)
      ensures calls == old(calls)
    {
      statefulServices := map[];
      var proxies := AllValues(statefulServices);
      ghost var issued := CloseDrained(proxies);
      assert statefulServices.Keys == {};
      assert issued == [];
    }

    /** shutdownStateful as intended: drains the table and closes every
        proxy that was in it, each once. */
    method ShutdownStateful() returns (ghost issued: seq<Call>)
      requires Valid()
      modifies this`statefulServices, this`reServices, this`calls
      ensures Valid()
      ensures statefulServices == map[]
      ensures reServices == old(reServices)
      ensures calls == old(calls) + issued
      ensures ClosesExactly(issued, AllValues(old(statefulServices)))
    {
      var proxies := AllValues(statefulServices);
      statefulServices := map[];
      issued := CloseDrained(proxies);
      assert statefulServices.Keys == {};
    }

    /** shutdownImports: closes the import store's services if there is a
        store; the store is forgotten only when that succeeded, and a failure
        is caught. */
    method ShutdownImports(closeServices: Outcome<()>)
      requires Valid()
      modifies this`importStore, this`calls
      ensures Valid()
      ensures old(importStore).None? ==> importStore.None? && calls == old(calls)
      ensures old(importStore).Some? ==>
                && calls == old(calls) + [CloseImportServices(old(importStore).value)]
                && importStore == (if closeServices.Ok? then None else old(importStore))
    {
      if importStore.Some? {
        calls := calls + [CloseImportServices(importStore.value)];
        if closeServices.Ok? {
          importStore := None;
        }
      }
    }

    /** The rendering half of shutDownServices: shutDownRenderingEngine for
        each pixels id of a snapshot of the keys, which closes every engine
        once and empties the table. */
    method ShutDownEngines() returns (ghost issued: seq<Call>)
      requires Valid()
      modifies this`reServices, this`statefulServices, this`calls
      ensures Valid()
      ensures reServices == map[] && statefulServices == old(statefulServices)
      ensures calls == old(calls) + issued
      ensures ClosesExactly(issued, AllValues(old(reServices)))
    {
      var tmp := reServices.Keys;
      ghost var closed: set<Proxy> := {};
      issued := [];
      while tmp != {}
        invariant Valid()
        invariant statefulServices == old(statefulServices)
        invariant reServices.Keys <= tmp
        invariant closed + AllValues(reServices) == AllValues(old(reServices)) && closed !! AllValues(reServices)
        invariant calls == old(calls) + issued
        invariant ClosesExactly(issued, closed)
        decreases tmp
      {
        var pixelsId := NextKey(tmp);
        ghost var before := reServices;
        DrainKey(before, pixelsId, closed, AllValues(old(reServices)));
        var step := ShutDownRenderingEngine(pixelsId);
        ghost var engines := Multimaps.Get(before, pixelsId);
        ClosesExactlyAppend(issued, closed, step, engines);
        LogAppend(old(calls), issued, step);
        issued := issued + step;
        closed := closed + engines;
        tmp := tmp - {pixelsId};
      }
      assert reServices.Keys == {};
      assert AllValues(reServices) == {};
    }

    /** shutDownServices(rendering): closes every stateful proxy, then the
        import store and, when `rendering` holds, every rendering engine of
        every pixels set; it never raises. `issued` is the calls it makes. */
    method ShutDownServices(rendering: bool, closeServices: Outcome<()>) returns (ghost issued: seq<Call>)
      requires Valid()
      modifies this`statefulServices, this`reServices, this`importStore, this`calls
      ensures Valid()
      ensures statefulServices == map[]
      ensures rendering ==> reServices == map[]
      ensures !rendering ==> reServices == old(reServices)
      ensures importStore == if old(importStore).Some? && closeServices.Ok? then None else old(importStore)
      ensures calls == old(calls) + issued
      ensures ShutdownLog(issued, AllValues(old(statefulServices)), old(importStore),
                          if rendering then AllValues(old(reServices)) else {})
    {
      var stateful := ShutdownStateful();
      ghost var imports := if importStore.Some? then [CloseImportServices(importStore.value)] else [];
      ShutdownImports(closeServices);
      ghost var engines: seq<Call> := [];
      if rendering {
        engines := ShutDownEngines();
      }
      LogAppend(old(calls), stateful, imports);
      LogAppend(old(calls), stateful + imports, engines);
      issued := stateful + imports + engines;
      ShutdownLogOf(stateful, AllValues(old(statefulServices)), imports, old(importStore),
                    engines, if rendering then AllValues(old(reServices)) else {});
    }

    /** shutDownServices(rendering) as it is written: the same steps with
        shutdownStateful as written, so the stateful table is emptied but
        none of its proxies is closed. */
    method ShutDownServicesAsWritten(rendering: bool, closeServices: Outcome<()>) returns (ghost issued: seq<Call>)
      requires Valid()
      modifies this`statefulServices, this`reServices, this`importStore, this`calls
      ensures Valid()
      ensures statefulServices == map[]
      ensures rendering ==> reServices == map[]
      ensures !rendering ==> reServices == old(reServices)
      ensures importStore == if old(importStore).Some? && closeServices.Ok? then None else old(importStore)
      ensures calls == old(calls) + issued
      ensures ShutdownLog(issued, {}, old(importStore), if rendering then AllValues(old(reServices)) else {})
    {
      ShutdownStatefulAsWritten();
      ghost var imports := if importStore.Some? then [CloseImportServices(importStore.value)] else [];
      ShutdownImports(closeServices);
      ghost var engines: seq<Call> := [];
      if rendering {
        engines := ShutDownEngines();
      }
      LogAppend(old(calls), imports, engines);
      issued := imports + engines;
      ShutdownLogOf([], {}, imports, old(importStore), engines, if rendering then AllValues(old(reServices)) else {});
      assert [] + imports + engines == issued;
    }

    /** closeDerived(networkUp): asks every derived connector to close, one
        call per cached user; a failure of one is caught and the others are
        still closed. Then the cache of derived connectors is emptied. */
    method CloseDerived(networkUp: bool) returns (ghost issued: seq<Call>)
      requires Valid()
      modifies this`derived, this`calls
      ensures Valid()
      ensures derived == map[]
      ensures calls == old(calls) + issued
      ensures DerivedCloses(issued, old(derived), networkUp)
    {
      issued := CloseEachDerived(derived, networkUp);
      derived := map[];
    }

    /** The loop of closeDerived over the cached connectors of `cache`. */
    method CloseEachDerived(cache: map<string, DerivedConnector>, networkUp: bool) returns (ghost issued: seq<Call>)
      modifies this`calls
      ensures calls == old(calls) + issued
      ensures DerivedCloses(issued, cache, networkUp)
    {
      var users := cache.Keys;
      ghost var visited: set<string> := {};
      issued := [];
      while users != {}
        invariant users + visited == cache.Keys && users !! visited
        invariant calls == old(calls) + issued
        invariant DerivedClosesAmong(issued, cache, visited, networkUp)
        decreases users
      {
        var u := NextKey(users);
        var close := Call.CloseDerived(cache[u], networkUp);
        DerivedCloseStep(issued, cache, visited, u, networkUp);
        LogAppend(old(calls), issued, [close]);
        calls := calls + [close];
        issued := issued + [close];
        users := users - {u};
        visited := visited + {u};
      }
      assert visited == cache.Keys;
    }

    /** close(networkUp), control flow only: both clients are switched to
        fast shutdown when the network is down; with the network up every
        service is shut down, with it down none is. A session that was
        joined rather than created is detached (the unencrypted one only if
        detaching the secure one, `detached`, succeeded; a failure is
        caught). Both clients are destroyed, then the derived connectors are
        closed. The stateless cache is left as it is. `issued` is the calls
        it makes. */
    method Close(networkUp: bool, closeServices: Outcome<()>, detached: Outcome<()>) returns (ghost issued: seq<Call>)
      requires Valid()
      modifies this`statefulServices, this`reServices, this`importStore, this`derived, this`calls
      ensures Valid()
      ensures derived == map[]
      ensures networkUp ==>
                && statefulServices == map[] && reServices == map[]
                && importStore == if old(importStore).Some? && closeServices.Ok? then None else old(importStore)
      ensures !networkUp ==>
                statefulServices == old(statefulServices) && reServices == old(reServices) && importStore == old(importStore)
      ensures calls == old(calls) + issued
      ensures CloseLog(issued, secureClient, unsecureClient, networkUp, isSessionLogin, detached.Ok?,
                       AllValues(old(statefulServices)), old(importStore), AllValues(old(reServices)), old(derived))
    {
      ghost var fast := FastShutdowns(secureClient, unsecureClient, networkUp);
      calls := calls + fast;
      ghost var services := ShutDownServicesIfUp(networkUp, closeServices, false);
      // the detaches, of which a failure is caught, and the destructions
      ghost var tail := Teardown(secureClient, unsecureClient, isSessionLogin, detached.Ok?);
      calls := calls + tail;
      ghost var closing := CloseDerived(networkUp);
      LogAppend(old(calls), fast, services);
      LogAppend(old(calls), fast + services, tail);
      LogAppend(old(calls), fast + services + tail, closing);
      issued := fast + services + tail + closing;
      CloseLogOf(services, closing, secureClient, unsecureClient, networkUp, isSessionLogin, detached.Ok?,
                 AllValues(old(statefulServices)), old(importStore), AllValues(old(reServices)), old(derived));
    }

    /** close(networkUp) as it is written: the same steps with
        shutdownStateful as written, so with the network up the stateful
        proxies are dropped from their table without being closed. */
    method CloseAsWritten(networkUp: bool, closeServices: Outcome<()>, detached: Outcome<()>)
      returns (ghost issued: seq<Call>)
      requires Valid()
      modifies this`statefulServices, this`reServices, this`importStore, this`derived, this`calls
      ensures Valid()
      ensures derived == map[]
      ensures networkUp ==>
                && statefulServices == map[] && reServices == map[]
                && importStore == if old(importStore).Some? && closeServices.Ok? then None else old(importStore)
      ensures !networkUp ==>
                statefulServices == old(statefulServices) && reServices == old(reServices) && importStore == old(importStore)
      ensures calls == old(calls) + issued
      ensures CloseLog(issued, secureClient, unsecureClient, networkUp, isSessionLogin, detached.Ok?,
                       {}, old(importStore), AllValues(old(reServices)), old(derived))
    {
      ghost var fast := FastShutdowns(secureClient, unsecureClient, networkUp);
      calls := calls + fast;
      ghost var services := ShutDownServicesIfUp(networkUp, closeServices, true);
      ghost var tail := Teardown(secureClient, unsecureClient, isSessionLogin, detached.Ok?);
      calls := calls + tail;
      ghost var closing := CloseDerived(networkUp);
      LogAppend(old(calls), fast, services);
      LogAppend(old(calls), fast + services, tail);
      LogAppend(old(calls), fast + services + tail, closing);
      issued := fast + services + tail + closing;
      CloseLogOf(services, closing, secureClient, unsecureClient, networkUp, isSessionLogin, detached.Ok?,
                 {}, old(importStore), AllValues(old(reServices)), old(derived));
    }

    /** The service shutdown of close(networkUp): every service with the
        network up, none with it down; `asWritten` picks shutdownStateful as
        written, which closes no stateful proxy. */
    method ShutDownServicesIfUp(networkUp: bool, closeServices: Outcome<()>, asWritten: bool)
      returns (ghost issued: seq<Call>)
      requires Valid()
      modifies this`statefulServices, this`reServices, this`importStore, this`calls
      ensures Valid()
      ensures networkUp ==>
                && statefulServices == map[] && reServices == map[]
                && importStore == if old(importStore).Some? && closeServices.Ok? then None else old(importStore)
      ensures !networkUp ==>
                statefulServices == old(statefulServices) && reServices == old(reServices) && importStore == old(importStore)
      ensures calls == old(calls) + issued
      ensures networkUp ==>
                ShutdownLog(issued, if asWritten then {} else AllValues(old(statefulServices)), old(importStore),
                            AllValues(old(reServices)))
      ensures !networkUp ==> issued == []
    {
      issued := [];
      if networkUp && asWritten {
        issued := ShutDownServicesAsWritten(true, closeServices);
      } else if networkUp {
        issued := ShutDownServices(true, closeServices);
      }
    }

    /** closeImport: shuts the import store down, then closes the derived
        connectors as with the network down. `issued` is the calls it
        makes: the import store's close when there is a store, then one close
        per derived connector. */
    method CloseImport(closeServices: Outcome<()>) returns (ghost issued: seq<Call>)
      requires Valid()
      modifies this`importStore, this`derived, this`calls
      ensures Valid()
      ensures importStore == if old(importStore).Some? && closeServices.Ok? then None else old(importStore)
      ensures derived == map[]
      ensures calls == old(calls) + issued
      ensures old(importStore).None? ==> DerivedCloses(issued, old(derived), false)
      ensures old(importStore).Some? ==>
                && 1 <= |issued| && issued[0] == CloseImportServices(old(importStore).value)
                && DerivedCloses(issued[1..], old(derived), false)
    {
      ghost var imports := if importStore.Some? then [CloseImportServices(importStore.value)] else [];
      ShutdownImports(closeServices);
      ghost var closing := CloseDerived(false);
      LogAppend(old(calls), imports, closing);
      issued := imports + closing;
      assert issued[|imports|..] == closing;
    }

    /** closeSessionOnExit(closeSession): whether close() destroys the
        session or only detaches from it. */
    method CloseSessionOnExit(closeSession: bool)
      modifies this`isSessionLogin
      ensures isSessionLogin == !closeSession
    {
      isSessionLogin := !closeSession;
    }

    /** getConnector(userName): a blank name gives this connector and touches
        nothing. Otherwise the cached derived connector for that user is
        returned, or one is loaded (`load` is the outcome of the loader) and
        cached; a failed load raises and caches nothing. */
    method GetConnector(userName: Option<string>, load: Outcome<DerivedConnector>)
      returns (r: Result<ConnectorRef>)
      requires Valid()
      modifies this`derived, this`calls
      ensures Valid()
      ensures IsBlank(userName) ==> r == Success(Self) && derived == old(derived) && calls == old(calls)
      ensures !IsBlank(userName) && userName.value in old(derived) ==>
                && r == Success(Derived(old(derived)[userName.value]))
                && derived == old(derived) && calls == old(calls)
      ensures !IsBlank(userName) && userName.value !in old(derived) ==>
                && calls == old(calls) + [LoadDerived(userName.value)]
                && (load.Ok? ==>
                      r == Success(Derived(load.value)) && derived == old(derived)[userName.value := load.value])
                && (!load.Ok? ==> derived == old(derived))
                // Ice's ObjectNotExistException is unchecked; any other failure is taken as checked
                && (load.NotExist? ==> r == Failure(UncheckedExecution(ObjectNotExist)))
                && (load.Failed? ==> r == Failure(Execution(OtherFailure)))
    {
      if IsBlank(userName) {
        return Success(Self);
      }
      var name := userName.value;
      if name in derived {
        return Success(Derived(derived[name]));
      }
      calls := calls + [LoadDerived(name)];
      if load.NotExist? {
        return Failure(UncheckedExecution(load.Cause()));
      } else if load.Failed? {
        return Failure(Execution(load.Cause()));
      }
      derived := derived[name := load.value];
      r := Success(Derived(load.value));
    }

    /** joinSession: every cached proxy is dropped first, whatever happens
        next. Then both sessions are closed locally, the secure client rejoins
        the session (`rejoined`) and, when there was an unencrypted client, a
        new one is created (`newClient`) with its entry point (`newSession`).
        The first failure propagates as it is and stops the sequence. */
    method JoinSession(closedSecure: Outcome<()>, closedUnsecure: Outcome<()>, rejoined: Outcome<Entry>,
                       newClient: Outcome<Client>, newSession: Outcome<Entry>)
      returns (r: Result<()>)
      requires Valid()
      modifies this`statelessServices, this`statefulServices, this`reServices, this`entryEncrypted,
               this`unsecureClient, this`entryUnencrypted, this`calls
      ensures Valid()
      ensures statelessServices == map[] && statefulServices == map[] && reServices == map[]
      // the calls, each made only when every one before it succeeded
      ensures var closed := closedSecure.Ok? && (old(unsecureClient).Some? ==> closedUnsecure.Ok?);
              calls == old(calls) + [CloseSession(secureClient)]
                       + (if closedSecure.Ok? && old(unsecureClient).Some? then [CloseSession(old(unsecureClient).value)] else [])
                       + (if closed then [Call.JoinSession(secureClient)] else [])
                       + (if closed && rejoined.Ok? && old(unsecureClient).Some? then
                            [CreateClient(secureClient)] + (if newClient.Ok? then [GetSession(newClient.value)] else [])
                          else [])
      ensures r.Success? <==>
                && closedSecure.Ok? && rejoined.Ok?
                && (old(unsecureClient).Some? ==> closedUnsecure.Ok? && newClient.Ok? && newSession.Ok?)
      // the first failure is the one raised
      ensures !closedSecure.Ok? ==> r == Failure(Propagated(closedSecure.Cause()))
      ensures closedSecure.Ok? && old(unsecureClient).Some? && !closedUnsecure.Ok? ==>
                r == Failure(Propagated(closedUnsecure.Cause()))
      ensures closedSecure.Ok? && (old(unsecureClient).Some? ==> closedUnsecure.Ok?) && !rejoined.Ok? ==>
                r == Failure(Propagated(rejoined.Cause()))
      ensures closedSecure.Ok? && old(unsecureClient).Some? && closedUnsecure.Ok? && rejoined.Ok? && !newClient.Ok? ==>
                r == Failure(Propagated(newClient.Cause()))
      ensures closedSecure.Ok? && old(unsecureClient).Some? && closedUnsecure.Ok? && rejoined.Ok? && newClient.Ok?
              && !newSession.Ok? ==>
                r == Failure(Propagated(newSession.Cause()))
      ensures r.Success? ==>
                && entryEncrypted == rejoined.value
                && (unsecureClient.Some? <==> old(unsecureClient).Some?)
                && (entryUnencrypted.Some? <==> old(unsecureClient).Some?)
                && (old(unsecureClient).Some? ==>
                      unsecureClient == Some(newClient.value) && entryUnencrypted == Some(newSession.value))
      // the rejoin itself failed: the entry points and clients are as they were
      ensures !closedSecure.Ok? || (old(unsecureClient).Some? && !closedUnsecure.Ok?) || !rejoined.Ok? ==>
                && entryEncrypted == old(entryEncrypted)
                && unsecureClient == old(unsecureClient) && entryUnencrypted == old(entryUnencrypted)
      // the rejoin succeeded but the new unencrypted client could not be made
      ensures closedSecure.Ok? && old(unsecureClient).Some? && closedUnsecure.Ok? && rejoined.Ok?
              && !newClient.Ok? ==>
                && entryEncrypted == rejoined.value && unsecureClient.None? && entryUnencrypted.None?
      // the new client exists but its session could not be obtained
      ensures closedSecure.Ok? && old(unsecureClient).Some? && closedUnsecure.Ok? && rejoined.Ok?
              && newClient.Ok? && !newSession.Ok? ==>
                && entryEncrypted == rejoined.value
                && unsecureClient == Some(newClient.value) && entryUnencrypted.None?
    {
      statelessServices := map[];
      reServices := map[];
      statefulServices := map[];
      r := CloseSessions(closedSecure, closedUnsecure);
      if r.Success? {
        calls := calls + [Call.JoinSession(secureClient)];
        if !rejoined.Ok? {
          r := Failure(Propagated(rejoined.Cause()));
        } else {
          entryEncrypted := rejoined.value;
          if unsecureClient.Some? {
            r := RecreateUnencrypted(newClient, newSession);
          }
        }
      }
    }

    /** The first step of joinSession: the secure session is closed
        locally (`closedSecure`), then the unencrypted one if there is one
        (`closedUnsecure`); the first failure propagates. */
    method CloseSessions(closedSecure: Outcome<()>, closedUnsecure: Outcome<()>) returns (r: Result<()>)
      modifies this`calls
      ensures calls == old(calls) + [CloseSession(secureClient)]
                + (if closedSecure.Ok? && unsecureClient.Some? then [CloseSession(unsecureClient.value)] else [])
      ensures r.Success? <==> closedSecure.Ok? && (unsecureClient.Some? ==> closedUnsecure.Ok?)
      ensures !closedSecure.Ok? ==> r == Failure(Propagated(closedSecure.Cause()))
      ensures closedSecure.Ok? && unsecureClient.Some? && !closedUnsecure.Ok? ==>
                r == Failure(Propagated(closedUnsecure.Cause()))
    {
      calls := calls + [CloseSession(secureClient)];
      if !closedSecure.Ok? {
        return Failure(Propagated(closedSecure.Cause()));
      }
      r := Success(());
      if unsecureClient.Some? {
        calls := calls + [CloseSession(unsecureClient.value)];
        if !closedUnsecure.Ok? {
          r := Failure(Propagated(closedUnsecure.Cause()));
        }
      }
    }

    /** The unencrypted half of joinSession: the old client and its entry
        point are forgotten, a new client is created (`newClient`) and then
        its entry point obtained (`newSession`); the first failure propagates
        and leaves what was obtained before it. */
    method RecreateUnencrypted(newClient: Outcome<Client>, newSession: Outcome<Entry>) returns (r: Result<()>)
      requires Valid()
      modifies this`unsecureClient, this`entryUnencrypted, this`calls
      ensures Valid()
      ensures calls == old(calls) + [CreateClient(secureClient)]
                + (if newClient.Ok? then [GetSession(newClient.value)] else [])
      ensures r.Success? <==> newClient.Ok? && newSession.Ok?
      ensures !newClient.Ok? ==> r == Failure(Propagated(newClient.Cause()))
      ensures newClient.Ok? && !newSession.Ok? ==> r == Failure(Propagated(newSession.Cause()))
      ensures unsecureClient == if newClient.Ok? then Some(newClient.value) else None
      ensures entryUnencrypted == if newClient.Ok? && newSession.Ok? then Some(newSession.value) else None
    {
      unsecureClient := None;
      entryUnencrypted := None;
      calls := calls + [CreateClient(secureClient)];
      if !newClient.Ok? {
        return Failure(Propagated(newClient.Cause()));
      }
      unsecureClient := Some(newClient.value);
      calls := calls + [GetSession(newClient.value)];
      if !newSession.Ok? {
        return Failure(Propagated(newSession.Cause()));
      }
      entryUnencrypted := Some(newSession.value);
      r := Success(());
    }
  }
}
