/** The values the connector handles without looking inside them: the
    references the server hands out, the outcome of each remote call, the
    errors the connector raises, and the log of remote calls it makes. */
module GatewayTypes {

  datatype Option<+T> = None | Some(value: T)

  /** Why a remote call failed: Ice's ObjectNotExistException, or any other
      exception. */
  datatype Cause = ObjectNotExist | OtherFailure

  /** What a remote call did: it returned a value, or it threw. */
  datatype Outcome<+T> = Ok(value: T) | NotExist | Failed
  {
    function Cause(): Cause
      requires !Ok?
    {
      if NotExist? then ObjectNotExist else OtherFailure
    }
  }

  /** The exceptions the connector lets reach its caller. */
  datatype Error =
    | OutOfService(message: string, cause: Cause)  // DSOutOfServiceException wrapping the remote failure
    | IllegalArgument(message: string)             // IllegalArgumentException from the constructor
    | Propagated(cause: Cause)                     // a remote failure rethrown as it is
    | Execution(cause: Cause)                      // ExecutionException: the cache's loader threw a checked exception
    | UncheckedExecution(cause: Cause)             // UncheckedExecutionException: the loader threw an unchecked one

  datatype Result<+T> = Success(value: T) | Failure(error: Error)

  /** A service proxy. Its kind is the Java type of the proxy object, fixed by
      the call that produced it: `getByName` gives a ServiceInterfacePrx,
      `createByName` a StatefulServiceInterfacePrx, `createRenderingEngine` a
      RenderingEnginePrx. `ref` is the server's opaque reference. */
  datatype Kind = Service | Stateful | RenderingEngine
  datatype Proxy = Proxy(kind: Kind, ref: nat)

  /** A ServiceFactoryPrx entry point, an omero.client, an import store
      (OMEROMetadataStoreClient) and a derived connector, all opaque. */
  datatype Entry = Entry(ref: nat)
  datatype Client = Client(ref: nat)
  datatype ImportStore = ImportStore(ref: nat)
  datatype DerivedConnector = DerivedConnector(ref: nat)

  /** The security context: the group the connector works in. */
  datatype SecurityContext = SecurityContext(groupId: int)

  /** What `getConnector` hands back: the connector itself or a derived one. */
  datatype ConnectorRef = Self | Derived(child: DerivedConnector)

  /** One remote (or transport-level) call the connector made. */
  datatype Call =
    | GetByName(entry: Entry, name: string)
    | CreateByName(entry: Entry, name: string)
    | CreateRenderingEngine(entry: Entry)
    | SetCompressionLevel(engine: Proxy, level: real)
    | InitializeImportStore(store: ImportStore, entry: Entry)
    | CloseImportServices(store: ImportStore)
    | KeepAllAlive(entry: Entry)
    | CloseProxy(proxy: Proxy)
    | LoadDerived(userName: string)
    | CloseDerived(child: DerivedConnector, networkUp: bool)
    | SetFastShutdown(client: Client, fast: bool)
    | DetachOnDestroy(client: Client)
    | Destroy(client: Client)
    | CloseSession(client: Client)
    | JoinSession(client: Client)
    | CreateClient(client: Client)
    | GetSession(client: Client)

  /** A call that shuts a service down: closing a proxy or the import store. */
  predicate IsServiceClose(c: Call)
  {
    c.CloseProxy? || c.CloseImportServices?
  }

  /** `s` closes each proxy of `ps` exactly once and does nothing else: it
      lists the closes of `ps` in some order, without repeats. */
  ghost predicate ClosesExactly(s: seq<Call>, ps: set<Proxy>)
    decreases |s|
  {
    if s == [] then ps == {}
    else s[0].CloseProxy? && s[0].proxy in ps && ClosesExactly(s[1..], ps - {s[0].proxy})
  }

  /** Closing one proxy is a run that closes exactly that proxy. */
  lemma ClosesOne(p: Proxy)
    ensures ClosesExactly([CloseProxy(p)], {p})
  {
    assert [CloseProxy(p)][1..] == [];
  }

  /** Two runs of closes over disjoint sets of proxies close their union. */
  lemma {:induction false} ClosesExactlyAppend(s: seq<Call>, a: set<Proxy>, t: seq<Call>, b: set<Proxy>)
    requires ClosesExactly(s, a) && ClosesExactly(t, b) && a !! b
    ensures ClosesExactly(s + t, a + b)
    decreases |s|
  {
    if s == [] {
      assert s + t == t && a + b == b;
    } else {
      var x := s[0].proxy;
      ClosesExactlyAppend(s[1..], a - {x}, t, b);
      assert (s + t)[1..] == s[1..] + t;
      assert (a + b) - {x} == (a - {x}) + b;
    }
  }

  /** A run of closes is as long as the set it closes. */
  lemma {:induction false} ClosesExactlyCount(s: seq<Call>, ps: set<Proxy>)
    requires ClosesExactly(s, ps)
    ensures |s| == |ps|
    decreases |s|
  {
    if s != [] {
      ClosesExactlyCount(s[1..], ps - {s[0].proxy});
    }
  }

  /** A run that closes exactly `ps` holds a close of each proxy of `ps`. */
  lemma {:induction false} ClosesExactlyMember(s: seq<Call>, ps: set<Proxy>, p: Proxy)
    requires ClosesExactly(s, ps) && p in ps
    ensures CloseProxy(p) in s
    decreases |s|
  {
    if s[0].proxy != p {
      ClosesExactlyMember(s[1..], ps - {s[0].proxy}, p);
    }
  }

  /** Every call of a run that closes exactly `ps` closes a proxy of `ps`. */
  lemma {:induction false} ClosesExactlyElement(s: seq<Call>, ps: set<Proxy>, i: int)
    requires ClosesExactly(s, ps) && 0 <= i < |s|
    ensures s[i].CloseProxy? && s[i].proxy in ps
    decreases |s|
  {
    if i > 0 {
      ClosesExactlyElement(s[1..], ps - {s[0].proxy}, i - 1);
    }
  }

  /** Logging a run of calls after the run a log already ends with extends
      that run. */
  lemma LogAppend(log: seq<Call>, run: seq<Call>, more: seq<Call>)
    ensures log + run + more == log + (run + more)
  {
  }

  /** `s` is what shutting the services down logs: a close of each proxy of
      `stateful`, then the import store's close when there is a `store`, then
      a close of each proxy of `engines`; each proxy is closed once. */
  ghost predicate ShutdownLog(s: seq<Call>, stateful: set<Proxy>, store: Option<ImportStore>, engines: set<Proxy>)
  {
    var k := if store.Some? then 1 else 0;
    && |stateful| + k <= |s|
    && ClosesExactly(s[..|stateful|], stateful)
    && (store.Some? ==> s[|stateful|] == CloseImportServices(store.value))
    && ClosesExactly(s[|stateful| + k..], engines)
  }

  /** The three runs make a shutdown log. */
  lemma ShutdownLogOf(s1: seq<Call>, stateful: set<Proxy>, s2: seq<Call>, store: Option<ImportStore>,
                      s3: seq<Call>, engines: set<Proxy>)
    requires ClosesExactly(s1, stateful) && ClosesExactly(s3, engines)
    requires s2 == if store.Some? then [CloseImportServices(store.value)] else []
    ensures ShutdownLog(s1 + s2 + s3, stateful, store, engines)
  {
    ClosesExactlyCount(s1, stateful);
    assert (s1 + s2 + s3)[..|s1|] == s1;
    assert (s1 + s2 + s3)[|s1| + |s2|..] == s3;
  }

  /** A shutdown log makes one call per proxy and one for the store. */
  lemma ShutdownLogCount(s: seq<Call>, stateful: set<Proxy>, store: Option<ImportStore>, engines: set<Proxy>)
    requires ShutdownLog(s, stateful, store, engines)
    ensures |s| == |stateful| + (if store.Some? then 1 else 0) + |engines|
  {
    var k := if store.Some? then 1 else 0;
    ClosesExactlyCount(s[..|stateful|], stateful);
    ClosesExactlyCount(s[|stateful| + k..], engines);
  }

  /** A shutdown log closes services and nothing else: every proxy of
      `stateful` and `engines` and the store, and no other call. */
  lemma ShutdownLogCloses(s: seq<Call>, stateful: set<Proxy>, store: Option<ImportStore>, engines: set<Proxy>)
    requires ShutdownLog(s, stateful, store, engines)
    ensures forall p :: p in stateful + engines ==> CloseProxy(p) in s
    ensures store.Some? ==> CloseImportServices(store.value) in s
    ensures forall c :: c in s ==> IsServiceClose(c)
    ensures forall c :: c in s && c.CloseProxy? ==> c.proxy in stateful + engines
  {
    var k := if store.Some? then 1 else 0;
    var n := |stateful|;
    ClosesExactlyCount(s[..n], stateful);
    forall p | p in stateful + engines ensures CloseProxy(p) in s {
      if p in stateful {
        ClosesExactlyMember(s[..n], stateful, p);
        assert s == s[..n] + s[n..];
      } else {
        ClosesExactlyMember(s[n + k..], engines, p);
        assert s == s[..n + k] + s[n + k..];
      }
    }
    forall c | c in s ensures IsServiceClose(c) && (c.CloseProxy? ==> c.proxy in stateful + engines) {
      var i :| 0 <= i < |s| && s[i] == c;
      if i < n {
        ClosesExactlyElement(s[..n], stateful, i);
      } else if i >= n + k {
        ClosesExactlyElement(s[n + k..], engines, i - n - k);
      }
    }
  }

  /** The whitespace of java.lang.Character.isWhitespace from Java 9 on
      (Unicode 8.0 and later; on Java 7 and 8 U+180E is whitespace too): the
      Unicode space,
      line and paragraph separators other than the non-breaking ones, and the
      control characters U+0009 to U+000D and U+001C to U+001F. */
  predicate IsWhitespace(c: char)
  {
    || '\U{0009}' <= c <= '\U{000D}'
    || '\U{001C}' <= c <= '\U{001F}'
    || c == ' '
    || c == '\U{1680}'
    || ('\U{2000}' <= c <= '\U{200A}' && c != '\U{2007}')
    || c == '\U{2028}' || c == '\U{2029}'
    || c == '\U{205F}' || c == '\U{3000}'
  }

  /** StringUtils.isBlank: null, empty, or whitespace only. */
  predicate IsBlank(s: Option<string>)
  {
    s.None? || forall i :: 0 <= i < |s.value| ==> IsWhitespace(s.value[i])
  }

  /** The constructor's argument checks, in the order it makes them: the
      first missing argument names the error, and all three present means no
      error. */
  function ArgumentError(context: Option<SecurityContext>, client: Option<Client>, entry: Option<Entry>): (r: Option<Error>)
    ensures r.None? <==> context.Some? && client.Some? && entry.Some?
    ensures context.None? ==> r == Some(IllegalArgument("No Security context."))
    ensures context.Some? && client.None? ==> r == Some(IllegalArgument("No Server entry point."))
    ensures context.Some? && client.Some? && entry.None? ==> r == Some(IllegalArgument("No Services entry point."))
  {
    if context.None? then Some(IllegalArgument("No Security context."))
    else if client.None? then Some(IllegalArgument("No Server entry point."))
    else if entry.None? then Some(IllegalArgument("No Services entry point."))
    else None
  }
}
