/**
 * The discovery client: registered providers, a discovery run that queries
 * every provider and keeps the handlers passing the liveness probe, and
 * teardown of the discovered instances.
 *
 * Provider.Query, the liveness probe run by vpp.NewInstance and a handler's
 * Close are calls into code outside this model; they appear as oracle
 * functions passed in. The goroutine-per-provider fan-out and the channel
 * fan-in are modelled by a loop over `arrival`, the order in which the
 * providers' results reach the channel: any permutation of the providers.
 */
module ProbeClient {
  import opened Wrappers
  import opened Seqs

  /** A handler returned by a provider (polymorphic over environments; only its identity matters here). */
  datatype Handler = Handler(key: nat)

  /** An instance: a handler that passed the liveness probe. */
  datatype Instance = Instance(handler: Handler)

  /** A provider: its unique name and how it prints with `%v`. */
  datatype Provider = Provider(name: string, display: string)

  /** What Provider.Query returns: the handlers found, or the error. */
  type QueryResult = Result<seq<Handler>, string>

  /** vpp.NewInstance: nil error when the handler passes the probe. */
  type Probe = Handler -> Option<string>

  const NoProvidersError := "no providers available"
  const NoInstancesError := "no instances discovered"

  function DuplicateProviderError(existing: Provider): string
  {
    "provider '" + existing.display + "' already added"
  }

  predicate UniqueNames(ps: seq<Provider>)
  {
    forall i, j :: 0 <= i < j < |ps| ==> ps[i].name != ps[j].name
  }

  /** The instance a handler yields: one when it passes the probe, none otherwise. */
  function Probed(probe: Probe): Handler -> seq<Instance>
  {
    h => if probe(h).None? then [Instance(h)] else []
  }

  /** The instances built from `handlers`, in handler order. */
  function Live(handlers: seq<Handler>, probe: Probe): seq<Instance>
  {
    FlatMap(handlers, Probed(probe))
  }

  /** What one provider contributes to a discovery run. */
  function Found(query: Provider -> QueryResult, probe: Probe): Provider -> seq<Instance>
  {
    p => if query(p).Ok? then Live(query(p).value, probe) else []
  }

  /** The handler when its Close fails (the failure is logged), nothing otherwise. */
  function CloseFailed(closeHandler: Handler -> Option<string>): Handler -> seq<Handler>
  {
    h => if closeHandler(h).Some? then [h] else []
  }

  /** A handler's instance is kept exactly when the handler was returned and passed the probe. */
  lemma LiveMembers(handlers: seq<Handler>, probe: Probe, inst: Instance)
    ensures inst in Live(handlers, probe) <==> inst.handler in handlers && probe(inst.handler).None?
  {
    FlatMapMembers(handlers, Probed(probe), inst);
    if inst.handler in handlers && probe(inst.handler).None? {
      var i :| 0 <= i < |handlers| && handlers[i] == inst.handler;
      assert inst in Probed(probe)(handlers[i]);
    }
  }

  /**
   * A discovery run's result holds an instance exactly when some registered
   * provider's query succeeded, returned its handler, and the handler passed the probe.
   */
  lemma DiscoveredExactly(providers: seq<Provider>, arrival: seq<Provider>,
                          query: Provider -> QueryResult, probe: Probe, inst: Instance)
    requires multiset(arrival) == multiset(providers)
    ensures inst in FlatMap(arrival, Found(query, probe)) <==>
            exists p :: p in providers && query(p).Ok? && inst.handler in query(p).value && probe(inst.handler).None?
  {
    FlatMapMembers(arrival, Found(query, probe), inst);
    if inst in FlatMap(arrival, Found(query, probe)) {
      var i :| 0 <= i < |arrival| && inst in Found(query, probe)(arrival[i]);
      var p := arrival[i];
      assert p in multiset(providers);
      LiveMembers(query(p).value, probe, inst);
    }
    if exists p :: p in providers && query(p).Ok? && inst.handler in query(p).value && probe(inst.handler).None? {
      var p :| p in providers && query(p).Ok? && inst.handler in query(p).value && probe(inst.handler).None?;
      assert p in multiset(arrival);
      var i :| 0 <= i < |arrival| && arrival[i] == p;
      LiveMembers(query(p).value, probe, inst);
      assert inst in Found(query, probe)(arrival[i]);
    }
  }

  /** The order in which the providers report changes the order of the result, never its contents. */
  lemma DiscoveryOrderIrrelevant(providers: seq<Provider>, arrival1: seq<Provider>, arrival2: seq<Provider>,
                                 query: Provider -> QueryResult, probe: Probe)
    requires multiset(arrival1) == multiset(providers)
    requires multiset(arrival2) == multiset(providers)
    ensures multiset(FlatMap(arrival1, Found(query, probe))) == multiset(FlatMap(arrival2, Found(query, probe)))
  {
    FlatMapPermutation(arrival1, arrival2, Found(query, probe));
  }

  /**
   * The package-level DiscoverInstances: queries one provider and keeps the
   * handlers whose probe succeeds; a failed query yields no instances and its error.
   */
  method DiscoverProviderInstances(provider: Provider, query: Provider -> QueryResult, probe: Probe)
    returns (instances: seq<Instance>, err: Option<string>)
    ensures query(provider).Err? ==> instances == [] && err == Some(query(provider).error)
    ensures query(provider).Ok? ==> err == None && instances == Live(query(provider).value, probe)
  {
    var handlers: seq<Handler>;
    match query(provider)
    case Err(e) =>
      return [], Some(e);
    case Ok(hs) =>
      handlers := hs;

    instances := [];
    var i := 0;
    while i < |handlers|
      invariant 0 <= i <= |handlers|
      invariant instances == Live(handlers[..i], probe)
    {
      var handler := handlers[i];
      FlatMapSnoc(handlers[..i], handler, Probed(probe));
      assert handlers[..i + 1] == handlers[..i] + [handler];
      i := i + 1;
      if probe(handler).Some? {
        continue;
      }
      instances := instances + [Instance(handler)];
    }
    assert handlers[..i] == handlers;
    err := None;
  }

  class Client {
    var providers: seq<Provider>
    var instances: seq<Instance>
    /** Every provider queried so far, in the order their results arrived. */
    ghost var queried: seq<Provider>

    /** NewClient without options. */
    constructor ()
      ensures providers == [] && instances == [] && queried == []
    {
      providers := [];
      instances := [];
      queried := [];
    }

    /**
     * Registers a provider unless one with the same name is registered
     * already; the error names the provider registered first.
     */
    method AddProvider(provider: Provider) returns (err: Option<string>)
      modifies this`providers
      ensures err.Some? <==> exists i :: 0 <= i < |old(providers)| && old(providers)[i].name == provider.name
      ensures err.Some? ==> providers == old(providers)
      ensures err.Some? ==> exists i :: 0 <= i < |old(providers)| && old(providers)[i].name == provider.name
                              && err.value == DuplicateProviderError(old(providers)[i])
                              && forall j :: 0 <= j < i ==> old(providers)[j].name != provider.name
      ensures err.None? ==> providers == old(providers) + [provider]
      ensures UniqueNames(old(providers)) ==> UniqueNames(providers)
    {
      var i := 0;
      while i < |providers|
        invariant 0 <= i <= |providers|
        invariant forall j :: 0 <= j < i ==> providers[j].name != provider.name
      {
        if providers[i].name == provider.name {
          return Some(DuplicateProviderError(providers[i]));
        }
        i := i + 1;
      }
      providers := providers + [provider];
      err := None;
    }

    /**
     * One discovery run. Fails without querying when no provider is
     * registered; otherwise replaces `instances` by what the providers
     * found, concatenated in arrival order, and fails when that is empty.
     */
    method DiscoverInstances(query: Provider -> QueryResult, probe: Probe, arrival: seq<Provider>)
      returns (err: Option<string>)
      requires multiset(arrival) == multiset(providers)
      modifies this`instances, this`queried
      ensures old(providers) == [] ==> err == Some(NoProvidersError) && instances == old(instances) && queried == old(queried)
      ensures old(providers) != [] ==> queried == old(queried) + arrival
      ensures old(providers) != [] ==> instances == FlatMap(arrival, Found(query, probe))
      ensures old(providers) != [] ==> err == (if instances == [] then Some(NoInstancesError) else None)
    {
      if |providers| == 0 {
        return Some(NoProvidersError);
      }
      var list: seq<Instance> := [];
      var k := 0;
      while k < |arrival|
        invariant 0 <= k <= |arrival|
        invariant list == FlatMap(arrival[..k], Found(query, probe))
        invariant queried == old(queried) + arrival[..k]
      {
        queried := queried + [arrival[k]];
        var found, queryErr := DiscoverProviderInstances(arrival[k], query, probe);
        FlatMapSnoc(arrival[..k], arrival[k], Found(query, probe));
        assert arrival[..k + 1] == arrival[..k] + [arrival[k]];
        if |found| > 0 {
          list := list + found;
        }
        k := k + 1;
      }
      assert arrival[..k] == arrival;
      instances := list;
      if |instances| == 0 {
        return Some(NoInstancesError);
      }
      return None;
    }

    /**
     * Closes every instance's handler in order, going on after a failure;
     * `closed` lists the handlers closed, `logged` those whose Close failed.
     * Always returns a nil error.
     */
    method Close(closeHandler: Handler -> Option<string>)
      returns (err: Option<string>, closed: seq<Handler>, logged: seq<Handler>)
      ensures err == None
      ensures |closed| == |instances|
      ensures forall i :: 0 <= i < |instances| ==> closed[i] == instances[i].handler
      ensures logged == FlatMap(closed, CloseFailed(closeHandler))
    {
      closed, logged := [], [];
      var i := 0;
      while i < |instances|
        invariant 0 <= i <= |instances|
        invariant |closed| == i
        invariant forall j :: 0 <= j < i ==> closed[j] == instances[j].handler
        invariant logged == FlatMap(closed, CloseFailed(closeHandler))
      {
        var handler := instances[i].handler;
        FlatMapSnoc(closed, handler, CloseFailed(closeHandler));
        closed := closed + [handler];
        if closeHandler(handler).Some? {
          logged := logged + [handler];
        }
        i := i + 1;
      }
      err := None;
    }
  }
}
