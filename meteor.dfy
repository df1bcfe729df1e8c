/**
 * Meteor: a per-connection handle over an AtmosphereResource, and the
 * registry that maps each resource to its handle. The registry is an
 * object passed to build and remembered by each handle, rather than a
 * static map.
 */
module MeteorHandle {
  import opened Wrappers
  import opened Collaborators
  import opened Lifecycle

  /** The request attributes build and lookup use, and all others. */
  datatype AttrName = AtmosphereResourceKey | MeteorKey | SkipBroadcasterCreationKey | OtherKey(name: string)

  /** A request attribute value (an absent attribute is Java's null). */
  datatype Attribute =
    | ResourceValue(resource: Resource)
    | MeteorValue(meteor: Meteor)
    | BoolValue(flag: bool)
    | OtherValue(text: string)

  /** The HttpServletRequest, reduced to its attributes. */
  class Request {
    var attributes: map<AttrName, Attribute>

    constructor (attributes: map<AttrName, Attribute>)
      ensures this.attributes == attributes
    {
      this.attributes := attributes;
    }
  }

  /** The resource bound to a request, if the ATMOSPHERE_RESOURCE attribute holds one. */
  function BoundResource(attributes: map<AttrName, Attribute>): Option<Resource> {
    if AtmosphereResourceKey in attributes && attributes[AtmosphereResourceKey].ResourceValue?
    then Some(attributes[AtmosphereResourceKey].resource)
    else None
  }

  /** A null filter list adds no filter. */
  function FilterList(l: Option<seq<Filter>>): seq<Filter> {
    if l.Some? then l.value else []
  }

  /** The exceptions build throws. */
  datatype BuildError =
    | NotBound       // IllegalStateException: no ATMOSPHERE_RESOURCE attribute
    | NotAResource   // ClassCastException: the attribute is not an AtmosphereResource
    | FactoryFailed  // RuntimeException wrapping a BroadcasterFactory failure

  /** The exception lookup throws. */
  datatype LookupError = NullKey  // NullPointerException from ConcurrentHashMap.get(null)

  /** The registry of handles, keyed by resource. */
  class Registry {
    var cache: map<Resource, Meteor>

    constructor ()
      ensures cache == map[] && Valid()
    {
      cache := map[];
    }

    /** Every entry maps a resource to a live handle of this registry bound to that resource. */
    ghost predicate Valid()
      reads this, cache.Values
    {
      forall k | k in cache :: cache[k].r == k && cache[k].registry == this && !cache[k].destroyed
    }

    /** ConcurrentHashMap.get: a pure read. */
    function Get(key: Resource): (m: Option<Meteor>)
      reads this
      ensures m.Some? <==> key in cache
      ensures m.Some? ==> cache[key] == m.value
    {
      if key in cache then Some(cache[key]) else None
    }

    /** ConcurrentHashMap.put: inserts, overwriting any entry for the key. */
    method Put(key: Resource, m: Meteor)
      modifies this
      ensures cache == old(cache)[key := m]
    {
      cache := cache[key := m];
    }

    /** ConcurrentHashMap.remove: removing an absent key changes nothing. */
    method Remove(key: Resource)
      modifies this
      ensures cache == old(cache) - {key}
    {
      cache := cache - {key};
    }
  }

  class Meteor {
    const r: Resource
    const registry: Registry
    var attachment: Payload
    var destroyed: bool

    /** The state the operations below change, as the Lifecycle module sees it. */
    function View(): Snapshot<Meteor>
      reads this, r, registry
    {
      Snapshot(registry.cache, r, destroyed, attachment, r.broadcaster, r.serializer, r.transport, r.calls)
    }

    /**
     * The private constructor: sets the serializer (even a null one), adds
     * the filters to the broadcaster's config in list order, and registers
     * the new handle, overwriting any entry for r.
     */
    constructor (registry: Registry, r: Resource, l: Option<seq<Filter>>, s: Option<Serializer>)
      modifies registry, r, r.broadcaster
      ensures this.r == r && this.registry == registry
      ensures attachment == Null && !destroyed
      ensures r.serializer == s
      ensures r.broadcaster == old(r.broadcaster)
      ensures r.broadcaster.filters == old(r.broadcaster.filters) + FilterList(l)
      ensures r.broadcaster.scope == old(r.broadcaster.scope)
      ensures r.calls == old(r.calls) && r.transport == old(r.transport)
      ensures registry.cache == old(registry.cache)[r := this]
      ensures old(registry.Valid()) ==> registry.Valid()
    {
      this.r := r;
      this.registry := registry;
      attachment := Null;
      destroyed := false;
      new;
      r.serializer := s;
      if l.Some? {
        var filters := l.value;
        for i := 0 to |filters|
          invariant r.broadcaster == old(r.broadcaster)
          invariant r.broadcaster.filters == old(r.broadcaster.filters) + filters[..i]
          invariant r.broadcaster.scope == old(r.broadcaster.scope)
          invariant r.serializer == s && r.calls == old(r.calls) && r.transport == old(r.transport)
          invariant registry.cache == old(registry.cache)
          invariant attachment == Null && !destroyed
        {
          r.broadcaster.filters := r.broadcaster.filters + [filters[i]];
        }
        assert filters[..|filters|] == filters;
      }
      registry.Put(r, this);
    }

    /** suspend(l): holds the response open for l (a negative l: forever). */
    method Suspend(timeout: int) returns (res: Option<Meteor>)
      modifies r
      ensures res == if destroyed then None else Some(this)
      ensures destroyed ==> unchanged(r)
      ensures View() == Step(old(View()), Op.Suspend(timeout))
    {
      if destroyed { return None; }
      r.calls := r.calls + [SuspendCall(timeout)];
      return Some(this);
    }

    /** suspend(timeout, timeunit). */
    method SuspendFor(timeout: int, unit: TimeUnit) returns (res: Option<Meteor>)
      modifies r
      ensures res == if destroyed then None else Some(this)
      ensures destroyed ==> unchanged(r)
      ensures View() == Step(old(View()), Op.SuspendFor(timeout, unit))
    {
      if destroyed { return None; }
      r.calls := r.calls + [SuspendForCall(timeout, unit)];
      return Some(this);
    }

    /** resumeOnBroadcast(flag): delegated whatever the flag says. */
    method ResumeOnBroadcast(flag: bool) returns (res: Meteor)
      modifies r
      ensures res == this
      ensures View() == Step(old(View()), Op.ResumeOnBroadcast(flag))
    {
      r.calls := r.calls + [ResumeOnBroadcastCall(flag)];
      return this;
    }

    /** transport(): a read of the resource, whatever the flag says. */
    function Transport(): (t: TransportKind)
      reads this, r
      ensures t == r.transport
    {
      r.transport
    }

    /**
     * resume(): delegates resume to r, then removes r from the registry;
     * it does not set the destroyed flag.
     */
    method Resume() returns (res: Option<Meteor>)
      modifies r, registry
      ensures res == if destroyed then None else Some(this)
      ensures destroyed ==> unchanged(r)
      ensures View() == Step(old(View()), Op.Resume)
      ensures old(registry.Valid()) ==> registry.Valid()
    {
      if destroyed { return None; }
      r.calls := r.calls + [ResumeCall];
      registry.Remove(r);
      return Some(this);
    }

    /** broadcast(o): to r's current broadcaster. */
    method Broadcast(o: Payload) returns (res: Option<Meteor>)
      modifies r
      ensures res == if destroyed then None else Some(this)
      ensures destroyed ==> unchanged(r)
      ensures View() == Step(old(View()), Op.Broadcast(o))
    {
      if destroyed { return None; }
      r.calls := r.calls + [BroadcastCall(r.broadcaster, o)];
      return Some(this);
    }

    /** schedule(o, period): a fixed-period broadcast, the period in seconds. */
    method Schedule(o: Payload, period: int) returns (res: Option<Meteor>)
      modifies r
      ensures res == if destroyed then None else Some(this)
      ensures destroyed ==> unchanged(r)
      ensures View() == Step(old(View()), Op.Schedule(o, period))
    {
      if destroyed { return None; }
      r.calls := r.calls + [ScheduleFixedCall(r.broadcaster, o, period, Seconds)];
      return Some(this);
    }

    /** delayBroadadcast(o, period): a delayed broadcast, the delay in seconds. */
    method DelayBroadadcast(o: Payload, period: int) returns (res: Option<Meteor>)
      modifies r
      ensures res == if destroyed then None else Some(this)
      ensures destroyed ==> unchanged(r)
      ensures View() == Step(old(View()), Op.DelayBroadcast(o, period))
    {
      if destroyed { return None; }
      r.calls := r.calls + [DelayCall(r.broadcaster, o, period, Seconds)];
      return Some(this);
    }

    /** getBroadcaster(): r's broadcaster, or null once destroyed. */
    function GetBroadcaster(): (b: Option<Broadcaster>)
      reads this, r
      ensures b.None? <==> destroyed
      ensures b.Some? ==> b.value == r.broadcaster
    {
      if destroyed then None else Some(r.broadcaster)
    }

    /** setBroadcaster(b): ignored once destroyed. */
    method SetBroadcaster(b: Broadcaster)
      modifies r
      ensures destroyed ==> unchanged(r)
      ensures View() == Step(old(View()), Op.SetBroadcaster(b))
    {
      if destroyed { return; }
      r.broadcaster := b;
    }

    /** attachement(): not guarded by the flag. */
    function Attachement(): (o: Payload)
      reads this
      ensures o == attachment
    {
      attachment
    }

    /** attach(o): not guarded by the flag. */
    method Attach(o: Payload)
      modifies this
      ensures View() == Step(old(View()), Op.Attach(o))
      ensures old(registry.Valid()) ==> registry.Valid()
    {
      attachment := o;
    }

    /** addListener(e): ignored once destroyed, but returns this either way. */
    method AddListener(e: Listener) returns (res: Meteor)
      modifies r
      ensures res == this
      ensures destroyed ==> unchanged(r)
      ensures View() == Step(old(View()), Op.AddListener(e))
    {
      if !destroyed {
        r.calls := r.calls + [AddListenerCall(e)];
      }
      return this;
    }

    /** removeListener(e): ignored once destroyed, but returns this either way. */
    method RemoveListener(e: Listener) returns (res: Meteor)
      modifies r
      ensures res == this
      ensures destroyed ==> unchanged(r)
      ensures View() == Step(old(View()), Op.RemoveListener(e))
    {
      if !destroyed {
        r.calls := r.calls + [RemoveListenerCall(e)];
      }
      return this;
    }

    /** destroy(): sets the flag and removes r from the registry; it does not resume r. */
    method Destroy()
      modifies this, registry
      ensures View() == Step(old(View()), Op.Destroy)
      ensures old(registry.Valid()) ==> registry.Valid()
    {
      destroyed := true;
      registry.Remove(r);
    }

    /** getAtmosphereResource(): the resource given at construction, destroyed or not. */
    function GetAtmosphereResource(): (x: Resource)
      ensures x == r
    {
      r
    }

    /** Meteor.lookup as written: a request without the attribute makes the map throw. */
    static function LookupAsWritten(registry: Registry, req: Request): (res: Result<Option<Meteor>, LookupError>)
      reads registry, req
      ensures res.Failure? <==> AtmosphereResourceKey !in req.attributes
      ensures res.Success? ==> res.value == Lookup(registry, req)
    {
      if AtmosphereResourceKey !in req.attributes then Failure(NullKey)
      else Success(match req.attributes[AtmosphereResourceKey]
        case ResourceValue(x) => registry.Get(x)
        case _ => None)
    }

    /**
     * Meteor.lookup as documented: the handle registered for the request's
     * resource, or none, also when the request has no resource at all.
     */
    static function Lookup(registry: Registry, req: Request): (m: Option<Meteor>)
      reads registry, req
      ensures BoundResource(req.attributes).None? ==> m.None?
      ensures m.Some? <==> BoundResource(req.attributes).Some? && BoundResource(req.attributes).value in registry.cache
      ensures m.Some? ==> m.value == registry.cache[BoundResource(req.attributes).value]
    {
      match BoundResource(req.attributes)
      case None => None
      case Some(x) => registry.Get(x)
    }

    /** build(req): APPLICATION scope, no filters, no serializer. */
    static method Build(registry: Registry, req: Request) returns (res: Result<Meteor, BuildError>)
      modifies registry, req
      modifies if BoundResource(req.attributes).Some?
        then {BoundResource(req.attributes).value, BoundResource(req.attributes).value.broadcaster} else {}
      ensures res.Failure? <==> BoundResource(old(req.attributes)).None?
      ensures res.Failure? ==> res.error == ExpectedError(old(req.attributes))
      ensures res.Failure? ==> registry.cache == old(registry.cache) && req.attributes == old(req.attributes)
      ensures res.Success? ==>
        var x, m := BoundResource(old(req.attributes)).value, res.value;
        && fresh(m) && m.r == x && m.registry == registry && !m.destroyed && m.attachment == Null
        && registry.cache == old(registry.cache)[x := m]
        && req.attributes == old(req.attributes)[MeteorKey := MeteorValue(m)]
        && x.broadcaster == old(x.broadcaster)
        && x.broadcaster.scope == old(x.broadcaster.scope)
        && x.broadcaster.filters == old(x.broadcaster.filters)
        && x.serializer == None
        && x.calls == old(x.calls) && x.transport == old(x.transport)
      ensures old(registry.Valid()) ==> registry.Valid()
    {
      res := BuildWithSerializer(registry, req, None);
    }

    /** build(req, s): APPLICATION scope, no filters. */
    static method BuildWithSerializer(registry: Registry, req: Request, s: Option<Serializer>)
      returns (res: Result<Meteor, BuildError>)
      modifies registry, req
      modifies if BoundResource(req.attributes).Some?
        then {BoundResource(req.attributes).value, BoundResource(req.attributes).value.broadcaster} else {}
      ensures res.Failure? <==> BoundResource(old(req.attributes)).None?
      ensures res.Failure? ==> res.error == ExpectedError(old(req.attributes))
      ensures res.Failure? ==> registry.cache == old(registry.cache) && req.attributes == old(req.attributes)
      ensures res.Success? ==>
        var x, m := BoundResource(old(req.attributes)).value, res.value;
        && fresh(m) && m.r == x && m.registry == registry && !m.destroyed && m.attachment == Null
        && registry.cache == old(registry.cache)[x := m]
        && req.attributes == old(req.attributes)[MeteorKey := MeteorValue(m)]
        && x.broadcaster == old(x.broadcaster)
        && x.broadcaster.scope == old(x.broadcaster.scope)
        && x.broadcaster.filters == old(x.broadcaster.filters)
        && x.serializer == s
        && x.calls == old(x.calls) && x.transport == old(x.transport)
      ensures old(registry.Valid()) ==> registry.Valid()
    {
      res := BuildWithFilters(registry, req, None, s);
    }

    /** build(req, l, s): APPLICATION scope. */
    static method BuildWithFilters(registry: Registry, req: Request, l: Option<seq<Filter>>, s: Option<Serializer>)
      returns (res: Result<Meteor, BuildError>)
      modifies registry, req
      modifies if BoundResource(req.attributes).Some?
        then {BoundResource(req.attributes).value, BoundResource(req.attributes).value.broadcaster} else {}
      ensures res.Failure? <==> BoundResource(old(req.attributes)).None?
      ensures res.Failure? ==> res.error == ExpectedError(old(req.attributes))
      ensures res.Failure? ==> registry.cache == old(registry.cache) && req.attributes == old(req.attributes)
      ensures res.Success? ==>
        var x, m := BoundResource(old(req.attributes)).value, res.value;
        && fresh(m) && m.r == x && m.registry == registry && !m.destroyed && m.attachment == Null
        && registry.cache == old(registry.cache)[x := m]
        && req.attributes == old(req.attributes)[MeteorKey := MeteorValue(m)]
        && x.broadcaster == old(x.broadcaster)
        && x.broadcaster.scope == old(x.broadcaster.scope)
        && x.broadcaster.filters == old(x.broadcaster.filters) + FilterList(l)
        && x.serializer == s
        && x.calls == old(x.calls) && x.transport == old(x.transport)
      ensures old(registry.Valid()) ==> registry.Valid()
    {
      res := BuildInScope(registry, req, Application, l, s, None);
    }

    /**
     * build(req, scope, l, s). `made` is what the BroadcasterFactory returns
     * for a new DefaultBroadcaster with a random unique name, or None when
     * the factory fails; it is consulted only in REQUEST scope.
     */
    static method BuildInScope(registry: Registry, req: Request, scope: Scope, l: Option<seq<Filter>>,
                               s: Option<Serializer>, made: Option<Broadcaster>)
      returns (res: Result<Meteor, BuildError>)
      modifies registry, req
      modifies if BoundResource(req.attributes).Some?
        then {BoundResource(req.attributes).value, BoundResource(req.attributes).value.broadcaster} else {}
      modifies if scope == Request && made.Some? && BoundResource(req.attributes).Some? then {made.value} else {}
      // the only ways to fail, and then nothing has changed
      ensures res.Failure? <==> BoundResource(old(req.attributes)).None? || (scope == Request && made.None?)
      ensures res.Failure? ==> res.error == ExpectedError(old(req.attributes))
      ensures res.Failure? ==> registry.cache == old(registry.cache) && req.attributes == old(req.attributes)
      ensures res.Failure? && BoundResource(old(req.attributes)).Some? ==>
        var x := BoundResource(old(req.attributes)).value;
        unchanged(x) && unchanged(x.broadcaster)
      // on success the new handle is registered for r and recorded on the request
      ensures res.Success? ==>
        var x, m := BoundResource(old(req.attributes)).value, res.value;
        && fresh(m) && m.r == x && m.registry == registry && !m.destroyed && m.attachment == Null
        && registry.cache == old(registry.cache)[x := m]
        && x.serializer == s
        && x.calls == old(x.calls) && x.transport == old(x.transport)
      // APPLICATION: r keeps its broadcaster, whose config gets the filters
      ensures res.Success? && scope == Application ==>
        var x, m := BoundResource(old(req.attributes)).value, res.value;
        && req.attributes == old(req.attributes)[MeteorKey := MeteorValue(m)]
        && x.broadcaster == old(x.broadcaster)
        && x.broadcaster.scope == old(x.broadcaster.scope)
        && x.broadcaster.filters == old(x.broadcaster.filters) + FilterList(l)
      // REQUEST: the factory's broadcaster, made REQUEST-scoped, replaces r's and gets the filters
      ensures res.Success? && scope == Request ==>
        var x, m, b := BoundResource(old(req.attributes)).value, res.value, made.value;
        && req.attributes == old(req.attributes)[SkipBroadcasterCreationKey := BoolValue(true)][MeteorKey := MeteorValue(m)]
        && x.broadcaster == b
        && b.scope == Request
        && b.filters == old(b.filters) + FilterList(l)
        && (old(x.broadcaster) != b ==> unchanged(old(x.broadcaster)))
      ensures old(registry.Valid()) ==> registry.Valid()
    {
      if AtmosphereResourceKey !in req.attributes {
        return Failure(NotBound);
      }
      if !req.attributes[AtmosphereResourceKey].ResourceValue? {
        return Failure(NotAResource);
      }
      var x := req.attributes[AtmosphereResourceKey].resource;
      if scope == Request {
        if made.None? {
          return Failure(FactoryFailed);
        }
        var b := made.value;
        b.scope := scope;
        x.broadcaster := b;
        req.attributes := req.attributes[SkipBroadcasterCreationKey := BoolValue(true)];
      }
      var m := new Meteor(registry, x, l, s);
      req.attributes := req.attributes[MeteorKey := MeteorValue(m)];
      res := Success(m);
    }

    /** The exception build raises when it fails: the binding is checked before the factory is used. */
    static function ExpectedError(attributes: map<AttrName, Attribute>): (e: BuildError)
      ensures e == NotBound <==> AtmosphereResourceKey !in attributes
      ensures e == FactoryFailed <==> BoundResource(attributes).Some?
    {
      if AtmosphereResourceKey !in attributes then NotBound
      else if !attributes[AtmosphereResourceKey].ResourceValue? then NotAResource
      else FactoryFailed
    }
  }

  /** lookup as written throws on a request that build would reject as not bound. */
  lemma UnboundLookupThrows(registry: Registry, req: Request)
    requires AtmosphereResourceKey !in req.attributes
    ensures Meteor.LookupAsWritten(registry, req) == Failure(NullKey)
    ensures Meteor.Lookup(registry, req) == None
  {
  }

  /** In a valid registry, lookup finds only live handles bound to the request's resource. */
  lemma LookupFindsLiveHandle(registry: Registry, req: Request)
    requires registry.Valid()
    ensures var m := Meteor.Lookup(registry, req);
      m.Some? ==> m.value.r == BoundResource(req.attributes).value && m.value.registry == registry && !m.value.destroyed
  {
  }

  /** Building and then looking up by the same request finds exactly the new handle. */
  method BuildThenLookup(registry: Registry, req: Request, scope: Scope, l: Option<seq<Filter>>,
                         s: Option<Serializer>, made: Option<Broadcaster>)
    returns (res: Result<Meteor, BuildError>, found: Option<Meteor>)
    modifies registry, req
    modifies if BoundResource(req.attributes).Some?
      then {BoundResource(req.attributes).value, BoundResource(req.attributes).value.broadcaster} else {}
    modifies if scope == Request && made.Some? then {made.value} else {}
    ensures found == if res.Success? then Some(res.value) else old(Meteor.Lookup(registry, req))
  {
    res := Meteor.BuildInScope(registry, req, scope, l, s, made);
    found := Meteor.Lookup(registry, req);
  }

  /**
   * Registration is keyed by resource alone: destroying an older handle
   * for a resource also unregisters the newer handle built for it, which
   * stays live.
   */
  method StaleDestroyUnregistersSuccessor(registry: Registry, req: Request)
    returns (first: Meteor, second: Meteor, found: Option<Meteor>)
    requires BoundResource(req.attributes).Some?
    modifies registry, req, BoundResource(req.attributes).value, BoundResource(req.attributes).value.broadcaster
    ensures first != second && first.r == second.r
    ensures first.destroyed && !second.destroyed
    ensures found == None
  {
    var a := Meteor.Build(registry, req);
    first := a.value;
    var b := Meteor.Build(registry, req);
    second := b.value;
    first.Destroy();
    found := Meteor.Lookup(registry, req);
  }

  /** An attachment stored before destroy is what attachement returns afterwards. */
  method AttachSurvivesDestroy(m: Meteor, o: Payload) returns (seen: Payload)
    modifies m, m.registry
    ensures seen == o
    ensures m.destroyed && m.r !in m.registry.cache
    ensures m.View() == Run(old(m.View()), [Attach(o), Destroy])
  {
    m.Attach(o);
    ghost var mid := m.View();
    m.Destroy();
    seen := m.Attachement();
    AttachThenDestroy(old(m.View()), o, []);
    assert [Attach(o), Destroy] + [] == [Attach(o), Destroy];
    assert [Attach(o), Destroy][1..] == [Destroy];
    assert Run(old(m.View()), [Attach(o), Destroy]) == Run(mid, [Destroy]);
  }

  /** resume, broadcast, resume on a live handle: every call is delegated and it stays live. */
  method ResumeBroadcastResume(m: Meteor, o: Payload) returns (first: Option<Meteor>, sent: Option<Meteor>, second: Option<Meteor>)
    requires !m.destroyed
    modifies m.r, m.registry
    ensures first == sent == second == Some(m)
    ensures !m.destroyed && m.r !in m.registry.cache
    ensures m.r.calls == old(m.r.calls) + [ResumeCall, BroadcastCall(old(m.r.broadcaster), o), ResumeCall]
  {
    first := m.Resume();
    sent := m.Broadcast(o);
    second := m.Resume();
  }

  /** After destroy, every guarded operation returns null and delegates nothing. */
  method DestroyedIsInert(m: Meteor, o: Payload, b: Broadcaster, e: Listener)
    returns (results: seq<Option<Meteor>>)
    modifies m, m.r, m.registry
    ensures m.destroyed && m.r !in m.registry.cache
    ensures results == [None, None, None, None, None, None]
    ensures m.GetBroadcaster() == None
    ensures m.r.calls == old(m.r.calls) && m.r.broadcaster == old(m.r.broadcaster)
  {
    m.Destroy();
    var a := m.Suspend(-1);
    var c := m.SuspendFor(30, Seconds);
    var d := m.Resume();
    var f := m.Broadcast(o);
    var g := m.Schedule(o, 10);
    var h := m.DelayBroadadcast(o, 10);
    m.SetBroadcaster(b);
    var i := m.AddListener(e);
    var j := m.RemoveListener(e);
    results := [a, c, d, f, g, h];
  }
}
