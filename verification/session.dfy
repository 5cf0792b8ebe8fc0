/**
 * The discovery session of the plugin: the name-keyed service registry,
 * the active discovery listener, the event stream to the single consumer,
 * the calls issued to the platform's discovery capability (`NsdManager`)
 * and the pending one-shot resolve retries. Every request and every
 * platform callback is a pure transition `State -> State`.
 */
module Session {
  import opened Options
  import opened ServiceRecord

  /** Identifies one `DiscoveryListener` object; each start creates a fresh one. */
  type ListenerId = nat

  /** Android's `NsdManager.FAILURE_ALREADY_ACTIVE`: a resolve is already running. */
  const FailureAlreadyActive: int := 3

  /** A call issued to the platform's discovery capability. */
  datatype Call =
    | DiscoverServices(serviceType: string, listener: ListenerId)
    | StopServiceDiscovery(stopped: Option<ListenerId>)
    | Resolve(info: Info)

  /** The answer given to a request over the method channel (`result.success(null)`). */
  datatype Reply = Success

  /** Diagnostic output; it never reaches the consumer. */
  datatype LogLine =
    | EnableUpdatingIgnored
    | MissingService(name: string)
    | ResolveFailed(info: Info, code: int)
    | StartDiscoveryFailed(serviceType: Option<string>, code: int)
    | StopDiscoveryFailed(serviceType: Option<string>, code: int)

  /**
   * `bound` says whether an activity, and with it the `NsdManager`, is
   * attached: without one no capability call is issued and no event is
   * delivered. `sinkAttached` says whether the consumer listens.
   */
  datatype State = State(
    bound: bool,
    sinkAttached: bool,
    listener: Option<ListenerId>,
    nextListener: ListenerId,
    services: map<string, Info>,
    events: seq<Event>,
    calls: seq<Call>,
    pending: multiset<Info>,
    replies: seq<Reply>,
    log: seq<LogLine>)

  /** A session before any request or callback. */
  function Init(bound: bool, sinkAttached: bool): (s: State)
    ensures s.bound == bound && s.sinkAttached == sinkAttached && s.nextListener == 0
    ensures s.listener.None? && s.services == map[] && s.pending == multiset{}
    ensures s.events == [] && s.calls == [] && s.replies == [] && s.log == []
  {
    State(bound, sinkAttached, None, 0, map[], [], [], multiset{}, [], [])
  }

  /** Whether an emitted event reaches the consumer rather than being dropped. */
  predicate Delivers(s: State)
  {
    s.bound && s.sinkAttached
  }

  /** Hands `e` to the consumer if one can receive it; otherwise drops it. */
  function Emit(s: State, e: Event): State
  {
    if Delivers(s) then s.(events := s.events + [e]) else s
  }

  /** Issues `c` to the discovery capability if it is available. */
  function Issue(s: State, c: Call): State
  {
    if s.bound then s.(calls := s.calls + [c]) else s
  }

  /** The diagnostic log is the only difference between `s` and `t`. */
  predicate SameButLog(s: State, t: State)
  {
    s.(log := []) == t.(log := [])
  }

  // ---------------------------------------------------------------------
  // Event sink
  // ---------------------------------------------------------------------

  /** The consumer starts listening; any previous consumer is replaced. */
  function Listen(s: State): (r: State)
    ensures r.sinkAttached
    ensures r.(sinkAttached := s.sinkAttached) == s
  {
    s.(sinkAttached := true)
  }

  /** The consumer stops listening; later events are dropped. */
  function Cancel(s: State): (r: State)
    ensures !r.sinkAttached && !Delivers(r)
    ensures r.(sinkAttached := s.sinkAttached) == s
  {
    s.(sinkAttached := false)
  }

  /**
   * An activity, and with it the `NsdManager`, is attached or detached
   * (also around configuration changes); nothing else changes.
   */
  function Bind(s: State, attached: bool): (r: State)
    ensures r.bound == attached && Delivers(r) == (attached && s.sinkAttached)
    ensures r.(bound := s.bound) == s
  {
    s.(bound := attached)
  }

  // ---------------------------------------------------------------------
  // Requests
  // ---------------------------------------------------------------------

  /**
   * Starts discovery of `serviceType`. The registry is emptied, the old
   * listener (if any) is stopped, a fresh listener is installed and asked to
   * discover, and success is reported at once. `enableUpdating` is only
   * logged as ignored.
   */
  function StartDiscovery(s: State, serviceType: string, enableUpdating: bool): (r: State)
    ensures r.services == map[]
    ensures r.listener == Some(s.nextListener) && r.nextListener == s.nextListener + 1
    ensures s.listener.None? || !s.bound ==>
              r.calls == s.calls + (if s.bound then [DiscoverServices(serviceType, s.nextListener)] else [])
    ensures s.listener.Some? && s.bound ==>
              r.calls == s.calls + [StopServiceDiscovery(s.listener), DiscoverServices(serviceType, s.nextListener)]
    ensures r.replies == s.replies + [Success]
    ensures r.log == s.log + (if enableUpdating then [EnableUpdatingIgnored] else [])
    ensures r.events == s.events && r.pending == s.pending
    ensures r.bound == s.bound && r.sinkAttached == s.sinkAttached
  {
    var warned := if enableUpdating then s.(log := s.log + [EnableUpdatingIgnored]) else s;
    var stopped := if warned.listener.Some? then Issue(warned, StopServiceDiscovery(warned.listener)) else warned;
    var installed := stopped.(listener := Some(s.nextListener), nextListener := s.nextListener + 1, services := map[]);
    var discovering := Issue(installed, DiscoverServices(serviceType, s.nextListener));
    discovering.(replies := discovering.replies + [Success])
  }

  /**
   * Stops discovery: a stop call is issued for the current listener (even
   * when there is none), the listener is cleared, the registry is emptied
   * and success is reported.
   */
  function StopDiscovery(s: State): (r: State)
    ensures r.services == map[] && r.listener.None?
    ensures r.calls == s.calls + (if s.bound then [StopServiceDiscovery(s.listener)] else [])
    ensures r.replies == s.replies + [Success]
    ensures r.events == s.events && r.pending == s.pending && r.log == s.log
    ensures r.nextListener == s.nextListener
    ensures r.bound == s.bound && r.sinkAttached == s.sinkAttached
  {
    var stopped := Issue(s, StopServiceDiscovery(s.listener));
    stopped.(listener := None, services := map[], replies := stopped.replies + [Success])
  }

  /**
   * Resolves, or discards, the registered service `name`. An unknown name
   * is only logged. A known name with `resolve` asks the capability to
   * resolve the stored record and leaves the registry alone; a known name
   * without `resolve` is removed from the registry and nothing is called.
   * No reply is ever given to the request.
   */
  function ResolveService(s: State, name: string, resolve: bool): (r: State)
    ensures name !in s.services ==>
              r == s.(log := s.log + [MissingService(name)])
    ensures name in s.services && resolve ==>
              && r.services == s.services
              && r.calls == s.calls + (if s.bound then [Resolve(s.services[name])] else [])
    ensures name in s.services && !resolve ==>
              && name !in r.services
              && r.services == s.services - {name}
              && r.calls == s.calls
    ensures name in s.services ==> r.log == s.log
    ensures r.events == s.events && r.pending == s.pending && r.replies == s.replies
    ensures r.listener == s.listener && r.nextListener == s.nextListener
    ensures r.bound == s.bound && r.sinkAttached == s.sinkAttached
  {
    if name in s.services then
      if resolve then Issue(s, Resolve(s.services[name]))
      else s.(services := s.services - {name})
    else
      s.(log := s.log + [MissingService(name)])
  }

  // ---------------------------------------------------------------------
  // Resolve listener callbacks
  // ---------------------------------------------------------------------

  /** A resolution succeeded: the resolved record is reported, not stored. */
  function OnServiceResolved(s: State, info: Info): (r: State)
    ensures r.services == s.services && r.calls == s.calls && r.pending == s.pending
    ensures r.listener == s.listener && r.log == s.log
    ensures |r.events| == |s.events| + (if Delivers(s) then 1 else 0)
    ensures r.events[..|s.events|] == s.events
    ensures Delivers(s) ==>
              var e := r.events[|s.events|];
              && e == MapFromServiceInfo("onServiceResolved", Some(info))
              && ReadAddr(e) == (if HostAddress(info).Some? then Some((HostAddress(info).value, info.port)) else None)
    ensures r.(events := s.events) == s
  {
    var e := MapFromServiceInfo("onServiceResolved", Some(info));
    ReadAddrOfMap("onServiceResolved", Some(info));
    Emit(s, e)
  }

  /**
   * A resolution failed with `code`. "Already active" schedules exactly one
   * deferred retry of the record; every other code is only logged.
   */
  function OnResolveFailed(s: State, info: Info, code: int): (r: State)
    ensures code == FailureAlreadyActive ==>
              && |r.pending| == |s.pending| + 1
              && r.pending[info] == s.pending[info] + 1
              && r.pending - multiset{info} == s.pending
              && r.log == s.log
    ensures code != FailureAlreadyActive ==>
              r.pending == s.pending && r.log == s.log + [ResolveFailed(info, code)]
    ensures r.services == s.services && r.events == s.events && r.calls == s.calls
    ensures r.listener == s.listener && r.replies == s.replies
    ensures r.(pending := s.pending, log := s.log) == s
  {
    if code == FailureAlreadyActive then s.(pending := s.pending + multiset{info})
    else s.(log := s.log + [ResolveFailed(info, code)])
  }

  // ---------------------------------------------------------------------
  // Discovery listener callbacks. None of them checks which listener it
  // comes from: a callback of a stopped listener acts like a current one.
  // ---------------------------------------------------------------------

  /**
   * The platform confirms discovery has started: only an event, the same
   * as the event map of no record, which carries the tag alone.
   */
  function OnDiscoveryStarted(s: State): (r: State)
    ensures r.services == s.services && r.calls == s.calls && r.pending == s.pending
    ensures r.listener == s.listener
    ensures r.events == s.events + (if Delivers(s) then [MapFromServiceInfo("onDiscoveryStarted", None)] else [])
    ensures r.(events := s.events) == s
  {
    Emit(s, map[MethodKey := Str("onDiscoveryStarted")])
  }

  /** The platform confirms discovery has stopped: only a tag-only event. */
  function OnDiscoveryStopped(s: State): (r: State)
    ensures r.services == s.services && r.calls == s.calls && r.pending == s.pending
    ensures r.listener == s.listener
    ensures r.events == s.events + (if Delivers(s) then [MapFromServiceInfo("onDiscoveryStopped", None)] else [])
    ensures r.(events := s.events) == s
  {
    Emit(s, map[MethodKey := Str("onDiscoveryStopped")])
  }

  /**
   * A service was found. A named record is stored under its name, replacing
   * whatever was stored there before (a resolved address included); every
   * other name keeps its record. One `onServiceFound` event is emitted.
   */
  function OnServiceFound(s: State, info: Info): (r: State)
    ensures info.name.Some? ==>
              var n := info.name.value;
              n in r.services && r.services[n] == info && r.services - {n} == s.services - {n}
    ensures info.name.None? ==> r.services == s.services
    ensures |r.events| == |s.events| + (if Delivers(s) then 1 else 0)
    ensures r.events[..|s.events|] == s.events
    ensures Delivers(s) ==>
              r.events[|s.events|] == MapFromServiceInfo("onServiceFound", Some(info))
    ensures r.calls == s.calls && r.pending == s.pending && r.log == s.log
    ensures r.listener == s.listener && r.nextListener == s.nextListener && r.replies == s.replies
    ensures r.bound == s.bound && r.sinkAttached == s.sinkAttached
  {
    var e := MapFromServiceInfo("onServiceFound", Some(info));
    var stored := match info.name
      case Some(n) => s.(services := s.services[n := info])
      case None => s;
    Emit(stored, e)
  }

  /**
   * A service was lost. Its name is removed from the registry (a null name
   * removes nothing) and one `onServiceRemoved` event is emitted.
   */
  function OnServiceLost(s: State, info: Info): (r: State)
    ensures info.name.Some? ==> r.services == s.services - {info.name.value}
    ensures info.name.None? ==> r.services == s.services
    ensures |r.events| == |s.events| + (if Delivers(s) then 1 else 0)
    ensures r.events[..|s.events|] == s.events
    ensures Delivers(s) ==>
              r.events[|s.events|] == MapFromServiceInfo("onServiceRemoved", Some(info))
    ensures r.calls == s.calls && r.pending == s.pending && r.log == s.log
    ensures r.listener == s.listener && r.nextListener == s.nextListener && r.replies == s.replies
    ensures r.bound == s.bound && r.sinkAttached == s.sinkAttached
  {
    var e := MapFromServiceInfo("onServiceRemoved", Some(info));
    var removed := match info.name
      case Some(n) => s.(services := s.services - {n})
      case None => s;
    Emit(removed, e)
  }

  /** Discovery could not start: only logged. */
  function OnStartDiscoveryFailed(s: State, serviceType: Option<string>, code: int): (r: State)
    ensures r.(log := s.log) == s
    ensures r.log == s.log + [StartDiscoveryFailed(serviceType, code)]
  {
    s.(log := s.log + [StartDiscoveryFailed(serviceType, code)])
  }

  /** Discovery could not stop: only logged. */
  function OnStopDiscoveryFailed(s: State, serviceType: Option<string>, code: int): (r: State)
    ensures r.(log := s.log) == s
    ensures r.log == s.log + [StopDiscoveryFailed(serviceType, code)]
  {
    s.(log := s.log + [StopDiscoveryFailed(serviceType, code)])
  }

  // ---------------------------------------------------------------------
  // Deferred retry
  // ---------------------------------------------------------------------

  /**
   * A scheduled retry of `info` fires. It is consumed; if a discovery
   * listener is installed at that moment, the record goes through the
   * found path again (re-storing the snapshot taken at failure time);
   * otherwise nothing else happens.
   */
  function FireRetry(s: State, info: Info): (r: State)
    requires info in s.pending
    ensures r.pending == s.pending - multiset{info} && |r.pending| == |s.pending| - 1
    ensures r.calls == s.calls
    ensures s.listener.None? ==> r == s.(pending := s.pending - multiset{info})
    ensures s.listener.Some? ==> r == OnServiceFound(s.(pending := s.pending - multiset{info}), info)
  {
    var consumed := s.(pending := s.pending - multiset{info});
    if s.listener.Some? then OnServiceFound(consumed, info) else consumed
  }
}
