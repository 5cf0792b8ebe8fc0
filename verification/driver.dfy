/**
 * Everything that can happen to a discovery session, one step at a time:
 * requests from the consumer, callbacks from the platform and the firing
 * of deferred retries. Properties of whole histories are stated here.
 */
module Driver {
  import opened Options
  import opened ServiceRecord
  import Session

  /** What the consumer does: listen to events, or send one of the three requests. */
  datatype ConsumerAction =
    | Listen
    | Cancel
    | Start(serviceType: string, enableUpdating: bool)
    | Stop
    | ResolveRequest(name: string, resolve: bool)

  /** A callback to a `DiscoveryListener`. */
  datatype DiscoveryCallback =
    | DiscoveryStarted
    | DiscoveryStopped
    | Found(info: Info)
    | Lost(info: Info)
    | StartFailed(failedType: Option<string>, code: int)
    | StopFailed(failedType: Option<string>, code: int)

  /** A callback to a `ResolveListener`. */
  datatype ResolveCallback =
    | Resolved(info: Info)
    | ResolveFailed(info: Info, code: int)

  /** One thing that happens to a session. */
  datatype Input =
    | Binding(attached: bool)
    | FromConsumer(action: ConsumerAction)
    | FromDiscovery(callback: DiscoveryCallback)
    | FromResolve(result: ResolveCallback)
    | Fire(retry: Info)

  function ApplyConsumer(s: Session.State, a: ConsumerAction): Session.State
  {
    match a
    case Listen => Session.Listen(s)
    case Cancel => Session.Cancel(s)
    case Start(t, u) => Session.StartDiscovery(s, t, u)
    case Stop => Session.StopDiscovery(s)
    case ResolveRequest(n, r) => Session.ResolveService(s, n, r)
  }

  function ApplyDiscovery(s: Session.State, c: DiscoveryCallback): Session.State
  {
    match c
    case DiscoveryStarted => Session.OnDiscoveryStarted(s)
    case DiscoveryStopped => Session.OnDiscoveryStopped(s)
    case Found(i) => Session.OnServiceFound(s, i)
    case Lost(i) => Session.OnServiceLost(s, i)
    case StartFailed(t, code) => Session.OnStartDiscoveryFailed(s, t, code)
    case StopFailed(t, code) => Session.OnStopDiscoveryFailed(s, t, code)
  }

  function ApplyResolve(s: Session.State, r: ResolveCallback): Session.State
  {
    match r
    case Resolved(i) => Session.OnServiceResolved(s, i)
    case ResolveFailed(i, code) => Session.OnResolveFailed(s, i, code)
  }

  /** The transition for one input. A retry that was never scheduled cannot fire. */
  function Apply(s: Session.State, x: Input): Session.State
  {
    match x
    case Binding(b) => Session.Bind(s, b)
    case FromConsumer(a) => ApplyConsumer(s, a)
    case FromDiscovery(c) => ApplyDiscovery(s, c)
    case FromResolve(r) => ApplyResolve(s, r)
    case Fire(i) => if i in s.pending then Session.FireRetry(s, i) else s
  }

  /** The session after the inputs `xs`, in order. */
  function Run(s: Session.State, xs: seq<Input>): Session.State
    decreases |xs|
  {
    if |xs| == 0 then s else Run(Apply(s, xs[0]), xs[1..])
  }

  /** Running `xs` and then `x` is running `xs + [x]`. */
  lemma {:induction false} RunSnoc(s: Session.State, xs: seq<Input>, x: Input)
    ensures Run(s, xs + [x]) == Apply(Run(s, xs), x)
    decreases |xs|
  {
    if |xs| == 0 {
      assert xs + [x] == [x];
      assert [x][1..] == [];
    } else {
      assert (xs + [x])[0] == xs[0];
      assert (xs + [x])[1..] == xs[1..] + [x];
      RunSnoc(Apply(s, xs[0]), xs[1..], x);
    }
  }

  // ---------------------------------------------------------------------
  // Found/lost histories
  // ---------------------------------------------------------------------

  /** Whether `x` is a found or lost callback about the name `k`. */
  predicate About(x: Input, k: string)
  {
    IsFoundOrLost(x) && x.callback.info.name == Some(k)
  }

  /** The last found or lost callback about `k` in `xs`, if any. */
  function LastAbout(xs: seq<Input>, k: string): (r: Option<Input>)
    ensures r.Some? ==> About(r.value, k)
    decreases |xs|
  {
    if |xs| == 0 then None
    else if About(xs[|xs| - 1], k) then Some(xs[|xs| - 1])
    else LastAbout(xs[..|xs| - 1], k)
  }

  predicate IsFoundOrLost(x: Input)
  {
    x.FromDiscovery? && (x.callback.Found? || x.callback.Lost?)
  }

  /** Whether every input of `xs` is a found or lost callback. */
  predicate FoundLostOnly(xs: seq<Input>)
  {
    forall i :: 0 <= i < |xs| ==> IsFoundOrLost(xs[i])
  }

  /**
   * After any history of found and lost callbacks, the registry holds a
   * name exactly when the last callback about it was "found", and then
   * holds that callback's record; a name with no callback keeps its
   * original entry (or absence).
   */
  lemma {:induction false} ReplayRegistry(s: Session.State, xs: seq<Input>, k: string)
    requires FoundLostOnly(xs)
    ensures var reg := Run(s, xs).services;
            match LastAbout(xs, k)
            case None => (k in reg <==> k in s.services) && (k in s.services ==> reg[k] == s.services[k])
            case Some(x) => (k in reg <==> x.callback.Found?) && (x.callback.Found? ==> reg[k] == x.callback.info)
    decreases |xs|
  {
    if |xs| > 0 {
      var init := xs[..|xs| - 1];
      var last := xs[|xs| - 1];
      assert xs == init + [last];
      assert FoundLostOnly(init) by {
        forall i | 0 <= i < |init| ensures IsFoundOrLost(init[i]) {
          assert init[i] == xs[i];
        }
      }
      assert IsFoundOrLost(last);
      ReplayRegistry(s, init, k);
      RunSnoc(s, init, last);
      var before := Run(s, init);
      var after := Run(s, xs);
      assert after == Apply(before, last);
      if !About(last, k) {
        assert LastAbout(xs, k) == LastAbout(init, k);
        if last.callback.info.name.Some? {
          var n := last.callback.info.name.value;
          assert n != k;
          if last.callback.Found? {
            assert after.services - {n} == before.services - {n};
          } else {
            assert after.services == before.services - {n};
          }
          assert k in after.services <==> k in after.services - {n};
          assert k in before.services <==> k in before.services - {n};
          if k in before.services {
            assert after.services[k] == (after.services - {n})[k];
          }
        }
      }
    }
  }

  /**
   * Starting from an empty registry, the registered names after a found/lost
   * history are exactly those whose last callback was "found".
   */
  lemma ReplayFromEmpty(s: Session.State, xs: seq<Input>)
    requires s.services == map[] && FoundLostOnly(xs)
    ensures forall k :: k in Run(s, xs).services <==> LastAbout(xs, k).Some? && LastAbout(xs, k).value.callback.Found?
  {
    forall k ensures k in Run(s, xs).services <==> LastAbout(xs, k).Some? && LastAbout(xs, k).value.callback.Found? {
      ReplayRegistry(s, xs, k);
    }
  }

  // ---------------------------------------------------------------------
  // Session invariant
  // ---------------------------------------------------------------------

  /**
   * Every registered record is stored under its own name; listener
   * identities are handed out in increasing order, so each discover call
   * uses a listener not used by any earlier one, and the installed
   * listener is among those handed out.
   */
  predicate Valid(s: Session.State)
  {
    && (forall k :: k in s.services ==> s.services[k].name == Some(k))
    && (s.listener.Some? ==> s.listener.value < s.nextListener)
    && (forall i :: 0 <= i < |s.calls| && s.calls[i].DiscoverServices? ==> s.calls[i].listener < s.nextListener)
    && (forall i, j :: 0 <= i < j < |s.calls| && s.calls[i].DiscoverServices? && s.calls[j].DiscoverServices? ==>
          s.calls[i].listener < s.calls[j].listener)
  }

  /** A fresh session is valid. */
  lemma InitValid(bound: bool, sinkAttached: bool)
    ensures Valid(Session.Init(bound, sinkAttached))
  {
  }

  /** Appending calls that are not discover calls keeps the ordering of listener identities. */
  lemma AppendNonDiscover(calls: seq<Session.Call>, extra: seq<Session.Call>, bound: nat)
    requires forall i :: 0 <= i < |calls| && calls[i].DiscoverServices? ==> calls[i].listener < bound
    requires forall i, j :: 0 <= i < j < |calls| && calls[i].DiscoverServices? && calls[j].DiscoverServices? ==>
               calls[i].listener < calls[j].listener
    requires forall i :: 0 <= i < |extra| ==> !extra[i].DiscoverServices?
    ensures var all := calls + extra;
            && (forall i :: 0 <= i < |all| && all[i].DiscoverServices? ==> all[i].listener < bound)
            && (forall i, j :: 0 <= i < j < |all| && all[i].DiscoverServices? && all[j].DiscoverServices? ==>
                  all[i].listener < all[j].listener)
  {
  }

  /** Starting discovery keeps the session valid: the new listener is the newest. */
  lemma StartValid(s: Session.State, t: string, u: bool)
    requires Valid(s)
    ensures Valid(Session.StartDiscovery(s, t, u))
  {
    var r := Session.StartDiscovery(s, t, u);
    var stop := if s.bound && s.listener.Some? then [Session.StopServiceDiscovery(s.listener)] else [];
    var disc := if s.bound then [Session.DiscoverServices(t, s.nextListener)] else [];
    var mid := s.calls + stop;
    assert r.calls == mid + disc;
    AppendNonDiscover(s.calls, stop, r.nextListener);
    forall i, j | 0 <= i < j < |r.calls| && r.calls[i].DiscoverServices? && r.calls[j].DiscoverServices?
      ensures r.calls[i].listener < r.calls[j].listener
    {
      assert r.calls[i] == mid[i];
      if j < |mid| {
        assert r.calls[j] == mid[j];
      }
    }
  }

  /** Storing a record under its own name keeps every entry under its own name. */
  lemma FoundValid(s: Session.State, info: Info)
    requires Valid(s)
    ensures Valid(Session.OnServiceFound(s, info))
  {
    var r := Session.OnServiceFound(s, info);
    if info.name.Some? {
      assert r.services == s.services[info.name.value := info];
    }
    assert r.calls == s.calls && r.listener == s.listener && r.nextListener == s.nextListener;
  }

  /**
   * A step that issues no call, installs no listener and only removes
   * registry entries keeps the session valid.
   */
  lemma FrameValid(s: Session.State, r: Session.State)
    requires Valid(s)
    requires r.calls == s.calls && r.listener == s.listener && r.nextListener == s.nextListener
    requires forall k :: k in r.services ==> k in s.services && r.services[k] == s.services[k]
    ensures Valid(r)
  {
  }

  /** Stopping discovery keeps the session valid. */
  lemma StopValid(s: Session.State)
    requires Valid(s)
    ensures Valid(Session.StopDiscovery(s))
  {
    AppendNonDiscover(s.calls, if s.bound then [Session.StopServiceDiscovery(s.listener)] else [], s.nextListener);
  }

  /** A resolve request keeps the session valid. */
  lemma ResolveValid(s: Session.State, n: string, b: bool)
    requires Valid(s)
    ensures Valid(Session.ResolveService(s, n, b))
  {
    if n in s.services && b {
      AppendNonDiscover(s.calls, if s.bound then [Session.Resolve(s.services[n])] else [], s.nextListener);
    } else {
      FrameValid(s, Session.ResolveService(s, n, b));
    }
  }

  /** A lost callback keeps the session valid. */
  lemma LostValid(s: Session.State, info: Info)
    requires Valid(s)
    ensures Valid(Session.OnServiceLost(s, info))
  {
    FrameValid(s, Session.OnServiceLost(s, info));
  }

  /** A firing retry keeps the session valid. */
  lemma FireValid(s: Session.State, info: Info)
    requires Valid(s) && info in s.pending
    ensures Valid(Session.FireRetry(s, info))
  {
    var consumed := s.(pending := s.pending - multiset{info});
    if s.listener.Some? {
      FoundValid(consumed, info);
    }
  }

  /** Every action of the consumer keeps the session valid. */
  lemma ConsumerValid(s: Session.State, a: ConsumerAction)
    requires Valid(s)
    ensures Valid(ApplyConsumer(s, a))
  {
    match a {
      case Listen => FrameValid(s, Session.Listen(s));
      case Cancel => FrameValid(s, Session.Cancel(s));
      case Start(t, u) => StartValid(s, t, u);
      case Stop => StopValid(s);
      case ResolveRequest(n, b) => ResolveValid(s, n, b);
    }
  }

  /** Every discovery callback keeps the session valid. */
  lemma DiscoveryValid(s: Session.State, c: DiscoveryCallback)
    requires Valid(s)
    ensures Valid(ApplyDiscovery(s, c))
  {
    match c {
      case DiscoveryStarted => FrameValid(s, Session.OnDiscoveryStarted(s));
      case DiscoveryStopped => FrameValid(s, Session.OnDiscoveryStopped(s));
      case Found(i) => FoundValid(s, i);
      case Lost(i) => LostValid(s, i);
      case StartFailed(t, code) => FrameValid(s, Session.OnStartDiscoveryFailed(s, t, code));
      case StopFailed(t, code) => FrameValid(s, Session.OnStopDiscoveryFailed(s, t, code));
    }
  }

  /** Every resolve callback keeps the session valid. */
  lemma ResolveResultValid(s: Session.State, r: ResolveCallback)
    requires Valid(s)
    ensures Valid(ApplyResolve(s, r))
  {
    match r {
      case Resolved(i) => FrameValid(s, Session.OnServiceResolved(s, i));
      case ResolveFailed(i, code) => FrameValid(s, Session.OnResolveFailed(s, i, code));
    }
  }

  /** Every transition keeps the session valid. */
  lemma {:induction false} ApplyValid(s: Session.State, x: Input)
    requires Valid(s)
    ensures Valid(Apply(s, x))
  {
    match x {
      case Binding(b) => FrameValid(s, Session.Bind(s, b));
      case FromConsumer(a) => ConsumerValid(s, a);
      case FromDiscovery(c) => DiscoveryValid(s, c);
      case FromResolve(r) => ResolveResultValid(s, r);
      case Fire(i) =>
        if i in s.pending {
          FireValid(s, i);
        }
    }
  }

  /** Every history keeps a valid session valid. */
  lemma {:induction false} RunValid(s: Session.State, xs: seq<Input>)
    requires Valid(s)
    ensures Valid(Run(s, xs))
    decreases |xs|
  {
    if |xs| > 0 {
      ApplyValid(s, xs[0]);
      RunValid(Apply(s, xs[0]), xs[1..]);
    }
  }

  /** The events, calls and replies of `s` are prefixes of those of `r`. */
  predicate Extends(s: Session.State, r: Session.State)
  {
    s.events <= r.events && s.calls <= r.calls && s.replies <= r.replies
  }

  /**
   * Nothing is ever taken back: the events delivered, the calls issued and
   * the replies given before a step are a prefix of those after it.
   */
  lemma ApplyExtends(s: Session.State, x: Input)
    ensures Extends(s, Apply(s, x))
  {
    match x {
      case Binding(b) => assert Session.Bind(s, b).(bound := s.bound) == s;
      case FromConsumer(a) => ConsumerExtends(s, a);
      case FromDiscovery(c) => DiscoveryExtends(s, c);
      case FromResolve(r) => ResolveExtends(s, r);
      case Fire(i) =>
        if i in s.pending {
          FireExtends(s, i);
        }
    }
  }

  lemma ResolveExtends(s: Session.State, r: ResolveCallback)
    ensures Extends(s, ApplyResolve(s, r))
  {
  }

  lemma FireExtends(s: Session.State, info: Info)
    requires info in s.pending
    ensures Extends(s, Session.FireRetry(s, info))
  {
    var consumed := s.(pending := s.pending - multiset{info});
    if s.listener.Some? {
      DiscoveryExtends(consumed, Found(info));
      assert Session.FireRetry(s, info) == ApplyDiscovery(consumed, Found(info));
    }
  }

  lemma ConsumerExtends(s: Session.State, a: ConsumerAction)
    ensures Extends(s, ApplyConsumer(s, a))
  {
  }

  lemma DiscoveryExtends(s: Session.State, c: DiscoveryCallback)
    ensures Extends(s, ApplyDiscovery(s, c))
  {
  }

  /** The delivered events, issued calls and replies only grow along a history. */
  lemma {:induction false} RunExtends(s: Session.State, xs: seq<Input>)
    ensures Extends(s, Run(s, xs))
    decreases |xs|
  {
    if |xs| > 0 {
      var m := Apply(s, xs[0]);
      ApplyExtends(s, xs[0]);
      RunExtends(m, xs[1..]);
    }
  }

  // ---------------------------------------------------------------------
  // Behaviours of the code as written
  // ---------------------------------------------------------------------

  /** `enableUpdating` changes nothing but the log. */
  lemma StartIgnoresEnableUpdating(s: Session.State, t: string)
    ensures Session.SameButLog(Session.StartDiscovery(s, t, true), Session.StartDiscovery(s, t, false))
  {
  }

  /**
   * No subscription handle is checked: a late "found" callback from a
   * listener that has been stopped still puts the record into the registry
   * of the now idle session.
   */
  lemma LateFoundAfterStop(s: Session.State, info: Info)
    requires info.name.Some?
    ensures var r := Session.OnServiceFound(Session.StopDiscovery(s), info);
            r.listener.None? && r.services == map[info.name.value := info]
  {
    var stopped := Session.StopDiscovery(s);
    assert stopped.services == map[];
    assert Session.OnServiceFound(stopped, info).services == stopped.services[info.name.value := info];
  }

  /**
   * A repeated "found" for a name replaces the stored record entirely: a
   * resolved host of the earlier record does not survive an unresolved
   * later one.
   */
  lemma FoundReplacesResolution(s: Session.State, resolved: Info, unresolved: Info)
    requires resolved.name.Some? && unresolved.name == resolved.name
    requires resolved.host.Some? && unresolved.host.None?
    ensures var r := Session.OnServiceFound(Session.OnServiceFound(s, resolved), unresolved);
            r.services[resolved.name.value].host.None?
  {
  }

  /**
   * The retry re-enters the found path with the snapshot taken when the
   * resolve failed: if a newer record for the same name arrived meanwhile,
   * the retry overwrites it with the older one.
   */
  lemma RetryReinstatesSnapshot(s: Session.State, snapshot: Info, newer: Info)
    requires s.listener.Some? && snapshot.name.Some? && newer.name == snapshot.name
    ensures var failed := Session.OnResolveFailed(s, snapshot, Session.FailureAlreadyActive);
            var updated := Session.OnServiceFound(failed, newer);
            && updated.services[newer.name.value] == newer
            && snapshot in updated.pending
            && Session.FireRetry(updated, snapshot).services[snapshot.name.value] == snapshot
  {
  }

  /**
   * The end-to-end story: discovery of `_http._tcp` starts, a printer on
   * port 631 is found and registered, the consumer asks for it to be
   * resolved, and the resolved record's `addr` pair reaches the consumer.
   */
  lemma PrinterScenario(printer: Info, resolved: Info)
    requires printer == Info(Some("printer"), "_http._tcp.", None, 631, map[])
    requires resolved == printer.(host := Some(Host(Some("printer.local"), Some("10.0.0.5"))))
    ensures var s0 := Session.Init(true, true);
            var s1 := Session.StartDiscovery(s0, "_http._tcp", false);
            var s2 := Session.OnServiceFound(s1, printer);
            var s3 := Session.ResolveService(s2, "printer", true);
            var s4 := Session.OnServiceResolved(s3, resolved);
            && s1.calls == [Session.DiscoverServices("_http._tcp", 0)]
            && "printer" in s2.services
            && s2.events == [MapFromServiceInfo("onServiceFound", Some(printer))]
            && s3.calls == s1.calls + [Session.Resolve(printer)]
            && |s4.events| == 2
            && ReadAddr(s4.events[1]) == Some(("10.0.0.5", 631))
  {
  }
}
