# mdns_plugin discovery session, modelled in Dafny

The Android side of the `mdns_plugin` Flutter plugin bridges Android's
`NsdManager` (DNS-SD / mDNS service discovery) to one consumer on the Dart
side. Its core is small: a registry of discovered services keyed by name, a
single discovery listener, an event stream to the consumer, a resolve
request that may fail with "already active", in which case the record is
fed through the found path once more after a short delay (stored again and
reported again, without a new resolve call), and a function that turns an `NsdServiceInfo` into the
tagged event map the consumer receives, cleaning up the DNS-SD service type
(section 7 of RFC 6763) on the way.

The model is functional. Each request and each platform callback is a pure
transition on an immutable `Session.State`:

- `services`: the registry, `map<string, Info>`;
- `listener`: the installed `DiscoveryListener`, identified by a number
  handed out in increasing order;
- `events`: the event maps delivered to the consumer (an event is dropped
  when no consumer listens or no activity is attached);
- `calls`: the calls issued to `NsdManager` (discover, stop, resolve);
  none is issued while no activity, and so no `NsdManager`, is attached;
- `pending`: the scheduled one-shot retries, a multiset because two equal
  failures schedule two timers;
- `replies`: the success replies given over the method channel;
- `log`: the `Log.w` / `Log.d` diagnostics.

Modules:

- `ServiceType` (service_type.dfy): the service-type clean-up.
- `ServiceRecord` (service_record.dfy): the record, the event map built
  from it and how the consumer reads the address back.
- `Session` (session.dfy): the state and every transition.
- `Driver` (driver.dfy): all transitions as one step function, histories of
  steps, the session invariant, and the behaviours of whole histories.
- `Options` (options.dfy): Kotlin's nullable values.

Where the code differs from the design one might expect, the model follows
the code:

- Callbacks carry no subscription check. A "found" from a listener that was
  already stopped repopulates the registry of an idle session
  (`Driver.LateFoundAfterStop`).
- `resolveService` never replies to its method-channel request, unlike
  `startDiscovery` and `stopDiscovery`. `Session.ResolveService` leaves
  `replies` unchanged.
- `stopDiscovery` issues a stop call even when no listener is installed. It
  then passes a null listener. `startDiscovery` stops the old listener only
  when there is one.
- The retry runs the found path with the record as it was when the resolve
  failed. That can overwrite a newer record for the same name
  (`Driver.RetryReinstatesSnapshot`). A retry that fires while no listener is
  installed is consumed and does nothing else.

## Model

| member | source | states |
|---|---|---|
| ServiceType.Canonical | mdns_plugin/android/src/main/kotlin/com/mutablelogic/mdns_plugin/MDNSPlugin.kt:48 | the canonical type ends with a dot, is at most one character shorter or longer than the raw type, and the raw type is recovered by dropping that dot and restoring the one leading and one trailing dot that were stripped |
| ServiceType.CanonicalOfUndotted | mdns_plugin/android/src/main/kotlin/com/mutablelogic/mdns_plugin/MDNSPlugin.kt:48 | a type with no dot at either end is only extended by a dot |
| ServiceType.CanonicalIgnoresDecoration | mdns_plugin/android/src/main/kotlin/com/mutablelogic/mdns_plugin/MDNSPlugin.kt:48 | an undotted type with one optional dot at each end gives the same canonical type in all four forms |
| ServiceType.CanonicalIdempotentIff | mdns_plugin/android/src/main/kotlin/com/mutablelogic/mdns_plugin/MDNSPlugin.kt:48 | canonicalising twice equals canonicalising once exactly when the stripped core does not begin with a dot |
| ServiceType.CanonicalExampleUndotted | mdns_plugin/android/src/main/kotlin/com/mutablelogic/mdns_plugin/MDNSPlugin.kt:48 | `foo._tcp` becomes `foo._tcp.` |
| ServiceType.CanonicalExampleDotted | mdns_plugin/android/src/main/kotlin/com/mutablelogic/mdns_plugin/MDNSPlugin.kt:48 | `.foo._tcp.` becomes `foo._tcp.` |
| ServiceRecord.MapFromServiceInfo | mdns_plugin/android/src/main/kotlin/com/mutablelogic/mdns_plugin/MDNSPlugin.kt:43-59 | the event always carries its method tag; without a record nothing else; with one, name, canonical type, host name or `""`, port and TXT attributes (a key may carry no value), passed through unchanged, and `addr` = `[address, port]` exactly when a host address is known |
| ServiceRecord.ReadAddrOfMap | mdns_plugin/android/src/main/kotlin/com/mutablelogic/mdns_plugin/MDNSPlugin.kt:53-56 | reading `addr` back from the event gives the host address and port, or nothing when no address is known |
| ServiceRecord.MapDeterminesRecord | mdns_plugin/android/src/main/kotlin/com/mutablelogic/mdns_plugin/MDNSPlugin.kt:43-59 | records with equal events agree on name, port, attributes, host address, host name up to null-versus-empty, and canonical type |
| ServiceRecord.UnresolvedRecordMap | mdns_plugin/android/src/main/kotlin/com/mutablelogic/mdns_plugin/MDNSPlugin.kt:49-56 | a record without host reports host name `""` and has no `addr` |
| Session.Init | mdns_plugin/android/src/main/kotlin/com/mutablelogic/mdns_plugin/MDNSPlugin.kt:30-33 | a new session keeps the given binding and consumer flags, has no listener, hands out listener 0 first, and has an empty registry, no retries and empty histories |
| Session.Bind | mdns_plugin/android/src/main/kotlin/com/mutablelogic/mdns_plugin/MDNSPlugin.kt:140-157 | attaching or detaching the activity (and its `NsdManager`) changes only the `bound` flag; events are then delivered exactly when both an activity and a consumer are attached |
| Session.Listen | mdns_plugin/android/src/main/kotlin/com/mutablelogic/mdns_plugin/MDNSPlugin.kt:100-102 | attaching the consumer changes nothing else |
| Session.Cancel | mdns_plugin/android/src/main/kotlin/com/mutablelogic/mdns_plugin/MDNSPlugin.kt:104-106 | after detaching, no event is delivered, and nothing else changes |
| Session.StartDiscovery | mdns_plugin/android/src/main/kotlin/com/mutablelogic/mdns_plugin/MDNSPlugin.kt:108-119 | empties the registry, installs the next listener, issues a stop call exactly when a listener was installed, then a discover call with the new listener, always replies success, and logs `enableUpdating` without other effect |
| Session.StopDiscovery | mdns_plugin/android/src/main/kotlin/com/mutablelogic/mdns_plugin/MDNSPlugin.kt:121-126 | empties the registry, clears the listener, issues one stop call with the old listener (possibly none) and replies success |
| Session.ResolveService | mdns_plugin/android/src/main/kotlin/com/mutablelogic/mdns_plugin/MDNSPlugin.kt:128-138 | unknown name: only a log line; known name with resolve: one resolve call with the stored record, registry unchanged; known name without resolve: only that name removed, no call; never a reply |
| Session.OnServiceResolved | mdns_plugin/android/src/main/kotlin/com/mutablelogic/mdns_plugin/MDNSPlugin.kt:162-167 | emits the resolved record's event, whose address reads back as the host address and port; every other part of the session is unchanged |
| Session.OnResolveFailed | mdns_plugin/android/src/main/kotlin/com/mutablelogic/mdns_plugin/MDNSPlugin.kt:168-179 | "already active" adds exactly one pending retry of that record; any other code adds none and is only logged; every other part of the session is unchanged |
| Session.FireRetry | mdns_plugin/android/src/main/kotlin/com/mutablelogic/mdns_plugin/MDNSPlugin.kt:172-174 | the retry is consumed and issues no call (no new resolve); with no listener nothing else happens, otherwise the found path runs on the snapshot |
| Session.OnDiscoveryStarted | mdns_plugin/android/src/main/kotlin/com/mutablelogic/mdns_plugin/MDNSPlugin.kt:183-187 | emits only the event map of no record, tagged `onDiscoveryStarted`; every other part of the session is unchanged |
| Session.OnDiscoveryStopped | mdns_plugin/android/src/main/kotlin/com/mutablelogic/mdns_plugin/MDNSPlugin.kt:188-192 | emits only the event map of no record, tagged `onDiscoveryStopped`; every other part of the session is unchanged |
| Session.OnServiceFound | mdns_plugin/android/src/main/kotlin/com/mutablelogic/mdns_plugin/MDNSPlugin.kt:193-202 | a named record replaces whatever its name held, other names keep their records, a null name changes nothing; one `onServiceFound` event of the record is delivered if a consumer can receive it |
| Session.OnServiceLost | mdns_plugin/android/src/main/kotlin/com/mutablelogic/mdns_plugin/MDNSPlugin.kt:203-209 | only the record's name is removed; one `onServiceRemoved` event is delivered if a consumer can receive it |
| Session.OnStartDiscoveryFailed | mdns_plugin/android/src/main/kotlin/com/mutablelogic/mdns_plugin/MDNSPlugin.kt:210-212 | only a log line is added |
| Session.OnStopDiscoveryFailed | mdns_plugin/android/src/main/kotlin/com/mutablelogic/mdns_plugin/MDNSPlugin.kt:213-215 | only a log line is added |
| Driver.RunSnoc | mdns_plugin/android/src/main/kotlin/com/mutablelogic/mdns_plugin/MDNSPlugin.kt:161-215 | a history extended by one callback is the history followed by that step |
| Driver.ReplayRegistry | mdns_plugin/android/src/main/kotlin/com/mutablelogic/mdns_plugin/MDNSPlugin.kt:193-209 | after any found/lost history, a name is registered exactly when its last callback was "found", with that callback's record; names without callbacks keep their entry |
| Driver.ReplayFromEmpty | mdns_plugin/android/src/main/kotlin/com/mutablelogic/mdns_plugin/MDNSPlugin.kt:193-209 | from an empty registry, the registered names are exactly those whose last callback was "found" |
| Driver.InitValid | mdns_plugin/android/src/main/kotlin/com/mutablelogic/mdns_plugin/MDNSPlugin.kt:30-33 | a new session satisfies the session invariant |
| Driver.StartValid | mdns_plugin/android/src/main/kotlin/com/mutablelogic/mdns_plugin/MDNSPlugin.kt:108-119 | starting discovery keeps the invariant: the new listener is newer than every listener in an earlier discover call |
| Driver.StopValid | mdns_plugin/android/src/main/kotlin/com/mutablelogic/mdns_plugin/MDNSPlugin.kt:121-126 | stopping discovery keeps the invariant: it issues no discover call and leaves no listener |
| Driver.FireValid | mdns_plugin/android/src/main/kotlin/com/mutablelogic/mdns_plugin/MDNSPlugin.kt:172-174 | a firing retry keeps the invariant, because it re-enters the found path |
| Driver.ResolveValid | mdns_plugin/android/src/main/kotlin/com/mutablelogic/mdns_plugin/MDNSPlugin.kt:128-138 | a resolve request keeps the invariant: it issues at most a resolve call and only removes registry entries |
| Driver.LostValid | mdns_plugin/android/src/main/kotlin/com/mutablelogic/mdns_plugin/MDNSPlugin.kt:203-209 | a lost callback keeps the invariant, because it only removes a registry entry |
| Driver.FoundValid | mdns_plugin/android/src/main/kotlin/com/mutablelogic/mdns_plugin/MDNSPlugin.kt:193-202 | storing a found record keeps every record under its own name |
| Driver.ApplyValid | mdns_plugin/android/src/main/kotlin/com/mutablelogic/mdns_plugin/MDNSPlugin.kt:108-215 | every request and callback preserves the invariant |
| Driver.RunValid | mdns_plugin/android/src/main/kotlin/com/mutablelogic/mdns_plugin/MDNSPlugin.kt:108-215 | every history preserves the invariant |
| Driver.ApplyExtends | mdns_plugin/android/src/main/kotlin/com/mutablelogic/mdns_plugin/MDNSPlugin.kt:108-215 | one step never takes back a delivered event, an issued call or a reply |
| Driver.RunExtends | mdns_plugin/android/src/main/kotlin/com/mutablelogic/mdns_plugin/MDNSPlugin.kt:108-215 | along any history, events, calls and replies only grow |
| Driver.StartIgnoresEnableUpdating | mdns_plugin/android/src/main/kotlin/com/mutablelogic/mdns_plugin/MDNSPlugin.kt:109-111 | starting with and without `enableUpdating` differs only in the log |
| Driver.LateFoundAfterStop | mdns_plugin/android/src/main/kotlin/com/mutablelogic/mdns_plugin/MDNSPlugin.kt:193-198 | a found callback after stop puts its record into the idle session's registry |
| Driver.FoundReplacesResolution | mdns_plugin/android/src/main/kotlin/com/mutablelogic/mdns_plugin/MDNSPlugin.kt:193-198 | an unresolved repeat "found" erases the host of an earlier resolved record |
| Driver.RetryReinstatesSnapshot | mdns_plugin/android/src/main/kotlin/com/mutablelogic/mdns_plugin/MDNSPlugin.kt:168-174 | a retry scheduled before a newer "found" for the same name overwrites it with the older snapshot |
| Driver.PrinterScenario | mdns_plugin/android/src/main/kotlin/com/mutablelogic/mdns_plugin/MDNSPlugin.kt:108-202 | start, found printer on 631, resolve request and resolved callback give one discover call, one resolve call with the stored record, and an `addr` of `["10.0.0.5", 631]` |

## Left out

- Flutter engine binding (`onAttachedToEngine`, `onDetachedFromEngine`): framework plumbing. The activity callbacks are kept only for their one effect on the core, whether an activity and its `NsdManager` are attached. That is the `bound` flag, which `Session.Bind` changes at any point of a history.
- `onMethodCall` dispatch and `getPlatformVersion`: argument defaulting (`""`, `false`) happens before the modelled operations, which take the defaulted values.
- `runOnUiThread` and the `Timer` thread: delivery is modelled as appending to `events` at callback time, not at the later moment the UI thread runs it. The 20 ms timer is a pending entry consumed by a separate firing step; no threads or timing are modelled.
- `NsdManager` and the mDNS / DNS-SD protocol: the capability is opaque, and its calls are only recorded in `calls`.
- Log text: `Log.w` / `Log.d` become `LogLine` values without their text.
- Every `NsdManager` call is assumed to return normally, whatever its arguments (for instance the `""` service type that `onMethodCall` substitutes for a missing argument). That is why `startDiscovery` always replies success. Platform exceptions are not modelled.
- Whether Android throws when `stopServiceDiscovery` is given a null listener: platform behaviour not shown in the code. The model records the call.
- ServiceRecord.MapFromServiceInfo: the platform is assumed to give every record a non-null service type. A null one would throw at the type clean-up before the registry update of a found callback, so nothing would be registered or reported; the model has no such abort.
- ServiceRecord.MapFromServiceInfo: a null service name is stored as a `Null` value. Whether Kotlin's runtime null checks would reject it instead is not modelled.
- Listener identities: the model numbers listeners for the invariant, but no callback looks at them, as in the code.
- Proof helpers have no row above: `Driver.AppendNonDiscover`, `Driver.FrameValid`, `Driver.ConsumerValid`, `Driver.DiscoveryValid`, `Driver.ResolveResultValid`, `Driver.ConsumerExtends`, `Driver.DiscoveryExtends`, `Driver.ResolveExtends`, `Driver.FireExtends` and `ServiceType.CoreShape`. `ServiceRecord.ReadAddr` models how the consumer reads `addr`; `ServiceRecord.ReadAddrOfMap` states its contract.
