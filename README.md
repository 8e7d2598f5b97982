# VehicleHandler of the BMW ConnectedDrive binding, modelled in Dafny

This project models the per-vehicle state machine of the openHAB BMW ConnectedDrive binding's
`VehicleHandler`. It covers four parts:

- the refresh cycle (`getData`) with its list of outstanding response callbacks and the
  troubleshoot fingerprint;
- the response caches filled by the per-source callbacks;
- the status ingest, with its one-way switch to the legacy status API;
- the charge-profile edit session: the overlay, the five-minute edit timeout, the send, and
  the remote confirmation.

`VehicleHandlers.VehicleHandler` is one class with the Java fields. Each method is one event
(an `initialize` step, a `getData` run, one callback, one command, the timeout firing, one
remote notification), taken as an atomic step. Everything outside the handler is abstract:

- proxy requests and remote executions are appended to the ghost log `requests`;
- updates pushed to openHAB (thing status and channel states) go to the ghost log `published`;
- writes of the fingerprint are counted in `fingerprints`;
- cancelled edit timers are collected in `cancelledTimers`;
- the Gson decoders and encoders and `ChargeProfileWrapper.fromJson`/`getJson` are
  uninterpreted functions in `Codecs`;
- the service names used as string constants are fields of `Names`.

The files:

| file | contents |
|---|---|
| `options.dfy` | `Option` |
| `tracking.dfy` | the callback list and the fingerprint count as a value (`Tracker`), `addCallback`/`removeCallback` on it, and the exactly-once lemmas |
| `charge_profiles.dfy` | the charge profile as the handler's setters and getters see it, and the fold of a sequence of edits |
| `charge_channels.dfy` | channel identifiers, commands, the three channel-key tables, the edit dispatch, and an independent per-channel binding the tables are proved against |
| `vehicle_types.dfy` | callbacks, requests, publications, decoded payload shapes, errors, configuration |
| `vehicle_handler.dfy` | the shape of a refresh cycle as pure functions, and the `VehicleHandler` class |
| `scenarios.dfy` | client methods that chain events: edit, send and confirm; edit and time out; an unprocessed command; a 404 and the next cycle |

The model keeps several edges of the code as they are:

- `sendChargeProfile` with no open session does nothing. A caller might expect the cached
  profile to be resent; the code sends nothing and remembers nothing.
- `VehicleStatusCallback.thingStatus` is never assigned after its initialiser. So
  `setThingStatus` never suppresses a repeated ONLINE or OFFLINE, although its test reads as
  if it should. `Valid()` records that the field stays UNKNOWN.
- A 404 on the status request sets legacy mode and requests the legacy status. The legacy
  callback's `onError` forwards to the same `onError`. So a 404 from the legacy endpoint
  requests the legacy status again, with no bound.
- `getData` never requests the range map, although the range-map callback and cache exist.
- An image response is cached and shown whatever viewport and size it was requested for, so a
  late response for old image properties overwrites the cache.
- A charge command that the session does not process still leaves open the session it
  opened from the cache. No timeout is scheduled for that session.
- `isSupported` is true when the services property contains the service, and also whenever
  any of the last-trip, all-trips and destination caches is empty, whatever the property says.
- A null response leaves the status, trip and charge-profile caches as they were. The
  destination and range-map callbacks store it (they empty their cache).
- With proxy or configuration absent, `proxy.get()` or `configuration.get()` throws. The model
  ends the event at that point, keeping what the code did before the throw. This applies to a
  404 in `onError` (legacy mode is already set) and to an image change (the cache is already
  emptied).

## Model

Source paths are relative to the repository root.

| member | source | states |
|---|---|---|
| Tracking.RemoveFirst | bundles/org.openhab.binding.bmwconnecteddrive/src/main/java/org/openhab/binding/bmwconnecteddrive/internal/handler/VehicleHandler.java:406 | `counter.remove(rc)` drops exactly one occurrence when there is one, and leaves the list unchanged otherwise (length and multiset) |
| Tracking.RemoveFirstAt | bundles/org.openhab.binding.bmwconnecteddrive/src/main/java/org/openhab/binding/bmwconnecteddrive/internal/handler/VehicleHandler.java:406 | the occurrence removed is the first one: the result is the list without the position of the first `rc` |
| Tracking.AddAllAppends | bundles/org.openhab.binding.bmwconnecteddrive/src/main/java/org/openhab/binding/bmwconnecteddrive/internal/handler/VehicleHandler.java:400-402 | adding callbacks to an existing list appends them in order and writes no fingerprint |
| Tracking.AddAllInert | bundles/org.openhab.binding.bmwconnecteddrive/src/main/java/org/openhab/binding/bmwconnecteddrive/internal/handler/VehicleHandler.java:400-402 | once the list is absent, any number of `addCallback` calls changes nothing |
| Tracking.DrainInert | bundles/org.openhab.binding.bmwconnecteddrive/src/main/java/org/openhab/binding/bmwconnecteddrive/internal/handler/VehicleHandler.java:404-413 | once the list is absent, any number of `removeCallback` calls changes nothing and writes no further fingerprint |
| Tracking.DrainWithin | bundles/org.openhab.binding.bmwconnecteddrive/src/main/java/org/openhab/binding/bmwconnecteddrive/internal/handler/VehicleHandler.java:404-413 | removing awaited callbacks in any order: until the last one arrives, the list holds exactly the rest and no fingerprint is written; the last one writes it once and drops the list |
| Tracking.CycleFingerprintOnce | bundles/org.openhab.binding.bmwconnecteddrive/src/main/java/org/openhab/binding/bmwconnecteddrive/internal/handler/VehicleHandler.java:303 | a fresh list, one cycle's callbacks, and each answering once in any order: exactly one fingerprint, at the last answer, and none before |
| ChargeProfiles.Apply | bundles/org.openhab.binding.bmwconnecteddrive/src/main/java/org/openhab/binding/bmwconnecteddrive/internal/handler/VehicleHandler.java:815-849 | a setter call makes its field read back the written value and leaves every other field as it was |
| ChargeProfiles.ApplyAllReads | bundles/org.openhab.binding.bmwconnecteddrive/src/main/java/org/openhab/binding/bmwconnecteddrive/internal/handler/VehicleHandler.java:805-854 | after any sequence of edits on the overlay, each field reads the last value written to it, or its original value |
| ChargeProfiles.ApplyAllOtherKey | bundles/org.openhab.binding.bmwconnecteddrive/src/main/java/org/openhab/binding/bmwconnecteddrive/internal/handler/VehicleHandler.java:829-853 | edits addressed to one profile key leave every field of every other key (and preference and mode) unchanged |
| ChargeChannels.Dispatch | bundles/org.openhab.binding.bmwconnecteddrive/src/main/java/org/openhab/binding/bmwconnecteddrive/internal/handler/VehicleHandler.java:811-854 | a processed command calls a setter with exactly the value the command carries |
| ChargeChannels.EnableTableSound | bundles/org.openhab.binding.bmwconnecteddrive/src/main/java/org/openhab/binding/bmwconnecteddrive/internal/handler/VehicleHandler.java:119-127 | every entry of the enable table is that channel's enable-switch binding with the same key |
| ChargeChannels.EnableTableComplete | bundles/org.openhab.binding.bmwconnecteddrive/src/main/java/org/openhab/binding/bmwconnecteddrive/internal/handler/VehicleHandler.java:119-127 | every channel bound to an enable switch is in the enable table |
| ChargeChannels.EnableTableMatches | bundles/org.openhab.binding.bmwconnecteddrive/src/main/java/org/openhab/binding/bmwconnecteddrive/internal/handler/VehicleHandler.java:119-127 | a channel is in the enable table if and only if it is bound to an enable switch, and then with the binding's key |
| ChargeChannels.TimeTableSound | bundles/org.openhab.binding.bmwconnecteddrive/src/main/java/org/openhab/binding/bmwconnecteddrive/internal/handler/VehicleHandler.java:130-145 | every entry of the time table is that channel's hour-or-minute binding, with the same key and `isHour` flag |
| ChargeChannels.TimeTableComplete | bundles/org.openhab.binding.bmwconnecteddrive/src/main/java/org/openhab/binding/bmwconnecteddrive/internal/handler/VehicleHandler.java:130-145 | every channel bound to an hour or a minute is in the time table |
| ChargeChannels.TimeTableMatches | bundles/org.openhab.binding.bmwconnecteddrive/src/main/java/org/openhab/binding/bmwconnecteddrive/internal/handler/VehicleHandler.java:130-145 | a channel is in the time table if and only if it is bound to an hour or a minute, and then with the binding's key and flag |
| ChargeChannels.DayTableSound | bundles/org.openhab.binding.bmwconnecteddrive/src/main/java/org/openhab/binding/bmwconnecteddrive/internal/handler/VehicleHandler.java:147-171 | every entry of the day table is that channel's timer-day binding, with the same key and day |
| ChargeChannels.DayTableComplete | bundles/org.openhab.binding.bmwconnecteddrive/src/main/java/org/openhab/binding/bmwconnecteddrive/internal/handler/VehicleHandler.java:147-171 | every channel bound to a timer day is in the day table |
| ChargeChannels.DayTableMatches | bundles/org.openhab.binding.bmwconnecteddrive/src/main/java/org/openhab/binding/bmwconnecteddrive/internal/handler/VehicleHandler.java:147-171 | a channel is in the day table if and only if it is bound to a timer day, and then with the binding's key and day |
| ChargeChannels.DispatchFollowsBinding | bundles/org.openhab.binding.bmwconnecteddrive/src/main/java/org/openhab/binding/bmwconnecteddrive/internal/handler/VehicleHandler.java:811-854 | the dispatch (enable table before day table for on/off, `setHour` exactly when `isHour`) agrees with the per-channel binding on every channel and command, and only the bound profile key is touched |
| ChargeChannels.EditForKey | bundles/org.openhab.binding.bmwconnecteddrive/src/main/java/org/openhab/binding/bmwconnecteddrive/internal/handler/VehicleHandler.java:832-849 | the setter a binding calls writes a field of that binding's profile key |
| ChargeChannels.TablesDisjoint | bundles/org.openhab.binding.bmwconnecteddrive/src/main/java/org/openhab/binding/bmwconnecteddrive/internal/handler/VehicleHandler.java:830-837 | no channel is in two tables, so looking up the enable table first hides no day entry; this holds because the channel constants are taken as distinct (see "## Left out") |
| VehicleHandlers.ContainsMeans | bundles/org.openhab.binding.bmwconnecteddrive/src/main/java/org/openhab/binding/bmwconnecteddrive/internal/handler/VehicleHandler.java:510 | `services.contains(service)` holds exactly when the service occurs in the property at some position |
| VehicleHandlers.CallbackPlan | bundles/org.openhab.binding.bmwconnecteddrive/src/main/java/org/openhab/binding/bmwconnecteddrive/internal/handler/VehicleHandler.java:366-391 | a cycle registers the status callback first, whichever endpoint the status comes from, one callback per optional source fetched, and never the range map or the legacy callback |
| VehicleHandlers.CallbackPlanSources | bundles/org.openhab.binding.bmwconnecteddrive/src/main/java/org/openhab/binding/bmwconnecteddrive/internal/handler/VehicleHandler.java:372-391 | both trip callbacks exactly with the statistics, destinations exactly with the destinations, the charge profile exactly for an electric vehicle, the image exactly when it is fetched |
| VehicleHandlers.RequestPlan | bundles/org.openhab.binding.bmwconnecteddrive/src/main/java/org/openhab/binding/bmwconnecteddrive/internal/handler/VehicleHandler.java:366-391 | a cycle requests the status first, from the legacy endpoint if and only if in legacy mode and from the current one if and only if not; never the range map; one request per source fetched |
| VehicleHandlers.RequestPlanSources | bundles/org.openhab.binding.bmwconnecteddrive/src/main/java/org/openhab/binding/bmwconnecteddrive/internal/handler/VehicleHandler.java:372-391 | each optional request is issued if and only if its condition holds; the image is requested with the current image properties |
| VehicleHandlers.VehicleHandler.constructor | bundles/org.openhab.binding.bmwconnecteddrive/src/main/java/org/openhab/binding/bmwconnecteddrive/internal/handler/VehicleHandler.java:75-96 | the field initialisers: not legacy, every `Optional` empty, no caches, fresh image properties |
| VehicleHandlers.VehicleHandler.Initialize | bundles/org.openhab.binding.bmwconnecteddrive/src/main/java/org/openhab/binding/bmwconnecteddrive/internal/handler/VehicleHandler.java:302-306 | a fresh empty callback list, status UNKNOWN published, the configuration stored |
| VehicleHandlers.VehicleHandler.InitializeTask | bundles/org.openhab.binding.bmwconnecteddrive/src/main/java/org/openhab/binding/bmwconnecteddrive/internal/handler/VehicleHandler.java:307-339 | bridge, proxy and remote handler taken from the bridge when it has a handler; image properties from the configuration, echoed; the refresh schedule started |
| VehicleHandlers.VehicleHandler.StartSchedule | bundles/org.openhab.binding.bmwconnecteddrive/src/main/java/org/openhab/binding/bmwconnecteddrive/internal/handler/VehicleHandler.java:345-354 | a running job is kept; a new one is scheduled when there is none or it was cancelled |
| VehicleHandlers.VehicleHandler.Dispose | bundles/org.openhab.binding.bmwconnecteddrive/src/main/java/org/openhab/binding/bmwconnecteddrive/internal/handler/VehicleHandler.java:357-361 | the refresh job, if any, is cancelled; nothing else changes |
| VehicleHandlers.VehicleHandler.IsSupported | bundles/org.openhab.binding.bmwconnecteddrive/src/main/java/org/openhab/binding/bmwconnecteddrive/internal/handler/VehicleHandler.java:507-520 | true if and only if the supported-services property is present and the service occurs in it at some position, or any of the last-trip, all-trips and destination caches is empty |
| VehicleHandlers.VehicleHandler.SetThingProperties | bundles/org.openhab.binding.bmwconnecteddrive/src/main/java/org/openhab/binding/bmwconnecteddrive/internal/discovery/VehicleDiscovery.java:126 | discovery replaces the thing properties; later `isSupported` calls read the new supported services |
| VehicleHandlers.VehicleHandler.GetData | bundles/org.openhab.binding.bmwconnecteddrive/src/main/java/org/openhab/binding/bmwconnecteddrive/internal/handler/VehicleHandler.java:363-398 | with proxy and configuration present, exactly the cycle's requests are issued and its callbacks appended (nothing when the list is absent); otherwise nothing changes |
| VehicleHandlers.VehicleHandler.RequestCycle | bundles/org.openhab.binding.bmwconnecteddrive/src/main/java/org/openhab/binding/bmwconnecteddrive/internal/handler/VehicleHandler.java:365-391 | the requests and callbacks of one cycle follow RequestPlan and CallbackPlan for the state the cycle starts in |
| VehicleHandlers.VehicleHandler.CycleRequests | bundles/org.openhab.binding.bmwconnecteddrive/src/main/java/org/openhab/binding/bmwconnecteddrive/internal/handler/VehicleHandler.java:366-391 | the cycle the current state plans starts with the status request from the endpoint the mode selects; it asks the current status if and only if not in legacy mode, and never the range map |
| VehicleHandlers.VehicleHandler.FetchAll | bundles/org.openhab.binding.bmwconnecteddrive/src/main/java/org/openhab/binding/bmwconnecteddrive/internal/handler/VehicleHandler.java:366-391 | the sequence of request/`addCallback` pairs yields RequestPlan and CallbackPlan for the given choices |
| VehicleHandlers.VehicleHandler.FetchStatusAndTrips | bundles/org.openhab.binding.bmwconnecteddrive/src/main/java/org/openhab/binding/bmwconnecteddrive/internal/handler/VehicleHandler.java:366-377 | the status from the endpoint the mode selects, then both trips with the statistics |
| VehicleHandlers.VehicleHandler.Fetch | bundles/org.openhab.binding.bmwconnecteddrive/src/main/java/org/openhab/binding/bmwconnecteddrive/internal/handler/VehicleHandler.java:378-385 | one optional request with its callback extends what the cycle has issued and registered by that step |
| VehicleHandlers.VehicleHandler.AddCallback | bundles/org.openhab.binding.bmwconnecteddrive/src/main/java/org/openhab/binding/bmwconnecteddrive/internal/handler/VehicleHandler.java:400-402 | appends while the list exists, no-op otherwise |
| VehicleHandlers.VehicleHandler.RemoveCallback | bundles/org.openhab.binding.bmwconnecteddrive/src/main/java/org/openhab/binding/bmwconnecteddrive/internal/handler/VehicleHandler.java:404-413 | the tracker after the call is `Tracking.Remove` of the one before |
| VehicleHandlers.VehicleHandler.LogFingerPrint | bundles/org.openhab.binding.bmwconnecteddrive/src/main/java/org/openhab/binding/bmwconnecteddrive/internal/handler/VehicleHandler.java:415-499 | one more fingerprint written |
| VehicleHandlers.VehicleHandler.SetThingStatus | bundles/org.openhab.binding.bmwconnecteddrive/src/main/java/org/openhab/binding/bmwconnecteddrive/internal/handler/VehicleHandler.java:723-727 | the status is published unless the callback's (never assigned) status equals it |
| VehicleHandlers.VehicleHandler.OnStatusResponse | bundles/org.openhab.binding.bmwconnecteddrive/src/main/java/org/openhab/binding/bmwconnecteddrive/internal/handler/VehicleHandler.java:730-750 | content: ONLINE published every time, cached, channels updated if it decodes, callback removed unless vehicleStatus is missing; null: only the callback removed |
| VehicleHandlers.VehicleHandler.OnStatusError | bundles/org.openhab.binding.bmwconnecteddrive/src/main/java/org/openhab/binding/bmwconnecteddrive/internal/handler/VehicleHandler.java:753-763 | legacy mode is set by a 404 and never cleared; a 404 issues one legacy status request; every error that does not throw is cached as JSON, reported OFFLINE with its reason, and removes the callback |
| VehicleHandlers.VehicleHandler.ReportError | bundles/org.openhab.binding.bmwconnecteddrive/src/main/java/org/openhab/binding/bmwconnecteddrive/internal/handler/VehicleHandler.java:760-762 | error JSON cached, OFFLINE with the reason published, status callback removed |
| VehicleHandlers.VehicleHandler.OnLegacyStatusResponse | bundles/org.openhab.binding.bmwconnecteddrive/src/main/java/org/openhab/binding/bmwconnecteddrive/internal/handler/VehicleHandler.java:780-791 | a decodable legacy payload has exactly the effect of a status response with its canonical form; otherwise nothing changes, not even the callback list |
| VehicleHandlers.VehicleHandler.OnLegacyStatusError | bundles/org.openhab.binding.bmwconnecteddrive/src/main/java/org/openhab/binding/bmwconnecteddrive/internal/handler/VehicleHandler.java:794-796 | the same effect as a status error, including a further legacy request on a 404 |
| VehicleHandlers.VehicleHandler.OnLastTripResponse | bundles/org.openhab.binding.bmwconnecteddrive/src/main/java/org/openhab/binding/bmwconnecteddrive/internal/handler/VehicleHandler.java:680-695 | content cached and shown if it decodes; null leaves the cache; the callback is removed |
| VehicleHandlers.VehicleHandler.OnLastTripError | bundles/org.openhab.binding.bmwconnecteddrive/src/main/java/org/openhab/binding/bmwconnecteddrive/internal/handler/VehicleHandler.java:701-705 | error JSON cached, callback removed |
| VehicleHandlers.VehicleHandler.OnAllTripsResponse | bundles/org.openhab.binding.bmwconnecteddrive/src/main/java/org/openhab/binding/bmwconnecteddrive/internal/handler/VehicleHandler.java:649-664 | content cached and shown if it decodes; null leaves the cache; the callback is removed |
| VehicleHandlers.VehicleHandler.OnAllTripsError | bundles/org.openhab.binding.bmwconnecteddrive/src/main/java/org/openhab/binding/bmwconnecteddrive/internal/handler/VehicleHandler.java:670-674 | error JSON cached, callback removed |
| VehicleHandlers.VehicleHandler.OnDestinationsResponse | bundles/org.openhab.binding.bmwconnecteddrive/src/main/java/org/openhab/binding/bmwconnecteddrive/internal/handler/VehicleHandler.java:592-604 | the cache takes the content even when null; shown if it decodes; callback removed |
| VehicleHandlers.VehicleHandler.OnDestinationsError | bundles/org.openhab.binding.bmwconnecteddrive/src/main/java/org/openhab/binding/bmwconnecteddrive/internal/handler/VehicleHandler.java:610-614 | error JSON cached, callback removed |
| VehicleHandlers.VehicleHandler.OnRangeMapResponse | bundles/org.openhab.binding.bmwconnecteddrive/src/main/java/org/openhab/binding/bmwconnecteddrive/internal/handler/VehicleHandler.java:572-575 | the cache takes the content even when null; callback removed |
| VehicleHandlers.VehicleHandler.OnRangeMapError | bundles/org.openhab.binding.bmwconnecteddrive/src/main/java/org/openhab/binding/bmwconnecteddrive/internal/handler/VehicleHandler.java:581-585 | error JSON cached, callback removed |
| VehicleHandlers.VehicleHandler.OnImageResponse | bundles/org.openhab.binding.bmwconnecteddrive/src/main/java/org/openhab/binding/bmwconnecteddrive/internal/handler/VehicleHandler.java:620-631 | a non-empty image is cached and shown whatever it was requested for; an empty one counts one failure; the callback is removed |
| VehicleHandlers.VehicleHandler.OnImageError | bundles/org.openhab.binding.bmwconnecteddrive/src/main/java/org/openhab/binding/bmwconnecteddrive/internal/handler/VehicleHandler.java:637-643 | one failure counted, nothing cached, callback removed |
| VehicleHandlers.VehicleHandler.OnChargeProfileResponse | bundles/org.openhab.binding.bmwconnecteddrive/src/main/java/org/openhab/binding/bmwconnecteddrive/internal/handler/VehicleHandler.java:548-556 | content always cached, but shown only while no edit session is open; callback removed |
| VehicleHandlers.VehicleHandler.OnChargeProfileError | bundles/org.openhab.binding.bmwconnecteddrive/src/main/java/org/openhab/binding/bmwconnecteddrive/internal/handler/VehicleHandler.java:562-566 | error JSON cached, callback removed |
| VehicleHandlers.VehicleHandler.RefreshStatus | bundles/org.openhab.binding.bmwconnecteddrive/src/main/java/org/openhab/binding/bmwconnecteddrive/internal/handler/VehicleHandler.java:191-192 | a cached status is replayed through the status callback with the cache unchanged; no cache, no effect |
| VehicleHandlers.VehicleHandler.HandleRefresh | bundles/org.openhab.binding.bmwconnecteddrive/src/main/java/org/openhab/binding/bmwconnecteddrive/internal/handler/VehicleHandler.java:182-199 | per group, the cached payload is replayed through its callback (removing it from the list); the charge group shows the open overlay, or else the cached profile; other groups change nothing; in every group the status and trip caches, the image cache and the image properties stay as they were |
| VehicleHandlers.VehicleHandler.ImageChange | bundles/org.openhab.binding.bmwconnecteddrive/src/main/java/org/openhab/binding/bmwconnecteddrive/internal/handler/VehicleHandler.java:240-263 | new image properties, with no failures, exactly when a string on the viewport channel or a number on the size channel differs from the current value |
| VehicleHandlers.VehicleHandler.HandleImageCommand | bundles/org.openhab.binding.bmwconnecteddrive/src/main/java/org/openhab/binding/bmwconnecteddrive/internal/handler/VehicleHandler.java:237-268 | for any command but a refresh (which `handleCommand` answers first), with a configuration: a change replaces the properties, empties the image cache and requests the new image; the new value is echoed (the size for any decimal in the group); without proxy the throw skips request and echo; without configuration nothing |
| VehicleHandlers.VehicleHandler.UpdateImage | bundles/org.openhab.binding.bmwconnecteddrive/src/main/java/org/openhab/binding/bmwconnecteddrive/internal/handler/VehicleHandler.java:243-250 | one branch of the image group once the change and the echo are known |
| VehicleHandlers.VehicleHandler.HandleChargeProfileCommand | bundles/org.openhab.binding.bmwconnecteddrive/src/main/java/org/openhab/binding/bmwconnecteddrive/internal/handler/VehicleHandler.java:799-869 | for any command but a refresh (which `handleCommand` answers first): with no session open and an empty or undecodable cache, nothing changes; otherwise the session starts from the open one or from the decoded cache; a processed command applies its edit, echoes the new state, cancels the pending timeout and schedules a fresh one; an unprocessed one leaves the timer and the logs untouched and the session stays as opened |
| VehicleHandlers.VehicleHandler.RestartEditTimeout | bundles/org.openhab.binding.bmwconnecteddrive/src/main/java/org/openhab/binding/bmwconnecteddrive/internal/handler/VehicleHandler.java:856-864 | the pending timer, if any, is cancelled and a fresh one scheduled |
| VehicleHandlers.VehicleHandler.FireEditTimeout | bundles/org.openhab.binding.bmwconnecteddrive/src/main/java/org/openhab/binding/bmwconnecteddrive/internal/handler/VehicleHandler.java:860-864 | timer and session cleared, the cached profile shown if there is one |
| VehicleHandlers.VehicleHandler.SendChargeProfile | bundles/org.openhab.binding.bmwconnecteddrive/src/main/java/org/openhab/binding/bmwconnecteddrive/internal/handler/VehicleHandler.java:905-911 | with a profile: its JSON is remembered as sent and executed as CHARGING_CONTROL when the remote handler exists; without one, nothing |
| VehicleHandlers.VehicleHandler.HandleChargingControlCommand | bundles/org.openhab.binding.bmwconnecteddrive/src/main/java/org/openhab/binding/bmwconnecteddrive/internal/handler/VehicleHandler.java:205-230 | with the remote handler and an open session, the overlay is sent; otherwise nothing changes |
| VehicleHandlers.VehicleHandler.SaveChargeProfileSent | bundles/org.openhab.binding.bmwconnecteddrive/src/main/java/org/openhab/binding/bmwconnecteddrive/internal/handler/VehicleHandler.java:871-882 | the timeout is always cancelled and cleared; only with a sent snapshot: it becomes the cache and is shown, snapshot and session cleared |
| VehicleHandlers.VehicleHandler.UpdateRemoteExecutionStatus | bundles/org.openhab.binding.bmwconnecteddrive/src/main/java/org/openhab/binding/bmwconnecteddrive/internal/handler/VehicleHandler.java:522-529 | only CHARGING_CONTROL with EXECUTED saves the sent profile; every notification is shown |
| Scenarios.EditSendConfirm | bundles/org.openhab.binding.bmwconnecteddrive/src/main/java/org/openhab/binding/bmwconnecteddrive/internal/handler/VehicleHandler.java:799-911 | edit, send, confirm: the edited profile is executed once, becomes the cache and is shown; session, snapshot and the edit's timer are gone |
| Scenarios.ProcessedEdit | bundles/org.openhab.binding.bmwconnecteddrive/src/main/java/org/openhab/binding/bmwconnecteddrive/internal/handler/VehicleHandler.java:799-864 | a processed charge command applies the edit to the open or freshly opened session, schedules its timeout on the next timer and echoes the edit |
| Scenarios.EditThenTimeout | bundles/org.openhab.binding.bmwconnecteddrive/src/main/java/org/openhab/binding/bmwconnecteddrive/internal/handler/VehicleHandler.java:856-864 | edit, then timeout: the overlay is dropped unsent, the cache is untouched and shown again |
| Scenarios.UnprocessedCommandOpensSession | bundles/org.openhab.binding.bmwconnecteddrive/src/main/java/org/openhab/binding/bmwconnecteddrive/internal/handler/VehicleHandler.java:801-867 | an unprocessed command other than a refresh opens a session from the cache with no timer scheduled and nothing shown |
| Scenarios.NotFoundThenNextCycle | bundles/org.openhab.binding.bmwconnecteddrive/src/main/java/org/openhab/binding/bmwconnecteddrive/internal/handler/VehicleHandler.java:755-758 | a 404, then the next cycle: the legacy status is requested by the error and again by the cycle, and the current endpoint never |
| Scenarios.NotFound | bundles/org.openhab.binding.bmwconnecteddrive/src/main/java/org/openhab/binding/bmwconnecteddrive/internal/handler/VehicleHandler.java:755-758 | a 404 on the status request switches to legacy mode and asks the legacy status once |

## Left out

- HTTP requests, remote executions and channel updates happen outside the handler. They are
  entries in the ghost logs; their content (JSON bodies, channel states derived by the parent
  class `VehicleChannelHandler`, `Converter.toTitleCase`, the guessed image content type) is
  not modelled.
- Gson parsing and serialising, `vac.transform()` and `ChargeProfileWrapper.fromJson`/`getJson`
  are uninterpreted functions. `ChargeProfileWrapper`'s own setters are modelled as plain map
  and field updates.
- `ImageProperties.failed()`/`failLimitReached()`: a failure counter and a fixed limit passed to
  the constructor. The real fail budget of `ImageProperties` is not part of this model.
- The content of `logFingerPrint` (redaction through `replaceAll`, the log lines) is not
  modelled. Only the number of times it ran is kept.
- `synchronized`, the scheduler and `ScheduledFuture`: each event is one atomic step. The
  periodic `getData` run and the timeout are explicit events. A cancelled timer is recorded in
  `cancelledTimers` and never fires, because `FireEditTimeout` requires a pending timer.
- The remote-service string dispatch in `handleCommand` (LIGHT_FLASH, DOOR_LOCK and the rest)
  forwards to the remote handler and is not modelled. Only its CHARGING_CONTROL case is
  (`HandleChargingControlCommand`).
- The destination, service and check-control index selection in `handleCommand` forwards to
  the parent class and is not modelled.
- `handleCommand`'s routing by channel group and command type is not one member. Each
  branch it routes to is its own event: `HandleRefresh`, `HandleImageCommand`,
  `HandleChargeProfileCommand` and `HandleChargingControlCommand`. The two repeated LAST_TRIP
  tests of the refresh branch can never be reached, and the model has one.
- The units/imperial setting in the initialisation task belongs to unit conversion in the
  parent class and is not modelled. The CONFIGURATION_ERROR branch of `initialize` is absent
  because the configuration is always present there.
- `getConfiguration`, `getScheduler` and `getServices` are accessors with no state change.
- The string values of the channel and channel-group constants are defined outside the
  handler and are not part of this model. Each constant is its own constructor of `ChannelId`
  or `ChannelGroup`, so the model takes them as pairwise distinct and distinct from any other
  identifier. `TablesDisjoint`, the agreement `DispatchFollowsBinding` and the group routing of
  `HandleRefresh` hold under that assumption. The service names in `Names` carry no such
  assumption and may coincide.
- `VehicleDiscovery` and `ConnectedCarConfiguration` are not part of this model, except that discovery may replace a running handler's thing properties (`SetThingProperties`).
