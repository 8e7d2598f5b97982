/**
 * VehicleHandler: the per-vehicle refresh cycle with its outstanding-request
 * tracker and response caches, the status ingest with its one-way switch to the
 * legacy API, and the charge-profile edit session with its timeout, send and
 * remote confirmation.
 *
 * Every method is one event, taken as an atomic step. What the handler asks of
 * the proxy, what it publishes to openHAB, how often it writes the troubleshoot
 * fingerprint and which edit timeouts it cancels are kept in ghost logs.
 */
module VehicleHandlers {
  import opened Options
  import Tracking
  import opened ChargeProfiles
  import opened ChargeChannels
  import opened VehicleTypes

  /** `String.contains`. */
  function Contains(s: string, sub: string): bool
    decreases |s|
  {
    sub <= s || (s != [] && Contains(s[1..], sub))
  }

  /** `Contains(s, sub)` holds exactly when `sub` occurs in `s` at some position. */
  lemma {:induction false} ContainsMeans(s: string, sub: string)
    ensures Contains(s, sub) <==> exists i :: 0 <= i <= |s| && sub <= s[i..]
    decreases |s|
  {
    assert s[0..] == s;
    if s != [] {
      ContainsMeans(s[1..], sub);
      if Contains(s[1..], sub) {
        var i :| 0 <= i <= |s[1..]| && sub <= s[1..][i..];
        assert s[1..][i..] == s[i + 1..];
      }
      if exists i :: 0 <= i <= |s| && sub <= s[i..] {
        var i :| 0 <= i <= |s| && sub <= s[i..];
        if i > 0 {
          assert s[1..][i - 1..] == s[i..];
        }
      }
    }
  }

  /** What one optional step of a refresh cycle contributes: `xs` when `wanted`, nothing otherwise. */
  function When<T>(wanted: bool, xs: seq<T>): seq<T>
  {
    if wanted then xs else []
  }

  /**
   * The callbacks one `getData` registers, given which optional sources it
   * fetches: the status callback first (whichever endpoint the status is
   * requested from), then one per optional source fetched (CallbackPlanSources
   * says which); never the range map and never the legacy callback.
   */
  function CallbackPlan(statistics: bool, destinations: bool, electric: bool, image: bool): (r: seq<Callback>)
    ensures r != [] && r[0] == StatusCb
    ensures RangeMapCb !in r && LegacyStatusCb !in r
    ensures |r| == 1 + (if statistics then 2 else 0) + (if destinations then 1 else 0)
                   + (if electric then 1 else 0) + (if image then 1 else 0)
  {
    [StatusCb] + When(statistics, [LastTripCb]) + When(statistics, [AllTripsCb])
      + When(destinations, [DestinationsCb]) + When(electric, [ChargeProfileCb]) + When(image, [ImageCb])
  }

  /**
   * Both trip callbacks are registered exactly with the statistics, the
   * destinations callback exactly with the destinations, the charge-profile
   * callback exactly for electric vehicles and the image callback exactly when
   * the image is fetched.
   */
  lemma CallbackPlanSources(statistics: bool, destinations: bool, electric: bool, image: bool)
    ensures var r := CallbackPlan(statistics, destinations, electric, image);
      && (LastTripCb in r <==> statistics)
      && (AllTripsCb in r <==> statistics)
      && (DestinationsCb in r <==> destinations)
      && (ChargeProfileCb in r <==> electric)
      && (ImageCb in r <==> image)
  {
    var status, last, all := [StatusCb], When(statistics, [LastTripCb]), When(statistics, [AllTripsCb]);
    var dest, charge, img := When(destinations, [DestinationsCb]), When(electric, [ChargeProfileCb]), When(image, [ImageCb]);
    forall x: Callback
      ensures x in CallbackPlan(statistics, destinations, electric, image)
          <==> x in status || x in last || x in all || x in dest || x in charge || x in img
    {
      InConcat(x, status, last, all, dest, charge, img);
    }
  }

  /** The status request of a cycle: from the legacy endpoint exactly in legacy mode. */
  function StatusRequestFor(legacy: bool): Request
  {
    if legacy then LegacyStatusRequest else StatusRequest
  }

  /**
   * The requests one `getData` issues: the status first, from the legacy
   * endpoint exactly in legacy mode and from the current one exactly outside
   * it, then one request per optional source fetched, in the order of
   * CallbackPlan (RequestPlanSources says which); never the range map.
   */
  function RequestPlan(legacy: bool, statistics: bool, destinations: bool, electric: bool, image: bool,
                       properties: ImageProperties): (r: seq<Request>)
    ensures r != [] && r[0] == (if legacy then LegacyStatusRequest else StatusRequest)
    ensures StatusRequest in r <==> !legacy
    ensures LegacyStatusRequest in r <==> legacy
    ensures RangeMapRequest !in r
    ensures |r| == 1 + (if statistics then 2 else 0) + (if destinations then 1 else 0)
                   + (if electric then 1 else 0) + (if image then 1 else 0)
  {
    [StatusRequestFor(legacy)] + When(statistics, [LastTripRequest]) + When(statistics, [AllTripsRequest])
      + When(destinations, [DestinationsRequest]) + When(electric, [ChargingProfileRequest])
      + When(image, [ImageRequest(properties)])
  }

  /**
   * Both trip requests are issued exactly with the statistics, the destinations
   * exactly with the destinations, the charge profile exactly for electric
   * vehicles and the image, for the given properties, exactly when the image
   * is fetched.
   */
  lemma RequestPlanSources(legacy: bool, statistics: bool, destinations: bool, electric: bool, image: bool,
                           properties: ImageProperties)
    ensures var r := RequestPlan(legacy, statistics, destinations, electric, image, properties);
      && (LastTripRequest in r <==> statistics)
      && (AllTripsRequest in r <==> statistics)
      && (DestinationsRequest in r <==> destinations)
      && (ChargingProfileRequest in r <==> electric)
      && (ImageRequest(properties) in r <==> image)
  {
    var status, last, all := [StatusRequestFor(legacy)], When(statistics, [LastTripRequest]), When(statistics, [AllTripsRequest]);
    var dest, charge, img := When(destinations, [DestinationsRequest]), When(electric, [ChargingProfileRequest]), When(image, [ImageRequest(properties)]);
    forall x: Request
      ensures x in RequestPlan(legacy, statistics, destinations, electric, image, properties)
          <==> x in status || x in last || x in all || x in dest || x in charge || x in img
    {
      InConcat(x, status, last, all, dest, charge, img);
    }
  }

  /** Membership in a concatenation of six parts. */
  lemma InConcat<T>(x: T, a: seq<T>, b: seq<T>, c: seq<T>, d: seq<T>, e: seq<T>, f: seq<T>)
    ensures x in a + b + c + d + e + f <==> x in a || x in b || x in c || x in d || x in e || x in f
  {
  }

  /** A list that may be absent, with `cs` appended when it is present. */
  function Appended<T>(list: Option<seq<T>>, cs: seq<T>): Option<seq<T>>
  {
    if list.Some? then Some(list.value + cs) else None
  }

  lemma AppendedTwice<T>(list: Option<seq<T>>, a: seq<T>, b: seq<T>)
    ensures Appended(Appended(list, a), b) == Appended(list, a + b)
  {
    if list.Some? {
      assert list.value + a + b == list.value + (a + b);
    }
  }

  /**
   * One optional step of a cycle, seen from its start: appending `xs` (when
   * wanted) to the requests and `ys` to the callback list extends what the
   * cycle has added so far by the same step.
   */
  lemma CycleStep<T, U>(r0: seq<T>, rs: seq<T>, c0: Option<seq<U>>, cs: seq<U>,
                        wanted: bool, xs: seq<T>, ys: seq<U>)
    ensures r0 + rs + When(wanted, xs) == r0 + (rs + When(wanted, xs))
    ensures Appended(Appended(c0, cs), When(wanted, ys)) == Appended(c0, cs + When(wanted, ys))
  {
    assert r0 + rs + When(wanted, xs) == r0 + (rs + When(wanted, xs));
    AppendedTwice(c0, cs, When(wanted, ys));
  }

  type TimerId = nat

  class VehicleHandler {
    // Fixed for the handler's lifetime
    const codecs: Codecs
    const names: Names
    const isElectric: bool
    /** The number of failed image fetches at which `failLimitReached()` holds. */
    const failLimit: nat

    /**
     * The thing property `Constants.SERVICES_SUPPORTED` (absent when not set); discovery
     * may replace the thing's properties while the handler runs.
     */
    var servicesSupported: Option<string>
    var legacyMode: bool
    var proxyPresent: bool
    var remotePresent: bool
    var configuration: Option<VehicleConfiguration>
    var bridgeHandlerPresent: bool
    var refreshJob: Option<RefreshJob>
    var editTimeout: Option<TimerId>
    var callbackCounter: Option<seq<Callback>>
    var imageProperties: ImageProperties
    /** `VehicleStatusCallback.thingStatus`. */
    var statusCallbackThingStatus: ThingStatus
    var chargeProfileEdit: Option<ChargeProfile>
    var chargeProfileSent: Option<string>

    var vehicleStatusCache: Option<string>
    var lastTripCache: Option<string>
    var allTripsCache: Option<string>
    var chargeProfileCache: Option<string>
    var destinationCache: Option<string>
    var rangeMapCache: Option<string>
    var imageCache: Option<seq<byte>>

    /** Stands for the scheduler's supply of fresh ScheduledFuture objects. */
    var nextTimer: TimerId

    ghost var requests: seq<Request>
    ghost var published: seq<Publication>
    ghost var fingerprints: nat
    ghost var cancelledTimers: set<TimerId>

    ghost predicate Valid()
      reads this`statusCallbackThingStatus, this`editTimeout, this`chargeProfileEdit, this`nextTimer
      reads this`cancelledTimers, this`imageCache
    {
      // nothing ever assigns the callback's status after its initialiser
      && statusCallbackThingStatus == Unknown
      // an edit timeout is pending only while an edit session is open
      && (editTimeout.Some? ==> chargeProfileEdit.Some?)
      && (editTimeout.Some? ==> editTimeout.value < nextTimer && editTimeout.value !in cancelledTimers)
      && (forall t :: t in cancelledTimers ==> t < nextTimer)
      // only non-empty images are cached
      && (imageCache.Some? ==> |imageCache.value| > 0)
    }

    ghost function TrackerView(): Tracking.Tracker<Callback>
      reads this`callbackCounter, this`fingerprints
    {
      Tracking.Tracker(callbackCounter, fingerprints)
    }

    /** The constructor and the field initialisers. */
    constructor (codecs: Codecs, names: Names, isElectric: bool, servicesSupported: Option<string>,
                 failLimit: nat, viewport: string, size: int)
      ensures Valid()
      ensures this.codecs == codecs && this.names == names && this.isElectric == isElectric
      ensures this.servicesSupported == servicesSupported && this.failLimit == failLimit
      ensures !legacyMode && !proxyPresent && !remotePresent && !bridgeHandlerPresent
      ensures configuration.None? && refreshJob.None? && editTimeout.None? && callbackCounter.None?
      ensures imageProperties == ImageProperties(viewport, size, 0)
      ensures chargeProfileEdit.None? && chargeProfileSent.None?
      ensures vehicleStatusCache.None? && lastTripCache.None? && allTripsCache.None?
      ensures chargeProfileCache.None? && destinationCache.None? && rangeMapCache.None? && imageCache.None?
      ensures requests == [] && published == [] && fingerprints == 0 && cancelledTimers == {}
    {
      this.codecs := codecs;
      this.names := names;
      this.isElectric := isElectric;
      this.servicesSupported := servicesSupported;
      this.failLimit := failLimit;
      legacyMode := false;
      proxyPresent, remotePresent, bridgeHandlerPresent := false, false, false;
      configuration, refreshJob, editTimeout, callbackCounter := None, None, None, None;
      imageProperties := ImageProperties(viewport, size, 0);
      statusCallbackThingStatus := Unknown;
      chargeProfileEdit, chargeProfileSent := None, None;
      vehicleStatusCache, lastTripCache, allTripsCache := None, None, None;
      chargeProfileCache, destinationCache, rangeMapCache, imageCache := None, None, None, None;
      nextTimer := 0;
      requests, published, fingerprints, cancelledTimers := [], [], 0, {};
    }

    // ---------------------------------------------------------------- lifecycle

    /**
     * `initialize`, up to handing the rest to the scheduler: a fresh, empty
     * callback list, status UNKNOWN, and the configuration (Optional.of, so
     * always present: the CONFIGURATION_ERROR branch cannot be taken).
     */
    method Initialize(config: VehicleConfiguration)
      requires Valid()
      modifies this`callbackCounter, this`published, this`configuration
      ensures Valid()
      ensures callbackCounter == Some([])
      ensures configuration == Some(config)
      ensures published == old(published) + [StatusUpdate(Unknown, NoDetail, "")]
    {
      callbackCounter := Some([]);
      published := published + [StatusUpdate(Unknown, NoDetail, "")];
      configuration := Some(config);
    }

    /**
     * The job `initialize` hands to the scheduler: bridge lookup, image
     * properties from the configuration, and the start of the refresh schedule.
     */
    method InitializeTask(bridge: BridgeLookup)
      requires Valid() && configuration.Some?
      modifies this`bridgeHandlerPresent, this`proxyPresent, this`remotePresent
      modifies this`imageProperties, this`published, this`refreshJob
      ensures Valid()
      ensures bridge.BridgeFound? ==> bridgeHandlerPresent && proxyPresent == bridge.proxyPresent
      ensures !bridge.BridgeFound? ==> bridgeHandlerPresent == old(bridgeHandlerPresent) && proxyPresent == old(proxyPresent)
      ensures remotePresent == (old(remotePresent) || (bridge.BridgeFound? && bridge.proxyPresent))
      ensures imageProperties == ImageProperties(configuration.value.imageViewport, configuration.value.imageSize, 0)
      ensures published == old(published) + [ImageViewportShown(configuration.value.imageViewport),
                                             ImageSizeShown(configuration.value.imageSize)]
      ensures refreshJob == (if old(refreshJob).Some? && !old(refreshJob).value.cancelled then old(refreshJob)
                             else Some(RefreshJob(configuration.value.refreshInterval, false)))
    {
      if bridge.BridgeFound? {
        bridgeHandlerPresent := true;
        proxyPresent := bridge.proxyPresent;
        if proxyPresent {
          remotePresent := true;
        }
      }
      var config := configuration.value;
      imageProperties := ImageProperties(config.imageViewport, config.imageSize, 0);
      published := published + [ImageViewportShown(config.imageViewport)];
      published := published + [ImageSizeShown(config.imageSize)];
      StartSchedule(config.refreshInterval);
    }

    /** `startSchedule`: schedule `getData` unless a job is already running. */
    method StartSchedule(interval: int)
      modifies this`refreshJob
      ensures old(refreshJob).Some? && !old(refreshJob).value.cancelled ==> refreshJob == old(refreshJob)
      ensures old(refreshJob).None? || old(refreshJob).value.cancelled ==> refreshJob == Some(RefreshJob(interval, false))
    {
      if refreshJob.Some? {
        if refreshJob.value.cancelled {
          refreshJob := Some(RefreshJob(interval, false));
        }
      } else {
        refreshJob := Some(RefreshJob(interval, false));
      }
    }

    /** `dispose`: cancel the refresh job; the edit timeout is left as it is. */
    method Dispose()
      modifies this`refreshJob
      ensures old(refreshJob).None? ==> refreshJob.None?
      ensures old(refreshJob).Some? ==> refreshJob == Some(old(refreshJob).value.(cancelled := true))
    {
      if refreshJob.Some? {
        refreshJob := Some(refreshJob.value.(cancelled := true));
      }
    }

    // ---------------------------------------------------------------- refresh cycle

    /**
     * `isSupported`: true when the supported-services property contains the
     * service name, and also, to collect troubleshoot data, whenever any of the
     * last-trip, all-trips or destination caches is still empty.
     */
    function IsSupported(service: string): (r: bool)
      reads this`servicesSupported, this`lastTripCache, this`allTripsCache, this`destinationCache
      ensures r <==>
        || (servicesSupported.Some? &&
            exists i :: 0 <= i <= |servicesSupported.value| && service <= servicesSupported.value[i..])
        || lastTripCache.None? || allTripsCache.None? || destinationCache.None?
    {
      match servicesSupported
      case None => lastTripCache.None? || allTripsCache.None? || destinationCache.None?
      case Some(services) =>
        ContainsMeans(services, service);
        Contains(services, service) || lastTripCache.None? || allTripsCache.None? || destinationCache.None?
    }

    /**
     * Discovery finds this handler's vehicle again and replaces the thing's
     * properties, among them the supported services; the handler's own state is
     * untouched, only what later `isSupported` calls read.
     */
    method SetThingProperties(services: Option<string>)
      modifies this`servicesSupported
      ensures servicesSupported == services
    {
      servicesSupported := services;
    }

    /** `imageProperties.failLimitReached()`. */
    function FailLimitReached(): bool
      reads this`imageProperties
    {
      imageProperties.failures >= failLimit
    }

    /** Whether this cycle fetches the image: none is cached and the fail limit is not reached. */
    predicate WantsImage()
      reads this`imageCache, this`imageProperties
    {
      imageCache.None? && !FailLimitReached()
    }

    /** The callbacks one `getData` registers. */
    function CycleCallbacks(): seq<Callback>
      reads this`servicesSupported, this`lastTripCache, this`allTripsCache, this`destinationCache, this`imageCache, this`imageProperties
    {
      CallbackPlan(IsSupported(names.statistics), IsSupported(names.lastDestinations), isElectric, WantsImage())
    }

    /** The requests one `getData` issues. */
    function CycleRequests(): (r: seq<Request>)
      reads this`servicesSupported, this`legacyMode, this`lastTripCache, this`allTripsCache, this`destinationCache, this`imageCache, this`imageProperties
      ensures r != [] && r[0] == StatusRequestFor(legacyMode)
      ensures StatusRequest in r <==> !legacyMode
      ensures RangeMapRequest !in r
    {
      RequestPlan(legacyMode, IsSupported(names.statistics), IsSupported(names.lastDestinations), isElectric,
                  WantsImage(), imageProperties)
    }

    /**
     * `getData`: with proxy and configuration present, run one refresh cycle;
     * otherwise only a warning is logged.
     */
    method GetData()
      modifies this`callbackCounter, this`requests
      ensures proxyPresent && configuration.Some? ==>
        requests == old(requests) + old(CycleRequests())
        && callbackCounter == Appended(old(callbackCounter), old(CycleCallbacks()))
      ensures !(proxyPresent && configuration.Some?) ==>
        requests == old(requests) && callbackCounter == old(callbackCounter)
    {
      if proxyPresent && configuration.Some? {
        RequestCycle();
      }
    }

    /**
     * The body of `getData` once proxy and configuration are present: issue the
     * cycle's requests and append its callbacks to the list (nothing is
     * appended when the list is absent).
     */
    method RequestCycle()
      requires proxyPresent && configuration.Some?
      modifies this`callbackCounter, this`requests
      ensures requests == old(requests) + old(CycleRequests())
      ensures callbackCounter == Appended(old(callbackCounter), old(CycleCallbacks()))
    {
      // the vehicle state the choices depend on does not change during the cycle
      var statistics, destinations, image := IsSupported(names.statistics), IsSupported(names.lastDestinations), WantsImage();
      assert CycleRequests() == RequestPlan(legacyMode, statistics, destinations, isElectric, image, imageProperties);
      assert CycleCallbacks() == CallbackPlan(statistics, destinations, isElectric, image);
      FetchAll(legacyMode, statistics, destinations, image, imageProperties);
    }

    /**
     * The requests of one cycle for the given choices, in the order `getData`
     * issues them, each with its callback.
     */
    method FetchAll(legacy: bool, statistics: bool, destinations: bool, image: bool, properties: ImageProperties)
      modifies this`callbackCounter, this`requests
      ensures requests == old(requests) + RequestPlan(legacy, statistics, destinations, isElectric, image, properties)
      ensures callbackCounter == Appended(old(callbackCounter), CallbackPlan(statistics, destinations, isElectric, image))
    {
      FetchStatusAndTrips(legacy, statistics);
      // rs and cs follow what this cycle has requested and registered so far
      ghost var requests0, counter0 := old(requests), old(callbackCounter);
      ghost var rs := [StatusRequestFor(legacy)] + When(statistics, [LastTripRequest]) + When(statistics, [AllTripsRequest]);
      ghost var cs := [StatusCb] + When(statistics, [LastTripCb]) + When(statistics, [AllTripsCb]);
      Fetch(destinations, DestinationsRequest, DestinationsCb, requests0, rs, counter0, cs);
      rs, cs := rs + When(destinations, [DestinationsRequest]), cs + When(destinations, [DestinationsCb]);
      Fetch(isElectric, ChargingProfileRequest, ChargeProfileCb, requests0, rs, counter0, cs);
      rs, cs := rs + When(isElectric, [ChargingProfileRequest]), cs + When(isElectric, [ChargeProfileCb]);
      Fetch(image, ImageRequest(properties), ImageCb, requests0, rs, counter0, cs);
    }

    /** The first part of a cycle: the status (from the endpoint `legacy` selects) and the trips. */
    method FetchStatusAndTrips(legacy: bool, statistics: bool)
      modifies this`callbackCounter, this`requests
      ensures requests == old(requests)
        + ([StatusRequestFor(legacy)] + When(statistics, [LastTripRequest]) + When(statistics, [AllTripsRequest]))
      ensures callbackCounter == Appended(old(callbackCounter),
        [StatusCb] + When(statistics, [LastTripCb]) + When(statistics, [AllTripsCb]))
    {
      ghost var requests0, counter0 := requests, callbackCounter;
      ghost var rs: seq<Request>, cs: seq<Callback> := [], [];
      assert requests == requests0 + rs;
      assert counter0.Some? ==> counter0.value + cs == counter0.value;
      if !legacy {
        Fetch(true, StatusRequest, StatusCb, requests0, rs, counter0, cs);
      } else {
        Fetch(true, LegacyStatusRequest, StatusCb, requests0, rs, counter0, cs);
      }
      assert rs + When(true, [StatusRequestFor(legacy)]) == [StatusRequestFor(legacy)];
      assert cs + When(true, [StatusCb]) == [StatusCb];
      rs, cs := [StatusRequestFor(legacy)], [StatusCb];
      Fetch(statistics, LastTripRequest, LastTripCb, requests0, rs, counter0, cs);
      rs, cs := rs + When(statistics, [LastTripRequest]), cs + When(statistics, [LastTripCb]);
      Fetch(statistics, AllTripsRequest, AllTripsCb, requests0, rs, counter0, cs);
    }

    /**
     * One `prox.requestX(config, callback)` with the matching `addCallback`,
     * when the cycle fetches that source. The ghost parameters are the cycle
     * seen so far: the requests and callback list before it started and what
     * it has added since; the call extends what was added by this one step.
     */
    method Fetch(wanted: bool, request: Request, callback: Callback,
                 ghost requests0: seq<Request>, ghost rs: seq<Request>,
                 ghost counter0: Option<seq<Callback>>, ghost cs: seq<Callback>)
      requires requests == requests0 + rs
      requires callbackCounter == Appended(counter0, cs)
      modifies this`callbackCounter, this`requests
      ensures requests == requests0 + (rs + When(wanted, [request]))
      ensures callbackCounter == Appended(counter0, cs + When(wanted, [callback]))
    {
      CycleStep(requests0, rs, counter0, cs, wanted, [request], [callback]);
      if wanted {
        requests := requests + [request];
        AddCallback(callback);
      } else {
        assert requests + [] == requests;
        if callbackCounter.Some? {
          assert callbackCounter.value + [] == callbackCounter.value;
        }
      }
    }

    /** `addCallback`: append while the list exists. */
    method AddCallback(rc: Callback)
      modifies this`callbackCounter
      ensures callbackCounter == Appended(old(callbackCounter), [rc])
      ensures TrackerView() == Tracking.Add(old(TrackerView()), rc)
    {
      if callbackCounter.Some? {
        callbackCounter := Some(callbackCounter.value + [rc]);
      }
    }

    /**
     * `removeCallback`: remove one occurrence; when the list is then empty,
     * write the fingerprint and drop the list.
     */
    method RemoveCallback(rc: Callback)
      modifies this`callbackCounter, this`fingerprints
      ensures TrackerView() == Tracking.Remove(old(TrackerView()), rc)
    {
      if callbackCounter.Some? {
        var counter := Tracking.RemoveFirst(callbackCounter.value, rc);
        callbackCounter := Some(counter);
        if counter == [] {
          LogFingerPrint();
          callbackCounter := None;
        }
      }
    }

    /** `logFingerPrint`; its log output is not modelled, only that it ran. */
    method LogFingerPrint()
      modifies this`fingerprints
      ensures fingerprints == old(fingerprints) + 1
    {
      fingerprints := fingerprints + 1;
    }

    // ---------------------------------------------------------------- status ingest

    /** The channels a decoded payload updates: only a container with its inner object. */
    function Shown(source: Source, content: string): seq<Publication>
    {
      if codecs.decode(source, content) == Container(true) then [SourceChannels(source, content)] else []
    }

    /** A status container without vehicleStatus: onResponse returns before removeCallback. */
    predicate NoVehicleStatus(content: string)
    {
      codecs.decode(StatusData, content) == Container(false)
    }

    /** `VehicleStatusCallback.setThingStatus`: update unless the callback's status equals the new one. */
    method SetThingStatus(status: ThingStatus, detail: ThingStatusDetail, reason: string)
      requires Valid()
      modifies this`published
      ensures Valid()
      ensures published == old(published) + (if statusCallbackThingStatus != status then [StatusUpdate(status, detail, reason)] else [])
    {
      if statusCallbackThingStatus != status {
        published := published + [StatusUpdate(status, detail, reason)];
      }
    }

    /**
     * The effect of `VehicleStatusCallback.onResponse(content)`: ONLINE is
     * published every time, the content is cached, the status channels are
     * updated when it decodes to a status, and the callback is removed unless
     * the container lacks a vehicleStatus.
     */
    twostate predicate RespondedStatus(content: string)
      reads this`vehicleStatusCache, this`published, this`callbackCounter, this`fingerprints
    {
      && vehicleStatusCache == Some(content)
      && published == old(published) + [StatusUpdate(Online, NoDetail, "")] + Shown(StatusData, content)
      && TrackerView() == (if NoVehicleStatus(content) then old(TrackerView())
                           else Tracking.Remove(old(TrackerView()), StatusCb))
    }

    method OnStatusResponse(content: Option<string>)
      requires Valid()
      modifies this`vehicleStatusCache, this`published, this`callbackCounter, this`fingerprints
      ensures Valid()
      ensures vehicleStatusCache == (if content.Some? then content else old(vehicleStatusCache))
      ensures content.Some? ==> RespondedStatus(content.value)
      ensures content.None? ==>
        published == old(published) && TrackerView() == Tracking.Remove(old(TrackerView()), StatusCb)
    {
      if content.Some? {
        var c := content.value;
        SetThingStatus(Online, NoDetail, "");
        vehicleStatusCache := Some(c);
        var decoded := codecs.decode(StatusData, c);
        if decoded == Container(false) {
          return;
        }
        if decoded == Container(true) {
          published := published + [SourceChannels(StatusData, c)];
        }
      }
      RemoveCallback(StatusCb);
    }

    /** A 404 with proxy or configuration absent: `proxy.get()` throws after legacyMode is set. */
    predicate StatusErrorThrows(error: NetworkError)
      reads this`proxyPresent, this`configuration
    {
      error.status == 404 && !(proxyPresent && configuration.Some?)
    }

    /**
     * `VehicleStatusCallback.onError`: a 404 switches to legacy mode for good and
     * requests the legacy status once; every error is cached as JSON, reported
     * OFFLINE with its reason, and removes the callback.
     */
    method OnStatusError(error: NetworkError)
      requires Valid()
      modifies this`legacyMode, this`requests, this`vehicleStatusCache, this`published
      modifies this`callbackCounter, this`fingerprints
      ensures Valid()
      ensures legacyMode == (old(legacyMode) || error.status == 404)
      ensures old(StatusErrorThrows(error)) ==>
        requests == old(requests) && vehicleStatusCache == old(vehicleStatusCache)
        && published == old(published) && TrackerView() == old(TrackerView())
      ensures !old(StatusErrorThrows(error)) ==>
        requests == old(requests) + (if error.status == 404 then [LegacyStatusRequest] else [])
        && vehicleStatusCache == Some(codecs.errorJson(error))
        && published == old(published) + [StatusUpdate(Offline, CommunicationError, error.reason)]
        && TrackerView() == Tracking.Remove(old(TrackerView()), StatusCb)
    {
      ghost var tracker := TrackerView();
      if error.status == 404 {
        legacyMode := true;
        if !(proxyPresent && configuration.Some?) {
          assert TrackerView() == tracker;
          return;
        }
        requests := requests + [LegacyStatusRequest];
      }
      ReportError(error);
    }

    /** The part of `onError` every error that is not thrown reaches. */
    method ReportError(error: NetworkError)
      requires Valid()
      modifies this`vehicleStatusCache, this`published, this`callbackCounter, this`fingerprints
      ensures Valid()
      ensures vehicleStatusCache == Some(codecs.errorJson(error))
      ensures published == old(published) + [StatusUpdate(Offline, CommunicationError, error.reason)]
      ensures TrackerView() == Tracking.Remove(old(TrackerView()), StatusCb)
    {
      vehicleStatusCache := Some(codecs.errorJson(error));
      SetThingStatus(Offline, CommunicationError, error.reason);
      RemoveCallback(StatusCb);
    }

    /** The canonical status a legacy response is turned into, if it decodes. */
    function LegacyCanonical(content: Option<string>): Option<string>
    {
      if content.Some? && codecs.decodeLegacy(content.value).Attributes? then
        Some(codecs.decodeLegacy(content.value).canonical)
      else None
    }

    /**
     * `LegacyVehicleStatusCallback.onResponse`: a decodable legacy payload is
     * transformed and handed to the status callback; otherwise nothing happens,
     * not even the removal of a callback.
     */
    method OnLegacyStatusResponse(content: Option<string>)
      requires Valid()
      modifies this`vehicleStatusCache, this`published, this`callbackCounter, this`fingerprints
      ensures Valid()
      ensures LegacyCanonical(content).Some? ==> RespondedStatus(LegacyCanonical(content).value)
      ensures LegacyCanonical(content).None? ==>
        vehicleStatusCache == old(vehicleStatusCache) && published == old(published)
        && TrackerView() == old(TrackerView())
    {
      if content.Some? {
        var decoded := codecs.decodeLegacy(content.value);
        if decoded.Attributes? {
          OnStatusResponse(Some(decoded.canonical));
        }
      }
    }

    /** `LegacyVehicleStatusCallback.onError`: exactly the status callback's onError. */
    method OnLegacyStatusError(error: NetworkError)
      requires Valid()
      modifies this`legacyMode, this`requests, this`vehicleStatusCache, this`published
      modifies this`callbackCounter, this`fingerprints
      ensures Valid()
      ensures legacyMode == (old(legacyMode) || error.status == 404)
      ensures old(StatusErrorThrows(error)) ==>
        requests == old(requests) && vehicleStatusCache == old(vehicleStatusCache)
        && published == old(published) && TrackerView() == old(TrackerView())
      ensures !old(StatusErrorThrows(error)) ==>
        requests == old(requests) + (if error.status == 404 then [LegacyStatusRequest] else [])
        && vehicleStatusCache == Some(codecs.errorJson(error))
        && published == old(published) + [StatusUpdate(Offline, CommunicationError, error.reason)]
        && TrackerView() == Tracking.Remove(old(TrackerView()), StatusCb)
    {
      OnStatusError(error);
    }

    // ---------------------------------------------------------------- other sources

    /** `LastTripCallback.onResponse`. */
    method OnLastTripResponse(content: Option<string>)
      modifies this`lastTripCache, this`published, this`callbackCounter, this`fingerprints
      ensures lastTripCache == (if content.Some? then content else old(lastTripCache))
      ensures published == old(published) + (if content.Some? then Shown(LastTripData, content.value) else [])
      ensures TrackerView() == Tracking.Remove(old(TrackerView()), LastTripCb)
    {
      if content.Some? {
        lastTripCache := content;
        published := published + Shown(LastTripData, content.value);
      }
      RemoveCallback(LastTripCb);
    }

    /** `LastTripCallback.onError`. */
    method OnLastTripError(error: NetworkError)
      modifies this`lastTripCache, this`callbackCounter, this`fingerprints
      ensures lastTripCache == Some(codecs.errorJson(error))
      ensures TrackerView() == Tracking.Remove(old(TrackerView()), LastTripCb)
    {
      lastTripCache := Some(codecs.errorJson(error));
      RemoveCallback(LastTripCb);
    }

    /** `AllTripsCallback.onResponse`. */
    method OnAllTripsResponse(content: Option<string>)
      modifies this`allTripsCache, this`published, this`callbackCounter, this`fingerprints
      ensures allTripsCache == (if content.Some? then content else old(allTripsCache))
      ensures published == old(published) + (if content.Some? then Shown(AllTripsData, content.value) else [])
      ensures TrackerView() == Tracking.Remove(old(TrackerView()), AllTripsCb)
    {
      if content.Some? {
        allTripsCache := content;
        published := published + Shown(AllTripsData, content.value);
      }
      RemoveCallback(AllTripsCb);
    }

    /** `AllTripsCallback.onError`. */
    method OnAllTripsError(error: NetworkError)
      modifies this`allTripsCache, this`callbackCounter, this`fingerprints
      ensures allTripsCache == Some(codecs.errorJson(error))
      ensures TrackerView() == Tracking.Remove(old(TrackerView()), AllTripsCb)
    {
      allTripsCache := Some(codecs.errorJson(error));
      RemoveCallback(AllTripsCb);
    }

    /** `DestinationsCallback.onResponse`: the cache takes the content even when it is null. */
    method OnDestinationsResponse(content: Option<string>)
      modifies this`destinationCache, this`published, this`callbackCounter, this`fingerprints
      ensures destinationCache == content
      ensures published == old(published) + (if content.Some? then Shown(DestinationData, content.value) else [])
      ensures TrackerView() == Tracking.Remove(old(TrackerView()), DestinationsCb)
    {
      destinationCache := content;
      if content.Some? {
        published := published + Shown(DestinationData, content.value);
      }
      RemoveCallback(DestinationsCb);
    }

    /** `DestinationsCallback.onError`. */
    method OnDestinationsError(error: NetworkError)
      modifies this`destinationCache, this`callbackCounter, this`fingerprints
      ensures destinationCache == Some(codecs.errorJson(error))
      ensures TrackerView() == Tracking.Remove(old(TrackerView()), DestinationsCb)
    {
      destinationCache := Some(codecs.errorJson(error));
      RemoveCallback(DestinationsCb);
    }

    /** `RangeMapCallback.onResponse`: the cache takes the content even when it is null. */
    method OnRangeMapResponse(content: Option<string>)
      modifies this`rangeMapCache, this`callbackCounter, this`fingerprints
      ensures rangeMapCache == content
      ensures TrackerView() == Tracking.Remove(old(TrackerView()), RangeMapCb)
    {
      rangeMapCache := content;
      RemoveCallback(RangeMapCb);
    }

    /** `RangeMapCallback.onError`. */
    method OnRangeMapError(error: NetworkError)
      modifies this`rangeMapCache, this`callbackCounter, this`fingerprints
      ensures rangeMapCache == Some(codecs.errorJson(error))
      ensures TrackerView() == Tracking.Remove(old(TrackerView()), RangeMapCb)
    {
      rangeMapCache := Some(codecs.errorJson(error));
      RemoveCallback(RangeMapCb);
    }

    /**
     * `ImageCallback.onResponse`: a non-empty image is cached and shown, whatever
     * viewport and size it was requested for; an empty one counts as a failure.
     */
    method OnImageResponse(content: seq<byte>)
      requires Valid()
      modifies this`imageCache, this`imageProperties, this`published, this`callbackCounter, this`fingerprints
      ensures Valid()
      ensures |content| > 0 ==>
        imageCache == Some(content) && imageProperties == old(imageProperties)
        && published == old(published) + [ImageShown(content)]
      ensures |content| == 0 ==>
        imageCache == old(imageCache) && published == old(published)
        && imageProperties == old(imageProperties).(failures := old(imageProperties).failures + 1)
      ensures TrackerView() == Tracking.Remove(old(TrackerView()), ImageCb)
    {
      if |content| > 0 {
        imageCache := Some(content);
        published := published + [ImageShown(content)];
      } else {
        imageProperties := imageProperties.(failures := imageProperties.failures + 1);
      }
      RemoveCallback(ImageCb);
    }

    /** `ImageCallback.onError`: a failure; nothing is cached. */
    method OnImageError(error: NetworkError)
      modifies this`imageProperties, this`callbackCounter, this`fingerprints
      ensures imageProperties == old(imageProperties).(failures := old(imageProperties).failures + 1)
      ensures TrackerView() == Tracking.Remove(old(TrackerView()), ImageCb)
    {
      imageProperties := imageProperties.(failures := imageProperties.failures + 1);
      RemoveCallback(ImageCb);
    }

    /** `ChargeProfilesCallback.onResponse`: cached always, shown only while no session is open. */
    method OnChargeProfileResponse(content: Option<string>)
      modifies this`chargeProfileCache, this`published, this`callbackCounter, this`fingerprints
      ensures chargeProfileCache == (if content.Some? then content else old(chargeProfileCache))
      ensures published == old(published) +
        (if content.Some? && chargeProfileEdit.None? then [ChargeProfileFromContent(content.value)] else [])
      ensures TrackerView() == Tracking.Remove(old(TrackerView()), ChargeProfileCb)
    {
      if content.Some? {
        chargeProfileCache := content;
        if chargeProfileEdit.None? {
          published := published + [ChargeProfileFromContent(content.value)];
        }
      }
      RemoveCallback(ChargeProfileCb);
    }

    /** `ChargeProfilesCallback.onError`. */
    method OnChargeProfileError(error: NetworkError)
      modifies this`chargeProfileCache, this`callbackCounter, this`fingerprints
      ensures chargeProfileCache == Some(codecs.errorJson(error))
      ensures TrackerView() == Tracking.Remove(old(TrackerView()), ChargeProfileCb)
    {
      chargeProfileCache := Some(codecs.errorJson(error));
      RemoveCallback(ChargeProfileCb);
    }

    // ---------------------------------------------------------------- handleCommand

    /** The status group's refresh: replay the cached status, if any, through its callback. */
    method RefreshStatus()
      requires Valid()
      modifies this`vehicleStatusCache, this`published, this`callbackCounter, this`fingerprints
      ensures Valid()
      ensures vehicleStatusCache == old(vehicleStatusCache)
      ensures old(vehicleStatusCache).Some? ==> RespondedStatus(old(vehicleStatusCache).value)
      ensures old(vehicleStatusCache).None? ==> published == old(published) && TrackerView() == old(TrackerView())
    {
      if vehicleStatusCache.Some? {
        OnStatusResponse(vehicleStatusCache);
      }
    }

    /**
     * The RefreshType branch of `handleCommand`: replay the cached payload
     * through its callback (which removes that callback from the list like a
     * real response); for the charge group, show the open session's overlay,
     * or else the cached profile.
     */
    method HandleRefresh(group: ChannelGroup)
      requires Valid()
      modifies this`lastTripCache, this`allTripsCache, this`vehicleStatusCache, this`imageCache
      modifies this`imageProperties, this`published, this`callbackCounter, this`fingerprints
      ensures Valid()
      ensures lastTripCache == old(lastTripCache) && allTripsCache == old(allTripsCache)
      ensures vehicleStatusCache == old(vehicleStatusCache)
      ensures imageCache == old(imageCache) && imageProperties == old(imageProperties)
      ensures group.LastTripGroup? ==>
        if old(lastTripCache).Some? then
          published == old(published) + Shown(LastTripData, old(lastTripCache).value)
          && TrackerView() == Tracking.Remove(old(TrackerView()), LastTripCb)
        else published == old(published) && TrackerView() == old(TrackerView())
      ensures group.LifetimeGroup? ==>
        if old(allTripsCache).Some? then
          published == old(published) + Shown(AllTripsData, old(allTripsCache).value)
          && TrackerView() == Tracking.Remove(old(TrackerView()), AllTripsCb)
        else published == old(published) && TrackerView() == old(TrackerView())
      ensures group.StatusGroup? ==>
        if old(vehicleStatusCache).Some? then RespondedStatus(old(vehicleStatusCache).value)
        else published == old(published) && TrackerView() == old(TrackerView())
      ensures group.ChargeGroup? ==>
        TrackerView() == old(TrackerView())
        && published == old(published) +
          (if chargeProfileEdit.Some? then [ChargeProfileShown(chargeProfileEdit.value)]
           else if chargeProfileCache.Some? then [ChargeProfileFromContent(chargeProfileCache.value)]
           else [])
      ensures group.VehicleImageGroup? ==>
        if old(imageCache).Some? then
          published == old(published) + [ImageShown(old(imageCache).value)]
          && TrackerView() == Tracking.Remove(old(TrackerView()), ImageCb)
        else published == old(published) && TrackerView() == old(TrackerView())
      ensures group.OtherGroup? ==> published == old(published) && TrackerView() == old(TrackerView())
    {
      match group
      case LastTripGroup =>
        if lastTripCache.Some? {
          OnLastTripResponse(lastTripCache);
        }
      case LifetimeGroup =>
        if allTripsCache.Some? {
          OnAllTripsResponse(allTripsCache);
        }
      case StatusGroup =>
        RefreshStatus();
      case ChargeGroup =>
        if chargeProfileEdit.Some? {
          published := published + [ChargeProfileShown(chargeProfileEdit.value)];
        } else if chargeProfileCache.Some? {
          published := published + [ChargeProfileFromContent(chargeProfileCache.value)];
        }
      case VehicleImageGroup =>
        if imageCache.Some? {
          OnImageResponse(imageCache.value);
        }
      case OtherGroup(_) =>
    }

    /**
     * The image properties an image-group command asks for, when they differ
     * from the current ones: a string on the viewport channel or a number on
     * the size channel. The new properties start with no failures.
     * The ensures are the two cases spelled out as implications: they are what
     * `HandleImageCommand` builds its contract on without unfolding this body.
     */
    function ImageChange(p: ImageProperties, id: ChannelId, cmd: Command): (r: Option<ImageProperties>)
      ensures r.Some? ==> r.value != p && r.value.failures == 0
      ensures r.Some? ==>
        || (cmd.StringCmd? && id == ImageViewport && r.value == ImageProperties(cmd.text, p.size, 0))
        || (cmd.DecimalCmd? && id == ImageSize && r.value == ImageProperties(p.viewport, cmd.value, 0))
      ensures r.None? ==>
        && !(cmd.StringCmd? && id == ImageViewport && cmd.text != p.viewport)
        && !(cmd.DecimalCmd? && id == ImageSize && cmd.value != p.size)
    {
      match cmd
      case StringCmd(v) =>
        if id == ImageViewport && p.viewport != v then Some(ImageProperties(v, p.size, 0)) else None
      case DecimalCmd(n) =>
        if id == ImageSize && p.size != n then Some(ImageProperties(p.viewport, n, 0)) else None
      case _ => None
    }

    /**
     * The state echoed by an image-group command: the viewport for a string on
     * the viewport channel, and the size for ANY decimal command in the group.
     */
    function ImageEcho(id: ChannelId, cmd: Command): Option<Publication>
    {
      match cmd
      case StringCmd(v) => if id == ImageViewport then Some(ImageViewportShown(v)) else None
      case DecimalCmd(n) => Some(ImageSizeShown(n))
      case _ => None
    }

    /**
     * The image-group branch of `handleCommand`: with a configuration present,
     * a changed viewport or size replaces the image properties, empties the
     * image cache and requests a new image (without registering a callback);
     * then the new value is echoed. With the proxy absent, `proxy.get()`
     * throws after the cache is emptied, so no request and no echo. A refresh
     * is answered by `HandleRefresh` and never reaches this branch.
     */
    method HandleImageCommand(id: ChannelId, cmd: Command)
      requires Valid() && !cmd.RefreshCmd?
      modifies this`imageProperties, this`imageCache, this`requests, this`published
      ensures Valid()
      ensures configuration.None? ==>
        imageProperties == old(imageProperties) && imageCache == old(imageCache)
        && requests == old(requests) && published == old(published)
      ensures configuration.Some? ==>
        var change := ImageChange(old(imageProperties), id, cmd);
        && imageProperties == (if change.Some? then change.value else old(imageProperties))
        && imageCache == (if change.Some? then None else old(imageCache))
        && requests == old(requests) + (if change.Some? && proxyPresent then [ImageRequest(change.value)] else [])
        && published == old(published) +
             (if ImageEcho(id, cmd).Some? && (change.None? || proxyPresent) then [ImageEcho(id, cmd).value] else [])
    {
      if configuration.Some? {
        if cmd.StringCmd? {
          if id == ImageViewport {
            UpdateImage(ImageChange(imageProperties, id, cmd), ImageViewportShown(cmd.text));
          }
        } else if cmd.DecimalCmd? {
          UpdateImage(ImageChange(imageProperties, id, cmd), ImageSizeShown(cmd.value));
        }
      }
    }

    /**
     * One branch of the image group once the new state is known: a change
     * replaces the properties, empties the cache and requests the new image,
     * unless `proxy.get()` throws; then the echo is published.
     */
    method UpdateImage(change: Option<ImageProperties>, echo: Publication)
      requires Valid()
      modifies this`imageProperties, this`imageCache, this`requests, this`published
      ensures Valid()
      ensures imageProperties == (if change.Some? then change.value else old(imageProperties))
      ensures imageCache == (if change.Some? then None else old(imageCache))
      ensures requests == old(requests) + (if change.Some? && proxyPresent then [ImageRequest(change.value)] else [])
      ensures published == old(published) + (if change.None? || proxyPresent then [echo] else [])
    {
      if change.Some? {
        imageProperties := change.value;
        imageCache := None;
        if !proxyPresent {
          return;
        }
        requests := requests + [ImageRequest(imageProperties)];
      }
      published := published + [echo];
    }

    // ---------------------------------------------------------------- charge profile edit session

    /**
     * `getChargeProfileWrapper`: the cached profile, decoded; absent when
     * nothing is cached or the cache does not decode.
     */
    function GetChargeProfileWrapper(): Option<ChargeProfile>
      reads this`chargeProfileCache
    {
      match chargeProfileCache
      case None => None
      case Some(cache) => codecs.decodeProfile(cache)
    }

    /** The session a charge command works on: the open one, or one opened from the cache. */
    function OpenedSession(): Option<ChargeProfile>
      reads this`chargeProfileEdit, this`chargeProfileCache
    {
      if chargeProfileEdit.Some? then chargeProfileEdit else GetChargeProfileWrapper()
    }

    /** The state a processed edit echoes: preference, mode, or the timed state of the edited key. */
    function EditEcho(p: ChargeProfile, e: Edit): Publication
    {
      match e
      case SetPreference(_) => PreferenceShown(p.preference)
      case SetMode(_) => ModeShown(p.mode)
      case SetEnabled(k, _) => TimedStateShown(k, p)
      case SetDayEnabled(k, _, _) => TimedStateShown(k, p)
      case SetHour(k, _) => TimedStateShown(k, p)
      case SetMinute(k, _) => TimedStateShown(k, p)
    }

    /**
     * `handleChargeProfileCommand`: open a session from the cache if none is
     * open (no session if the cache is empty or does not decode); then apply
     * the command's setter. A processed command echoes the new state, cancels
     * the pending timeout and schedules a fresh one; an unprocessed one leaves
     * the timer alone, but the session it may have opened stays open.
     * `handleCommand` answers a REFRESH before it looks at the group, so a
     * refresh never reaches this branch.
     */
    method HandleChargeProfileCommand(id: ChannelId, cmd: Command)
      requires Valid() && !cmd.RefreshCmd?
      modifies this`chargeProfileEdit, this`editTimeout, this`nextTimer, this`cancelledTimers, this`published
      ensures Valid()
      ensures (old(chargeProfileEdit).None? &&
               (old(chargeProfileCache).None? || codecs.decodeProfile(old(chargeProfileCache).value).None?)) ==>
        && chargeProfileEdit.None? && editTimeout == old(editTimeout) && nextTimer == old(nextTimer)
        && cancelledTimers == old(cancelledTimers) && published == old(published)
      ensures (old(chargeProfileEdit).None? && old(chargeProfileCache).Some? &&
               codecs.decodeProfile(old(chargeProfileCache).value).Some?) ==>
        var start := codecs.decodeProfile(old(chargeProfileCache).value).value;
        chargeProfileEdit == Some(if Dispatch(id, cmd).Some? then Apply(start, Dispatch(id, cmd).value) else start)
      ensures old(chargeProfileEdit).Some? ==>
        chargeProfileEdit == Some(if Dispatch(id, cmd).Some? then Apply(old(chargeProfileEdit).value, Dispatch(id, cmd).value)
                                  else old(chargeProfileEdit).value)
      ensures var session := old(OpenedSession()); var edit := Dispatch(id, cmd);
        if session.Some? && edit.Some? then
          && chargeProfileEdit == Some(Apply(session.value, edit.value))
          && editTimeout == Some(old(nextTimer)) && nextTimer == old(nextTimer) + 1
          && cancelledTimers == old(cancelledTimers) + Elements(old(editTimeout))
          && published == old(published) + [EditEcho(Apply(session.value, edit.value), edit.value)]
        else
          && chargeProfileEdit == session
          && editTimeout == old(editTimeout) && nextTimer == old(nextTimer)
          && cancelledTimers == old(cancelledTimers) && published == old(published)
    {
      if chargeProfileEdit.None? {
        chargeProfileEdit := GetChargeProfileWrapper();
      }
      if chargeProfileEdit.Some? {
        var profile := chargeProfileEdit.value;
        var edit := Dispatch(id, cmd);
        if edit.Some? {
          profile := Apply(profile, edit.value);
          chargeProfileEdit := Some(profile);
          published := published + [EditEcho(profile, edit.value)];
          RestartEditTimeout();
        }
      }
    }

    /** Cancel the pending edit timeout, if any, and schedule a fresh five-minute one. */
    method RestartEditTimeout()
      requires Valid() && chargeProfileEdit.Some?
      modifies this`editTimeout, this`nextTimer, this`cancelledTimers
      ensures Valid()
      ensures editTimeout == Some(old(nextTimer)) && nextTimer == old(nextTimer) + 1
      ensures cancelledTimers == old(cancelledTimers) + Elements(old(editTimeout))
    {
      if editTimeout.Some? {
        cancelledTimers := cancelledTimers + {editTimeout.value};
      }
      editTimeout := Some(nextTimer);
      nextTimer := nextTimer + 1;
    }

    /**
     * The scheduled edit timeout fires (the scheduler runs only the task that is
     * still pending): the timer and the session are cleared and the cached
     * profile, if any, is shown again.
     */
    method FireEditTimeout()
      requires Valid() && editTimeout.Some?
      modifies this`editTimeout, this`chargeProfileEdit, this`published
      ensures Valid()
      ensures editTimeout.None? && chargeProfileEdit.None?
      ensures published == old(published) +
        (if chargeProfileCache.Some? then [ChargeProfileFromContent(chargeProfileCache.value)] else [])
    {
      editTimeout := None;
      chargeProfileEdit := None;
      if chargeProfileCache.Some? {
        published := published + [ChargeProfileFromContent(chargeProfileCache.value)];
      }
    }

    /**
     * `sendChargeProfile(profile)`: with a profile, remember its JSON as sent and,
     * when the remote handler exists, execute CHARGING_CONTROL with it; without a
     * profile, nothing at all.
     */
    method SendChargeProfile(profile: Option<ChargeProfile>)
      modifies this`chargeProfileSent, this`requests
      ensures profile.None? ==> chargeProfileSent == old(chargeProfileSent) && requests == old(requests)
      ensures profile.Some? ==>
        && chargeProfileSent == Some(codecs.profileJson(profile.value))
        && requests == old(requests) + (if remotePresent then [ChargingControl(codecs.profileJson(profile.value))] else [])
    {
      if profile.Some? {
        var json := codecs.profileJson(profile.value);
        chargeProfileSent := Some(json);
        if remotePresent {
          requests := requests + [ChargingControl(json)];
        }
      }
    }

    /**
     * The REMOTE_SERVICE_CHARGING_CONTROL case of the remote group in
     * `handleCommand`: send the open session's overlay (nothing if none is open).
     */
    method HandleChargingControlCommand()
      modifies this`chargeProfileSent, this`requests
      ensures !remotePresent || chargeProfileEdit.None? ==>
        chargeProfileSent == old(chargeProfileSent) && requests == old(requests)
      ensures remotePresent && chargeProfileEdit.Some? ==>
        chargeProfileSent == Some(codecs.profileJson(chargeProfileEdit.value))
        && requests == old(requests) + [ChargingControl(codecs.profileJson(chargeProfileEdit.value))]
    {
      if remotePresent {
        SendChargeProfile(chargeProfileEdit);
      }
    }

    /**
     * `saveChargeProfileSent`: always cancel and clear the timeout; only when a
     * sent snapshot exists, it becomes the cached profile, the snapshot and the
     * session are cleared, and the cache is shown.
     */
    method SaveChargeProfileSent()
      requires Valid()
      modifies this`editTimeout, this`cancelledTimers, this`chargeProfileCache, this`chargeProfileSent
      modifies this`chargeProfileEdit, this`published
      ensures Valid()
      ensures editTimeout.None?
      ensures cancelledTimers == old(cancelledTimers) + Elements(old(editTimeout))
      ensures old(chargeProfileSent).Some? ==>
        && chargeProfileCache == old(chargeProfileSent) && chargeProfileSent.None? && chargeProfileEdit.None?
        && published == old(published) + [ChargeProfileFromContent(old(chargeProfileSent).value)]
      ensures old(chargeProfileSent).None? ==>
        && chargeProfileCache == old(chargeProfileCache) && chargeProfileSent.None?
        && chargeProfileEdit == old(chargeProfileEdit) && published == old(published)
    {
      if editTimeout.Some? {
        cancelledTimers := cancelledTimers + {editTimeout.value};
        editTimeout := None;
      }
      if chargeProfileSent.Some? {
        chargeProfileCache := chargeProfileSent;
        chargeProfileSent := None;
        chargeProfileEdit := None;
        published := published + [ChargeProfileFromContent(chargeProfileCache.value)];
      }
    }

    /** The notification that confirms a sent charge profile. */
    predicate ConfirmsChargeProfile(service: Option<string>, status: string)
    {
      service == Some(names.chargingControl) && status == names.executed
    }

    /**
     * `updateRemoteExecutionStatus`: an EXECUTED notification for
     * CHARGING_CONTROL saves the sent profile; every notification is shown.
     */
    method UpdateRemoteExecutionStatus(service: Option<string>, status: string)
      requires Valid()
      modifies this`editTimeout, this`cancelledTimers, this`chargeProfileCache, this`chargeProfileSent
      modifies this`chargeProfileEdit, this`published
      ensures Valid()
      ensures var shown := RemoteStateShown(if service.Some? then service.value else "-", status);
        if ConfirmsChargeProfile(service, status) then
          && editTimeout.None?
          && cancelledTimers == old(cancelledTimers) + Elements(old(editTimeout))
          && chargeProfileSent.None?
          && (old(chargeProfileSent).Some? ==>
                && chargeProfileCache == old(chargeProfileSent) && chargeProfileEdit.None?
                && published == old(published) + [ChargeProfileFromContent(old(chargeProfileSent).value), shown])
          && (old(chargeProfileSent).None? ==>
                && chargeProfileCache == old(chargeProfileCache) && chargeProfileEdit == old(chargeProfileEdit)
                && published == old(published) + [shown])
        else
          && editTimeout == old(editTimeout) && cancelledTimers == old(cancelledTimers)
          && chargeProfileCache == old(chargeProfileCache) && chargeProfileSent == old(chargeProfileSent)
          && chargeProfileEdit == old(chargeProfileEdit) && published == old(published) + [shown]
    {
      if ConfirmsChargeProfile(service, status) {
        SaveChargeProfileSent();
      }
      published := published + [RemoteStateShown(if service.Some? then service.value else "-", status)];
    }
  }
}
