/**
 * The values VehicleHandler works with: its response callbacks, the requests it
 * issues through the proxy, what it publishes to openHAB, and the collaborators
 * whose code is not part of this model (the JSON decoders and encoders, and the
 * string constants defined outside the handler).
 */
module VehicleTypes {
  import opened Options
  import opened ChargeProfiles

  newtype byte = x: int | 0 <= x < 256

  /** The handler's callback objects; each exists once per handler. */
  datatype Callback =
    | StatusCb         // vehicleStatusCallback
    | LegacyStatusCb   // oldVehicleStatusCallback
    | LastTripCb | AllTripsCb | ChargeProfileCb | RangeMapCb | DestinationsCb | ImageCb

  /** Payload kinds whose decoding the handler inspects. */
  datatype Source = StatusData | LastTripData | AllTripsData | DestinationData

  /**
   * Outcome of decoding a payload with Gson: a syntax error, a null container,
   * or a container whose inner object (vehicleStatus, lastTrip, allTrips,
   * destinations) is present or not.
   */
  datatype Decoded = Malformed | NullContainer | Container(hasContent: bool)

  /** Outcome of decoding a legacy status payload; `canonical` is `vac.transform()`. */
  datatype LegacyDecoded = LegacyMalformed | LegacyNull | Attributes(canonical: string)

  /** `NetworkError` as the callbacks receive it. */
  datatype NetworkError = NetworkError(status: int, reason: string)

  datatype ThingStatus = Unknown | Online | Offline
  datatype ThingStatusDetail = NoDetail | CommunicationError

  /** `ImageProperties`: viewport, size and the number of failed image fetches. */
  datatype ImageProperties = ImageProperties(viewport: string, size: int, failures: nat)

  /** The part of `VehicleConfiguration` the handler reads. */
  datatype VehicleConfiguration = VehicleConfiguration(imageViewport: string, imageSize: int, refreshInterval: int)

  /** What the asynchronous part of `initialize` finds when it looks up the bridge. */
  datatype BridgeLookup = NoBridge | NoBridgeHandler | BridgeFound(proxyPresent: bool)

  /** The periodic `getData` job. */
  datatype RefreshJob = RefreshJob(interval: int, cancelled: bool)

  /**
   * The channel groups `handleCommand` routes on, one constructor per group
   * constant; their string values are not modelled, so they are taken as distinct.
   */
  datatype ChannelGroup =
    | LastTripGroup | LifetimeGroup | StatusGroup | ChargeGroup | VehicleImageGroup
    | OtherGroup(name: string)

  /** One request through ConnectedDriveProxy or the remote-service handler. */
  datatype Request =
    | StatusRequest
    | LegacyStatusRequest
    | LastTripRequest
    | AllTripsRequest
    | DestinationsRequest
    | ChargingProfileRequest
    | RangeMapRequest
    | ImageRequest(properties: ImageProperties)
    | ChargingControl(json: string)

  /** One update pushed to openHAB (thing status or channel state). */
  datatype Publication =
    | StatusUpdate(status: ThingStatus, detail: ThingStatusDetail, reason: string)
    | SourceChannels(source: Source, content: string)   // channels derived from a decoded payload
    | ImageShown(image: seq<byte>)
    | ChargeProfileFromContent(content: string)          // updateChargeProfileFromContent
    | ChargeProfileShown(profile: ChargeProfile)         // updateChargeProfile
    | PreferenceShown(preference: string)
    | ModeShown(mode: string)
    | TimedStateShown(key: ProfileKey, profile: ChargeProfile)
    | ImageViewportShown(viewport: string)
    | ImageSizeShown(size: int)
    | RemoteStateShown(serviceName: string, executionState: string)

  /** The JSON decoders and encoders the handler calls. */
  datatype Codecs = Codecs(
    decode: (Source, string) -> Decoded,
    decodeLegacy: string -> LegacyDecoded,
    decodeProfile: string -> Option<ChargeProfile>,   // ChargeProfileWrapper.fromJson
    profileJson: ChargeProfile -> string,              // ChargeProfileWrapper.getJson
    errorJson: NetworkError -> string)

  /**
   * String constants defined outside the handler: Constants.STATISTICS,
   * Constants.LAST_DESTINATIONS, RemoteService.CHARGING_CONTROL.toString() and
   * ExecutionState.EXECUTED.toString().
   */
  datatype Names = Names(statistics: string, lastDestinations: string, chargingControl: string, executed: string)
}
