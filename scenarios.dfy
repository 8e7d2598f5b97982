/**
 * Sequences of handler events, each stated as one client method: what a run of
 * the charge-profile session and of the status ingest leaves behind.
 */
module Scenarios {
  import opened Options
  import opened ChargeProfiles
  import opened ChargeChannels
  import opened VehicleTypes
  import opened VehicleHandlers

  /**
   * An edit, the CHARGING_CONTROL command and the EXECUTED notification: the
   * edited profile is sent once, becomes the cached profile and is shown; the
   * session, the sent snapshot and the timer the edit scheduled are all gone.
   */
  method EditSendConfirm(h: VehicleHandler, id: ChannelId, cmd: Command)
    requires h.Valid() && h.remotePresent
    requires h.OpenedSession().Some? && Dispatch(id, cmd).Some?
    modifies h
    ensures h.Valid()
    ensures var p := Apply(old(h.OpenedSession()).value, Dispatch(id, cmd).value);
      var json := h.codecs.profileJson(p);
      && h.chargeProfileCache == Some(json)
      && h.chargeProfileEdit.None? && h.chargeProfileSent.None? && h.editTimeout.None?
      && old(h.nextTimer) in h.cancelledTimers
      && h.requests == old(h.requests) + [ChargingControl(json)]
      && h.published == old(h.published) + [h.EditEcho(p, Dispatch(id, cmd).value), ChargeProfileFromContent(json),
                                            RemoteStateShown(h.names.chargingControl, h.names.executed)]
  {
    ghost var p := Apply(h.OpenedSession().value, Dispatch(id, cmd).value);
    ghost var requests0 := h.requests;
    ProcessedEdit(h, id, cmd);
    h.HandleChargingControlCommand();
    assert h.chargeProfileSent == Some(h.codecs.profileJson(p));
    assert h.requests == requests0 + [ChargingControl(h.codecs.profileJson(p))];
    h.UpdateRemoteExecutionStatus(Some(h.names.chargingControl), h.names.executed);
  }

  /** A charge command that is processed, on the open session or one opened from the cache. */
  method ProcessedEdit(h: VehicleHandler, id: ChannelId, cmd: Command)
    requires h.Valid() && h.OpenedSession().Some? && Dispatch(id, cmd).Some?
    modifies h`chargeProfileEdit, h`editTimeout, h`nextTimer, h`cancelledTimers, h`published
    ensures h.Valid()
    ensures var p := Apply(old(h.OpenedSession()).value, Dispatch(id, cmd).value);
      && h.chargeProfileEdit == Some(p) && h.editTimeout == Some(old(h.nextTimer))
      && h.published == old(h.published) + [h.EditEcho(p, Dispatch(id, cmd).value)]
  {
    h.HandleChargeProfileCommand(id, cmd);
  }

  /**
   * An edit followed by its timeout: the overlay is thrown away unsent, the
   * cached profile is untouched and shown again.
   */
  method EditThenTimeout(h: VehicleHandler, id: ChannelId, cmd: Command)
    requires h.Valid() && h.OpenedSession().Some? && Dispatch(id, cmd).Some?
    modifies h
    ensures h.Valid()
    ensures h.chargeProfileEdit.None? && h.editTimeout.None?
    ensures h.chargeProfileCache == old(h.chargeProfileCache) && h.chargeProfileSent == old(h.chargeProfileSent)
    ensures h.requests == old(h.requests)
    ensures var p := Apply(old(h.OpenedSession()).value, Dispatch(id, cmd).value);
      h.published == old(h.published) + [h.EditEcho(p, Dispatch(id, cmd).value)]
        + (if h.chargeProfileCache.Some? then [ChargeProfileFromContent(h.chargeProfileCache.value)] else [])
  {
    ProcessedEdit(h, id, cmd);
    h.FireEditTimeout();
  }

  /**
   * A command the session does not process (other than a refresh, which is
   * answered before the group is looked at), with no session open: a session
   * is opened from the cache all the same, but no timeout is scheduled, so only
   * a later processed edit or a confirmation can end it.
   */
  method UnprocessedCommandOpensSession(h: VehicleHandler, id: ChannelId, cmd: Command)
    requires h.Valid() && h.chargeProfileEdit.None? && h.GetChargeProfileWrapper().Some?
    requires Dispatch(id, cmd).None? && !cmd.RefreshCmd?
    modifies h
    ensures h.Valid()
    ensures h.chargeProfileEdit == old(h.GetChargeProfileWrapper()) && h.editTimeout.None?
    ensures h.published == old(h.published)
  {
    h.HandleChargeProfileCommand(id, cmd);
  }

  /**
   * A 404 on the status request, then the next cycle: the error itself asks the
   * legacy endpoint once, and the next cycle asks it again, never the current one.
   */
  method NotFoundThenNextCycle(h: VehicleHandler, reason: string)
    requires h.Valid() && h.proxyPresent && h.configuration.Some?
    modifies h
    ensures h.Valid() && h.legacyMode
    ensures |h.requests| >= |old(h.requests)| + 2
    ensures h.requests[|old(h.requests)|] == LegacyStatusRequest
    ensures h.requests[|old(h.requests)| + 1] == LegacyStatusRequest
    ensures StatusRequest !in h.requests[|old(h.requests)|..]
  {
    ghost var r0 := h.requests;
    NotFound(h, reason);
    ghost var cycle := h.CycleRequests();
    assert cycle != [] && cycle[0] == LegacyStatusRequest && StatusRequest !in cycle;
    h.GetData();
    LegacyTail(r0, cycle);
  }

  /** A 404 on the status request, seen by the next cycle: legacy mode and one legacy request. */
  method NotFound(h: VehicleHandler, reason: string)
    requires h.Valid() && h.proxyPresent && h.configuration.Some?
    modifies h
    ensures h.Valid() && h.legacyMode && h.proxyPresent && h.configuration.Some?
    ensures h.requests == old(h.requests) + [LegacyStatusRequest]
  {
    h.OnStatusError(NetworkError(404, reason));
  }

  /** The requests of a 404 and the legacy cycle after it, seen from before the 404. */
  lemma LegacyTail(r0: seq<Request>, cycle: seq<Request>)
    requires cycle != [] && cycle[0] == LegacyStatusRequest && StatusRequest !in cycle
    ensures var rs := r0 + [LegacyStatusRequest] + cycle;
      && rs[|r0|] == LegacyStatusRequest && rs[|r0| + 1] == LegacyStatusRequest
      && StatusRequest !in rs[|r0|..]
  {
    assert (r0 + [LegacyStatusRequest] + cycle)[|r0|..] == [LegacyStatusRequest] + cycle;
  }
}
