/** Entry setup and teardown: the integration's slot in `hass.data`, the
    SDK client and one service handle per enabled capability. */
module Integration {
  import opened Python
  import opened Capabilities
  import opened HomeAssistant
  import Const
  import ConfigFlow

  /** The host already names an http or https URL. */
  predicate HasHttpScheme(s: string)
  {
    "http://" <= s || "https://" <= s
  }

  /** The server URL for a host: `http://` is prefixed unless the host
      already has an http(s) scheme. */
  function NormalizeHost(host: string): (url: string)
    ensures HasHttpScheme(url)
    ensures url == host <==> HasHttpScheme(host)
    ensures !HasHttpScheme(host) ==> url == "http://" + host
    ensures |host| <= |url| && url[|url| - |host|..] == host
  {
    if HasHttpScheme(host) then host else "http://" + host
  }

  lemma NormalizeHostIdempotent(host: string)
    ensures NormalizeHost(NormalizeHost(host)) == NormalizeHost(host)
  {
  }

  /** The slots a successful setup writes: the SDK client for `url` and the
      entry's port, and for each capability its service handle when the
      capability is enabled, None otherwise. */
  function SetupSlots(data: map<string, Value>, url: string): (slots: DomainData)
    ensures slots.Keys == {Const.CompreFaceSlot, "recognition", "verification", "detection"}
    ensures slots[Const.CompreFaceSlot] == Some(CompreFaceClient(url, Get(data, Const.ConfPort)))
    ensures forall c :: ServiceName(c) in slots && (slots[ServiceName(c)].Some? <==> Enabled(data, c))
    ensures forall c :: Enabled(data, c) ==>
      slots[ServiceName(c)] == Some(Service(c, CompreFaceClient(url, Get(data, Const.ConfPort)), data[ApiKey(c)]))
  {
    var client := CompreFaceClient(url, Get(data, Const.ConfPort));
    map[
      Const.CompreFaceSlot := Some(client),
      ServiceName(Recognition) := CapabilitySlot(data, client, Recognition),
      ServiceName(Verification) := CapabilitySlot(data, client, Verification),
      ServiceName(Detection) := CapabilitySlot(data, client, Detection)
    ]
  }

  /** The slot of capability `c`: a service handle bound to its API key
      when the capability is enabled, the None marker otherwise. */
  function CapabilitySlot(data: map<string, Value>, client: Handle, c: Capability): (slot: Option<Handle>)
    ensures slot.Some? <==> Enabled(data, c)
    ensures slot.Some? ==> slot.value == Service(c, client, Get(data, ApiKey(c)))
  {
    if Enabled(data, c) then Some(Service(c, client, data[ApiKey(c)])) else None
  }

  /** The capabilities whose slot setup fills with a handle are exactly the
      steps of the options flow for the same entry data. */
  lemma SlotsMatchOptionsQueue(data: map<string, Value>, url: string)
    ensures (set c | c in AllCapabilities && SetupSlots(data, url)[ServiceName(c)].Some?) ==
            (set c | c in ConfigFlow.ServiceQueue(data))
  {
  }

  /** The integration's dictionary before setup writes to it: the existing
      one if any, a fresh empty one otherwise. */
  function DomainBefore(data: map<string, DomainData>): (before: DomainData)
    ensures Const.Domain in data ==> before == data[Const.Domain]
    ensures Const.Domain !in data ==> before == map[]
  {
    if Const.Domain in data then data[Const.Domain] else map[]
  }

  /** `async_setup_entry`. `resolves` is DNS resolution of the host. */
  method AsyncSetupEntry(hass: Hass, entry: ConfigEntry, resolves: string -> bool) returns (r: Outcome<bool>)
    modifies hass, entry
    ensures Const.Domain in hass.data && hass.data.Keys == old(hass.data).Keys + {Const.Domain}
    ensures forall k :: k in old(hass.data) && k != Const.Domain ==> hass.data[k] == old(hass.data[k])
    ensures hass.serviceCalls == old(hass.serviceCalls) && hass.jobs == old(hass.jobs)
    ensures !Get(entry.data, Const.ConfHost).Str? ==>
      && r == Raised(TypeError)
      && hass.data[Const.Domain] == DomainBefore(old(hass.data))
      && hass.platformEvents == old(hass.platformEvents)
      && entry.updateListeners == old(entry.updateListeners)
    ensures Get(entry.data, Const.ConfHost).Str? && !resolves(Get(entry.data, Const.ConfHost).s) ==>
      && r == Returned(false)
      && hass.data[Const.Domain] == DomainBefore(old(hass.data))
      && hass.platformEvents == old(hass.platformEvents)
      && entry.updateListeners == old(entry.updateListeners)
    ensures Get(entry.data, Const.ConfHost).Str? && resolves(Get(entry.data, Const.ConfHost).s) ==>
      && r == Returned(true)
      && hass.data[Const.Domain] ==
           DomainBefore(old(hass.data)) + SetupSlots(entry.data, NormalizeHost(Get(entry.data, Const.ConfHost).s))
      && hass.platformEvents == old(hass.platformEvents) + [ForwardEntrySetups]
      && entry.updateListeners == old(entry.updateListeners) + [ReloadPlatformsListener]
  {
    if Const.Domain !in hass.data {
      hass.data := hass.data[Const.Domain := map[]];
    }
    var hostValue := Get(entry.data, Const.ConfHost);
    if !hostValue.Str? {
      return Raised(TypeError);
    }
    var host := hostValue.s;
    if !resolves(host) {
      return Returned(false);
    }
    if !HasHttpScheme(host) {
      host := "http://" + host;
    }
    var port := Get(entry.data, Const.ConfPort);
    var compreFace := CompreFaceClient(host, port);
    // the integration's dictionary, written slot by slot
    var slots := hass.data[Const.Domain];
    ghost var before := slots;
    slots := slots[Const.CompreFaceSlot := Some(compreFace)];
    slots := slots["recognition" := CapabilitySlot(entry.data, compreFace, Recognition)];
    slots := slots["verification" := CapabilitySlot(entry.data, compreFace, Verification)];
    slots := slots["detection" := CapabilitySlot(entry.data, compreFace, Detection)];
    assert slots == before + SetupSlots(entry.data, host);
    hass.data := hass.data[Const.Domain := slots];
    SetupPlatforms(hass);
    entry.updateListeners := entry.updateListeners + [ReloadPlatformsListener];
    return Returned(true);
  }

  /** `_async_setup_platforms`: forward the entry to the sensor platform. */
  method SetupPlatforms(hass: Hass)
    modifies hass`platformEvents
    ensures hass.platformEvents == old(hass.platformEvents) + [ForwardEntrySetups]
  {
    hass.platformEvents := hass.platformEvents + [ForwardEntrySetups];
  }

  /** `_async_unload_platforms`: tear down the sensor platform. */
  method UnloadPlatforms(hass: Hass)
    modifies hass`platformEvents
    ensures hass.platformEvents == old(hass.platformEvents) + [HomeAssistant.UnloadPlatforms]
  {
    hass.platformEvents := hass.platformEvents + [HomeAssistant.UnloadPlatforms];
  }

  /** `_async_reload_platforms`, the entry's update listener: unload the
      sensor platform and set it up again; `hass.data` is not touched. */
  method ReloadPlatforms(hass: Hass)
    modifies hass`platformEvents
    ensures hass.platformEvents == old(hass.platformEvents) + [HomeAssistant.UnloadPlatforms, ForwardEntrySetups]
  {
    UnloadPlatforms(hass);
    SetupPlatforms(hass);
  }

  /** `async_unload_entry`: unload the platform, then pop the integration's
      key from `hass.data` (a KeyError when it is absent). */
  method AsyncUnloadEntry(hass: Hass, entry: ConfigEntry) returns (r: Outcome<bool>)
    modifies hass
    ensures hass.platformEvents == old(hass.platformEvents) + [HomeAssistant.UnloadPlatforms]
    ensures hass.serviceCalls == old(hass.serviceCalls) && hass.jobs == old(hass.jobs)
    ensures Const.Domain in old(hass.data) ==> r == Returned(true) && hass.data == old(hass.data) - {Const.Domain}
    ensures Const.Domain !in old(hass.data) ==> r == Raised(KeyError) && hass.data == old(hass.data)
  {
    UnloadPlatforms(hass);
    if Const.Domain !in hass.data {
      return Raised(KeyError);
    }
    hass.data := hass.data - {Const.Domain};
    return Returned(true);
  }

  /** `async_reload_entry`: a full unload followed by a full setup. The
      integration's dictionary is rebuilt from scratch, so nothing of the
      old slots survives. */
  method AsyncReloadEntry(hass: Hass, entry: ConfigEntry, resolves: string -> bool) returns (r: Outcome<()>)
    modifies hass, entry
    ensures hass.serviceCalls == old(hass.serviceCalls) && hass.jobs == old(hass.jobs)
    ensures Const.Domain !in old(hass.data) ==>
      && r == Raised(KeyError)
      && hass.data == old(hass.data)
      && hass.platformEvents == old(hass.platformEvents) + [HomeAssistant.UnloadPlatforms]
      && entry.updateListeners == old(entry.updateListeners)
    ensures Const.Domain in old(hass.data) ==>
      && hass.data - {Const.Domain} == old(hass.data) - {Const.Domain}
      && Const.Domain in hass.data
      && var host := Get(entry.data, Const.ConfHost);
         var up := host.Str? && resolves(host.s);
         && r == (if host.Str? then Returned(()) else Raised(TypeError))
         && hass.data[Const.Domain] == (if up then SetupSlots(entry.data, NormalizeHost(host.s)) else map[])
         && hass.platformEvents ==
              old(hass.platformEvents) + [HomeAssistant.UnloadPlatforms] + (if up then [ForwardEntrySetups] else [])
         && entry.updateListeners == old(entry.updateListeners) + (if up then [ReloadPlatformsListener] else [])
  {
    var unloaded := AsyncUnloadEntry(hass, entry);
    if unloaded.Raised? {
      return Raised(unloaded.exc);
    }
    var setUp := AsyncSetupEntry(hass, entry, resolves);
    if setUp.Raised? {
      return Raised(setUp.exc);
    }
    return Returned(());
  }
}
