/** The parts of the Home Assistant host that the integration reads and
    changes: the process-wide `hass.data` dictionary, the calls it makes
    into the host (platform setup and unload, service calls, executor
    jobs), config entries and the results of flow steps. The host's own
    machinery is not modelled; the calls the integration makes into it are
    recorded in order. */
module HomeAssistant {
  import opened Python
  import opened Capabilities

  /** Opaque handles created by the CompreFace SDK: the client bound to a
      server URL and port, and one service per capability bound to its API
      key. */
  datatype Handle =
    | CompreFaceClient(url: string, port: Value)
    | Service(kind: Capability, client: Handle, apiKey: Value)

  /** The integration's entry in `hass.data`: slot name to handle, where
      None is the "disabled" marker. */
  type DomainData = map<string, Option<Handle>>

  /** Calls into the host that forward to or tear down the sensor platform. */
  datatype PlatformEvent = ForwardEntrySetups | UnloadPlatforms

  /** Service calls issued through `hass.services`. */
  datatype ServiceCall = CameraSnapshot(deviceId: Value, filename: string)

  /** Blocking work handed to `hass.async_add_executor_job`. */
  datatype Job =
    | AwaitImage(path: string)
    | Recognize(service: Handle, path: string)
    | DeleteImage(path: string)

  /** The update listeners a config entry can carry. */
  datatype Listener = ReloadPlatformsListener

  /** What a config-flow or options-flow step hands back to the host. */
  datatype FlowResult =
    | Abort(reason: string)
    | CreateEntry(title: string, data: map<string, Value>)
    | ShowForm(stepId: string, errors: map<string, string>)

  class Hass {
    /** `hass.data`, restricted to dictionaries of handles. */
    var data: map<string, DomainData>
    var platformEvents: seq<PlatformEvent>
    var serviceCalls: seq<ServiceCall>
    var jobs: seq<Job>

    constructor (data: map<string, DomainData>)
      ensures this.data == data
      ensures platformEvents == [] && serviceCalls == [] && jobs == []
    {
      this.data := data;
      platformEvents := [];
      serviceCalls := [];
      jobs := [];
    }
  }

  /** A config entry: the record created by the config flow, the options
      record created by the options flow, and its update listeners. */
  class ConfigEntry {
    const data: map<string, Value>
    const options: map<string, Value>
    var updateListeners: seq<Listener>

    constructor (data: map<string, Value>, options: map<string, Value>)
      ensures this.data == data && this.options == options
      ensures updateListeners == []
    {
      this.data := data;
      this.options := options;
      updateListeners := [];
    }
  }
}
