# CompreFace integration for Home Assistant — a Dafny model

This project models the decision logic of the CompreFace custom integration
for Home Assistant:

- the config flow that creates the single CompreFace entry;
- the options flow that shows one camera-selection form per enabled
  capability (recognition, verification, detection) and merges the answers;
- setting up and tearing down the entry in `hass.data`;
- the recognition sensor's `update` service, which reads the best-matching
  subject out of the recognition service's response.

Modules, one per source file or concern:

- `Python` (python.dfy): JSON-like values (`Value`), the exceptions the code
  can raise, and Python's `v[k]`, `dict.get` and `>`-against-a-float.
  Exceptions are results (`Outcome`), never preconditions.
- `Const` (const.dfy): the domain, the configuration keys and the flows'
  reason and error codes.
- `Capabilities` (capabilities.dfy): the three capabilities, their API-key
  names and the enablement rule. A capability is enabled when its key is
  present, not None and not `""`. Entry setup and the options flow both
  apply this rule.
- `HomeAssistant` (home_assistant.dfy): the part of the host the integration
  touches. The `Hass` class holds `hass.data`, plus ordered logs of platform
  setups and unloads, service calls and executor jobs. The `ConfigEntry`
  class holds entry data, options and update listeners. Flow results and
  opaque SDK handles are datatypes.
- `ConfigFlow` (config_flow.py), `Integration` (`__init__.py`) and `Sensor`
  (sensor.py).

Where the code and the integration's documented intent differ, the model
follows the code:

- The user step reads `user_input[key]` for each API key in turn. A key
  field that is missing raises KeyError; it is not treated as empty.
- A key holding None counts as "not empty" in the key test, because
  `None != ""` is true. The enablement rule, by contrast, excludes None.
- A host that is not a string makes `gethostbyname` raise TypeError. Only
  OSError is caught, so the TypeError propagates.
- The recognition handle is used without a None check. With no recognition
  key configured, a snapshot that appears makes the callback raise
  AttributeError. It does not report "none".
- `hass.data.pop(DOMAIN)` raises KeyError when the key is absent.
- The image path is `os.path.join(image_temp_dir, …)`, and sensors take
  `image_temp_dir` from the entry data. The config flow's entry data holds
  only the host, port and API keys, so for such entries the directory is
  None. The `update` service then raises TypeError before it requests a
  snapshot.
- `sensor.py` imports `CONF_IMAGE_TEMP_DIR`, but the constants file does not
  define it. The model assumes the key name `"image_temp_dir"`.

## Model

| member | source | states |
|---|---|---|
| `ConfigFlow.ApiKeysCheck` | custom_components/compreface/config_flow.py:78-85 | false iff every key holds `""`; true iff some key, reached after only `""` keys, is present and not `""`; otherwise KeyError (a missing key reached first) |
| `ConfigFlow.ApiKeysCheckAllPresent` | custom_components/compreface/config_flow.py:78-85 | with all three key fields present, the key test is true iff at least one key is not the empty string |
| `ConfigFlow.TestApiKeys` | custom_components/compreface/config_flow.py:78-85 | the early-return loop over the three key names computes exactly the key test |
| `ConfigFlow.TestHost` | custom_components/compreface/config_flow.py:69-76 | a string host gives the resolver's verdict; any other value raises TypeError, and no other exception arises |
| `ConfigFlow.Validate` | custom_components/compreface/config_flow.py:43-45 | valid iff the host is a string that resolves and the key test is true; missing host is KeyError; a non-string host is TypeError; an unresolvable host is invalid without the key test being evaluated; a resolving host gives exactly the key test's outcome, KeyError included |
| `ConfigFlow.ValidateWithAllKeys` | custom_components/compreface/config_flow.py:43-47 | with a resolving host and all key fields submitted, the input is valid iff some key is not `""` |
| `ConfigFlow.FlowHandler.constructor` | custom_components/compreface/config_flow.py:31-33 | the handler starts with no errors |
| `ConfigFlow.FlowHandler.AsyncStepUser` | custom_components/compreface/config_flow.py:35-61 | an existing entry aborts with `single_instance_allowed` whatever the input; no input shows the form with empty errors; valid input creates an entry whose data is exactly the input; invalid input shows the form with `{"base": "value_error"}`; exceptions of the tests propagate |
| `Capabilities.Enabled` | custom_components/compreface/config_flow.py:96-117 | a capability is enabled iff `data.get` of its API key is neither None nor `""`; the presence test adds nothing (entry setup applies the same rule) |
| `Python.Get` | custom_components/compreface/__init__.py:46-57 | `dict.get`: the stored value when the key is present, None otherwise |
| `ConfigFlow.ServiceQueue` | custom_components/compreface/config_flow.py:96-117 | a capability is in the queue iff it is enabled; the queue is in the order recognition, verification, detection, without repeats, so at most three long |
| `ConfigFlow.CollectServices` | custom_components/compreface/config_flow.py:94-117 | the three guarded appends build exactly the service queue |
| `ConfigFlow.OptionsFlowHandler.constructor` | custom_components/compreface/config_flow.py:91-117 | options start as the entry's options; the queue is the service queue of the entry data; the handler's invariant holds: the queue left is always a suffix of the queue it built |
| `ConfigFlow.OptionsFlowHandler.AsyncNextStep` | custom_components/compreface/config_flow.py:119-134 | with an empty queue, emits options entry "Test" with the current options; otherwise removes exactly the head and runs its step; with input, that step merges it and advances once more |
| `ConfigFlow.OptionsFlowHandler.AsyncStepInit` | custom_components/compreface/config_flow.py:136-139 | starting the flow shows the first queued capability's form (or emits the options when nothing is queued) and consumes that queue entry; input given to it is handed on to that first step, which merges it and advances once more |
| `ConfigFlow.OptionsFlowHandler.StepFor` | custom_components/compreface/config_flow.py:144-148 | without input shows the capability's form and changes neither queue nor options; with input merges it into the options and advances, consuming one queue entry |
| `ConfigFlow.OptionsFlowHandler.AsyncStepRecognition` | custom_components/compreface/config_flow.py:141-160 | the recognition step, as StepFor for recognition |
| `ConfigFlow.OptionsFlowHandler.AsyncStepVerification` | custom_components/compreface/config_flow.py:162-181 | the verification step, as StepFor for verification |
| `ConfigFlow.OptionsFlowHandler.AsyncStepDetection` | custom_components/compreface/config_flow.py:183-202 | the detection step, as StepFor for detection |
| `ConfigFlow.OptionsFlowHandler.UpdateOptions` | custom_components/compreface/config_flow.py:204-206 | emits an options entry titled "Test" whose data is the merged options |
| `ConfigFlow.MergeAll` | custom_components/compreface/config_flow.py:141-202 | after a series of submissions, a key is present iff it was in the options or in some input; a key no input names keeps its option value; the last input's keys hold its values |
| `ConfigFlow.MergeAllLastWriter` | custom_components/compreface/config_flow.py:141-202 | a key named by some input takes the value of the last input that names it |
| `ConfigFlow.FormFor` | custom_components/compreface/config_flow.py:141-202 | a capability step's form has the capability's step id and no errors |
| `ConfigFlow.FormForDetermines` | custom_components/compreface/config_flow.py:141-202 | two capabilities whose forms have the same step id are the same, so the step id determines which step the host calls |
| `ConfigFlow.FormsFor` | custom_components/compreface/config_flow.py:141-202 | the forms of a queue: one per capability, in order, each with the capability's step id |
| `ConfigFlow.MergeAllExtend` | custom_components/compreface/config_flow.py:145 | one more submission merges one more input over the previous options |
| `ConfigFlow.FormsForExtend` | custom_components/compreface/config_flow.py:119-134 | one more queued capability shows one more form |
| `ConfigFlow.SubmitForm` | custom_components/compreface/config_flow.py:141-202 | submitting input to any step's form merges it and advances the queue by one, ending in the options entry when the queue is empty |
| `ConfigFlow.AnswerForm` | custom_components/compreface/config_flow.py:141-202 | answering the `i`-th queued capability's form merges one more input and shows the next capability's form, or ends with the options entry after the last one |
| `ConfigFlow.RunOptionsFlow` | custom_components/compreface/config_flow.py:119-206 | driven by a host that answers each form: the flow shows exactly the forms of the queued capabilities, in order (at most three), and after that many submissions ends with the options entry "Test" whose data is the entry's options merged with every input in order |
| `ConfigFlow.MergeSemantics` | custom_components/compreface/config_flow.py:145 | merging input adds new keys, input keys override, every other key keeps its value |
| `Integration.NormalizeHost` | custom_components/compreface/__init__.py:53-55 | with `HasHttpScheme` the two `startswith` tests: the URL always has an http(s) scheme; it equals the host iff the host already had one; otherwise it is exactly `http://` followed by the host |
| `Integration.NormalizeHostIdempotent` | custom_components/compreface/__init__.py:53-55 | normalising twice is normalising once |
| `Integration.DomainBefore` | custom_components/compreface/__init__.py:42-43 | the integration's dictionary before setup writes to it: the existing one, or a new empty one when the domain is absent |
| `Integration.SetupSlots` | custom_components/compreface/__init__.py:57-101 | exactly the client slot and the three capability slots are written; a capability slot holds a handle iff the capability is enabled, bound to its API key and the client for the URL and port |
| `Integration.CapabilitySlot` | custom_components/compreface/__init__.py:63-101 | a capability's slot holds a handle iff the capability is enabled, and that handle is the capability's service bound to the client and to `data.get` of its API key |
| `Integration.SlotsMatchOptionsQueue` | custom_components/compreface/__init__.py:63-101 | the capabilities whose slot holds a handle are exactly those in the options flow's queue for the same entry data |
| `Integration.AsyncSetupEntry` | custom_components/compreface/__init__.py:40-118 | the domain dict is created only if absent and other domains are untouched; a non-string host raises TypeError and an unresolvable host returns false, both without writing slots or forwarding; otherwise the slots are written over the existing dict, the platform is forwarded, the reload listener added and true returned |
| `Integration.SetupPlatforms` | custom_components/compreface/__init__.py:121-122 | one forward of the sensor platform is recorded |
| `Integration.UnloadPlatforms` | custom_components/compreface/__init__.py:125-126 | one unload of the sensor platform is recorded |
| `Integration.ReloadPlatforms` | custom_components/compreface/__init__.py:129-131 | the listener unloads then forwards the platform and leaves `hass.data` alone |
| `Integration.AsyncUnloadEntry` | custom_components/compreface/__init__.py:156-173 | unloads the platform, then removes the domain key and returns true, or raises KeyError if it is absent |
| `Integration.AsyncReloadEntry` | custom_components/compreface/__init__.py:176-180 | unload followed by setup: the domain dict afterwards holds only the fresh slots (or is empty when the host does not resolve); nothing of the old dict survives; other domains are untouched |
| `Python.GetItem` | custom_components/compreface/sensor.py:168 | Python subscripting on JSON values: succeeds exactly for a present dict key or an in-range list or string position; otherwise KeyError, IndexError or TypeError |
| `Python.PathJoin` | custom_components/compreface/sensor.py:134-137 | `os.path.join` with a relative name: a TypeError iff the directory is not a string (None included); otherwise the directory, a "/" unless it is empty or already ends in one, then the name |
| `Python.GreaterThan` | custom_components/compreface/sensor.py:170 | comparing with the threshold succeeds exactly for numbers (bool, int, float) and gives their strict order; anything else raises TypeError |
| `Sensor.LookupPerson` | custom_components/compreface/sensor.py:165-173 | the `try` block raises only KeyError, TypeError or IndexError, the exceptions its handler catches |
| `Sensor.ParsePerson` | custom_components/compreface/sensor.py:165-176 | the person is the first face's first subject's label when the response has that shape and the similarity is a number strictly above 0.8; for every other response it is "none" |
| `Sensor.ParseRankedResponse` | custom_components/compreface/sensor.py:165-173 | on a well-formed response the best subject is reported iff its similarity exceeds 0.8 (e.g. "alice" at 0.92, "none" at 0.5) |
| `Sensor.ParseEmptyResponses` | custom_components/compreface/sensor.py:167-176 | an empty face list, an empty dict and None all give "none" |
| `Sensor.RecognitionSensor.constructor` | custom_components/compreface/sensor.py:70-80 | a fresh sensor is bound to its camera device and has state "none" |
| `Sensor.RecognitionSensor.UniqueId` | custom_components/compreface/sensor.py:82-85 | the unique id is the camera device id |
| `Sensor.RecognitionSensor.State` | custom_components/compreface/sensor.py:92-95 | the state is the last recognized person |
| `Sensor.ImageFileName` | custom_components/compreface/sensor.py:136 | the snapshot file name is `recognition_image_tmp_`, then exactly the timestamp, then `.jpg` |
| `Sensor.Response` | custom_components/compreface/sensor.py:183-186 | the reply has exactly the keys `success` and `person`, with the given values |
| `Sensor.RecognitionSensor.UpdateServiceCallback` | custom_components/compreface/sensor.py:123-186 | a missing `hass.data` slot raises KeyError and a non-string image directory raises TypeError, both before anything happens; otherwise one snapshot is requested for the joined path, and a failing snapshot call propagates with no job submitted; if the image never appears, state becomes "none" and no recognition job is submitted; a None handle raises AttributeError before recognition; a failing recognition call propagates with state unchanged and no deletion job; otherwise state becomes the parsed person of the service's answer; the deletion job is submitted last; the reply is `{"success", "person"}` with person equal to the new state |
| `Sensor.AsyncSetupEntry` | custom_components/compreface/sensor.py:33-59 | sensors are added only when the options hold `recognition_camera_devices` as a list; a listed id the device registry does not know raises AttributeError and nothing is added; otherwise one fresh sensor per device id, in list order, whose unique id is that device id and whose state is "none", and true is returned |

## Left out

- DNS resolution (`socket.gethostbyname`) is a parameter, `resolves`, on host strings. Its other exceptions are not modelled, such as UnicodeError for malformed names.
- The CompreFace SDK is not modelled. Its client and service handles are opaque values, and `recognize` is a function parameter from handle and path to a response or an exception.
- Sensor.RecognitionSensor.UpdateServiceCallback: the snapshot call's and the recognition call's exceptions are drawn from the four modelled kinds (KeyError, TypeError, IndexError, AttributeError); other exception types, such as network errors, are not distinguished. Each propagates exactly as modelled.
- The host's dispatch of a submitted form goes to the step named by the form's id; `ConfigFlow.RunOptionsFlow` models one host that answers every form. Aborted or abandoned options flows are not modelled.
- Forms, voluptuous schemas and the device selector are not modelled. A shown form is its step id and errors. The options steps pass no errors, which the model gives as an empty map.
- The device registry is the parameter `registered` of `Sensor.AsyncSetupEntry`. An unknown device id makes the sensor's constructor raise AttributeError, because it reads `device.name` of a None device; this is modelled. The display name built from the device's name, `device_info`, `should_poll` and the `name` property are left out: the model does not keep the name.
- The image polling loops `_await_image_blocking` and `_delete_image_blocking` are left out. They depend on wall-clock time, sleep and file existence. The first becomes the parameter `imageAppeared`. The second is only recorded as a submitted job.
- The clock is left out. The formatted timestamp that the snapshot file name embeds is the parameter `timestamp`.
- Async scheduling and concurrency are left out. Every awaited call runs to completion in order. The fire-and-forget deletion job is recorded but not run.
- Registering the `update` entity service, `async_schedule_update_ha_state`, logging, the host's `async_forward_entry_setups`/`async_unload_platforms` internals and `async_get_options_flow` are not modelled. They are host extension points; only the fact that they were called is recorded where it matters.
- The sensor platform's `async_unload_entry` is left out: it only returns true.
- `hass.data` holds only dictionaries of handles here. Other integrations' entries are kept unchanged but are not typed faithfully.
- Values are JSON-like: dictionary keys are strings, so an integer-keyed dictionary in a response is not representable.
- Similarity is a `real`. The float literal 0.8 is taken as exactly 4/5, and NaN is not modelled.
- Commented-out coordinator and service-registration code is not part of this model.

