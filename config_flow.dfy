/** The config flow that creates the single CompreFace entry, and the
    options flow that walks through one form per enabled capability. */
module ConfigFlow {
  import opened Python
  import opened Capabilities
  import opened HomeAssistant
  import Const

  /** The API keys, in the order the key test examines them. */
  const ApiKeyNames: seq<string> := [Const.ConfRecognizeApiKey, Const.ConfVerifyApiKey, Const.ConfDetectApiKey]

  /** The key test on `input`, examining `keys` in order: the first key that
      is missing raises KeyError, the first that is not the empty string
      gives true, and false when every key holds the empty string. A value
      that is not a string (None included) counts as not empty. */
  function ApiKeysCheck(input: map<string, Value>, keys: seq<string>): (r: Outcome<bool>)
    ensures r.Returned? || r == Raised(KeyError)
    ensures r == Returned(false) <==>
      forall j :: 0 <= j < |keys| ==> keys[j] in input && input[keys[j]] == Str("")
    ensures r == Returned(true) <==>
      exists i :: 0 <= i < |keys| && keys[i] in input && input[keys[i]] != Str("") &&
        forall j :: 0 <= j < i ==> keys[j] in input && input[keys[j]] == Str("")
    decreases |keys|
  {
    if keys == [] then Returned(false)
    else if keys[0] !in input then Raised(KeyError)
    else if input[keys[0]] != Str("") then Returned(true)
    else
      var rest := ApiKeysCheck(input, keys[1..]);
      assert forall j :: 1 <= j < |keys| ==> keys[j] == keys[1..][j - 1];
      rest
  }

  /** When every API key is present, the key test is true exactly when one
      of them is not the empty string. */
  lemma ApiKeysCheckAllPresent(input: map<string, Value>)
    requires forall k :: k in ApiKeyNames ==> k in input
    ensures ApiKeysCheck(input, ApiKeyNames) ==
      Returned(exists k :: k in ApiKeyNames && input[k] != Str(""))
  {
  }

  /** `_test_API_keys`: the early-return loop over the three key names. */
  method TestApiKeys(input: map<string, Value>) returns (r: Outcome<bool>)
    ensures r == ApiKeysCheck(input, ApiKeyNames)
  {
    var keys := ApiKeyNames;
    for i := 0 to |keys|
      invariant ApiKeysCheck(input, keys[i..]) == ApiKeysCheck(input, keys)
    {
      assert keys[i..][0] == keys[i] && keys[i..][1..] == keys[i + 1..];
      if keys[i] !in input {
        return Raised(KeyError);
      }
      if input[keys[i]] != Str("") {
        return Returned(true);
      }
    }
    assert keys[|keys|..] == [];
    return Returned(false);
  }

  /** `_test_host`: whether the host resolves. Resolution is the oracle
      `resolves`; a host that is not a string makes the lookup raise a
      TypeError, which the handler (it catches only OSError) lets through. */
  function TestHost(host: Value, resolves: string -> bool): (r: Outcome<bool>)
    ensures r.Returned? <==> host.Str?
    ensures r.Returned? ==> (r.value <==> resolves(host.s))
    ensures r.Raised? ==> r.exc == TypeError
  {
    if host.Str? then Returned(resolves(host.s)) else Raised(TypeError)
  }

  /** The validity test of the user step: the host test, and the key test
      only when the host test passed. */
  function Validate(input: map<string, Value>, resolves: string -> bool): (r: Outcome<bool>)
    ensures r == Returned(true) <==>
      && Const.ConfHost in input && input[Const.ConfHost].Str?
      && resolves(input[Const.ConfHost].s)
      && ApiKeysCheck(input, ApiKeyNames) == Returned(true)
    ensures Const.ConfHost !in input ==> r == Raised(KeyError)
    ensures Const.ConfHost in input && !input[Const.ConfHost].Str? ==> r == Raised(TypeError)
    // the key test is not evaluated when the host does not resolve: no KeyError then
    ensures Const.ConfHost in input && input[Const.ConfHost].Str? && !resolves(input[Const.ConfHost].s) ==>
      r == Returned(false)
    // a resolving host hands the verdict, or the KeyError, to the key test
    ensures Const.ConfHost in input && input[Const.ConfHost].Str? && resolves(input[Const.ConfHost].s) ==>
      r == ApiKeysCheck(input, ApiKeyNames)
  {
    if Const.ConfHost !in input then Raised(KeyError)
    else
      var hostOk :- TestHost(input[Const.ConfHost], resolves);
      if hostOk then ApiKeysCheck(input, ApiKeyNames) else Returned(false)
  }

  /** With a resolving host and all three key fields submitted, the input is
      valid exactly when some key is not the empty string. */
  lemma ValidateWithAllKeys(input: map<string, Value>, resolves: string -> bool)
    requires Const.ConfHost in input && input[Const.ConfHost].Str? && resolves(input[Const.ConfHost].s)
    requires forall k :: k in ApiKeyNames ==> k in input
    ensures Validate(input, resolves) == Returned(exists k :: k in ApiKeyNames && input[k] != Str(""))
  {
    ApiKeysCheckAllPresent(input);
  }

  const UserStepId := "user"
  const EntryTitle := "CompreFace"

  /** `CompreFaceFlowHandler`: the config flow; its only state is the error
      dictionary shown with the form. */
  class FlowHandler {
    var errors: map<string, string>

    constructor ()
      ensures errors == map[]
    {
      errors := map[];
    }

    /** `async_step_user`. `hasEntries` is whether an entry of this
        integration already exists; `resolves` is DNS resolution. */
    method AsyncStepUser(hasEntries: bool, userInput: Option<map<string, Value>>, resolves: string -> bool)
      returns (r: Outcome<FlowResult>)
      modifies this
      ensures hasEntries ==> r == Returned(Abort(Const.SingleInstanceAllowed)) && errors == map[]
      ensures !hasEntries && userInput.None? ==> r == Returned(ShowForm(UserStepId, map[])) && errors == map[]
      ensures !hasEntries && userInput.Some? ==>
        match Validate(userInput.value, resolves)
        case Raised(e) => r == Raised(e) && errors == map[]
        case Returned(true) => r == Returned(CreateEntry(EntryTitle, userInput.value)) && errors == map[]
        case Returned(false) =>
          && errors == map["base" := Const.ValueError]
          && r == Returned(ShowForm(UserStepId, errors))
    {
      errors := map[];
      if hasEntries {
        return Returned(Abort(Const.SingleInstanceAllowed));
      }
      if userInput.Some? {
        var input := userInput.value;
        if Const.ConfHost !in input {
          return Raised(KeyError);
        }
        var hostOk := TestHost(input[Const.ConfHost], resolves);
        if hostOk.Raised? {
          return Raised(hostOk.exc);
        }
        var valid := hostOk.value;
        if valid {
          var keysOk := TestApiKeys(input);
          if keysOk.Raised? {
            return Raised(keysOk.exc);
          }
          valid := keysOk.value;
        }
        if valid {
          return Returned(CreateEntry(EntryTitle, input));
        }
        errors := errors["base" := Const.ValueError];
        return Returned(ShowForm(UserStepId, errors));
      }
      return Returned(ShowForm(UserStepId, errors));
    }
  }

  /** The options flow's queue: the capabilities, in the fixed order, whose
      API key is enabled in the entry data. */
  function ServiceQueue(data: map<string, Value>): (q: seq<Capability>)
    ensures forall c :: c in q <==> Enabled(data, c)
    ensures InOrder(q) && |q| <= 3
  {
    (if Enabled(data, Recognition) then [Recognition] else []) +
    (if Enabled(data, Verification) then [Verification] else []) +
    (if Enabled(data, Detection) then [Detection] else [])
  }

  /** The handler's initialisation of its queue: one membership test per
      capability, in the fixed order, appending the capability's name when
      its key is enabled. */
  method CollectServices(data: map<string, Value>) returns (queue: seq<Capability>)
    ensures queue == ServiceQueue(data)
  {
    queue := [];
    if Enabled(data, Recognition) {
      queue := queue + [Recognition];
    }
    ghost var first := queue;
    if Enabled(data, Verification) {
      queue := queue + [Verification];
    }
    ghost var second := queue;
    if Enabled(data, Detection) {
      queue := queue + [Detection];
    }
    // each test appended at most its own capability
    assert first == (if Enabled(data, Recognition) then [Recognition] else []);
    assert second == first + (if Enabled(data, Verification) then [Verification] else []);
    assert queue == second + (if Enabled(data, Detection) then [Detection] else []);
  }

  /** The form a capability's options step shows. */
  function FormFor(c: Capability): (form: FlowResult)
    ensures form.ShowForm? && form.stepId == ServiceName(c) && form.errors == map[]
  {
    ShowForm(ServiceName(c), map[])
  }

  /** A form's step id tells which capability's step to call. */
  lemma FormForDetermines(c: Capability, d: Capability)
    requires FormFor(c).stepId == FormFor(d).stepId
    ensures c == d
  {
  }

  const OptionsTitle := "Test"

  /** `CompreFaceOptionsFlowHandler`: the options being assembled and the
      queue of capability steps still to show. */
  class OptionsFlowHandler {
    const configEntry: ConfigEntry
    var options: map<string, Value>
    var services: seq<Capability>
    /** The queue as the handler built it. */
    ghost const initialServices: seq<Capability>

    /** The queue still to show is what is left of the queue the handler
        built once some steps were popped off its front. */
    ghost predicate Valid()
      reads this
    {
      |services| <= |initialServices| && services == initialServices[|initialServices| - |services|..]
    }

    constructor (configEntry: ConfigEntry)
      ensures Valid()
      ensures initialServices == ServiceQueue(configEntry.data)
      ensures this.configEntry == configEntry
      ensures options == configEntry.options
      ensures services == ServiceQueue(configEntry.data)
    {
      this.configEntry := configEntry;
      options := configEntry.options;
      var queue := CollectServices(configEntry.data);
      services := queue;
      initialServices := queue;
    }

    /** `async_next_step`: pop the head of the queue and run its step with
        `userInput`, or emit the options when the queue is empty. */
    method AsyncNextStep(userInput: Option<map<string, Value>>) returns (r: FlowResult)
      requires Valid()
      modifies this
      decreases |services|, 0
      ensures Valid()
      ensures old(services) == [] ==>
        r == CreateEntry(OptionsTitle, options) && options == old(options) && services == []
      ensures old(services) != [] && userInput.None? ==>
        r == FormFor(old(services)[0]) && options == old(options) && services == old(services)[1..]
      ensures old(services) != [] && userInput.Some? ==>
        && options == old(options) + userInput.value
        && (|old(services)| == 1 ==> r == CreateEntry(OptionsTitle, options) && services == [])
        && (|old(services)| > 1 ==> r == FormFor(old(services)[1]) && services == old(services)[2..])
    {
      if |services| == 0 {
        r := UpdateOptions();
        return;
      }
      var srv := services[0];
      services := services[1..];
      r := StepFor(srv, userInput);
    }

    /** `async_step_init`: the flow starts by advancing to the first step. */
    method AsyncStepInit(userInput: Option<map<string, Value>>) returns (r: FlowResult)
      requires Valid()
      modifies this
      ensures Valid()
      ensures old(services) == [] ==>
        r == CreateEntry(OptionsTitle, options) && options == old(options) && services == []
      ensures old(services) != [] && userInput.None? ==>
        r == FormFor(old(services)[0]) && options == old(options) && services == old(services)[1..]
      ensures old(services) != [] && userInput.Some? ==>
        && options == old(options) + userInput.value
        && (|old(services)| == 1 ==> r == CreateEntry(OptionsTitle, options) && services == [])
        && (|old(services)| > 1 ==> r == FormFor(old(services)[1]) && services == old(services)[2..])
    {
      r := AsyncNextStep(userInput);
    }

    /** The step of capability `c`: without input it shows the capability's
        form and changes nothing; with input it merges the input into the
        options and advances. */
    method StepFor(c: Capability, userInput: Option<map<string, Value>>) returns (r: FlowResult)
      requires Valid()
      modifies this
      decreases |services|, 1
      ensures Valid()
      ensures userInput.None? ==>
        r == FormFor(c) && options == old(options) && services == old(services)
      ensures userInput.Some? ==>
        && options == old(options) + userInput.value
        && (old(services) == [] ==> r == CreateEntry(OptionsTitle, options) && services == [])
        && (old(services) != [] ==> r == FormFor(old(services)[0]) && services == old(services)[1..])
    {
      if userInput.Some? {
        options := options + userInput.value;
        r := AsyncNextStep(None);
        return;
      }
      r := FormFor(c);
    }

    /** `async_step_recognition`. */
    method AsyncStepRecognition(userInput: Option<map<string, Value>>) returns (r: FlowResult)
      requires Valid()
      modifies this
      ensures Valid()
      ensures userInput.None? ==>
        r == FormFor(Recognition) && options == old(options) && services == old(services)
      ensures userInput.Some? ==>
        && options == old(options) + userInput.value
        && (old(services) == [] ==> r == CreateEntry(OptionsTitle, options) && services == [])
        && (old(services) != [] ==> r == FormFor(old(services)[0]) && services == old(services)[1..])
    {
      r := StepFor(Recognition, userInput);
    }

    /** `async_step_verification`. */
    method AsyncStepVerification(userInput: Option<map<string, Value>>) returns (r: FlowResult)
      requires Valid()
      modifies this
      ensures Valid()
      ensures userInput.None? ==>
        r == FormFor(Verification) && options == old(options) && services == old(services)
      ensures userInput.Some? ==>
        && options == old(options) + userInput.value
        && (old(services) == [] ==> r == CreateEntry(OptionsTitle, options) && services == [])
        && (old(services) != [] ==> r == FormFor(old(services)[0]) && services == old(services)[1..])
    {
      r := StepFor(Verification, userInput);
    }

    /** `async_step_detection`. */
    method AsyncStepDetection(userInput: Option<map<string, Value>>) returns (r: FlowResult)
      requires Valid()
      modifies this
      ensures Valid()
      ensures userInput.None? ==>
        r == FormFor(Detection) && options == old(options) && services == old(services)
      ensures userInput.Some? ==>
        && options == old(options) + userInput.value
        && (old(services) == [] ==> r == CreateEntry(OptionsTitle, options) && services == [])
        && (old(services) != [] ==> r == FormFor(old(services)[0]) && services == old(services)[1..])
    {
      r := StepFor(Detection, userInput);
    }

    /** `_update_options`: emit the merged options as the options entry. */
    method UpdateOptions() returns (r: FlowResult)
      ensures r.CreateEntry? && r.title == OptionsTitle
      ensures r.data == options
    {
      r := CreateEntry(OptionsTitle, options);
    }
  }

  /** The options after the submissions `inputs`, in order: each one is
      merged over the options the previous ones left. */
  function MergeAll(options: map<string, Value>, inputs: seq<map<string, Value>>): (merged: map<string, Value>)
    decreases |inputs|
    ensures forall k :: k in merged <==> k in options || exists j :: 0 <= j < |inputs| && k in inputs[j]
    ensures forall k :: k in options && (forall j :: 0 <= j < |inputs| ==> k !in inputs[j]) ==>
      merged[k] == options[k]
    ensures |inputs| > 0 ==> forall k :: k in inputs[|inputs| - 1] ==> merged[k] == inputs[|inputs| - 1][k]
  {
    if inputs == [] then options
    else MergeAll(options, inputs[..|inputs| - 1]) + inputs[|inputs| - 1]
  }

  /** A key takes the value of the last input that names it. */
  lemma {:induction false} MergeAllLastWriter(options: map<string, Value>, inputs: seq<map<string, Value>>, j: nat, k: string)
    requires j < |inputs| && k in inputs[j]
    requires forall l :: j < l < |inputs| ==> k !in inputs[l]
    ensures MergeAll(options, inputs)[k] == inputs[j][k]
    decreases |inputs|
  {
    var n := |inputs|;
    var prefix := inputs[..n - 1];
    if j == n - 1 {
      assert MergeAll(options, inputs)[k] == inputs[n - 1][k];
    } else {
      assert k !in inputs[n - 1];
      assert prefix[j] == inputs[j];
      forall l | j < l < |prefix|
        ensures k !in prefix[l]
      {
        assert prefix[l] == inputs[l];
      }
      MergeAllLastWriter(options, prefix, j, k);
      assert MergeAll(options, inputs)[k] == MergeAll(options, prefix)[k];
    }
  }

  /** The forms of the capabilities `q`, in order. */
  function FormsFor(q: seq<Capability>): (forms: seq<FlowResult>)
    ensures |forms| == |q|
    ensures forall j :: 0 <= j < |q| ==> forms[j] == FormFor(q[j])
  {
    if q == [] then [] else FormsFor(q[..|q| - 1]) + [FormFor(q[|q| - 1])]
  }

  /** The host submitting `input` to the form with id `stepId`: it calls
      the step method of that name. */
  method SubmitForm(flow: OptionsFlowHandler, stepId: string, input: map<string, Value>) returns (r: FlowResult)
    requires flow.Valid()
    modifies flow
    ensures flow.Valid()
    ensures flow.options == old(flow.options) + input
    ensures old(flow.services) == [] ==> r == CreateEntry(OptionsTitle, flow.options) && flow.services == []
    ensures old(flow.services) != [] ==> r == FormFor(old(flow.services)[0]) && flow.services == old(flow.services)[1..]
  {
    if stepId == ServiceName(Recognition) {
      r := flow.AsyncStepRecognition(Some(input));
    } else if stepId == ServiceName(Verification) {
      r := flow.AsyncStepVerification(Some(input));
    } else {
      r := flow.AsyncStepDetection(Some(input));
    }
  }

  /** The host answering the form of the `i`-th queued capability with
      `inputs[i]`, once the earlier inputs were merged over `options`. */
  method AnswerForm(flow: OptionsFlowHandler, options: map<string, Value>, queue: seq<Capability>,
                    inputs: seq<map<string, Value>>, i: nat, form: FlowResult)
    returns (r: FlowResult)
    requires flow.Valid() && i < |queue| && i < |inputs|
    requires flow.options == MergeAll(options, inputs[..i])
    requires form == FormFor(queue[i]) && flow.services == queue[i + 1..]
    modifies flow
    ensures flow.Valid()
    ensures flow.options == MergeAll(options, inputs[..i + 1])
    ensures i + 1 < |queue| ==> r == FormFor(queue[i + 1]) && flow.services == queue[i + 2..]
    ensures i + 1 == |queue| ==> r == CreateEntry(OptionsTitle, flow.options)
  {
    MergeAllExtend(options, inputs, i);
    r := SubmitForm(flow, form.stepId, inputs[i]);
  }

  /** The host driving the options flow of `entry`: it starts the flow, then
      submits `inputs[i]` to each form it is shown, calling the step the
      form's id names. `results` are the flow's answers in order. The flow
      shows exactly the queued capabilities' forms, then ends after as many
      submissions with the options merged with every input. */
  method RunOptionsFlow(entry: ConfigEntry, inputs: seq<map<string, Value>>) returns (results: seq<FlowResult>)
    requires |inputs| == |ServiceQueue(entry.data)|
    ensures results ==
      FormsFor(ServiceQueue(entry.data)) + [CreateEntry(OptionsTitle, MergeAll(entry.options, inputs))]
  {
    var queue := ServiceQueue(entry.data);
    var flow := new OptionsFlowHandler(entry);
    var r := flow.AsyncStepInit(None);
    results := [r];
    for i := 0 to |queue|
      invariant flow.Valid() && flow.configEntry == entry
      invariant results == FormsFor(queue[..i]) + [r]
      invariant flow.options == MergeAll(entry.options, inputs[..i])
      invariant i < |queue| ==> r == FormFor(queue[i]) && flow.services == queue[i + 1..]
      invariant i == |queue| ==> r == CreateEntry(OptionsTitle, flow.options)
    {
      FormsForExtend(queue, i);
      r := AnswerForm(flow, entry.options, queue, inputs, i, r);
      results := results + [r];
    }
    assert queue[..|queue|] == queue;
    WholePrefix(inputs);
  }

  /** One more submission merges one more input. */
  lemma MergeAllExtend(options: map<string, Value>, inputs: seq<map<string, Value>>, i: nat)
    requires i < |inputs|
    ensures MergeAll(options, inputs[..i + 1]) == MergeAll(options, inputs[..i]) + inputs[i]
  {
    assert inputs[..i + 1][..i] == inputs[..i];
  }

  /** One more queued capability shows one more form. */
  lemma FormsForExtend(q: seq<Capability>, i: nat)
    requires i < |q|
    ensures FormsFor(q[..i + 1]) == FormsFor(q[..i]) + [FormFor(q[i])]
  {
  }

  /** A sequence is its own longest prefix. */
  lemma WholePrefix<T>(s: seq<T>)
    ensures s[..|s|] == s
  {
  }

  /** Merging step input with `+`: keys of the input are added or
      overridden, every other key keeps its value. */
  lemma MergeSemantics(options: map<string, Value>, input: map<string, Value>)
    ensures (options + input).Keys == options.Keys + input.Keys
    ensures forall k :: k in input ==> (options + input)[k] == input[k]
    ensures forall k :: k in options && k !in input ==> (options + input)[k] == options[k]
  {
  }
}
