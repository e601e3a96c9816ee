/** The sensor platform: one recognition sensor per selected camera, and
    the `update` service that snapshots a camera, sends the image to the
    recognition service and reads the best-matching subject out of the
    response. */
module Sensor {
  import opened Python
  import opened HomeAssistant
  import Const

  /** The state of a sensor that has recognized nobody. */
  const NoneLabel: Value := Str("none")

  /** The similarity a subject must exceed (strictly) to be reported. */
  const Threshold: real := 0.8

  /** The first-ranked subject of the first detected face, when the response
      has the shape `{"result": [{"subjects": [{...}, ...], ...}, ...], ...}`:
      read structurally, without Python's subscripting. */
  function FirstSubject(response: Value): Option<map<string, Value>>
  {
    if response.Dict? && "result" in response.entries then
      var faces := response.entries["result"];
      if faces.List? && |faces.items| > 0 && faces.items[0].Dict? && "subjects" in faces.items[0].entries then
        var subjects := faces.items[0].entries["subjects"];
        if subjects.List? && |subjects.items| > 0 && subjects.items[0].Dict? then
          Some(subjects.items[0].entries)
        else None
      else None
    else None
  }

  /** The body of the callback's `try` block: `result["result"][0]["subjects"][0]`,
      then the subject's label if its similarity exceeds the threshold.
      Only the exceptions the `except` clause names can arise. */
  function LookupPerson(response: Value): (r: Outcome<Value>)
    ensures r.Raised? ==> r.exc in {KeyError, TypeError, IndexError}
  {
    var faces :- GetItem(response, Key("result"));
    var face :- GetItem(faces, Index(0));
    var subjects :- GetItem(face, Key("subjects"));
    var subject :- GetItem(subjects, Index(0));
    var similarity :- GetItem(subject, Key("similarity"));
    var above :- GreaterThan(similarity, Threshold);
    if above then GetItem(subject, Key("subject")) else Returned(NoneLabel)
  }

  /** The person a recognition response names: the first face's first
      subject's label when its similarity is a number above the threshold,
      and "none" for any other response, whatever key is missing, value is
      mistyped or list is empty. */
  function ParsePerson(response: Value): (person: Value)
    ensures person ==
      match FirstSubject(response)
      case None => NoneLabel
      case Some(subject) =>
        if && "similarity" in subject && Numeric(subject["similarity"]).Some?
           && Numeric(subject["similarity"]).value > Threshold && "subject" in subject
        then subject["subject"]
        else NoneLabel
  {
    match LookupPerson(response)
    case Returned(p) => p
    case Raised(_) => NoneLabel
  }

  /** A response of the shape the recognition service documents, with the
      best subject `name` scored `similarity` on the first face. */
  function RankedResponse(name: string, similarity: real, otherSubjects: seq<Value>, otherFaces: seq<Value>): Value
  {
    var best := Dict(map["subject" := Str(name), "similarity" := Float(similarity)]);
    Dict(map["result" := List([Dict(map["subjects" := List([best] + otherSubjects)])] + otherFaces)])
  }

  /** On a well-formed response the best subject is reported exactly when
      its similarity is above the threshold. */
  lemma ParseRankedResponse(name: string, similarity: real, otherSubjects: seq<Value>, otherFaces: seq<Value>)
    ensures ParsePerson(RankedResponse(name, similarity, otherSubjects, otherFaces)) ==
      if similarity > Threshold then Str(name) else NoneLabel
  {
  }

  /** An empty face list, or a response without one, gives "none". */
  lemma ParseEmptyResponses()
    ensures ParsePerson(Dict(map["result" := List([])])) == NoneLabel
    ensures ParsePerson(Dict(map[])) == NoneLabel
    ensures ParsePerson(Null) == NoneLabel
  {
  }

  /** The name of the snapshot file for a timestamp (`%Y%m%d%H%M%S`). */
  function ImageFileName(timestamp: string): (name: string)
    ensures "recognition_image_tmp_" <= name
    ensures |name| == |"recognition_image_tmp_"| + |timestamp| + |".jpg"|
    ensures name[|name| - 4..] == ".jpg"
    ensures name[|"recognition_image_tmp_"|..|name| - 4] == timestamp
  {
    "recognition_image_tmp_" + timestamp + ".jpg"
  }

  /** The service's reply: exactly the success flag and the person. */
  function Response(success: bool, person: Value): (reply: Value)
    ensures reply.Dict? && reply.entries.Keys == {"success", "person"}
    ensures reply.entries["success"] == Bool(success) && reply.entries["person"] == person
  {
    Dict(map["success" := Bool(success), "person" := person])
  }

  /** `CompreFaceRecognitionSensor`: bound to one camera device; its state
      is the last recognized person. */
  class RecognitionSensor {
    const hass: Hass
    const cameraDeviceId: Value
    const imageTempDir: Value
    var person: Value

    constructor (hass: Hass, cameraDeviceId: Value, imageTempDir: Value)
      ensures this.hass == hass && this.cameraDeviceId == cameraDeviceId && this.imageTempDir == imageTempDir
      ensures State() == NoneLabel
    {
      this.hass := hass;
      this.cameraDeviceId := cameraDeviceId;
      this.imageTempDir := imageTempDir;
      person := NoneLabel;
    }

    /** The entity's unique id: its camera device id. */
    function UniqueId(): (id: Value)
      ensures id == cameraDeviceId
    {
      cameraDeviceId
    }

    /** The entity's state: the last recognized person. */
    function State(): (state: Value)
      reads this
      ensures state == person
    {
      person
    }

    /** `update_service_callback`. `timestamp` is the current time as the
        file name embeds it; `snapshot` is what the camera's snapshot service
        call did; `imageAppeared` is what waiting for the image reported;
        `recognize` is the recognition service's answer, or its exception,
        for a handle and a path. */
    method UpdateServiceCallback(
      timestamp: string, snapshot: Outcome<()>, imageAppeared: bool,
      recognize: (Handle, string) -> Outcome<Value>)
      returns (r: Outcome<Value>)
      modifies this, hass
      ensures hass.data == old(hass.data) && hass.platformEvents == old(hass.platformEvents)
      // reading the recognition handle out of hass.data fails
      ensures Const.Domain !in hass.data || "recognition" !in hass.data[Const.Domain] ==>
        && r == Raised(KeyError) && person == old(person)
        && hass.serviceCalls == old(hass.serviceCalls) && hass.jobs == old(hass.jobs)
      // building the image path fails: the directory is not a string
      ensures Const.Domain in hass.data && "recognition" in hass.data[Const.Domain] && !imageTempDir.Str? ==>
        && r == Raised(TypeError) && person == old(person)
        && hass.serviceCalls == old(hass.serviceCalls) && hass.jobs == old(hass.jobs)
      ensures Const.Domain in hass.data && "recognition" in hass.data[Const.Domain] && imageTempDir.Str? ==>
        var recognition := hass.data[Const.Domain]["recognition"];
        var path := PathJoin(imageTempDir, ImageFileName(timestamp)).value;
        && hass.serviceCalls == old(hass.serviceCalls) + [CameraSnapshot(cameraDeviceId, path)]
        && (snapshot.Raised? ==>
              r == Raised(snapshot.exc) && person == old(person) && hass.jobs == old(hass.jobs))
        && (snapshot.Returned? && !imageAppeared ==>
              && person == NoneLabel
              && hass.jobs == old(hass.jobs) + [AwaitImage(path), DeleteImage(path)]
              && r == Returned(Response(false, State())))
        && (snapshot.Returned? && imageAppeared && recognition.None? ==>
              && r == Raised(AttributeError) && person == old(person)
              && hass.jobs == old(hass.jobs) + [AwaitImage(path)])
        && (snapshot.Returned? && imageAppeared && recognition.Some? ==>
              var answer := recognize(recognition.value, path);
              && (answer.Raised? ==>
                    && r == Raised(answer.exc) && person == old(person)
                    && hass.jobs == old(hass.jobs) + [AwaitImage(path), Recognize(recognition.value, path)])
              && (answer.Returned? ==>
                    && person == ParsePerson(answer.value)
                    && hass.jobs == old(hass.jobs) +
                         [AwaitImage(path), Recognize(recognition.value, path), DeleteImage(path)]
                    && r == Returned(Response(true, State()))))
    {
      if Const.Domain !in hass.data || "recognition" !in hass.data[Const.Domain] {
        return Raised(KeyError);
      }
      var recognition := hass.data[Const.Domain]["recognition"];
      var joined := PathJoin(imageTempDir, ImageFileName(timestamp));
      if joined.Raised? {
        return Raised(joined.exc);
      }
      var imgFilename := joined.value;
      hass.serviceCalls := hass.serviceCalls + [CameraSnapshot(cameraDeviceId, imgFilename)];
      if snapshot.Raised? {
        return Raised(snapshot.exc);
      }
      hass.jobs := hass.jobs + [AwaitImage(imgFilename)];
      var success := imageAppeared;
      if !success {
        person := NoneLabel;
      } else {
        if recognition.None? {
          return Raised(AttributeError);
        }
        hass.jobs := hass.jobs + [Recognize(recognition.value, imgFilename)];
        var result := recognize(recognition.value, imgFilename);
        if result.Raised? {
          return Raised(result.exc);
        }
        person := ParsePerson(result.value);
      }
      // the image is removed by a job that is not awaited
      hass.jobs := hass.jobs + [DeleteImage(imgFilename)];
      return Returned(Response(success, person));
    }
  }

  /** The sensor platform's `async_setup_entry`: when the options list the
      recognition cameras, one fresh sensor per device id, in list order, is
      handed to the host (`added`); otherwise nothing is added.
      `registered` tells whether the device registry knows an id: the
      sensor's constructor reads the name of the registry's device, so an
      unknown id raises AttributeError and nothing is added. */
  method AsyncSetupEntry(hass: Hass, entry: ConfigEntry, registered: Value -> bool)
    returns (added: Option<seq<RecognitionSensor>>, r: Outcome<bool>)
    ensures var listed := Const.RecognitionCameraDevices in entry.options && entry.options[Const.RecognitionCameraDevices].List?;
      && (r.Raised? <==> listed && exists d :: d in entry.options[Const.RecognitionCameraDevices].items && !registered(d))
      && (r.Raised? ==> r.exc == AttributeError && added.None?)
      && (r.Returned? ==> r.value)
      && (added.Some? <==> listed && r.Returned?)
    ensures added.Some? ==>
      var devices := entry.options[Const.RecognitionCameraDevices].items;
      && |added.value| == |devices|
      && forall i :: 0 <= i < |devices| ==>
           && fresh(added.value[i])
           && added.value[i].UniqueId() == devices[i]
           && added.value[i].State() == NoneLabel
           && added.value[i].hass == hass
           && added.value[i].imageTempDir == Get(entry.data, Const.ConfImageTempDir)
  {
    added := None;
    if Const.RecognitionCameraDevices in entry.options && entry.options[Const.RecognitionCameraDevices].List? {
      var devices := entry.options[Const.RecognitionCameraDevices].items;
      var entities: seq<RecognitionSensor> := [];
      for i := 0 to |devices|
        invariant |entities| == i
        invariant forall j :: 0 <= j < i ==> registered(devices[j])
        invariant forall j :: 0 <= j < i ==>
          && fresh(entities[j])
          && entities[j].UniqueId() == devices[j]
          && entities[j].State() == NoneLabel
          && entities[j].hass == hass
          && entities[j].imageTempDir == Get(entry.data, Const.ConfImageTempDir)
      {
        if !registered(devices[i]) {
          return None, Raised(AttributeError);
        }
        var entity := new RecognitionSensor(hass, devices[i], Get(entry.data, Const.ConfImageTempDir));
        entities := entities + [entity];
      }
      added := Some(entities);
    }
    r := Returned(true);
  }
}
