/** The web layer's own logic: the upload check run before the analysis
    handler, the response envelope every API endpoint is wrapped in, and the
    guards of the endpoints in front of the evaluation. Flask's request and
    response objects are plain values here; what the wrapped services do is a
    parameter. */
module App {
  import opened Common
  import opened Strings

  // ---------------------------------------------------------------------------
  // validate_audio_file

  /** The `UPLOAD_EXTENSIONS` setting. */
  const UPLOAD_EXTENSIONS: seq<string> :=
    [".mp3", ".wav", ".m4a", ".aac", ".ogg", ".webm", ".flac", ".mp4", ".avi", ".mov"]

  predicate AllDots(s: string) {
    forall k :: 0 <= k < |s| ==> s[k] == '.'
  }

  /** `r` is `e` with some dots removed at its start and some at its end. */
  predicate DotTrimmed(e: string, r: string) {
    exists i, j :: 0 <= i <= j <= |e| && r == e[i..j] && AllDots(e[..i]) && AllDots(e[j..])
  }

  lemma DotTrimmedFront(e: string, r: string)
    requires e != [] && e[0] == '.' && DotTrimmed(e[1..], r)
    ensures DotTrimmed(e, r)
  {
    var t := e[1..];
    var i, j :| 0 <= i <= j <= |t| && r == t[i..j] && AllDots(t[..i]) && AllDots(t[j..]);
    assert r == e[i + 1..j + 1];
    assert e[..i + 1] == [e[0]] + t[..i];
    assert e[j + 1..] == t[j..];
  }

  lemma DotTrimmedBack(e: string, r: string)
    requires e != [] && e[|e| - 1] == '.' && DotTrimmed(e[..|e| - 1], r)
    ensures DotTrimmed(e, r)
  {
    var t := e[..|e| - 1];
    var i, j :| 0 <= i <= j <= |t| && r == t[i..j] && AllDots(t[..i]) && AllDots(t[j..]);
    assert r == e[i..j];
    assert e[..i] == t[..i];
    assert e[j..] == t[j..] + [e[|e| - 1]];
  }

  lemma DotTrimmedSelf(e: string)
    ensures DotTrimmed(e, e)
  {
    assert e == e[0..|e|] && e[..0] == [] && e[|e|..] == [];
  }

  /** `e.strip(".")`: the part of `e` left once the runs of dots at either end
      are removed; what remains neither starts nor ends with a dot. */
  function StripDots(e: string): (r: string)
    ensures r == [] || (r[0] != '.' && r[|r| - 1] != '.')
    ensures DotTrimmed(e, r)
    decreases |e|
  {
    if e != [] && e[0] == '.' then
      var r := StripDots(e[1..]);
      DotTrimmedFront(e, r);
      r
    else if e != [] && e[|e| - 1] == '.' then
      var r := StripDots(e[..|e| - 1]);
      DotTrimmedBack(e, r);
      r
    else
      DotTrimmedSelf(e);
      e
  }

  /** The accepted extensions: each setting with its dots removed. */
  const ALLOWED_EXTENSIONS: seq<string> := ["mp3", "wav", "m4a", "aac", "ogg", "webm", "flac", "mp4", "avi", "mov"]

  lemma StripLeadingDot(x: string)
    requires x != [] && x[0] != '.' && x[|x| - 1] != '.'
    ensures StripDots("." + x) == x
  {
    assert ("." + x)[1..] == x;
  }

  lemma AllowedExtensionsStripped()
    ensures |ALLOWED_EXTENSIONS| == |UPLOAD_EXTENSIONS|
    ensures forall i :: 0 <= i < |UPLOAD_EXTENSIONS| ==> StripDots(UPLOAD_EXTENSIONS[i]) == ALLOWED_EXTENSIONS[i]
  {
    forall i | 0 <= i < |UPLOAD_EXTENSIONS| ensures StripDots(UPLOAD_EXTENSIONS[i]) == ALLOWED_EXTENSIONS[i] {
      var x := ALLOWED_EXTENSIONS[i];
      assert UPLOAD_EXTENSIONS[i] == "." + x;
      StripLeadingDot(x);
    }
  }

  /** The uploaded `audio` part: its `filename`, which may be missing. */
  datatype Upload = Upload(filename: Option<string>)

  /** `file.filename.rsplit(".", 1)[1].lower()` */
  function Extension(filename: string): (ext: string)
    requires '.' in filename
  {
    var k := LastIndexOf(filename, '.').value;
    Lower(filename[k + 1..])
  }

  /** The extension is the lower-cased text after the last dot. */
  lemma {:induction false} ExtensionAfterLastDot(name: string, ext: string)
    requires '.' !in ext
    ensures '.' in name + "." + ext
    ensures Extension(name + "." + ext) == Lower(ext)
  {
    var s := name + "." + ext;
    assert s[|name|] == '.';
    var k := LastIndexOf(s, '.').value;
    assert s[k + 1..] == ext;
  }

  /** `file.filename` is set, non-empty and contains a dot. */
  predicate NamedWithDot(file: Upload) {
    file.filename.Some? && file.filename.value != "" && '.' in file.filename.value
  }

  /** A request that passes the upload check, or the error response it gets. */
  datatype Checked = Accepted(file: Upload) | Rejected(message: string)

  const NO_AUDIO_MESSAGE := "未提供音檔"
  const BAD_NAME_MESSAGE := "無效檔案名稱"
  const BAD_FORMAT_MESSAGE := "不支援的檔案格式"

  /** `validate_audio_file`: the request must have an `audio` part whose file name
      is non-empty, contains a dot, and ends in an accepted extension. */
  function ValidateAudioFile(audio: Option<Upload>): (r: Checked)
    ensures audio.None? ==> r == Rejected(NO_AUDIO_MESSAGE)
    ensures audio.Some? && !NamedWithDot(audio.value) ==> r == Rejected(BAD_NAME_MESSAGE)
    ensures r.Accepted? <==>
      audio.Some? && audio.value.filename.Some? && '.' in audio.value.filename.value
      && Extension(audio.value.filename.value) in ALLOWED_EXTENSIONS
    ensures r.Accepted? ==> r.file == audio.value
  {
    match audio
    case None => Rejected(NO_AUDIO_MESSAGE)
    case Some(file) =>
      if !NamedWithDot(file) then Rejected(BAD_NAME_MESSAGE)
      else if Extension(file.filename.value) !in ALLOWED_EXTENSIONS then Rejected(BAD_FORMAT_MESSAGE)
      else Accepted(file)
  }

  /** A name is accepted exactly when what follows its last dot is one of the
      allowed extensions in any letter case. */
  lemma UploadNameAccepted(name: string, ext: string)
    requires '.' !in ext
    ensures ValidateAudioFile(Some(Upload(Some(name + "." + ext)))).Accepted? <==> Lower(ext) in ALLOWED_EXTENSIONS
    ensures Lower(ext) !in ALLOWED_EXTENSIONS ==>
      ValidateAudioFile(Some(Upload(Some(name + "." + ext)))) == Rejected(BAD_FORMAT_MESSAGE)
  {
    ExtensionAfterLastDot(name, ext);
  }

  /** An upper-case extension is accepted. */
  lemma UpperCaseAccepted()
    ensures ValidateAudioFile(Some(Upload(Some("talk.WAV")))).Accepted?
  {
    UploadNameAccepted("talk", "WAV");
    assert Lower("WAV") == "wav";
    assert "talk" + "." + "WAV" == "talk.WAV";
  }

  /** Only the text after the last dot counts. */
  lemma LastExtensionCounts()
    ensures ValidateAudioFile(Some(Upload(Some("talk.wav.txt")))) == Rejected(BAD_FORMAT_MESSAGE)
    ensures ValidateAudioFile(Some(Upload(Some("talk.txt.mp3")))) == Accepted(Upload(Some("talk.txt.mp3")))
  {
    InnerWavIgnored();
    InnerTxtIgnored();
  }

  lemma InnerWavIgnored()
    ensures ValidateAudioFile(Some(Upload(Some("talk.wav.txt")))) == Rejected(BAD_FORMAT_MESSAGE)
  {
    UploadNameAccepted("talk.wav", "txt");
    assert Lower("txt") == "txt";
    assert "talk.wav" + "." + "txt" == "talk.wav.txt";
  }

  lemma InnerTxtIgnored()
    ensures ValidateAudioFile(Some(Upload(Some("talk.txt.mp3")))) == Accepted(Upload(Some("talk.txt.mp3")))
  {
    UploadNameAccepted("talk.txt", "mp3");
    assert Lower("mp3") == "mp3";
    assert "talk.txt" + "." + "mp3" == "talk.txt.mp3";
  }

  // ---------------------------------------------------------------------------
  // api_response

  /** What an endpoint function returns: a payload alone, or a payload and a status code. */
  datatype HandlerReturn = Bare(data: Value) | WithStatus(data: Value, status: nat)

  /** What the client receives: the JSON body and the status code. */
  datatype Response = Response(body: map<string, Value>, status: nat)

  const NOT_A_DICT_MESSAGE := "API endpoint must return a dictionary."

  /** The error response of the wrapper. */
  function ErrorResponse(e: Exc, now: string): Response {
    Response(map["success" := Bool(false), "timestamp" := Str(now), "error" := Str(e.message)], 500)
  }

  /** `except (ValueError, RuntimeError, TypeError)` */
  predicate WrapperCatches(e: Exc) {
    IsA(e.kind, ValueError) || IsA(e.kind, RuntimeError) || IsA(e.kind, TypeError)
  }

  /** `api_response`: put the payload's keys over a `success: true` envelope with a
      timestamp, with status 200 unless the endpoint gave one; a payload that is
      not a dict, or a ValueError, RuntimeError or TypeError, becomes a 500 error
      response. Any other exception escapes. `now` is `datetime.now().isoformat()`. */
  function ApiResponse(returned: Result<HandlerReturn>, now: string): (r: Result<Response>)
    ensures returned.Err? && !WrapperCatches(returned.error) ==> r == Err(returned.error)
    ensures returned.Err? && WrapperCatches(returned.error) ==> r == Ok(ErrorResponse(returned.error, now))
    ensures returned.Ok? && !returned.value.data.Obj? ==>
      r == Ok(ErrorResponse(Exc(TypeError, NOT_A_DICT_MESSAGE), now))
  {
    match returned
    case Err(e) => if WrapperCatches(e) then Ok(ErrorResponse(e, now)) else Err(e)
    case Ok(h) =>
      var status := if h.WithStatus? then h.status else 200;
      match h.data
      case Obj(fields) =>
        Ok(Response(map["success" := Bool(true), "timestamp" := Str(now)] + fields, status))
      case _ => Ok(ErrorResponse(Exc(TypeError, NOT_A_DICT_MESSAGE), now))
  }

  /** The status rule and the merge: a dict payload keeps its own code (200 when
      it gives none), every payload key is in the body with its own value, and the
      envelope's keys are there unless the payload overrides them. */
  lemma EnvelopeMerge(h: HandlerReturn, now: string)
    requires h.data.Obj?
    ensures var r := ApiResponse(Ok(h), now);
      r.Ok?
      && r.value.status == (if h.WithStatus? then h.status else 200)
      && r.value.body.Keys == h.data.fields.Keys + {"success", "timestamp"}
      && (forall k :: k in h.data.fields ==> r.value.body[k] == h.data.fields[k])
      && ("success" !in h.data.fields ==> r.value.body["success"] == Bool(true))
      && ("timestamp" !in h.data.fields ==> r.value.body["timestamp"] == Str(now))
  {
  }

  /** Every response that reaches the client has a `success` field, and it is false
      on the wrapper's own 500 responses. */
  lemma ResponseHasSuccess(returned: Result<HandlerReturn>, now: string)
    ensures var r := ApiResponse(returned, now);
      r.Ok? ==> "success" in r.value.body && "timestamp" in r.value.body
    ensures var r := ApiResponse(returned, now);
      r.Ok? && (returned.Err? || !returned.value.data.Obj?) ==>
        r.value.status == 500 && r.value.body["success"] == Bool(false)
  {
  }

  /** An endpoint's own error dict with a 400 code carries `success: true`. */
  lemma ErrorDictSaysSuccess(message: string, now: string)
    ensures ApiResponse(Ok(WithStatus(Obj(map["error" := Str(message)]), 400)), now)
         == Ok(Response(map["success" := Bool(true), "timestamp" := Str(now), "error" := Str(message)], 400))
  {
    var env := map["success" := Bool(true), "timestamp" := Str(now)];
    assert env + map["error" := Str(message)] == map["success" := Bool(true), "timestamp" := Str(now), "error" := Str(message)];
  }

  // ---------------------------------------------------------------------------
  // Endpoints

  /** `{"error": message}, code`. */
  function ErrorReturn(message: string, code: nat): HandlerReturn {
    WithStatus(Obj(map["error" := Str(message)]), code)
  }

  const NO_REFERENCE_MESSAGE := "請提供標準文本 (reference_text 欄位)"

  /** `analyze_complete` behind `validate_audio_file`: the upload check, then the
      trimmed `reference_text` form field (absent counts as empty), and only then
      the save and the evaluation, whose `to_dict()` or exception `evaluate` gives. */
  function AnalyzeComplete(audio: Option<Upload>, form: map<string, string>,
                           evaluate: (Upload, string) -> Result<map<string, Value>>): (r: Result<HandlerReturn>)
    ensures ValidateAudioFile(audio).Rejected? ==> r == Ok(ErrorReturn(ValidateAudioFile(audio).message, 400))
    ensures r.Ok? && r.value.WithStatus? ==> r.value.status == 400 && r.value.data.Obj?
    ensures r.Err? || r.value.Bare? ==>
      ValidateAudioFile(audio).Accepted? && "reference_text" in form && !AllSpace(form["reference_text"])
      && var e := evaluate(ValidateAudioFile(audio).file, Strip(form["reference_text"]));
         (r.Err? ==> e == Err(r.error)) && (r.Ok? ==> e.Ok? && r.value == Bare(Obj(e.value)))
  {
    match ValidateAudioFile(audio)
    case Rejected(message) => Ok(ErrorReturn(message, 400))
    case Accepted(file) =>
      var reference := Strip(if "reference_text" in form then form["reference_text"] else "");
      if reference == "" then Ok(ErrorReturn(NO_REFERENCE_MESSAGE, 400))
      else match evaluate(file, reference)
        case Err(e) => Err(e)
        case Ok(d) => Ok(Bare(Obj(d)))
  }

  /** A blank reference text is refused with 400 before the upload is saved or
      evaluated; otherwise the evaluation sees the trimmed text. */
  lemma AnalyzeNeedsReference(audio: Option<Upload>, form: map<string, string>,
                              evaluate1: (Upload, string) -> Result<map<string, Value>>,
                              evaluate2: (Upload, string) -> Result<map<string, Value>>)
    requires ValidateAudioFile(audio).Accepted?
    requires "reference_text" !in form || AllSpace(form["reference_text"])
    ensures AnalyzeComplete(audio, form, evaluate1) == Ok(ErrorReturn(NO_REFERENCE_MESSAGE, 400))
    ensures AnalyzeComplete(audio, form, evaluate1) == AnalyzeComplete(audio, form, evaluate2)
  {
  }

  /** With a valid upload and a reference, the body is the evaluation's dict in
      the envelope with status 200. */
  lemma AnalyzeReturnsEvaluation(audio: Option<Upload>, form: map<string, string>,
                                 evaluate: (Upload, string) -> Result<map<string, Value>>, now: string)
    requires ValidateAudioFile(audio).Accepted?
    requires "reference_text" in form && !AllSpace(form["reference_text"])
    requires evaluate(audio.value, Strip(form["reference_text"])).Ok?
    ensures var d := evaluate(audio.value, Strip(form["reference_text"])).value;
      ApiResponse(AnalyzeComplete(audio, form, evaluate), now)
      == Ok(Response(map["success" := Bool(true), "timestamp" := Str(now)] + d, 200))
  {
  }

  /** With a valid upload and a reference, an exception from the evaluation is
      what the endpoint raises. */
  lemma AnalyzeRaisesEvaluationError(audio: Option<Upload>, form: map<string, string>,
                                     evaluate: (Upload, string) -> Result<map<string, Value>>)
    requires ValidateAudioFile(audio).Accepted?
    requires "reference_text" in form && !AllSpace(form["reference_text"])
    requires evaluate(audio.value, Strip(form["reference_text"])).Err?
    ensures AnalyzeComplete(audio, form, evaluate) == Err(evaluate(audio.value, Strip(form["reference_text"])).error)
  {
  }

  const NO_RECORDING_MESSAGE := "沒有錄音資料或錄音失敗"
  const MISSING_REFERENCE_MESSAGE := "缺少標準參考文本"

  /** Python truthiness of a JSON value. */
  predicate Truthy(v: Value) {
    match v
    case Null => false
    case Bool(b) => b
    case Num(n) => n != 0.0
    case Str(s) => s != ""
    case Arr(items) => items != []
    case Obj(fields) => fields != map[]
  }

  /** `(request.get_json(silent=True) or {}).get("reference_text", "").strip()`:
      the body that failed to parse, or is falsy, counts as `{}`; a body that is
      not an object, or a `reference_text` that is not a string, has no such
      method and raises AttributeError. */
  function ReferenceFromJson(json: Option<Value>): (r: Result<string>)
    ensures r.Ok? ==> NoEdgeSpace(r.value)
    ensures r.Err? ==> r.error.kind == AttributeError
    ensures r.Err? <==>
      (json.Some? && Truthy(json.value)
       && (!json.value.Obj? || ("reference_text" in json.value.fields && !json.value.fields["reference_text"].Str?)))
    ensures r.Err? && !json.value.Obj? ==> r.error.message == NoAttribute(json.value, "get")
    ensures r.Err? && json.value.Obj? ==>
      r.error.message == NoAttribute(json.value.fields["reference_text"], "strip")
    ensures r.Ok? ==>
      r.value == (if json.Some? && json.value.Obj? && "reference_text" in json.value.fields
                  then Strip(json.value.fields["reference_text"].s) else "")
  {
    var data := if json.None? || !Truthy(json.value) then Obj(map[]) else json.value;
    match data
    case Obj(fields) =>
      if "reference_text" !in fields then Ok("")
      else (match fields["reference_text"]
        case Str(s) => Ok(Strip(s))
        case other => Err(Exc(AttributeError, NoAttribute(other, "strip"))))
    case _ => Err(Exc(AttributeError, NoAttribute(data, "get")))
  }

  /** `stop_recording_api`: stop the recorder (`stopped` is the path it gives);
      no file means 400 before the body is read; then the reference text must be
      present; then the evaluation, whose `to_dict()` or exception `evaluate` gives. */
  function StopRecordingApi(stopped: Option<string>, json: Option<Value>,
                            evaluate: (string, string) -> Result<map<string, Value>>): (r: Result<HandlerReturn>)
    ensures stopped.None? || stopped.value == "" ==> r == Ok(ErrorReturn(NO_RECORDING_MESSAGE, 400))
    ensures r.Ok? && r.value.WithStatus? ==> r.value.status == 400 && r.value.data.Obj?
    ensures r.Err? ==>
      (stopped.Some? && stopped.value != ""
       && (ReferenceFromJson(json) == Err(r.error)
           || (ReferenceFromJson(json).Ok? && ReferenceFromJson(json).value != ""
               && evaluate(stopped.value, ReferenceFromJson(json).value) == Err(r.error))))
    ensures r.Ok? && r.value.Bare? ==>
      (stopped.Some? && stopped.value != ""
       && ReferenceFromJson(json).Ok? && ReferenceFromJson(json).value != ""
       && var e := evaluate(stopped.value, ReferenceFromJson(json).value);
          e.Ok? && r.value == Bare(Obj(e.value)))
  {
    if stopped.None? || stopped.value == "" then Ok(ErrorReturn(NO_RECORDING_MESSAGE, 400))
    else match ReferenceFromJson(json)
      case Err(e) => Err(e)
      case Ok(reference) =>
        if reference == "" then Ok(ErrorReturn(MISSING_REFERENCE_MESSAGE, 400))
        else match evaluate(stopped.value, reference)
          case Err(e) => Err(e)
          case Ok(d) => Ok(Bare(Obj(d)))
  }

  /** No recording: 400 whatever the request body holds and whatever the
      evaluation would do. */
  lemma StopWithoutRecording(json1: Option<Value>, json2: Option<Value>,
                             evaluate1: (string, string) -> Result<map<string, Value>>,
                             evaluate2: (string, string) -> Result<map<string, Value>>)
    ensures StopRecordingApi(None, json1, evaluate1) == Ok(ErrorReturn(NO_RECORDING_MESSAGE, 400))
    ensures StopRecordingApi(None, json1, evaluate1) == StopRecordingApi(Some(""), json2, evaluate2)
  {
  }

  /** With a recording, a missing, empty or blank reference text gives 400 and
      the evaluation is not run. */
  lemma StopNeedsReference(path: string, json: Option<Value>,
                           evaluate1: (string, string) -> Result<map<string, Value>>,
                           evaluate2: (string, string) -> Result<map<string, Value>>)
    requires path != ""
    requires json.None? || !Truthy(json.value)
             || (json.value.Obj? && ("reference_text" !in json.value.fields
                 || (json.value.fields["reference_text"].Str? && AllSpace(json.value.fields["reference_text"].s))))
    ensures StopRecordingApi(Some(path), json, evaluate1) == Ok(ErrorReturn(MISSING_REFERENCE_MESSAGE, 400))
    ensures StopRecordingApi(Some(path), json, evaluate1) == StopRecordingApi(Some(path), json, evaluate2)
  {
  }

  /** With a recording and a reference text, the body is the evaluation's dict
      of the trimmed reference in the envelope, with status 200. */
  lemma StopReturnsEvaluation(path: string, fields: map<string, Value>,
                              evaluate: (string, string) -> Result<map<string, Value>>, now: string)
    requires path != "" && "reference_text" in fields && fields["reference_text"].Str?
    requires !AllSpace(fields["reference_text"].s)
    requires evaluate(path, Strip(fields["reference_text"].s)).Ok?
    ensures var d := evaluate(path, Strip(fields["reference_text"].s)).value;
      ApiResponse(StopRecordingApi(Some(path), Some(Obj(fields)), evaluate), now)
      == Ok(Response(map["success" := Bool(true), "timestamp" := Str(now)] + d, 200))
  {
    assert Truthy(Obj(fields)) by {
      assert "reference_text" in fields;
    }
  }

  /** With a recording and a reference text, an exception from the evaluation
      is what the endpoint raises. */
  lemma StopRaisesEvaluationError(path: string, fields: map<string, Value>,
                                  evaluate: (string, string) -> Result<map<string, Value>>)
    requires path != "" && "reference_text" in fields && fields["reference_text"].Str?
    requires !AllSpace(fields["reference_text"].s)
    requires evaluate(path, Strip(fields["reference_text"].s)).Err?
    ensures StopRecordingApi(Some(path), Some(Obj(fields)), evaluate)
         == Err(evaluate(path, Strip(fields["reference_text"].s)).error)
  {
    assert Truthy(Obj(fields)) by {
      assert "reference_text" in fields;
    }
  }

  /** A reference text that is not a string is not caught by the envelope: the
      AttributeError escapes to the framework. */
  lemma StopNonStringReferenceEscapes(path: string, fields: map<string, Value>,
                                      evaluate: (string, string) -> Result<map<string, Value>>, now: string)
    requires path != "" && "reference_text" in fields && !fields["reference_text"].Str?
    ensures ApiResponse(StopRecordingApi(Some(path), Some(Obj(fields)), evaluate), now).Raises(AttributeError)
  {
    assert Truthy(Obj(fields)) by {
      assert "reference_text" in fields;
    }
  }

  const RECORDING_STARTED_MESSAGE := "錄音已開始"
  const CANNOT_RECORD_MESSAGE := "無法開始錄音，請檢查麥克風設定"

  /** `start_recording_api`: `started` is what the recorder's `start_recording()` gave. */
  function StartRecordingApi(started: bool): (r: HandlerReturn)
    ensures r.data.Obj?
    ensures started <==> r.Bare?
  {
    if started then Bare(Obj(map["message" := Str(RECORDING_STARTED_MESSAGE), "recording" := Bool(true)]))
    else ErrorReturn(CANNOT_RECORD_MESSAGE, 400)
  }

  /** Starting answers 200 with `recording: true`, or 400 with the microphone
      message; both say `success: true`. */
  lemma StartRecordingResponses(started: bool, now: string)
    ensures var r := ApiResponse(Ok(StartRecordingApi(started)), now);
      r.Ok? && r.value.body["success"] == Bool(true)
      && (started ==> r.value.status == 200 && r.value.body["recording"] == Bool(true))
      && (!started ==> r.value.status == 400 && r.value.body["error"] == Str(CANNOT_RECORD_MESSAGE))
  {
  }

  /** `recording_status`: the recorder's flag and its duration so far. */
  function RecordingStatus(recording: bool, duration: real): (r: HandlerReturn)
    ensures r.Bare? && r.data.Obj? && r.data.fields.Keys == {"recording", "duration"}
  {
    Bare(Obj(map["recording" := Bool(recording), "duration" := Num(duration)]))
  }
}
