/** The evaluation of one audio file (`EvaluationService`): transcribe it,
    compare the transcript with the reference text, grade the accuracy, and
    collect everything in an `EvaluationResult`. The backends are the oracles
    of the transcription and comparison modules; the evaluation id, the
    timestamp and the elapsed time are parameters. */
module Evaluation {
  import opened Common
  import opened Config
  import opened Transcription
  import opened Comparator

  // ---------------------------------------------------------------------------
  // _calculate_evaluation_metrics

  /** The four accuracy grades, from best to worst. */
  datatype AccuracyLevel = Excellent | Good | Fair | NeedsImprovement {
    /** The label stored in the metrics. */
    function Label(): string {
      match this
      case Excellent => "優秀"
      case Good => "良好"
      case Fair => "普通"
      case NeedsImprovement => "需要改進"
    }

    function Rank(): nat {
      match this
      case Excellent => 3
      case Good => 2
      case Fair => 1
      case NeedsImprovement => 0
    }
  }

  /** The grade of a score: the first threshold, from the top, that it reaches. */
  function LevelOf(score: real, t: Thresholds): (l: AccuracyLevel)
    ensures l == Excellent <==> score >= t.excellent
    ensures l == Good <==> score < t.excellent && score >= t.good
    ensures l == Fair <==> score < t.excellent && score < t.good && score >= t.fair
    ensures l == NeedsImprovement <==> score < t.excellent && score < t.good && score < t.fair
  {
    if score >= t.excellent then Excellent
    else if score >= t.good then Good
    else if score >= t.fair then Fair
    else NeedsImprovement
  }

  /** A higher score never gets a lower grade, whatever the thresholds. */
  lemma LevelMonotone(s1: real, s2: real, t: Thresholds)
    requires s1 <= s2
    ensures LevelOf(s1, t).Rank() <= LevelOf(s2, t).Rank()
  {
  }

  /** The boundaries under the default configuration (90 and 60, with "good" at 75):
      each threshold belongs to the grade above it. */
  lemma DefaultLevels(cfg: EvaluationConfig)
    requires cfg.highAccuracyThreshold == 90.0 && cfg.minSimilarityThreshold == 60.0
    ensures var t := GetEvaluationThresholds(cfg);
      LevelOf(90.0, t) == Excellent && LevelOf(89.9, t) == Good
      && LevelOf(75.0, t) == Good && LevelOf(74.9, t) == Fair
      && LevelOf(60.0, t) == Fair && LevelOf(59.9, t) == NeedsImprovement
      && LevelOf(0.0, t) == NeedsImprovement && LevelOf(100.0, t) == Excellent
  {
  }

  /** What `>=` against a float makes of a stored value: numbers as they are,
      `True` and `False` as 1 and 0; anything else cannot be compared. */
  function Numeric(v: Value): (r: Option<real>)
    ensures r.Some? <==> v.Num? || v.Bool?
    ensures v.Num? ==> r == Some(v.n)
  {
    match v
    case Num(n) => Some(n)
    case Bool(b) => Some(if b then 1.0 else 0.0)
    case _ => None
  }

  /** `dict.get(key, 0)`. */
  function GetOrZero(m: map<string, Value>, key: string): Value {
    if key in m then m[key] else Num(0.0)
  }

  const METRIC_KEYS: set<string> :=
    {"accuracy_score", "semantic_similarity", "accuracy_level", "confidence", "processing_status"}

  /** `_calculate_evaluation_metrics`: grade the accuracy score against the
      configured thresholds and report both scores and the confidence unchanged.
      A score that cannot be compared with a float raises TypeError. */
  function CalculateEvaluationMetrics(comparison: map<string, Value>, confidence: real, cfg: EvaluationConfig)
    : (r: Result<map<string, Value>>)
    ensures r.Ok? <==> Numeric(GetOrZero(comparison, "accuracy_score")).Some?
    ensures r.Err? ==> r.error.kind == TypeError
    ensures r.Ok? ==>
      r.value.Keys == METRIC_KEYS
      && r.value["accuracy_score"] == GetOrZero(comparison, "accuracy_score")
      && r.value["semantic_similarity"] == GetOrZero(comparison, "semantic_similarity")
      && r.value["confidence"] == Num(confidence)
      && r.value["processing_status"] == Str("completed")
      && r.value["accuracy_level"] ==
           Str(LevelOf(Numeric(GetOrZero(comparison, "accuracy_score")).value, GetEvaluationThresholds(cfg)).Label())
  {
    var accuracy := GetOrZero(comparison, "accuracy_score");
    var similarity := GetOrZero(comparison, "semantic_similarity");
    match Numeric(accuracy)
    case None =>
      Err(Exc(TypeError, "'>=' not supported between instances of '" + TypeName(accuracy) + "' and 'float'"))
    case Some(score) =>
      var level := LevelOf(score, GetEvaluationThresholds(cfg));
      Ok(map[
        "accuracy_score" := accuracy,
        "semantic_similarity" := similarity,
        "accuracy_level" := Str(level.Label()),
        "confidence" := Num(confidence),
        "processing_status" := Str("completed")])
  }

  // ---------------------------------------------------------------------------
  // evaluate_single_file

  /** The transcription record of a successful transcription. */
  function TranscriptionRecord(path: string, fileName: string, t: Transcript): map<string, Value> {
    map[
      "file_path" := Str(path),
      "file_name" := Str(fileName),
      "transcript" := Str(t.text),
      "confidence" := Num(t.confidence),
      "success" := Bool(true),
      "error" := Null]
  }

  /** The transcription record written when the evaluation fails before one exists. */
  function FailedTranscriptionRecord(path: string, fileName: string, message: string): map<string, Value> {
    map[
      "file_path" := Str(path),
      "file_name" := Str(fileName),
      "transcript" := Null,
      "confidence" := Num(0.0),
      "success" := Bool(false),
      "error" := Str(message)]
  }

  const FAILED_SUMMARY := "評估失敗"
  const FAILED_REASONING_PREFIX := "評估過程發生錯誤: "

  /** The comparison written when the evaluation fails before one exists. */
  function ComparisonPlaceholder(message: string): map<string, Value> {
    map[
      "summary" := Str(FAILED_SUMMARY),
      "accuracy_score" := Num(0.0),
      "semantic_similarity" := Num(0.0),
      "error_analysis" := DEFAULT_ERROR_ANALYSIS,
      "key_differences" := Arr([]),
      "suggestions" := Arr([Str("檢查音頻檔案"), Str("確認網路連線")]),
      "reasoning" := Str(FAILED_REASONING_PREFIX + message),
      "success" := Bool(false),
      "error" := Str(message)]
  }

  /** The metrics of a failed evaluation. */
  const FAILED_METRICS: map<string, Value> := map[
    "accuracy_score" := Num(0.0),
    "semantic_similarity" := Num(0.0),
    "accuracy_level" := Str(FAILED_SUMMARY),
    "confidence" := Num(0.0),
    "processing_status" := Str("failed")]

  /** `except (RuntimeError, ValueError)`. */
  predicate Caught(e: Exc) {
    IsA(e.kind, RuntimeError) || IsA(e.kind, ValueError)
  }

  /** What an evaluation leaves in the result, apart from the fields it always sets. */
  datatype Outcome = Outcome(
    transcription: map<string, Value>,
    comparison: map<string, Value>,
    metrics: map<string, Value>,
    success: bool,
    errorMessage: Option<string>)

  /** The failure handler: keep what was already recorded, fill in what was not. */
  function Failure(path: string, fileName: string, transcription: map<string, Value>,
                   comparison: map<string, Value>, e: Exc): Outcome {
    Outcome(
      if transcription == map[] then FailedTranscriptionRecord(path, fileName, e.message) else transcription,
      if comparison == map[] then ComparisonPlaceholder(e.message) else comparison,
      FAILED_METRICS,
      false,
      Some(e.message))
  }

  /** What the evaluation makes of a successful transcription `t` and of what
      the comparison returned or raised. */
  function Evaluated(path: string, fileName: string, t: Transcript, compared: Result<map<string, Value>>,
                     cfg: EvaluationConfig): Result<Outcome>
  {
    var record := TranscriptionRecord(path, fileName, t);
    match compared
    case Err(e) => if Caught(e) then Ok(Failure(path, fileName, record, map[], e)) else Err(e)
    case Ok(c) =>
      var comparison := c["success" := Bool(true)];
      match CalculateEvaluationMetrics(comparison, t.confidence, cfg)
      case Err(e) => if Caught(e) then Ok(Failure(path, fileName, record, comparison, e)) else Err(e)
      case Ok(metrics) => Ok(Outcome(record, comparison, metrics, true, None))
  }

  /** What `evaluate_single_file` leaves in its result, or the exception that
      escapes it. `fileName` is `Path(audio_file_path).name`. */
  function EvaluationSpec(path: string, fileName: string, reference: string, file: FileInfo, whisper: Reply<string>,
                          cfg: EvaluationConfig, chat: ChatBackend,
                          decode: string -> Option<Value>, toFloat: string -> Option<real>): Result<Outcome>
  {
    match ServiceTranscribe(path, file, whisper)
    case Err(e) => if Caught(e) then Ok(Failure(path, fileName, map[], map[], e)) else Err(e)
    case Ok(t) => Evaluated(path, fileName, t, CompareSpec(t.text, reference, cfg, chat, decode, toFloat), cfg)
  }

  // ---------------------------------------------------------------------------
  // EvaluationResult

  const RESULT_KEYS: set<string> := {
    "evaluation_id", "timestamp", "audio_file", "reference_text", "transcription",
    "comparison", "evaluation_metrics", "processing_time", "success", "error_message"}

  class EvaluationResult {
    var evaluationId: string
    var timestamp: string
    var audioFile: string
    var referenceText: string
    var transcription: map<string, Value>
    var comparison: map<string, Value>
    var evaluationMetrics: map<string, Value>
    var processingTime: real
    var success: bool
    var errorMessage: Option<string>

    /** `EvaluationResult()`, with the uuid and the ISO timestamp given. */
    constructor (id: string, now: string)
      ensures evaluationId == id && timestamp == now
      ensures audioFile == "" && referenceText == ""
      ensures transcription == map[] && comparison == map[] && evaluationMetrics == map[]
      ensures processingTime == 0.0 && !success && errorMessage.None?
    {
      evaluationId := id;
      timestamp := now;
      audioFile := "";
      referenceText := "";
      transcription := map[];
      comparison := map[];
      evaluationMetrics := map[];
      processingTime := 0.0;
      success := false;
      errorMessage := None;
    }

    /** `to_dict()`: the ten fields under their Python names. */
    function ToDict(): (d: map<string, Value>)
      reads this
      ensures d.Keys == RESULT_KEYS
      ensures d["evaluation_id"] == Str(evaluationId) && d["timestamp"] == Str(timestamp)
      ensures d["audio_file"] == Str(audioFile) && d["reference_text"] == Str(referenceText)
      ensures d["processing_time"] == Num(processingTime)
      ensures d["success"] == Bool(success) && d["error_message"] == OptStr(errorMessage)
      ensures d["transcription"] == Obj(transcription) && d["comparison"] == Obj(comparison)
      ensures d["evaluation_metrics"] == Obj(evaluationMetrics)
    {
      map[
        "evaluation_id" := Str(evaluationId),
        "timestamp" := Str(timestamp),
        "audio_file" := Str(audioFile),
        "reference_text" := Str(referenceText),
        "transcription" := Obj(transcription),
        "comparison" := Obj(comparison),
        "evaluation_metrics" := Obj(evaluationMetrics),
        "processing_time" := Num(processingTime),
        "success" := Bool(success),
        "error_message" := OptStr(errorMessage)]
    }

    /** What the result holds, apart from the fields every evaluation sets. */
    function Holds(): Outcome
      reads this
    {
      Outcome(transcription, comparison, evaluationMetrics, success, errorMessage)
    }

    /** The fields every evaluation sets: identity, time stamp, inputs and duration. */
    function Header(): (string, string, string, string, real)
      reads this
    {
      (evaluationId, timestamp, audioFile, referenceText, processingTime)
    }

    /** The `except (RuntimeError, ValueError)` block: record the error, keep the
        transcription and comparison already recorded and fill in the others. */
    method RecordFailure(path: string, fileName: string, e: Exc)
      modifies this
      ensures Holds() == Failure(path, fileName, old(transcription), old(comparison), e)
      ensures Header() == old(Header())
    {
      errorMessage := Some(e.message);
      success := false;
      if transcription == map[] {
        transcription := FailedTranscriptionRecord(path, fileName, e.message);
      }
      if comparison == map[] {
        comparison := ComparisonPlaceholder(e.message);
      }
      evaluationMetrics := FAILED_METRICS;
    }

    /** The steps after a successful transcription `t`: record it, mark the
        comparison successful, grade it, or record what went wrong. Gives the
        exception that escapes, if any. */
    method RecordAnalysis(path: string, fileName: string, t: Transcript, compared: Result<map<string, Value>>,
                          cfg: EvaluationConfig) returns (escaped: Option<Exc>)
      requires transcription == map[] && comparison == map[] && evaluationMetrics == map[]
      requires !success && errorMessage.None?
      modifies this
      ensures var spec := Evaluated(path, fileName, t, compared, cfg);
        (escaped.Some? <==> spec.Err?)
        && (escaped.Some? ==> escaped.value == spec.error)
        && (escaped.None? ==> Holds() == spec.value)
      ensures Header() == old(Header())
    {
      transcription := TranscriptionRecord(path, fileName, t);
      assert "file_path" in transcription;
      if compared.Err? {
        if !Caught(compared.error) {
          return Some(compared.error);
        }
        RecordFailure(path, fileName, compared.error);
        return None;
      }
      escaped := RecordGrade(path, fileName, t, compared.value, cfg);
    }

    /** The steps after a comparison `c` was returned: mark it successful and
        grade it, or record what went wrong. */
    method RecordGrade(path: string, fileName: string, t: Transcript, c: map<string, Value>,
                       cfg: EvaluationConfig) returns (escaped: Option<Exc>)
      requires transcription == TranscriptionRecord(path, fileName, t)
      requires comparison == map[] && evaluationMetrics == map[] && !success && errorMessage.None?
      modifies this
      ensures var spec := Evaluated(path, fileName, t, Ok(c), cfg);
        (escaped.Some? <==> spec.Err?)
        && (escaped.Some? ==> escaped.value == spec.error)
        && (escaped.None? ==> Holds() == spec.value)
      ensures Header() == old(Header())
    {
      assert "file_path" in transcription;
      comparison := c["success" := Bool(true)];
      var metrics := CalculateEvaluationMetrics(comparison, t.confidence, cfg);
      if metrics.Err? {
        if !Caught(metrics.error) {
          return Some(metrics.error);
        }
        assert "success" in comparison;
        RecordFailure(path, fileName, metrics.error);
        return None;
      }
      evaluationMetrics := metrics.value;
      success := true;
      return None;
    }

    /** The body of `evaluate_single_file` on a fresh result: transcribe, compare
        and grade, recording what went wrong where the service catches it. Gives
        the exception that escapes, if any. */
    method RecordEvaluation(path: string, fileName: string, reference: string, file: FileInfo, whisper: Reply<string>,
                            cfg: EvaluationConfig, chat: ChatBackend,
                            decode: string -> Option<Value>, toFloat: string -> Option<real>)
      returns (escaped: Option<Exc>)
      requires transcription == map[] && comparison == map[] && evaluationMetrics == map[]
      requires !success && errorMessage.None?
      modifies this
      ensures var spec := EvaluationSpec(path, fileName, reference, file, whisper, cfg, chat, decode, toFloat);
        (escaped.Some? <==> spec.Err?)
        && (escaped.Some? ==> escaped.value == spec.error)
        && (escaped.None? ==> Holds() == spec.value)
      ensures Header() == old(Header())
    {
      var transcribed := ServiceTranscribe(path, file, whisper);
      if transcribed.Err? {
        var e := transcribed.error;
        if !Caught(e) {
          return Some(e);
        }
        RecordFailure(path, fileName, e);
        return None;
      }
      var t := transcribed.value;
      var compared := CompareTextAccuracy(t.text, reference, cfg, chat, decode, toFloat);
      escaped := RecordAnalysis(path, fileName, t, compared, cfg);
    }
  }

  /** `EvaluationService.evaluate_single_file`. Errors the service catches are
      recorded in the result; any other exception escapes, and then no result
      is returned. `elapsed` is the rounded wall-clock time of the evaluation. */
  method EvaluateSingleFile(path: string, fileName: string, reference: string, file: FileInfo, whisper: Reply<string>,
                            cfg: EvaluationConfig, chat: ChatBackend,
                            decode: string -> Option<Value>, toFloat: string -> Option<real>,
                            id: string, now: string, elapsed: real)
    returns (r: Result<EvaluationResult>)
    ensures var spec := EvaluationSpec(path, fileName, reference, file, whisper, cfg, chat, decode, toFloat);
      (r.Ok? <==> spec.Ok?)
      && (r.Err? ==> r.error == spec.error)
      && (r.Ok? ==>
            fresh(r.value) && r.value.Holds() == spec.value
            && r.value.Header() == (id, now, path, reference, elapsed))
  {
    var result := new EvaluationResult(id, now);
    result.audioFile := path;
    result.referenceText := reference;
    var escaped := result.RecordEvaluation(path, fileName, reference, file, whisper, cfg, chat, decode, toFloat);
    if escaped.Some? {
      return Err(escaped.value);
    }
    result.processingTime := elapsed;
    return Ok(result);
  }

  // ---------------------------------------------------------------------------
  // Properties of an evaluation

  /** An answer whose accuracy score is a number can always be graded. */
  lemma ScoredIsGraded(c: map<string, Value>, confidence: real, cfg: EvaluationConfig)
    requires "accuracy_score" in c && c["accuracy_score"].Num?
    ensures var m := CalculateEvaluationMetrics(c["success" := Bool(true)], confidence, cfg);
      m.Ok? && m.value["processing_status"] == Str("completed")
      && m.value["accuracy_score"] == c["accuracy_score"]
      && m.value["confidence"] == Num(confidence)
      && m.value["accuracy_level"] == Str(LevelOf(c["accuracy_score"].n, GetEvaluationThresholds(cfg)).Label())
  {
    var c1 := c["success" := Bool(true)];
    assert GetOrZero(c1, "accuracy_score") == c["accuracy_score"];
  }

  /** A compared answer can always be graded: the comparison's accuracy score is a number. */
  lemma ComparedIsGraded(transcribed: string, reference: string, cfg: EvaluationConfig, chat: ChatBackend,
                         decode: string -> Option<Value>, toFloat: string -> Option<real>)
    requires CompareSpec(transcribed, reference, cfg, chat, decode, toFloat).Ok?
    ensures var c := CompareSpec(transcribed, reference, cfg, chat, decode, toFloat).value;
      "accuracy_score" in c && c["accuracy_score"].Num?
  {
    CompareResultShape(transcribed, reference, cfg, chat, decode, toFloat);
    RequiredKeys();
  }

  /** After a transcription, the evaluation succeeds exactly when the comparison does. */
  lemma EvaluatedSucceeds(path: string, fileName: string, t: Transcript, compared: Result<map<string, Value>>,
                          cfg: EvaluationConfig)
    requires compared.Ok? ==> "accuracy_score" in compared.value && compared.value["accuracy_score"].Num?
    ensures var r := Evaluated(path, fileName, t, compared, cfg);
      (r.Ok? && r.value.success <==> compared.Ok?)
      && (r.Err? <==> compared.Err? && !Caught(compared.error))
      && (compared.Ok? ==>
            r.value.transcription == TranscriptionRecord(path, fileName, t)
            && r.value.comparison == compared.value["success" := Bool(true)]
            && r.value.errorMessage.None?
            && r.value.metrics["processing_status"] == Str("completed")
            && r.value.metrics["confidence"] == Num(t.confidence))
      && (compared.Err? && Caught(compared.error) ==>
            r == Ok(Outcome(TranscriptionRecord(path, fileName, t), ComparisonPlaceholder(compared.error.message),
                            FAILED_METRICS, false, Some(compared.error.message))))
  {
    assert "file_path" in TranscriptionRecord(path, fileName, t);
    if compared.Ok? {
      ScoredIsGraded(compared.value, t.confidence, cfg);
    }
  }

  /** The evaluation succeeds exactly when both the transcription and the
      comparison do. */
  lemma EvaluationSucceeds(path: string, fileName: string, reference: string, file: FileInfo, whisper: Reply<string>,
                           cfg: EvaluationConfig, chat: ChatBackend,
                           decode: string -> Option<Value>, toFloat: string -> Option<real>)
    ensures var spec := EvaluationSpec(path, fileName, reference, file, whisper, cfg, chat, decode, toFloat);
      var tr := ServiceTranscribe(path, file, whisper);
      (spec.Ok? && spec.value.success) <==>
        tr.Ok? && CompareSpec(tr.value.text, reference, cfg, chat, decode, toFloat).Ok?
  {
    var tr := ServiceTranscribe(path, file, whisper);
    if tr.Ok? {
      var c := CompareSpec(tr.value.text, reference, cfg, chat, decode, toFloat);
      if c.Ok? {
        ComparedIsGraded(tr.value.text, reference, cfg, chat, decode, toFloat);
      }
      EvaluatedSucceeds(path, fileName, tr.value, c, cfg);
    }
  }

  /** A successful evaluation records the stripped Whisper text with confidence
      1.0 and no error. */
  lemma SuccessfulEvaluation(path: string, fileName: string, reference: string, file: FileInfo, whisper: Reply<string>,
                             cfg: EvaluationConfig, chat: ChatBackend,
                             decode: string -> Option<Value>, toFloat: string -> Option<real>)
    requires var spec := EvaluationSpec(path, fileName, reference, file, whisper, cfg, chat, decode, toFloat);
      spec.Ok? && spec.value.success
    ensures whisper.Replied?
    ensures var o := EvaluationSpec(path, fileName, reference, file, whisper, cfg, chat, decode, toFloat).value;
      o.transcription == TranscriptionRecord(path, fileName, Transcript(Strings.Strip(whisper.value), 1.0))
      && o.errorMessage.None?
  {
    var t := ServiceTranscribe(path, file, whisper).value;
    var c := CompareSpec(t.text, reference, cfg, chat, decode, toFloat);
    if c.Ok? {
      ComparedIsGraded(t.text, reference, cfg, chat, decode, toFloat);
    }
    EvaluatedSucceeds(path, fileName, t, c, cfg);
  }

  /** A transcription failure the service catches is recorded in full: failed
      transcription record, placeholder comparison, failed metrics. */
  lemma TranscriptionFailureRecorded(path: string, fileName: string, reference: string, file: FileInfo, whisper: Reply<string>,
                                     cfg: EvaluationConfig, chat: ChatBackend,
                                     decode: string -> Option<Value>, toFloat: string -> Option<real>)
    requires var tr := ServiceTranscribe(path, file, whisper); tr.Err? && Caught(tr.error)
    ensures var e := ServiceTranscribe(path, file, whisper).error;
      EvaluationSpec(path, fileName, reference, file, whisper, cfg, chat, decode, toFloat)
      == Ok(Outcome(FailedTranscriptionRecord(path, fileName, e.message), ComparisonPlaceholder(e.message),
                    FAILED_METRICS, false, Some(e.message)))
  {
  }

  /** A comparison failure the service catches keeps the successful transcription
      record and puts the placeholder in place of the comparison. */
  lemma ComparisonFailureKeepsTranscript(path: string, fileName: string, reference: string, file: FileInfo,
                                         whisper: Reply<string>, cfg: EvaluationConfig, chat: ChatBackend,
                                         decode: string -> Option<Value>, toFloat: string -> Option<real>)
    requires var tr := ServiceTranscribe(path, file, whisper);
      tr.Ok? && var c := CompareSpec(tr.value.text, reference, cfg, chat, decode, toFloat); c.Err? && Caught(c.error)
    ensures var t := ServiceTranscribe(path, file, whisper).value;
      var e := CompareSpec(t.text, reference, cfg, chat, decode, toFloat).error;
      EvaluationSpec(path, fileName, reference, file, whisper, cfg, chat, decode, toFloat)
      == Ok(Outcome(TranscriptionRecord(path, fileName, t), ComparisonPlaceholder(e.message),
                    FAILED_METRICS, false, Some(e.message)))
  {
    var t := ServiceTranscribe(path, file, whisper).value;
    EvaluatedSucceeds(path, fileName, t, CompareSpec(t.text, reference, cfg, chat, decode, toFloat), cfg);
  }

  /** An exception escapes exactly when the transcription or the comparison
      raises one that is neither RuntimeError nor ValueError. */
  lemma EvaluationEscapes(path: string, fileName: string, reference: string, file: FileInfo, whisper: Reply<string>,
                          cfg: EvaluationConfig, chat: ChatBackend,
                          decode: string -> Option<Value>, toFloat: string -> Option<real>)
    ensures var spec := EvaluationSpec(path, fileName, reference, file, whisper, cfg, chat, decode, toFloat);
      var tr := ServiceTranscribe(path, file, whisper);
      spec.Err? <==>
        (tr.Err? && !Caught(tr.error))
        || (tr.Ok? && var c := CompareSpec(tr.value.text, reference, cfg, chat, decode, toFloat); c.Err? && !Caught(c.error))
  {
    var tr := ServiceTranscribe(path, file, whisper);
    if tr.Ok? {
      var c := CompareSpec(tr.value.text, reference, cfg, chat, decode, toFloat);
      if c.Ok? {
        ComparedIsGraded(tr.value.text, reference, cfg, chat, decode, toFloat);
      }
      EvaluatedSucceeds(path, fileName, tr.value, c, cfg);
    }
  }

  /** A missing audio file is not recorded as a failed evaluation:
      FileNotFoundError is neither RuntimeError nor ValueError, so it escapes. */
  lemma MissingFileEscapes(path: string, fileName: string, reference: string, file: FileInfo, whisper: Reply<string>,
                           cfg: EvaluationConfig, chat: ChatBackend,
                           decode: string -> Option<Value>, toFloat: string -> Option<real>)
    requires path != "" && !file.present
    ensures EvaluationSpec(path, fileName, reference, file, whisper, cfg, chat, decode, toFloat)
         == Err(Exc(FileNotFoundError, "音頻檔案不存在: " + path))
  {
  }

  /** An empty path is caught and recorded as a failed evaluation. */
  lemma EmptyPathRecorded(fileName: string, reference: string, file: FileInfo, whisper: Reply<string>,
                          cfg: EvaluationConfig, chat: ChatBackend,
                          decode: string -> Option<Value>, toFloat: string -> Option<real>)
    ensures var spec := EvaluationSpec("", fileName, reference, file, whisper, cfg, chat, decode, toFloat);
      spec.Ok? && !spec.value.success && spec.value.errorMessage == Some(EMPTY_PATH_MESSAGE)
      && spec.value.transcription["transcript"] == Null
  {
  }
}
