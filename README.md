# Speech evaluation system — a Dafny model

The speech-evaluation-system grades how well a speech transcript matches a reference text. A
recording, either uploaded or captured from the microphone, goes to OpenAI Whisper. The
transcript and the reference are normalised and sent to a chat model, which answers with a
JSON judgement. That judgement is repaired, clamped and graded into an accuracy level, and the
whole evaluation is returned to the HTTP client inside a uniform envelope.

This project models that pipeline in Dafny and proves what each stage promises:

- `Common`: exceptions as data (`Exc(kind, message)` with Python's subclass relation), `Result`, `Reply`, and a JSON `Value`.
- `Strings`: the Python string operations the code uses (`strip`, `lower`, `in`, `startswith`/`endswith`, `replace`, `split`/`rsplit`).
- `Config`: the fallback `.env` reader, the evaluation flags, the Whisper language, `validate_config` and the tier thresholds.
- `Recorder`: the `AudioRecorder` class, whose methods update its fields in place.
- `Transcription`: `OpenAISTTClient.transcribe_audio` with its error mapping, and `STTService.transcribe_audio`.
- `Comparator`: `normalize_text`, the retrying chat call, the response parser (a method with a loop over the defaults), and `compare_text_accuracy`.
- `Evaluation`: the metrics, the `EvaluationResult` class and `evaluate_single_file`.
- `App`: `validate_audio_file`, the `api_response` envelope and the endpoint guards.

The external services are oracles passed in as parameters:

- the Whisper reply;
- the chat backend, which gives a reply for each prompt and attempt number;
- `json.loads`, as a function from text to an optional `Value`;
- `float(str)`, as a function from text to an optional real.

The file system is abstract metadata. The clock, the uuid and the elapsed time are parameters.

Two behaviours of the code are worth stating outright:

- Evaluating a file can raise. The code catches only RuntimeError and ValueError, so a missing file escapes as FileNotFoundError (`Evaluation.MissingFileEscapes`). So do a non-object JSON answer (AttributeError, `Comparator.CompareNonObjectEscapes`) and any backend exception of another kind (`Evaluation.EvaluationEscapes`).
- Normalisation is not idempotent. Removing a comma can leave two spaces that only a second pass collapses (`Comparator.NormalizeNotIdempotent`). With punctuation kept, it is idempotent (`Comparator.NormalizeIdempotentKeepingPunctuation`).

## Model

| member | source | states |
|---|---|---|
| Config.ParseEnvLine | src/speech_analyzer/config.py:18-21 | a line is used exactly when it is not blank, does not start with `#` and has an `=`; the key and value are the stripped text before and after the first `=` |
| Config.FirstValueDefined | src/speech_analyzer/config.py:18-21 | a key has a first value in the file exactly when some used line sets it |
| Config.FirstValueSnoc | src/speech_analyzer/config.py:18-21 | a later line gives a key a value only when no earlier line did (first line wins) |
| Config.LoadedSnoc | src/speech_analyzer/config.py:18-21 | one more `setdefault` keeps the environment's own values and gives each new key its first value |
| Config.LoadDotEnv | src/speech_analyzer/config.py:17-21 | `setdefault` for each line: variables already in the environment are never overwritten; the new keys are exactly the parsed ones, each with its first value; a line whose key strips to nothing fails with OSError (EINVAL) exactly when no empty-named variable exists |
| Config.FlagSpelling | src/speech_analyzer/config.py:62-72 | a flag is on exactly when its value spells "true" in any letter case |
| Config.LoadEvaluationConfig | src/speech_analyzer/config.py:61-73 | each flag matches its variable or its default ("true" for four flags, "false" for case sensitivity); the thresholds are passed through |
| Config.DefaultFlags | src/speech_analyzer/config.py:61-66 | with the variables unset, normalisation and punctuation stripping are on and comparison is case-insensitive |
| Config.GetWhisperLanguage | src/speech_analyzer/config.py:38-41 | no language hint exactly when the setting (default "auto") spells "auto" in any case; otherwise the setting verbatim |
| Config.ValidateConfig | src/speech_analyzer/config.py:125-136 | returns True exactly when the API key is set and both thresholds are in [0, 100]; otherwise ValueError listing every failed check in order, joined by ", " |
| Config.GetEvaluationThresholds | src/speech_analyzer/config.py:139-146 | excellent is the high threshold, fair the minimum, poor 0; good is at least 75 and at least fair, and equals one of them |
| Config.ValidatedThresholdsInRange | src/speech_analyzer/config.py:125-146 | a validated configuration gives all four thresholds inside [0, 100] |
| Recorder.ConcatAppend | src/speech_analyzer/services/stt.py:105-118 | appending a chunk appends its bytes to the joined frames |
| Recorder.Captured | src/speech_analyzer/services/stt.py:105-118 | the capture loop keeps the chunks read before the first read error, in order, and stops at that error |
| Recorder.DurationGrows | src/speech_analyzer/services/stt.py:151-156 | the duration is non-negative and does not shrink as chunks are added |
| Recorder.AudioRecorder.constructor | src/speech_analyzer/services/stt.py:25-42 | a new recorder is idle, with no data, no audio handle and no stream |
| Recorder.AudioRecorder.StartRecording | src/speech_analyzer/services/stt.py:44-76 | starts exactly when idle, a device exists, the stream opens and the thread starts; while recording nothing changes; a failed thread start leaves the flag set |
| Recorder.AudioRecorder.RecordAudio | src/speech_analyzer/services/stt.py:105-118 | appends the chunks read before the first error, only while recording with an open stream; the duration never decreases |
| Recorder.AudioRecorder.WavPayload | src/speech_analyzer/services/stt.py:120-136 | mono, 16-bit, 16 kHz, with the captured chunks joined as frames |
| Recorder.AudioRecorder.SaveAudioToFile | src/speech_analyzer/services/stt.py:120-136 | no temporary path raises OSError; a write error raises; otherwise the path and the payload |
| Recorder.AudioRecorder.StopRecording | src/speech_analyzer/services/stt.py:78-103 | idle: nothing happens; otherwise recording stops and the device is released in every case; a path exactly when there was data and the file was written |
| Recorder.AudioRecorder.CleanupAudio | src/speech_analyzer/services/stt.py:138-149 | afterwards neither stream nor audio handle remains; calling it again changes nothing |
| Recorder.AudioRecorder.GetRecordingDuration | src/speech_analyzer/services/stt.py:151-156 | 0 exactly when idle or empty; while recording, the chunk count times the chunk length over the rate |
| Transcription.RoundHalfEven | src/speech_analyzer/services/stt.py:198 | the quotient rounded to the nearest integer, a tie going to the even one, as `.1f` formatting rounds |
| Transcription.HandleTranscriptionError | src/speech_analyzer/services/stt.py:235-246 | "Unrecognized file format" gives the bad-format ValueError; "file too large" in any case gives the 25MB ValueError; only a message with neither becomes RuntimeError quoting it |
| Transcription.TooLargeInAnyCase | src/speech_analyzer/services/stt.py:241-243 | the oversize words are recognised in any letter case and at any position |
| Transcription.GenericWithoutMarkers | src/speech_analyzer/services/stt.py:235-246 | a message without the markers' first letters is a generic RuntimeError |
| Transcription.NoSpeechIsGeneric | src/speech_analyzer/services/stt.py:223-233 | the no-speech ValueError is mapped to RuntimeError |
| Transcription.BackendFailure | src/speech_analyzer/services/stt.py:229-233 | APIError becomes RuntimeError "OpenAI 服務錯誤"; IOError and ValueError go through the mapping; anything else propagates unchanged |
| Transcription.OpenAiTranscribe | src/speech_analyzer/services/stt.py:181-233 | each check in order with its own error; success exactly when all pass and Whisper returns non-blank text, giving the stripped text with confidence 1.0 |
| Transcription.RejectedBeforeBackend | src/speech_analyzer/services/stt.py:188-201 | a file that fails a check gets an error that does not depend on what Whisper would answer |
| Transcription.SizeLimitsInclusive | src/speech_analyzer/services/stt.py:194-201 | 1024 bytes and 25 MiB are accepted, and one byte beyond either bound is refused |
| Transcription.ServiceTranscribe | src/speech_analyzer/services/stt.py:263-271 | the service's own empty-path ValueError; success exactly when the client succeeds; RuntimeError and ValueError are re-raised as RuntimeError "語音識別失敗"; other kinds unchanged |
| Transcription.ServiceErrorKinds | src/speech_analyzer/services/stt.py:181-271 | for a non-empty path the error is RuntimeError, FileNotFoundError exactly for a missing file, or an unmapped backend exception |
| Comparator.MapFullwidthPointwise | src/speech_analyzer/services/llm.py:32-35 | the chain of `replace` calls is the character-by-character table and keeps the length |
| Comparator.MapFullwidthFacts | src/speech_analyzer/services/llm.py:32-35 | after mapping, no full-width mark remains and whitespace stays where it was |
| Comparator.NormalizeText | src/speech_analyzer/services/llm.py:21-43 | the flag-controlled pipeline; its result never has edge whitespace, and missing or empty text gives "" |
| Comparator.NormalizeTrimmed | src/speech_analyzer/services/llm.py:25-43 | the result never has edge whitespace; missing or blank text gives "" |
| Comparator.NormalizeStages | src/speech_analyzer/services/llm.py:28-43 | each surviving character comes from the stripped input, from the whitespace collapse (a space), from the full-width table (ASCII punctuation) or from lower-casing, stage by stage |
| Comparator.NormalizeNoFullwidth | src/speech_analyzer/services/llm.py:30-35 | with normalisation on, no full-width punctuation of the table remains |
| Comparator.NormalizeNoPunctuation | src/speech_analyzer/services/llm.py:37-38 | with punctuation ignored, none of `.,!?;:()"'-` remains |
| Comparator.NormalizeNoUpper | src/speech_analyzer/services/llm.py:40-41 | case-insensitive mode leaves no upper-case ASCII letter |
| Comparator.NormalizeCollapsed | src/speech_analyzer/services/llm.py:30-31 | with normalisation on and punctuation kept, no two whitespace characters are adjacent |
| Comparator.NormalizeBlankSpaces | src/speech_analyzer/services/llm.py:30-43 | with normalisation on and punctuation kept, the only whitespace left is the plain space |
| Comparator.NormalizeFixedPoint | src/speech_analyzer/services/llm.py:21-43 | text already in the shape the enabled stages produce (trimmed, collapsed, no full-width mark, no ignored punctuation, no upper case) comes back unchanged |
| Comparator.NormalizeIdempotentKeepingPunctuation | src/speech_analyzer/services/llm.py:21-43 | with punctuation kept, normalising twice is normalising once |
| Comparator.NormalizeNotIdempotent | src/speech_analyzer/services/llm.py:21-43 | "a , b" normalises to "a  b" and then to "a b": normalising twice differs from once |
| Comparator.CallOpenAiApi | src/speech_analyzer/services/llm.py:169-192 | the retrying call: a success is stripped content, and an APIError never leaves it |
| Comparator.RetryOutcome | src/speech_analyzer/services/llm.py:169-192 | the outcome is that of the first of at most three attempts that does not raise APIError; three APIErrors give RuntimeError "OpenAI API 呼叫失敗" |
| Comparator.AtMostThreeAttempts | src/speech_analyzer/services/llm.py:187-192 | nothing the backend does after the third attempt affects the result |
| Comparator.RequiredOrderKeys | src/speech_analyzer/services/llm.py:208-222 | the iteration order lists exactly the required fields |
| Comparator.StripFences | src/speech_analyzer/services/llm.py:197-205 | the text handed to `json.loads` is trimmed and no longer than the answer |
| Comparator.FenceRoundTrip | src/speech_analyzer/services/llm.py:197-205 | a payload fenced by "```json" or "```" and whitespace comes out exactly as the payload |
| Comparator.UnfencedPassesThrough | src/speech_analyzer/services/llm.py:197-205 | an unfenced payload comes out without its surrounding whitespace |
| Comparator.FloatOf | src/speech_analyzer/services/llm.py:228-233 | `float()` of a decoded value fails on null, lists, objects and bad strings, with ValueError exactly for strings and TypeError otherwise |
| Comparator.Clamp | src/speech_analyzer/services/llm.py:228-233 | lands in [0, 100]; identity inside; 100 above and 0 below |
| Comparator.SetDefaults | src/speech_analyzer/services/llm.py:222-223 | the `setdefault` loop keeps every present key and adds each missing default, whatever the order |
| Comparator.RepairedFields | src/speech_analyzer/services/llm.py:222-225 | after the backfill every required field is present, and `error_analysis` is an object (a non-object is replaced by the default) |
| Comparator.ParsedFromRepaired | src/speech_analyzer/services/llm.py:222-238 | after the repair, the parse succeeds exactly when both scores convert, then holds them clamped; otherwise it reports the first score that fails |
| Comparator.ParseComparisonResponse | src/speech_analyzer/services/llm.py:194-238 | the method computes the parse function: clean the fences, decode, repair |
| Comparator.RepairDecoded | src/speech_analyzer/services/llm.py:207-238 | the method computes the repair of a decoded answer |
| Comparator.ParseDecodeFailure | src/speech_analyzer/services/llm.py:236-238 | an answer that does not decode gives RuntimeError quoting the raw answer |
| Comparator.ParseNonObject | src/speech_analyzer/services/llm.py:222-223 | a decoded non-object fails at `setdefault` with AttributeError "'<type>' object has no attribute 'setdefault'", which the parse does not catch |
| Comparator.ParseBackfill | src/speech_analyzer/services/llm.py:208-233 | a successful parse has the decoded keys plus every default; untouched fields keep their decoded values |
| Comparator.ParseSucceedsOnScores | src/speech_analyzer/services/llm.py:228-233 | a decoded object parses exactly when both scores are absent or convertible |
| Comparator.ParseScoresInRange | src/speech_analyzer/services/llm.py:228-233 | both scores end in [0, 100], and a convertible in-range score is kept |
| Comparator.ParseScoreErrors | src/speech_analyzer/services/llm.py:228-238 | a non-numeric string score escapes as ValueError; a null, list or object score becomes RuntimeError quoting the answer; the accuracy is converted first, and the similarity decides only when the accuracy converts |
| Comparator.NullIsNotBackfilled | src/speech_analyzer/services/llm.py:222-233 | a score present as null is not replaced by its default, so the parse fails |
| Comparator.CompareTextAccuracy | src/speech_analyzer/services/llm.py:63-89 | the method computes the comparison function: blank checks, normalisation, the call, the parse |
| Comparator.CompareRejectsBlank | src/speech_analyzer/services/llm.py:68-71 | a blank transcript or reference raises ValueError before any backend call |
| Comparator.CompareSeesNormalizedText | src/speech_analyzer/services/llm.py:73-85 | texts that normalise alike get the same comparison |
| Comparator.CompareResultShape | src/speech_analyzer/services/llm.py:73-86 | a success has every required field and both scores as numbers in [0, 100] |
| Comparator.CompareErrorKinds | src/speech_analyzer/services/llm.py:63-89 | past the blank checks, a failure is a RuntimeError whose message starts with "AI 分析過程發生錯誤: ", or an AttributeError or another uncaught kind; never APIError or ValueError |
| Comparator.CompareRetriesExhausted | src/speech_analyzer/services/llm.py:87-89 | three APIErrors make the comparison fail with RuntimeError wrapping the call failure |
| Comparator.CompareNonObjectEscapes | src/speech_analyzer/services/llm.py:87-89 | an answer that decodes to a non-object makes the comparison raise AttributeError |
| Evaluation.LevelOf | src/speech_analyzer/services/evaluation.py:158-165 | each grade exactly for its band: excellent at or above the top threshold, then good, then fair, otherwise needs improvement |
| Evaluation.LevelMonotone | src/speech_analyzer/services/evaluation.py:158-165 | a higher score never gets a lower grade |
| Evaluation.DefaultLevels | src/speech_analyzer/services/evaluation.py:157-165 | under the defaults, 90, 75 and 60 are the boundaries, each inclusive |
| Evaluation.Numeric | src/speech_analyzer/services/evaluation.py:158 | `>=` accepts numbers and booleans and nothing else |
| Evaluation.CalculateEvaluationMetrics | src/speech_analyzer/services/evaluation.py:150-173 | succeeds exactly when the accuracy score is numeric, otherwise TypeError; the metrics hold the scores, the confidence, "completed" and the grade label |
| Evaluation.EvaluationResult.constructor | src/speech_analyzer/services/evaluation.py:23-34 | a new result has the given id and time, empty records, time 0, no success and no message |
| Evaluation.EvaluationResult.ToDict | src/speech_analyzer/services/evaluation.py:36-49 | exactly the ten keys, each with its field's value |
| Evaluation.EvaluationResult.RecordFailure | src/speech_analyzer/services/evaluation.py:103-142 | records the message and failure, fills only empty transcription and comparison records, sets the failed metrics, and leaves every other field alone |
| Evaluation.EvaluationResult.RecordAnalysis | src/speech_analyzer/services/evaluation.py:75-101 | records the transcript, the comparison marked successful and the metrics, or reports the error that escapes them |
| Evaluation.EvaluationResult.RecordGrade | src/speech_analyzer/services/evaluation.py:89-142 | marks the returned comparison successful and records the metrics, or records the caught failure, or reports the error that escapes |
| Evaluation.EvaluationResult.RecordEvaluation | src/speech_analyzer/services/evaluation.py:67-142 | on a fresh result, holds exactly the evaluation outcome, or reports the exception that escapes; the identity, inputs and time stay as they were |
| Evaluation.EvaluateSingleFile | src/speech_analyzer/services/evaluation.py:60-148 | a fresh result holding the evaluation outcome with the path, reference and elapsed time, or exactly the exception that escapes |
| Evaluation.ScoredIsGraded | src/speech_analyzer/services/evaluation.py:89-99 | a comparison with a numeric score is always graded: completed, with its score, the confidence and the level of that score |
| Evaluation.ComparedIsGraded | src/speech_analyzer/services/evaluation.py:89-99 | every successful comparison has a numeric accuracy score |
| Evaluation.EvaluatedSucceeds | src/speech_analyzer/services/evaluation.py:75-142 | after a transcription, success exactly when the comparison succeeds, recording the transcript, the comparison marked successful and completed metrics with the transcript's confidence; a caught comparison failure keeps the transcription record with the placeholder and failed metrics; only an uncaught kind escapes |
| Evaluation.EvaluationSucceeds | src/speech_analyzer/services/evaluation.py:60-148 | success exactly when both transcription and comparison succeed |
| Evaluation.SuccessfulEvaluation | src/speech_analyzer/services/evaluation.py:73-101 | a success came from a Whisper reply; it records the stripped text with confidence 1.0 and no error message |
| Evaluation.TranscriptionFailureRecorded | src/speech_analyzer/services/evaluation.py:103-142 | a caught transcription failure gives the failed transcription record, the comparison placeholder, the failed metrics and the message |
| Evaluation.ComparisonFailureKeepsTranscript | src/speech_analyzer/services/evaluation.py:103-142 | a caught comparison failure keeps the successful transcription record |
| Evaluation.EvaluationEscapes | src/speech_analyzer/services/evaluation.py:103 | an exception escapes exactly when the transcription or comparison raises a kind other than RuntimeError and ValueError |
| Evaluation.MissingFileEscapes | src/speech_analyzer/services/evaluation.py:73-103 | a missing file escapes as FileNotFoundError with the path in its message |
| Evaluation.EmptyPathRecorded | src/speech_analyzer/services/evaluation.py:103-142 | an empty path is caught and recorded as a failed evaluation |
| App.StripDots | src/speech_analyzer/app.py:92 | `strip(".")` is the input with the runs of dots at both ends removed: a slice of it, with only dots outside the slice and no dot at either end of the slice |
| App.AllowedExtensionsStripped | src/speech_analyzer/config.py:96-107 | the accepted list is the setting with the leading dots removed, entry by entry |
| App.ExtensionAfterLastDot | src/speech_analyzer/app.py:91 | the extension is the lower-cased text after the last dot |
| App.ValidateAudioFile | src/speech_analyzer/app.py:81-96 | no `audio` part, no usable name, or an extension not in the list each get their own 400 error; otherwise the file is passed on |
| App.UploadNameAccepted | src/speech_analyzer/app.py:86-93 | a name is accepted exactly when its extension, lower-cased, is allowed |
| App.UpperCaseAccepted | src/speech_analyzer/app.py:91-92 | "talk.WAV" is accepted |
| App.LastExtensionCounts | src/speech_analyzer/app.py:91-96 | "talk.wav.txt" is refused with the format error and "talk.txt.mp3" is passed on unchanged |
| App.ApiResponse | src/speech_analyzer/app.py:43-78 | ValueError, RuntimeError and TypeError become a 500 `success: false` body; a non-dict payload is that TypeError; other exceptions escape; a dict is merged over the envelope |
| App.EnvelopeMerge | src/speech_analyzer/app.py:49-63 | a dict payload keeps its code (200 by default) and its keys override the envelope |
| App.ResponseHasSuccess | src/speech_analyzer/app.py:43-78 | every delivered body has `success` and `timestamp`; a caught error or a non-dict payload gives 500 with `success: false` (a payload's own `success: false`, as a failed evaluation's, can also make it false) |
| App.ErrorDictSaysSuccess | src/speech_analyzer/app.py:56-63 | an endpoint's own 400 error dict is delivered with `success: true` |
| App.AnalyzeComplete | src/speech_analyzer/app.py:128-146 | a rejected upload gives its 400 error; every coded return is a 400 dict; the evaluation runs, and its dict or exception is passed on, only for an accepted upload with a non-blank reference, which it sees trimmed |
| App.AnalyzeRaisesEvaluationError | src/speech_analyzer/app.py:136-141 | with an accepted upload and a non-blank reference, an exception from the evaluation is raised unchanged from the endpoint |
| App.AnalyzeNeedsReference | src/speech_analyzer/app.py:131-134 | a missing or blank reference text gives 400 before the evaluation runs |
| App.AnalyzeReturnsEvaluation | src/speech_analyzer/app.py:136-141 | otherwise the body is the evaluation's dict of the stripped reference |
| App.ReferenceFromJson | src/speech_analyzer/app.py:173-174 | a missing or falsy body counts as `{}`; the reference is the stripped field, or "" when absent; a truthy non-object body or a non-string field is exactly when AttributeError is raised, naming the value's type and `get` or `strip` |
| App.StopRecordingApi | src/speech_analyzer/app.py:163-188 | no recorded file gives 400; every coded return is a 400 dict; an exception comes from reading the reference or from the evaluation; the evaluation runs only with a file and a non-blank reference |
| App.StopReturnsEvaluation | src/speech_analyzer/app.py:172-183 | with a file and a non-blank string reference, the body is the evaluation's dict of the trimmed reference merged over the envelope, with status 200 |
| App.StopRaisesEvaluationError | src/speech_analyzer/app.py:178-183 | with a recorded file and a non-blank string reference, an exception from the evaluation is raised unchanged from the endpoint |
| App.StopWithoutRecording | src/speech_analyzer/app.py:167-170 | without a recorded file the answer is 400, whatever the body |
| App.StopNeedsReference | src/speech_analyzer/app.py:172-176 | a missing or blank reference gives 400 before the evaluation runs |
| App.StopNonStringReferenceEscapes | src/speech_analyzer/app.py:173-174 | a non-string reference raises AttributeError, which the envelope does not catch |
| App.StartRecordingApi | src/speech_analyzer/app.py:154-158 | a dict payload, and a bare body exactly when recording started |
| App.StartRecordingResponses | src/speech_analyzer/app.py:154-158 | 200 with `recording: true`, or 400 with the microphone error |
| App.RecordingStatus | src/speech_analyzer/app.py:193-195 | exactly the keys `recording` and `duration` |

## Left out

- Threads: the capture thread and the bounded join in `stop_recording` are left out. `RecordAudio` is called as one step, so the race between the flag and the reader is not modelled.
- Devices and files: PyAudio, the wave header bytes, `tempfile`, `unlink`, `Path.exists`, `Path.stat` and `Path.name` are parameters or abstract metadata (`FileInfo`, the temporary path, the write error, the file name).
- Prompt text: the prompt wording of `_build_comparison_prompt` is not modelled. The prompt is the pair of normalised texts, which is all the model's properties depend on.
- Sessions and settings: Flask sessions, `jsonify`, `NaN`/infinity, and the model, temperature and token settings are left out.
- Identity and time: `uuid4`, `datetime.now()` and `round(time.time() - start, 2)` are the parameters `id`, `now` and `elapsed`.
- Uploads: `save_uploaded_audio`, the `finally` clean-up of the temporary files, and the upload size check after saving are not modelled. The endpoints take the evaluation as a function parameter, so whatever those steps raise is part of that function's result.
- Unused routes and globals: the routes `index`, `status` and `health_check`, the Flask error handlers, `get_secret_key`, the directory creation, logging, `__del__`, and the module-level service singletons with their "service unavailable" RuntimeErrors are not needed by any property and are left out.
- Transcription.OpenAiTranscribe: the FileNotFoundError message quotes the path as given, while the source formats `str(Path(path))`, which normalises it (`./a.wav` becomes `a.wav`, `a//b.wav` becomes `a/b.wav`); path normalisation is not modelled.
- Evaluation.MissingFileEscapes: states the message with the path as given, for the same reason.
- Config.LoadDotEnv: only the empty variable name is modelled as refused; a key or value holding a NUL character, which `os.environ` also refuses (ValueError), is not.
- Close failures: errors while closing the stream in `_cleanup_audio` (src/speech_analyzer/services/stt.py:148-149) are swallowed by the source. The model's stream close cannot fail.
- `Strings.Lower` folds ASCII letters only. Python's `str.lower` also folds other scripts. The marker phrases and flag values compared here are ASCII.
- Comparator.NormalizeText: in case-insensitive mode only ASCII letters are lower-cased, so user text such as "Ä" keeps its case where Python gives "ä"; `Comparator.NormalizeNoUpper` accordingly speaks of ASCII upper-case letters only.
- Comparator.ParseScoreErrors: the message of Python's own TypeError/ValueError is not reproduced. Only the kind is stated, apart from the RuntimeError, whose message is modelled exactly.
- Evaluation.CalculateEvaluationMetrics: the TypeError message uses a simplified type name. Python distinguishes `int` from `float` in a decoded JSON number, and the model's `Value` does not.
- Evaluation.SuccessfulEvaluation: states only the transcription facts of a success. The comparison and metrics facts are stated by `Evaluation.EvaluatedSucceeds`.
- App.ReferenceFromJson: the AttributeError message names a JSON integer (a body of `5`, or `{"reference_text": 5}`) `float`, where Python says `int`, because the model's `Value` has one number kind.
- Comparator.ParseNonObject: the AttributeError message names a decoded number `float`, where Python says `int` for a JSON integer, because the model's `Value` has one number kind.
- Config.LoadEvaluationConfig: the thresholds arrive as reals; the ValueError that `float()` raises on a non-numeric `MIN_SIMILARITY_THRESHOLD` or `HIGH_ACCURACY_THRESHOLD` setting (src/speech_analyzer/config.py:67-68) is not modelled.
- App.RecordingStatus: states the keys only. The values are the recorder's flag and duration, passed through unchanged.
