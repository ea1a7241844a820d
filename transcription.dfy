/** Speech-to-text: `OpenAISTTClient.transcribe_audio` with its error mapping,
    and the wrapping done by `STTService.transcribe_audio`. The file system is
    abstract metadata about the file at the given path, and the Whisper call is
    an oracle that gives the response text or raises. */
module Transcription {
  import opened Common
  import opened Strings

  const MAX_FILE_SIZE: nat := 25 * 1024 * 1024
  const MIN_FILE_SIZE: nat := 1024

  /** What `Path.exists()` and `Path.stat().st_size` report for the audio path. */
  datatype FileInfo = FileInfo(present: bool, size: nat)

  /** A transcript and its confidence. */
  datatype Transcript = Transcript(text: string, confidence: real)

  const EMPTY_PATH_MESSAGE := "音頻檔案路徑不能為空"
  const TOO_SMALL_MESSAGE := "檔案過小，可能沒有有效的音頻內容"
  const NO_SPEECH_MESSAGE := "無法識別語音內容，檔案可能損壞或不包含語音"
  const BAD_FORMAT_MESSAGE := "檔案格式不被支援或檔案損壞"
  const BACKEND_TOO_LARGE_MESSAGE := "檔案超過 25MB 限制"

  /** `n / d` rounded to the nearest integer, ties to even. */
  function RoundHalfEven(n: nat, d: nat): (q: nat)
    requires d > 0
    ensures n / d <= q <= n / d + 1
    ensures 2 * (n % d) < d ==> q == n / d
    ensures 2 * (n % d) > d ==> q == n / d + 1
    ensures 2 * (n % d) == d ==> q % 2 == 0
  {
    var q := n / d;
    var r := n % d;
    if 2 * r > d || (2 * r == d && q % 2 == 1) then q + 1 else q
  }

  /** `f"{size / 1024 / 1024:.1f}"`: the size in MiB with one decimal. Both
      divisions are exact in binary floating point, so the rounding is the
      correct ties-to-even rounding of the exact quotient. */
  function FormatMiB(size: nat): string {
    var tenths := RoundHalfEven(size * 10, 1024 * 1024);
    NatToString(tenths / 10) + "." + NatToString(tenths % 10)
  }

  function TooLargeMessage(size: nat): string {
    "檔案過大: " + FormatMiB(size) + "MB，超過 25MB 限制"
  }

  /** The size check of `transcribe_audio`: inclusive at both ends. */
  predicate SizeAccepted(size: nat) {
    MIN_FILE_SIZE <= size <= MAX_FILE_SIZE
  }

  /** `_handle_transcription_error`: the exception raised for an IOError or
      ValueError met while transcribing, chosen by the words of its message. */
  function HandleTranscriptionError(error: Exc): (r: Exc)
    ensures r.kind == ValueError || r.kind == RuntimeError
    ensures Contains(error.message, "Unrecognized file format") ==> r == Exc(ValueError, BAD_FORMAT_MESSAGE)
    ensures r.kind == RuntimeError <==>
      !Contains(error.message, "Unrecognized file format") && !Contains(Lower(error.message), "file too large")
    ensures r.kind == RuntimeError ==> r.message == "語音識別檔案處理失敗: " + error.message
    ensures r.kind == ValueError ==> r.message == BAD_FORMAT_MESSAGE || r.message == BACKEND_TOO_LARGE_MESSAGE
    ensures !Contains(error.message, "Unrecognized file format") && Contains(Lower(error.message), "file too large")
      ==> r == Exc(ValueError, BACKEND_TOO_LARGE_MESSAGE)
  {
    if Contains(error.message, "Unrecognized file format") then Exc(ValueError, BAD_FORMAT_MESSAGE)
    else if Contains(Lower(error.message), "file too large") then Exc(ValueError, BACKEND_TOO_LARGE_MESSAGE)
    else Exc(RuntimeError, "語音識別檔案處理失敗: " + error.message)
  }

  lemma LowerConcat(a: string, b: string)
    ensures Lower(a + b) == Lower(a) + Lower(b)
  {
  }

  /** The oversize words are recognised in any letter case, anywhere in the message. */
  lemma {:induction false} TooLargeInAnyCase(before: string, words: string, after: string)
    requires Lower(words) == "file too large"
    requires !Contains(before + words + after, "Unrecognized file format")
    ensures HandleTranscriptionError(Exc(OSError, before + words + after)) == Exc(ValueError, BACKEND_TOO_LARGE_MESSAGE)
  {
    var m := before + words + after;
    LowerConcat(before + words, after);
    LowerConcat(before, words);
    assert Lower(m) == Lower(before) + "file too large" + Lower(after);
    assert Lower(m)[|before|..|before| + |"file too large"|] == "file too large";
    ContainsInfix(Lower(m), "file too large", |before|);
  }

  /** A message without the letters that start either marker phrase is reported
      as a generic processing failure. */
  lemma GenericWithoutMarkers(error: Exc)
    requires 'U' !in error.message && 'f' !in error.message && 'F' !in error.message
    ensures HandleTranscriptionError(error) == Exc(RuntimeError, "語音識別檔案處理失敗: " + error.message)
  {
    MissingFirstChar(error.message, "Unrecognized file format");
    var low := Lower(error.message);
    forall i | 0 <= i < |low| ensures low[i] != 'f' {
      assert error.message[i] in error.message;
    }
    MissingFirstChar(low, "file too large");
  }

  /** The no-speech message names neither a bad format nor an oversize file. */
  lemma NoSpeechIsGeneric()
    ensures HandleTranscriptionError(Exc(ValueError, NO_SPEECH_MESSAGE)).kind == RuntimeError
  {
    var m := NO_SPEECH_MESSAGE;
    assert forall i :: 0 <= i < |m| ==> m[i] as int >= 128;
    GenericWithoutMarkers(Exc(ValueError, m));
  }

  /** How the client treats an exception from the Whisper call: APIError becomes
      RuntimeError, IOError and ValueError go through the message mapping, and
      anything else propagates as it is. */
  function BackendFailure(e: Exc): (r: Exc)
    ensures e.kind == APIError ==> r == Exc(RuntimeError, "OpenAI 服務錯誤: " + e.message)
    ensures IsA(e.kind, OSError) || IsA(e.kind, ValueError) ==> r == HandleTranscriptionError(e)
    ensures e.kind != APIError && !IsA(e.kind, OSError) && !IsA(e.kind, ValueError) ==> r == e
  {
    if e.kind == APIError then Exc(RuntimeError, "OpenAI 服務錯誤: " + e.message)
    else if IsA(e.kind, OSError) || IsA(e.kind, ValueError) then HandleTranscriptionError(e)
    else e
  }

  /** `OpenAISTTClient.transcribe_audio`: the path and size checks in order, then
      the backend call, the stripped transcript with confidence 1.0, and the
      error mapping. */
  function OpenAiTranscribe(path: string, file: FileInfo, whisper: Reply<string>): (r: Result<Transcript>)
    ensures path == "" ==> r == Err(Exc(ValueError, EMPTY_PATH_MESSAGE))
    ensures path != "" && !file.present ==> r == Err(Exc(FileNotFoundError, "音頻檔案不存在: " + path))
    ensures path != "" && file.present && file.size > MAX_FILE_SIZE ==> r == Err(Exc(ValueError, TooLargeMessage(file.size)))
    ensures path != "" && file.present && file.size < MIN_FILE_SIZE ==> r == Err(Exc(ValueError, TOO_SMALL_MESSAGE))
    ensures r.Ok? <==> path != "" && file.present && SizeAccepted(file.size)
                       && whisper.Replied? && Strip(whisper.value) != ""
    ensures r.Ok? ==> r.value == Transcript(Strip(whisper.value), 1.0)
    ensures path != "" && file.present && SizeAccepted(file.size) && whisper.Replied? && Strip(whisper.value) == "" ==>
      r == Err(Exc(RuntimeError, "語音識別檔案處理失敗: " + NO_SPEECH_MESSAGE))
    ensures path != "" && file.present && SizeAccepted(file.size) && whisper.Raised? ==>
      r == Err(BackendFailure(whisper.exc))
  {
    if path == "" then Err(Exc(ValueError, EMPTY_PATH_MESSAGE))
    else if !file.present then Err(Exc(FileNotFoundError, "音頻檔案不存在: " + path))
    else if file.size > MAX_FILE_SIZE then Err(Exc(ValueError, TooLargeMessage(file.size)))
    else if file.size < MIN_FILE_SIZE then Err(Exc(ValueError, TOO_SMALL_MESSAGE))
    else match whisper
      case Raised(e) => Err(BackendFailure(e))
      case Replied(text) =>
        var transcript := Strip(text);
        if transcript == "" then
          NoSpeechIsGeneric();
          Err(HandleTranscriptionError(Exc(ValueError, NO_SPEECH_MESSAGE)))
        else Ok(Transcript(transcript, 1.0))
  }

  /** A file that fails a check never reaches the backend: the outcome does not
      depend on what Whisper would have answered. */
  lemma RejectedBeforeBackend(path: string, file: FileInfo, w1: Reply<string>, w2: Reply<string>)
    requires path == "" || !file.present || !SizeAccepted(file.size)
    ensures OpenAiTranscribe(path, file, w1) == OpenAiTranscribe(path, file, w2)
    ensures OpenAiTranscribe(path, file, w1).Err?
  {
  }

  /** Both size limits are inclusive. */
  lemma SizeLimitsInclusive(path: string, text: string)
    requires path != "" && Strip(text) != ""
    ensures OpenAiTranscribe(path, FileInfo(true, 1024), Replied(text)).Ok?
    ensures OpenAiTranscribe(path, FileInfo(true, 25 * 1024 * 1024), Replied(text)).Ok?
    ensures OpenAiTranscribe(path, FileInfo(true, 1023), Replied(text)).Raises(ValueError)
    ensures OpenAiTranscribe(path, FileInfo(true, 25 * 1024 * 1024 + 1), Replied(text)).Raises(ValueError)
  {
  }

  /** `STTService.transcribe_audio`: its own empty-path check, then the client's
      ValueError and RuntimeError re-raised as RuntimeError. */
  function ServiceTranscribe(path: string, file: FileInfo, whisper: Reply<string>): (r: Result<Transcript>)
    ensures path == "" ==> r == Err(Exc(ValueError, EMPTY_PATH_MESSAGE))
    ensures r.Ok? <==> OpenAiTranscribe(path, file, whisper).Ok?
    ensures r.Ok? ==> r == OpenAiTranscribe(path, file, whisper)
    ensures path != "" && r.Err? ==>
      var e := OpenAiTranscribe(path, file, whisper).error;
      if IsA(e.kind, RuntimeError) || IsA(e.kind, ValueError)
      then r.error == Exc(RuntimeError, "語音識別失敗: " + e.message)
      else r.error == e
  {
    if path == "" then Err(Exc(ValueError, EMPTY_PATH_MESSAGE))
    else match OpenAiTranscribe(path, file, whisper)
      case Ok(t) => Ok(t)
      case Err(e) =>
        if IsA(e.kind, RuntimeError) || IsA(e.kind, ValueError) then Err(Exc(RuntimeError, "語音識別失敗: " + e.message))
        else Err(e)
  }

  /** What can come out of the service: for a non-empty path, a missing file is
      the only FileNotFoundError, every check or mapping failure is RuntimeError,
      and any other kind is an exception of the backend that nothing catches. */
  lemma ServiceErrorKinds(path: string, file: FileInfo, whisper: Reply<string>)
    requires path != ""
    ensures var r := ServiceTranscribe(path, file, whisper);
      r.Err? ==>
        (r.error.kind == FileNotFoundError <==> !file.present)
        && (r.error.kind == RuntimeError
            || (r.error.kind == FileNotFoundError && !file.present)
            || (whisper.Raised? && r.error == whisper.exc && file.present && SizeAccepted(file.size)))
  {
    var r := ServiceTranscribe(path, file, whisper);
    if r.Err? && file.present && SizeAccepted(file.size) && whisper.Raised? {
      var e := whisper.exc;
      if e.kind == FileNotFoundError {
        assert IsA(e.kind, OSError);
      }
    }
  }
}
