/** The live recording session (`AudioRecorder`). PyAudio's device instance and
    input stream are abstract handles; the capture thread is its loop body run
    to completion between start and stop, reading from a given sequence of
    `stream.read` results; the temporary WAV file is the value it would hold. */
module Recorder {
  import opened Common

  type Chunk = seq<bv8>

  const CHUNK: nat := 1024        // frames per buffer
  const CHANNELS: nat := 1
  const SAMPLE_RATE: nat := 16000
  const SAMPLE_WIDTH: nat := 2    // bytes per paInt16 sample

  /** An open `pyaudio.PyAudio()` instance. */
  datatype AudioHandle = PyAudioInstance
  /** An open input stream. */
  datatype StreamHandle = InputStream

  /** The parameters and frames a WAV file is written with. */
  datatype WavFile = WavFile(channels: nat, sampleWidth: nat, frameRate: nat, frames: seq<bv8>)

  /** One `stream.read(chunk)`: the bytes read, or the IOError it raised. */
  datatype ReadResult = Read(data: Chunk) | ReadError(message: string)

  /** `b"".join(chunks)` */
  function Concat(chunks: seq<Chunk>): seq<bv8> {
    if chunks == [] then [] else chunks[0] + Concat(chunks[1..])
  }

  lemma {:induction false} ConcatAppend(chunks: seq<Chunk>, c: Chunk)
    ensures Concat(chunks + [c]) == Concat(chunks) + c
  {
    if chunks != [] {
      assert (chunks + [c])[1..] == chunks[1..] + [c];
      ConcatAppend(chunks[1..], c);
    }
  }

  /** The chunks the capture loop appends when the stream yields `results`: every
      chunk up to the first read error, in read order. */
  function Captured(results: seq<ReadResult>): (c: seq<Chunk>)
    ensures |c| <= |results|
    ensures forall i :: 0 <= i < |c| ==> results[i] == Read(c[i])
    ensures |c| < |results| ==> results[|c|].ReadError?
  {
    if results == [] then []
    else match results[0]
      case Read(d) => [d] + Captured(results[1..])
      case ReadError(_) => []
  }

  /** Seconds of audio in `n` chunks. */
  function Duration(n: nat): real {
    (n * CHUNK) as real / SAMPLE_RATE as real
  }

  lemma DurationGrows(n: nat, m: nat)
    requires n <= m
    ensures 0.0 <= Duration(n) <= Duration(m)
  {
  }

  class AudioRecorder {
    var isRecording: bool
    var audioData: seq<Chunk>
    var audio: Option<AudioHandle>
    var stream: Option<StreamHandle>

    /** An open stream belongs to a session in progress and to an open device. */
    ghost predicate Valid()
      reads this
    {
      stream.Some? ==> audio.Some? && isRecording
    }

    constructor ()
      ensures Valid()
      ensures !isRecording && audioData == [] && audio.None? && stream.None?
    {
      isRecording := false;
      audioData := [];
      audio := None;
      stream := None;
    }

    /** `start_recording()`. `deviceCount` is what the device reports, `streamOpens`
        whether `audio.open` succeeds, `threadStarts` whether the capture thread
        starts; the last two failures raise IOError and RuntimeError. */
    method StartRecording(deviceCount: nat, streamOpens: bool, threadStarts: bool) returns (started: bool)
      requires Valid()
      modifies this
      ensures Valid()
      ensures started <==> !old(isRecording) && deviceCount > 0 && streamOpens && threadStarts
      ensures old(isRecording) ==> unchanged(this)
      ensures started ==> isRecording && audioData == [] && audio.Some? && stream.Some?
      ensures !old(isRecording) && (deviceCount == 0 || !streamOpens) ==>
        !isRecording && audioData == old(audioData) && audio.None? && stream.None?
      ensures !old(isRecording) && deviceCount > 0 && streamOpens && !threadStarts ==>
        isRecording && audioData == [] && audio.None? && stream.None?
    {
      if isRecording {
        return false;
      }
      audio := Some(PyAudioInstance);
      if deviceCount == 0 {
        CleanupAudio();
        return false;
      }
      if !streamOpens {
        CleanupAudio();
        return false;
      }
      stream := Some(InputStream);
      audioData := [];
      isRecording := true;
      if !threadStarts {
        // the flag set just above is not reset on this path
        CleanupAudio();
        return false;
      }
      return true;
    }

    /** `_record_audio()`, the capture thread's body: while recording with an open
        stream, append each chunk read; stop at the first read error. The loop
        also ends when `results` runs out, which is where the controller clears the flag. */
    method RecordAudio(results: seq<ReadResult>)
      requires Valid()
      modifies this`audioData
      ensures Valid()
      ensures audioData == old(audioData) + (if isRecording && stream.Some? then Captured(results) else [])
      ensures GetRecordingDuration() >= old(GetRecordingDuration())
    {
      var i := 0;
      while i < |results| && isRecording && stream.Some?
        invariant 0 <= i <= |results|
        invariant !(isRecording && stream.Some?) ==> i == 0
        invariant forall j :: 0 <= j < i ==> results[j].Read?
        invariant audioData == old(audioData) + seq(i, j requires 0 <= j < i => results[j].data)
      {
        match results[i]
        case Read(d) =>
          audioData := audioData + [d];
          i := i + 1;
        case ReadError(_) =>
          break;
      }
      if isRecording && stream.Some? {
        var c := Captured(results);
        assert i < |results| ==> results[i].ReadError?;
        assert |c| == i;
        assert c == seq(i, j requires 0 <= j < i => results[j].data);
      }
      DurationGrows(|old(audioData)|, |audioData|);
    }

    /** What `_save_audio_to_file()` writes: the chunks joined in order, mono, 16-bit, 16 kHz. */
    function WavPayload(): (w: WavFile)
      reads this
      ensures w.channels == 1 && w.sampleWidth == 2 && w.frameRate == 16000
      ensures w.frames == Concat(audioData)
    {
      WavFile(CHANNELS, SAMPLE_WIDTH, SAMPLE_RATE, Concat(audioData))
    }

    /** `_save_audio_to_file()`. `tempPath` is the path `mkstemp` gives, or None
        when it raises OSError (which propagates); `writeError` is the message of
        an IOError or wave.Error raised while writing, which becomes RuntimeError. */
    function SaveAudioToFile(tempPath: Option<string>, writeError: Option<string>): (r: Result<(string, WavFile)>)
      reads this
      ensures tempPath.None? ==> r.Raises(OSError)
      ensures tempPath.Some? && writeError.None? ==> r == Ok((tempPath.value, WavPayload()))
      ensures tempPath.Some? && writeError.Some? ==>
        r == Err(Exc(RuntimeError, "儲存音頻檔案失敗: " + writeError.value))
    {
      match tempPath
      case None => Err(Exc(OSError, "mkstemp failed"))
      case Some(p) =>
        match writeError
        case None => Ok((p, WavPayload()))
        case Some(m) => Err(Exc(RuntimeError, "儲存音頻檔案失敗: " + m))
    }

    /** `stop_recording()`: nothing when idle; otherwise clear the flag, then give
        no path for an empty buffer or a failed save and the saved WAV file's path
        otherwise. The device is released on every path that was recording. */
    method StopRecording(tempPath: Option<string>, writeError: Option<string>) returns (path: Option<string>, written: Option<WavFile>)
      requires Valid()
      modifies this
      ensures Valid()
      ensures !old(isRecording) ==> path.None? && written.None? && unchanged(this)
      ensures old(isRecording) ==> !isRecording && audio.None? && stream.None?
      ensures audioData == old(audioData)
      ensures path.Some? <==> old(isRecording) && old(audioData) != [] && tempPath.Some? && writeError.None?
      ensures path.Some? ==>
        path == tempPath && written == Some(WavFile(1, 2, 16000, Concat(old(audioData))))
      ensures path.None? ==> written.None?
    {
      if !isRecording {
        return None, None;
      }
      isRecording := false;
      if audioData == [] {
        CleanupAudio();
        return None, None;
      }
      var saved := SaveAudioToFile(tempPath, writeError);
      if saved.Err? {
        CleanupAudio();
        return None, None;
      }
      CleanupAudio();
      return Some(saved.value.0), Some(saved.value.1);
    }

    /** `_cleanup_audio()`: release the stream, then the device. Idempotent. */
    method CleanupAudio()
      modifies this`stream, this`audio
      ensures stream.None? && audio.None?
      ensures old(stream.None? && audio.None?) ==> unchanged(this)
    {
      if stream.Some? {
        stream := None;
      }
      if audio.Some? {
        audio := None;
      }
    }

    /** `get_recording_duration()`: seconds captured so far, 0 when idle or empty. */
    function GetRecordingDuration(): (d: real)
      reads this
      ensures d >= 0.0
      ensures d == 0.0 <==> !isRecording || audioData == []
      ensures isRecording ==> d == Duration(|audioData|)
    {
      if !isRecording || audioData == [] then 0.0 else Duration(|audioData|)
    }
  }
}
