/** Configuration rules: the fallback `.env` reader, the boolean flags and
    thresholds of the evaluation configuration, the Whisper language setting,
    the start-up validation and the accuracy-tier thresholds. The process
    environment is a `map<string, string>`; parsing a threshold string into a
    float is not part of this model, so thresholds arrive as reals. */
module Config {
  import opened Common
  import opened Strings

  /** The evaluation settings (EVALUATION_CONFIG). */
  datatype EvaluationConfig = EvaluationConfig(
    textNormalization: bool,
    punctuationIgnore: bool,
    caseSensitive: bool,
    minSimilarityThreshold: real,
    highAccuracyThreshold: real,
    detailedErrorAnalysis: bool,
    includeSuggestions: bool)

  /** `os.environ.get(key, default)` */
  function EnvGet(env: map<string, string>, key: string, default: string): string {
    if key in env then env[key] else default
  }

  // ---------------------------------------------------------------------------
  // The fallback `.env` reader, used when python-dotenv is not installed.

  /** One line of the `.env` file as the fallback reader treats it: skipped when
      blank, when it starts with `#` (before any stripping) or when it has no
      `=`; otherwise a key and a value, split at the first `=` and both stripped. */
  function ParseEnvLine(line: string): (r: Option<(string, string)>)
    ensures r.Some? <==> !AllSpace(line) && !StartsWith(line, "#") && '=' in line
    ensures r.Some? ==>
      var i := IndexOf(line, '=').value;
      r.value == (Strip(line[..i]), Strip(line[i + 1..])) && '=' !in line[..i]
  {
    if Strip(line) != [] && !StartsWith(line, "#") && '=' in line then
      var i := IndexOf(line, '=').value;
      Some((Strip(line[..i]), Strip(line[i + 1..])))
    else None
  }

  /** The value that the first parsed line with key `k` gives, if any. */
  function FirstValue(lines: seq<string>, k: string): Option<string> {
    if lines == [] then None
    else match ParseEnvLine(lines[0])
      case Some((key, v)) => if key == k then Some(v) else FirstValue(lines[1..], k)
      case None => FirstValue(lines[1..], k)
  }

  /** The keys that the entries `parse` finds in `lines` set. */
  ghost function KeysOf(lines: seq<string>, parse: string -> Option<(string, string)>): set<string> {
    set i | 0 <= i < |lines| && parse(lines[i]).Some? :: parse(lines[i]).value.0
  }

  /** The keys that some parsed line of `lines` sets. */
  ghost function ParsedKeys(lines: seq<string>): set<string> {
    KeysOf(lines, ParseEnvLine)
  }

  lemma {:induction false} FirstValueDefined(lines: seq<string>, k: string)
    ensures FirstValue(lines, k).Some? <==> k in ParsedKeys(lines)
  {
    if lines != [] {
      FirstValueDefined(lines[1..], k);
      KeysOfCons(lines, ParseEnvLine, k);
    }
  }

  lemma KeysOfCons(lines: seq<string>, parse: string -> Option<(string, string)>, k: string)
    requires lines != []
    ensures k in KeysOf(lines, parse) <==>
      (parse(lines[0]).Some? && parse(lines[0]).value.0 == k) || k in KeysOf(lines[1..], parse)
  {
    var t := lines[1..];
    if k in KeysOf(lines, parse) {
      var i :| 0 <= i < |lines| && parse(lines[i]).Some? && parse(lines[i]).value.0 == k;
      if i > 0 {
        assert t[i - 1] == lines[i];
      }
    }
    if k in KeysOf(t, parse) {
      var i :| 0 <= i < |t| && parse(t[i]).Some? && parse(t[i]).value.0 == k;
      assert t[i] == lines[i + 1];
    }
  }

  /** Adding a line at the end changes the first value of a key only if it had none. */
  lemma {:induction false} FirstValueSnoc(lines: seq<string>, line: string, k: string)
    ensures FirstValue(lines + [line], k) ==
      if FirstValue(lines, k).Some? then FirstValue(lines, k)
      else if ParseEnvLine(line).Some? && ParseEnvLine(line).value.0 == k then Some(ParseEnvLine(line).value.1)
      else None
  {
    if lines == [] {
      assert [line][1..] == [];
    } else {
      assert (lines + [line])[1..] == lines[1..] + [line];
      FirstValueSnoc(lines[1..], line, k);
    }
  }

  /** What the fallback reader has done once it has read `lines` over `env`:
      variables already set keep their values, and each new variable holds the
      value of the first line that sets it. */
  ghost predicate Loaded(lines: seq<string>, env: map<string, string>, result: map<string, string>) {
    (forall k :: k in env ==> k in result && result[k] == env[k])
    && (forall k :: k in result <==> k in env || FirstValue(lines, k).Some?)
    && (forall k :: k in result && k !in env ==> FirstValue(lines, k) == Some(result[k]))
  }

  /** `setdefault` for one more line keeps `Loaded`. */
  lemma LoadedSnoc(lines: seq<string>, line: string, env: map<string, string>, result: map<string, string>)
    requires Loaded(lines, env, result)
    ensures var parsed := ParseEnvLine(line);
      Loaded(lines + [line], env,
             if parsed.Some? && parsed.value.0 !in result then result[parsed.value.0 := parsed.value.1] else result)
  {
    var parsed := ParseEnvLine(line);
    var next := if parsed.Some? && parsed.value.0 !in result then result[parsed.value.0 := parsed.value.1] else result;
    assert forall k :: k in env ==> k in next && next[k] == env[k];
    forall k ensures k in next <==> k in env || FirstValue(lines + [line], k).Some? {
      FirstValueSnoc(lines, line, k);
    }
    forall k | k in next && k !in env ensures FirstValue(lines + [line], k) == Some(next[k]) {
      FirstValueSnoc(lines, line, k);
      if parsed.Some? && parsed.value.0 !in result && k == parsed.value.0 {
        assert FirstValue(lines, k).None?;
      } else {
        assert k in result;
      }
    }
    assert Loaded(lines + [line], env, next);
  }

  /** One more line leaves a key's first value alone once it has one. */
  lemma {:induction false} FirstValueKept(lines: seq<string>, line: string, k: string)
    requires FirstValue(lines, k).Some?
    ensures FirstValue(lines + [line], k) == FirstValue(lines, k)
  {
    var all := lines + [line];
    assert all[0] == lines[0] && all[1..] == lines[1..] + [line];
    var parsed := ParseEnvLine(lines[0]);
    if parsed.None? || parsed.value.0 != k {
      FirstValueKept(lines[1..], line, k);
    }
  }

  lemma FirstValueExtend(lines: seq<string>, n: nat, k: string)
    requires n < |lines| && FirstValue(lines[..n], k).Some?
    ensures FirstValue(lines[..n + 1], k) == FirstValue(lines[..n], k)
  {
    var prefix := lines[..n];
    assert lines[..n + 1] == prefix + [lines[n]];
    FirstValueKept(prefix, lines[n], k);
  }

  /** A line that sets a key within the first `n` lines sets it the same way in all of them. */
  lemma {:induction false} FirstValuePrefix(lines: seq<string>, n: nat, k: string)
    requires n <= |lines|
    requires FirstValue(lines[..n], k).Some?
    ensures FirstValue(lines, k) == FirstValue(lines[..n], k)
    decreases |lines| - n
  {
    if n < |lines| {
      FirstValueExtend(lines, n, k);
      FirstValuePrefix(lines, n + 1, k);
    } else {
      assert lines[..n] == lines;
    }
  }

  /** What `putenv` reports for an empty variable name (EINVAL). */
  const EMPTY_NAME_ERROR := Exc(OSError, "[Errno 22] Invalid argument")

  /** The fallback reader: for each line in order, `os.environ.setdefault(key, value)`.
      A variable that is already set is never overwritten, and for a new key the
      first line that sets it wins. A line whose key strips to nothing, such as
      `=x`, makes `setdefault` store an empty name, which the operating system
      refuses with OSError; the reader stops there. */
  method LoadDotEnv(lines: seq<string>, env: map<string, string>) returns (r: Result<map<string, string>>)
    ensures r.Err? <==> "" !in env && FirstValue(lines, "").Some?
    ensures r.Err? ==> r.error == EMPTY_NAME_ERROR
    ensures r.Ok? ==> forall k :: k in env ==> k in r.value && r.value[k] == env[k]
    ensures r.Ok? ==> forall k :: k in r.value <==> k in env || FirstValue(lines, k).Some?
    ensures r.Ok? ==> forall k :: k in r.value && k !in env ==> FirstValue(lines, k) == Some(r.value[k])
  {
    var result := env;
    for n := 0 to |lines|
      invariant Loaded(lines[..n], env, result)
      invariant "" !in env ==> "" !in result
    {
      var line := lines[n];
      assert lines[..n + 1] == lines[..n] + [line];
      LoadedSnoc(lines[..n], line, env, result);
      var parsed := ParseEnvLine(line);
      if parsed.Some? {
        var (key, value) := parsed.value;
        if key !in result {
          if key == "" {
            FirstValuePrefix(lines, n + 1, "");
            return Err(EMPTY_NAME_ERROR);
          }
          result := result[key := value];
        }
      }
    }
    assert lines[..|lines|] == lines;
    return Ok(result);
  }

  // ---------------------------------------------------------------------------
  // Flags, thresholds and the language setting.

  /** The sixteen spellings of "true" in any letter case. */
  predicate SpellsTrue(v: string) {
    |v| == 4 && (v[0] == 't' || v[0] == 'T') && (v[1] == 'r' || v[1] == 'R')
    && (v[2] == 'u' || v[2] == 'U') && (v[3] == 'e' || v[3] == 'E')
  }

  /** The spellings of "auto" in any letter case. */
  predicate SpellsAuto(v: string) {
    |v| == 4 && (v[0] == 'a' || v[0] == 'A') && (v[1] == 'u' || v[1] == 'U')
    && (v[2] == 't' || v[2] == 'T') && (v[3] == 'o' || v[3] == 'O')
  }

  /** A boolean setting: `os.environ.get(name, default).lower() == "true"`. */
  function Flag(env: map<string, string>, name: string, default: string): bool {
    Lower(EnvGet(env, name, default)) == "true"
  }

  lemma FlagSpelling(env: map<string, string>, name: string, default: string)
    ensures Flag(env, name, default) <==> SpellsTrue(EnvGet(env, name, default))
  {
    var v := EnvGet(env, name, default);
    LowerEquals(v, "true");
  }

  /** EVALUATION_CONFIG as read from the environment; the two thresholds are
      given already converted to numbers. */
  function LoadEvaluationConfig(env: map<string, string>, minSimilarity: real, highAccuracy: real): (c: EvaluationConfig)
    ensures c.textNormalization <==> SpellsTrue(EnvGet(env, "TEXT_NORMALIZATION", "true"))
    ensures c.punctuationIgnore <==> SpellsTrue(EnvGet(env, "PUNCTUATION_IGNORE", "true"))
    ensures c.caseSensitive <==> SpellsTrue(EnvGet(env, "CASE_SENSITIVE", "false"))
    ensures c.detailedErrorAnalysis <==> SpellsTrue(EnvGet(env, "DETAILED_ERROR_ANALYSIS", "true"))
    ensures c.includeSuggestions <==> SpellsTrue(EnvGet(env, "INCLUDE_SUGGESTIONS", "true"))
    ensures c.minSimilarityThreshold == minSimilarity && c.highAccuracyThreshold == highAccuracy
  {
    FlagSpelling(env, "TEXT_NORMALIZATION", "true");
    FlagSpelling(env, "PUNCTUATION_IGNORE", "true");
    FlagSpelling(env, "CASE_SENSITIVE", "false");
    FlagSpelling(env, "DETAILED_ERROR_ANALYSIS", "true");
    FlagSpelling(env, "INCLUDE_SUGGESTIONS", "true");
    EvaluationConfig(
      Flag(env, "TEXT_NORMALIZATION", "true"),
      Flag(env, "PUNCTUATION_IGNORE", "true"),
      Flag(env, "CASE_SENSITIVE", "false"),
      minSimilarity,
      highAccuracy,
      Flag(env, "DETAILED_ERROR_ANALYSIS", "true"),
      Flag(env, "INCLUDE_SUGGESTIONS", "true"))
  }

  /** With none of the flags set, normalisation and punctuation stripping are on
      and comparison is case-insensitive. */
  lemma DefaultFlags(env: map<string, string>, minSimilarity: real, highAccuracy: real)
    requires "TEXT_NORMALIZATION" !in env && "PUNCTUATION_IGNORE" !in env && "CASE_SENSITIVE" !in env
    ensures var c := LoadEvaluationConfig(env, minSimilarity, highAccuracy);
      c.textNormalization && c.punctuationIgnore && !c.caseSensitive
  {
  }

  /** `get_whisper_language()`: no language hint for "auto" in any letter case,
      otherwise the setting as written. */
  function GetWhisperLanguage(env: map<string, string>): (r: Option<string>)
    ensures r.None? <==> SpellsAuto(EnvGet(env, "OPENAI_STT_LANGUAGE", "auto"))
    ensures r.Some? ==> r.value == env["OPENAI_STT_LANGUAGE"]
  {
    var setting := EnvGet(env, "OPENAI_STT_LANGUAGE", "auto");
    LowerEquals(setting, "auto");
    if Lower(setting) == "auto" then None else Some(setting)
  }

  predicate InPercentRange(x: real) {
    0.0 <= x <= 100.0
  }

  /** `validate_config()`: collects one message per failed check, in check order,
      and raises ValueError with all of them; returns True when none failed. */
  method ValidateConfig(apiKey: Option<string>, cfg: EvaluationConfig) returns (r: Result<bool>)
    ensures r.Ok? <==> apiKey.Some? && apiKey.value != ""
                       && InPercentRange(cfg.minSimilarityThreshold) && InPercentRange(cfg.highAccuracyThreshold)
    ensures r.Ok? ==> r.value
    ensures r.Err? ==> r.error == Exc(ValueError, "配置錯誤: " + Join(
      (if apiKey.None? || apiKey.value == "" then ["OPENAI_API_KEY 未設定"] else [])
      + (if !InPercentRange(cfg.minSimilarityThreshold) then ["MIN_SIMILARITY_THRESHOLD 必須在 0-100 之間"] else [])
      + (if !InPercentRange(cfg.highAccuracyThreshold) then ["HIGH_ACCURACY_THRESHOLD 必須在 0-100 之間"] else []),
      ", "))
  {
    var errors: seq<string> := [];
    if apiKey.None? || apiKey.value == "" {
      errors := errors + ["OPENAI_API_KEY 未設定"];
    }
    ghost var afterKey := errors;
    if !InPercentRange(cfg.minSimilarityThreshold) {
      errors := errors + ["MIN_SIMILARITY_THRESHOLD 必須在 0-100 之間"];
    }
    ghost var afterMin := errors;
    if !InPercentRange(cfg.highAccuracyThreshold) {
      errors := errors + ["HIGH_ACCURACY_THRESHOLD 必須在 0-100 之間"];
    }
    assert afterKey == (if apiKey.None? || apiKey.value == "" then ["OPENAI_API_KEY 未設定"] else []);
    assert afterMin == afterKey + (if !InPercentRange(cfg.minSimilarityThreshold) then ["MIN_SIMILARITY_THRESHOLD 必須在 0-100 之間"] else []);
    assert errors == afterMin + (if !InPercentRange(cfg.highAccuracyThreshold) then ["HIGH_ACCURACY_THRESHOLD 必須在 0-100 之間"] else []);
    if errors != [] {
      return Err(Exc(ValueError, "配置錯誤: " + Join(errors, ", ")));
    }
    return Ok(true);
  }

  /** The accuracy-tier thresholds (`get_evaluation_thresholds()`). */
  datatype Thresholds = Thresholds(excellent: real, good: real, fair: real, poor: real)

  function GetEvaluationThresholds(cfg: EvaluationConfig): (t: Thresholds)
    ensures t.excellent == cfg.highAccuracyThreshold && t.fair == cfg.minSimilarityThreshold && t.poor == 0.0
    ensures t.good >= t.fair && t.good >= 75.0 && (t.good == 75.0 || t.good == t.fair)
  {
    Thresholds(
      cfg.highAccuracyThreshold,
      if 75.0 >= cfg.minSimilarityThreshold then 75.0 else cfg.minSimilarityThreshold,
      cfg.minSimilarityThreshold,
      0.0)
  }

  /** A configuration that passes validation gives thresholds inside [0, 100]. */
  lemma ValidatedThresholdsInRange(cfg: EvaluationConfig)
    requires InPercentRange(cfg.minSimilarityThreshold) && InPercentRange(cfg.highAccuracyThreshold)
    ensures var t := GetEvaluationThresholds(cfg);
      InPercentRange(t.excellent) && InPercentRange(t.good) && InPercentRange(t.fair) && t.poor == 0.0
  {
  }
}
