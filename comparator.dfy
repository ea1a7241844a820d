/** Text comparison (`TextProcessor` and `LLMService`): the flag-controlled text
    normalisation, the chat call with its bounded retry, the repair of the
    model's JSON answer, and `compare_text_accuracy` that ties them together.
    The chat backend is an oracle indexed by prompt and attempt number,
    `json.loads` an oracle that gives a value or a decode failure, and
    `float(str)` an oracle that gives a number or nothing. */
module Comparator {
  import opened Common
  import opened Strings
  import opened Config

  // ---------------------------------------------------------------------------
  // normalize_text

  /** The full-width punctuation that normalisation maps to ASCII. */
  const FULLWIDTH: set<char> := {'，', '。', '？', '！', '：', '；', '「', '」', '『', '』'}

  /** The character class `[.,!?;:()"'-]` removed when punctuation is ignored. */
  const PUNCTUATION: set<char> := {'.', ',', '!', '?', ';', ':', '(', ')', '"', '\'', '-'}

  /** The ten `replace` calls, applied in the order the source applies them. */
  function MapFullwidth(s: string): string {
    var s1 := ReplaceChar(ReplaceChar(ReplaceChar(s, '，', ','), '。', '.'), '？', '?');
    var s2 := ReplaceChar(ReplaceChar(ReplaceChar(s1, '！', '!'), '：', ':'), '；', ';');
    var s3 := ReplaceChar(ReplaceChar(s2, '「', '"'), '」', '"');
    ReplaceChar(ReplaceChar(s3, '『', '\''), '』', '\'')
  }

  /** The ASCII counterpart of one character, as a table. */
  function AsciiPunct(c: char): char {
    match c
    case '，' => ','
    case '。' => '.'
    case '？' => '?'
    case '！' => '!'
    case '：' => ':'
    case '；' => ';'
    case '「' => '"'
    case '」' => '"'
    case '『' => '\''
    case '』' => '\''
    case _ => c
  }

  /** The chain of replacements is the character-by-character table: no
      replacement produces a character that a later one rewrites. */
  lemma {:induction false} MapFullwidthPointwise(s: string)
    ensures |MapFullwidth(s)| == |s|
    ensures forall i :: 0 <= i < |s| ==> MapFullwidth(s)[i] == AsciiPunct(s[i])
  {
    forall i | 0 <= i < |s| ensures MapFullwidth(s)[i] == AsciiPunct(s[i]) {
      var s1a := ReplaceChar(s, '，', ',');
      var s1b := ReplaceChar(s1a, '。', '.');
      var s1 := ReplaceChar(s1b, '？', '?');
      var s2a := ReplaceChar(s1, '！', '!');
      var s2b := ReplaceChar(s2a, '：', ':');
      var s2 := ReplaceChar(s2b, '；', ';');
      var s3a := ReplaceChar(s2, '「', '"');
      var s3 := ReplaceChar(s3a, '」', '"');
      var s4 := ReplaceChar(s3, '『', '\'');
      assert s1[i] == AsciiPunct(s[i]) || (s[i] in FULLWIDTH - {'，', '。', '？'} && s1[i] == s[i]);
      assert s2[i] == AsciiPunct(s[i]) || (s[i] in {'「', '」', '『', '』'} && s2[i] == s[i]);
      assert s3[i] == AsciiPunct(s[i]) || (s[i] in {'『', '』'} && s3[i] == s[i]);
      assert s4[i] == AsciiPunct(s[i]) || (s[i] == '』' && s4[i] == s[i]);
    }
  }

  lemma MapFullwidthFacts(s: string)
    ensures var r := MapFullwidth(s);
      SameSpaces(r, s)
      && (forall c :: c in r ==> c !in FULLWIDTH)
      && (forall c :: c in r ==> c in s || c in PUNCTUATION)
  {
    var r := MapFullwidth(s);
    MapFullwidthPointwise(s);
    forall i | 0 <= i < |s| ensures IsSpace(r[i]) <==> IsSpace(s[i]) {
      if s[i] in FULLWIDTH {
        NotSpace(s[i]);
        NotSpace(r[i]);
      }
    }
    forall c | c in r ensures c !in FULLWIDTH && (c in s || c in PUNCTUATION) {
      var i :| 0 <= i < |r| && r[i] == c;
    }
  }

  /** The first stage, when normalisation is on: whitespace runs collapsed and
      full-width punctuation mapped to ASCII. */
  function Canonical(t: string, cfg: EvaluationConfig): string {
    if cfg.textNormalization then MapFullwidth(CollapseSpace(t)) else t
  }

  /** The second stage: the punctuation class removed when it is ignored. */
  function Unpunctuated(t: string, cfg: EvaluationConfig): string {
    if cfg.punctuationIgnore then RemoveChars(t, PUNCTUATION) else t
  }

  /** The third stage: lower case unless comparison is case-sensitive. */
  function Cased(t: string, cfg: EvaluationConfig): string {
    if !cfg.caseSensitive then Lower(t) else t
  }

  /** `TextProcessor.normalize_text` under the evaluation flags. */
  function NormalizeText(text: Option<string>, cfg: EvaluationConfig): (r: string)
    ensures NoEdgeSpace(r)
    ensures text.None? || text.value == "" ==> r == ""
  {
    if text.None? || text.value == "" then ""
    else Strip(Cased(Unpunctuated(Canonical(Strip(text.value), cfg), cfg), cfg))
  }

  /** Empty, missing or all-whitespace text normalises to "", and the result
      never starts or ends with whitespace. */
  lemma NormalizeTrimmed(text: Option<string>, cfg: EvaluationConfig)
    ensures NoEdgeSpace(NormalizeText(text, cfg))
    ensures text.None? || (text.Some? && AllSpace(text.value)) ==> NormalizeText(text, cfg) == ""
  {
    if text.Some? && text.value != "" && AllSpace(text.value) {
      var t0 := Strip(text.value);
      assert t0 == [];
      var t1 := Canonical(t0, cfg);
      MapFullwidthPointwise(CollapseSpace(t0));
      assert t1 == [];
    }
  }

  lemma CanonicalFacts(t: string, cfg: EvaluationConfig)
    ensures cfg.textNormalization ==> forall c :: c in Canonical(t, cfg) ==> c !in FULLWIDTH
  {
    if cfg.textNormalization {
      MapFullwidthFacts(CollapseSpace(t));
    }
  }

  lemma CasedFacts(t: string, cfg: EvaluationConfig)
    ensures forall c :: c in Cased(t, cfg) ==> c in t || 'a' <= c <= 'z'
    ensures !cfg.caseSensitive ==> forall c :: c in Cased(t, cfg) ==> !IsUpper(c)
  {
    LowerFacts(t);
  }

  lemma CanonicalChars(t: string, cfg: EvaluationConfig)
    ensures forall c :: c in Canonical(t, cfg) ==> c in t || c in PUNCTUATION || c == ' '
  {
    if cfg.textNormalization {
      var u := CollapseSpace(t);
      MapFullwidthFacts(u);
      forall c | c in u ensures c in t || c == ' ' {
        var i :| 0 <= i < |u| && u[i] == c;
      }
    }
  }

  /** The characters that survive normalisation: each is from the (stripped)
      input, a space left by the whitespace collapse, an ASCII counterpart of
      full-width punctuation, or a lower-case letter. */
  lemma NormalizeStages(s: string, cfg: EvaluationConfig)
    requires s != ""
    ensures var t1 := Canonical(Strip(s), cfg);
      var t2 := Unpunctuated(t1, cfg);
      var t3 := Cased(t2, cfg);
      CharsFrom(NormalizeText(Some(s), cfg), t3)
      && (forall c :: c in t1 ==> c in Strip(s) || c in PUNCTUATION || c == ' ')
      && (cfg.textNormalization ==> forall c :: c in t1 ==> c !in FULLWIDTH)
      && (forall c :: c in t2 ==> c in t1)
      && (cfg.punctuationIgnore ==> forall c :: c in t2 ==> c !in PUNCTUATION)
      && (forall c :: c in t3 ==> c in t2 || 'a' <= c <= 'z')
      && (!cfg.caseSensitive ==> forall c :: c in t3 ==> !IsUpper(c))
  {
    var t1 := Canonical(Strip(s), cfg);
    var t2 := Unpunctuated(t1, cfg);
    var t3 := Cased(t2, cfg);
    CanonicalFacts(Strip(s), cfg);
    CanonicalChars(Strip(s), cfg);
    CasedFacts(t2, cfg);
    StripChars(t3);
  }

  /** With normalisation on, no full-width punctuation of the table remains. */
  lemma NormalizeNoFullwidth(text: Option<string>, cfg: EvaluationConfig)
    requires cfg.textNormalization
    ensures forall c :: c in NormalizeText(text, cfg) ==> c !in FULLWIDTH
  {
    if text.Some? && text.value != "" {
      NormalizeStages(text.value, cfg);
    }
  }

  /** With punctuation ignored, none of `. , ! ? ; : ( ) " ' -` remains. */
  lemma NormalizeNoPunctuation(text: Option<string>, cfg: EvaluationConfig)
    requires cfg.punctuationIgnore
    ensures forall c :: c in NormalizeText(text, cfg) ==> c !in PUNCTUATION
  {
    if text.Some? && text.value != "" {
      NormalizeStages(text.value, cfg);
    }
  }

  /** Case-insensitive comparison leaves no upper-case ASCII letter. */
  lemma NormalizeNoUpper(text: Option<string>, cfg: EvaluationConfig)
    requires !cfg.caseSensitive
    ensures forall c :: c in NormalizeText(text, cfg) ==> !IsUpper(c)
  {
    if text.Some? && text.value != "" {
      NormalizeStages(text.value, cfg);
    }
  }

  /** With normalisation on and punctuation kept, no two whitespace characters
      are adjacent in the result. */
  lemma NormalizeCollapsed(text: Option<string>, cfg: EvaluationConfig)
    requires cfg.textNormalization && !cfg.punctuationIgnore
    ensures NoSpaceRun(NormalizeText(text, cfg))
  {
    if text.Some? && text.value != "" {
      var t0 := Strip(text.value);
      var c := CollapseSpace(t0);
      var t1 := MapFullwidth(c);
      MapFullwidthFacts(c);
      NoSpaceRunTransfer(t1, c);
      var t3 := if !cfg.caseSensitive then Lower(t1) else t1;
      LowerFacts(t1);
      NoSpaceRunTransfer(t3, t1);
      StripKeepsNoSpaceRun(t3);
    }
  }

  lemma MapFullwidthKeepsBlank(s: string)
    requires SpacesAreBlank(s)
    ensures SpacesAreBlank(MapFullwidth(s))
  {
    MapFullwidthPointwise(s);
    MapFullwidthFacts(s);
  }

  /** With normalisation on and punctuation kept, the only whitespace left is
      the plain space. */
  lemma NormalizeBlankSpaces(text: Option<string>, cfg: EvaluationConfig)
    requires cfg.textNormalization && !cfg.punctuationIgnore
    ensures SpacesAreBlank(NormalizeText(text, cfg))
  {
    if text.Some? && text.value != "" {
      var t1 := MapFullwidth(CollapseSpace(Strip(text.value)));
      MapFullwidthKeepsBlank(CollapseSpace(Strip(text.value)));
      var t3 := if !cfg.caseSensitive then Lower(t1) else t1;
      LowerKeepsBlank(t1);
      StripKeepsBlank(t3);
    }
  }

  /** Text that already has the shape normalisation produces is returned
      unchanged: nothing at its edges to strip, and nothing that an enabled
      stage would rewrite. */
  lemma NormalizeFixedPoint(s: string, cfg: EvaluationConfig)
    requires NoEdgeSpace(s)
    requires cfg.textNormalization ==>
      NoSpaceRun(s) && SpacesAreBlank(s) && forall i :: 0 <= i < |s| ==> s[i] !in FULLWIDTH
    requires cfg.punctuationIgnore ==> forall i :: 0 <= i < |s| ==> s[i] !in PUNCTUATION
    requires !cfg.caseSensitive ==> forall i :: 0 <= i < |s| ==> !IsUpper(s[i])
    ensures NormalizeText(Some(s), cfg) == s
  {
    if s != "" {
      assert Strip(s) == s;
      if cfg.textNormalization {
        CollapseIdentity(s);
        MapFullwidthIdentity(s);
      }
      assert Canonical(s, cfg) == s;
      if cfg.punctuationIgnore {
        RemoveCharsNone(s, PUNCTUATION);
      }
      assert Unpunctuated(s, cfg) == s;
      if !cfg.caseSensitive {
        LowerIdentity(s);
      }
      assert Cased(s, cfg) == s;
    }
  }

  /** With punctuation kept, normalising twice is normalising once; removing
      punctuation is the one stage that can leave work for a second pass
      (`NormalizeNotIdempotent`). */
  lemma NormalizeIdempotentKeepingPunctuation(text: Option<string>, cfg: EvaluationConfig)
    requires !cfg.punctuationIgnore
    ensures NormalizeText(Some(NormalizeText(text, cfg)), cfg) == NormalizeText(text, cfg)
  {
    var y := NormalizeText(text, cfg);
    NormalizeTrimmed(text, cfg);
    if cfg.textNormalization {
      NormalizeCollapsed(text, cfg);
      NormalizeBlankSpaces(text, cfg);
      NormalizeNoFullwidth(text, cfg);
      assert forall i :: 0 <= i < |y| ==> y[i] in y;
    }
    if !cfg.caseSensitive {
      NormalizeNoUpper(text, cfg);
      assert forall i :: 0 <= i < |y| ==> y[i] in y;
    }
    NormalizeFixedPoint(y, cfg);
  }

  lemma RemovePieces(x: char, y: char)
    requires x !in PUNCTUATION && y !in PUNCTUATION
    ensures RemoveChars([x, ' '] + [','] + [' ', y], PUNCTUATION) == [x, ' ', ' ', y]
  {
    RemoveCharsConcat([x, ' '] + [','], [' ', y], PUNCTUATION);
    RemoveCharsConcat([x, ' '], [','], PUNCTUATION);
    CommaNotSpace();
    RemoveCharsPair(x, ' ', PUNCTUATION);
    RemoveCharsPair(' ', y, PUNCTUATION);
    assert RemoveChars([','], PUNCTUATION) == [];
  }

  lemma CommaNotSpace()
    ensures ' ' !in PUNCTUATION && ',' in PUNCTUATION
  {
  }

  lemma RemoveCharsPair(a: char, b: char, cs: set<char>)
    requires a !in cs && b !in cs
    ensures RemoveChars([a, b], cs) == [a, b]
  {
    assert [a, b][1..] == [b];
    assert [b][1..] == [];
  }

  lemma RemoveComma(x: char, y: char)
    requires x !in PUNCTUATION && y !in PUNCTUATION
    ensures RemoveChars([x, ' ', ',', ' ', y], PUNCTUATION) == [x, ' ', ' ', y]
  {
    assert [x, ' ', ',', ' ', y] == [x, ' '] + [','] + [' ', y];
    RemovePieces(x, y);
  }

  lemma CollapseDouble(x: char, y: char)
    requires !IsSpace(x) && !IsSpace(y)
    ensures CollapseSpace([x, ' ', ' ', y]) == [x, ' ', y]
  {
    var u := [x, ' ', ' ', y];
    var v := u[1..];
    assert v == [' ', ' ', y];
    assert v == [' ', ' '] + [y];
    LeadingSpacesPadded([' ', ' '], [y]);
    assert v[2..] == [y];
    assert CollapseSpace([y]) == [y] by {
      assert [y][1..] == [];
    }
  }

  lemma MapFullwidthIdentity(s: string)
    requires forall i :: 0 <= i < |s| ==> s[i] !in FULLWIDTH
    ensures MapFullwidth(s) == s
  {
    MapFullwidthPointwise(s);
  }

  /** ASCII text has nothing to map. */
  lemma MapFullwidthAscii(s: string)
    requires forall i :: 0 <= i < |s| ==> s[i] < '\U{0080}'
    ensures MapFullwidth(s) == s
  {
    forall i | 0 <= i < |s| ensures s[i] !in FULLWIDTH {
    }
    MapFullwidthIdentity(s);
  }

  /** `normalize_text` under the default flags, stage by stage. */
  lemma NormalizeDefaultStages(s: string, t0: string, t1: string, t2: string, t3: string, cfg: EvaluationConfig)
    requires cfg.textNormalization && cfg.punctuationIgnore && !cfg.caseSensitive && s != ""
    requires Strip(s) == t0 && MapFullwidth(CollapseSpace(t0)) == t1
    requires RemoveChars(t1, PUNCTUATION) == t2 && Lower(t2) == t3
    ensures NormalizeText(Some(s), cfg) == Strip(t3)
  {
  }

  /** The stages of the first pass over `x , y`. */
  lemma FirstPassStages(x: char, y: char)
    requires 'a' <= x <= 'z' && 'a' <= y <= 'z'
    ensures var s := [x, ' ', ',', ' ', y];
      Strip(s) == s && MapFullwidth(CollapseSpace(s)) == s
  {
    var s := [x, ' ', ',', ' ', y];
    assert NoEdgeSpace(s);
    FirstPassSpacing(x, y);
    CollapseIdentity(s);
    FirstPassMap(x, y);
  }

  lemma FirstPassSpacing(x: char, y: char)
    requires 'a' <= x <= 'z' && 'a' <= y <= 'z'
    ensures var s := [x, ' ', ',', ' ', y];
      NoSpaceRun(s) && forall i :: 0 <= i < |s| && IsSpace(s[i]) ==> s[i] == ' '
  {
    NotSpace(x);
    NotSpace(y);
    NotSpace(',');
  }

  lemma FirstPassMap(x: char, y: char)
    requires 'a' <= x <= 'z' && 'a' <= y <= 'z'
    ensures MapFullwidth([x, ' ', ',', ' ', y]) == [x, ' ', ',', ' ', y]
  {
    MapFullwidthAscii([x, ' ', ',', ' ', y]);
  }

  lemma FirstPassTail(x: char, y: char)
    requires 'a' <= x <= 'z' && 'a' <= y <= 'z'
    ensures var u := [x, ' ', ' ', y];
      RemoveChars([x, ' ', ',', ' ', y], PUNCTUATION) == u && Lower(u) == u && Strip(u) == u
  {
    LettersNotPunctuation(x, y);
    RemoveComma(x, y);
    LettersUnchanged(x, y);
  }

  lemma LettersNotPunctuation(x: char, y: char)
    requires 'a' <= x <= 'z' && 'a' <= y <= 'z'
    ensures x !in PUNCTUATION && y !in PUNCTUATION
  {
  }

  lemma LettersUnchanged(x: char, y: char)
    requires 'a' <= x <= 'z' && 'a' <= y <= 'z'
    ensures var u := [x, ' ', ' ', y];
      Lower(u) == u && Strip(u) == u
  {
    var u := [x, ' ', ' ', y];
    LowerIdentity(u);
    assert NoEdgeSpace(u);
  }

  /** The first pass over `x , y` for lower-case letters `x` and `y` removes the comma. */
  lemma FirstPass(x: char, y: char, cfg: EvaluationConfig)
    requires 'a' <= x <= 'z' && 'a' <= y <= 'z'
    requires cfg.textNormalization && cfg.punctuationIgnore && !cfg.caseSensitive
    ensures NormalizeText(Some([x, ' ', ',', ' ', y]), cfg) == [x, ' ', ' ', y]
  {
    FirstPassStages(x, y);
    FirstPassTail(x, y);
    var s := [x, ' ', ',', ' ', y];
    var u := [x, ' ', ' ', y];
    NormalizeDefaultStages(s, s, s, u, u, cfg);
  }

  lemma SecondPassStages(x: char, y: char)
    requires 'a' <= x <= 'z' && 'a' <= y <= 'z'
    ensures var u := [x, ' ', ' ', y];
      Strip(u) == u && MapFullwidth(CollapseSpace(u)) == [x, ' ', y]
  {
    var u := [x, ' ', ' ', y];
    assert NoEdgeSpace(u);
    CollapseDouble(x, y);
    MapFullwidthAscii([x, ' ', y]);
  }

  lemma SecondPassTail(x: char, y: char)
    requires 'a' <= x <= 'z' && 'a' <= y <= 'z'
    ensures var c := [x, ' ', y];
      RemoveChars(c, PUNCTUATION) == c && Lower(c) == c && Strip(c) == c
  {
    var c := [x, ' ', y];
    RemoveCharsNone(c, PUNCTUATION);
    LowerIdentity(c);
    NotSpace(x);
    NotSpace(y);
    assert NoEdgeSpace(c);
  }

  /** The second pass collapses the two spaces the first one left. */
  lemma SecondPass(x: char, y: char, cfg: EvaluationConfig)
    requires 'a' <= x <= 'z' && 'a' <= y <= 'z'
    requires cfg.textNormalization && cfg.punctuationIgnore && !cfg.caseSensitive
    ensures NormalizeText(Some([x, ' ', ' ', y]), cfg) == [x, ' ', y]
  {
    SecondPassStages(x, y);
    SecondPassTail(x, y);
    var u := [x, ' ', ' ', y];
    var c := [x, ' ', y];
    NormalizeDefaultStages(u, u, c, c, c, cfg);
  }

  /** Removing punctuation can leave two spaces side by side, which a second
      pass then collapses: under the default flags normalisation is not idempotent. */
  lemma NormalizeNotIdempotent()
    ensures var cfg := EvaluationConfig(true, true, false, 60.0, 90.0, true, true);
      NormalizeText(Some("a , b"), cfg) == "a  b"
      && NormalizeText(Some(NormalizeText(Some("a , b"), cfg)), cfg) == "a b"
  {
    var cfg := EvaluationConfig(true, true, false, 60.0, 90.0, true, true);
    FirstPass('a', 'b', cfg);
    SecondPass('a', 'b', cfg);
  }

  // ---------------------------------------------------------------------------
  // _call_openai_api

  const API_FAILURE_MESSAGE := "OpenAI API 呼叫失敗"
  const MAX_RETRIES: nat := 2

  /** What the chat backend does at each attempt (0, 1, 2, ...) for one prompt:
      it replies with a message content, which may be missing, or it raises. */
  type ChatAttempts = nat -> Reply<Option<string>>

  predicate IsApiError(reply: Reply<Option<string>>) {
    reply.Raised? && reply.exc.kind == APIError
  }

  /** The outcome of an attempt that is not retried: the stripped content, the
      AttributeError of stripping a missing content, or the exception raised. */
  function AttemptOutcome(reply: Reply<Option<string>>): Result<string> {
    match reply
    case Replied(content) =>
      if content.Some? then Ok(Strip(content.value))
      else Err(Exc(AttributeError, "'NoneType' object has no attribute 'strip'"))
    case Raised(e) => Err(e)
  }

  /** `_call_openai_api(prompt, retry_count)`: an APIError is retried while fewer
      than two retries have been made, and becomes RuntimeError after that. */
  function CallOpenAiApi(chat: ChatAttempts, retryCount: nat): (r: Result<string>)
    ensures r.Ok? ==> NoEdgeSpace(r.value)
    ensures r.Err? ==> r.error.kind != APIError
    decreases if retryCount < MAX_RETRIES then MAX_RETRIES - retryCount else 0
  {
    var reply := chat(retryCount);
    if !IsApiError(reply) then AttemptOutcome(reply)
    else if retryCount < MAX_RETRIES then CallOpenAiApi(chat, retryCount + 1)
    else Err(Exc(RuntimeError, API_FAILURE_MESSAGE))
  }

  /** From the first call: the outcome is that of the first attempt that does not
      raise APIError, or RuntimeError when all three attempts raise it. */
  lemma RetryOutcome(chat: ChatAttempts)
    ensures !IsApiError(chat(0)) ==> CallOpenAiApi(chat, 0) == AttemptOutcome(chat(0))
    ensures IsApiError(chat(0)) && !IsApiError(chat(1)) ==> CallOpenAiApi(chat, 0) == AttemptOutcome(chat(1))
    ensures IsApiError(chat(0)) && IsApiError(chat(1)) && !IsApiError(chat(2)) ==>
      CallOpenAiApi(chat, 0) == AttemptOutcome(chat(2))
    ensures IsApiError(chat(0)) && IsApiError(chat(1)) && IsApiError(chat(2)) ==>
      CallOpenAiApi(chat, 0) == Err(Exc(RuntimeError, API_FAILURE_MESSAGE))
  {
    assert CallOpenAiApi(chat, 2) == if IsApiError(chat(2)) then Err(Exc(RuntimeError, API_FAILURE_MESSAGE)) else AttemptOutcome(chat(2));
    assert CallOpenAiApi(chat, 1) == if IsApiError(chat(1)) then CallOpenAiApi(chat, 2) else AttemptOutcome(chat(1));
  }

  /** At most three attempts: nothing the backend would do at a fourth attempt
      or later affects the outcome. */
  lemma {:induction false} AtMostThreeAttempts(c1: ChatAttempts, c2: ChatAttempts, retryCount: nat)
    requires retryCount <= MAX_RETRIES
    requires forall k :: retryCount <= k <= MAX_RETRIES ==> c1(k) == c2(k)
    ensures CallOpenAiApi(c1, retryCount) == CallOpenAiApi(c2, retryCount)
    decreases MAX_RETRIES - retryCount
  {
    if retryCount < MAX_RETRIES {
      AtMostThreeAttempts(c1, c2, retryCount + 1);
    }
  }

  // ---------------------------------------------------------------------------
  // _parse_comparison_response

  const PARSE_FAILURE_PREFIX := "無法解析LLM的回應: "

  const DEFAULT_ERROR_ANALYSIS: Value :=
    Obj(map["substitutions" := Num(0.0), "deletions" := Num(0.0), "insertions" := Num(0.0), "total_errors" := Num(0.0)])

  /** `required_fields` with their defaults. */
  const DEFAULT_FIELDS: map<string, Value> := map[
    "summary" := Str("分析完成"),
    "accuracy_score" := Num(0.0),
    "semantic_similarity" := Num(0.0),
    "error_analysis" := DEFAULT_ERROR_ANALYSIS,
    "key_differences" := Arr([]),
    "suggestions" := Arr([]),
    "reasoning" := Str("")]

  /** The order in which `required_fields` is iterated. */
  const REQUIRED_ORDER: seq<string> :=
    ["summary", "accuracy_score", "semantic_similarity", "error_analysis", "key_differences", "suggestions", "reasoning"]

  lemma RequiredKeys()
    ensures "summary" in DEFAULT_FIELDS && "accuracy_score" in DEFAULT_FIELDS
    ensures "semantic_similarity" in DEFAULT_FIELDS && "error_analysis" in DEFAULT_FIELDS
    ensures "key_differences" in DEFAULT_FIELDS && "suggestions" in DEFAULT_FIELDS && "reasoning" in DEFAULT_FIELDS
  {
  }

  /** The iteration order lists exactly the required fields. */
  lemma RequiredOrderKeys()
    ensures forall j :: 0 <= j < |REQUIRED_ORDER| ==> REQUIRED_ORDER[j] in DEFAULT_FIELDS
    ensures forall k :: k in DEFAULT_FIELDS ==> k in REQUIRED_ORDER
  {
  }

  /** The two opening checks: drop a leading "```json", then a leading "```". */
  function DropOpener(t: string): string {
    var t1 := if StartsWith(t, "```json") then t[7..] else t;
    if StartsWith(t1, "```") then t1[3..] else t1
  }

  /** The closing check: drop a trailing "```". */
  function DropCloser(t: string): string {
    if EndsWith(t, "```") then t[..|t| - 3] else t
  }

  /** The cleaning before `json.loads`: trim, drop the fences, trim again. */
  function StripFences(text: string): (r: string)
    ensures NoEdgeSpace(r) && |r| <= |text|
  {
    Strip(DropCloser(DropOpener(Strip(text))))
  }

  lemma NoOpener(t: string)
    requires t == [] || t[0] != '`'
    ensures DropOpener(t) == t
  {
    if t != [] {
      assert !StartsWith(t, "```json") by {
        if |t| >= 7 { assert t[..7][0] == t[0]; }
      }
      assert !StartsWith(t, "```") by {
        if |t| >= 3 { assert t[..3][0] == t[0]; }
      }
    }
  }

  lemma JsonOpener(x: string)
    requires x == [] || x[0] != '`'
    ensures DropOpener("```json" + x) == x
  {
    var t := "```json" + x;
    assert t[..7] == "```json";
    assert t[7..] == x;
    NoOpener(x);
  }

  lemma BareOpener(x: string)
    requires x != [] && IsSpace(x[0])
    ensures DropOpener("```" + x) == x
  {
    var t := "```" + x;
    assert !StartsWith(t, "```json") by {
      if |t| >= 7 { assert t[..7][3] == x[0]; }
    }
    assert t[..3] == "```";
    assert t[3..] == x;
  }

  lemma Closer(x: string)
    ensures DropCloser(x + "```") == x
  {
    var t := x + "```";
    assert t[|t| - 3..] == "```";
    assert t[..|t| - 3] == x;
  }

  /** The fenced text is already trimmed. */
  lemma FencedTrimmed(opener: string, inner: string)
    requires opener != [] && opener[0] == '`'
    ensures Strip(opener + inner + "```") == opener + inner + "```"
  {
    var text := opener + inner + "```";
    assert text[0] == '`' && text[|text| - 1] == '`';
    BacktickEdges(text);
  }

  lemma BacktickEdges(text: string)
    requires text != [] && text[0] == '`' && text[|text| - 1] == '`'
    ensures Strip(text) == text
  {
    NotSpace('`');
    assert NoEdgeSpace(text);
  }

  lemma FenceBody(w1: string, payload: string, w2: string)
    requires AllSpace(w1) && AllSpace(w2) && NoEdgeSpace(payload)
    ensures Strip(DropCloser(w1 + payload + w2 + "```")) == payload
  {
    Closer(w1 + payload + w2);
    StripPadded(w1, payload, w2);
  }

  /** A payload wrapped in a code fence, "```json" or a bare "```" followed by
      whitespace, comes out exactly as it went in. */
  lemma FenceRoundTrip(opener: string, w1: string, payload: string, w2: string)
    requires opener == "```json" || (opener == "```" && w1 != [])
    requires AllSpace(w1) && AllSpace(w2) && NoEdgeSpace(payload) && payload != [] && payload[0] != '`'
    ensures StripFences(opener + w1 + payload + w2 + "```") == payload
  {
    var inner := w1 + payload + w2;
    assert opener + w1 + payload + w2 + "```" == opener + inner + "```" == opener + (inner + "```");
    FencedTrimmed(opener, inner);
    assert (inner + "```")[0] == (if w1 != [] then w1[0] else payload[0]);
    if opener == "```json" {
      JsonOpener(inner + "```");
    } else {
      BareOpener(inner + "```");
    }
    FenceBody(w1, payload, w2);
  }

  /** An unfenced payload is passed on without its surrounding whitespace. */
  lemma UnfencedPassesThrough(w1: string, payload: string, w2: string)
    requires AllSpace(w1) && AllSpace(w2) && NoEdgeSpace(payload) && payload != [] && payload[0] != '`'
    requires !EndsWith(payload, "```")
    ensures StripFences(w1 + payload + w2) == payload
  {
    StripPadded(w1, payload, w2);
    NoOpener(payload);
    assert DropCloser(payload) == payload;
    assert Strip(payload) == payload;
  }

  /** Python's `float(v)` for a decoded value; a string goes to the conversion oracle. */
  function FloatOf(v: Value, toFloat: string -> Option<real>): (r: Result<real>)
    ensures r.Err? <==> v.Null? || v.Arr? || v.Obj? || (v.Str? && toFloat(v.s).None?)
    ensures r.Err? ==> (r.error.kind == ValueError <==> v.Str?) && (r.error.kind == TypeError <==> !v.Str?)
  {
    match v
    case Num(x) => Ok(x)
    case Bool(b) => Ok(if b then 1.0 else 0.0)
    case Str(s) =>
      if toFloat(s).Some? then Ok(toFloat(s).value)
      else Err(Exc(ValueError, "could not convert string to float: '" + s + "'"))
    case Null => Err(Exc(TypeError, "float() argument must be a string or a real number, not 'NoneType'"))
    case Arr(_) => Err(Exc(TypeError, "float() argument must be a string or a real number, not 'list'"))
    case Obj(_) => Err(Exc(TypeError, "float() argument must be a string or a real number, not 'dict'"))
  }

  /** `max(0, min(100, x))` */
  function Clamp(x: real): (r: real)
    ensures 0.0 <= r <= 100.0
    ensures 0.0 <= x <= 100.0 ==> r == x
    ensures x > 100.0 ==> r == 100.0
    ensures x < 0.0 ==> r == 0.0
  {
    var m := if x < 100.0 then x else 100.0;
    if m > 0.0 then m else 0.0
  }

  /** What leaves the parse when `float` fails: a TypeError becomes the
      RuntimeError that quotes the raw response, a ValueError escapes as it is. */
  function ParseFailure(e: Exc, responseText: string): Exc {
    if e.kind == TypeError then Exc(RuntimeError, PARSE_FAILURE_PREFIX + responseText) else e
  }

  /** A dictionary after `setdefault` of every default: each key of either, the
      dictionary's own value where it has one (null included) and the default otherwise. */
  function Backfill(fields: map<string, Value>, defaults: map<string, Value>): map<string, Value> {
    map k | k in fields.Keys + defaults.Keys :: if k in fields then fields[k] else defaults[k]
  }

  /** The `setdefault` loop over the default fields, visited in `order`. */
  method SetDefaults(fields: map<string, Value>, order: seq<string>, defaults: map<string, Value>)
    returns (result: map<string, Value>)
    requires forall j :: 0 <= j < |order| ==> order[j] in defaults
    requires forall k :: k in defaults ==> k in order
    ensures result == Backfill(fields, defaults)
  {
    result := fields;
    for i := 0 to |order|
      invariant forall k :: k in fields ==> k in result && result[k] == fields[k]
      invariant forall j :: 0 <= j < i ==> order[j] in result
      invariant forall k :: k in result && k !in fields ==> k in order[..i] && result[k] == defaults[k]
    {
      var field := order[i];
      if field !in result {
        result := result[field := defaults[field]];
      }
    }
    assert order[..|order|] == order;
  }

  /** One score's coercion and clamping. */
  function ScoreStep(m: map<string, Value>, key: string, responseText: string, toFloat: string -> Option<real>): Result<map<string, Value>>
    requires key in m
  {
    match FloatOf(m[key], toFloat)
    case Ok(x) => Ok(m[key := Num(Clamp(x))])
    case Err(e) => Err(ParseFailure(e, responseText))
  }

  /** The decoded object after the backfill and the error-analysis check. */
  function Repaired(fields: map<string, Value>): map<string, Value> {
    RequiredKeys();
    var filled := Backfill(fields, DEFAULT_FIELDS);
    if filled["error_analysis"].Obj? then filled else filled["error_analysis" := DEFAULT_ERROR_ANALYSIS]
  }

  /** What the backfill and the check leave in each field. */
  lemma RepairedFields(fields: map<string, Value>)
    ensures var m := Repaired(fields);
      m.Keys == fields.Keys + DEFAULT_FIELDS.Keys
      && "accuracy_score" in m && "semantic_similarity" in m
      && m["accuracy_score"] == (if "accuracy_score" in fields then fields["accuracy_score"] else Num(0.0))
      && m["semantic_similarity"] == (if "semantic_similarity" in fields then fields["semantic_similarity"] else Num(0.0))
      && m["error_analysis"] ==
           (if "error_analysis" in fields && fields["error_analysis"].Obj? then fields["error_analysis"] else DEFAULT_ERROR_ANALYSIS)
      && (forall k :: k in m && k != "error_analysis" ==> m[k] == if k in fields then fields[k] else DEFAULT_FIELDS[k])
  {
    RequiredKeys();
  }

  /** What `_parse_comparison_response` returns or raises, from what `json.loads`
      made of the cleaned text. */
  function ParseDecoded(decoded: Option<Value>, responseText: string, toFloat: string -> Option<real>): Result<map<string, Value>> {
    match decoded
    case None => Err(Exc(RuntimeError, PARSE_FAILURE_PREFIX + responseText))
    case Some(v) =>
      if !v.Obj? then Err(Exc(AttributeError, NoAttribute(v, "setdefault")))
      else
        var repaired := Repaired(v.fields);
        RepairedFields(v.fields);
        match ScoreStep(repaired, "accuracy_score", responseText, toFloat)
        case Err(e) => Err(e)
        case Ok(m) => ScoreStep(m, "semantic_similarity", responseText, toFloat)
  }

  /** What `_parse_comparison_response` returns or raises. */
  function ParseSpec(responseText: string, decode: string -> Option<Value>, toFloat: string -> Option<real>): Result<map<string, Value>> {
    ParseDecoded(decode(StripFences(responseText)), responseText, toFloat)
  }

  /** `_parse_comparison_response`: clean and decode the answer, then repair
      what was decoded. */
  method ParseComparisonResponse(responseText: string, decode: string -> Option<Value>, toFloat: string -> Option<real>)
    returns (r: Result<map<string, Value>>)
    ensures r == ParseSpec(responseText, decode, toFloat)
  {
    var decoded := decode(StripFences(responseText));
    r := RepairDecoded(decoded, responseText, toFloat);
  }

  /** The part of `_parse_comparison_response` after `json.loads`: fill in the
      missing fields one by one, replace a malformed error analysis, then coerce
      and clamp the two scores in place. */
  method RepairDecoded(decoded: Option<Value>, responseText: string, toFloat: string -> Option<real>)
    returns (r: Result<map<string, Value>>)
    ensures r == ParseDecoded(decoded, responseText, toFloat)
  {
    if decoded.None? {
      return Err(Exc(RuntimeError, PARSE_FAILURE_PREFIX + responseText));
    }
    if !decoded.value.Obj? {
      return Err(Exc(AttributeError, NoAttribute(decoded.value, "setdefault")));
    }
    RequiredOrderKeys();
    var result := SetDefaults(decoded.value.fields, REQUIRED_ORDER, DEFAULT_FIELDS);
    if !result["error_analysis"].Obj? {
      result := result["error_analysis" := DEFAULT_ERROR_ANALYSIS];
    }
    var accuracy := FloatOf(result["accuracy_score"], toFloat);
    if accuracy.Err? {
      return Err(ParseFailure(accuracy.error, responseText));
    }
    result := result["accuracy_score" := Num(Clamp(accuracy.value))];
    var similarity := FloatOf(result["semantic_similarity"], toFloat);
    if similarity.Err? {
      return Err(ParseFailure(similarity.error, responseText));
    }
    result := result["semantic_similarity" := Num(Clamp(similarity.value))];
    return Ok(result);
  }

  /** A response that does not decode is reported as RuntimeError whose message
      quotes the raw response. */
  lemma ParseDecodeFailure(responseText: string, decode: string -> Option<Value>, toFloat: string -> Option<real>)
    requires decode(StripFences(responseText)).None?
    ensures ParseSpec(responseText, decode, toFloat) == Err(Exc(RuntimeError, PARSE_FAILURE_PREFIX + responseText))
    ensures Contains(ParseSpec(responseText, decode, toFloat).error.message, responseText)
  {
    ContainsSuffix(PARSE_FAILURE_PREFIX, responseText);
  }

  /** A decoded value that is not an object fails at `setdefault` with AttributeError. */
  lemma ParseNonObject(responseText: string, decode: string -> Option<Value>, toFloat: string -> Option<real>)
    requires decode(StripFences(responseText)).Some? && !decode(StripFences(responseText)).value.Obj?
    ensures ParseSpec(responseText, decode, toFloat)
         == Err(Exc(AttributeError, NoAttribute(decode(StripFences(responseText)).value, "setdefault")))
  {
  }

  /** A score that `float` accepts: absent (its default is 0.0) or convertible. */
  predicate ScoreCoercible(fields: map<string, Value>, key: string, toFloat: string -> Option<real>) {
    key !in fields || FloatOf(fields[key], toFloat).Ok?
  }

  /** The parse of a decoded object in terms of the repaired dictionary: it
      succeeds when both scores convert, and then holds them clamped; otherwise
      it reports the first score that fails. */
  lemma ParsedFromRepaired(fields: map<string, Value>, responseText: string, toFloat: string -> Option<real>)
    ensures var m := Repaired(fields);
      var r := ParseDecoded(Some(Obj(fields)), responseText, toFloat);
      "accuracy_score" in m && "semantic_similarity" in m
      && (r.Ok? <==> FloatOf(m["accuracy_score"], toFloat).Ok? && FloatOf(m["semantic_similarity"], toFloat).Ok?)
      && (r.Ok? ==> r.value == m["accuracy_score" := Num(Clamp(FloatOf(m["accuracy_score"], toFloat).value))]
                                 ["semantic_similarity" := Num(Clamp(FloatOf(m["semantic_similarity"], toFloat).value))])
      && (FloatOf(m["accuracy_score"], toFloat).Err? ==>
            r == Err(ParseFailure(FloatOf(m["accuracy_score"], toFloat).error, responseText)))
      && (FloatOf(m["accuracy_score"], toFloat).Ok? && FloatOf(m["semantic_similarity"], toFloat).Err? ==>
            r == Err(ParseFailure(FloatOf(m["semantic_similarity"], toFloat).error, responseText)))
  {
    RepairedFields(fields);
    var m := Repaired(fields);
    var a := ScoreStep(m, "accuracy_score", responseText, toFloat);
    if a.Ok? {
      assert a.value["semantic_similarity"] == m["semantic_similarity"];
    }
  }

  /** The backfill: after a successful parse the keys are the decoded ones plus
      the seven required ones; a missing field has its default; a field that was
      present keeps its value, null included, except that a non-object error
      analysis is replaced and the scores are coerced. */
  lemma ParseBackfill(fields: map<string, Value>, responseText: string, toFloat: string -> Option<real>)
    ensures var r := ParseDecoded(Some(Obj(fields)), responseText, toFloat);
      r.Ok? ==>
        r.value.Keys == fields.Keys + DEFAULT_FIELDS.Keys
        && (forall k :: k in DEFAULT_FIELDS && k !in fields ==> r.value[k] == DEFAULT_FIELDS[k])
        && (forall k :: k in fields && k != "error_analysis" && k != "accuracy_score" && k != "semantic_similarity" ==>
              r.value[k] == fields[k])
        && r.value["error_analysis"] ==
             if "error_analysis" in fields && fields["error_analysis"].Obj? then fields["error_analysis"] else DEFAULT_ERROR_ANALYSIS
  {
    BackfillDefaults(fields, responseText, toFloat);
    BackfillKept(fields, responseText, toFloat);
  }

  lemma BackfillDefaults(fields: map<string, Value>, responseText: string, toFloat: string -> Option<real>)
    ensures var r := ParseDecoded(Some(Obj(fields)), responseText, toFloat);
      r.Ok? ==>
        r.value.Keys == fields.Keys + DEFAULT_FIELDS.Keys
        && (forall k :: k in DEFAULT_FIELDS && k !in fields ==> r.value[k] == DEFAULT_FIELDS[k])
  {
    ParsedFromRepaired(fields, responseText, toFloat);
    RepairedFields(fields);
  }

  lemma BackfillKept(fields: map<string, Value>, responseText: string, toFloat: string -> Option<real>)
    ensures var r := ParseDecoded(Some(Obj(fields)), responseText, toFloat);
      r.Ok? ==>
        (forall k :: k in fields && k != "error_analysis" && k != "accuracy_score" && k != "semantic_similarity" ==>
           k in r.value && r.value[k] == fields[k])
        && "error_analysis" in r.value
        && r.value["error_analysis"] ==
             if "error_analysis" in fields && fields["error_analysis"].Obj? then fields["error_analysis"] else DEFAULT_ERROR_ANALYSIS
  {
    ParsedFromRepaired(fields, responseText, toFloat);
    RepairedFields(fields);
  }

  /** The parse of a decoded object succeeds exactly when both scores can be converted. */
  lemma ParseSucceedsOnScores(fields: map<string, Value>, responseText: string, toFloat: string -> Option<real>)
    ensures ParseDecoded(Some(Obj(fields)), responseText, toFloat).Ok? <==>
      ScoreCoercible(fields, "accuracy_score", toFloat) && ScoreCoercible(fields, "semantic_similarity", toFloat)
  {
    ParsedFromRepaired(fields, responseText, toFloat);
    RepairedFields(fields);
  }

  /** After a successful parse both scores lie in [0, 100], and a score that
      was already a number in range is kept as it is. */
  lemma ParseScoresInRange(fields: map<string, Value>, responseText: string, toFloat: string -> Option<real>)
    ensures var r := ParseDecoded(Some(Obj(fields)), responseText, toFloat);
      r.Ok? ==> forall key :: key == "accuracy_score" || key == "semantic_similarity" ==>
        key in r.value && r.value[key].Num? && 0.0 <= r.value[key].n <= 100.0
        && (key in fields && fields[key].Num? && 0.0 <= fields[key].n <= 100.0 ==> r.value[key] == fields[key])
  {
    ParsedFromRepaired(fields, responseText, toFloat);
    RepairedFields(fields);
  }

  /** A score that cannot be converted gives the RuntimeError quoting the
      response, unless it is a string, whose ValueError escapes the parse; the
      accuracy is converted first, so its failure decides. */
  lemma ParseScoreErrors(fields: map<string, Value>, responseText: string, toFloat: string -> Option<real>)
    ensures var r := ParseDecoded(Some(Obj(fields)), responseText, toFloat);
      r.Err? ==> r.error == Exc(RuntimeError, PARSE_FAILURE_PREFIX + responseText) || r.error.kind == ValueError
    ensures var r := ParseDecoded(Some(Obj(fields)), responseText, toFloat);
      var m := Repaired(fields);
      "accuracy_score" in m && "semantic_similarity" in m
      && (var a := m["accuracy_score"];
          && (a.Str? && toFloat(a.s).None? ==> r.Err? && r.error.kind == ValueError)
          && (a.Null? || a.Arr? || a.Obj? ==> r == Err(Exc(RuntimeError, PARSE_FAILURE_PREFIX + responseText)))
          && (var s := m["semantic_similarity"];
              FloatOf(a, toFloat).Ok? ==>
                && (s.Str? && toFloat(s.s).None? ==> r.Err? && r.error.kind == ValueError)
                && (s.Null? || s.Arr? || s.Obj? ==> r == Err(Exc(RuntimeError, PARSE_FAILURE_PREFIX + responseText)))))
  {
    ParsedFromRepaired(fields, responseText, toFloat);
    RepairedFields(fields);
  }

  /** `setdefault` does not touch a key that is present with value null: such a
      text field stays null, and such a score makes the parse fail. */
  lemma NullIsNotBackfilled(fields: map<string, Value>, responseText: string, toFloat: string -> Option<real>)
    ensures var r := ParseDecoded(Some(Obj(fields)), responseText, toFloat);
      ("summary" in fields && fields["summary"] == Null && r.Ok? ==> r.value["summary"] == Null)
      && ("accuracy_score" in fields && fields["accuracy_score"] == Null ==>
            r == Err(Exc(RuntimeError, PARSE_FAILURE_PREFIX + responseText)))
  {
    ParseBackfill(fields, responseText, toFloat);
    ParsedFromRepaired(fields, responseText, toFloat);
    RepairedFields(fields);
  }

  // ---------------------------------------------------------------------------
  // compare_text_accuracy

  const EMPTY_TRANSCRIPT_MESSAGE := "轉錄文字不能為空"
  const EMPTY_REFERENCE_MESSAGE := "標準文本不能為空"
  const ANALYSIS_FAILURE_PREFIX := "AI 分析過程發生錯誤: "

  /** What the comparison prompt is built from: the two normalised texts. */
  datatype Prompt = Prompt(reference: string, transcribed: string)

  /** The chat backend: for each prompt, what it does at each attempt. */
  type ChatBackend = Prompt -> ChatAttempts

  /** `except (APIError, RuntimeError, ValueError)` around the analysis. */
  function CompareFailure(e: Exc): Exc {
    if e.kind == APIError || IsA(e.kind, RuntimeError) || IsA(e.kind, ValueError)
    then Exc(RuntimeError, ANALYSIS_FAILURE_PREFIX + e.message)
    else e
  }

  /** What the analysis makes of the backend's answer: a call failure or a
      parse failure is passed to the handler, a parsed answer is returned. */
  function AnalyzeResponse(response: Result<string>, decode: string -> Option<Value>, toFloat: string -> Option<real>)
    : Result<map<string, Value>>
  {
    match response
    case Err(e) => Err(CompareFailure(e))
    case Ok(text) =>
      var parsed := ParseSpec(text, decode, toFloat);
      if parsed.Err? then Err(CompareFailure(parsed.error)) else parsed
  }

  /** What `LLMService.compare_text_accuracy` returns or raises. */
  function CompareSpec(transcribed: string, reference: string, cfg: EvaluationConfig, chat: ChatBackend,
                       decode: string -> Option<Value>, toFloat: string -> Option<real>): Result<map<string, Value>>
  {
    if Strip(transcribed) == "" then Err(Exc(ValueError, EMPTY_TRANSCRIPT_MESSAGE))
    else if Strip(reference) == "" then Err(Exc(ValueError, EMPTY_REFERENCE_MESSAGE))
    else
      var prompt := Prompt(NormalizeText(Some(reference), cfg), NormalizeText(Some(transcribed), cfg));
      AnalyzeResponse(CallOpenAiApi(chat(prompt), 0), decode, toFloat)
  }

  /** `LLMService.compare_text_accuracy`: reject blank texts, then normalise both,
      ask the backend and parse its answer; the failures it catches are re-raised
      as RuntimeError. */
  method CompareTextAccuracy(transcribed: string, reference: string, cfg: EvaluationConfig, chat: ChatBackend,
                             decode: string -> Option<Value>, toFloat: string -> Option<real>)
    returns (r: Result<map<string, Value>>)
    ensures r == CompareSpec(transcribed, reference, cfg, chat, decode, toFloat)
  {
    if Strip(transcribed) == "" {
      return Err(Exc(ValueError, EMPTY_TRANSCRIPT_MESSAGE));
    }
    if Strip(reference) == "" {
      return Err(Exc(ValueError, EMPTY_REFERENCE_MESSAGE));
    }
    var normTranscribed := NormalizeText(Some(transcribed), cfg);
    var normReference := NormalizeText(Some(reference), cfg);
    var response := CallOpenAiApi(chat(Prompt(normReference, normTranscribed)), 0);
    if response.Err? {
      return Err(CompareFailure(response.error));
    }
    r := ParseComparisonResponse(response.value, decode, toFloat);
    if r.Err? {
      r := Err(CompareFailure(r.error));
    }
  }

  /** A blank transcript or reference is rejected with ValueError before any
      backend is consulted: the outcome is the same whatever the backends do. */
  lemma CompareRejectsBlank(transcribed: string, reference: string, cfg: EvaluationConfig,
                            chat1: ChatBackend, decode1: string -> Option<Value>, toFloat1: string -> Option<real>,
                            chat2: ChatBackend, decode2: string -> Option<Value>, toFloat2: string -> Option<real>)
    requires AllSpace(transcribed) || AllSpace(reference)
    ensures CompareSpec(transcribed, reference, cfg, chat1, decode1, toFloat1).Raises(ValueError)
    ensures CompareSpec(transcribed, reference, cfg, chat1, decode1, toFloat1)
         == CompareSpec(transcribed, reference, cfg, chat2, decode2, toFloat2)
  {
  }

  /** Only the normalised texts reach the backend: texts that normalise alike
      are compared alike. */
  lemma CompareSeesNormalizedText(t1: string, r1: string, t2: string, r2: string, cfg: EvaluationConfig,
                                  chat: ChatBackend, decode: string -> Option<Value>, toFloat: string -> Option<real>)
    requires !AllSpace(t1) && !AllSpace(r1) && !AllSpace(t2) && !AllSpace(r2)
    requires NormalizeText(Some(t1), cfg) == NormalizeText(Some(t2), cfg)
    requires NormalizeText(Some(r1), cfg) == NormalizeText(Some(r2), cfg)
    ensures CompareSpec(t1, r1, cfg, chat, decode, toFloat) == CompareSpec(t2, r2, cfg, chat, decode, toFloat)
  {
  }

  /** A successful comparison has every required field and both scores in [0, 100]. */
  lemma CompareResultShape(transcribed: string, reference: string, cfg: EvaluationConfig, chat: ChatBackend,
                           decode: string -> Option<Value>, toFloat: string -> Option<real>)
    ensures var r := CompareSpec(transcribed, reference, cfg, chat, decode, toFloat);
      r.Ok? ==>
        DEFAULT_FIELDS.Keys <= r.value.Keys
        && r.value["accuracy_score"].Num? && 0.0 <= r.value["accuracy_score"].n <= 100.0
        && r.value["semantic_similarity"].Num? && 0.0 <= r.value["semantic_similarity"].n <= 100.0
  {
    if Strip(transcribed) != "" && Strip(reference) != "" {
      var prompt := Prompt(NormalizeText(Some(reference), cfg), NormalizeText(Some(transcribed), cfg));
      AnalyzedShape(CallOpenAiApi(chat(prompt), 0), decode, toFloat);
    }
  }

  lemma AnalyzedShape(response: Result<string>, decode: string -> Option<Value>, toFloat: string -> Option<real>)
    ensures var r := AnalyzeResponse(response, decode, toFloat);
      r.Ok? ==>
        DEFAULT_FIELDS.Keys <= r.value.Keys
        && r.value["accuracy_score"].Num? && 0.0 <= r.value["accuracy_score"].n <= 100.0
        && r.value["semantic_similarity"].Num? && 0.0 <= r.value["semantic_similarity"].n <= 100.0
  {
    if response.Ok? {
      var decoded := decode(StripFences(response.value));
      if decoded.Some? && decoded.value.Obj? {
        ParseBackfill(decoded.value.fields, response.value, toFloat);
        ParseScoresInRange(decoded.value.fields, response.value, toFloat);
      }
    }
  }

  /** Past the blank checks, what escapes is RuntimeError or an exception the
      analysis does not catch (never APIError or ValueError). */
  lemma CompareErrorKinds(transcribed: string, reference: string, cfg: EvaluationConfig, chat: ChatBackend,
                          decode: string -> Option<Value>, toFloat: string -> Option<real>)
    requires !AllSpace(transcribed) && !AllSpace(reference)
    ensures var r := CompareSpec(transcribed, reference, cfg, chat, decode, toFloat);
      r.Err? ==> r.error.kind == RuntimeError || (r.error.kind != APIError && !IsA(r.error.kind, ValueError))
    ensures var r := CompareSpec(transcribed, reference, cfg, chat, decode, toFloat);
      r.Err? && r.error.kind == RuntimeError ==> StartsWith(r.error.message, ANALYSIS_FAILURE_PREFIX)
  {
    var p := Prompt(NormalizeText(Some(reference), cfg), NormalizeText(Some(transcribed), cfg));
    var response := CallOpenAiApi(chat(p), 0);
    if response.Err? {
      CompareFailureKind(response.error);
    } else {
      var parsed := ParseSpec(response.value, decode, toFloat);
      if parsed.Err? {
        CompareFailureKind(parsed.error);
      }
    }
  }

  lemma CompareFailureKind(e: Exc)
    ensures CompareFailure(e).kind == RuntimeError || (CompareFailure(e).kind != APIError && !IsA(CompareFailure(e).kind, ValueError))
    ensures CompareFailure(e).kind == RuntimeError ==> StartsWith(CompareFailure(e).message, ANALYSIS_FAILURE_PREFIX)
  {
    if CompareFailure(e).kind == RuntimeError {
      assert (ANALYSIS_FAILURE_PREFIX + e.message)[..|ANALYSIS_FAILURE_PREFIX|] == ANALYSIS_FAILURE_PREFIX;
    }
  }

  /** When all three attempts raise APIError, the comparison fails with the
      retry failure wrapped in the analysis failure. */
  lemma CompareRetriesExhausted(transcribed: string, reference: string, cfg: EvaluationConfig, chat: ChatBackend,
                                decode: string -> Option<Value>, toFloat: string -> Option<real>)
    requires !AllSpace(transcribed) && !AllSpace(reference)
    requires var p := Prompt(NormalizeText(Some(reference), cfg), NormalizeText(Some(transcribed), cfg));
      IsApiError(chat(p)(0)) && IsApiError(chat(p)(1)) && IsApiError(chat(p)(2))
    ensures CompareSpec(transcribed, reference, cfg, chat, decode, toFloat)
         == Err(Exc(RuntimeError, ANALYSIS_FAILURE_PREFIX + API_FAILURE_MESSAGE))
  {
    var p := Prompt(NormalizeText(Some(reference), cfg), NormalizeText(Some(transcribed), cfg));
    RetryOutcome(chat(p));
  }

  /** A well-formed answer that decodes to something other than an object makes
      the comparison raise AttributeError, which nothing on the way catches. */
  lemma CompareNonObjectEscapes(transcribed: string, reference: string, cfg: EvaluationConfig, chat: ChatBackend,
                                decode: string -> Option<Value>, toFloat: string -> Option<real>, content: string)
    requires !AllSpace(transcribed) && !AllSpace(reference)
    requires chat(Prompt(NormalizeText(Some(reference), cfg), NormalizeText(Some(transcribed), cfg)))(0) == Replied(Some(content))
    requires decode(StripFences(Strip(content))).Some? && !decode(StripFences(Strip(content))).value.Obj?
    ensures CompareSpec(transcribed, reference, cfg, chat, decode, toFloat).Raises(AttributeError)
  {
    var p := Prompt(NormalizeText(Some(reference), cfg), NormalizeText(Some(transcribed), cfg));
    RetryOutcome(chat(p));
    NonObjectAnalysis(Strip(content), decode, toFloat);
  }

  lemma NonObjectAnalysis(text: string, decode: string -> Option<Value>, toFloat: string -> Option<real>)
    requires decode(StripFences(text)).Some? && !decode(StripFences(text)).value.Obj?
    ensures AnalyzeResponse(Ok(text), decode, toFloat)
         == Err(Exc(AttributeError, NoAttribute(decode(StripFences(text)).value, "setdefault")))
  {
    ParseNonObject(text, decode, toFloat);
    AttributeErrorPassesThrough(NoAttribute(decode(StripFences(text)).value, "setdefault"));
  }

  /** The analysis' handler does not catch AttributeError. */
  lemma AttributeErrorPassesThrough(message: string)
    ensures CompareFailure(Exc(AttributeError, message)) == Exc(AttributeError, message)
  {
  }
}
