/** The message importance scorer: a total map from an event to a score in
    [0, 1], built from a type-based base score, a keyword-driven content
    score scaled by a length factor, and a recency bonus; and a separate
    task-relevance score from keyword overlap. Scores are exact reals. */
module ImportanceScorer {
  import opened Results
  import opened Text
  import opened Events

  const ERROR_KEYWORDS: seq<string> :=
    ["error", "failed", "exception", "traceback", "stderr",
     "错误", "失败", "异常", "报错", "timeout", "denied"]

  const SUCCESS_KEYWORDS: seq<string> :=
    ["success", "completed", "finished", "done", "passed",
     "成功", "完成", "通过", "ok", "created", "updated"]

  const USER_INSTRUCTION_KEYWORDS: seq<string> :=
    ["please", "can you", "help me", "i need", "create", "fix", "update",
     "请", "帮我", "需要", "创建", "修复", "更新", "添加", "删除"]

  const IMPORTANT_OPERATION_KEYWORDS: seq<string> :=
    ["commit", "push", "merge", "deploy", "install", "build", "test",
     "git", "npm", "pip", "docker", "提交", "部署", "安装", "构建", "测试"]

  const STOP_WORDS: set<string> :=
    {"the", "and", "for", "are", "but", "not", "you", "all", "can", "had",
     "was", "one", "our", "out", "use"}

  // ---------------------------------------------------------------------
  // Base score by event type

  /** The base score: user or message events first, then errors, then
      actions by their sub-kind, then observations, then everything else. */
  function BaseScore(e: Event): (r: real)
    ensures 0.1 <= r <= 0.4
    ensures Contains(e.typeName, "User") || Contains(e.typeName, "Message") ==> r == 0.4
    ensures r == 0.1 <==>
      IsObservation(e) && !ContainsAny(e.typeName, ["User", "Message", "Error", "Exception"])
  {
    var t := e.typeName;
    if Contains(t, "User") || Contains(t, "Message") then 0.4
    else if Contains(t, "Error") || Contains(t, "Exception") then 0.3
    else if e.kind == ActionKind then
      var a := Lower(t);
      if ContainsAny(a, ["cmd", "run", "execute"]) then 0.25
      else if ContainsAny(a, ["edit", "create", "write"]) then 0.3
      else if ContainsAny(a, ["browse", "search"]) then 0.15
      else 0.2
    else if IsObservation(e) then 0.1
    else 0.15
  }

  // ---------------------------------------------------------------------
  // Content extraction

  /** What text extraction yields: a string, or a non-string object (the
      `text` of a non-string `content`), recorded by its truthiness. */
  datatype Extracted = Text(s: string) | NonText(truthy: bool)

  /** The event has a string `content`, or a `content` with a `text` attribute. */
  predicate HasContentText(e: Event) {
    e.content.ContentString? || (e.content.ContentObject? && !e.content.text.NoText?)
  }

  /** The first of: a string `content`, `content.text`, `message`,
      `thought`, `command`, and finally `str(event)`. */
  function ExtractContent(e: Event): (r: Extracted)
    ensures e.content.ContentString? ==> r == Text(e.content.s)
    ensures e.content.ContentObject? && e.content.text.TextString? ==> r == Text(e.content.text.text)
    ensures r.NonText? <==> e.content.ContentObject? && e.content.text.TextObject?
    ensures r.NonText? ==> r.truthy == e.content.text.truthy
    ensures !HasContentText(e) && e.message.Some? ==> r == Text(e.message.value)
    ensures !HasContentText(e) && e.message.None? && e.thought.Some? ==> r == Text(e.thought.value)
    ensures !HasContentText(e) && e.message.None? && e.thought.None? && e.command.Some?
            ==> r == Text(e.command.value)
    ensures !HasContentText(e) && e.message.None? && e.thought.None? && e.command.None?
            ==> r == Text(e.rendering)
  {
    match e.content
    case ContentString(s) => Text(s)
    case ContentObject(TextString(t)) => Text(t)
    case ContentObject(TextObject(b)) => NonText(b)
    case _ =>
      if e.message.Some? then Text(e.message.value)
      else if e.thought.Some? then Text(e.thought.value)
      else if e.command.Some? then Text(e.command.value)
      else Text(e.rendering)
  }

  // ---------------------------------------------------------------------
  // Content score

  /** `re.search(r'\d+', s)`. */
  predicate HasNumber(s: string) {
    exists i :: 0 <= i < |s| && IsDigit(s[i])
  }

  predicate IsPathLead(c: char) {
    c == '.' || c == '/' || c == '\\'
  }

  predicate IsPathChar(c: char) {
    IsWordChar(c) || c == '/' || c == '\\' || c == '.' || c == '-'
  }

  /** `re.search(r'[./\\][\w/\\.-]+\.\w+', s)`: a lead character at `i`, at
      least one path character, a dot at `j`, and a word character after it. */
  predicate HasPathToken(s: string) {
    exists i, j :: 0 <= i && i + 1 < j && j + 1 < |s| && IsPathLead(s[i]) && s[j] == '.'
      && IsWordChar(s[j + 1]) && PathCharsBetween(s, i, j)
  }

  predicate PathCharsBetween(s: string, i: int, j: int)
    requires 0 <= i < j <= |s|
  {
    forall k :: i < k < j ==> IsPathChar(s[k])
  }

  /** The once-each keyword bonuses over non-empty content. */
  function KeywordBonus(s: string): (b: real)
    ensures 0.0 <= b <= 1.25
    ensures b == 0.0 <==> !HasAnyCue(s)
  {
    var lower := Lower(s);
    CueSum(ContainsAny(lower, ERROR_KEYWORDS), ContainsAny(lower, SUCCESS_KEYWORDS),
           ContainsAny(lower, USER_INSTRUCTION_KEYWORDS),
           ContainsAny(lower, IMPORTANT_OPERATION_KEYWORDS), HasNumber(s) || HasPathToken(s))
  }

  /** Some keyword list matches the lowered text, or it holds a number or path. */
  predicate HasAnyCue(s: string) {
    var lower := Lower(s);
    ContainsAny(lower, ERROR_KEYWORDS) || ContainsAny(lower, SUCCESS_KEYWORDS)
    || ContainsAny(lower, USER_INSTRUCTION_KEYWORDS)
    || ContainsAny(lower, IMPORTANT_OPERATION_KEYWORDS) || HasNumber(s) || HasPathToken(s)
  }

  /** The five bonuses added up: 0.3, 0.2, 0.4, 0.25 and 0.1. */
  function CueSum(error: bool, success: bool, instruction: bool, operation: bool, numeric: bool): (b: real)
    ensures 0.0 <= b <= 1.25
    ensures b == 0.0 <==> !(error || success || instruction || operation || numeric)
  {
    (if error then 0.3 else 0.0) + (if success then 0.2 else 0.0)
    + (if instruction then 0.4 else 0.0) + (if operation then 0.25 else 0.0)
    + (if numeric then 0.1 else 0.0)
  }

  /** The length factor: a step function that penalises stubs and log dumps. */
  function LengthFactor(length: nat): (f: real)
    ensures 0.5 <= f <= 1.0
    ensures f == 1.0 <==> 50 <= length < 500
    ensures f == 0.5 <==> length < 10
  {
    if length < 10 then 0.5
    else if length < 50 then 0.8
    else if length < 500 then 1.0
    else if length < 2000 then 0.9
    else 0.6
  }

  /** A keyword bonus scaled by the length factor of the content. */
  function Scaled(bonus: real, length: nat): (r: real)
    requires 0.0 <= bonus <= 1.25
    ensures 0.0 <= r <= bonus
    ensures r == 0.0 <==> bonus == 0.0
  {
    var f := LengthFactor(length);
    assert f == 0.5 || f == 0.8 || f == 1.0 || f == 0.9 || f == 0.6;
    bonus * f
  }

  /** The score of textual content: the keyword bonus scaled by length,
      capped at 0.5; empty text scores 0. */
  function TextScore(s: string): (r: real)
    ensures 0.0 <= r <= 0.5
  {
    if s == "" then 0.0
    else
      var scaled := Scaled(KeywordBonus(s), |s|);
      if scaled <= 0.5 then scaled else 0.5
  }

  /** The content score, `None` when `.lower()` is applied to a non-string
      (the exception that `ScoreEvent` turns into 0.5). */
  function ContentScore(e: Event): (r: Option<real>)
    ensures r.None? <==> ExtractContent(e) == NonText(true)
    ensures r.Some? ==> 0.0 <= r.value <= 0.5
    ensures ExtractContent(e) == Text("") ==> r == Some(0.0)
  {
    match ExtractContent(e)
    case NonText(truthy) => if truthy then None else Some(0.0)
    case Text(s) => Some(TextScore(s))
  }

  /** Content without any keyword, number or path scores 0 however long it is. */
  lemma ContentScoreZeroWithoutCues(e: Event, s: string)
    requires ExtractContent(e) == Text(s)
    requires !ContainsAny(Lower(s), ERROR_KEYWORDS) && !ContainsAny(Lower(s), SUCCESS_KEYWORDS)
    requires !ContainsAny(Lower(s), USER_INSTRUCTION_KEYWORDS)
    requires !ContainsAny(Lower(s), IMPORTANT_OPERATION_KEYWORDS)
    requires !HasNumber(s) && !HasPathToken(s)
    ensures ContentScore(e) == Some(0.0)
  {
  }

  // ---------------------------------------------------------------------
  // Recency

  /** The recency bonus: 0.1 under an hour old (future dates included),
      0.05 under a day old, otherwise and without a usable date 0. */
  function TemporalWeight(stamp: Stamp): (w: real)
    ensures 0.0 <= w <= 0.1
    ensures !stamp.AgeSeconds? ==> w == 0.0
    ensures stamp.AgeSeconds? ==> (w == 0.1 <==> stamp.age < 3600.0)
    ensures stamp.AgeSeconds? ==> (w == 0.0 <==> stamp.age >= 86400.0)
  {
    match stamp
    case AgeSeconds(age) =>
      if age < 3600.0 then 0.1 else if age < 86400.0 then 0.05 else 0.0
    case _ => 0.0
  }

  /** The bonus never grows as an event ages. */
  lemma TemporalWeightAntitone(younger: real, older: real)
    requires younger <= older
    ensures TemporalWeight(AgeSeconds(younger)) >= TemporalWeight(AgeSeconds(older))
  {
  }

  // ---------------------------------------------------------------------
  // The score

  /** `score_event`: base + content + recency capped at 1, or 0.5 when
      scoring raises. Always in [0, 1]. */
  function ScoreEvent(e: Event): (r: real)
    ensures 0.0 <= r <= 1.0
    ensures ContentScore(e).None? ==> r == 0.5
    ensures r >= 0.1 || ContentScore(e).None?
  {
    match ContentScore(e)
    case None => 0.5
    case Some(c) => MinReal(1.0, BaseScore(e) + c + TemporalWeight(e.stamp))
  }

  /** The cap at 1 never cuts anything off: the three parts add up to at
      most 0.4 + 0.5 + 0.1. */
  lemma ScoreIsSumOfParts(e: Event)
    requires ContentScore(e).Some?
    ensures ScoreEvent(e) == BaseScore(e) + ContentScore(e).value + TemporalWeight(e.stamp)
  {
  }

  /** Of two events that differ only in age, the younger never scores lower. */
  lemma ScoreAntitoneInAge(e: Event, younger: real, older: real)
    requires younger <= older
    ensures ScoreEvent(e.(stamp := AgeSeconds(younger))) >= ScoreEvent(e.(stamp := AgeSeconds(older)))
  {
    var y, o := e.(stamp := AgeSeconds(younger)), e.(stamp := AgeSeconds(older));
    assert ExtractContent(y) == ExtractContent(o) == ExtractContent(e);
    assert BaseScore(y) == BaseScore(o);
    TemporalWeightAntitone(younger, older);
  }

  // ---------------------------------------------------------------------
  // Keywords and task relevance

  /** Length of the run of word characters at the start of `s`. */
  function WordRunLength(s: string): (n: nat)
    ensures n <= |s|
    ensures forall k :: 0 <= k < n ==> IsWordChar(s[k])
    ensures n == |s| || !IsWordChar(s[n])
  {
    if |s| == 0 || !IsWordChar(s[0]) then 0 else 1 + WordRunLength(s[1..])
  }

  /** The maximal runs of word characters of `s`, in order. */
  function WordRuns(s: string): (runs: seq<string>)
    decreases |s|
  {
    if |s| == 0 then []
    else if !IsWordChar(s[0]) then WordRuns(s[1..])
    else
      var n := WordRunLength(s);
      [s[..n]] + WordRuns(s[n..])
  }

  /** Word runs of at least three characters that are not stop words, in
      order, duplicates kept. */
  function KeepKeywords(runs: seq<string>): seq<string> {
    if |runs| == 0 then []
    else if |runs[0]| >= 3 && runs[0] !in STOP_WORDS then [runs[0]] + KeepKeywords(runs[1..])
    else KeepKeywords(runs[1..])
  }

  /** `_extract_keywords`: the matches of `\b\w{3,}\b` minus the stop words. */
  function ExtractKeywords(text: string): (kws: seq<string>)
    ensures forall k :: 0 <= k < |kws| ==>
      |kws[k]| >= 3 && kws[k] !in STOP_WORDS && Contains(text, kws[k])
      && forall c :: 0 <= c < |kws[k]| ==> IsWordChar(kws[k][c])
  {
    WordRunsAreWordSubstrings(text);
    KeepKeywordsSubset(WordRuns(text));
    KeepKeywords(WordRuns(text))
  }

  lemma {:induction false} WordRunsAreWordSubstrings(s: string)
    ensures forall k :: 0 <= k < |WordRuns(s)| ==>
      |WordRuns(s)[k]| > 0 && Contains(s, WordRuns(s)[k])
      && forall c :: 0 <= c < |WordRuns(s)[k]| ==> IsWordChar(WordRuns(s)[k][c])
    decreases |s|
  {
    if |s| > 0 {
      if !IsWordChar(s[0]) {
        WordRunsAreWordSubstrings(s[1..]);
        assert OccursAt(s, s[1..], 1);
        ContainsAt(s, s[1..], 1);
        assert WordRuns(s) == WordRuns(s[1..]);
        forall k | 0 <= k < |WordRuns(s)| ensures Contains(s, WordRuns(s)[k]) {
          assert Contains(s[1..], WordRuns(s[1..])[k]);
          ContainsTransitive(s, s[1..], WordRuns(s[1..])[k]);
        }
      } else {
        var n := WordRunLength(s);
        var rest := WordRuns(s[n..]);
        WordRunsAreWordSubstrings(s[n..]);
        assert OccursAt(s, s[n..], n);
        ContainsAt(s, s[n..], n);
        assert OccursAt(s, s[..n], 0);
        ContainsAt(s, s[..n], 0);
        assert WordRuns(s) == [s[..n]] + rest;
        forall k | 1 <= k < |WordRuns(s)| ensures Contains(s, WordRuns(s)[k]) {
          assert WordRuns(s)[k] == rest[k - 1];
          ContainsTransitive(s, s[n..], rest[k - 1]);
        }
      }
    }
  }

  lemma {:induction false} KeepKeywordsSubset(runs: seq<string>)
    ensures forall k :: 0 <= k < |KeepKeywords(runs)| ==>
      KeepKeywords(runs)[k] in runs && |KeepKeywords(runs)[k]| >= 3
      && KeepKeywords(runs)[k] !in STOP_WORDS
  {
    if |runs| > 0 {
      KeepKeywordsSubset(runs[1..]);
    }
  }

  /** A maximal run of word characters starts at `i`: the character there
      is a word character and the one before it, if any, is not. */
  predicate RunStart(s: string, i: int) {
    0 <= i < |s| && IsWordChar(s[i]) && (i == 0 || !IsWordChar(s[i - 1]))
  }

  /** The run of word characters starting at `i`. */
  function RunAt(s: string, i: nat): string
    requires i <= |s|
  {
    s[i..i + WordRunLength(s[i..])]
  }

  /** `s[d..]` does not begin in the middle of a run of `s`. */
  predicate CleanCut(s: string, d: nat)
    requires 0 < d <= |s|
  {
    d == |s| || !IsWordChar(s[d]) || !IsWordChar(s[d - 1])
  }

  /** Runs and run starts of a suffix cut cleanly at `d` are those of `s`,
      `d` places further on. */
  lemma ShiftRun(s: string, d: nat, j: nat)
    requires 0 < d && d + j <= |s| && CleanCut(s, d)
    ensures RunAt(s[d..], j) == RunAt(s, d + j)
    ensures RunStart(s[d..], j) <==> RunStart(s, d + j)
  {
    assert s[d..][j..] == s[d + j..];
  }

  /** How far one step of `WordRuns` advances: a whole run or one separator. */
  function StepLength(s: string): (d: nat)
    requires 0 < |s|
    ensures 0 < d <= |s| && CleanCut(s, d)
    ensures IsWordChar(s[0]) ==> RunAt(s, 0) == s[..d]
    ensures !IsWordChar(s[0]) ==> d == 1
    ensures forall i :: 0 < i < d ==> !RunStart(s, i)
  {
    if IsWordChar(s[0]) then WordRunLength(s) else 1
  }

  /** One step of `WordRuns`: the leading run, if any, then the runs of the rest. */
  lemma WordRunsStep(s: string)
    requires 0 < |s|
    ensures WordRuns(s) == (if IsWordChar(s[0]) then [s[..StepLength(s)]] else []) + WordRuns(s[StepLength(s)..])
  {
  }

  /** Every maximal run of word characters is listed by `WordRuns`. */
  lemma {:induction false} RunsListed(s: string, i: nat)
    requires RunStart(s, i)
    ensures RunAt(s, i) in WordRuns(s)
    decreases |s|
  {
    var d := StepLength(s);
    WordRunsStep(s);
    if i == 0 {
      assert RunAt(s, 0) in WordRuns(s)[..1];
    } else {
      ShiftRun(s, d, i - d);
      RunsListed(s[d..], i - d);
      assert WordRuns(s[d..]) == WordRuns(s)[|WordRuns(s)| - |WordRuns(s[d..])|..];
    }
  }

  /** `KeepKeywords` keeps every run of at least three characters that is
      not a stop word, as often as it occurs, and drops every other run. */
  lemma {:induction false} KeepKeywordsCounts(runs: seq<string>)
    ensures forall w ::
      multiset(KeepKeywords(runs))[w] == (if |w| >= 3 && w !in STOP_WORDS then multiset(runs)[w] else 0)
  {
    if |runs| > 0 {
      KeepKeywordsCounts(runs[1..]);
      assert runs == [runs[0]] + runs[1..];
    }
  }

  /** Every maximal run of at least three word characters that is not a
      stop word is among the extracted keywords. */
  lemma ExtractKeywordsComplete(text: string, i: nat)
    requires RunStart(text, i) && |RunAt(text, i)| >= 3 && RunAt(text, i) !in STOP_WORDS
    ensures RunAt(text, i) in ExtractKeywords(text)
  {
    RunsListed(text, i);
    KeepKeywordsCounts(WordRuns(text));
    assert multiset(WordRuns(text))[RunAt(text, i)] > 0;
    assert multiset(KeepKeywords(WordRuns(text)))[RunAt(text, i)] > 0;
  }

  /** `sum(1 for k in keywords if k in text)`. */
  function CountMatches(keywords: seq<string>, text: string): (n: nat)
    ensures n <= |keywords|
  {
    if |keywords| == 0 then 0
    else (if Contains(text, keywords[0]) then 1 else 0) + CountMatches(keywords[1..], text)
  }

  /** `score_task_relevance`: 0.1 per task keyword found in the content,
      capped at 0.3; 0 for an empty task or empty content. Raises like the
      source when the content is a non-string object. */
  function TaskRelevance(e: Event, task: string): (r: Result<real>)
    ensures r.Ok? ==> 0.0 <= r.value <= 0.3
    ensures r.Err? <==> task != "" && ExtractContent(e) == NonText(true)
    ensures task == "" || ExtractContent(e) == Text("") ==> r == Ok(0.0)
  {
    if task == "" then Ok(0.0)
    else
      match ExtractContent(e)
      case NonText(truthy) =>
        if truthy then Err("AttributeError: object has no attribute 'lower'") else Ok(0.0)
      case Text(s) =>
        if s == "" then Ok(0.0)
        else
          var matches := CountMatches(ExtractKeywords(Lower(task)), Lower(s));
          Ok(if matches > 0 then MinReal(0.3, matches as real * 0.1) else 0.0)
  }

  lemma {:induction false} CountMatchesAll(keywords: seq<string>, text: string, whole: string)
    requires Contains(text, whole)
    requires forall k :: 0 <= k < |keywords| ==> Contains(whole, keywords[k])
    ensures CountMatches(keywords, text) == |keywords|
  {
    if |keywords| > 0 {
      ContainsTransitive(text, whole, keywords[0]);
      CountMatchesAll(keywords[1..], text, whole);
    }
  }

  /** Content that quotes the whole task (up to case) matches every task
      keyword, duplicates included. */
  lemma ContentQuotingTaskIsFullyRelevant(e: Event, task: string, s: string)
    requires task != "" && ExtractContent(e) == Text(s) && s != ""
    requires Contains(Lower(s), Lower(task))
    ensures var n := |ExtractKeywords(Lower(task))|;
      TaskRelevance(e, task) == Ok(if n > 0 then MinReal(0.3, n as real * 0.1) else 0.0)
  {
    var kws := ExtractKeywords(Lower(task));
    CountMatchesAll(kws, Lower(s), Lower(task));
  }
}
