/** The retry classifier: token-limit errors are recognised by phrases in
    the lower-cased message and carry numeric hints; network errors were
    meant to be recognised the same way, but the classifier as written
    reads an unbound name and raises for every message it is asked about.
    An exception is given by its class name and its `str()`. Character
    classes and case folding are ASCII-only. */
module RetryStrategies {
  import opened Results
  import opened Text

  /** A raised exception: `type(e).__name__` and `str(e)`. */
  datatype Failure = Failure(typeName: string, text: string)

  // ---------------------------------------------------------------------
  // Token-limit errors

  const TOKEN_INDICATORS: seq<string> :=
    ["token quota", "token limit", "context length",
     "maximum context", "too many tokens", "context_length_exceeded",
     "tokens exceed", "input too long", "context window"]

  /** `should_compress_on_retry`: the lower-cased message names one of
      the nine token phrases. */
  predicate ShouldCompressOnRetry(f: Failure) {
    ContainsAny(Lower(f.text), TOKEN_INDICATORS)
  }

  /** `should_compress_on_retry` holds exactly when some token phrase
      occurs in the lower-cased message. */
  lemma ShouldCompressOnRetryIff(f: Failure)
    ensures ShouldCompressOnRetry(f) <==>
      exists k :: 0 <= k < |TOKEN_INDICATORS| && Contains(Lower(f.text), TOKEN_INDICATORS[k])
  {
    ContainsAnyIff(Lower(f.text), TOKEN_INDICATORS);
  }

  lemma LowerIdempotent(s: string)
    ensures Lower(Lower(s)) == Lower(s)
  {
  }

  /** The test ignores case: a message and its lower-cased form are
      classified alike. */
  lemma ShouldCompressIgnoresCase(f: Failure)
    ensures ShouldCompressOnRetry(f) == ShouldCompressOnRetry(Failure(f.typeName, Lower(f.text)))
  {
    LowerIdempotent(f.text);
  }

  /** `should_reduce_timeout`: token errors are the ones worth retrying soon. */
  predicate ShouldReduceTimeout(f: Failure) {
    ShouldCompressOnRetry(f)
  }

  /** The two token predicates always agree. */
  lemma ReduceTimeoutIsCompress(f: Failure)
    ensures ShouldReduceTimeout(f) <==> ShouldCompressOnRetry(f)
  {
  }

  // ---------------------------------------------------------------------
  // Numeric hints

  /** End of the run of characters satisfying `p` that starts at `i`. */
  function RunEnd(s: string, i: nat, p: char -> bool): (j: nat)
    requires i <= |s|
    ensures i <= j <= |s|
    ensures forall k :: i <= k < j ==> p(s[k])
    ensures j == |s| || !p(s[j])
    decreases |s| - i
  {
    if i < |s| && p(s[i]) then RunEnd(s, i + 1, p) else i
  }

  lemma {:induction false} RunEndAt(s: string, i: nat, j: nat, p: char -> bool)
    requires i <= j <= |s|
    requires forall k :: i <= k < j ==> p(s[k])
    requires j == |s| || !p(s[j])
    ensures RunEnd(s, i, p) == j
    decreases j - i
  {
    if i < j {
      RunEndAt(s, i + 1, j, p);
    }
  }

  function DigitRunEnd(s: string, i: nat): (j: nat)
    requires i <= |s|
    ensures i <= j <= |s|
  {
    RunEnd(s, i, c => IsDigit(c))
  }

  /** `word` occurs at `i`, ignoring the case of the text. */
  predicate WordAt(s: string, i: nat, word: string) {
    i + |word| <= |s| && Lower(s[i..i + |word|]) == word
  }

  /** `(\d+)\s*tokens?` matches at `i`: `\d+` and `\s*` are greedy and
      backing off either one only exposes a digit or a space, so the match
      exists exactly when the longest digit run at `i`, then the longest
      space run, is followed by "token". */
  predicate TokensAt(s: string, i: nat) {
    i < |s| && IsDigit(s[i]) && WordAt(s, RunEnd(s, DigitRunEnd(s, i), c => IsSpace(c)), "token")
  }

  function TokensValue(s: string, i: nat): nat
    requires TokensAt(s, i)
  {
    DigitsValue(s[i..DigitRunEnd(s, i)])
  }

  predicate IsLabelSep(c: char) {
    c == ':' || IsSpace(c)
  }

  /** Where the digits of `key[:\s]*(\d+)` would start, for a key at `i`. */
  function LabelDigits(s: string, i: nat, key: string): nat
    requires i + |key| <= |s|
  {
    RunEnd(s, i + |key|, c => IsLabelSep(c))
  }

  /** `key[:\s]*(\d+)` matches at `i`. */
  predicate LabelAt(s: string, i: nat, key: string) {
    WordAt(s, i, key) && LabelDigits(s, i, key) < |s| && IsDigit(s[LabelDigits(s, i, key)])
  }

  function LabelValue(s: string, i: nat, key: string): nat
    requires LabelAt(s, i, key)
  {
    var d := LabelDigits(s, i, key);
    DigitsValue(s[d..DigitRunEnd(s, d)])
  }

  /** `re.search` for `(\d+)\s*tokens?`: the leftmost match at or after `from`. */
  function FirstTokens(s: string, from: nat): (r: Option<nat>)
    requires from <= |s|
    ensures r.Some? ==>
      from <= r.value < |s| && TokensAt(s, r.value) && forall k :: from <= k < r.value ==> !TokensAt(s, k)
    ensures r.None? ==> forall k :: from <= k < |s| ==> !TokensAt(s, k)
    decreases |s| - from
  {
    if from == |s| then None
    else if TokensAt(s, from) then Some(from)
    else FirstTokens(s, from + 1)
  }

  /** `re.search` for `key[:\s]*(\d+)`: the leftmost match at or after `from`. */
  function FirstLabel(s: string, from: nat, key: string): (r: Option<nat>)
    requires from <= |s|
    ensures r.Some? ==>
      from <= r.value < |s| && LabelAt(s, r.value, key) && forall k :: from <= k < r.value ==> !LabelAt(s, k, key)
    ensures r.None? ==> forall k :: from <= k < |s| ==> !LabelAt(s, k, key)
    decreases |s| - from
  {
    if from == |s| then None
    else if LabelAt(s, from, key) then Some(from)
    else FirstLabel(s, from + 1, key)
  }

  /** The numbers `extract_token_info` found; a missing key is `None`. */
  datatype TokenInfo = TokenInfo(
    currentTokens: Option<nat>,
    tokenLimit: Option<nat>,
    tokenQuota: Option<nat>)

  const NO_TOKEN_INFO := TokenInfo(None, None, None)

  function LabelSearch(s: string, key: string): (r: Option<nat>)
    ensures r.Some? <==> exists i :: 0 <= i < |s| && LabelAt(s, i, key)
    ensures r.Some? ==> exists i ::
      0 <= i < |s| && LabelAt(s, i, key)
      && (forall k :: 0 <= k < i ==> !LabelAt(s, k, key)) && r.value == LabelValue(s, i, key)
  {
    match FirstLabel(s, 0, key)
    case Some(i) => Some(LabelValue(s, i, key))
    case None => None
  }

  /** `extract_token_info`: each key is present exactly when its pattern
      matches somewhere, and then holds the number of the leftmost match. */
  function ExtractTokenInfo(text: string): (r: TokenInfo)
    ensures r.currentTokens.Some? <==> exists i :: 0 <= i < |text| && TokensAt(text, i)
    ensures r.currentTokens.Some? ==> exists i ::
      0 <= i < |text| && TokensAt(text, i)
      && (forall k :: 0 <= k < i ==> !TokensAt(text, k)) && r.currentTokens.value == TokensValue(text, i)
    ensures r.tokenLimit == LabelSearch(text, "limit")
    ensures r.tokenQuota == LabelSearch(text, "quota")
  {
    var current := match FirstTokens(text, 0)
      case Some(i) => Some(TokensValue(text, i))
      case None => None;
    TokenInfo(current, LabelSearch(text, "limit"), LabelSearch(text, "quota"))
  }

  lemma LowerToken()
    ensures Lower("token") == "token"
  {
  }

  lemma LowerLabels()
    ensures Lower("limit") == "limit" && Lower("quota") == "quota"
  {
  }

  /** A message that opens with a number and "tokens" reports that number. */
  lemma CurrentTokensRoundTrip(n: nat, rest: string)
    ensures ExtractTokenInfo(NatToString(n) + " tokens" + rest).currentTokens == Some(n)
  {
    var s := NatToString(n) + " tokens" + rest;
    OpensWithTokens(n, rest);
    assert FirstTokens(s, 0) == Some(0);
  }

  /** The pattern matches at the start of such a message, and its digits
      spell `n`. */
  lemma OpensWithTokens(n: nat, rest: string)
    ensures var s := NatToString(n) + " tokens" + rest;
      TokensAt(s, 0) && TokensValue(s, 0) == n
  {
    var d := NatToString(n);
    var s := d + " tokens" + rest;
    var a, z := d + " ", "s" + rest;
    assert s == a + "token" + z;
    ConcatSlice(a, "token", z);
    assert forall k :: 0 <= k < |d| ==> s[k] == d[k];
    RunEndAt(s, 0, |d|, c => IsDigit(c));
    assert s[|d|] == ' ' && s[|d| + 1] == 't';
    RunEndAt(s, |d|, |d| + 1, c => IsSpace(c));
    LowerToken();
    assert TokensAt(s, 0);
    assert s[0..|d|] == d;
    DigitsValueOfNatToString(n);
  }

  /** A message that opens with "limit: " and a number reports it as the
      limit, provided the number is not run on by further digits. */
  lemma TokenLimitRoundTrip(n: nat, rest: string)
    requires |rest| == 0 || !IsDigit(rest[0])
    ensures ExtractTokenInfo("limit: " + NatToString(n) + rest).tokenLimit == Some(n)
  {
    var d := NatToString(n);
    var s := "limit: " + d + rest;
    assert s[..5] == "limit";
    LowerLabels();
    RunEndAt(s, 5, 7, c => IsLabelSep(c));
    assert forall k :: 0 <= k < |d| ==> s[7 + k] == d[k];
    assert |rest| == 0 || s[7 + |d|] == rest[0];
    RunEndAt(s, 7, 7 + |d|, c => IsDigit(c));
    assert LabelAt(s, 0, "limit");
    assert s[7..7 + |d|] == d;
    DigitsValueOfNatToString(n);
  }

  // ---------------------------------------------------------------------
  // Network errors

  const NETWORK_INDICATORS: seq<string> :=
    ["connection error", "timeout", "network error",
     "503 service unavailable", "502 bad gateway",
     "504 gateway timeout", "connection refused"]

  const UNBOUND_NAME_ERROR := "NameError: name 'error_indicators' is not defined"

  /** `should_use_exponential_backoff` as written: the generator iterates
      `error_indicators`, a name bound nowhere in its scope (the list is
      bound as `network_indicators`), so every call raises `NameError`. */
  function ShouldUseExponentialBackoff(f: Failure): (r: Result<bool>)
    ensures r == Err(UNBOUND_NAME_ERROR)
  {
    Err(UNBOUND_NAME_ERROR)
  }

  /** The classifier as its authors evidently meant it: the lower-cased
      message names one of the seven network phrases. */
  predicate IntendedShouldUseExponentialBackoff(f: Failure) {
    ContainsAny(Lower(f.text), NETWORK_INDICATORS)
  }

  /** The written classifier raises even on a plain gateway error, which
      the intended one recognises. */
  lemma BackoffRaisesOnGatewayError()
    ensures ShouldUseExponentialBackoff(Failure("APIError", "503 service unavailable")).Err?
    ensures IntendedShouldUseExponentialBackoff(Failure("APIError", "503 service unavailable"))
  {
    var s := "503 service unavailable";
    assert Lower(s) == s;
    ContainsAt(s, NETWORK_INDICATORS[3], 0);
    ContainsAnyIff(s, NETWORK_INDICATORS);
  }

  /** The intended classifier recognises each network phrase wherever it
      occurs, in any case. */
  lemma IntendedBackoffRecognises(f: Failure, k: int)
    requires 0 <= k < |NETWORK_INDICATORS| && Contains(Lower(f.text), NETWORK_INDICATORS[k])
    ensures IntendedShouldUseExponentialBackoff(f)
  {
    ContainsAnyIff(Lower(f.text), NETWORK_INDICATORS);
  }

  function Pow2(k: nat): (r: nat)
    ensures r >= 1
  {
    if k == 0 then 1 else 2 * Pow2(k - 1)
  }

  lemma {:induction false} Pow2Monotone(a: nat, b: nat)
    requires a <= b
    ensures Pow2(a) <= Pow2(b)
    decreases b
  {
    if a < b {
      Pow2Monotone(a, b - 1);
    }
  }

  /** `get_recommended_wait_time`: `min(base * 2 ** (n - 1), 60)`. A
      negative exponent gives a fraction, as Python's `**` does. */
  function GetRecommendedWaitTime(attempt: int, base: int): (w: real)
    ensures w <= 60.0
    ensures attempt >= 1 ==> w == MinReal((base * Pow2(attempt - 1)) as real, 60.0)
  {
    if attempt >= 1 then MinReal((base * Pow2(attempt - 1)) as real, 60.0)
    else MinReal(base as real / Pow2(1 - attempt) as real, 60.0)
  }

  /** With a non-negative base, later attempts never wait less. */
  lemma WaitTimeMonotone(n: int, m: int, base: int)
    requires 1 <= n <= m && base >= 0
    ensures GetRecommendedWaitTime(n, base) <= GetRecommendedWaitTime(m, base)
  {
    Pow2Monotone(n - 1, m - 1);
    assert base * Pow2(n - 1) <= base * Pow2(m - 1) by {
      MulMonotone(base, Pow2(n - 1), Pow2(m - 1));
    }
  }

  lemma MulMonotone(a: nat, x: nat, y: nat)
    requires x <= y
    ensures a * x <= a * y
  {
  }

  /** With the default base of 5 the waits are 5, 10, 20, 40 and then 60 for good. */
  lemma DefaultWaitSchedule(n: int)
    requires n >= 5
    ensures GetRecommendedWaitTime(1, 5) == 5.0 && GetRecommendedWaitTime(2, 5) == 10.0
    ensures GetRecommendedWaitTime(3, 5) == 20.0 && GetRecommendedWaitTime(4, 5) == 40.0
    ensures GetRecommendedWaitTime(n, 5) == 60.0
  {
    Pow2Monotone(4, n - 1);
    assert Pow2(4) == 16;
  }

  // ---------------------------------------------------------------------
  // The manager

  /** The `strategy` dict `analyze_exception` returns. */
  datatype Strategy = Strategy(
    exceptionType: string,
    shouldCompress: bool,
    shouldReduceWait: bool,
    shouldUseExponentialBackoff: bool,
    recommendedAction: string,
    additionalInfo: TokenInfo)

  function DefaultStrategy(f: Failure): Strategy {
    Strategy(f.typeName, false, false, true, "standard_retry", NO_TOKEN_INFO)
  }

  /** `analyze_exception`, given what the network classifier does with
      `f`; the classifier only runs for an exception that is not a token
      error. */
  function Analyze(f: Failure, network: Result<bool>): (r: Result<Strategy>)
    ensures r.Ok? ==> r.value.exceptionType == f.typeName && r.value.shouldUseExponentialBackoff
    ensures ShouldCompressOnRetry(f) ==> r == Ok(DefaultStrategy(f).(
      shouldCompress := true, shouldReduceWait := true,
      recommendedAction := "compress_and_retry", additionalInfo := ExtractTokenInfo(f.text)))
    ensures !ShouldCompressOnRetry(f) ==>
      (r.Err? <==> network.Err?) && (r.Ok? ==> !r.value.shouldCompress && !r.value.shouldReduceWait)
  {
    var strategy := DefaultStrategy(f);
    if ShouldCompressOnRetry(f) then
      Ok(strategy.(shouldCompress := true, shouldReduceWait := true,
                   recommendedAction := "compress_and_retry",
                   additionalInfo := ExtractTokenInfo(f.text)))
    else
      match network
      case Err(e) => Err(e)
      case Ok(true) => Ok(strategy.(shouldUseExponentialBackoff := true, recommendedAction := "network_retry"))
      case Ok(false) => Ok(strategy)
  }

  /** `analyze_exception` as written: it returns exactly for token errors;
      every other exception makes it raise the unbound-name error. */
  function AnalyzeException(f: Failure): (r: Result<Strategy>)
    ensures r.Ok? <==> ShouldCompressOnRetry(f)
    ensures r.Err? ==> r.error == UNBOUND_NAME_ERROR
  {
    Analyze(f, ShouldUseExponentialBackoff(f))
  }

  /** `analyze_exception` with the intended network classifier. */
  function IntendedAnalyzeException(f: Failure): Result<Strategy> {
    Analyze(f, Ok(IntendedShouldUseExponentialBackoff(f)))
  }

  /** The intended analysis never raises, and it agrees with the written
      one wherever the written one returns. */
  lemma IntendedAnalyzeAgrees(f: Failure)
    ensures IntendedAnalyzeException(f).Ok?
    ensures AnalyzeException(f).Ok? ==> AnalyzeException(f) == IntendedAnalyzeException(f)
    ensures !ShouldCompressOnRetry(f) ==>
      IntendedAnalyzeException(f).value.recommendedAction
        == (if IntendedShouldUseExponentialBackoff(f) then "network_retry" else "standard_retry")
  {
  }

  /** The dict `get_retry_params` returns; wait times are Python numbers. */
  datatype RetryParams = RetryParams(waitTime: real, strategyInfo: Strategy)

  /** `get_retry_params` on top of an analysis: a short wait for token
      errors, exponential backoff otherwise, `5 * n` when neither flag is set. */
  function RetryParamsOf(analysis: Result<Strategy>, attempt: int): (r: Result<RetryParams>)
    ensures r.Ok? <==> analysis.Ok?
    ensures r.Ok? ==> r.value.strategyInfo == analysis.value
    ensures r.Ok? && analysis.value.shouldReduceWait ==>
      r.value.waitTime == MinInt(2 * attempt, 10) as real && r.value.waitTime <= 10.0
  {
    match analysis
    case Err(e) => Err(e)
    case Ok(strategy) =>
      var wait :=
        if strategy.shouldReduceWait then MinInt(2 * attempt, 10) as real
        else if strategy.shouldUseExponentialBackoff then GetRecommendedWaitTime(attempt, 5)
        else (5 * attempt) as real;
      Ok(RetryParams(wait, strategy))
  }

  /** `get_retry_params` as written: it returns exactly for token errors,
      with the short token wait of at most ten seconds. */
  function GetRetryParams(f: Failure, attempt: int): (r: Result<RetryParams>)
    ensures r.Ok? <==> ShouldCompressOnRetry(f)
    ensures r.Ok? ==> r.value.waitTime == MinInt(2 * attempt, 10) as real <= 10.0
  {
    RetryParamsOf(AnalyzeException(f), attempt)
  }

  /** `get_retry_params` with the intended network classifier. */
  function IntendedGetRetryParams(f: Failure, attempt: int): Result<RetryParams> {
    RetryParamsOf(IntendedAnalyzeException(f), attempt)
  }

  /** Every analysis sets the backoff flag, so the wait is never `5 * n`
      by that branch: it is the token wait or the backoff schedule. */
  lemma FixedWaitBranchUnreachable(f: Failure, network: Result<bool>, attempt: int)
    ensures var r := RetryParamsOf(Analyze(f, network), attempt);
      r.Ok? ==> (r.value.waitTime ==
                  if ShouldCompressOnRetry(f) then MinInt(2 * attempt, 10) as real
                  else GetRecommendedWaitTime(attempt, 5))
  {
  }

  /** A token error gets the compression strategy, its numeric hints and
      a wait of at most ten seconds. */
  lemma TokenErrorParams(f: Failure, attempt: int)
    requires ShouldCompressOnRetry(f)
    ensures GetRetryParams(f, attempt).Ok?
    ensures var p := GetRetryParams(f, attempt).value;
      p.strategyInfo.shouldCompress && p.strategyInfo.shouldReduceWait
      && p.strategyInfo.recommendedAction == "compress_and_retry"
      && p.strategyInfo.additionalInfo == ExtractTokenInfo(f.text)
      && p.waitTime == MinInt(2 * attempt, 10) as real <= 10.0
  {
  }

  /** The worked example: a gateway error on attempt 3. As written the
      classification raises. */
  lemma GatewayErrorOnThirdAttempt()
    ensures GetRetryParams(Failure("APIError", "503 Service Unavailable"), 3).Err?
  {
    var f := Failure("APIError", "503 Service Unavailable");
    assert Lower(f.text) == "503 service unavailable";
    NotATokenError(f);
  }

  /** The same failure under the intended classifier: a network error on
      attempt 3 waits 5 * 2 ** 2 = 20 seconds. */
  lemma GatewayErrorIntendedWait()
    ensures IntendedGetRetryParams(Failure("APIError", "503 Service Unavailable"), 3).Ok?
    ensures IntendedGetRetryParams(Failure("APIError", "503 Service Unavailable"), 3).value.waitTime == 20.0
  {
    var f := Failure("APIError", "503 Service Unavailable");
    assert Lower(f.text) == "503 service unavailable";
    GatewayErrorWait(f);
  }

  /** Any failure whose lower-cased text is the gateway message waits 20
      seconds on attempt 3 under the intended classifier. */
  lemma GatewayErrorWait(f: Failure)
    requires Lower(f.text) == "503 service unavailable"
    ensures IntendedGetRetryParams(f, 3).Ok? && IntendedGetRetryParams(f, 3).value.waitTime == 20.0
  {
    NotATokenError(f);
    GatewayTextIsNetwork(Lower(f.text));
    assert Pow2(2) == 4;
  }

  lemma GatewayTextIsNetwork(s: string)
    requires s == "503 service unavailable"
    ensures ContainsAny(s, NETWORK_INDICATORS)
  {
    ContainsAt(s, NETWORK_INDICATORS[3], 0);
    ContainsAnyIff(s, NETWORK_INDICATORS);
  }

  /** "503 service unavailable" names none of the token phrases: it has
      no letter t, and every phrase has one. */
  lemma NotATokenError(f: Failure)
    requires Lower(f.text) == "503 service unavailable"
    ensures !ShouldCompressOnRetry(f)
  {
    var s := Lower(f.text);
    assert 't' !in s;
    ContainsAnyIff(s, TOKEN_INDICATORS);
    forall k | 0 <= k < |TOKEN_INDICATORS| ensures !Contains(s, TOKEN_INDICATORS[k]) {
      assert 't' in TOKEN_INDICATORS[k];
      AbsentCharBlocks(s, TOKEN_INDICATORS[k], 't');
    }
  }
}
