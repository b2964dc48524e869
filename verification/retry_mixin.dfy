/** The state changes the retry hook makes between two attempts of a model
    call: it records retry metadata on the exception, may shorten the
    carried message list and switch the wait to a fixed one on token
    errors, and raises a zero temperature after a no-response error. The
    retry loop, its sleeping and its logging are not modelled. */
module RetryMixin {
  import opened Results
  import opened RetryStrategies

  // ---------------------------------------------------------------------
  // Emergency compression of the message list

  /** A message dict, seen through its `role` key. */
  datatype Message = Message(role: Option<string>, content: string)

  predicate IsSystem(m: Message) {
    m.role == Some("system")
  }

  /** `_emergency_compress_messages`: a list of at most three messages is
      returned as it is; otherwise a leading system message is kept, then
      the last six of the remaining messages. */
  function EmergencyCompress(messages: seq<Message>): (r: seq<Message>)
    ensures |messages| <= 3 ==> r == messages
  {
    if |messages| <= 3 then messages
    else
      var head := if IsSystem(messages[0]) then [messages[0]] else [];
      var rest := messages[|head|..];
      head + (if |rest| > 6 then rest[|rest| - 6..] else rest)
  }

  /** The compressed list of more than three messages is the leading
      system message if there is one, then the last `min(6, |rest|)` of the
      rest, in their original order; it never holds more than seven. */
  lemma EmergencyCompressShape(messages: seq<Message>)
    requires |messages| > 3
    ensures var head := if IsSystem(messages[0]) then 1 else 0;
      var tail := if |messages| - head > 6 then 6 else |messages| - head;
      EmergencyCompress(messages) == messages[..head] + messages[|messages| - tail..]
      && |EmergencyCompress(messages)| == head + tail <= 7
  {
  }

  /** The list gets strictly shorter exactly when it holds a leading
      system message and more than seven messages, or no leading system
      message and more than six; shorter lists come back unchanged. */
  lemma EmergencyCompressShortens(messages: seq<Message>)
    ensures |EmergencyCompress(messages)| < |messages| <==>
      (|messages| > 0 && IsSystem(messages[0]) && |messages| > 7)
      || ((|messages| == 0 || !IsSystem(messages[0])) && |messages| > 6)
    ensures |EmergencyCompress(messages)| >= |messages| ==> EmergencyCompress(messages) == messages
  {
    if |messages| > 3 {
      EmergencyCompressShape(messages);
      var r := EmergencyCompress(messages);
      var head := if IsSystem(messages[0]) then 1 else 0;
      if |r| >= |messages| {
        assert r == r[..head] + r[head..];
        assert messages == messages[..head] + messages[head..];
      }
    }
  }

  /** What `_trigger_context_compression` leaves in `kwargs['messages']`:
      nothing changes when the key is missing or the list is empty, or
      when compression would not make it shorter. */
  function CompressedMessages(messages: Option<seq<Message>>): (r: Option<seq<Message>>)
    ensures r.None? <==> messages.None?
    ensures r.Some? ==> |r.value| <= |messages.value|
    ensures r != messages ==> |r.value| < |messages.value| && |r.value| <= 7
    ensures r != messages ==> r == Some(EmergencyCompress(messages.value))
    ensures messages.Some? && |messages.value| > 0 && |EmergencyCompress(messages.value)| < |messages.value|
      ==> r == Some(EmergencyCompress(messages.value))
  {
    if messages.None? || |messages.value| == 0 then messages
    else
      var compressed := EmergencyCompress(messages.value);
      if |compressed| < |messages.value| then
        EmergencyCompressShape(messages.value);
        Some(compressed)
      else messages
  }

  /** Compressing twice changes nothing more: a compressed list is short
      enough to be left alone. */
  lemma CompressedMessagesIdempotent(messages: Option<seq<Message>>)
    ensures CompressedMessages(CompressedMessages(messages)) == CompressedMessages(messages)
  {
    var once := CompressedMessages(messages);
    if once.Some? && once != messages {
      var m := once.value;
      EmergencyCompressShortens(m);
      if |m| > 3 {
        EmergencyCompressShape(messages.value);
        EmergencyCompressShape(m);
      }
    }
  }

  // ---------------------------------------------------------------------
  // Temperature

  /** `kwargs['temperature']`: missing, `None`, or a number. */
  datatype Temperature = Unset | NoneValue | Value(t: real)

  /** The temperature rule after an `LLMNoResponseError`:
      `kwargs.get('temperature', 0)` equal to 0 becomes 1.0. A missing key
      reads as 0; a `None` value is not equal to 0 and is kept. */
  function BumpedTemperature(t: Temperature): (r: Temperature)
    ensures (t == Unset || t == Value(0.0)) <==> r == Value(1.0) && t != Value(1.0)
    ensures r != t ==> r == Value(1.0)
    ensures r != Value(0.0) && r != Unset
  {
    if t == Unset || t == Value(0.0) then Value(1.0) else t
  }

  /** The rule only ever fires once: applying it again changes nothing. */
  lemma BumpedTemperatureIdempotent(t: Temperature)
    ensures BumpedTemperature(BumpedTemperature(t)) == BumpedTemperature(t)
  {
  }

  // ---------------------------------------------------------------------
  // The retry library's objects

  /** A tenacity wait policy: the configured exponential wait, or a fixed one. */
  datatype WaitPolicy = WaitExponential(multiplier: real, minWait: real, maxWait: real) | WaitFixed(seconds: real)

  /** A tenacity stop condition: `stop_after_attempt(n)`, which stores its
      limit as `max_attempt_number`; a combination `a | b | ...` of
      conditions (with `stops`); or any other condition, with its
      `max_attempts` attribute when it has one. */
  datatype StopPolicy =
    | StopAfterAttempt(maxAttemptNumber: int)
    | StopAny(stops: seq<StopPolicy>)
    | StopOther(maxAttempts: Option<int>)

  /** `stops` of a combined condition, or the single condition. */
  function StopFuncs(stop: StopPolicy): seq<StopPolicy> {
    if stop.StopAny? then stop.stops else [stop]
  }

  /** The stop condition the decorator installs:
      `stop_after_attempt(num_retries) | stop_if_should_exit()`. */
  function DecoratorStop(numRetries: int): StopPolicy {
    StopAny([StopAfterAttempt(numRetries), StopOther(None)])
  }

  /** What `hasattr(stop_func, 'max_attempts')` finds on one condition. */
  function MaxAttemptsAttr(s: StopPolicy): Option<int> {
    if s.StopOther? then s.maxAttempts else None
  }

  /** `max_attempts` of the first condition that has one. */
  function FirstMaxAttempts(stops: seq<StopPolicy>): (r: Option<int>)
    ensures r.Some? <==> exists k :: 0 <= k < |stops| && MaxAttemptsAttr(stops[k]).Some?
    ensures r.Some? ==> exists k ::
      0 <= k < |stops| && MaxAttemptsAttr(stops[k]) == r
      && forall j :: 0 <= j < k ==> MaxAttemptsAttr(stops[j]).None?
  {
    if |stops| == 0 then None
    else if MaxAttemptsAttr(stops[0]).Some? then MaxAttemptsAttr(stops[0])
    else
      var r := FirstMaxAttempts(stops[1..]);
      assert forall k :: 1 <= k < |stops| ==> stops[k] == stops[1..][k - 1];
      r
  }

  /** As written, the decorator's own stop never exposes the retry count:
      `stop_after_attempt` has no `max_attempts`, and neither has
      `stop_if_should_exit`, so the hook records nothing. */
  lemma DecoratorStopHidesRetries(numRetries: int)
    ensures FirstMaxAttempts(StopFuncs(DecoratorStop(numRetries))) == None
  {
  }

  /** The limit the scan evidently means to find ("the max retries from
      the stop_after_attempt"): `max_attempts`, or the
      `max_attempt_number` of `stop_after_attempt`. */
  function RetryLimitAttr(s: StopPolicy): Option<int> {
    match s
    case StopAfterAttempt(n) => Some(n)
    case StopAny(_) => None
    case StopOther(m) => m
  }

  /** The intended scan: the limit of the first condition that has one. */
  function FirstRetryLimit(stops: seq<StopPolicy>): (r: Option<int>)
    ensures r.Some? <==> exists k :: 0 <= k < |stops| && RetryLimitAttr(stops[k]).Some?
    ensures r.Some? ==> exists k ::
      0 <= k < |stops| && RetryLimitAttr(stops[k]) == r
      && forall j :: 0 <= j < k ==> RetryLimitAttr(stops[j]).None?
  {
    if |stops| == 0 then None
    else if RetryLimitAttr(stops[0]).Some? then RetryLimitAttr(stops[0])
    else
      var r := FirstRetryLimit(stops[1..]);
      assert forall k :: 1 <= k < |stops| ==> stops[k] == stops[1..][k - 1];
      r
  }

  /** With the intended scan the decorator's stop exposes `num_retries`. */
  lemma IntendedDecoratorStopExposesRetries(numRetries: int)
    ensures FirstRetryLimit(StopFuncs(DecoratorStop(numRetries))) == Some(numRetries)
  {
  }

  /** The two scans agree on every list without a `stop_after_attempt`:
      the correction only adds that condition's limit. */
  lemma {:induction false} RetryLimitAgrees(stops: seq<StopPolicy>)
    requires forall k :: 0 <= k < |stops| ==> !stops[k].StopAfterAttempt?
    ensures FirstRetryLimit(stops) == FirstMaxAttempts(stops)
  {
    if |stops| > 0 {
      assert forall k :: 1 <= k < |stops| ==> stops[k] == stops[1..][k - 1];
      RetryLimitAgrees(stops[1..]);
    }
  }

  /** The exception being retried; the hook writes its retry metadata. */
  class RaisedException {
    const failure: Failure
    /** `LLMNoResponseError` or a subclass of it. */
    const noResponse: bool
    var retryAttempt: Option<int>
    var maxRetries: Option<int>

    constructor (failure: Failure, noResponse: bool)
      ensures this.failure == failure && this.noResponse == noResponse
      ensures retryAttempt == None && maxRetries == None
    {
      this.failure := failure;
      this.noResponse := noResponse;
      retryAttempt := None;
      maxRetries := None;
    }
  }

  /** The tenacity `Retrying` object; its `wait` can be replaced. */
  class Retrying {
    var wait: WaitPolicy
    const stop: StopPolicy

    constructor (wait: WaitPolicy, stop: StopPolicy)
      ensures this.wait == wait && this.stop == stop
    {
      this.wait := wait;
      this.stop := stop;
    }
  }

  /** The tenacity `RetryCallState` the hook receives: the attempt number,
      the retrying object, the exception of the failed attempt, and the
      two keyword arguments of the call that the hook rewrites. */
  class RetryCallState {
    const attemptNumber: int
    const retryObject: Retrying
    const exception: RaisedException
    var messages: Option<seq<Message>>
    var temperature: Temperature

    constructor (attemptNumber: int, retryObject: Retrying, exception: RaisedException,
                 messages: Option<seq<Message>>, temperature: Temperature)
      ensures this.attemptNumber == attemptNumber && this.retryObject == retryObject
      ensures this.exception == exception
      ensures this.messages == messages && this.temperature == temperature
    {
      this.attemptNumber := attemptNumber;
      this.retryObject := retryObject;
      this.exception := exception;
      this.messages := messages;
      this.temperature := temperature;
    }
  }

  // ---------------------------------------------------------------------
  // The hook

  /** `log_retry_attempt`, its metadata part: scan the stop conditions for
      the first with `max_attempts` and record it, with the attempt
      number, on the exception. Nothing is recorded when none has it. */
  method LogRetryAttempt(state: RetryCallState)
    modifies state.exception
    ensures FirstMaxAttempts(StopFuncs(state.retryObject.stop)).Some? ==>
      state.exception.retryAttempt == Some(state.attemptNumber)
      && state.exception.maxRetries == FirstMaxAttempts(StopFuncs(state.retryObject.stop))
    ensures FirstMaxAttempts(StopFuncs(state.retryObject.stop)).None? ==>
      unchanged(state.exception)
  {
    var stopFuncs := StopFuncs(state.retryObject.stop);
    for i := 0 to |stopFuncs|
      invariant FirstMaxAttempts(stopFuncs[..i]).None?
      invariant unchanged(state.exception)
    {
      assert stopFuncs[..i + 1] == stopFuncs[..i] + [stopFuncs[i]];
      FirstMaxAttemptsAppend(stopFuncs[..i], stopFuncs[i]);
      if MaxAttemptsAttr(stopFuncs[i]).Some? {
        FirstMaxAttemptsAt(stopFuncs, i);
        state.exception.retryAttempt := Some(state.attemptNumber);
        state.exception.maxRetries := MaxAttemptsAttr(stopFuncs[i]);
        return;
      }
    }
    assert stopFuncs[..|stopFuncs|] == stopFuncs;
  }

  lemma {:induction false} FirstMaxAttemptsAppend(stops: seq<StopPolicy>, s: StopPolicy)
    requires FirstMaxAttempts(stops).None?
    ensures FirstMaxAttempts(stops + [s]) == MaxAttemptsAttr(s)
  {
    if |stops| > 0 {
      assert (stops + [s])[1..] == stops[1..] + [s];
      FirstMaxAttemptsAppend(stops[1..], s);
    }
  }

  lemma FirstMaxAttemptsAt(stops: seq<StopPolicy>, i: int)
    requires 0 <= i < |stops| && MaxAttemptsAttr(stops[i]).Some?
    requires forall j :: 0 <= j < i ==> MaxAttemptsAttr(stops[j]).None?
    ensures FirstMaxAttempts(stops) == MaxAttemptsAttr(stops[i])
  {
    assert FirstMaxAttempts(stops).Some?;
    var k :| 0 <= k < |stops| && MaxAttemptsAttr(stops[k]) == FirstMaxAttempts(stops)
      && forall j :: 0 <= j < k ==> MaxAttemptsAttr(stops[j]).None?;
    assert k <= i;
  }

  /** `_trigger_context_compression`: replace the carried messages by
      their emergency compression when that is strictly shorter. */
  method TriggerContextCompression(state: RetryCallState)
    modifies state
    ensures state.messages == CompressedMessages(old(state.messages))
    ensures state.temperature == old(state.temperature)
  {
    var original := state.messages;
    if original.None? {
      return;
    }
    if |original.value| == 0 {
      return;
    }
    var compressed := EmergencyCompress(original.value);
    if |compressed| < |original.value| {
      state.messages := Some(compressed);
    }
  }

  /** The wait a successful classification asks for, when it asks to compress. */
  function FixedWaitFor(params: Result<RetryParams>): Option<real> {
    if params.Ok? && params.value.strategyInfo.shouldCompress then Some(params.value.waitTime) else None
  }

  /** `_apply_intelligent_retry_strategy`: on a token error, compress the
      messages and switch to a fixed wait of the recommended time. A
      classification that raises is swallowed and changes nothing; a
      network classification only logs. */
  method ApplyIntelligentRetryStrategy(state: RetryCallState)
    modifies state, state.retryObject
    ensures var params := GetRetryParams(state.exception.failure, state.attemptNumber);
      if FixedWaitFor(params).Some? then
        state.messages == CompressedMessages(old(state.messages))
        && state.retryObject.wait == WaitFixed(FixedWaitFor(params).value)
      else
        state.messages == old(state.messages) && state.retryObject.wait == old(state.retryObject.wait)
    ensures state.temperature == old(state.temperature)
  {
    var params := GetRetryParams(state.exception.failure, state.attemptNumber);
    if params.Err? {
      return;
    }
    if params.value.strategyInfo.shouldCompress {
      TriggerContextCompression(state);
      state.retryObject.wait := WaitFixed(params.value.waitTime);
    }
  }

  /** The hook's decision depends on nothing the unbound-name error hides:
      the intended network classifier would lead to the same state change. */
  lemma HookDecisionUnaffectedByClassifierBug(f: Failure, attempt: int)
    ensures FixedWaitFor(GetRetryParams(f, attempt)) == FixedWaitFor(IntendedGetRetryParams(f, attempt))
    ensures FixedWaitFor(GetRetryParams(f, attempt)).Some? <==> ShouldCompressOnRetry(f)
    ensures FixedWaitFor(GetRetryParams(f, attempt)).Some? ==>
      FixedWaitFor(GetRetryParams(f, attempt)).value <= 10.0
  {
    IntendedAnalyzeAgrees(f);
  }

  /** The listener call `before_sleep` makes, when a listener is set:
      the attempt number and the configured number of retries. */
  datatype ListenerCall = ListenerCall(attempt: int, numRetries: Option<int>)

  /** `before_sleep`: record the retry metadata, notify the listener, apply
      the adaptive strategy, then apply the temperature rule. */
  method BeforeSleep(state: RetryCallState, hasListener: bool, numRetries: Option<int>)
    returns (notified: Option<ListenerCall>)
    modifies state, state.retryObject, state.exception
    ensures notified == if hasListener then Some(ListenerCall(state.attemptNumber, numRetries)) else None
    ensures var maxAttempts := FirstMaxAttempts(StopFuncs(state.retryObject.stop));
      if maxAttempts.Some? then
        state.exception.retryAttempt == Some(state.attemptNumber) && state.exception.maxRetries == maxAttempts
      else
        state.exception.retryAttempt == old(state.exception.retryAttempt)
        && state.exception.maxRetries == old(state.exception.maxRetries)
    ensures var params := GetRetryParams(state.exception.failure, state.attemptNumber);
      if FixedWaitFor(params).Some? then
        state.messages == CompressedMessages(old(state.messages))
        && state.retryObject.wait == WaitFixed(FixedWaitFor(params).value)
      else
        state.messages == old(state.messages) && state.retryObject.wait == old(state.retryObject.wait)
    ensures state.temperature ==
      if state.exception.noResponse then BumpedTemperature(old(state.temperature)) else old(state.temperature)
  {
    LogRetryAttempt(state);
    notified := if hasListener then Some(ListenerCall(state.attemptNumber, numRetries)) else None;
    ApplyIntelligentRetryStrategy(state);
    if state.exception.noResponse {
      var current := state.temperature;
      if current == Unset || current == Value(0.0) {
        state.temperature := Value(1.0);
      }
    }
  }
}
