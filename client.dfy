/**
 * The HTTP client that talks to the ohsome API
 * (ohsomeTools/common/client.py): status classification, the retry loop
 * with exponential back-off, URL construction, metadata health check and
 * cancellation. The network, the clock and the random jitter are the
 * environment: each attempt reads one clock value, one random draw in
 * [0, 1) and one transport outcome from a list of attempts.
 */
module Client {
  import opened Wrappers
  import opened Exceptions
  import Strings
  import UrlEncoding
  import Json

  // ---------------------------------------------------------------------
  // _check_status

  const ConnectionRefused: string := "Network error: Connection refused"
  const ConnectionRefusedHint: string := ". Check your internet connection or if your local ohsome API instance is running."

  /** The message reported for a failed call: the response text, or the reason phrase when the text is empty. */
  function StatusMessage(text: string, reason: string): string
  {
    if text != "" then text else reason
  }

  /** The kinds that stand for a 4xx status (section 15.5 of RFC 9110). */
  predicate IsClientKind(k: Kind)
  {
    k.BadRequest? || k.Unauthorized? || k.NotFound? || k.MethodNotAllowed? || k.PayloadTooLarge? || k.GenericClientError?
  }

  /** The kinds that stand for a 5xx status (section 15.6 of RFC 9110). */
  predicate IsServerKind(k: Kind)
  {
    k.InternalServerError? || k.NotImplemented? || k.ServiceUnavailable? || k.GenericServerError?
  }

  /** The status a specific kind is raised for, if it has one of its own. */
  function SpecificStatus(k: Kind): Option<int>
  {
    match k
    case BadRequest => Some(400)
    case Unauthorized => Some(401)
    case NotFound => Some(404)
    case MethodNotAllowed => Some(405)
    case PayloadTooLarge => Some(413)
    case InternalServerError => Some(500)
    case NotImplemented => Some(501)
    case ServiceUnavailable => Some(503)
    case _ => None
  }

  /**
   * The kind `_check_status` raises for a status code when the message is
   * not the connection-refused one: 200 raises nothing, every 4xx a client
   * kind, every 5xx a server kind, anything else GenericServerError.
   */
  function StatusKind(status: int): (k: Option<Kind>)
    ensures k.None? <==> status == 200
    ensures 400 <= status < 500 ==> k.Some? && IsClientKind(k.value)
    ensures 500 <= status < 600 ==> k.Some? && IsServerKind(k.value)
    ensures !(400 <= status < 600) && status != 200 ==> k == Some(GenericServerError)
    ensures k.Some? && SpecificStatus(k.value).Some? ==> SpecificStatus(k.value).value == status
    ensures k == Some(GenericClientError) <==> 400 <= status < 500 && status !in {400, 401, 404, 405, 413}
  {
    if status == 400 then Some(BadRequest)
    else if status == 401 then Some(Unauthorized)
    else if status == 404 then Some(NotFound)
    else if status == 405 then Some(MethodNotAllowed)
    else if status == 413 then Some(PayloadTooLarge)
    else if 400 <= status < 500 then Some(GenericClientError)
    else if status == 500 then Some(InternalServerError)
    else if status == 501 then Some(NotImplemented)
    else if status == 503 then Some(ServiceUnavailable)
    else if 500 <= status < 600 then Some(GenericServerError)
    else if status != 200 then Some(GenericServerError)
    else None
  }

  /** Every kind with a status of its own is raised for exactly that status. */
  lemma SpecificStatusRoundTrip(k: Kind)
    requires SpecificStatus(k).Some?
    ensures StatusKind(SpecificStatus(k).value) == Some(k)
  {
  }

  /**
   * `_check_status`: the exception raised for the last HTTP result, or
   * None when it raises nothing. Each exception carries the status as text
   * and the message.
   */
  function CheckStatus(status: int, text: string, reason: string): (r: Option<OhsomeError>)
    ensures StatusMessage(text, reason) == ConnectionRefused ==>
      r == Some(OhsomeError(ServiceUnavailable, Strings.IntToString(status), Some(ConnectionRefused + ConnectionRefusedHint)))
    ensures StatusMessage(text, reason) != ConnectionRefused ==> (r.None? <==> status == 200)
    ensures StatusMessage(text, reason) != ConnectionRefused && r.Some? ==>
      r.value.kind == StatusKind(status).value && r.value.message == Some(StatusMessage(text, reason))
    ensures r.Some? ==> r.value.status == Strings.IntToString(status)
  {
    var message := StatusMessage(text, reason);
    if message == ConnectionRefused then
      Some(New(ServiceUnavailable, [Strings.IntToString(status), message + ConnectionRefusedHint]).value)
    else
      match StatusKind(status)
      case None => None
      case Some(k) => Some(New(k, [Strings.IntToString(status), message]).value)
  }

  // ---------------------------------------------------------------------
  // Back-off

  function Pow15(n: nat): (p: real)
    ensures p >= 1.0
  {
    if n == 0 then 1.0 else 1.5 * Pow15(n - 1)
  }

  /**
   * The pause before attempt number `retry` (counting from 0) given a
   * random draw in [0, 1): none before the first attempt, otherwise
   * 1.5^(retry-1) scaled by a jitter factor in [0.5, 1.5).
   */
  function BackoffDelay(retry: nat, draw: real): (d: Option<real>)
    requires 0.0 <= draw < 1.0
    ensures retry == 0 <==> d.None?
    ensures retry > 0 ==> 0.5 * Pow15(retry - 1) <= d.value < 1.5 * Pow15(retry - 1)
  {
    if retry == 0 then None else Some(Pow15(retry - 1) * (draw + 0.5))
  }

  // ---------------------------------------------------------------------
  // URL

  /** The path, `?`, and the urlencoded sorted parameter items. */
  function AuthedUrl(path: string, params: seq<(string, string)>): string
  {
    path + "?" + UrlEncoding.Urlencode(UrlEncoding.SortedItems(params))
  }

  /**
   * `_generate_auth_url` for a parameter dict: the path, `?`, and the
   * urlencoded sorted items. `unquote_unreserved` never changes that
   * query, so it never fails here.
   */
  function GenerateAuthUrl(path: string, params: seq<(string, string)>): (r: Result<string, UrlEncoding.InvalidUrl>)
    ensures r == Success(AuthedUrl(path, params))
  {
    var query := UrlEncoding.Urlencode(UrlEncoding.SortedItems(params));
    UrlEncoding.UnquoteUnreservedOfUrlencode(UrlEncoding.SortedItems(params));
    match UrlEncoding.UnquoteUnreserved(query)
    case Success(q) => Success(path + "?" + q)
    case Failure(e) => Failure(e)
  }

  // ---------------------------------------------------------------------
  // request

  datatype HttpMethod = GET | POST

  /** What the network does with one attempt. */
  datatype Transport =
    | Delivered(body: Json.Json)
    | TransportTimeout
    | HttpFailure(status: int, text: string, reason: string)

  /** One attempt as the environment answers it: the clock, the random draw, the network. */
  datatype Attempt = Attempt(now: real, draw: real, transport: Transport)

  /** A request handed to the network. */
  datatype Call = Call(verb: HttpMethod, url: string, body: Option<Json.Json>)

  /** What `request` raises. */
  datatype Raised =
    | Api(error: OhsomeError)
      /** `raise Cls()` or `raise Cls` without the required status: Python's TypeError. */
    | ConstructorFailure(kind: Kind, cause: ArgumentError)
      /** The bare `raise` that re-raises the transport exception. */
    | TransportError(status: int)
    | BadUrl(invalid: UrlEncoding.InvalidUrl)

  datatype Outcome =
    | Returned(body: Json.Json)
    | Raises(raised: Raised)
      /** The list of attempts ran out: the environment gave no further answer. */
    | NoMoreAttempts

  /** Everything one `request` call does: its outcome, the calls it sends, its pauses, its signals, the URL it records last. */
  datatype Trace = Trace(outcome: Outcome, calls: seq<Call>, sleeps: seq<real>, overQueryLimit: nat, lastUrl: Option<string>)

  /** What `raise Cls(args...)` raises. */
  function Raise(kind: Kind, args: seq<string>): Raised
  {
    match New(kind, args)
    case Success(e) => Api(e)
    case Failure(c) => ConstructorFailure(kind, c)
  }

  predicate DrawsInRange(script: seq<Attempt>)
  {
    forall k :: 0 <= k < |script| ==> 0.0 <= script[k].draw < 1.0
  }

  function MethodFor(postJson: Option<Json.Json>): HttpMethod
  {
    if postJson.Some? then POST else GET
  }

  /** The one call `request` sends for a path, its parameters and its body. */
  function TheCall(baseUrl: string, path: string, params: seq<(string, string)>, postJson: Option<Json.Json>): Call
  {
    Call(MethodFor(postJson), baseUrl + AuthedUrl(path, params), postJson)
  }

  /** How one attempt ends: `request` returns or raises, or retries after an Unauthorized answer. */
  datatype Step =
    | Done(trace: Trace)
    | RetryAfter(call: Call, sleeps: seq<real>, start: real)

  /** The pauses before an attempt: one back-off delay, and only on a retry. */
  predicate PausesFor(sleeps: seq<real>, retry: nat, draw: real)
    requires 0.0 <= draw < 1.0
  {
    |sleeps| <= 1 && (|sleeps| == 1 ==> retry > 0 && sleeps[0] == BackoffDelay(retry, draw).value)
  }

  /** The time of the first request: the one given, or the clock of this attempt. */
  function StartOf(first: Option<real>, a: Attempt): real
  {
    if first.Some? then first.value else a.now
  }

  /** Whether more than `retry_timeout` has passed since the first request. */
  predicate TimedOut(retryTimeout: real, first: Option<real>, a: Attempt)
  {
    a.now - StartOf(first, a) > retryTimeout
  }

  /** Whether the network's answer makes `_check_status` raise Unauthorized. */
  predicate AnsweredUnauthorized(t: Transport)
  {
    t.HttpFailure? && CheckStatus(t.status, t.text, t.reason).Some?
    && CheckStatus(t.status, t.text, t.reason).value.kind == Unauthorized
  }

  /**
   * One pass through `request`: the timeout check against the time of the
   * first attempt, the back-off pause, the URL, the call, and the handling
   * of the answer. Only an Unauthorized answer leads to a retry.
   */
  function AttemptStep(baseUrl: string, retryTimeout: real, path: string, params: seq<(string, string)>,
                       first: Option<real>, retry: nat, postJson: Option<Json.Json>, a: Attempt): (s: Step)
    requires 0.0 <= a.draw < 1.0
    // Timed out: Timeout() is raised before any pause, URL or call.
    ensures TimedOut(retryTimeout, first, a) ==> s == Done(Trace(Raises(Raise(Timeout, [])), [], [], 0, None))
    // Otherwise exactly one call is sent, to the URL recorded last.
    ensures !TimedOut(retryTimeout, first, a) && s.Done? ==>
      s.trace.calls == [TheCall(baseUrl, path, params, postJson)]
      && s.trace.lastUrl == Some(TheCall(baseUrl, path, params, postJson).url)
    ensures !TimedOut(retryTimeout, first, a) && a.transport.Delivered? ==> s.Done? && s.trace.outcome == Returned(a.transport.body)
    ensures !TimedOut(retryTimeout, first, a) && a.transport.TransportTimeout? ==> s.Done? && s.trace.outcome == Raises(Raise(Timeout, []))
    ensures s.RetryAfter? <==> !TimedOut(retryTimeout, first, a) && AnsweredUnauthorized(a.transport)
    ensures !TimedOut(retryTimeout, first, a) && a.transport.HttpFailure? ==>
      var c := CheckStatus(a.transport.status, a.transport.text, a.transport.reason);
      (c.None? ==> s.Done? && s.trace.outcome == Raises(TransportError(a.transport.status)))
      && (c.Some? && c.value.kind != Unauthorized ==> s.Done? && s.trace.outcome == Raises(Api(c.value)))
    ensures s.Done? ==> s.trace.overQueryLimit == 0 && |s.trace.calls| <= 1
    ensures s.Done? ==> forall i :: 0 <= i < |s.trace.calls| ==> s.trace.calls[i] == TheCall(baseUrl, path, params, postJson)
    ensures s.Done? ==> PausesFor(s.trace.sleeps, retry, a.draw)
    ensures s.Done? ==> !(s.trace.outcome.Raises? && s.trace.outcome.raised.Api? && s.trace.outcome.raised.error.kind == Unauthorized)
    ensures s.Done? ==> !s.trace.outcome.NoMoreAttempts?
    ensures s.Done? && s.trace.outcome.Returned? ==> |s.trace.calls| == 1
    ensures s.RetryAfter? ==> s.call == TheCall(baseUrl, path, params, postJson)
    ensures s.RetryAfter? ==> s.sleeps == if retry > 0 then [BackoffDelay(retry, a.draw).value] else []
    ensures s.RetryAfter? ==> s.start == if first.Some? then first.value else a.now
  {
    var start := if first.Some? then first.value else a.now;
    if a.now - start > retryTimeout then Done(Trace(Raises(Raise(Timeout, [])), [], [], 0, None))
    else
      var sleeps := if retry > 0 then [BackoffDelay(retry, a.draw).value] else [];
      match GenerateAuthUrl(path, params)
      case Failure(e) => Done(Trace(Raises(BadUrl(e)), [], sleeps, 0, None))
      case Success(authed) =>
        var url := baseUrl + authed;
        var call := Call(MethodFor(postJson), url, postJson);
        match a.transport
        case Delivered(body) => Done(Trace(Returned(body), [call], sleeps, 0, Some(url)))
        case TransportTimeout => Done(Trace(Raises(Raise(Timeout, [])), [call], sleeps, 0, Some(url)))
        case HttpFailure(status, text, reason) =>
          match CheckStatus(status, text, reason)
          case None => Done(Trace(Raises(TransportError(status)), [call], sleeps, 0, Some(url)))
          case Some(e) =>
            if e.kind == Unauthorized then RetryAfter(call, sleeps, start)
            else Done(Trace(Raises(Api(e)), [call], sleeps, 0, Some(url)))
  }

  /** `request(path, params, first, retry, postJson)` against the attempts in `script`. */
  function RequestSpec(baseUrl: string, retryTimeout: real, path: string, params: seq<(string, string)>,
                       first: Option<real>, retry: nat, postJson: Option<Json.Json>, script: seq<Attempt>): Trace
    requires DrawsInRange(script)
    decreases |script|
  {
    if script == [] then Trace(NoMoreAttempts, [], [], 0, None)
    else
      match AttemptStep(baseUrl, retryTimeout, path, params, first, retry, postJson, script[0])
      case Done(t) => t
      case RetryAfter(call, sleeps, start) =>
        var rest := RequestSpec(baseUrl, retryTimeout, path, params, Some(start), retry + 1, postJson, script[1..]);
        Trace(rest.outcome, [call] + rest.calls, sleeps + rest.sleeps, rest.overQueryLimit + 1,
              if rest.lastUrl.Some? then rest.lastUrl else Some(call.url))
  }

  lemma AppendAssoc<T>(a: seq<T>, b: seq<T>, c: seq<T>)
    ensures a + b + c == a + (b + c)
  {
  }

  /** Unfolds `RequestSpec` after an attempt that returns or raises. */
  lemma RequestSpecDone(baseUrl: string, retryTimeout: real, path: string, params: seq<(string, string)>,
                        first: Option<real>, retry: nat, postJson: Option<Json.Json>, script: seq<Attempt>, t: Trace)
    requires DrawsInRange(script) && script != []
    requires AttemptStep(baseUrl, retryTimeout, path, params, first, retry, postJson, script[0]) == Done(t)
    ensures RequestSpec(baseUrl, retryTimeout, path, params, first, retry, postJson, script) == t
  {
  }

  /** Unfolds `RequestSpec` after an attempt answered Unauthorized. */
  lemma RequestSpecRetry(baseUrl: string, retryTimeout: real, path: string, params: seq<(string, string)>,
                         first: Option<real>, retry: nat, postJson: Option<Json.Json>, script: seq<Attempt>,
                         call: Call, sleeps: seq<real>, start: real)
    requires DrawsInRange(script) && script != []
    requires AttemptStep(baseUrl, retryTimeout, path, params, first, retry, postJson, script[0]) == RetryAfter(call, sleeps, start)
    ensures DrawsInRange(script[1..])
    ensures var rest := RequestSpec(baseUrl, retryTimeout, path, params, Some(start), retry + 1, postJson, script[1..]);
      RequestSpec(baseUrl, retryTimeout, path, params, first, retry, postJson, script)
        == Trace(rest.outcome, [call] + rest.calls, sleeps + rest.sleeps, rest.overQueryLimit + 1,
                 if rest.lastUrl.Some? then rest.lastUrl else Some(call.url))
  {
  }

  predicate AllCallsAre(calls: seq<Call>, c: Call)
  {
    forall i :: 0 <= i < |calls| ==> calls[i] == c
  }

  /**
   * Every call one `request` sends, retries included, is the same
   * request: the same method, the base URL followed by the path and the
   * sorted urlencoded parameters, and the same body.
   */
  lemma {:induction false} RetriesResendSameCall(baseUrl: string, retryTimeout: real, path: string, params: seq<(string, string)>,
                                                 first: Option<real>, retry: nat, postJson: Option<Json.Json>, script: seq<Attempt>)
    requires DrawsInRange(script)
    ensures AllCallsAre(RequestSpec(baseUrl, retryTimeout, path, params, first, retry, postJson, script).calls,
                        TheCall(baseUrl, path, params, postJson))
    decreases |script|
  {
    if script != [] {
      var t := RequestSpec(baseUrl, retryTimeout, path, params, first, retry, postJson, script);
      match AttemptStep(baseUrl, retryTimeout, path, params, first, retry, postJson, script[0])
      case Done(tr) =>
        assert t == tr;
      case RetryAfter(call, sleeps, start) =>
        var rest := RequestSpec(baseUrl, retryTimeout, path, params, Some(start), retry + 1, postJson, script[1..]);
        RetriesResendSameCall(baseUrl, retryTimeout, path, params, Some(start), retry + 1, postJson, script[1..]);
        assert t.calls == [call] + rest.calls;
    }
  }

  /**
   * A fresh `request` whose first answer delivers a body returns that body
   * after exactly one call and no pause.
   */
  lemma FreshRequestDelivered(baseUrl: string, retryTimeout: real, path: string, params: seq<(string, string)>,
                              postJson: Option<Json.Json>, script: seq<Attempt>)
    requires DrawsInRange(script) && script != [] && script[0].transport.Delivered?
    requires 0.0 <= retryTimeout
    ensures var c := TheCall(baseUrl, path, params, postJson);
      RequestSpec(baseUrl, retryTimeout, path, params, None, 0, postJson, script)
        == Trace(Returned(script[0].transport.body), [c], [], 0, Some(c.url))
  {
    var s := AttemptStep(baseUrl, retryTimeout, path, params, None, 0, postJson, script[0]);
    assert !TimedOut(retryTimeout, None, script[0]);
    RequestSpecDone(baseUrl, retryTimeout, path, params, None, 0, postJson, script, s.trace);
  }

  /**
   * Once more than `retry_timeout` has passed since the first request,
   * `request` raises Timeout() (a TypeError, as the status is missing)
   * without sending anything.
   */
  lemma TimedOutRaises(baseUrl: string, retryTimeout: real, path: string, params: seq<(string, string)>,
                       first: Option<real>, retry: nat, postJson: Option<Json.Json>, script: seq<Attempt>)
    requires DrawsInRange(script) && script != [] && TimedOut(retryTimeout, first, script[0])
    ensures RequestSpec(baseUrl, retryTimeout, path, params, first, retry, postJson, script)
      == Trace(Raises(ConstructorFailure(Timeout, MissingStatus)), [], [], 0, None)
  {
    RequestSpecDone(baseUrl, retryTimeout, path, params, first, retry, postJson, script,
                    Trace(Raises(Raise(Timeout, [])), [], [], 0, None));
  }

  /** Whether some attempt of the script delivers `body`. */
  predicate SomeAttemptDelivers(script: seq<Attempt>, body: Json.Json)
  {
    exists k :: 0 <= k < |script| && script[k].transport == Delivered(body)
  }

  /** The body `request` returns is the body one of its attempts delivered. */
  lemma {:induction false} ReturnedBodyWasDelivered(baseUrl: string, retryTimeout: real, path: string, params: seq<(string, string)>,
                                                    first: Option<real>, retry: nat, postJson: Option<Json.Json>, script: seq<Attempt>)
    requires DrawsInRange(script)
    ensures var o := RequestSpec(baseUrl, retryTimeout, path, params, first, retry, postJson, script).outcome;
      o.Returned? ==> SomeAttemptDelivers(script, o.body)
    decreases |script|
  {
    if script != [] {
      var t := RequestSpec(baseUrl, retryTimeout, path, params, first, retry, postJson, script);
      match AttemptStep(baseUrl, retryTimeout, path, params, first, retry, postJson, script[0])
      case Done(tr) =>
        assert t == tr;
        if t.outcome.Returned? {
          assert script[0].transport == Delivered(t.outcome.body);
        }
      case RetryAfter(call, sleeps, start) =>
        var rest := RequestSpec(baseUrl, retryTimeout, path, params, Some(start), retry + 1, postJson, script[1..]);
        ReturnedBodyWasDelivered(baseUrl, retryTimeout, path, params, Some(start), retry + 1, postJson, script[1..]);
        assert t.outcome == rest.outcome;
        if t.outcome.Returned? {
          var k :| 0 <= k < |script[1..]| && script[1..][k].transport == Delivered(t.outcome.body);
          assert script[k + 1].transport == Delivered(t.outcome.body);
        }
    }
  }

  /** The facts about one `request` that hold whatever the environment answers. */
  predicate RetryFacts(t: Trace, attempts: nat)
  {
    !(t.outcome.Raises? && t.outcome.raised.Api? && t.outcome.raised.error.kind == Unauthorized)
    && t.overQueryLimit <= |t.calls| <= attempts
    && (t.outcome.Returned? ==> t.overQueryLimit + 1 == |t.calls|)
  }

  /**
   * An Unauthorized answer never escapes `request`: it is always retried,
   * and every retry emits one overQueryLimit signal and sends one call.
   */
  lemma {:induction false} UnauthorizedIsRetried(baseUrl: string, retryTimeout: real, path: string, params: seq<(string, string)>,
                                                 first: Option<real>, retry: nat, postJson: Option<Json.Json>, script: seq<Attempt>)
    requires DrawsInRange(script)
    ensures RetryFacts(RequestSpec(baseUrl, retryTimeout, path, params, first, retry, postJson, script), |script|)
    decreases |script|
  {
    if script != [] {
      var t := RequestSpec(baseUrl, retryTimeout, path, params, first, retry, postJson, script);
      match AttemptStep(baseUrl, retryTimeout, path, params, first, retry, postJson, script[0])
      case Done(tr) =>
        assert t == tr;
      case RetryAfter(call, sleeps, start) =>
        var rest := RequestSpec(baseUrl, retryTimeout, path, params, Some(start), retry + 1, postJson, script[1..]);
        UnauthorizedIsRetried(baseUrl, retryTimeout, path, params, Some(start), retry + 1, postJson, script[1..]);
        assert t.calls == [call] + rest.calls && t.outcome == rest.outcome && t.overQueryLimit == rest.overQueryLimit + 1;
    }
  }

  /** The i-th pause lies in [0.5 * 1.5^(base+i), 1.5 * 1.5^(base+i)). */
  predicate PausesGrow(sleeps: seq<real>, base: nat)
  {
    forall i :: 0 <= i < |sleeps| ==> 0.5 * Pow15(base + i) <= sleeps[i] < 1.5 * Pow15(base + i)
  }

  lemma PausesGrowCons(x: real, rest: seq<real>, base: nat)
    requires 0.5 * Pow15(base) <= x < 1.5 * Pow15(base)
    requires PausesGrow(rest, base + 1)
    ensures PausesGrow([x] + rest, base)
  {
    var s := [x] + rest;
    forall i | 1 <= i < |s| ensures 0.5 * Pow15(base + i) <= s[i] < 1.5 * Pow15(base + i) {
      assert s[i] == rest[i - 1] && base + 1 + (i - 1) == base + i;
    }
  }

  lemma SleepsOfFinalAttempt(baseUrl: string, retryTimeout: real, path: string, params: seq<(string, string)>,
                             first: Option<real>, retry: nat, postJson: Option<Json.Json>, script: seq<Attempt>)
    requires DrawsInRange(script) && script != [] && retry > 0
    requires AttemptStep(baseUrl, retryTimeout, path, params, first, retry, postJson, script[0]).Done?
    ensures PausesGrow(RequestSpec(baseUrl, retryTimeout, path, params, first, retry, postJson, script).sleeps, retry - 1)
  {
    var t := RequestSpec(baseUrl, retryTimeout, path, params, first, retry, postJson, script);
    var d := BackoffDelay(retry, script[0].draw).value;
    assert t == AttemptStep(baseUrl, retryTimeout, path, params, first, retry, postJson, script[0]).trace;
    assert |t.sleeps| == 1 ==> t.sleeps == [d];
  }

  lemma {:induction false} SleepsOfRetry(baseUrl: string, retryTimeout: real, path: string, params: seq<(string, string)>,
                                         first: Option<real>, retry: nat, postJson: Option<Json.Json>, script: seq<Attempt>)
    requires DrawsInRange(script) && script != [] && retry > 0
    requires AttemptStep(baseUrl, retryTimeout, path, params, first, retry, postJson, script[0]).RetryAfter?
    ensures PausesGrow(RequestSpec(baseUrl, retryTimeout, path, params, first, retry, postJson, script).sleeps, retry - 1)
    decreases |script|, 0
  {
    var t := RequestSpec(baseUrl, retryTimeout, path, params, first, retry, postJson, script);
    var d := BackoffDelay(retry, script[0].draw).value;
    var start := AttemptStep(baseUrl, retryTimeout, path, params, first, retry, postJson, script[0]).start;
    var rest := RequestSpec(baseUrl, retryTimeout, path, params, Some(start), retry + 1, postJson, script[1..]);
    SleepsFollowBackoff(baseUrl, retryTimeout, path, params, Some(start), retry + 1, postJson, script[1..]);
    assert t.sleeps == [d] + rest.sleeps;
    PausesGrowCons(d, rest.sleeps, retry - 1);
  }

  /** The pauses of a `request` started at retry counter `retry` > 0 follow the back-off from 1.5^(retry-1) on. */
  lemma {:induction false} SleepsFollowBackoff(baseUrl: string, retryTimeout: real, path: string, params: seq<(string, string)>,
                                               first: Option<real>, retry: nat, postJson: Option<Json.Json>, script: seq<Attempt>)
    requires DrawsInRange(script) && retry > 0
    ensures PausesGrow(RequestSpec(baseUrl, retryTimeout, path, params, first, retry, postJson, script).sleeps, retry - 1)
    decreases |script|, 1
  {
    if script != [] {
      if AttemptStep(baseUrl, retryTimeout, path, params, first, retry, postJson, script[0]).Done? {
        SleepsOfFinalAttempt(baseUrl, retryTimeout, path, params, first, retry, postJson, script);
      } else {
        SleepsOfRetry(baseUrl, retryTimeout, path, params, first, retry, postJson, script);
      }
    }
  }

  /**
   * A fresh `request` (no first time, retry counter 0) does not pause
   * before its first call and pauses about 1.5^i seconds before retry i+1.
   */
  lemma FreshRequestBackoff(baseUrl: string, retryTimeout: real, path: string, params: seq<(string, string)>,
                            postJson: Option<Json.Json>, script: seq<Attempt>)
    requires DrawsInRange(script)
    ensures PausesGrow(RequestSpec(baseUrl, retryTimeout, path, params, None, 0, postJson, script).sleeps, 0)
  {
    if script != [] {
      var t := RequestSpec(baseUrl, retryTimeout, path, params, None, 0, postJson, script);
      match AttemptStep(baseUrl, retryTimeout, path, params, None, 0, postJson, script[0])
      case Done(tr) =>
        assert t == tr;
      case RetryAfter(call, sleeps, start) =>
        SleepsFollowBackoff(baseUrl, retryTimeout, path, params, Some(start), 1, postJson, script[1..]);
    }
  }

  // ---------------------------------------------------------------------
  // check_api_metadata

  /** What `check_api_metadata` returns and which message it shows. */
  datatype MetadataAnswer =
    | Metadata(body: Json.Json)
      /** ServiceUnavailable: "endpoint not available", returns False. */
    | Unavailable
      /** Any other exception: "endpoint not healthy", returns False. */
    | Unhealthy
    | NoAnswer

  function MetadataAnswerOf(o: Outcome): (r: MetadataAnswer)
    ensures o.Returned? <==> r.Metadata?
    ensures o.Returned? ==> r == Metadata(o.body)
    ensures r.Unavailable? <==> o.Raises? && o.raised.Api? && o.raised.error.kind == ServiceUnavailable
    ensures o.Raises? && !(o.raised.Api? && o.raised.error.kind == ServiceUnavailable) ==> r == Unhealthy
    ensures r.NoAnswer? <==> o.NoMoreAttempts?
  {
    match o
    case Returned(body) => Metadata(body)
    case Raises(Api(e)) => if e.kind == ServiceUnavailable then Unavailable else Unhealthy
    case Raises(_) => Unhealthy
    case NoMoreAttempts => NoAnswer
  }

  // ---------------------------------------------------------------------
  // The client object

  class OhsomeClient {
    const baseUrl: string
    const retryTimeout: real
    /** The URL of the last request built. */
    var url: Option<string>
    var canceled: bool
    /** The calls handed to the network, in order. */
    var sent: seq<Call>
    /** The pauses taken, in order. */
    var slept: seq<real>
    /** How often overQueryLimit was emitted. */
    var overQueryLimitEmitted: nat

    constructor (baseUrl: string, retryTimeout: real)
      ensures this.baseUrl == baseUrl && this.retryTimeout == retryTimeout
      ensures url == None && !canceled && sent == [] && slept == [] && overQueryLimitEmitted == 0
    {
      this.baseUrl := baseUrl;
      this.retryTimeout := retryTimeout;
      url := None;
      canceled := false;
      sent := [];
      slept := [];
      overQueryLimitEmitted := 0;
    }

    /** `cancel`: aborts the network manager and marks the client canceled. */
    method Cancel()
      modifies this`canceled
      ensures canceled
    {
      canceled := true;
    }

    /**
     * One pass through `request` up to the point where it returns, raises
     * or retries: records the URL, the pause and the call it makes.
     */
    method AttemptOnce(path: string, params: seq<(string, string)>, first: Option<real>, retry: nat,
                       postJson: Option<Json.Json>, a: Attempt) returns (step: Step)
      requires 0.0 <= a.draw < 1.0
      modifies this`url, this`sent, this`slept
      ensures step == AttemptStep(baseUrl, retryTimeout, path, params, first, retry, postJson, a)
      ensures step.Done? ==>
        url == (if step.trace.lastUrl.Some? then step.trace.lastUrl else old(url))
        && sent == old(sent) + step.trace.calls && slept == old(slept) + step.trace.sleeps
      ensures step.RetryAfter? ==> url == Some(step.call.url) && sent == old(sent) + [step.call] && slept == old(slept) + step.sleeps
    {
      var start := if first.Some? then first.value else a.now;
      if a.now - start > retryTimeout {
        return Done(Trace(Raises(Raise(Timeout, [])), [], [], 0, None));
      }
      var pause: seq<real> := [];
      if retry > 0 {
        pause := [BackoffDelay(retry, a.draw).value];
      }
      slept := slept + pause;
      var authed := GenerateAuthUrl(path, params);
      var u := baseUrl + authed.value;
      url := Some(u);
      var call := Call(MethodFor(postJson), u, postJson);
      sent := sent + [call];
      match a.transport {
        case Delivered(body) =>
          step := Done(Trace(Returned(body), [call], pause, 0, Some(u)));
        case TransportTimeout =>
          step := Done(Trace(Raises(Raise(Timeout, [])), [call], pause, 0, Some(u)));
        case HttpFailure(status, text, reason) =>
          var raised := CheckStatus(status, text, reason);
          if raised.None? {
            step := Done(Trace(Raises(TransportError(status)), [call], pause, 0, Some(u)));
          } else if raised.value.kind == Unauthorized {
            step := RetryAfter(call, pause, start);
          } else {
            step := Done(Trace(Raises(Api(raised.value)), [call], pause, 0, Some(u)));
          }
      }
    }

    /**
     * `request`: attempts until an answer other than Unauthorized arrives,
     * emitting overQueryLimit before every retry.
     */
    method Request(path: string, params: seq<(string, string)>, first: Option<real>, retry: nat,
                   postJson: Option<Json.Json>, script: seq<Attempt>) returns (outcome: Outcome)
      requires DrawsInRange(script)
      modifies this`url, this`sent, this`slept, this`overQueryLimitEmitted
      ensures var t := RequestSpec(baseUrl, retryTimeout, path, params, first, retry, postJson, script);
        outcome == t.outcome
        && url == (if t.lastUrl.Some? then t.lastUrl else old(url))
        && sent == old(sent) + t.calls
        && slept == old(slept) + t.sleeps
        && overQueryLimitEmitted == old(overQueryLimitEmitted) + t.overQueryLimit
      decreases |script|
    {
      if script == [] {
        return NoMoreAttempts;
      }
      var step := AttemptOnce(path, params, first, retry, postJson, script[0]);
      if step.Done? {
        RequestSpecDone(baseUrl, retryTimeout, path, params, first, retry, postJson, script, step.trace);
        return step.trace.outcome;
      }
      overQueryLimitEmitted := overQueryLimitEmitted + 1;
      ghost var sentMid, sleptMid := sent, slept;
      outcome := Request(path, params, Some(step.start), retry + 1, postJson, script[1..]);
      RequestSpecRetry(baseUrl, retryTimeout, path, params, first, retry, postJson, script, step.call, step.sleeps, step.start);
      ghost var rest := RequestSpec(baseUrl, retryTimeout, path, params, Some(step.start), retry + 1, postJson, script[1..]);
      AppendAssoc(old(sent), [step.call], rest.calls);
      AppendAssoc(old(slept), step.sleeps, rest.sleeps);
    }

    /** `check_api_metadata`: GET /metadata; ServiceUnavailable and every other exception both give False. */
    method CheckApiMetadata(script: seq<Attempt>) returns (answer: MetadataAnswer)
      requires DrawsInRange(script)
      modifies this`url, this`sent, this`slept, this`overQueryLimitEmitted
      ensures var t := RequestSpec(baseUrl, retryTimeout, "/metadata", [], None, 0, None, script);
        answer == MetadataAnswerOf(t.outcome)
        && url == (if t.lastUrl.Some? then t.lastUrl else old(url))
        && sent == old(sent) + t.calls
        && slept == old(slept) + t.sleeps
        && overQueryLimitEmitted == old(overQueryLimitEmitted) + t.overQueryLimit
    {
      var outcome := Request("/metadata", [], None, 0, None, script);
      answer := MetadataAnswerOf(outcome);
    }
  }
}
