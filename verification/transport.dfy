/**
 * The event client's request path (`makeRequest` and `handleRequestException`
 * of the event client): a testing short-circuit, then up to `attempts` HTTP
 * requests with multiplicative backoff between them. The network is replaced
 * by the script of outcomes the successive requests would meet, and each
 * `usleep` by an entry in the list of delays slept.
 */
module Transport {
  import opened Basics
  import opened Values
  import opened Errors
  import opened Config

  /** What one HTTP request ended with. */
  datatype Outcome =
      /** A 2xx answer whose body decodes to a JSON object, or `None` when the body
          is empty or not JSON, so that `json_decode` gives null. */
    | Delivered(body: Option<Array>)
      /** A Guzzle `RequestException`: the status of the response if there was one,
          the raw response body ("" without a response), the `message` field that
          body decodes to if any, and the exception's own text. */
    | HttpError(status: Option<int>, rawBody: string, bodyMessage: Option<string>, text: string)
      /** Any other Guzzle failure (the connection never produced a request exception). */
    | TransportError(text: string)

  /** The observable result of a request: what it returned or raised, how many
      HTTP requests were issued, and the delays slept between them (milliseconds). */
  datatype Sent = Sent(result: Result<Array>, attempts: nat, sleeps: seq<nat>)

  const SuccessReply: Array := map["success" := Bool(true)]
  const TestingReply: Array := map["success" := Bool(true), "testing" := Bool(true)]
  const ExhaustedMessage := "Maximum retry attempts exceeded"
  const ApiCommunicationPrefix := "Failed to communicate with Dittofeed API: "

  /** The message of a request exception: the decoded body's `message`, else the
      raw body, when the body is truthy; otherwise the exception's own text. */
  function ExceptionMessage(status: Option<int>, body: string, bodyMessage: Option<string>, text: string): string {
    if !EmptyString(body) then bodyMessage.GetOr(body) else text
  }

  /** The error a failed response is turned into. */
  function Classify(status: Option<int>, message: string): (e: Error)
    ensures status == Some(401) || status == Some(403) <==> e == AuthenticationError(Some(message))
    ensures status == Some(429) <==> e == RateLimitError(Some(message))
    ensures status != Some(401) && status != Some(403) && status != Some(429) ==>
              e == ApiError(message, status.GetOr(0))
  {
    if status == Some(401) || status == Some(403) then AuthenticationError(Some(message))
    else if status == Some(429) then RateLimitError(Some(message))
    else ApiError(message, status.GetOr(0))
  }

  /** A 4xx status other than 429: never retried. */
  predicate FatalStatus(status: Option<int>) {
    status.Some? && status.value != 0 && 400 <= status.value < 500 && status.value != 429
  }

  /** An outcome after which another attempt is made if the budget allows:
      429, 5xx, any other status, or a request exception without a response. */
  predicate Retryable(o: Outcome) {
    o.HttpError? && !FatalStatus(o.status)
  }

  /** What the request settles on when it stops at outcome `o`. */
  function Verdict(o: Outcome): Result<Array> {
    match o
    case Delivered(body) => Ok(body.GetOr(SuccessReply))
    case HttpError(status, body, bodyMessage, text) =>
      Err(Classify(status, ExceptionMessage(status, body, bodyMessage, text)))
    case TransportError(text) => Err(NetworkError(ApiCommunicationPrefix + text))
  }

  function Power(b: nat, e: nat): nat {
    if e == 0 then 1 else b * Power(b, e - 1)
  }

  /** The retry loop from attempt number `done` on, with `delay` the next sleep. */
  function Retry(outcomes: seq<Outcome>, maxAttempts: int, done: nat, delay: nat, multiplier: nat): (r: Sent)
    requires maxAttempts <= |outcomes|
    requires done == 0 || done < maxAttempts
    decreases maxAttempts - done
  {
    if done >= maxAttempts then Sent(Err(NetworkError(ExhaustedMessage)), done, [])
    else
      var o := outcomes[done];
      if Retryable(o) && done + 1 < maxAttempts then
        var rest := Retry(outcomes, maxAttempts, done + 1, delay * multiplier, multiplier);
        Sent(rest.result, rest.attempts, [delay] + rest.sleeps)
      else Sent(Verdict(o), done + 1, [])
  }

  /** The whole request under a configuration: testing mode answers at once. */
  function Send(s: Settings, outcomes: seq<Outcome>): Sent
    requires MaxAttempts(s) <= |outcomes|
  {
    if Testing(s) then Sent(Ok(TestingReply), 0, [])
    else Retry(outcomes, MaxAttempts(s), 0, InitialDelay(s), Multiplier(s))
  }

  /** The source's loop, statement for statement. */
  method MakeRequest(s: Settings, outcomes: seq<Outcome>) returns (r: Sent)
    requires MaxAttempts(s) <= |outcomes|
    ensures r == Send(s, outcomes)
    ensures Testing(s) ==> r == Sent(Ok(TestingReply), 0, [])
    ensures !Testing(s) && MaxAttempts(s) <= 0 ==> r == Sent(Err(NetworkError(ExhaustedMessage)), 0, [])
    ensures r.attempts > 0 ==> |r.sleeps| == r.attempts - 1
  {
    if Testing(s) {
      return Sent(Ok(TestingReply), 0, []);
    }
    var attempts: nat := 0;
    var maxAttempts := MaxAttempts(s);
    var delay := InitialDelay(s);
    var multiplier := Multiplier(s);
    var sleeps: seq<nat> := [];
    ghost var whole := Retry(outcomes, maxAttempts, 0, delay, multiplier);
    while attempts < maxAttempts
      invariant attempts == 0 || attempts < maxAttempts
      invariant |sleeps| == attempts
      invariant var rest := Retry(outcomes, maxAttempts, attempts, delay, multiplier);
                whole == Sent(rest.result, rest.attempts, sleeps + rest.sleeps)
      decreases maxAttempts - attempts
    {
      var o := outcomes[attempts];
      match o {
        case Delivered(body) =>
          return Sent(Ok(body.GetOr(SuccessReply)), attempts + 1, sleeps);
        case TransportError(text) =>
          return Sent(Err(NetworkError(ApiCommunicationPrefix + text)), attempts + 1, sleeps);
        case HttpError(status, body, bodyMessage, text) =>
          attempts := attempts + 1;
          var message := ExceptionMessage(status, body, bodyMessage, text);
          if FatalStatus(status) {
            return Sent(Err(Classify(status, message)), attempts, sleeps);
          }
          if attempts >= maxAttempts {
            return Sent(Err(Classify(status, message)), attempts, sleeps);
          }
          sleeps := sleeps + [delay];
          delay := delay * multiplier;
      }
    }
    return Sent(Err(NetworkError(ExhaustedMessage)), attempts, sleeps);
  }

  /* ---------- what the retry loop does, stated without recursion ---------- */

  /** If attempt `k` is the first one (from `done` on) that does not call for a
      retry, or the last one the budget allows, the loop stops right there:
      `k + 1` requests, sleeps `delay, delay*m, ...` between them, and the
      verdict of outcome `k`. */
  lemma {:induction false} RetryStopsAtFirstSettled(outcomes: seq<Outcome>, maxAttempts: int, done: nat,
                                                    delay: nat, multiplier: nat, k: nat)
    requires maxAttempts <= |outcomes|
    requires done <= k < maxAttempts
    requires forall j :: done <= j < k ==> Retryable(outcomes[j])
    requires k == maxAttempts - 1 || !Retryable(outcomes[k])
    ensures var r := Retry(outcomes, maxAttempts, done, delay, multiplier);
            && r.attempts == k + 1
            && |r.sleeps| == k - done
            && (forall i :: 0 <= i < k - done ==> r.sleeps[i] == delay * Power(multiplier, i))
            && r.result == Verdict(outcomes[k])
    decreases k - done
  {
    if done < k {
      RetryStopsAtFirstSettled(outcomes, maxAttempts, done + 1, delay * multiplier, multiplier, k);
      var rest := Retry(outcomes, maxAttempts, done + 1, delay * multiplier, multiplier);
      forall i | 0 <= i < k - done - 1
        ensures rest.sleeps[i] == delay * Power(multiplier, i + 1)
      {
        assert rest.sleeps[i] == (delay * multiplier) * Power(multiplier, i);
        MultiplyAssociates(delay, multiplier, Power(multiplier, i));
      }
    }
  }

  lemma MultiplyAssociates(a: nat, b: nat, c: nat)
    ensures (a * b) * c == a * (b * c)
  {
  }

  /** The request sleeps exactly once between two consecutive requests, the
      i-th sleep is `delay * multiplier^i`, and it never issues more requests
      than the configured number of attempts. */
  lemma SendShape(s: Settings, outcomes: seq<Outcome>)
    requires MaxAttempts(s) <= |outcomes|
    ensures var r := Send(s, outcomes);
            && (r.attempts == 0 <==> Testing(s) || MaxAttempts(s) <= 0)
            && (r.attempts > 0 ==> r.attempts <= MaxAttempts(s) && |r.sleeps| == r.attempts - 1)
            && (forall i :: 0 <= i < |r.sleeps| ==> r.sleeps[i] == InitialDelay(s) * Power(Multiplier(s), i))
  {
    var n := MaxAttempts(s);
    if !Testing(s) && n > 0 {
      var k := FirstSettled(outcomes, n, 0);
      RetryStopsAtFirstSettled(outcomes, n, 0, InitialDelay(s), Multiplier(s), k);
    }
  }

  /** The index of the first outcome from `from` on that ends the loop. */
  function FirstSettled(outcomes: seq<Outcome>, maxAttempts: int, from: nat): (k: nat)
    requires maxAttempts <= |outcomes|
    requires from < maxAttempts
    ensures from <= k < maxAttempts
    ensures forall j :: from <= j < k ==> Retryable(outcomes[j])
    ensures k == maxAttempts - 1 || !Retryable(outcomes[k])
    decreases maxAttempts - from
  {
    if from == maxAttempts - 1 || !Retryable(outcomes[from]) then from
    else FirstSettled(outcomes, maxAttempts, from + 1)
  }

  /** A 4xx other than 429 on the first request fails at once: one request,
      no sleep, the classified error, whatever the attempt budget. */
  lemma ClientErrorIsNotRetried(s: Settings, outcomes: seq<Outcome>)
    requires MaxAttempts(s) <= |outcomes|
    requires !Testing(s) && MaxAttempts(s) >= 1
    requires outcomes[0].HttpError? && FatalStatus(outcomes[0].status)
    ensures Send(s, outcomes) == Sent(Verdict(outcomes[0]), 1, [])
    ensures Send(s, outcomes).result.Err?
  {
  }

  /** With every allowed attempt failing retryably, the request is made exactly
      `n` times, sleeps `d, d*m, ..., d*m^(n-2)`, and raises the classification
      of the last failure. */
  lemma ExhaustedRetries(s: Settings, outcomes: seq<Outcome>)
    requires MaxAttempts(s) <= |outcomes|
    requires !Testing(s) && MaxAttempts(s) >= 1
    requires forall j :: 0 <= j < MaxAttempts(s) ==> Retryable(outcomes[j])
    ensures var n := MaxAttempts(s);
            var r := Send(s, outcomes);
            && r.attempts == n
            && |r.sleeps| == n - 1
            && (forall i :: 0 <= i < n - 1 ==> r.sleeps[i] == InitialDelay(s) * Power(Multiplier(s), i))
            && r.result == Verdict(outcomes[n - 1])
            && r.result.Err?
  {
    var n := MaxAttempts(s);
    RetryStopsAtFirstSettled(outcomes, n, 0, InitialDelay(s), Multiplier(s), n - 1);
  }

  /** The request succeeds exactly when some outcome within the budget is a 2xx
      answer and every earlier one called for a retry; an empty or undecodable
      body then reads as `{success: true}`. */
  lemma SuccessCharacterized(s: Settings, outcomes: seq<Outcome>)
    requires MaxAttempts(s) <= |outcomes|
    requires !Testing(s)
    ensures Send(s, outcomes).result.Ok? <==>
            exists k :: 0 <= k < MaxAttempts(s) && outcomes[k].Delivered?
                        && forall j :: 0 <= j < k ==> Retryable(outcomes[j])
    ensures forall k :: 0 <= k < MaxAttempts(s) && outcomes[k] == Delivered(None)
                        && (forall j :: 0 <= j < k ==> Retryable(outcomes[j])) ==>
              Send(s, outcomes).result == Ok(SuccessReply)
  {
    var n := MaxAttempts(s);
    if n > 0 {
      var k := FirstSettled(outcomes, n, 0);
      RetryStopsAtFirstSettled(outcomes, n, 0, InitialDelay(s), Multiplier(s), k);
      forall k' | 0 <= k' < n && outcomes[k'].Delivered? && (forall j :: 0 <= j < k' ==> Retryable(outcomes[j]))
        ensures k' == k
      {
        if k' < k {
          assert false;
        } else if k < k' {
          assert false;
        }
      }
    }
  }
}
