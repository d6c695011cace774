/**
 * The forwarding sender (src/sender.rs): one delivery attempt classified into
 * success, temporary failure or permanent failure by the HTTP status class,
 * and the fixed-delay retry loop around it.
 *
 * The HTTP exchange is an oracle `replies: nat -> HttpReply` from the attempt
 * number (counted from 1) to what came back; whether an event can be encoded
 * into a request is the oracle `encodes`.  The observable effects of a send
 * are the requests dispatched and the sleeps between them.
 */
module Forwarding {
  import opened Wrappers
  import opened Config

  /** The per-request timeout when the endpoint configures none. */
  const DefaultTimeoutMs: nat := 5000

  /** The canonical event envelope; its content is opaque to forwarding. */
  datatype Event = Event(
    id: string,
    eventType: string,
    source: string,
    time: Option<string>,
    data: Option<seq<bv8>>,
    dataContentType: Option<string>)

  /** A response status code, three decimal digits. */
  newtype StatusCode = x: int | 100 <= x < 1000 witness 200

  /** Status classes of section 15 of RFC 9110. */
  predicate IsSuccess(code: StatusCode) { 200 <= code < 300 }
  predicate IsClientError(code: StatusCode) { 400 <= code < 500 }
  predicate IsServerError(code: StatusCode) { 500 <= code < 600 }

  /** What one HTTP exchange produced: a response, or a transport failure (connect, timeout, TLS). */
  datatype HttpReply = Status(code: StatusCode) | TransportError

  datatype BasicAuth = BasicAuth(username: string, password: Option<string>)

  /** The request put on the wire for one attempt. */
  datatype Request = Request(
    httpMethod: Method,
    url: string,
    auth: Option<BasicAuth>,
    timeoutMs: nat,
    body: Event)

  /** Why an attempt did not succeed. */
  datatype FailureReason =
    | EncodeFailed
    | ServerError(status: StatusCode)
    | ClientError(status: StatusCode)
    | UnknownStatus(status: StatusCode)
    | RequestFailed

  datatype SendError = Temporary(reason: FailureReason) | Permanent(reason: FailureReason)

  /** A sender: the endpoint settings, the parsed sink URL and the client's timeout and TLS mode. */
  datatype Sender = Sender(config: EndpointConfig, url: string, timeoutMs: nat, acceptInvalidCerts: bool)

  datatype SetupError = InvalidUrl(url: string)

  /**
   * Builds a sender.  Whether the sink URL parses is decided by a URL parser
   * outside the model and enters as `urlParses`.
   */
  function NewSender(url: string, config: EndpointConfig, urlParses: bool): (r: Result<Sender, SetupError>)
    ensures r.Ok? <==> urlParses
    ensures r.Err? ==> r.error == InvalidUrl(url)
    ensures r.Ok? ==> r.value.config == config && r.value.url == url
    ensures r.Ok? ==> r.value.acceptInvalidCerts == config.tlsInsecure
    ensures r.Ok? && config.timeoutMs.Some? ==> r.value.timeoutMs == config.timeoutMs.value
    ensures r.Ok? && config.timeoutMs.None? ==> r.value.timeoutMs == 5000
  {
    if urlParses then
      Ok(Sender(config, url, config.timeoutMs.GetOr(DefaultTimeoutMs), config.tlsInsecure))
    else
      Err(InvalidUrl(url))
  }

  /** The Basic credentials attached to every request: only from `username`, with optional password. */
  function BasicAuthOf(config: EndpointConfig): Option<BasicAuth> {
    if config.username.Some? then Some(BasicAuth(config.username.value, config.password)) else None
  }

  function BuildRequest(s: Sender, event: Event): Request {
    Request(s.config.httpMethod, s.url, BasicAuthOf(s.config), s.timeoutMs, event)
  }

  /** The classification of one HTTP reply. */
  function Classify(reply: HttpReply): (r: Result<(), SendError>)
    ensures r.Ok? <==> reply.Status? && IsSuccess(reply.code)
    ensures r.Err? && r.error.Temporary? <==> reply.TransportError? || IsServerError(reply.code)
    ensures r.Err? && r.error.Permanent? <==>
              reply.Status? && !IsSuccess(reply.code) && !IsServerError(reply.code)
    ensures reply.Status? && IsClientError(reply.code) ==> r == Err(Permanent(ClientError(reply.code)))
  {
    match reply
    case Status(code) =>
      if IsSuccess(code) then Ok(())
      else if IsServerError(code) then Err(Temporary(ServerError(code)))
      else if IsClientError(code) then Err(Permanent(ClientError(code)))
      else Err(Permanent(UnknownStatus(code)))
    case TransportError => Err(Temporary(RequestFailed))
  }

  /** One attempt: the request dispatched (if any) and its classified outcome. */
  datatype Attempt = Attempt(request: Option<Request>, outcome: Result<(), SendError>)

  /**
   * One delivery attempt.  An event that cannot be encoded is a permanent
   * failure and nothing is dispatched; otherwise the request is dispatched
   * and its reply classified.
   */
  function SendOnce(s: Sender, event: Event, encodes: bool, reply: HttpReply): (a: Attempt)
    ensures !encodes ==> a == Attempt(None, Err(Permanent(EncodeFailed)))
    ensures encodes ==> a.request == Some(BuildRequest(s, event)) && a.outcome == Classify(reply)
  {
    if !encodes then Attempt(None, Err(Permanent(EncodeFailed)))
    else Attempt(Some(BuildRequest(s, event)), Classify(reply))
  }

  /** A Basic auth header is sent exactly when a username is configured; the token never is. */
  lemma BasicAuthOnlyFromUsername(s: Sender, event: Event)
    ensures BuildRequest(s, event).auth.Some? <==> s.config.username.Some?
    ensures s.config.username.Some? ==>
              BuildRequest(s, event).auth == Some(BasicAuth(s.config.username.value, s.config.password))
    ensures forall t :: BuildRequest(s.(config := s.config.(token := t)), event) == BuildRequest(s, event)
  {
  }

  /** Temporary outcomes: a transport failure or a 5xx response. */
  predicate IsTemporary(reply: HttpReply) {
    reply.TransportError? || IsServerError(reply.code)
  }

  // ---------------------------------------------------------------------------
  // The retry loop

  /** What a send did besides returning: requests put on the wire and sleeps. */
  datatype Effect = Call(request: Request) | Sleep(ms: nat)

  /** `Done` is the source's `Ok(())`, for a delivered and for a dropped event alike. */
  datatype SendResult = Done | GaveUp(attempts: nat)

  datatype SendRun = SendRun(result: SendResult, effects: seq<Effect>)

  function CallsOf(a: Attempt): seq<Effect> {
    if a.request.Some? then [Call(a.request.value)] else []
  }

  /** The send loop from attempt number `attempt` on: the reference definition of `Send`. */
  function SendFrom(s: Sender, event: Event, encodes: bool, replies: nat -> HttpReply, attempt: nat): SendRun
    requires 1 <= attempt <= s.config.retries + 1
    decreases s.config.retries + 1 - attempt
  {
    var a := SendOnce(s, event, encodes, replies(attempt));
    match a.outcome
    case Ok(_) => SendRun(Done, CallsOf(a))
    case Err(Permanent(_)) => SendRun(Done, CallsOf(a))
    case Err(Temporary(_)) =>
      if attempt > s.config.retries then SendRun(GaveUp(attempt), CallsOf(a))
      else
        var rest := SendFrom(s, event, encodes, replies, attempt + 1);
        SendRun(rest.result, CallsOf(a) + [Sleep(s.config.errorDelayMs)] + rest.effects)
  }

  /** One turn of the send loop: where attempt `attempt` leaves the rest of the run. */
  lemma SendStep(s: Sender, event: Event, encodes: bool, replies: nat -> HttpReply, attempt: nat)
    requires 1 <= attempt <= s.config.retries + 1
    ensures var a := SendOnce(s, event, encodes, replies(attempt));
      var run := SendFrom(s, event, encodes, replies, attempt);
      && (a.outcome.Ok? || a.outcome.error.Permanent? ==> run == SendRun(Done, CallsOf(a)))
      && (a.outcome.Err? && a.outcome.error.Temporary? && attempt > s.config.retries ==>
            run == SendRun(GaveUp(attempt), CallsOf(a)))
      && (a.outcome.Err? && a.outcome.error.Temporary? && attempt <= s.config.retries ==>
            var rest := SendFrom(s, event, encodes, replies, attempt + 1);
            run.result == rest.result && run.effects == CallsOf(a) + [Sleep(s.config.errorDelayMs)] + rest.effects)
  {
  }

  /**
   * Sends `event`, retrying temporary failures after a fixed delay until the
   * retry budget is spent.  Permanent failures drop the event.
   */
  method Send(s: Sender, event: Event, encodes: bool, replies: nat -> HttpReply)
    returns (result: SendResult, effects: seq<Effect>)
    ensures SendRun(result, effects) == SendFrom(s, event, encodes, replies, 1)
  {
    var attempts := 1;
    effects := [];
    ghost var whole := SendFrom(s, event, encodes, replies, 1);
    while true
      invariant 1 <= attempts <= s.config.retries + 1
      invariant whole.result == SendFrom(s, event, encodes, replies, attempts).result
      invariant whole.effects == effects + SendFrom(s, event, encodes, replies, attempts).effects
      decreases s.config.retries + 1 - attempts
    {
      var a := SendOnce(s, event, encodes, replies(attempts));
      SendStep(s, event, encodes, replies, attempts);
      ghost var before := effects;
      effects := effects + CallsOf(a);
      match a.outcome {
        case Ok(_) =>
          result := Done;
          return;
        case Err(Temporary(_)) =>
        case Err(Permanent(_)) =>
          result := Done;
          return;
      }
      if attempts > s.config.retries {
        result := GaveUp(attempts);
        return;
      }
      ghost var rest := SendFrom(s, event, encodes, replies, attempts + 1);
      attempts := attempts + 1;
      effects := effects + [Sleep(s.config.errorDelayMs)];
      assert whole.effects == effects + rest.effects by {
        assert whole.effects == before + (CallsOf(a) + [Sleep(s.config.errorDelayMs)] + rest.effects);
      }
    }
  }

  // ---------------------------------------------------------------------------
  // Properties of the retry loop

  /**
   * The number of attempts a send makes when every request is encoded: the
   * first attempt from `n` on whose reply is not temporary, or `last`.
   */
  function Decisive(replies: nat -> HttpReply, n: nat, last: nat): (k: nat)
    requires 1 <= n <= last
    ensures n <= k <= last
    ensures forall i :: n <= i < k ==> IsTemporary(replies(i))
    ensures k < last ==> !IsTemporary(replies(k))
    decreases last - n
  {
    if n == last || !IsTemporary(replies(n)) then n else Decisive(replies, n + 1, last)
  }

  /** `k` calls of the same request with one sleep between consecutive calls. */
  function Alternating(request: Request, delay: nat, k: nat): seq<Effect>
    requires k >= 1
  {
    if k == 1 then [Call(request)] else [Call(request), Sleep(delay)] + Alternating(request, delay, k - 1)
  }

  function CallCount(effects: seq<Effect>): nat {
    if effects == [] then 0 else (if effects[0].Call? then 1 else 0) + CallCount(effects[1..])
  }

  function SleepCount(effects: seq<Effect>): nat {
    if effects == [] then 0 else (if effects[0].Sleep? then 1 else 0) + SleepCount(effects[1..])
  }

  /**
   * An alternating trace holds `k` calls, all of the same request, `k - 1`
   * sleeps of the configured delay, and ends with a call, never a sleep.
   */
  lemma {:induction false} AlternatingShape(request: Request, delay: nat, k: nat)
    requires k >= 1
    ensures var t := Alternating(request, delay, k);
      && |t| == 2 * k - 1
      && CallCount(t) == k && SleepCount(t) == k - 1
      && t[|t| - 1] == Call(request)
      && (forall i :: 0 <= i < |t| && t[i].Call? ==> t[i].request == request)
      && (forall i :: 0 <= i < |t| && t[i].Sleep? ==> t[i].ms == delay)
    decreases k
  {
    if k > 1 {
      AlternatingShape(request, delay, k - 1);
      var t := Alternating(request, delay, k);
      var rest := Alternating(request, delay, k - 1);
      assert t[2..] == rest;
      assert t[1..][1..] == rest;
    }
  }

  /**
   * What a send from attempt `n` does when the event encodes: the requests
   * and sleeps alternate, and the result is decided by the reply of the last
   * attempt made.
   */
  lemma {:induction false} SendFromShape(s: Sender, event: Event, replies: nat -> HttpReply, n: nat)
    requires 1 <= n <= s.config.retries + 1
    ensures var k := Decisive(replies, n, s.config.retries + 1);
      var run := SendFrom(s, event, true, replies, n);
      && run.effects == Alternating(BuildRequest(s, event), s.config.errorDelayMs, k - n + 1)
      && run.result == (if IsTemporary(replies(k)) then GaveUp(k) else Done)
    decreases s.config.retries + 1 - n
  {
    if n < s.config.retries + 1 && IsTemporary(replies(n)) {
      SendFromShape(s, event, replies, n + 1);
    }
  }

  /**
   * The whole behaviour of a send whose event encodes: `k` attempts, where
   * attempts 1 to k-1 were temporary failures, each dispatching the same
   * request, with one sleep between consecutive attempts; at most retries+1
   * attempts; the result is a give-up exactly when the last attempt failed
   * temporarily.
   */
  lemma SendBehaviour(s: Sender, event: Event, replies: nat -> HttpReply)
    ensures var run := SendFrom(s, event, true, replies, 1);
      var k := CallCount(run.effects);
      && 1 <= k <= s.config.retries + 1
      && SleepCount(run.effects) == k - 1
      && run.effects[|run.effects| - 1].Call?
      && (forall i :: 0 <= i < |run.effects| && run.effects[i].Call? ==>
            run.effects[i].request == BuildRequest(s, event))
      && (forall i :: 0 <= i < |run.effects| && run.effects[i].Sleep? ==>
            run.effects[i].ms == s.config.errorDelayMs)
      && (forall i :: 1 <= i < k ==> IsTemporary(replies(i)))
      && (run.result.GaveUp? <==> IsTemporary(replies(k)))
      && (run.result.GaveUp? ==> k == s.config.retries + 1 && run.result.attempts == k)
  {
    var last := s.config.retries + 1;
    var k := Decisive(replies, 1, last);
    SendFromShape(s, event, replies, 1);
    AlternatingShape(BuildRequest(s, event), s.config.errorDelayMs, k);
  }

  /**
   * Attempts 1 to k-1 fail temporarily and attempt k succeeds, within the
   * budget: the send returns after exactly k calls of the same request.
   */
  lemma SuccessAfterTemporaryFailures(s: Sender, event: Event, replies: nat -> HttpReply, k: nat)
    requires 1 <= k <= s.config.retries + 1
    requires forall i :: 1 <= i < k ==> IsTemporary(replies(i))
    requires replies(k).Status? && IsSuccess(replies(k).code)
    ensures var run := SendFrom(s, event, true, replies, 1);
      run.result == Done && CallCount(run.effects) == k && SleepCount(run.effects) == k - 1
  {
    DecisiveIs(replies, 1, s.config.retries + 1, k);
    SendBehaviour(s, event, replies);
    SendFromShape(s, event, replies, 1);
    AlternatingShape(BuildRequest(s, event), s.config.errorDelayMs, k);
  }

  /**
   * A permanent failure on attempt k (after k-1 temporary ones) ends the send
   * at once with `Done`: k calls, no further attempt and no sleep after it.
   */
  lemma PermanentFailureDrops(s: Sender, event: Event, replies: nat -> HttpReply, k: nat)
    requires 1 <= k <= s.config.retries + 1
    requires forall i :: 1 <= i < k ==> IsTemporary(replies(i))
    requires Classify(replies(k)).Err? && Classify(replies(k)).error.Permanent?
    ensures var run := SendFrom(s, event, true, replies, 1);
      && run.result == Done && CallCount(run.effects) == k
      && run.effects[|run.effects| - 1] == Call(BuildRequest(s, event))
  {
    DecisiveIs(replies, 1, s.config.retries + 1, k);
    SendFromShape(s, event, replies, 1);
    AlternatingShape(BuildRequest(s, event), s.config.errorDelayMs, k);
  }

  /** Every attempt fails temporarily: the send gives up after exactly retries+1 calls. */
  lemma GivesUpWhenAllTemporary(s: Sender, event: Event, replies: nat -> HttpReply)
    requires forall i :: 1 <= i <= s.config.retries + 1 ==> IsTemporary(replies(i))
    ensures var run := SendFrom(s, event, true, replies, 1);
      && run.result == GaveUp(s.config.retries + 1)
      && CallCount(run.effects) == s.config.retries + 1
      && SleepCount(run.effects) == s.config.retries
  {
    DecisiveIs(replies, 1, s.config.retries + 1, s.config.retries + 1);
    SendFromShape(s, event, replies, 1);
    AlternatingShape(BuildRequest(s, event), s.config.errorDelayMs, s.config.retries + 1);
  }

  /** An event that cannot be encoded is dropped without any call or sleep. */
  lemma UnencodableDropped(s: Sender, event: Event, replies: nat -> HttpReply)
    ensures SendFrom(s, event, false, replies, 1) == SendRun(Done, [])
  {
  }

  /** `Decisive` is pinned down by its specification. */
  lemma {:induction false} DecisiveIs(replies: nat -> HttpReply, n: nat, last: nat, k: nat)
    requires 1 <= n <= k <= last
    requires forall i :: n <= i < k ==> IsTemporary(replies(i))
    requires k < last ==> !IsTemporary(replies(k))
    ensures Decisive(replies, n, last) == k
    decreases last - n
  {
    if n < k {
      DecisiveIs(replies, n + 1, last, k);
    }
  }

  // ---------------------------------------------------------------------------
  // The sink as the pipelines see it

  /**
   * The sink behind a pipeline: whether an event encodes into a request, and
   * the replies to the attempts made for the pipeline's item number `i`.
   */
  datatype Sink = Sink(encodes: Event -> bool, replies: nat -> nat -> HttpReply)

  /** What `Send` returns for the event of item number `item`. */
  function Delivery(s: Sender, event: Event, sink: Sink, item: nat): SendResult {
    SendFrom(s, event, sink.encodes(event), sink.replies(item), 1).result
  }
}
