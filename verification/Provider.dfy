/**
 internal/gateway/provider.go: one request's calls to its provider and the fallback, through their
 breakers, retries and adapters. The answers from outside (breaker verdicts included, since other
 requests share the breakers) are parameters; what the request does is a trace.
 */
module ProviderCalls {
  import opened Wrappers
  import Retry
  import CircuitBreaker

  type Failure = Retry.Failure
  type Category = CircuitBreaker.Category

  // ---------------------------------------------------------------------
  // Classifying errors

  /** Lower case, as far as it gives an ASCII letter; two letters beyond ASCII do. */
  function LowerChar(c: char): char {
    if 'A' <= c <= 'Z' then c - 'A' + 'a'
    else if c == '\U{212A}' then 'k'
    else if c == '\U{130}' then 'i'
    else c
  }

  /** `strings.ToLower`. */
  function ToLower(s: string): (r: string)
    ensures |r| == |s| && forall i :: 0 <= i < |s| ==> r[i] == LowerChar(s[i])
  {
    seq(|s|, i requires 0 <= i < |s| => LowerChar(s[i]))
  }

  predicate Mentions(s: string, part: string) {
    Retry.Contains(s, part)
  }

  /** `gatewayErrorCategoryAndType`, of which the category. */
  function CategoryOf(e: Failure): Category {
    if Retry.IsTimeout(e) || Mentions(e.message, "provider_timeout") then CircuitBreaker.ProviderUnavailable
    else if Retry.Is5xx(e) then CircuitBreaker.UpstreamFailure
    else if e.net then CircuitBreaker.ProviderUnavailable
    else
      var msg := ToLower(e.message);
      if Mentions(msg, "connection refused") || Mentions(msg, "dial tcp") || Mentions(msg, "no such host")
      then CircuitBreaker.ProviderUnavailable
      else CircuitBreaker.UpstreamFailure
  }

  /** What `isRetryableProviderError` looks for in an error's text. */
  datatype Marker =
    | BreakerIsOpen | ProviderNotFound | Is5xx | DialTcp | Lookup | NoSuchHost
    | ConnectionRefused | IoTimeout | DeadlineExceeded | Timeout | TlsTimeout | Misbehaving

  function MarkerText(m: Marker): string {
    match m
    case BreakerIsOpen => "circuit_breaker_open"
    case ProviderNotFound => "provider not found"
    case Is5xx => "upstream_5xx"
    case DialTcp => "dial tcp"
    case Lookup => "lookup "
    case NoSuchHost => "no such host"
    case ConnectionRefused => "connection refused"
    case IoTimeout => "i/o timeout"
    case DeadlineExceeded => "context deadline exceeded"
    case Timeout => "timeout"
    case TlsTimeout => "tls handshake timeout"
    case Misbehaving => "server misbehaving"
  }

  /** `isRetryableProviderError`: whether the fallback is worth a call. */
  predicate IsRetryable(e: Failure) {
    e.net || e.dns || exists m :: Mentions(ToLower(e.message), MarkerText(m))
  }

  /** In the standard library both deadline errors are net.Errors, and DNSError is one. */
  predicate Genuine(e: Failure) {
    (e.deadline ==> e.net) && (e.dns ==> e.net)
  }

  predicate IsLower(s: string) {
    forall i :: 0 <= i < |s| ==> LowerChar(s[i]) == s[i]
  }

  /** Lower-case texts are still found after lowering. */
  lemma {:induction false} LowerKeeps(s: string, part: string)
    requires Mentions(s, part) && IsLower(part)
    ensures Mentions(ToLower(s), part)
  {
    var i :| 0 <= i <= |s| - |part| && Retry.At(s, part, i);
    var low := ToLower(s);
    forall j | 0 <= j < |part|
      ensures low[i..i + |part|][j] == part[j]
    {
      assert s[i..i + |part|][j] == s[i + j];
    }
    assert low[i..i + |part|] == part;
    assert Retry.At(low, part, i);
  }

  lemma {:induction false} MentionsPart(s: string, part: string, from: nat, to: nat)
    requires Mentions(s, part) && from <= to <= |part|
    ensures Mentions(s, part[from..to])
  {
    var i :| 0 <= i <= |s| - |part| && Retry.At(s, part, i);
    var piece, k := part[from..to], i + from;
    forall j | 0 <= j < |piece|
      ensures s[k..k + |piece|][j] == piece[j]
    {
      assert s[i..i + |part|][from + j] == part[from + j];
    }
    assert Retry.At(s, piece, k);
  }

  lemma {:induction false} TimeoutPart(s: string)
    requires Mentions(s, "provider_timeout")
    ensures Mentions(s, "timeout")
  {
    MentionsPart(s, "provider_timeout", 9, 16);
    assert "provider_timeout"[9..16] == "timeout";
  }

  lemma {:induction false} MarkedIsRetryable(e: Failure, m: Marker)
    requires Mentions(ToLower(e.message), MarkerText(m))
    ensures IsRetryable(e)
  {
  }

  lemma {:induction false} MarkersAreLower(m: Marker)
    requires m.Is5xx? || m.BreakerIsOpen? || m.ProviderNotFound?
    ensures IsLower(MarkerText(m))
  {
    match m
    case Is5xx => LowerText(MarkerText(m));
    case BreakerIsOpen => LowerText(MarkerText(m));
    case ProviderNotFound => LowerText(MarkerText(m));
  }

  /** No character of the text changes: none is upper-case or beyond ASCII. */
  lemma {:induction false} LowerText(s: string)
    requires forall c :: c in s ==> c == '_' || c == ' ' || '0' <= c <= '9' || 'a' <= c <= 'z'
    ensures IsLower(s)
  {
    forall i | 0 <= i < |s|
      ensures LowerChar(s[i]) == s[i]
    {
      assert s[i] in s;
    }
  }

  /** A text with one of the gateway's own markers, lower-case as they are, anywhere in it. */
  lemma {:induction false} MentionIsRetryable(e: Failure, m: Marker)
    requires Mentions(e.message, MarkerText(m)) && (m.Is5xx? || m.BreakerIsOpen? || m.ProviderNotFound?)
    ensures IsRetryable(e)
  {
    MarkersAreLower(m);
    LowerKeeps(e.message, MarkerText(m));
    MarkedIsRetryable(e, m);
  }

  lemma {:induction false} ProviderTimeoutIsRetryable(e: Failure)
    requires Mentions(e.message, "provider_timeout")
    ensures IsRetryable(e)
  {
    LowerText("provider_timeout");
    LowerKeeps(e.message, "provider_timeout");
    TimeoutPart(ToLower(e.message));
    MarkedIsRetryable(e, Timeout);
  }

  /** Whatever the classifier calls an unavailable provider, and every upstream 5xx, goes to the fallback. */
  lemma {:induction false} UnavailableIsRetryable(e: Failure)
    requires Genuine(e)
    ensures CategoryOf(e) == CircuitBreaker.ProviderUnavailable || Retry.Is5xx(e) ==> IsRetryable(e)
  {
    var msg := ToLower(e.message);
    if Mentions(e.message, "provider_timeout") {
      ProviderTimeoutIsRetryable(e);
    } else if Retry.Is5xx(e) {
      MentionIsRetryable(e, Is5xx);
    } else if Mentions(msg, "connection refused") {
      MarkedIsRetryable(e, ConnectionRefused);
    } else if Mentions(msg, "dial tcp") {
      MarkedIsRetryable(e, DialTcp);
    } else if Mentions(msg, "no such host") {
      MarkedIsRetryable(e, NoSuchHost);
    }
  }

  /** The categories that the gateway reports to a breaker all count under the default policy. */
  lemma {:induction false} CategoryCounts(e: Failure)
    ensures CategoryOf(e) in CircuitBreaker.DEFAULT_POLICY.tripOn
  {
  }

  // ---------------------------------------------------------------------
  // One upstream call

  /** An upstream response; reading its body or normalising an error body may fail. */
  datatype Upstream = Upstream(
    status: int, retryAfter: Retry.RetryAfter, readError: Option<Failure>, normalizeError: Option<Failure>)

  type DoResult = Result<Option<Upstream>, Failure>

  /** `ErrorCategory` for an empty error type. */
  function StatusCategory(status: int): Category {
    if status == 401 || status == 403 then CircuitBreaker.Auth
    else if status == 400 || status == 422 then CircuitBreaker.InvalidRequest
    else if status == 429 then CircuitBreaker.RateLimit
    else if status == 502 || status == 503 || status == 504 then CircuitBreaker.ProviderUnavailable
    else CircuitBreaker.UpstreamFailure
  }

  function Plain(message: string): Failure {
    Retry.Failure(message, false, false, false, false)
  }

  function Digits(n: nat): string {
    if n < 10 then [n as char + '0'] else Digits(n / 10) + [(n % 10) as char + '0']
  }

  function Upstream5xx(status: nat, provider: string): Failure {
    Plain("upstream_5xx" + (" status=" + Digits(status) + " provider=" + provider))
  }

  function NotFound(provider: string): Failure { Plain("provider not found" + (": " + provider)) }

  function BreakerOpen(provider: string): Failure { Plain("circuit_breaker_open" + (" provider=" + provider)) }

  /** What the gateway makes of an upstream call: its reply and the health outcome, None for a success. */
  function Settle(provider: string, did: DoResult): (Retry.Reply, Option<Category>) {
    match did
    case Err(e) => (Err(e), Some(CircuitBreaker.ProviderUnavailable))
    case Ok(None) => (Ok(None), None)
    case Ok(Some(u)) =>
      var response := Retry.Response(u.status, u.retryAfter);
      if u.status < 400 then (Ok(Some(response)), None)
      else if u.readError.Some? then (Err(u.readError.value), Some(CircuitBreaker.UpstreamFailure))
      else if u.normalizeError.Some? then (Err(u.normalizeError.value), Some(CircuitBreaker.UpstreamFailure))
      else if u.status >= 500 then (Err(Upstream5xx(u.status, provider)), Some(CircuitBreaker.UpstreamFailure))
      else (Ok(Some(response)), Some(StatusCategory(u.status)))
  }

  // ---------------------------------------------------------------------
  // The adapters

  const CHAT_PATH := "/v1/chat/completions"

  datatype Family = OpenAI | OpenAICompat | Anthropic | Gemini

  /** What the `Do` of a provider's client depends on; the two flags are those of an OpenAI-compatible one. */
  datatype Adapter = Adapter(family: Family, allowMultimodal: bool, supportTools: bool)

  /** What an adapter reads off a request before it does anything else. */
  datatype Form = Form(post: bool, path: string, images: bool, tools: bool)

  /** An error from encoding the upstream request or parsing its URL: neither a timeout nor an upstream status. */
  type BuildError = e: Failure | !Retry.IsTimeout(e) && !Retry.Is5xx(e) witness Plain("")

  /**
   What comes of an adapter's own work on the body. The Anthropic and Gemini ones call it malformed when it
   cannot be decoded or translated, for Gemini also when an image cannot be downloaded.
   */
  datatype Prepared = Ready | Malformed | Unbuilt(error: BuildError)

  /** What an adapter does with a request: hand it to its HTTP client, answer itself, or fail. */
  datatype Handling = HandsOver | Answers(status: int) | Fails(error: BuildError)

  predicate Serves(a: Adapter, path: string) {
    a.family.OpenAI? || a.family.OpenAICompat? || path == CHAT_PATH
  }

  /** An OpenAI-compatible adapter lets neither images nor tools through unless configured to. */
  predicate NotAllowed(a: Adapter, f: Form) {
    && a.family.OpenAICompat? && f.post && f.path == CHAT_PATH
    && ((!a.allowMultimodal && f.images) || (!a.supportTools && f.tools))
  }

  predicate Translates(a: Adapter) {
    a.family.Anthropic? || a.family.Gemini?
  }

  function HandlingOf(a: Adapter, f: Form, prepared: Prepared): Handling {
    if !Serves(a, f.path) then Answers(501)
    else if NotAllowed(a, f) || (Translates(a) && prepared.Malformed?) then Answers(400)
    else if prepared.Unbuilt? then Fails(prepared.error)
    else HandsOver
  }

  /** A response that the adapter makes up: without a Retry-After, and with a body that can be read and normalised. */
  function OwnAnswer(status: int): DoResult {
    Ok(Some(Upstream(status, Retry.Absent, None, None)))
  }

  /** What `Do` returns; `did` is what comes of the exchange with the provider. */
  function DoOf(h: Handling, did: DoResult): DoResult {
    match h
    case HandsOver => did
    case Answers(status) => OwnAnswer(status)
    case Fails(e) => Err(e)
  }

  // ---------------------------------------------------------------------
  // What a request does

  /**
   `Did` is an upstream call: a run of the `Do` of the provider's client. `sent` says that it handed the
   request to its HTTP client, whatever came of that.
   */
  datatype Event<B> =
    | Asked(provider: string, allowed: bool)
    | Did(provider: string, body: B, sent: bool)
    | Noted(provider: string, outcome: Option<Category>)
    | Recorded(provider: string, failure: Option<Category>)

  /** B is a request as the adapters get it, `form` what they read off it; `rewrite` puts another model into it. */
  datatype Gateway<!B> = Gateway(
    breakers: bool,
    adapters: map<string, Adapter>,
    form: B -> Form,
    policies: map<string, Retry.Policy>,
    fallback: string,
    compatible: (string, string) -> string,
    rewrite: (B, string) -> Result<B, Failure>)

  /** The outside of one attempt, and of one provider call. */
  datatype Exchange = Exchange(
    cancelledBefore: bool, prepared: Prepared, did: DoResult, noise: real, cancelledWaiting: bool)

  datatype Side = Side(allowed: bool, exchanges: nat -> Exchange, cancelled: Failure)

  function PolicyFor<B>(g: Gateway<B>, provider: string): Retry.Policy {
    if provider in g.policies then g.policies[provider] else Retry.DEFAULT_POLICY
  }

  /** The closure that `callSingleProvider` retries: its reply, and what it does. */
  function Handled<B>(g: Gateway<B>, provider: string, body: B, x: Exchange): Handling
    requires provider in g.adapters
  {
    HandlingOf(g.adapters[provider], g.form(body), x.prepared)
  }

  /** What the gateway makes of one run of the adapter. */
  function Settled<B>(g: Gateway<B>, provider: string, body: B, x: Exchange): (Retry.Reply, Option<Category>)
    requires provider in g.adapters
  {
    Settle(provider, DoOf(Handled(g, provider, body, x), x.did))
  }

  function ReplyOf<B>(g: Gateway<B>, provider: string, body: B, x: Exchange): Retry.Reply {
    if provider !in g.adapters then Err(NotFound(provider)) else Settled(g, provider, body, x).0
  }

  function DidOf<B>(g: Gateway<B>, provider: string, body: B, x: Exchange): Event<B>
    requires provider in g.adapters
  {
    Did(provider, body, Handled(g, provider, body, x).HandsOver?)
  }

  function NotedOf<B>(g: Gateway<B>, provider: string, body: B, x: Exchange): Event<B>
    requires provider in g.adapters
  {
    Noted(provider, Settled(g, provider, body, x).1)
  }

  function EffectsOf<B>(g: Gateway<B>, provider: string, body: B, x: Exchange): seq<Event<B>> {
    if provider !in g.adapters then [] else [DidOf(g, provider, body, x), NotedOf(g, provider, body, x)]
  }

  function Script<B>(g: Gateway<B>, provider: string, body: B, side: Side): nat -> Retry.Attempt {
    (k: nat) =>
      var x := side.exchanges(k);
      Retry.Attempt(x.cancelledBefore, ReplyOf(g, provider, body, x), x.noise, x.cancelledWaiting)
  }

  /** A retry trace, with the closure's effects for each call. */
  function Effects<B>(g: Gateway<B>, provider: string, body: B, side: Side, trace: Retry.Trace): seq<Event<B>> {
    match trace
    case Start => []
    case Then(before, e) =>
      var done := Effects(g, provider, body, side, before);
      if e.Called? then done + EffectsOf(g, provider, body, side.exchanges(e.attempt)) else done
  }

  function CallTo<B>(g: Gateway<B>, provider: string, side: Side): Retry.Call {
    Retry.Call(PolicyFor(g, provider), provider, side.cancelled)
  }

  function SingleTrace<B>(g: Gateway<B>, provider: string, body: B, side: Side): seq<Event<B>> {
    Effects(g, provider, body, side, Retry.TraceOf(CallTo(g, provider, side), Script(g, provider, body, side)))
  }

  function SingleResult<B>(g: Gateway<B>, provider: string, body: B, side: Side): Retry.Reply {
    Retry.ResultOf(CallTo(g, provider, side), Script(g, provider, body, side))
  }

  function BreakerRecord(result: Retry.Reply): Option<Category> {
    if result.Ok? then None else Some(CategoryOf(result.error))
  }

  function ThroughResult<B>(g: Gateway<B>, provider: string, body: B, side: Side): Retry.Reply {
    if g.breakers && !side.allowed then Err(BreakerOpen(provider)) else SingleResult(g, provider, body, side)
  }

  function ThroughTrace<B>(g: Gateway<B>, provider: string, body: B, side: Side): seq<Event<B>> {
    if !g.breakers then SingleTrace(g, provider, body, side)
    else if !side.allowed then [Asked(provider, false)]
    else [Asked(provider, true)] + SingleTrace(g, provider, body, side)
         + [Recorded(provider, BreakerRecord(SingleResult(g, provider, body, side)))]
  }

  /** A request as it reaches the providers. */
  datatype Request<B> = Request(provider: string, body: B, model: string, primary: Side, secondary: Side)

  /** The result with the provider and model that it is reported under. */
  datatype Outcome = Outcome(result: Retry.Reply, provider: string, model: string)

  predicate TriesFallback<B>(g: Gateway<B>, r: Request<B>) {
    var first := ThroughResult(g, r.provider, r.body, r.primary);
    first.Err? && g.fallback != "" && r.provider != g.fallback && IsRetryable(first.error)
  }

  /** The model and body for the fallback, unless the body cannot be rewritten. */
  function FallbackCall<B>(g: Gateway<B>, r: Request<B>): Result<(string, B), Failure> {
    var model := g.compatible(r.model, g.fallback);
    if model == "" || model == r.model then Ok((r.model, r.body))
    else
      match g.rewrite(r.body, model)
      case Ok(body) => Ok((model, body))
      case Err(e) => Err(e)
  }

  function FinalOutcome<B>(g: Gateway<B>, r: Request<B>): Outcome {
    if !TriesFallback(g, r) then Outcome(ThroughResult(g, r.provider, r.body, r.primary), r.provider, r.model)
    else
      match FallbackCall(g, r)
      case Err(e) => Outcome(Err(e), g.fallback, r.model)
      case Ok((model, body)) => Outcome(ThroughResult(g, g.fallback, body, r.secondary), g.fallback, model)
  }

  function FinalTrace<B>(g: Gateway<B>, r: Request<B>): seq<Event<B>> {
    var first := ThroughTrace(g, r.provider, r.body, r.primary);
    if !TriesFallback(g, r) || FallbackCall(g, r).Err? then first
    else first + ThroughTrace(g, g.fallback, FallbackCall(g, r).value.1, r.secondary)
  }

  lemma {:induction false} FinalStarts<B>(g: Gateway<B>, r: Request<B>)
    ensures var first, whole := ThroughTrace(g, r.provider, r.body, r.primary), FinalTrace(g, r);
      |first| <= |whole| && whole[..|first|] == first
  {
  }

  // ---------------------------------------------------------------------
  // The methods

  /** The `Do` of a provider's client. */
  method AdapterDo(a: Adapter, f: Form, x: Exchange) returns (did: DoResult, sent: bool)
    ensures var h := HandlingOf(a, f, x.prepared);
      did == DoOf(h, x.did) && sent == h.HandsOver?
  {
    match a.family {
      case Anthropic | Gemini =>
        if f.path != CHAT_PATH { return OwnAnswer(501), false; }
        if x.prepared.Malformed? { return OwnAnswer(400), false; }
      case OpenAICompat =>
        if (!a.allowMultimodal || !a.supportTools) && f.post && f.path == CHAT_PATH {
          if !a.allowMultimodal && f.images { return OwnAnswer(400), false; }
          if !a.supportTools && f.tools { return OwnAnswer(400), false; }
        }
      case OpenAI =>
    }
    if x.prepared.Unbuilt? { return Err(x.prepared.error), false; }
    return x.did, true;
  }

  /** One run of the closure. */
  method DoCall<B>(g: Gateway<B>, provider: string, body: B, x: Exchange)
    returns (reply: Retry.Reply, events: seq<Event<B>>)
    ensures reply == ReplyOf(g, provider, body, x) && events == EffectsOf(g, provider, body, x)
  {
    if provider !in g.adapters { return Err(NotFound(provider)), []; }
    var did, sent := AdapterDo(g.adapters[provider], g.form(body), x);
    events := [Did(provider, body, sent)];
    match did
    case Err(e) =>
      return Err(e), events + [Noted(provider, Some(CircuitBreaker.ProviderUnavailable))];
    case Ok(response) =>
      if response.Some? && response.value.status >= 400 {
        var u := response.value;
        if u.readError.Some? {
          return Err(u.readError.value), events + [Noted(provider, Some(CircuitBreaker.UpstreamFailure))];
        }
        if u.normalizeError.Some? {
          return Err(u.normalizeError.value), events + [Noted(provider, Some(CircuitBreaker.UpstreamFailure))];
        }
        if u.status >= 500 {
          events := events + [Noted(provider, Some(CircuitBreaker.UpstreamFailure))];
          return Err(Upstream5xx(u.status, provider)), events;
        }
        events := events + [Noted(provider, Some(StatusCategory(u.status)))];
        return Ok(Some(Retry.Response(u.status, u.retryAfter))), events;
      }
      events := events + [Noted(provider, None)];
      if response.None? { return Ok(None), events; }
      return Ok(Some(Retry.Response(response.value.status, response.value.retryAfter))), events;
  }

  /** The closure is run at every call of the retry loop, in order. */
  method DoCalls<B>(g: Gateway<B>, provider: string, body: B, side: Side, attempts: Retry.Trace)
    returns (events: seq<Event<B>>)
    ensures events == Effects(g, provider, body, side, attempts)
  {
    match attempts
    case Start => events := [];
    case Then(before, e) =>
      events := DoCalls(g, provider, body, side, before);
      if e.Called? {
        var _, more := DoCall(g, provider, body, side.exchanges(e.attempt));
        events := events + more;
      }
  }

  method CallSingleProvider<B>(g: Gateway<B>, provider: string, body: B, side: Side)
    returns (result: Retry.Reply, trace: seq<Event<B>>)
    ensures result == SingleResult(g, provider, body, side) && trace == SingleTrace(g, provider, body, side)
  {
    var attempts;
    result, attempts := Retry.CallWithRetry(CallTo(g, provider, side), Script(g, provider, body, side));
    trace := DoCalls(g, provider, body, side, attempts);
  }

  method CallThroughBreaker<B>(g: Gateway<B>, provider: string, body: B, side: Side)
    returns (result: Retry.Reply, trace: seq<Event<B>>)
    ensures result == ThroughResult(g, provider, body, side) && trace == ThroughTrace(g, provider, body, side)
  {
    var asked: seq<Event<B>> := [];
    if g.breakers {
      asked := [Asked(provider, side.allowed)];
      if !side.allowed { return Err(BreakerOpen(provider)), asked; }
    }
    var calls;
    result, calls := CallSingleProvider(g, provider, body, side);
    trace := asked + calls;
    if g.breakers {
      if result.Err? {
        trace := trace + [Recorded(provider, Some(CategoryOf(result.error)))];
      } else {
        trace := trace + [Recorded(provider, None)];
      }
    } else {
      assert trace == calls;
    }
  }

  method CallProviderWithFallback<B>(g: Gateway<B>, r: Request<B>) returns (outcome: Outcome, trace: seq<Event<B>>)
    ensures outcome == FinalOutcome(g, r) && trace == FinalTrace(g, r)
  {
    var first;
    first, trace := CallThroughBreaker(g, r.provider, r.body, r.primary);
    if first.Ok? { return Outcome(first, r.provider, r.model), trace; }
    if g.fallback == "" || r.provider == g.fallback || !IsRetryable(first.error) {
      return Outcome(first, r.provider, r.model), trace;
    }
    var fallbackModel, rewritten := r.model, r.body;
    var compatible := g.compatible(r.model, g.fallback);
    if compatible != "" && compatible != r.model {
      var attempt := g.rewrite(r.body, compatible);
      if attempt.Err? { return Outcome(Err(attempt.error), g.fallback, r.model), trace; }
      rewritten := attempt.value;
      fallbackModel := compatible;
    }
    var second, more := CallThroughBreaker(g, g.fallback, rewritten, r.secondary);
    return Outcome(second, g.fallback, fallbackModel), trace + more;
  }

  // ---------------------------------------------------------------------
  // Accounting

  /** Where a request stands: between provider calls, admitted to one, or waiting for its upstream. */
  datatype Phase = Idle | In(provider: string) | Busy(provider: string) | Bad

  /** The accounting rules, event by event; `on` says that there are breakers. */
  function Follow<B>(on: bool, phase: Phase, e: Event<B>): Phase {
    match e
    case Asked(p, allowed) => if on && phase.Idle? then (if allowed then In(p) else Idle) else Bad
    case Did(p, _, _) => if phase == (if on then In(p) else Idle) then Busy(p) else Bad
    case Noted(p, _) => if phase == Busy(p) then (if on then In(p) else Idle) else Bad
    case Recorded(p, _) => if on && phase == In(p) then Idle else Bad
  }

  function Run<B>(on: bool, phase: Phase, trace: seq<Event<B>>): Phase {
    if trace == [] then phase
    else Follow(on, Run(on, phase, trace[..|trace| - 1]), trace[|trace| - 1])
  }

  lemma {:induction false} RunOn<B>(on: bool, phase: Phase, a: seq<Event<B>>, b: seq<Event<B>>)
    ensures Run(on, phase, a + b) == Run(on, Run(on, phase, a), b)
  {
    if b == [] {
      assert a + b == a;
    } else {
      var n := |b| - 1;
      RunOn(on, phase, a, b[..n]);
      assert (a + b)[..|a + b| - 1] == a + b[..n];
    }
  }

  lemma {:induction false} RunTwo<B>(on: bool, phase: Phase, x: Event<B>, y: Event<B>)
    ensures Run(on, phase, [x]) == Follow(on, phase, x)
    ensures Run(on, phase, [x, y]) == Follow(on, Follow(on, phase, x), y)
  {
    assert [x, y][..1] == [x] && [x][..0] == [];
  }

  /** Inside one provider call, every upstream call is followed by its health outcome. */
  lemma {:induction false} EffectsRun<B>(g: Gateway<B>, provider: string, body: B, side: Side, trace: Retry.Trace,
      phase: Phase)
    requires phase == if g.breakers then In(provider) else Idle
    ensures Run(g.breakers, phase, Effects(g, provider, body, side, trace)) == phase
  {
    match trace
    case Start =>
    case Then(before, e) =>
      EffectsRun(g, provider, body, side, before, phase);
      if e.Called? {
        var x := side.exchanges(e.attempt);
        RunOn(g.breakers, phase, Effects(g, provider, body, side, before), EffectsOf(g, provider, body, x));
        if provider in g.adapters {
          RunTwo(g.breakers, phase, DidOf(g, provider, body, x), NotedOf(g, provider, body, x));
        }
      }
  }

  lemma {:induction false} ThroughRun<B>(g: Gateway<B>, provider: string, body: B, side: Side)
    ensures Run(g.breakers, Idle, ThroughTrace(g, provider, body, side)) == Idle
  {
    var calls := Retry.TraceOf(CallTo(g, provider, side), Script(g, provider, body, side));
    EffectsRun(g, provider, body, side, calls, if g.breakers then In(provider) else Idle);
    if g.breakers {
      var asked: Event<B> := Asked(provider, side.allowed);
      var recorded: Event<B> := Recorded(provider, BreakerRecord(SingleResult(g, provider, body, side)));
      RunTwo(true, Idle, asked, recorded);
      RunTwo(true, In(provider), recorded, recorded);
      if side.allowed {
        RunOn(true, Idle, [asked], SingleTrace(g, provider, body, side));
        RunOn(true, Idle, [asked] + SingleTrace(g, provider, body, side), [recorded]);
      }
    }
  }

  /**
   Every request obeys the accounting rules: each upstream call adds one health outcome, each admission
   one breaker record, and a rejection neither.
   */
  lemma {:induction false} RequestObeysRules<B>(g: Gateway<B>, r: Request<B>)
    ensures Run(g.breakers, Idle, FinalTrace(g, r)) == Idle
  {
    ThroughRun(g, r.provider, r.body, r.primary);
    if TriesFallback(g, r) && FallbackCall(g, r).Ok? {
      var body := FallbackCall(g, r).value.1;
      ThroughRun(g, g.fallback, body, r.secondary);
      RunOn(g.breakers, Idle, ThroughTrace(g, r.provider, r.body, r.primary),
            ThroughTrace(g, g.fallback, body, r.secondary));
    }
  }

  // ---------------------------------------------------------------------
  // Counting

  /** `Contact` counts the calls that were sent. */
  datatype Kind = Call | Contact | Outcomes | Admission | Record

  predicate IsKind<B>(kind: Kind, provider: string, e: Event<B>) {
    && e.provider == provider
    && match kind
       case Call => e.Did?
       case Contact => e.Did? && e.sent
       case Outcomes => e.Noted?
       case Admission => e.Asked? && e.allowed
       case Record => e.Recorded?
  }

  function Count<B>(kind: Kind, provider: string, trace: seq<Event<B>>): nat {
    if trace == [] then 0
    else
      var before := Count(kind, provider, trace[..|trace| - 1]);
      if IsKind(kind, provider, trace[|trace| - 1]) then before + 1 else before
  }

  lemma {:induction false} CountOn<B>(kind: Kind, provider: string, a: seq<Event<B>>, b: seq<Event<B>>)
    ensures Count(kind, provider, a + b) == Count(kind, provider, a) + Count(kind, provider, b)
  {
    if b == [] {
      assert a + b == a;
    } else {
      var n := |b| - 1;
      CountOn(kind, provider, a, b[..n]);
      assert (a + b)[..|a + b| - 1] == a + b[..n];
    }
  }

  lemma {:induction false} CountTwo<B>(kind: Kind, provider: string, x: Event<B>, y: Event<B>)
    ensures Count(kind, provider, [x]) == if IsKind(kind, provider, x) then 1 else 0
    ensures Count(kind, provider, [x, y])
         == (if IsKind(kind, provider, x) then 1 else 0) + (if IsKind(kind, provider, y) then 1 else 0)
  {
    assert [x, y][..1] == [x] && [x][..0] == [];
  }

  lemma {:induction false} ContactsAreCalls<B>(provider: string, trace: seq<Event<B>>)
    ensures Count(Contact, provider, trace) <= Count(Call, provider, trace)
  {
    if trace != [] { ContactsAreCalls(provider, trace[..|trace| - 1]); }
  }

  /** What obeying the rules means for the counts. */
  lemma {:induction false} RulesBalance<B>(on: bool, provider: string, trace: seq<Event<B>>)
    requires !Run(on, Idle, trace).Bad?
    ensures var phase := Run(on, Idle, trace);
      && Count(Call, provider, trace)
         == Count(Outcomes, provider, trace) + (if phase == Busy(provider) then 1 else 0)
      && Count(Admission, provider, trace) == Count(Record, provider, trace)
         + (if on && (phase == In(provider) || phase == Busy(provider)) then 1 else 0)
  {
    if trace != [] { RulesBalance(on, provider, trace[..|trace| - 1]); }
  }

  /** The upstream calls of one provider call are the attempts of its retry loop. */
  lemma {:induction false} EffectsCount<B>(
      g: Gateway<B>, provider: string, body: B, side: Side, trace: Retry.Trace, other: string)
    ensures Count(Call, other, Effects(g, provider, body, side, trace))
         == if other == provider && provider in g.adapters
            then |Retry.AuditOf(Script(g, provider, body, side), trace).calls| else 0
  {
    match trace
    case Start =>
    case Then(before, e) =>
      EffectsCount(g, provider, body, side, before, other);
      if e.Called? {
        var x := side.exchanges(e.attempt);
        CountOn(Call, other, Effects(g, provider, body, side, before), EffectsOf(g, provider, body, x));
        if provider in g.adapters {
          CountTwo(Call, other, DidOf(g, provider, body, x), NotedOf(g, provider, body, x));
        }
      }
  }

  lemma {:induction false} ThroughCount<B>(g: Gateway<B>, provider: string, body: B, side: Side, other: string)
    ensures Count(Call, other, ThroughTrace(g, provider, body, side))
         <= if other == provider then Retry.Limit(PolicyFor(g, provider)) else 0
  {
    var c, script := CallTo(g, provider, side), Script(g, provider, body, side);
    Retry.CallsAndResult(c, script);
    EffectsCount(g, provider, body, side, Retry.TraceOf(c, script), other);
    if g.breakers {
      var asked: Event<B> := Asked(provider, side.allowed);
      var recorded: Event<B> := Recorded(provider, BreakerRecord(SingleResult(g, provider, body, side)));
      CountTwo(Call, other, asked, asked);
      CountTwo(Call, other, recorded, recorded);
      CountOn(Call, other, [asked], SingleTrace(g, provider, body, side));
      CountOn(Call, other, [asked] + SingleTrace(g, provider, body, side), [recorded]);
    }
  }

  /**
   One request makes at most max(1, attempts) calls to a provider, only to its own provider and the
   fallback, with as many health outcomes as calls and as many breaker records as admissions.
   */
  lemma {:induction false} RequestCounts<B>(g: Gateway<B>, r: Request<B>, provider: string)
    ensures var trace := FinalTrace(g, r);
      && Count(Contact, provider, trace) <= Count(Call, provider, trace) <= Retry.Limit(PolicyFor(g, provider))
      && (provider != r.provider && provider != g.fallback ==> Count(Call, provider, trace) == 0)
      && Count(Outcomes, provider, trace) == Count(Call, provider, trace)
      && Count(Record, provider, trace) == Count(Admission, provider, trace)
  {
    RequestObeysRules(g, r);
    RulesBalance(g.breakers, provider, FinalTrace(g, r));
    ContactsAreCalls(provider, FinalTrace(g, r));
    ThroughCount(g, r.provider, r.body, r.primary, provider);
    if TriesFallback(g, r) && FallbackCall(g, r).Ok? {
      var body := FallbackCall(g, r).value.1;
      ThroughCount(g, g.fallback, body, r.secondary, provider);
      CountOn(Call, provider, ThroughTrace(g, r.provider, r.body, r.primary),
              ThroughTrace(g, g.fallback, body, r.secondary));
    }
  }

  // ---------------------------------------------------------------------
  // Who answered

  /** The last upstream call: where it went and with which body. */
  function LastCall<B>(trace: seq<Event<B>>): Option<(string, B)> {
    if trace == [] then None
    else
      match trace[|trace| - 1]
      case Did(p, body, _) => Some((p, body))
      case _ => LastCall(trace[..|trace| - 1])
  }

  lemma {:induction false} LastCallOn<B>(a: seq<Event<B>>, b: seq<Event<B>>)
    ensures LastCall(a + b) == if LastCall(b).Some? then LastCall(b) else LastCall(a)
  {
    if b == [] {
      assert a + b == a;
    } else {
      var n := |b| - 1;
      LastCallOn(a, b[..n]);
      assert (a + b)[..|a + b| - 1] == a + b[..n];
    }
  }

  lemma {:induction false} EffectsLast<B>(g: Gateway<B>, provider: string, body: B, side: Side, trace: Retry.Trace)
    requires provider in g.adapters
    ensures LastCall(Effects(g, provider, body, side, trace))
         == if Retry.AuditOf(Script(g, provider, body, side), trace).calls == [] then None else Some((provider, body))
  {
    match trace
    case Start =>
    case Then(before, e) =>
      EffectsLast(g, provider, body, side, before);
      if e.Called? {
        var x: Event<B> := DidOf(g, provider, body, side.exchanges(e.attempt));
        var y: Event<B> := NotedOf(g, provider, body, side.exchanges(e.attempt));
        LastCallOn(Effects(g, provider, body, side, before), [x, y]);
        assert [x, y][..1] == [x];
      }
  }

  lemma {:induction false} ThroughLast<B>(g: Gateway<B>, provider: string, body: B, side: Side)
    requires ThroughResult(g, provider, body, side).Ok?
    ensures LastCall(ThroughTrace(g, provider, body, side)) == Some((provider, body))
  {
    var c, script := CallTo(g, provider, side), Script(g, provider, body, side);
    Retry.CallsAndResult(c, script);
    var n := |Retry.AuditOf(script, Retry.TraceOf(c, script)).calls|;
    assert script(n - 1).reply == ReplyOf(g, provider, body, side.exchanges(n - 1));
    EffectsLast(g, provider, body, side, Retry.TraceOf(c, script));
    if g.breakers {
      var asked: Event<B> := Asked(provider, side.allowed);
      var recorded: Event<B> := Recorded(provider, BreakerRecord(SingleResult(g, provider, body, side)));
      assert [recorded][..0] == [];
      LastCallOn([asked], SingleTrace(g, provider, body, side));
      LastCallOn([asked] + SingleTrace(g, provider, body, side), [recorded]);
    }
  }

  /**
   A success is reported under the provider of the last upstream call, and under the model that this
   call asked for: the request's own with the body as it was, or the one the body was rewritten to.
   */
  lemma {:induction false} AnswerIsReportedHonestly<B>(g: Gateway<B>, r: Request<B>)
    requires FinalOutcome(g, r).result.Ok?
    ensures var o := FinalOutcome(g, r);
      exists body ::
        && LastCall(FinalTrace(g, r)) == Some((o.provider, body))
        && (if o.model == r.model then body == r.body else g.rewrite(r.body, o.model) == Ok(body))
  {
    if !TriesFallback(g, r) {
      ThroughLast(g, r.provider, r.body, r.primary);
    } else {
      var body := FallbackCall(g, r).value.1;
      ThroughLast(g, g.fallback, body, r.secondary);
      LastCallOn(ThroughTrace(g, r.provider, r.body, r.primary), ThroughTrace(g, g.fallback, body, r.secondary));
    }
  }

  // ---------------------------------------------------------------------
  // When the fallback is tried

  lemma {:induction false} StartsWith(e: Failure, part: string, rest: string)
    requires e.message == part + rest
    ensures Mentions(e.message, part)
  {
    Retry.ContainsAt("", part, rest);
    assert "" + part + rest == e.message;
  }

  lemma {:induction false} MarkerFirst(e: Failure, m: Marker, rest: string)
    requires e.message == MarkerText(m) + rest && (m.Is5xx? || m.BreakerIsOpen? || m.ProviderNotFound?)
    ensures IsRetryable(e)
  {
    StartsWith(e, MarkerText(m), rest);
    MentionIsRetryable(e, m);
  }

  lemma {:induction false} TimeoutIsRetryable(provider: string, e: Failure)
    ensures IsRetryable(Retry.TimeoutError(provider, e))
  {
    var late := Retry.TimeoutError(provider, e);
    StartsWith(late, "provider_timeout", " provider=" + provider + ": " + e.message);
    ProviderTimeoutIsRetryable(late);
  }

  lemma {:induction false} RejectionIsRetryable(provider: string)
    ensures IsRetryable(BreakerOpen(provider))
  {
    MarkerFirst(BreakerOpen(provider), BreakerIsOpen, " provider=" + provider);
  }

  lemma {:induction false} NotFoundIsRetryable(provider: string)
    ensures IsRetryable(NotFound(provider))
  {
    MarkerFirst(NotFound(provider), ProviderNotFound, ": " + provider);
  }

  lemma {:induction false} Upstream5xxIsRetryable(provider: string, status: nat)
    ensures IsRetryable(Upstream5xx(status, provider))
  {
    MarkerFirst(Upstream5xx(status, provider), Is5xx, " status=" + Digits(status) + " provider=" + provider);
  }

  /** The errors that the gateway itself makes all go to the fallback. */
  lemma {:induction false} GatewayErrorsAreRetryable(provider: string, status: nat, e: Failure)
    ensures IsRetryable(BreakerOpen(provider)) && IsRetryable(NotFound(provider))
    ensures IsRetryable(Upstream5xx(status, provider)) && IsRetryable(Retry.TimeoutError(provider, e))
  {
    RejectionIsRetryable(provider);
    NotFoundIsRetryable(provider);
    Upstream5xxIsRetryable(provider, status);
    TimeoutIsRetryable(provider, e);
  }

  /** With another provider configured as the fallback, a rejected request is not lost: the fallback answers for it. */
  lemma {:induction false} RejectionFallsBack<B>(g: Gateway<B>, r: Request<B>)
    requires g.breakers && !r.primary.allowed && g.fallback != "" && g.fallback != r.provider
    ensures TriesFallback(g, r)
    ensures Count(Call, r.provider, FinalTrace(g, r)) == 0
    ensures FallbackCall(g, r).Ok? ==>
      FinalOutcome(g, r).result == ThroughResult(g, g.fallback, FallbackCall(g, r).value.1, r.secondary)
  {
    RejectionIsRetryable(r.provider);
    var rejected: Event<B> := Asked(r.provider, false);
    CountTwo(Call, r.provider, rejected, rejected);
    if FallbackCall(g, r).Ok? {
      var body := FallbackCall(g, r).value.1;
      ThroughCount(g, g.fallback, body, r.secondary, r.provider);
      CountOn(Call, r.provider, [rejected], ThroughTrace(g, g.fallback, body, r.secondary));
    }
  }

  // ---------------------------------------------------------------------
  // Blame and credit without a contact

  predicate CountedFailure<B>(provider: string, e: Event<B>) {
    && e.Recorded? && e.provider == provider && e.failure.Some?
    && e.failure.value in CircuitBreaker.DEFAULT_POLICY.tripOn
  }

  predicate RecordedSuccess<B>(provider: string, e: Event<B>) {
    e.Recorded? && e.provider == provider && e.failure.None?
  }

  /** The breaker records a counted failure of a provider that was sent nothing. */
  predicate BlamedForNothing<B>(provider: string, trace: seq<Event<B>>) {
    Count(Contact, provider, trace) == 0 &&
    exists i :: 0 <= i < |trace| && CountedFailure(provider, trace[i])
  }

  /** The breaker records a success, which closes it, of a provider that was sent nothing. */
  predicate CreditedForNothing<B>(provider: string, trace: seq<Event<B>>) {
    Count(Contact, provider, trace) == 0 &&
    exists i :: 0 <= i < |trace| && RecordedSuccess(provider, trace[i])
  }

  /** The adapter answers with its own 400. */
  predicate Refuses<B>(g: Gateway<B>, provider: string, body: B, x: Exchange) {
    && provider in g.adapters && Serves(g.adapters[provider], g.form(body).path)
    && (NotAllowed(g.adapters[provider], g.form(body)) || (Translates(g.adapters[provider]) && x.prepared.Malformed?))
  }

  predicate Refused<B>(g: Gateway<B>, provider: string, body: B, side: Side) {
    !side.exchanges(0).cancelledBefore && Refuses(g, provider, body, side.exchanges(0))
  }

  /**
   What fails a call before anything is sent: a client that has gone, a provider that the registry does
   not hold, a path that the provider's adapter does not serve, an upstream request that cannot be built.
   */
  predicate FailsUnsent<B>(g: Gateway<B>, provider: string, body: B, side: Side) {
    || side.exchanges(0).cancelledBefore
    || provider !in g.adapters
    || !Serves(g.adapters[provider], g.form(body).path)
    || (side.exchanges(0).prepared.Unbuilt? && !Refused(g, provider, body, side))
  }

  predicate Sends<B>(g: Gateway<B>, provider: string, body: B, x: Exchange) {
    provider in g.adapters && Handled(g, provider, body, x).HandsOver?
  }

  lemma {:induction false} FirstSends<B>(g: Gateway<B>, provider: string, body: B, side: Side)
    ensures !side.exchanges(0).cancelledBefore && Sends(g, provider, body, side.exchanges(0))
       <==> !FailsUnsent(g, provider, body, side) && !Refused(g, provider, body, side)
  {
  }

  /** The provider is contacted by the calls whose request the adapter hands over. */
  lemma {:induction false} EffectsContact<B>(g: Gateway<B>, provider: string, body: B, side: Side, trace: Retry.Trace)
    ensures Count(Contact, provider, Effects(g, provider, body, side, trace)) > 0
       <==> exists k: nat :: k in Retry.AuditOf(Script(g, provider, body, side), trace).calls
                             && Sends(g, provider, body, side.exchanges(k))
  {
    match trace
    case Start =>
    case Then(before, e) =>
      EffectsContact(g, provider, body, side, before);
      if e.Called? {
        var x := side.exchanges(e.attempt);
        CountOn(Contact, provider, Effects(g, provider, body, side, before), EffectsOf(g, provider, body, x));
        if provider in g.adapters {
          CountTwo(Contact, provider, DidOf(g, provider, body, x), NotedOf(g, provider, body, x));
        }
      }
  }

  /** On a provider or path that is not served, all attempts fail alike. */
  lemma {:induction false} NeverServed<B>(g: Gateway<B>, provider: string, body: B, x: Exchange)
    requires provider !in g.adapters || !Serves(g.adapters[provider], g.form(body).path)
    ensures ReplyOf(g, provider, body, x)
         == Err(if provider in g.adapters then Upstream5xx(501, provider) else NotFound(provider))
    ensures !Sends(g, provider, body, x)
  {
  }

  /** A first attempt that is not to be retried, or the only one allowed, is all. */
  lemma {:induction false} OnlyAttempt<B>(g: Gateway<B>, provider: string, body: B, side: Side)
    requires !side.exchanges(0).cancelledBefore
    requires !Retry.Retryable(PolicyFor(g, provider), ReplyOf(g, provider, body, side.exchanges(0)))
          || Retry.Limit(PolicyFor(g, provider)) == 1
    ensures SingleResult(g, provider, body, side)
         == Retry.FinalReply(provider, ReplyOf(g, provider, body, side.exchanges(0)))
    ensures SingleTrace(g, provider, body, side) == EffectsOf(g, provider, body, side.exchanges(0))
  {
    var c, script := CallTo(g, provider, side), Script(g, provider, body, side);
    Retry.FirstDecides(c, script);
    var first := EffectsOf(g, provider, body, side.exchanges(0));
    assert Effects(g, provider, body, side, Retry.Then(Retry.Start, Retry.Called(0))) == [] + first == first;
  }

  /** What becomes of one provider call: exactly when it sends something, and its result if it does not. */
  lemma {:induction false} SingleSends<B>(g: Gateway<B>, provider: string, body: B, side: Side)
    ensures Count(Contact, provider, SingleTrace(g, provider, body, side)) > 0
       <==> !FailsUnsent(g, provider, body, side) && !Refused(g, provider, body, side)
    ensures FailsUnsent(g, provider, body, side) ==> SingleResult(g, provider, body, side).Err?
    ensures Refused(g, provider, body, side) ==> SingleResult(g, provider, body, side).Ok?
  {
    var c, script := CallTo(g, provider, side), Script(g, provider, body, side);
    var trace := Retry.TraceOf(c, script);
    var calls := Retry.AuditOf(script, trace).calls;
    Retry.NoCallExactly(c, script);
    Retry.CallsAndResult(c, script);
    EffectsContact(g, provider, body, side, trace);
    FirstSends(g, provider, body, side);
    if side.exchanges(0).cancelledBefore {
    } else if provider !in g.adapters || !Serves(g.adapters[provider], g.form(body).path) {
      forall k: nat
        ensures script(k).reply.Err? && !Sends(g, provider, body, side.exchanges(k))
      {
        NeverServed(g, provider, body, side.exchanges(k));
      }
    } else if Sends(g, provider, body, side.exchanges(0)) {
      assert calls[0] == 0;
    } else {
      OnlyAttempt(g, provider, body, side);
      assert |calls| <= 1;
    }
  }

  /**
   "A failure recorded on a provider's breaker stems from something sent to it" fails for an admitted call
   in exactly the four cases of `FailsUnsent`; the record is then a failure that the default policy counts.
   "A success recorded stems from something sent" fails exactly when the adapter refuses the request itself.
   Any other admitted call has sent something.
   */
  lemma {:induction false} BlamedForNothingExactly<B>(g: Gateway<B>, provider: string, body: B, side: Side)
    requires g.breakers && side.allowed
    ensures var trace := ThroughTrace(g, provider, body, side);
      && (BlamedForNothing(provider, trace) <==> FailsUnsent(g, provider, body, side))
      && (CreditedForNothing(provider, trace) <==> Refused(g, provider, body, side))
      && (Count(Contact, provider, trace) == 0
          <==> FailsUnsent(g, provider, body, side) || Refused(g, provider, body, side))
  {
    var calls, result := SingleTrace(g, provider, body, side), SingleResult(g, provider, body, side);
    var asked: Event<B> := Asked(provider, true);
    var recorded: Event<B> := Recorded(provider, BreakerRecord(result));
    var trace := [asked] + calls + [recorded];
    SingleSends(g, provider, body, side);
    CountTwo(Contact, provider, asked, asked);
    CountTwo(Contact, provider, recorded, recorded);
    CountOn(Contact, provider, [asked], calls);
    CountOn(Contact, provider, [asked] + calls, [recorded]);
    OneRecord(g, provider, body, side, trace);
    if result.Err? {
      CategoryCounts(result.error);
      assert CountedFailure(provider, trace[|trace| - 1]);
    } else {
      assert RecordedSuccess(provider, trace[|trace| - 1]);
    }
  }

  /** The breaker's record comes last, and no other is made. */
  lemma {:induction false} OneRecord<B>(g: Gateway<B>, provider: string, body: B, side: Side, trace: seq<Event<B>>)
    requires trace == [Asked(provider, true)] + SingleTrace(g, provider, body, side)
                      + [Recorded(provider, BreakerRecord(SingleResult(g, provider, body, side)))]
    ensures trace[|trace| - 1] == Recorded(provider, BreakerRecord(SingleResult(g, provider, body, side)))
    ensures forall e :: e in trace && e.Recorded? ==> e == trace[|trace| - 1]
  {
    forall e | e in trace && e.Recorded?
      ensures e == trace[|trace| - 1]
    {
      NoRecordInside(g, provider, body, side,
                     Retry.TraceOf(CallTo(g, provider, side), Script(g, provider, body, side)), e);
    }
  }

  predicate NoRetryOn5xx<B>(g: Gateway<B>, provider: string) {
    !PolicyFor(g, provider).retryOn5xx || PolicyFor(g, provider).maxAttempts <= 1
  }

  /** The first cause: a client that goes away before the first attempt. */
  lemma {:induction false} CancellationCountsAgainstProvider<B>(g: Gateway<B>, provider: string, body: B, side: Side)
    requires g.breakers && side.allowed && side.exchanges(0).cancelledBefore
    ensures var category := CategoryOf(side.cancelled);
      && category in CircuitBreaker.DEFAULT_POLICY.tripOn
      && ThroughTrace(g, provider, body, side) == [Asked(provider, true), Recorded(provider, Some(category))]
  {
    var c, script := CallTo(g, provider, side), Script(g, provider, body, side);
    Retry.NoCallExactly(c, script);
    NoEffects(g, provider, body, side, Retry.TraceOf(c, script));
    CategoryCounts(side.cancelled);
  }

  lemma {:induction false} NoEffects<B>(g: Gateway<B>, provider: string, body: B, side: Side, trace: Retry.Trace)
    requires provider !in g.adapters || Retry.AuditOf(Script(g, provider, body, side), trace).calls == []
    ensures Effects(g, provider, body, side, trace) == []
  {
    match trace
    case Start =>
    case Then(before, e) => NoEffects(g, provider, body, side, before);
  }

  /** The second: a provider that the registry does not hold. */
  lemma {:induction false} UnregisteredCountsAgainstProvider<B>(g: Gateway<B>, provider: string, body: B, side: Side)
    requires g.breakers && side.allowed && provider !in g.adapters && !side.exchanges(0).cancelledBefore
    requires NoRetryOn5xx(g, provider)
    ensures var category := CategoryOf(NotFound(provider));
      && category in CircuitBreaker.DEFAULT_POLICY.tripOn
      && ThroughTrace(g, provider, body, side) == [Asked(provider, true), Recorded(provider, Some(category))]
  {
    OnlyAttempt(g, provider, body, side);
    CategoryCounts(NotFound(provider));
  }

  /** The third: a path that an Anthropic or Gemini adapter answers itself, with a 501. */
  lemma {:induction false} UnservedPathCountsAgainstProvider<B>(g: Gateway<B>, provider: string, body: B, side: Side)
    requires g.breakers && side.allowed && !side.exchanges(0).cancelledBefore
    requires provider in g.adapters && !Serves(g.adapters[provider], g.form(body).path)
    requires NoRetryOn5xx(g, provider)
    ensures var category := CategoryOf(Upstream5xx(501, provider));
      && category in CircuitBreaker.DEFAULT_POLICY.tripOn
      && ThroughTrace(g, provider, body, side)
         == [Asked(provider, true), Did(provider, body, false), Noted(provider, Some(CircuitBreaker.UpstreamFailure)),
             Recorded(provider, Some(category))]
  {
    NeverServed(g, provider, body, side.exchanges(0));
    OnlyAttempt(g, provider, body, side);
    CategoryCounts(Upstream5xx(501, provider));
  }

  /** An adapter's own 400 is recorded as a success. */
  lemma {:induction false} RefusalCreditsProvider<B>(g: Gateway<B>, provider: string, body: B, side: Side)
    requires g.breakers && side.allowed && Refused(g, provider, body, side)
    ensures ThroughTrace(g, provider, body, side)
         == [Asked(provider, true), Did(provider, body, false), Noted(provider, Some(CircuitBreaker.InvalidRequest)),
             Recorded(provider, None)]
  {
    OnlyAttempt(g, provider, body, side);
  }

  /** The fourth: an upstream request that cannot be built. */
  lemma {:induction false} UnbuiltCountsAgainstProvider<B>(g: Gateway<B>, provider: string, body: B, side: Side)
    requires g.breakers && side.allowed && !side.exchanges(0).cancelledBefore && provider in g.adapters
    requires Handled(g, provider, body, side.exchanges(0)).Fails?
    ensures var category := CategoryOf(side.exchanges(0).prepared.error);
      && category in CircuitBreaker.DEFAULT_POLICY.tripOn
      && ThroughTrace(g, provider, body, side)
         == [Asked(provider, true), Did(provider, body, false),
             Noted(provider, Some(CircuitBreaker.ProviderUnavailable)), Recorded(provider, Some(category))]
  {
    OnlyAttempt(g, provider, body, side);
    CategoryCounts(side.exchanges(0).prepared.error);
  }

  /**
   Where the result of a provider call comes from, and with it the breaker's record: from the client's going
   away, at any check of its context, or else from the last attempt. That is what came of its exchange with
   the provider, if it was sent; the adapter's own 400; or one of the failures without a contact.
   */
  lemma {:induction false} ResultStemsFrom<B>(g: Gateway<B>, provider: string, body: B, side: Side)
    ensures var script, result := Script(g, provider, body, side), SingleResult(g, provider, body, side);
      var audit := Retry.AuditOf(script, Retry.TraceOf(CallTo(g, provider, side), script));
      if audit.interrupted then result == Err(side.cancelled)
      else
        |audit.calls| >= 1 &&
        var x := side.exchanges(|audit.calls| - 1);
        if Sends(g, provider, body, x) then result == Retry.FinalReply(provider, Settle(provider, x.did).0)
        else if Refuses(g, provider, body, x) then result == Ok(Some(Retry.Response(400, Retry.Absent)))
        else
          && result.Err?
          && (provider !in g.adapters || !Serves(g.adapters[provider], g.form(body).path) || x.prepared.Unbuilt?)
  {
    var c, script := CallTo(g, provider, side), Script(g, provider, body, side);
    Retry.CallsAndResult(c, script);
    var audit := Retry.AuditOf(script, Retry.TraceOf(c, script));
    if !audit.interrupted {
      var x := side.exchanges(|audit.calls| - 1);
      assert script(|audit.calls| - 1).reply == ReplyOf(g, provider, body, x);
    }
  }

  lemma {:induction false} ThroughRecords<B>(g: Gateway<B>, provider: string, body: B, side: Side, e: Event<B>)
    requires e in ThroughTrace(g, provider, body, side) && e.Recorded? && e.failure.Some?
    ensures e.failure.value in CircuitBreaker.DEFAULT_POLICY.tripOn
  {
    NoRecordInside(g, provider, body, side, Retry.TraceOf(CallTo(g, provider, side), Script(g, provider, body, side)),
                   e);
  }

  /** Every failure that a request records counts under the default policy. */
  lemma {:induction false} RecordedFailuresCount<B>(g: Gateway<B>, r: Request<B>, e: Event<B>)
    requires e in FinalTrace(g, r) && e.Recorded? && e.failure.Some?
    ensures e.failure.value in CircuitBreaker.DEFAULT_POLICY.tripOn
  {
    if e in ThroughTrace(g, r.provider, r.body, r.primary) {
      ThroughRecords(g, r.provider, r.body, r.primary, e);
    } else {
      ThroughRecords(g, g.fallback, FallbackCall(g, r).value.1, r.secondary, e);
    }
  }

  lemma {:induction false} NoRecordInside<B>(
      g: Gateway<B>, provider: string, body: B, side: Side, trace: Retry.Trace, e: Event<B>)
    requires e.Recorded?
    ensures e !in Effects(g, provider, body, side, trace)
  {
    match trace
    case Start =>
    case Then(before, _) => NoRecordInside(g, provider, body, side, before, e);
  }

  // ---------------------------------------------------------------------
  // The answers in their own terms

  /** The texts that make an error worth a fallback, and nothing else but a network error. */
  lemma {:induction false} RetryableInFull(e: Failure)
    ensures var text := ToLower(e.message);
      IsRetryable(e) <==>
        || e.net || e.dns
        || Mentions(text, "circuit_breaker_open") || Mentions(text, "provider not found")
        || Mentions(text, "upstream_5xx") || Mentions(text, "dial tcp") || Mentions(text, "lookup ")
        || Mentions(text, "no such host") || Mentions(text, "connection refused") || Mentions(text, "i/o timeout")
        || Mentions(text, "context deadline exceeded") || Mentions(text, "timeout")
        || Mentions(text, "tls handshake timeout") || Mentions(text, "server misbehaving")
  {
    var text := ToLower(e.message);
    assert forall m :: Mentions(text, MarkerText(m)) ==> IsRetryable(e);
    assert MarkerText(BreakerIsOpen) == "circuit_breaker_open" && MarkerText(ProviderNotFound) == "provider not found";
    assert MarkerText(Is5xx) == "upstream_5xx" && MarkerText(DialTcp) == "dial tcp" && MarkerText(Lookup) == "lookup ";
    assert MarkerText(NoSuchHost) == "no such host" && MarkerText(ConnectionRefused) == "connection refused";
    assert MarkerText(IoTimeout) == "i/o timeout" && MarkerText(DeadlineExceeded) == "context deadline exceeded";
    assert MarkerText(Timeout) == "timeout" && MarkerText(TlsTimeout) == "tls handshake timeout";
    assert MarkerText(Misbehaving) == "server misbehaving";
  }

  /** A timeout is an unavailable provider, whatever the text; a 5xx is not, whatever the network error. */
  lemma {:induction false} CategoryInFull(e: Failure)
    ensures var text := ToLower(e.message);
      CategoryOf(e) == CircuitBreaker.ProviderUnavailable <==>
        || e.deadline || (e.net && e.netTimeout) || Mentions(e.message, "provider_timeout")
        || (!Mentions(e.message, "upstream_5xx")
            && (e.net || Mentions(text, "connection refused") || Mentions(text, "dial tcp")
                || Mentions(text, "no such host")))
    ensures CategoryOf(e) != CircuitBreaker.ProviderUnavailable ==> CategoryOf(e) == CircuitBreaker.UpstreamFailure
  {
  }

  /** What each family does with a request before its HTTP client has it. */
  lemma {:induction false} HandlingInFull(a: Adapter, f: Form, prepared: Prepared)
    ensures var h := HandlingOf(a, f, prepared);
      && (h == Answers(501) <==> (a.family.Anthropic? || a.family.Gemini?) && f.path != "/v1/chat/completions")
      && (h == Answers(400) <==>
            || ((a.family.Anthropic? || a.family.Gemini?) && f.path == "/v1/chat/completions" && prepared.Malformed?)
            || (a.family.OpenAICompat? && f.post && f.path == "/v1/chat/completions"
                && ((f.images && !a.allowMultimodal) || (f.tools && !a.supportTools))))
      && (h.Answers? ==> h.status == 501 || h.status == 400)
      && (h.Fails? <==> !h.Answers? && prepared.Unbuilt?) && (h.Fails? ==> h.error == prepared.error)
  {
  }

  /** The category of a status, for all statuses. */
  lemma {:induction false} StatusInFull(status: int)
    ensures var c := StatusCategory(status);
      && (c.Auth? <==> status in [401, 403]) && (c.InvalidRequest? <==> status in [400, 422])
      && (c.RateLimit? <==> status == 429) && (c.ProviderUnavailable? <==> 502 <= status <= 504)
      && (c.UpstreamFailure? <==> status !in [400, 401, 403, 422, 429, 502, 503, 504])
  {
  }

  /** Lower case, letter by letter. */
  lemma {:induction false} LowerInFull(s: string, i: nat)
    requires i < |s|
    ensures |ToLower(s)| == |s|
    ensures var low := ToLower(s)[i];
      && ('A' <= s[i] <= 'Z' ==> 'a' <= low <= 'z' && low - 'a' == s[i] - 'A')
      && (s[i] < 'A' || 'Z' < s[i] < '\U{80}' ==> low == s[i])
      && ('\U{80}' <= s[i] && low != s[i] ==>
            (s[i] == '\U{212A}' && low == 'k') || (s[i] == '\U{130}' && low == 'i'))
      && (s[i] == '\U{212A}' || s[i] == '\U{130}' ==> low != s[i])
  {
  }

  /** What a string of decimal digits stands for. */
  function Number(s: string): int {
    if s == "" then 0 else 10 * Number(s[..|s| - 1]) + (s[|s| - 1] as int - '0' as int)
  }

  lemma {:induction false} DigitsInFull(n: nat)
    ensures Number(Digits(n)) == n && Digits(n) != "" && (n >= 10 ==> Digits(n)[0] != '0')
    ensures forall i :: 0 <= i < |Digits(n)| ==> '0' <= Digits(n)[i] <= '9'
  {
    if n < 10 {
      assert Number([n as char + '0'][..0]) == 0;
    } else {
      DigitsInFull(n / 10);
      assert Digits(n)[..|Digits(n)| - 1] == Digits(n / 10);
    }
  }

  /** The gateway's own errors: their texts, and none of the marks of a network error. */
  lemma {:induction false} OwnErrorsInFull(status: nat, provider: string)
    ensures Upstream5xx(status, provider).message
         == "upstream_5xx" + " status=" + Digits(status) + " provider=" + provider
    ensures NotFound(provider).message == "provider not found" + ": " + provider
    ensures BreakerOpen(provider).message == "circuit_breaker_open" + " provider=" + provider
    ensures forall e :: e in [Upstream5xx(status, provider), NotFound(provider), BreakerOpen(provider)] ==>
      !e.deadline && !e.net && !e.netTimeout && !e.dns
  {
    var status', provider' := " status=" + Digits(status), " provider=" + provider;
    assert "upstream_5xx" + status' + provider' == "upstream_5xx" + (status' + provider');
    assert " status=" + Digits(status) + " provider=" + provider == status' + provider';
    assert "upstream_5xx" + " status=" + Digits(status) == "upstream_5xx" + status';
  }

  /** The category under which a status from 400 to 499 is noted. */
  predicate NotedAs(status: int, category: Category) {
    && (status == 401 || status == 403 <==> category.Auth?)
    && (status == 400 || status == 422 <==> category.InvalidRequest?)
    && (status == 429 <==> category.RateLimit?)
    && !category.ProviderUnavailable?
  }

  /**
   What comes of a request that is handed over, by the provider's answer: below 400 a success, from 400 to
   499 the response as it came, noted as a failure, and from 500 on an error. A body that cannot be read or
   normalised is an error too.
   */
  lemma {:induction false} AnswerInFull<B>(g: Gateway<B>, provider: string, body: B, x: Exchange, u: Upstream)
    requires Sends(g, provider, body, x) && x.did == Ok(Some(u))
    ensures var reply, events := ReplyOf(g, provider, body, x), EffectsOf(g, provider, body, x);
      && |events| == 2 && events[0] == Did(provider, body, true) && events[1].Noted? && events[1].provider == provider
      && (u.status < 400 ==>
            reply == Ok(Some(Retry.Response(u.status, u.retryAfter))) && events[1].outcome == None)
      && (u.status >= 400 && u.readError.Some? ==>
            reply == Err(u.readError.value) && events[1].outcome == Some(CircuitBreaker.UpstreamFailure))
      && (u.status >= 400 && u.readError.None? && u.normalizeError.Some? ==>
            reply == Err(u.normalizeError.value) && events[1].outcome == Some(CircuitBreaker.UpstreamFailure))
      && (400 <= u.status < 500 && u.readError.None? && u.normalizeError.None? ==>
            && reply == Ok(Some(Retry.Response(u.status, u.retryAfter)))
            && events[1].outcome.Some? && NotedAs(u.status, events[1].outcome.value))
      && (u.status >= 500 && u.readError.None? && u.normalizeError.None? ==>
            && reply.Err? && Retry.Is5xx(reply.error)
            && events[1].outcome == Some(CircuitBreaker.UpstreamFailure))
  {
    if u.status >= 500 {
      StartsWith(Upstream5xx(u.status, provider), "upstream_5xx",
                 " status=" + Digits(u.status) + " provider=" + provider);
    }
  }

  /** And by the failure of the exchange, or an answer without a response. */
  lemma {:induction false} NoAnswerInFull<B>(g: Gateway<B>, provider: string, body: B, x: Exchange)
    requires Sends(g, provider, body, x) && (x.did.Ok? ==> x.did.value.None?)
    ensures x.did.Err? ==>
      && ReplyOf(g, provider, body, x) == Err(x.did.error)
      && EffectsOf(g, provider, body, x)
         == [Did(provider, body, true), Noted(provider, Some(CircuitBreaker.ProviderUnavailable))]
    ensures x.did.Ok? ==>
      && ReplyOf(g, provider, body, x) == Ok(None)
      && EffectsOf(g, provider, body, x) == [Did(provider, body, true), Noted(provider, None)]
  {
  }

  /** The last attempt of a call was sent and answered with a 5xx; the client is still there. */
  predicate EndsIn5xx<B>(g: Gateway<B>, provider: string, body: B, side: Side) {
    var script := Script(g, provider, body, side);
    var audit := Retry.AuditOf(script, Retry.TraceOf(CallTo(g, provider, side), script));
    && !audit.interrupted && |audit.calls| >= 1
    && var x := side.exchanges(|audit.calls| - 1);
      && Sends(g, provider, body, x) && x.did.Ok? && x.did.value.Some?
      && x.did.value.value.status >= 500
      && x.did.value.value.readError.None? && x.did.value.value.normalizeError.None?
  }

  /** A 5xx at the last attempt is an error that counts against the provider, and it is no timeout. */
  lemma {:induction false} ServerErrorCounts<B>(g: Gateway<B>, provider: string, body: B, side: Side)
    requires EndsIn5xx(g, provider, body, side)
    ensures SingleResult(g, provider, body, side).Err? && Retry.Is5xx(SingleResult(g, provider, body, side).error)
    ensures g.breakers && side.allowed ==>
      && ThroughResult(g, provider, body, side) == SingleResult(g, provider, body, side)
      && var trace := ThroughTrace(g, provider, body, side);
         |trace| >= 1 && CountedFailure(provider, trace[|trace| - 1])
  {
    var script := Script(g, provider, body, side);
    var audit := Retry.AuditOf(script, Retry.TraceOf(CallTo(g, provider, side), script));
    var x := side.exchanges(|audit.calls| - 1);
    AnswerInFull(g, provider, body, x, x.did.value.value);
    ResultStemsFrom(g, provider, body, side);
    CategoryCounts(SingleResult(g, provider, body, side).error);
  }

  /** The request then goes to the fallback, if another provider is configured as one. */
  lemma {:induction false} ServerErrorFallsBack<B>(g: Gateway<B>, r: Request<B>)
    requires (g.breakers ==> r.primary.allowed) && EndsIn5xx(g, r.provider, r.body, r.primary)
    requires g.fallback != "" && g.fallback != r.provider
    ensures TriesFallback(g, r)
  {
    ServerErrorCounts(g, r.provider, r.body, r.primary);
    MentionIsRetryable(SingleResult(g, r.provider, r.body, r.primary).error, Is5xx);
  }

  /** Without a reason to fall back, the request is its own provider's alone. */
  lemma {:induction false} NoFallback<B>(g: Gateway<B>, r: Request<B>)
    requires var first := ThroughResult(g, r.provider, r.body, r.primary);
      first.Ok? || g.fallback == "" || g.fallback == r.provider || !IsRetryable(first.error)
    ensures FinalOutcome(g, r) == Outcome(ThroughResult(g, r.provider, r.body, r.primary), r.provider, r.model)
    ensures FinalTrace(g, r) == ThroughTrace(g, r.provider, r.body, r.primary)
  {
  }

  /**
   With one, the fallback gets the request: with the compatible model put into it, if there is another one. A
   request that it cannot be put into is not sent a second time.
   */
  lemma {:induction false} FallbackInFull<B>(g: Gateway<B>, r: Request<B>)
    requires var first := ThroughResult(g, r.provider, r.body, r.primary);
      first.Err? && g.fallback != "" && g.fallback != r.provider && IsRetryable(first.error)
    ensures var model, o := g.compatible(r.model, g.fallback), FinalOutcome(g, r);
      var first, whole := ThroughTrace(g, r.provider, r.body, r.primary), FinalTrace(g, r);
      && o.provider == g.fallback
      && (model == "" || model == r.model ==>
            && o.model == r.model && o.result == ThroughResult(g, g.fallback, r.body, r.secondary)
            && whole == first + ThroughTrace(g, g.fallback, r.body, r.secondary))
      && (model != "" && model != r.model && g.rewrite(r.body, model).Ok? ==>
            var body := g.rewrite(r.body, model).value;
            && o.model == model && o.result == ThroughResult(g, g.fallback, body, r.secondary)
            && whole == first + ThroughTrace(g, g.fallback, body, r.secondary))
      && (model != "" && model != r.model && g.rewrite(r.body, model).Err? ==>
            o.model == r.model && o.result == Err(g.rewrite(r.body, model).error) && whole == first)
  {
  }

  /** A provider without a policy of its own has the default one: a single attempt. */
  lemma {:induction false} DefaultIsOneAttempt<B>(g: Gateway<B>, provider: string)
    ensures provider in g.policies ==> PolicyFor(g, provider) == g.policies[provider]
    ensures provider !in g.policies ==>
      var p := PolicyFor(g, provider); Retry.Limit(p) == 1 && !p.retryOn5xx && !p.retryOnTimeout
  {
  }
}
