/**
 internal/gateway/retry.go: the attempts of one provider call. What happens outside (the answers, the
 request's cancellation, the jitter) is a script with one entry per attempt; what the loop does is a trace.
 Durations are seconds, as reals.
 */
module Retry {
  import opened Reals
  import opened Wrappers

  /**
   A Go error: its text and what its chain holds. `deadline` is one of the two deadline errors, `net` a
   net.Error, `netTimeout` that its Timeout() is true, `dns` a DNSError.
   */
  datatype Failure = Failure(message: string, deadline: bool, net: bool, netTimeout: bool, dns: bool)

  /** The Retry-After header; a date is given by the time left until then. */
  datatype RetryAfter = Absent | Seconds(seconds: real) | Date(left: real) | Malformed

  datatype Response = Response(status: int, retryAfter: RetryAfter)

  /** What one call returns; a nil response without an error is possible. */
  type Reply = Result<Option<Response>, Failure>

  datatype Policy = Policy(
    maxAttempts: int, retryOn5xx: bool, retryOnTimeout: bool, initialBackoff: real, maxBackoff: real)

  const DEFAULT_POLICY := Policy(1, false, false, 0.5, 10.0)

  datatype Attempt = Attempt(cancelledBefore: bool, reply: Reply, noise: real, cancelledWaiting: bool)

  datatype Event =
    | Called(attempt: nat)
    | Closed(attempt: nat)
    | Waited(delay: real)
    | Interrupted

  /** What happened, latest event last. */
  datatype Trace = Start | Then(before: Trace, last: Event)

  // ---------------------------------------------------------------------
  // Texts

  predicate At(s: string, part: string, i: nat)
    requires i + |part| <= |s|
  {
    s[i..i + |part|] == part
  }

  predicate Contains(s: string, part: string) {
    exists i :: 0 <= i <= |s| - |part| && At(s, part, i)
  }

  lemma {:induction false} ContainsAt(before: string, part: string, after: string)
    ensures Contains(before + part + after, part)
  {
    assert At(before + part + after, part, |before|);
  }

  predicate IsTimeout(e: Failure) {
    e.deadline || (e.net && e.netTimeout)
  }

  predicate Is5xx(e: Failure) {
    Contains(e.message, "upstream_5xx")
  }

  function TimeoutError(name: string, e: Failure): Failure {
    e.(message := "provider_timeout" + (" provider=" + name + ": " + e.message))
  }

  // ---------------------------------------------------------------------
  // Delays

  function Min(a: real, b: real): real { if a < b then a else b }

  function Doubled(d: real, times: nat): real {
    if times == 0 then d else 2.0 * Doubled(d, times - 1)
  }

  /** The delay before jitter. */
  function Ideal(p: Policy, attempt: nat): real {
    Min(Doubled(p.initialBackoff, attempt), p.maxBackoff)
  }

  /**
   The random part is any amount of up to 10% of the delay either way: the script's value, cut to that
   range. A negative result is cut to 0.
   */
  function Jittered(d: real, noise: real): real {
    var most := if d < 0.0 then -0.1 * d else 0.1 * d;
    var jittered := d + (if noise < -most then -most else Min(noise, most));
    if jittered < 0.0 then 0.0 else jittered
  }

  /** `exponentialBackoff`. */
  function Backoff(p: Policy, attempt: nat, noise: real): real {
    Jittered(Ideal(p, attempt), noise)
  }

  function ParseRetryAfter(response: Option<Response>): Option<real> {
    if response.None? then None
    else
      match response.value.retryAfter
      case Absent => None
      case Seconds(s) => Some(s)
      case Date(left) => Some(if left <= 0.0 then 0.0 else left)
      case Malformed => None
  }

  /** The delay after a 429: the header's, capped, or else the backoff. */
  function Delay429(p: Policy, attempt: nat, noise: real, response: Option<Response>): real {
    match ParseRetryAfter(response)
    case Some(s) => Min(s, 3.0 * p.maxBackoff)
    case None => Backoff(p, attempt, noise)
  }

  function Delay(p: Policy, attempt: nat, a: Attempt): real {
    if a.reply.Ok? then Delay429(p, attempt, a.noise, a.reply.value) else Backoff(p, attempt, a.noise)
  }

  function Positive(d: real): real { if d < 0.0 then 0.0 else d }

  function LongestWait(p: Policy): real {
    3.0 * Positive(p.maxBackoff)
  }

  /**
   A 429's delay is the header's, unless that is over three times MaxBackoff; any other delay is
   within 10% of the exponential one, which MaxBackoff caps.
   */
  lemma {:induction false} DelayRange(p: Policy, attempt: nat, a: Attempt)
    ensures var header := if a.reply.Ok? then ParseRetryAfter(a.reply.value) else None;
      var delay, ideal := Delay(p, attempt, a), Ideal(p, attempt);
      && (header.Some? ==> delay <= header.value && (header.value <= 3.0 * p.maxBackoff ==> delay == header.value))
      && (header.None? && ideal >= 0.0 ==> 0.9 * ideal <= delay <= 1.1 * ideal)
      && Positive(delay) <= LongestWait(p)
  {
  }

  // ---------------------------------------------------------------------
  // The loop on values

  function Limit(p: Policy): (n: nat) {
    if p.maxAttempts <= 0 then 1 else p.maxAttempts
  }

  predicate Is429(reply: Reply) {
    reply.Ok? && reply.value.Some? && reply.value.value.status == 429
  }

  predicate RetryableError(p: Policy, e: Failure) {
    (IsTimeout(e) && p.retryOnTimeout) || (Is5xx(e) && p.retryOn5xx)
  }

  /** The replies that the loop retries while attempts remain. */
  predicate Retryable(p: Policy, reply: Reply) {
    if reply.Ok? then Is429(reply) else RetryableError(p, reply.error)
  }

  function FinalError(name: string, e: Failure): Failure {
    if IsTimeout(e) then TimeoutError(name, e) else e
  }

  function FinalReply(name: string, reply: Reply): Reply {
    if reply.Ok? then reply else Err(FinalError(name, reply.error))
  }

  /** One provider call: its retry policy, the provider's name, and the error of a cancelled context. */
  datatype Call = Call(policy: Policy, name: string, cancelled: Failure)

  datatype Progress = Going(trace: Trace) | Done(trace: Trace, result: Reply)

  /** What one attempt comes to: never made, the last one, or one to retry after a delay. */
  datatype Decision = Cut | Final(reply: Reply) | Again(delay: real, cutShort: bool)

  function Decide(c: Call, a: Attempt, k: nat): Decision {
    if a.cancelledBefore then Cut
    else if !Retryable(c.policy, a.reply) || k == Limit(c.policy) - 1 then Final(FinalReply(c.name, a.reply))
    else Again(Delay(c.policy, k, a), a.cancelledWaiting)
  }

  /** The k-th attempt; `response` says that it was answered, with a body to close. */
  function Step(d: Decision, response: bool, cancelled: Failure, k: nat, trace: Trace): Progress {
    if d.Cut? then Done(Then(trace, Interrupted), Err(cancelled))
    else
      var called := Then(trace, Called(k));
      if d.Final? then Done(called, d.reply)
      else
        var closed := if response then Then(called, Closed(k)) else called;
        var waited := Then(closed, Waited(d.delay));
        if d.cutShort then Done(Then(waited, Interrupted), Err(cancelled)) else Going(waited)
  }

  predicate HasResponse(reply: Reply) {
    reply.Ok? && reply.value.Some?
  }

  function StepOf(c: Call, a: Attempt, k: nat, trace: Trace): Progress {
    Step(Decide(c, a, k), HasResponse(a.reply), c.cancelled, k, trace)
  }

  /** The state after at most n attempts. */
  function After(c: Call, script: nat -> Attempt, n: nat): Progress {
    if n == 0 then Going(Start)
    else
      match After(c, script, n - 1)
      case Done(trace, result) => Done(trace, result)
      case Going(trace) => StepOf(c, script(n - 1), n - 1, trace)
  }

  lemma {:induction false} DoneStays(c: Call, script: nat -> Attempt, m: nat, n: nat)
    requires m <= n && After(c, script, m).Done?
    ensures After(c, script, n) == After(c, script, m)
  {
    if m < n { DoneStays(c, script, m, n - 1); }
  }

  lemma {:induction false} Earlier(c: Call, script: nat -> Attempt, m: nat, n: nat)
    requires m <= n && After(c, script, n).Going?
    ensures After(c, script, m).Going?
  {
    if m < n { Earlier(c, script, m, n - 1); }
  }

  /** The loop always returns from inside, at the last attempt at the latest. */
  lemma {:induction false} LastAttemptEnds(c: Call, script: nat -> Attempt)
    ensures After(c, script, Limit(c.policy)).Done?
  {
  }

  function TraceOf(c: Call, script: nat -> Attempt): Trace {
    After(c, script, Limit(c.policy)).trace
  }

  function ResultOf(c: Call, script: nat -> Attempt): Reply {
    LastAttemptEnds(c, script);
    After(c, script, Limit(c.policy)).result
  }

  // ---------------------------------------------------------------------
  // The loop

  method CallWithRetry(c: Call, script: nat -> Attempt) returns (result: Reply, trace: Trace)
    ensures result == ResultOf(c, script) && trace == TraceOf(c, script)
  {
    var maxAttempts := c.policy.maxAttempts;
    if maxAttempts <= 0 {
      maxAttempts := 1;
    }
    LastAttemptEnds(c, script);
    trace := Start;
    var attempt := 0;
    while attempt < maxAttempts
      invariant 0 <= attempt <= maxAttempts == Limit(c.policy)
      invariant After(c, script, attempt) == Going(trace)
    {
      var a := script(attempt);
      assert After(c, script, attempt + 1) == StepOf(c, a, attempt, trace);
      if After(c, script, attempt + 1).Done? { DoneStays(c, script, attempt + 1, maxAttempts); }
      if a.cancelledBefore {
        return Err(c.cancelled), Then(trace, Interrupted);
      }
      trace := Then(trace, Called(attempt));
      if a.reply.Ok? && a.reply.value.Some? && a.reply.value.value.status == 429 {
        if attempt == maxAttempts - 1 { return a.reply, trace; }
        var backoff := Backoff(c.policy, attempt, a.noise);
        var header := ParseRetryAfter(a.reply.value);
        if header.Some? {
          var d, cap := header.value, c.policy.maxBackoff * 3.0;
          if d > cap { d := cap; }
          backoff := d;
        }
        trace := Then(Then(trace, Closed(attempt)), Waited(backoff));
        if a.cancelledWaiting {
          return Err(c.cancelled), Then(trace, Interrupted);
        }
        attempt := attempt + 1;
        continue;
      }
      if a.reply.Ok? { return a.reply, trace; }
      var lastErr := a.reply.error;
      var retry := (IsTimeout(lastErr) && c.policy.retryOnTimeout) || (Is5xx(lastErr) && c.policy.retryOn5xx);
      if !retry || attempt == maxAttempts - 1 {
        if IsTimeout(lastErr) { return Err(TimeoutError(c.name, lastErr)), trace; }
        return a.reply, trace;
      }
      var backoff := Backoff(c.policy, attempt, a.noise);
      trace := Then(trace, Waited(backoff));
      if a.cancelledWaiting {
        return Err(c.cancelled), Then(trace, Interrupted);
      }
      attempt := attempt + 1;
    }
  }

  // ---------------------------------------------------------------------
  // What a trace says

  /**
   An audit of a trace: the attempts called; whether the context cut it short; the attempts whose response
   was received and is not closed; the time spent waiting, in which a wait that was cut short counts in full
   and a timer below 0 fires at once; and whether it was tidy: a body was closed only while held, so once,
   and nothing was held at a call or during a wait.
   */
  datatype Audit = Audit(calls: seq<nat>, interrupted: bool, held: set<nat>, wait: real, tidy: bool)

  function See(script: nat -> Attempt, a: Audit, e: Event): Audit {
    match e
    case Called(k) =>
      a.(calls := a.calls + [k], tidy := a.tidy && a.held == {}, interrupted := false,
         held := if HasResponse(script(k).reply) then a.held + {k} else a.held)
    case Closed(k) => a.(held := a.held - {k}, tidy := a.tidy && k in a.held, interrupted := false)
    case Waited(d) => a.(wait := a.wait + Positive(d), tidy := a.tidy && a.held == {}, interrupted := false)
    case Interrupted => a.(interrupted := true)
  }

  function AuditOf(script: nat -> Attempt, trace: Trace): Audit {
    match trace
    case Start => Audit([], false, {}, 0.0, true)
    case Then(before, e) => See(script, AuditOf(script, before), e)
  }

  lemma {:induction false} StepAudit(script: nat -> Attempt, d: Decision, cancelled: Failure, k: nat, t: Trace)
    requires AuditOf(script, t).held == {}
    ensures var response, before := HasResponse(script(k).reply), AuditOf(script, t);
      var s := Step(d, response, cancelled, k, t);
      AuditOf(script, s.trace) == Audit(
        if d.Cut? then before.calls else before.calls + [k],
        d.Cut? || (d.Again? && d.cutShort),
        if d.Final? && response then {k} else {},
        if d.Again? then before.wait + Positive(d.delay) else before.wait,
        before.tidy)
  {
    if d.Again? {
      var called := Then(t, Called(k));
      var closed := if HasResponse(script(k).reply) then Then(called, Closed(k)) else called;
      assert AuditOf(script, closed).held == {} && AuditOf(script, closed).tidy == AuditOf(script, t).tidy;
      assert AuditOf(script, Then(closed, Waited(d.delay))).calls == AuditOf(script, called).calls;
    }
  }

  // ---------------------------------------------------------------------
  // Over a whole call

  function FirstN(n: nat): (r: seq<nat>)
    ensures |r| == n && forall i :: 0 <= i < n ==> r[i] == i
  {
    if n == 0 then [] else FirstN(n - 1) + [n - 1]
  }

  lemma {:induction false} DecideFacts(c: Call, a: Attempt, k: nat)
    ensures var d := Decide(c, a, k);
      && (d.Again? ==> Retryable(c.policy, a.reply) && k != Limit(c.policy) - 1)
      && (d.Again? ==> Positive(d.delay) <= LongestWait(c.policy))
      && (d.Final? ==> !Retryable(c.policy, a.reply) || k == Limit(c.policy) - 1)
      && (d.Final? ==> d.reply == FinalReply(c.name, a.reply) && HasResponse(d.reply) == HasResponse(a.reply))
  {
    DelayRange(c.policy, k, a);
  }

  /** What the trace looks like after n attempts that were all retried. */
  lemma {:induction false} GoingAudit(c: Call, script: nat -> Attempt, n: nat)
    requires After(c, script, n).Going?
    ensures n < Limit(c.policy)
    ensures var audit := AuditOf(script, After(c, script, n).trace);
      && audit.calls == FirstN(n) && audit.tidy && audit.held == {}
      && audit.wait <= Repeat(n, LongestWait(c.policy))
    ensures forall k :: 0 <= k < n ==> Retryable(c.policy, script(k).reply)
  {
    if n > 0 {
      GoingAudit(c, script, n - 1);
      GoingStep(c, script, n - 1, After(c, script, n - 1).trace);
    }
  }

  /** One attempt that is retried. */
  lemma {:induction false} GoingStep(c: Call, script: nat -> Attempt, k: nat, t: Trace)
    requires AuditOf(script, t).held == {} && StepOf(c, script(k), k, t).Going?
    ensures k != Limit(c.policy) - 1 && Retryable(c.policy, script(k).reply)
    ensures var before, audit := AuditOf(script, t), AuditOf(script, StepOf(c, script(k), k, t).trace);
      && audit.calls == before.calls + [k] && audit.tidy == before.tidy && audit.held == {}
      && audit.wait <= before.wait + LongestWait(c.policy)
  {
    StepAudit(script, Decide(c, script(k), k), c.cancelled, k, t);
    DecideFacts(c, script(k), k);
  }

  /** The attempt at which the loop returns. */
  lemma {:induction false} EndsAt(c: Call, script: nat -> Attempt) returns (k: nat)
    ensures k < Limit(c.policy) && After(c, script, k).Going?
    ensures StepOf(c, script(k), k, After(c, script, k).trace) == Done(TraceOf(c, script), ResultOf(c, script))
  {
    LastAttemptEnds(c, script);
    k := 0;
    while After(c, script, k + 1).Going?
      invariant k < Limit(c.policy) && After(c, script, k).Going?
      decreases Limit(c.policy) - k
    {
      k := k + 1;
    }
    DoneStays(c, script, k + 1, Limit(c.policy));
  }

  /**
   The attempts are 0, 1, ... without a gap, at most max(1, MaxAttempts) of them; each one but the last
   had a reply to retry. Unless the context was cancelled, the last attempt is the first one whose reply
   is not to be retried, or the last one allowed, and the result is its reply: the response as it came,
   or the error, wrapped when it is a timeout.
   */
  lemma {:induction false} CallsAndResult(c: Call, script: nat -> Attempt)
    ensures var audit, result := AuditOf(script, TraceOf(c, script)), ResultOf(c, script);
      var n := |audit.calls|;
      && audit.calls == FirstN(n) && n <= Limit(c.policy)
      && (forall k :: 0 <= k < n - 1 ==> Retryable(c.policy, script(k).reply))
      && (if audit.interrupted then result == Err(c.cancelled)
          else && n >= 1 && result == FinalReply(c.name, script(n - 1).reply)
               && (!Retryable(c.policy, script(n - 1).reply) || n == Limit(c.policy)))
  {
    var k := EndsAt(c, script);
    GoingAudit(c, script, k);
    DecideFacts(c, script(k), k);
    StepAudit(script, Decide(c, script(k), k), c.cancelled, k, After(c, script, k).trace);
  }

  /**
   Every response that is retried is closed, once, before the wait and the next call; at the end only
   the returned response is open, and none is when an error is returned.
   */
  lemma {:induction false} BodiesAreClosed(c: Call, script: nat -> Attempt)
    ensures var audit, result := AuditOf(script, TraceOf(c, script)), ResultOf(c, script);
      audit.tidy && audit.held == if HasResponse(result) then {|audit.calls| - 1} else {}
  {
    var k := EndsAt(c, script);
    GoingAudit(c, script, k);
    DecideFacts(c, script(k), k);
    StepAudit(script, Decide(c, script(k), k), c.cancelled, k, After(c, script, k).trace);
  }

  /** No call is made exactly when the context was cancelled before the first attempt. */
  lemma {:induction false} NoCallExactly(c: Call, script: nat -> Attempt)
    ensures AuditOf(script, TraceOf(c, script)).calls == [] <==> script(0).cancelledBefore
    ensures script(0).cancelledBefore ==> ResultOf(c, script) == Err(c.cancelled)
  {
    var k := EndsAt(c, script);
    if k > 0 { Earlier(c, script, 1, k); }
    assert After(c, script, 1) == StepOf(c, script(0), 0, Start);
    GoingAudit(c, script, k);
    DecideFacts(c, script(k), k);
    StepAudit(script, Decide(c, script(k), k), c.cancelled, k, After(c, script, k).trace);
  }

  /** A first attempt that is made, and whose reply is not to be retried or which is the only one allowed, is all. */
  lemma {:induction false} FirstDecides(c: Call, script: nat -> Attempt)
    requires !script(0).cancelledBefore
    requires !Retryable(c.policy, script(0).reply) || Limit(c.policy) == 1
    ensures ResultOf(c, script) == FinalReply(c.name, script(0).reply)
    ensures TraceOf(c, script) == Then(Start, Called(0))
  {
    assert After(c, script, 1) == StepOf(c, script(0), 0, Start);
    DoneStays(c, script, 1, Limit(c.policy));
  }

  lemma {:induction false} WaitingRepeats(c: Call, script: nat -> Attempt)
    ensures AuditOf(script, TraceOf(c, script)).wait <= Repeat(Limit(c.policy) - 1, LongestWait(c.policy))
  {
    var k := EndsAt(c, script);
    GoingAudit(c, script, k);
    DecideFacts(c, script(k), k);
    StepAudit(script, Decide(c, script(k), k), c.cancelled, k, After(c, script, k).trace);
    RepeatMonotone(k, Limit(c.policy) - 1, LongestWait(c.policy));
  }

  /** At most MaxAttempts - 1 waits of at most three times MaxBackoff. */
  lemma {:induction false} WaitingIsBounded(c: Call, script: nat -> Attempt)
    ensures AuditOf(script, TraceOf(c, script)).wait <= (Limit(c.policy) - 1) as real * LongestWait(c.policy)
  {
    WaitingRepeats(c, script);
    RepeatProduct(Limit(c.policy) - 1, LongestWait(c.policy));
  }

  // ---------------------------------------------------------------------
  // Delays and retries in their own terms

  function TwoTo(k: nat): nat {
    if k == 0 then 1 else 2 * TwoTo(k - 1)
  }

  /** Each attempt doubles the delay, until MaxBackoff. */
  lemma {:induction false} IdealInFull(p: Policy, attempt: nat)
    ensures var doubled := p.initialBackoff * TwoTo(attempt) as real;
      Ideal(p, attempt) == if doubled < p.maxBackoff then doubled else p.maxBackoff
  {
    DoubledInFull(p.initialBackoff, attempt);
  }

  lemma {:induction false} DoubledInFull(d: real, times: nat)
    ensures Doubled(d, times) == d * TwoTo(times) as real
  {
    if times > 0 {
      DoubledInFull(d, times - 1);
      TwiceReal(TwoTo(times - 1), d);
    }
  }

  lemma {:induction false} TwiceReal(n: nat, d: real)
    ensures d * (2 * n) as real == 2.0 * (d * n as real)
  {
    assert (2 * n) as real == 2.0 * n as real;
  }

  /** The jitter is the random part itself, as far as it is within a tenth of the delay. */
  lemma {:induction false} JitterInFull(p: Policy, attempt: nat, noise: real)
    requires Ideal(p, attempt) >= 0.0
    ensures var d, jittered := Ideal(p, attempt), Backoff(p, attempt, noise);
      && (-0.1 * d <= noise <= 0.1 * d ==> jittered == d + noise)
      && (noise > 0.1 * d ==> jittered == 1.1 * d) && (noise < -0.1 * d ==> jittered == 0.9 * d)
  {
  }

  /** What the loop waits after an attempt: the header's delay after a 429 that names one, the backoff otherwise. */
  lemma {:induction false} DelayInFull(p: Policy, attempt: nat, a: Attempt)
    ensures var capped := (s: real) => if s < 3.0 * p.maxBackoff then s else 3.0 * p.maxBackoff;
      if a.reply.Ok? && a.reply.value.Some? && a.reply.value.value.retryAfter.Seconds?
      then Delay(p, attempt, a) == capped(a.reply.value.value.retryAfter.seconds)
      else if a.reply.Ok? && a.reply.value.Some? && a.reply.value.value.retryAfter.Date?
      then
        var left := a.reply.value.value.retryAfter.left;
        Delay(p, attempt, a) == capped(if left > 0.0 then left else 0.0)
      else Delay(p, attempt, a) == Backoff(p, attempt, a.noise)
  {
  }

  /** Which replies are retried, and under which name a final timeout is returned. */
  lemma {:induction false} RetriesInFull(p: Policy, name: string, reply: Reply)
    ensures reply.Ok? ==>
      && (Retryable(p, reply) <==> reply.value.Some? && reply.value.value.status == 429)
      && FinalReply(name, reply) == reply
    ensures reply.Err? ==>
      var e := reply.error;
      var timeout := e.deadline || (e.net && e.netTimeout);
      && (Retryable(p, reply) <==>
            (p.retryOnTimeout && timeout) || (p.retryOn5xx && Contains(e.message, "upstream_5xx")))
      && FinalReply(name, reply)
         == Err(if timeout then e.(message := "provider_timeout" + (" provider=" + name + ": " + e.message)) else e)
    ensures Limit(p) == if p.maxAttempts > 0 then p.maxAttempts else 1
  {
  }

  /** The waits of a trace, in order. */
  function Waits(trace: Trace): seq<real> {
    match trace
    case Start => []
    case Then(before, e) => if e.Waited? then Waits(before) + [e.delay] else Waits(before)
  }

  predicate WaitsAre(c: Call, script: nat -> Attempt, waits: seq<real>) {
    forall k :: 0 <= k < |waits| ==> waits[k] == Delay(c.policy, k, script(k))
  }

  lemma {:induction false} StepWaits(d: Decision, response: bool, cancelled: Failure, k: nat, t: Trace)
    ensures Waits(Step(d, response, cancelled, k, t).trace) == if d.Again? then Waits(t) + [d.delay] else Waits(t)
  {
    if d.Again? {
      var called := Then(t, Called(k));
      var closed := if response then Then(called, Closed(k)) else called;
      assert Waits(closed) == Waits(called) == Waits(t);
      assert Waits(Then(closed, Waited(d.delay))) == Waits(t) + [d.delay];
    }
  }

  lemma {:induction false} GoingWaits(c: Call, script: nat -> Attempt, n: nat)
    requires After(c, script, n).Going?
    ensures |Waits(After(c, script, n).trace)| == n && WaitsAre(c, script, Waits(After(c, script, n).trace))
  {
    if n > 0 {
      var t, d := After(c, script, n - 1).trace, Decide(c, script(n - 1), n - 1);
      GoingWaits(c, script, n - 1);
      StepWaits(d, HasResponse(script(n - 1).reply), c.cancelled, n - 1, t);
      assert d.Again? && d.delay == Delay(c.policy, n - 1, script(n - 1));
    }
  }

  lemma {:induction false} EndWaits(c: Call, script: nat -> Attempt, k: nat, d: Decision)
    requires After(c, script, k).Going? && d == Decide(c, script(k), k)
    ensures var waits := Waits(Step(d, HasResponse(script(k).reply), c.cancelled, k, After(c, script, k).trace).trace);
      WaitsAre(c, script, waits) && |waits| == if d.Again? then k + 1 else k
  {
    GoingWaits(c, script, k);
    StepWaits(d, HasResponse(script(k).reply), c.cancelled, k, After(c, script, k).trace);
    assert d.Again? ==> d.delay == Delay(c.policy, k, script(k));
  }

  /** The loop waits its delay after each attempt but the last, and also after that if the client leaves then. */
  lemma {:induction false} WaitsInFull(c: Call, script: nat -> Attempt)
    ensures var trace := TraceOf(c, script);
      var waits, audit := Waits(trace), AuditOf(script, trace);
      && WaitsAre(c, script, waits)
      && |waits| == if audit.interrupted then |audit.calls| else |audit.calls| - 1
  {
    var k := EndsAt(c, script);
    var d := Decide(c, script(k), k);
    EndWaits(c, script, k, d);
    GoingAudit(c, script, k);
    StepAudit(script, d, c.cancelled, k, After(c, script, k).trace);
  }
}
