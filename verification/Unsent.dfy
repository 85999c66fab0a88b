/**
 What requests that send nothing do to a provider's breaker (internal/gateway/provider.go with the
 adapters of internal/providers): they can trip it, and they can close it.
 */
module Unsent {
  import opened Wrappers
  import opened CircuitBreaker
  import opened Interleaving
  import P = ProviderCalls

  /** No entry of the log is a call that was sent. */
  predicate NothingSent<B>(log: seq<Entry<B>>) {
    forall k :: 0 <= k < |log| && log[k].Act? && log[k].event.Did? ==> !log[k].event.sent
  }

  /** An admitted call that the adapter answers itself, as the provider's breaker sees it. */
  function OwnAnswer<B>(provider: string, body: B, noted: Category, failure: Option<Category>): seq<P.Event<B>> {
    [P.Asked(provider, true), P.Did(provider, body, false), P.Noted(provider, Some(noted)),
     P.Recorded(provider, failure)]
  }

  /** The log goes on with all of a trace of request i, and nothing else in between. */
  function Then<B>(log: seq<Entry<B>>, i: nat, trace: seq<P.Event<B>>): seq<Entry<B>> {
    if trace == [] then log
    else Then(log, i, trace[..|trace| - 1]) + [Act(i, trace[|trace| - 1])]
  }

  lemma {:induction false} ThenOf<B>(log: seq<Entry<B>>, i: nat, trace: seq<P.Event<B>>, j: nat)
    ensures Of(Then(log, i, trace), j) == if j == i then Of(log, i) + trace else Of(log, j)
  {
    if trace == [] {
      assert Of(log, i) + [] == Of(log, i);
    } else {
      var n := |trace| - 1;
      ThenOf(log, i, trace[..n], j);
      OneAct(Then(log, i, trace[..n]), i, trace[n], j);
      assert trace == trace[..n] + [trace[n]];
    }
  }

  lemma {:induction false} OneEntry<B>(p: Policy, provider: string, log: seq<Entry<B>>, entry: Entry<B>)
    ensures WorldAfter(p, provider, log + [entry]) == Advance(p, provider, WorldAfter(p, provider, log), entry)
    ensures Agrees(p, provider, log + [entry])
       <==> && Agrees(p, provider, log)
            && (entry.Act? && entry.event.Asked? && entry.event.provider == provider
                ==> entry.event.allowed == Admits(p, WorldAfter(p, provider, log).sys))
  {
    assert (log + [entry])[..|log|] == log;
  }

  /** The breaker after an admission and a record of the same call. */
  function Judged(p: Policy, b: Breaker, now: int, failure: Option<Category>): Breaker {
    var asked := Allow(p, b, now).breaker;
    if failure.None? then RecordSuccess(p, asked) else RecordFailure(p, asked, failure.value, now)
  }

  lemma {:induction false} FourEvents<B>(log: seq<Entry<B>>, i: nat, trace: seq<P.Event<B>>)
    requires |trace| == 4
    ensures Then(log, i, trace)
         == log + [Act(i, trace[0])] + [Act(i, trace[1])] + [Act(i, trace[2])] + [Act(i, trace[3])]
  {
    assert trace[..3][..2] == trace[..2] && trace[..2][..1] == trace[..1] && trace[..1][..0] == [];
    assert Then(log, i, trace[..1]) == log + [Act(i, trace[0])];
    assert Then(log, i, trace[..2]) == Then(log, i, trace[..1]) + [Act(i, trace[1])];
    assert Then(log, i, trace[..3]) == Then(log, i, trace[..2]) + [Act(i, trace[2])];
  }

  /** A whole call that the adapter answers itself: the breaker judges it, and nothing is sent. */
  lemma {:induction false} OwnAnswerAlone<B>(
      p: Policy, provider: string, log: seq<Entry<B>>, i: nat, body: B, noted: Category, failure: Option<Category>)
    requires Agrees(p, provider, log) && Admits(p, WorldAfter(p, provider, log).sys)
    requires i !in WorldAfter(p, provider, log).open
    ensures var w := WorldAfter(p, provider, log);
      var w' := WorldAfter(p, provider, Then(log, i, OwnAnswer(provider, body, noted, failure)));
      && Agrees(p, provider, Then(log, i, OwnAnswer(provider, body, noted, failure)))
      && w'.sys.breaker == Judged(p, w.sys.breaker, w.sys.clock, failure)
      && w'.sys.clock == w.sys.clock && w'.open == w.open
    ensures NothingSent(log) ==> NothingSent(Then(log, i, OwnAnswer(provider, body, noted, failure)))
  {
    var trace := OwnAnswer(provider, body, noted, failure);
    FourEvents(log, i, trace);
    var asked := log + [Act(i, trace[0])];
    var did := asked + [Act(i, trace[1])];
    var recorded := did + [Act(i, trace[2])];
    OneEntry(p, provider, log, Act(i, trace[0]));
    OneEntry(p, provider, asked, Act(i, trace[1]));
    OneEntry(p, provider, did, Act(i, trace[2]));
    OneEntry(p, provider, recorded, Act(i, trace[3]));
  }

  // ---------------------------------------------------------------------
  // Tripping a breaker

  /** Requests 0 to n - 1, one after the other. */
  function OneByOne<B>(traces: nat -> seq<P.Event<B>>, n: nat): seq<Entry<B>> {
    if n == 0 then [] else Then(OneByOne(traces, n - 1), n - 1, traces(n - 1))
  }

  lemma {:induction false} OneByOneOf<B>(traces: nat -> seq<P.Event<B>>, n: nat, i: nat)
    ensures Of(OneByOne(traces, n), i) == if i < n then traces(i) else []
  {
    if n > 0 {
      OneByOneOf(traces, n - 1, i);
      ThenOf(OneByOne(traces, n - 1), n - 1, traces(n - 1), i);
    }
  }

  /** Request i asks for a path that the provider's adapter does not serve. It is tried once, and not elsewhere. */
  predicate AsksUnserved<B>(g: P.Gateway<B>, r: P.Request<B>, provider: string) {
    && r.provider == provider && r.primary.allowed && !r.primary.exchanges(0).cancelledBefore
    && provider in g.adapters && !P.Serves(g.adapters[provider], g.form(r.body).path)
    && P.NoRetryOn5xx(g, provider)
  }

  /** What such a request does to its provider. */
  function UnservedTrace<B>(provider: string, body: B): seq<P.Event<B>> {
    OwnAnswer(provider, body, UpstreamFailure, Some(P.CategoryOf(P.Upstream5xx(501, provider))))
  }

  function UnservedTraces<B>(provider: string, requests: nat -> P.Request<B>): nat -> seq<P.Event<B>> {
    (i: nat) => UnservedTrace(provider, requests(i).body)
  }

  lemma {:induction false} Failures<B>(p: Policy, provider: string, requests: nat -> P.Request<B>, n: nat)
    requires Usable(p) && P.CategoryOf(P.Upstream5xx(501, provider)) in p.tripOn && n <= p.failureThreshold
    ensures var log := OneByOne(UnservedTraces(provider, requests), n);
      && Agrees(p, provider, log) && NothingSent(log)
      && var w := WorldAfter(p, provider, log);
        && w.open == map[] && w.sys.clock == 0
        && w.sys.breaker == Breaker(if n < p.failureThreshold then Closed else Open, n, 0, false)
  {
    if n > 0 {
      Failures(p, provider, requests, n - 1);
      OwnAnswerAlone(p, provider, OneByOne(UnservedTraces(provider, requests), n - 1), n - 1, requests(n - 1).body,
                     UpstreamFailure, Some(P.CategoryOf(P.Upstream5xx(501, provider))));
    }
  }

  lemma {:induction false} UnservedFirst<B>(g: P.Gateway<B>, r: P.Request<B>, provider: string)
    requires g.breakers && AsksUnserved(g, r, provider)
    ensures UnservedTrace(provider, r.body) <= P.FinalTrace(g, r)
  {
    P.UnservedPathCountsAgainstProvider(g, provider, r.body, r.primary);
    P.FinalStarts(g, r);
  }

  /**
   As many requests as the breaker's threshold for a path that the provider's adapter does not serve trip
   the breaker of a healthy provider, and nothing is ever sent to it.
   */
  lemma {:induction false} UnservedPathTripsBreaker<B(!new)>(
      p: Policy, provider: string, g: P.Gateway<B>, requests: nat -> P.Request<B>) returns (log: seq<Entry<B>>)
    requires g.breakers && Usable(p) && (forall c :: c in DEFAULT_POLICY.tripOn ==> c in p.tripOn)
    requires forall i: nat :: AsksUnserved(g, requests(i), provider)
    ensures Interleaves(TracesOf(g, requests), log) && Agrees(p, provider, log) && NothingSent(log)
    ensures WorldAfter(p, provider, log).sys.breaker.state.Open?
  {
    var n := p.failureThreshold;
    log := OneByOne(UnservedTraces(provider, requests), n);
    P.CategoryCounts(P.Upstream5xx(501, provider));
    Failures(p, provider, requests, n);
    forall i: nat
      ensures Of(log, i) <= TracesOf(g, requests)(i)
    {
      OneByOneOf(UnservedTraces(provider, requests), n, i);
      UnservedFirst(g, requests(i), provider);
    }
  }

  // ---------------------------------------------------------------------
  // Closing one

  /**
   A request that the adapter refuses with its own 400 closes the breaker that admits it, half-open or not,
   and nothing is sent.
   */
  lemma {:induction false} RefusalClosesBreaker<B(!new)>(
      p: Policy, provider: string, g: P.Gateway<B>, requests: nat -> P.Request<B>, before: seq<Entry<B>>, i: nat)
    returns (more: seq<P.Event<B>>)
    requires g.breakers && Usable(p) && (forall c :: c in DEFAULT_POLICY.tripOn ==> c in p.tripOn)
    requires Interleaves(TracesOf(g, requests), before) && Agrees(p, provider, before)
    requires Admits(p, WorldAfter(p, provider, before).sys) && Of(before, i) == []
    requires var r := requests(i);
      r.provider == provider && r.primary.allowed && P.Refused(g, provider, r.body, r.primary)
    ensures P.Count(P.Contact, provider, more) == 0
    ensures var log := Then(before, i, more);
      && Interleaves(TracesOf(g, requests), log) && Agrees(p, provider, log)
      && WorldAfter(p, provider, log).sys.breaker.state.Closed?
  {
    var r := requests(i);
    more := OwnAnswer(provider, r.body, InvalidRequest, None);
    GatewayIsLegal(p, provider, g, requests, before);
    assert PhaseOf(before, i) == P.Idle;
    OwnAnswerAlone(p, provider, before, i, r.body, InvalidRequest, None);
    P.RefusalCreditsProvider(g, provider, r.body, r.primary);
    P.FinalStarts(g, r);
    P.BlamedForNothingExactly(g, provider, r.body, r.primary);
    forall j: nat
      ensures Of(Then(before, i, more), j) <= TracesOf(g, requests)(j)
    {
      ThenOf(before, i, more, j);
      assert Of(before, j) <= TracesOf(g, requests)(j);
    }
  }
}
