/**
 How many upstream calls reach a provider after its breaker has tripped, over every interleaving of
 requests: the breaker's rate bound, carried to the calls of the requests that it admits.
 */
module CallRate {
  import opened Wrappers
  import opened CircuitBreaker
  import opened Interleaving
  import P = ProviderCalls
  import Retry

  // ---------------------------------------------------------------------
  // A log in two parts

  lemma {:induction false} WorldTwoParts<B>(p: Policy, provider: string, w: World, a: seq<Entry<B>>, b: seq<Entry<B>>)
    ensures WorldFrom(p, provider, w, a + b) == WorldFrom(p, provider, WorldFrom(p, provider, w, a), b)
  {
    if b == [] {
      assert a + b == a;
    } else {
      var n := |b| - 1;
      WorldTwoParts(p, provider, w, a, b[..n]);
      assert (a + b)[..|a + b| - 1] == a + b[..n];
    }
  }

  lemma {:induction false} Regroup(a: seq<Step>, b: seq<Step>, c: seq<Step>)
    ensures a + (b + c) == a + b + c
  {
  }

  lemma {:induction false} TwoParts<B>(p: Policy, provider: string, w: World, a: seq<Entry<B>>, b: seq<Entry<B>>)
    ensures var mid := WorldFrom(p, provider, w, a);
      && WorldFrom(p, provider, w, a + b) == WorldFrom(p, provider, mid, b)
      && StepsFrom(p, provider, w, a + b) == StepsFrom(p, provider, w, a) + StepsFrom(p, provider, mid, b)
  {
    WorldTwoParts(p, provider, w, a, b);
    var mid := WorldFrom(p, provider, w, a);
    if b == [] {
      assert a + b == a;
    } else {
      var n := |b| - 1;
      TwoParts(p, provider, w, a, b[..n]);
      assert (a + b)[..|a + b| - 1] == a + b[..n];
      Regroup(StepsFrom(p, provider, w, a), StepsFrom(p, provider, mid, b[..n]),
              StepsFor(provider, WorldFrom(p, provider, mid, b[..n]), b[n]));
    }
  }

  lemma {:induction false} OfTwo<B>(a: seq<Entry<B>>, b: seq<Entry<B>>, i: nat)
    ensures Of(a + b, i) == Of(a, i) + Of(b, i)
  {
    if b == [] {
      assert a + b == a;
    } else {
      var n := |b| - 1;
      OfTwo(a, b[..n], i);
      assert (a + b)[..|a + b| - 1] == a + b[..n];
    }
  }

  lemma {:induction false} PrefixAgrees<B(!new)>(
      p: Policy, provider: string, traces: nat -> seq<P.Event<B>>, log: seq<Entry<B>>, n: nat)
    requires n <= |log| && Interleaves(traces, log) && Agrees(p, provider, log)
    ensures Interleaves(traces, log[..n]) && Agrees(p, provider, log[..n])
    decreases |log|
  {
    if n == |log| {
      assert log[..n] == log;
    } else {
      Before(traces, log);
      PrefixAgrees(p, provider, traces, log[..|log| - 1], n);
      assert log[..|log| - 1][..n] == log[..n];
    }
  }

  /** Good traces, interleaved, with the breaker's verdicts. */
  ghost predicate Setting<B(!new)>(p: Policy, provider: string, traces: nat -> seq<P.Event<B>>, log: seq<Entry<B>>) {
    && Usable(p) && (forall i: nat :: Good(p, traces(i)))
    && Interleaves(traces, log) && Agrees(p, provider, log)
  }

  // ---------------------------------------------------------------------
  // The calls in a log

  predicate IsCall<B>(provider: string, entry: Entry<B>) {
    entry.Act? && entry.event.Did? && entry.event.provider == provider
  }

  /** The upstream calls to the provider that these requests make. */
  function CallsBy<B>(provider: string, log: seq<Entry<B>>, who: set<nat>): nat {
    if log == [] then 0
    else
      var before, last := CallsBy(provider, log[..|log| - 1], who), log[|log| - 1];
      if IsCall(provider, last) && last.request in who then before + 1 else before
  }

  function AllCalls<B>(provider: string, log: seq<Entry<B>>): nat {
    if log == [] then 0
    else AllCalls(provider, log[..|log| - 1]) + (if IsCall(provider, log[|log| - 1]) then 1 else 0)
  }

  lemma {:induction false} CallersSuffice<B>(provider: string, log: seq<Entry<B>>, who: set<nat>)
    requires forall k :: 0 <= k < |log| && IsCall(provider, log[k]) ==> log[k].request in who
    ensures AllCalls(provider, log) == CallsBy(provider, log, who)
  {
    if log != [] {
      assert IsCall(provider, log[|log| - 1]) ==> log[|log| - 1].request in who;
      CallersSuffice(provider, log[..|log| - 1], who);
    }
  }

  lemma {:induction false} CallsSplit<B>(provider: string, log: seq<Entry<B>>, who: set<nat>, i: nat)
    requires i in who
    ensures CallsBy(provider, log, who) == CallsBy(provider, log, who - {i}) + CallsBy(provider, log, {i})
  {
    if log != [] { CallsSplit(provider, log[..|log| - 1], who, i); }
  }

  lemma {:induction false} NobodyCalls<B>(provider: string, log: seq<Entry<B>>)
    ensures CallsBy(provider, log, {}) == 0
  {
    if log != [] { NobodyCalls(provider, log[..|log| - 1]); }
  }

  lemma {:induction false} CallsOfOne<B>(provider: string, log: seq<Entry<B>>, i: nat)
    ensures CallsBy(provider, log, {i}) == P.Count(P.Call, provider, Of(log, i))
  {
    if log != [] {
      var before, last := log[..|log| - 1], log[|log| - 1];
      CallsOfOne(provider, before, i);
      if last.Act? && last.request == i { OneMoreEvent(Of(before, i), last.event, provider); }
    }
  }

  lemma {:induction false} OneMoreEvent<B>(done: seq<P.Event<B>>, e: P.Event<B>, provider: string)
    ensures P.Count(P.Call, provider, done + [e])
         == P.Count(P.Call, provider, done) + (if e.Did? && e.provider == provider then 1 else 0)
  {
    assert (done + [e])[..|done|] == done;
  }

  /** What a request calls in part of a log is no more than it calls in its whole trace. */
  lemma {:induction false} OneRequest<B(!new)>(
      provider: string, traces: nat -> seq<P.Event<B>>, before: seq<Entry<B>>, log: seq<Entry<B>>, i: nat, limit: nat)
    requires Interleaves(traces, before + log) && P.Count(P.Call, provider, traces(i)) <= limit
    ensures CallsBy(provider, log, {i}) <= limit
  {
    var done, whole := Of(before + log, i), traces(i);
    CallsOfOne(provider, log, i);
    OfTwo(before, log, i);
    P.CountOn(P.Call, provider, Of(before, i), Of(log, i));
    assert done <= whole;
    P.CountOn(P.Call, provider, done, whole[|done|..]);
    assert done + whole[|done|..] == whole;
  }

  lemma {:induction false} ManyRequests<B(!new)>(
      provider: string, traces: nat -> seq<P.Event<B>>, before: seq<Entry<B>>, log: seq<Entry<B>>, who: set<nat>,
      limit: nat)
    requires Interleaves(traces, before + log) && forall i: nat :: P.Count(P.Call, provider, traces(i)) <= limit
    ensures CallsBy(provider, log, who) <= |who| * limit
  {
    if who == {} {
      NobodyCalls(provider, log);
    } else {
      var i :| i in who;
      ManyRequests(provider, traces, before, log, who - {i}, limit);
      CallsSplit(provider, log, who, i);
      OneRequest(provider, traces, before, log, i, limit);
      Distribute(|who| - 1, limit);
    }
  }

  lemma {:induction false} Distribute(n: nat, m: nat)
    ensures (n + 1) * m == n * m + m
  {
  }

  // ---------------------------------------------------------------------
  // The requests that are admitted

  /** The requests that the provider's breaker lets in. */
  function AdmittedIn<B>(provider: string, log: seq<Entry<B>>): set<nat> {
    if log == [] then {}
    else
      var before, last := AdmittedIn(provider, log[..|log| - 1]), log[|log| - 1];
      if last.Act? && last.event.Asked? && last.event.provider == provider && last.event.allowed
      then before + {last.request} else before
  }

  /** Who is on a call was so at the start, or has been admitted since. */
  lemma {:induction false} OpenAreAdmitted<B>(p: Policy, provider: string, before: seq<Entry<B>>, log: seq<Entry<B>>)
    requires Agrees(p, provider, before + log)
    ensures var w := WorldAfter(p, provider, before);
      WorldFrom(p, provider, w, log).open.Keys <= w.open.Keys + AdmittedIn(provider, log)
  {
    if log != [] {
      var init := log[..|log| - 1];
      assert (before + log)[..|before + log| - 1] == before + init;
      OpenAreAdmitted(p, provider, before, init);
      TwoParts(p, provider, START, before, init);
    }
  }

  /** Wherever in the second part, the breaker is where its steps have brought it. */
  ghost predicate Tracks<B(!new)>(p: Policy, provider: string, w: World, log: seq<Entry<B>>) {
    forall n :: 0 <= n <= |log| ==>
      After(p, w.sys, StepsFrom(p, provider, w, log[..n])) == WorldFrom(p, provider, w, log[..n]).sys
  }

  lemma {:induction false} TracksBefore<B(!new)>(p: Policy, provider: string, w: World, log: seq<Entry<B>>)
    requires log != [] && Tracks(p, provider, w, log)
    ensures Tracks(p, provider, w, log[..|log| - 1])
    ensures var init := log[..|log| - 1];
      After(p, w.sys, StepsFrom(p, provider, w, init)) == WorldFrom(p, provider, w, init).sys
  {
    var init := log[..|log| - 1];
    forall n | 0 <= n <= |init|
      ensures After(p, w.sys, StepsFrom(p, provider, w, init[..n])) == WorldFrom(p, provider, w, init[..n]).sys
    {
      assert init[..n] == log[..n];
    }
    assert init[..|init|] == init;
  }

  /** One entry more: the breaker admits when the log says so. */
  lemma {:induction false} OneAdmission<B>(p: Policy, provider: string, w: World, init: seq<Entry<B>>, last: Entry<B>)
    requires After(p, w.sys, StepsFrom(p, provider, w, init)) == WorldFrom(p, provider, w, init).sys
    requires last.Act? && last.event.Asked? && last.event.provider == provider ==>
      last.event.allowed == Admits(p, WorldFrom(p, provider, w, init).sys)
    requires |AdmittedIn(provider, init)| <= |AdmitTimes(p, w.sys, StepsFrom(p, provider, w, init))|
    ensures |AdmittedIn(provider, init + [last])| <= |AdmitTimes(p, w.sys, StepsFrom(p, provider, w, init + [last]))|
  {
    var log := init + [last];
    assert log[..|log| - 1] == init;
    AdmitTimesOn(p, w.sys, StepsFrom(p, provider, w, init), StepsFor(provider, WorldFrom(p, provider, w, init), last));
  }

  /** The last verdict is that of the breaker at that point. */
  lemma {:induction false} LastVerdict<B>(p: Policy, provider: string, before: seq<Entry<B>>, init: seq<Entry<B>>,
      last: Entry<B>)
    requires Agrees(p, provider, before + (init + [last]))
    ensures Agrees(p, provider, before + init)
    ensures last.Act? && last.event.Asked? && last.event.provider == provider ==>
      last.event.allowed == Admits(p, WorldFrom(p, provider, WorldAfter(p, provider, before), init).sys)
  {
    var all := before + (init + [last]);
    assert all[..|all| - 1] == before + init && all[|all| - 1] == last;
    TwoParts(p, provider, START, before, init);
  }

  /** The breaker's admissions are those of the log. */
  lemma {:induction false} AdmissionsAreCounted<B(!new)>(
      p: Policy, provider: string, before: seq<Entry<B>>, log: seq<Entry<B>>)
    requires Agrees(p, provider, before + log) && Tracks(p, provider, WorldAfter(p, provider, before), log)
    ensures var w := WorldAfter(p, provider, before);
      |AdmittedIn(provider, log)| <= |AdmitTimes(p, w.sys, StepsFrom(p, provider, w, log))|
  {
    if log != [] {
      var init, last := log[..|log| - 1], log[|log| - 1];
      var w := WorldAfter(p, provider, before);
      assert init + [last] == log;
      LastVerdict(p, provider, before, init, last);
      TracksBefore(p, provider, w, log);
      AdmissionsAreCounted(p, provider, before, init);
      OneAdmission(p, provider, w, init, last);
    }
  }

  lemma {:induction false} AdmitTimesOn(p: Policy, s: System, steps: seq<Step>, more: seq<Step>)
    requires |more| <= 1
    ensures var times := AdmitTimes(p, s, steps + more);
      |times| == |AdmitTimes(p, s, steps)|
               + (if more != [] && more[0].Ask? && Admits(p, After(p, s, steps)) then 1 else 0)
  {
    if more == [] {
      assert steps + more == steps;
    } else {
      assert (steps + more)[..|steps|] == steps;
    }
  }

  // ---------------------------------------------------------------------
  // After a trip

  /** No request records a success with the provider's breaker. */
  predicate NoSuccessIn<B>(provider: string, log: seq<Entry<B>>) {
    forall k :: 0 <= k < |log| && log[k].Act? && log[k].event.Recorded? && log[k].event.provider == provider ==>
      log[k].event.failure.Some?
  }

  lemma {:induction false} StepsHaveNoSuccess<B>(p: Policy, provider: string, w: World, log: seq<Entry<B>>)
    requires NoSuccessIn(provider, log)
    ensures NoSuccess(StepsFrom(p, provider, w, log))
  {
    if log != [] {
      assert forall k :: 0 <= k < |log| - 1 ==> log[..|log| - 1][k] == log[k];
      StepsHaveNoSuccess(p, provider, w, log[..|log| - 1]);
    }
  }

  /** The second part of an interleaving drives the breaker from where the first one left it. */
  lemma {:induction false} SecondPart<B(!new)>(
      p: Policy, provider: string, traces: nat -> seq<P.Event<B>>, before: seq<Entry<B>>, log: seq<Entry<B>>)
    requires Setting(p, provider, traces, before + log)
    ensures var w := WorldAfter(p, provider, before);
      var steps0, steps := StepsFrom(p, provider, START, before), StepsFrom(p, provider, w, log);
      && Legal(p, INITIAL, steps0) && After(p, INITIAL, steps0) == w.sys
      && Legal(p, w.sys, steps) && After(p, w.sys, steps) == WorldFrom(p, provider, w, log).sys
  {
    var w := WorldAfter(p, provider, before);
    assert (before + log)[..|before|] == before;
    PrefixAgrees(p, provider, traces, before + log, |before|);
    IsLegal(p, provider, traces, before);
    IsLegal(p, provider, traces, before + log);
    TwoParts(p, provider, START, before, log);
    Continues(p, INITIAL, StepsFrom(p, provider, START, before), StepsFrom(p, provider, w, log));
  }

  /** A request that calls the provider is on a call of its breaker. */
  lemma {:induction false} CallersAreAdmitted<B(!new)>(
      p: Policy, provider: string, traces: nat -> seq<P.Event<B>>, before: seq<Entry<B>>, log: seq<Entry<B>>, k: nat)
    requires Setting(p, provider, traces, before + log)
    requires k < |log| && IsCall(provider, log[k])
    ensures log[k].request in WorldAfter(p, provider, before).open.Keys + AdmittedIn(provider, log[..k])
  {
    var init, i, e := before + log[..k], log[k].request, log[k].event;
    var all := before + log;
    assert all[..|init|] == init && all[..|init| + 1] == init + [Act(i, e)];
    PrefixAgrees(p, provider, traces, all, |init|);
    PrefixAgrees(p, provider, traces, all, |init| + 1);
    IsLegal(p, provider, traces, init);
    ActInRules(p, traces, init, i, e);
    assert IsOn(provider, PhaseOf(init, i));
    OpenAreAdmitted(p, provider, before, log[..k]);
    TwoParts(p, provider, START, before, log[..k]);
  }

  lemma {:induction false} AdmittedGrows<B>(provider: string, log: seq<Entry<B>>, k: nat)
    requires k <= |log|
    ensures AdmittedIn(provider, log[..k]) <= AdmittedIn(provider, log)
    decreases |log|
  {
    if k == |log| {
      assert log[..k] == log;
    } else {
      AdmittedGrows(provider, log[..|log| - 1], k);
      assert log[..|log| - 1][..k] == log[..k];
    }
  }

  lemma {:induction false} SecondPartTracks<B(!new)>(
      p: Policy, provider: string, traces: nat -> seq<P.Event<B>>, before: seq<Entry<B>>, log: seq<Entry<B>>)
    requires Setting(p, provider, traces, before + log)
    ensures Tracks(p, provider, WorldAfter(p, provider, before), log)
  {
    var w := WorldAfter(p, provider, before);
    forall n | 0 <= n <= |log|
      ensures After(p, w.sys, StepsFrom(p, provider, w, log[..n])) == WorldFrom(p, provider, w, log[..n]).sys
    {
      assert (before + log)[..|before| + n] == before + log[..n];
      PrefixAgrees(p, provider, traces, before + log, |before| + n);
      SecondPart(p, provider, traces, before, log[..n]);
    }
  }

  /** How many whole cooldowns fit into a time: floor(t / c). */
  function Periods(t: int, c: int): nat
    requires c > 0
    decreases t
  {
    if t < c then 0 else 1 + Periods(t - c, c)
  }

  /** Periods(t, c) cooldowns fit, and no more. */
  lemma {:induction false} PeriodsFit(t: int, c: int)
    requires c > 0 && t >= 0
    ensures Periods(t, c) * c <= t < (Periods(t, c) + 1) * c
    decreases t
  {
    if t >= c {
      PeriodsFit(t - c, c);
      Distribute(Periods(t - c, c), c);
      Distribute(Periods(t, c), c);
    }
  }

  lemma {:induction false} AtMostPeriods(n: nat, t: int, c: int)
    requires c > 0 && t >= 0 && n * c <= t
    ensures n <= Periods(t, c)
  {
    PeriodsFit(t, c);
    CancelFactor(n, Periods(t, c) + 1, c);
  }

  lemma {:induction false} FewAdmissions(p: Policy, steps0: seq<Step>, s: System, steps: seq<Step>, end: System, n: nat)
    requires Usable(p) && Legal(p, INITIAL, steps0) && After(p, INITIAL, steps0) == s && s.breaker.state.Open?
    requires Legal(p, s, steps) && After(p, s, steps) == end && NoSuccess(steps)
    requires n <= |AdmitTimes(p, s, steps)|
    ensures n <= Periods(end.clock - s.breaker.tripTime, p.cooldown)
  {
    var t := end.clock - s.breaker.tripTime;
    AlwaysConsistent(p, INITIAL, steps0);
    ClockGoesOn(p, s, steps);
    AdmissionsAreSpaced(p, s, steps);
    SpacedCount(s.breaker.tripTime, p.cooldown, AdmitTimes(p, s, steps));
    Ordered(n, |AdmitTimes(p, s, steps)|, p.cooldown);
    AtMostPeriods(n, t, p.cooldown);
  }

  lemma {:induction false} ClockGoesOn(p: Policy, s: System, steps: seq<Step>)
    ensures After(p, s, steps).clock >= s.clock
  {
    if steps != [] { ClockGoesOn(p, s, steps[..|steps| - 1]); }
  }

  /** At most floor(T/C) requests are admitted in the T after a trip, if none succeeds. */
  lemma {:induction false} AdmittedAfterTrip<B(!new)>(
      p: Policy, provider: string, traces: nat -> seq<P.Event<B>>, before: seq<Entry<B>>, log: seq<Entry<B>>)
    requires Setting(p, provider, traces, before + log)
    requires WorldAfter(p, provider, before).sys.breaker.state.Open? && NoSuccessIn(provider, log)
    ensures |AdmittedIn(provider, log)| <= Periods(Elapsed(p, provider, before, log), p.cooldown)
  {
    var w, end := WorldAfter(p, provider, before), WorldFrom(p, provider, WorldAfter(p, provider, before), log);
    var steps0, steps := StepsFrom(p, provider, START, before), StepsFrom(p, provider, w, log);
    SecondPartTracks(p, provider, traces, before, log);
    AdmissionsAreCounted(p, provider, before, log);
    StepsHaveNoSuccess(p, provider, w, log);
    SecondPart(p, provider, traces, before, log);
    FewAdmissions(p, steps0, w.sys, steps, end.sys, |AdmittedIn(provider, log)|);
  }

  /** Whoever calls the provider was on a call at the trip or has been admitted since. */
  lemma {:induction false} AllCallersAreAdmitted<B(!new)>(
      p: Policy, provider: string, traces: nat -> seq<P.Event<B>>, before: seq<Entry<B>>, log: seq<Entry<B>>)
    requires Setting(p, provider, traces, before + log)
    ensures AllCalls(provider, log)
         == CallsBy(provider, log, WorldAfter(p, provider, before).open.Keys + AdmittedIn(provider, log))
  {
    var who := WorldAfter(p, provider, before).open.Keys + AdmittedIn(provider, log);
    forall k | 0 <= k < |log| && IsCall(provider, log[k])
      ensures log[k].request in who
    {
      CallersAreAdmitted(p, provider, traces, before, log, k);
      AdmittedGrows(provider, log, k);
    }
    CallersSuffice(provider, log, who);
  }

  /** The time from the trip to the end of the log. */
  function Elapsed<B>(p: Policy, provider: string, before: seq<Entry<B>>, log: seq<Entry<B>>): int {
    WorldFrom(p, provider, WorldAfter(p, provider, before), log).sys.clock
    - WorldAfter(p, provider, before).sys.breaker.tripTime
  }

  lemma {:induction false} CallsOfGoodTraces<B(!new)>(
      p: Policy, provider: string, traces: nat -> seq<P.Event<B>>, before: seq<Entry<B>>, log: seq<Entry<B>>,
      limit: nat, most: int)
    requires Setting(p, provider, traces, before + log) && |AdmittedIn(provider, log)| <= most
    requires forall i: nat :: P.Count(P.Call, provider, traces(i)) <= limit
    ensures CallsBy(provider, log, AdmittedIn(provider, log)) <= most * limit
    ensures AllCalls(provider, log) <= (|WorldAfter(p, provider, before).open| + most) * limit
  {
    var known, admitted := WorldAfter(p, provider, before).open.Keys, AdmittedIn(provider, log);
    ManyRequests(provider, traces, before, log, admitted, limit);
    AllCallersAreAdmitted(p, provider, traces, before, log);
    ManyRequests(provider, traces, before, log, known + admitted, limit);
    UnionSize(known, admitted);
    Ordered(|admitted|, most, limit);
    Ordered(|known + admitted|, |known| + most, limit);
  }

  /**
   The rate at which an unhealthy provider is called. In every interleaving without a success, the requests
   admitted in the T after a trip make at most floor(T/C) * max(1, attempts) upstream calls to it; beyond
   these only the requests that were already on a call at the trip can call it, each within its attempts.
   */
  lemma {:induction false} CallsAfterTrip<B(!new)>(
      p: Policy, provider: string, g: P.Gateway<B>, requests: nat -> P.Request<B>, before: seq<Entry<B>>,
      log: seq<Entry<B>>, limit: nat, most: nat)
    requires g.breakers && Usable(p) && (forall c :: c in DEFAULT_POLICY.tripOn ==> c in p.tripOn)
    requires Interleaves(TracesOf(g, requests), before + log) && Agrees(p, provider, before + log)
    requires WorldAfter(p, provider, before).sys.breaker.state.Open? && NoSuccessIn(provider, log)
    requires limit == Retry.Limit(P.PolicyFor(g, provider))
    requires most == Periods(Elapsed(p, provider, before, log), p.cooldown)
    ensures CallsBy(provider, log, AdmittedIn(provider, log)) <= most * limit
    ensures AllCalls(provider, log) <= (|WorldAfter(p, provider, before).open| + most) * limit
  {
    var traces := TracesOf(g, requests);
    GatewayTraces(p, provider, g, requests);
    AdmittedAfterTrip(p, provider, traces, before, log);
    CallsOfGoodTraces(p, provider, traces, before, log, limit, most);
  }

  lemma {:induction false} GatewayTraces<B(!new)>(
      p: Policy, provider: string, g: P.Gateway<B>, requests: nat -> P.Request<B>)
    requires g.breakers && (forall c :: c in DEFAULT_POLICY.tripOn ==> c in p.tripOn)
    ensures forall i: nat :: Good(p, TracesOf(g, requests)(i))
    ensures forall i: nat ::
      P.Count(P.Call, provider, TracesOf(g, requests)(i)) <= Retry.Limit(P.PolicyFor(g, provider))
  {
    forall i: nat
      ensures Good(p, TracesOf(g, requests)(i))
      ensures P.Count(P.Call, provider, TracesOf(g, requests)(i)) <= Retry.Limit(P.PolicyFor(g, provider))
    {
      RequestsAreGood(p, g, requests(i));
      P.RequestCounts(g, requests(i), provider);
    }
  }

  lemma {:induction false} Ordered(a: nat, b: int, m: nat)
    requires a <= b
    ensures a * m <= b * m
  {
  }

  lemma {:induction false} UnionSize<T>(a: set<T>, b: set<T>)
    ensures |a + b| <= |a| + |b|
  {
  }
}
