/**
 Requests of internal/gateway/provider.go sharing the breaker of one provider: any number of them, with
 their steps interleaved in any order under a clock that never goes back.
 */
module Interleaving {
  import opened Wrappers
  import opened CircuitBreaker
  import P = ProviderCalls

  /** One entry of the global log: time passes, or request i does the next thing of its trace. */
  datatype Entry<B> = Pass(elapsed: nat) | Act(request: nat, event: P.Event<B>)

  /** What request i has done so far. */
  function Of<B>(log: seq<Entry<B>>, i: nat): seq<P.Event<B>> {
    if log == [] then []
    else
      var before, last := Of(log[..|log| - 1], i), log[|log| - 1];
      if last.Act? && last.request == i then before + [last.event] else before
  }

  /** The provider's breaker with its calls, and the number of the call that each admitted request is on. */
  datatype World = World(sys: System, open: map<nat, nat>)

  function Advance<B>(p: Policy, provider: string, w: World, entry: Entry<B>): World {
    match entry
    case Pass(d) => w.(sys := Next(p, w.sys, Tick(d)))
    case Act(i, Asked(q, _)) =>
      if q != provider then w
      else World(Next(p, w.sys, Ask), if Admits(p, w.sys) then w.open[i := w.sys.next] else w.open)
    case Act(i, Recorded(q, failure)) =>
      if q != provider || i !in w.open then w
      else World(Next(p, w.sys, StepFor(w.open[i], failure)), w.open - {i})
    case _ => w
  }

  function StepFor(call: nat, failure: Option<Category>): Step {
    match failure
    case None => Succeed(call)
    case Some(category) => Fail(call, category)
  }

  function WorldFrom<B>(p: Policy, provider: string, w: World, log: seq<Entry<B>>): World {
    if log == [] then w
    else Advance(p, provider, WorldFrom(p, provider, w, log[..|log| - 1]), log[|log| - 1])
  }

  const START := World(INITIAL, map[])

  function WorldAfter<B>(p: Policy, provider: string, log: seq<Entry<B>>): World {
    WorldFrom(p, provider, START, log)
  }

  /** The breaker's steps in an entry, and in a whole log. */
  function StepsFor<B>(provider: string, w: World, entry: Entry<B>): seq<Step> {
    match entry
    case Pass(d) => [Tick(d)]
    case Act(_, Asked(q, _)) => if q == provider then [Ask] else []
    case Act(i, Recorded(q, failure)) => if q == provider && i in w.open then [StepFor(w.open[i], failure)] else []
    case _ => []
  }

  function StepsFrom<B>(p: Policy, provider: string, w: World, log: seq<Entry<B>>): seq<Step> {
    if log == [] then []
    else
      var before := log[..|log| - 1];
      StepsFrom(p, provider, w, before) + StepsFor(provider, WorldFrom(p, provider, w, before), log[|log| - 1])
  }

  /** Every request runs a prefix of its trace. */
  ghost predicate Interleaves<B(!new)>(traces: nat -> seq<P.Event<B>>, log: seq<Entry<B>>) {
    forall i: nat :: Of(log, i) <= traces(i)
  }

  /** `Asked` reports what the breaker said. */
  predicate Agrees<B>(p: Policy, provider: string, log: seq<Entry<B>>) {
    log == [] ||
    var before, last := log[..|log| - 1], log[|log| - 1];
    && Agrees(p, provider, before)
    && (last.Act? && last.event.Asked? && last.event.provider == provider
        ==> last.event.allowed == Admits(p, WorldAfter(p, provider, before).sys))
  }

  /** A whole trace that obeys the accounting rules, and whose recorded failures all count. */
  ghost predicate Good<B(!new)>(p: Policy, trace: seq<P.Event<B>>) {
    && P.Run(true, P.Idle, trace) == P.Idle
    && forall e :: e in trace && e.Recorded? && e.failure.Some? ==> e.failure.value in p.tripOn
  }

  lemma {:induction false} RequestsAreGood<B(!new)>(p: Policy, g: P.Gateway<B>, r: P.Request<B>)
    requires g.breakers && forall c :: c in DEFAULT_POLICY.tripOn ==> c in p.tripOn
    ensures Good(p, P.FinalTrace(g, r))
  {
    var trace := P.FinalTrace(g, r);
    P.RequestObeysRules(g, r);
    forall e | e in trace && e.Recorded? && e.failure.Some?
      ensures e.failure.value in p.tripOn
    {
      P.RecordedFailuresCount(g, r, e);
    }
  }

  /** Where request i stands. */
  function PhaseOf<B>(log: seq<Entry<B>>, i: nat): P.Phase {
    P.Run(true, P.Idle, Of(log, i))
  }

  /** Admitted by the provider's breaker, with the outcome not recorded yet. */
  predicate IsOn(provider: string, phase: P.Phase) {
    phase == P.In(provider) || phase == P.Busy(provider)
  }

  lemma {:induction false} PrefixNotBad<B>(trace: seq<P.Event<B>>, n: nat)
    requires n <= |trace| && !P.Run(true, P.Idle, trace).Bad?
    ensures !P.Run(true, P.Idle, trace[..n]).Bad?
    decreases |trace|
  {
    if n == |trace| {
      assert trace[..n] == trace;
    } else {
      PrefixNotBad(trace[..|trace| - 1], n);
      assert trace[..|trace| - 1][..n] == trace[..n];
    }
  }

  lemma {:induction false} Before<B(!new)>(traces: nat -> seq<P.Event<B>>, log: seq<Entry<B>>)
    requires log != [] && Interleaves(traces, log)
    ensures Interleaves(traces, log[..|log| - 1])
  {
    forall i: nat
      ensures Of(log[..|log| - 1], i) <= traces(i)
    {
      assert Of(log, i) <= traces(i);
    }
  }

  /** What request i's next event does to its phase; the other requests stay where they are. */
  lemma {:induction false} OneAct<B>(before: seq<Entry<B>>, i: nat, e: P.Event<B>, j: nat)
    ensures Of(before + [Act(i, e)], j) == if j == i then Of(before, i) + [e] else Of(before, j)
    ensures PhaseOf(before + [Act(i, e)], j)
         == if j == i then P.Follow(true, PhaseOf(before, i), e) else PhaseOf(before, j)
  {
    var log := before + [Act(i, e)];
    assert log[..|log| - 1] == before;
    var done := Of(before, i) + [e];
    assert done[..|done| - 1] == Of(before, i);
  }

  lemma {:induction false} ActInRules<B(!new)>(p: Policy, traces: nat -> seq<P.Event<B>>, before: seq<Entry<B>>,
      i: nat, e: P.Event<B>)
    requires Interleaves(traces, before + [Act(i, e)]) && Good(p, traces(i))
    ensures !P.Follow(true, PhaseOf(before, i), e).Bad?
    ensures e.Recorded? && e.failure.Some? ==> e.failure.value in p.tripOn
  {
    OneAct(before, i, e, i);
    var done, trace := Of(before, i) + [e], traces(i);
    assert done <= trace;
    assert trace[..|done|] == done && e in done;
    PrefixNotBad(trace, |done|);
  }

  // ---------------------------------------------------------------------
  // The requests that are on a call are the breaker's calls in flight

  ghost predicate OnExactly<B(!new)>(provider: string, log: seq<Entry<B>>, open: map<nat, nat>) {
    forall i: nat :: i in open <==> IsOn(provider, PhaseOf(log, i))
  }

  ghost predicate Paired(w: World) {
    && (forall i, j :: i in w.open && j in w.open && i != j ==> w.open[i] != w.open[j])
    && (forall i :: i in w.open ==> w.open[i] in w.sys.inFlight)
    && (forall c :: c in w.sys.inFlight ==> c in w.open.Values)
  }

  lemma {:induction false} ActOnExactly<B(!new)>(p: Policy, provider: string, before: seq<Entry<B>>, i: nat,
      e: P.Event<B>, w: World)
    requires OnExactly(provider, before, w.open) && !P.Follow(true, PhaseOf(before, i), e).Bad?
    requires e.Asked? && e.provider == provider ==> e.allowed == Admits(p, w.sys)
    ensures OnExactly(provider, before + [Act(i, e)], Advance(p, provider, w, Act(i, e)).open)
    ensures e.Asked? && e.provider == provider ==> i !in w.open
    ensures e.Recorded? && e.provider == provider ==> i in w.open
  {
    assert i in w.open <==> IsOn(provider, PhaseOf(before, i));
    var open := Advance(p, provider, w, Act(i, e)).open;
    assert i in open <==> IsOn(provider, P.Follow(true, PhaseOf(before, i), e));
    forall j: nat
      ensures j in open <==> IsOn(provider, PhaseOf(before + [Act(i, e)], j))
    {
      OneAct(before, i, e, j);
      if j != i { assert j in open <==> j in w.open; }
    }
  }

  lemma {:induction false} AskPaired(p: Policy, w: World, i: nat)
    requires Paired(w) && Consistent(p, w.sys) && i !in w.open && Admits(p, w.sys)
    ensures Paired(World(Next(p, w.sys, Ask), w.open[i := w.sys.next]))
  {
    var open := w.open[i := w.sys.next];
    forall c | c in w.sys.inFlight
      ensures c in open.Values
    {
      var j :| j in w.open && w.open[j] == c;
      assert j in open && open[j] == c;
    }
    assert i in open && open[i] == w.sys.next;
  }

  lemma {:induction false} RecordPaired(p: Policy, w: World, i: nat, failure: Option<Category>)
    requires Paired(w) && i in w.open
    ensures Paired(World(Next(p, w.sys, StepFor(w.open[i], failure)), w.open - {i}))
  {
    var open := w.open - {i};
    forall c | c in w.sys.inFlight && c != w.open[i]
      ensures c in open.Values
    {
      var j :| j in w.open && w.open[j] == c;
      assert j in open && open[j] == c;
    }
  }

  // ---------------------------------------------------------------------
  // Every interleaving is a legal run of the breaker

  ghost predicate AllCount(p: Policy, steps: seq<Step>) {
    forall i :: 0 <= i < |steps| && steps[i].Fail? ==> steps[i].category in p.tripOn
  }

  lemma {:induction false} Extend(p: Policy, steps: seq<Step>, step: Step)
    requires Legal(p, INITIAL, steps) && Enabled(After(p, INITIAL, steps), step) && AllCount(p, steps)
    requires step.Fail? ==> step.category in p.tripOn
    ensures Legal(p, INITIAL, steps + [step]) && AllCount(p, steps + [step])
    ensures After(p, INITIAL, steps + [step]) == Next(p, After(p, INITIAL, steps), step)
  {
    assert (steps + [step])[..|steps|] == steps;
  }

  /** The log so far is a legal run of the breaker, whose calls in flight are the requests on a call. */
  ghost predicate Matched<B(!new)>(p: Policy, provider: string, log: seq<Entry<B>>) {
    var steps, w := StepsFrom(p, provider, START, log), WorldAfter(p, provider, log);
    && Legal(p, INITIAL, steps) && After(p, INITIAL, steps) == w.sys && AllCount(p, steps)
    && OnExactly(provider, log, w.open) && Paired(w)
  }

  lemma {:induction false} IsLegal<B(!new)>(
      p: Policy, provider: string, traces: nat -> seq<P.Event<B>>, log: seq<Entry<B>>)
    requires Usable(p) && (forall i: nat :: Good(p, traces(i))) && Interleaves(traces, log)
    requires Agrees(p, provider, log)
    ensures Matched(p, provider, log)
  {
    if log != [] {
      var before, last := log[..|log| - 1], log[|log| - 1];
      assert before + [last] == log;
      Before(traces, log);
      IsLegal(p, provider, traces, before);
      var steps, w := StepsFrom(p, provider, START, before), WorldAfter(p, provider, before);
      AlwaysConsistent(p, INITIAL, steps);
      match last
      case Pass(d) =>
        Extend(p, steps, Tick(d));
        PassOnExactly(provider, before, d, w.open);
      case Act(i, e) =>
        ActInRules(p, traces, before, i, e);
        ActOnExactly(p, provider, before, i, e, w);
        ActLegal(p, provider, steps, w, i, e);
    }
  }

  lemma {:induction false} PassOnExactly<B(!new)>(provider: string, before: seq<Entry<B>>, d: nat, open: map<nat, nat>)
    requires OnExactly(provider, before, open)
    ensures OnExactly(provider, before + [Pass(d)], open)
  {
    var log := before + [Pass(d)];
    assert log[..|log| - 1] == before;
    forall i: nat
      ensures i in open <==> IsOn(provider, PhaseOf(log, i))
    {
      assert Of(log, i) == Of(before, i);
    }
  }

  lemma {:induction false} ActLegal<B>(p: Policy, provider: string, steps: seq<Step>, w: World, i: nat, e: P.Event<B>)
    requires Usable(p) && Legal(p, INITIAL, steps) && After(p, INITIAL, steps) == w.sys && AllCount(p, steps)
    requires Paired(w) && Consistent(p, w.sys)
    requires e.Asked? && e.provider == provider ==> i !in w.open
    requires e.Recorded? && e.provider == provider ==> i in w.open
    requires e.Recorded? && e.failure.Some? ==> e.failure.value in p.tripOn
    ensures var w', steps' := Advance(p, provider, w, Act(i, e)), steps + StepsFor(provider, w, Act(i, e));
      Legal(p, INITIAL, steps') && After(p, INITIAL, steps') == w'.sys && AllCount(p, steps') && Paired(w')
  {
    if e.Asked? && e.provider == provider {
      Extend(p, steps, Ask);
      if Admits(p, w.sys) { AskPaired(p, w, i); }
    } else if e.Recorded? && e.provider == provider {
      Extend(p, steps, StepFor(w.open[i], e.failure));
      RecordPaired(p, w, i, e.failure);
    } else {
      assert steps + [] == steps;
    }
  }

  // ---------------------------------------------------------------------
  // The gateway never wedges a breaker

  function TracesOf<B>(g: P.Gateway<B>, requests: nat -> P.Request<B>): nat -> seq<P.Event<B>> {
    (i: nat) => P.FinalTrace(g, requests(i))
  }

  lemma {:induction false} GatewayIsLegal<B(!new)>(
      p: Policy, provider: string, g: P.Gateway<B>, requests: nat -> P.Request<B>, log: seq<Entry<B>>)
    requires g.breakers && Usable(p) && (forall c :: c in DEFAULT_POLICY.tripOn ==> c in p.tripOn)
    requires Interleaves(TracesOf(g, requests), log) && Agrees(p, provider, log)
    ensures Matched(p, provider, log)
  {
    forall i: nat
      ensures Good(p, TracesOf(g, requests)(i))
    {
      RequestsAreGood(p, g, requests(i));
    }
    IsLegal(p, provider, TracesOf(g, requests), log);
  }

  /**
   In every interleaving of requests, while the breaker is half-open the request that took the slot is
   still on its call: it has not recorded yet, and its record, of whatever outcome, will free the slot.
   */
  lemma {:induction false} HalfOpenHasAnOwner<B(!new)>(
      p: Policy, provider: string, g: P.Gateway<B>, requests: nat -> P.Request<B>, log: seq<Entry<B>>)
    requires g.breakers && Usable(p) && (forall c :: c in DEFAULT_POLICY.tripOn ==> c in p.tripOn)
    requires Interleaves(TracesOf(g, requests), log) && Agrees(p, provider, log)
    ensures var w := WorldAfter(p, provider, log);
      w.sys.breaker.state.HalfOpen? ==>
        w.sys.slot.Some? &&
        exists i :: i in w.open && w.open[i] == w.sys.slot.value && IsOn(provider, PhaseOf(log, i))
  {
    GatewayIsLegal(p, provider, g, requests, log);
    SlotAlwaysHeld(p, StepsFrom(p, provider, START, log));
    var w := WorldAfter(p, provider, log);
    if w.sys.breaker.state.HalfOpen? {
      assert w.sys.slot.value in w.open.Values;
      var i :| i in w.open && w.open[i] == w.sys.slot.value;
      assert IsOn(provider, PhaseOf(log, i));
    }
  }

  /** Once every request has come to its end, waiting out the cooldown is enough to be admitted again. */
  lemma {:induction false} QuietGatewayRecovers<B(!new)>(
      p: Policy, provider: string, g: P.Gateway<B>, requests: nat -> P.Request<B>, log: seq<Entry<B>>, elapsed: nat)
    requires g.breakers && Usable(p) && (forall c :: c in DEFAULT_POLICY.tripOn ==> c in p.tripOn)
    requires Interleaves(TracesOf(g, requests), log) && Agrees(p, provider, log) && elapsed >= p.cooldown
    requires forall i: nat :: Of(log, i) == [] || Of(log, i) == TracesOf(g, requests)(i)
    ensures Admits(p, Next(p, WorldAfter(p, provider, log).sys, Tick(elapsed)))
  {
    var traces, w := TracesOf(g, requests), WorldAfter(p, provider, log);
    forall i: nat
      ensures PhaseOf(log, i) == P.Idle
    {
      RequestsAreGood(p, g, requests(i));
      assert Of(log, i) == [] || Of(log, i) == traces(i);
    }
    GatewayIsLegal(p, provider, g, requests, log);
    forall i: nat
      ensures i !in w.open
    {
      assert PhaseOf(log, i) == P.Idle;
    }
    assert forall c :: c in w.sys.inFlight ==> c in w.open.Values;
    assert w.sys.inFlight == {};
    IdleBreakerRecovers(p, StepsFrom(p, provider, START, log), elapsed);
  }
}
