/**
 internal/breaker/breaker.go: a three-state circuit breaker, and what it does
 under every interleaving of the calls it admits. Times are integers (Go's
 nanoseconds); the clock is a parameter that never goes back.
 */
module CircuitBreaker {
  import opened Wrappers

  /** The error taxonomy of internal/providers/provider.go. */
  datatype Category = Auth | InvalidRequest | RateLimit | ProviderUnavailable | UpstreamFailure

  datatype State = Closed | Open | HalfOpen

  datatype Policy = Policy(failureThreshold: int, cooldown: int, tripOn: seq<Category>, disabled: bool)

  /** `DefaultPolicy`; 30 seconds in nanoseconds. */
  const DEFAULT_POLICY := Policy(5, 30_000_000_000, [UpstreamFailure, ProviderUnavailable], false)

  /** The policies that the application builds for a breaker that is in use. */
  predicate Usable(p: Policy) {
    p.failureThreshold >= 1 && p.cooldown > 0 && !p.disabled
  }

  datatype Breaker = Breaker(state: State, failures: int, tripTime: int, probeInFlight: bool)

  datatype Verdict = Verdict(breaker: Breaker, allowed: bool, reported: State)

  // ---------------------------------------------------------------------
  // One call on a value

  function Allow(p: Policy, b: Breaker, now: int): Verdict {
    if p.disabled then Verdict(b, true, Closed)
    else
      var b' := if b.state.Open? && now - b.tripTime >= p.cooldown then b.(state := HalfOpen) else b;
      match b'.state
      case Closed => Verdict(b', true, Closed)
      case Open => Verdict(b', false, Open)
      case HalfOpen =>
        if b'.probeInFlight then Verdict(b', false, HalfOpen)
        else Verdict(b'.(probeInFlight := true), true, HalfOpen)
  }

  function RecordSuccess(p: Policy, b: Breaker): Breaker {
    if p.disabled then b else b.(failures := 0, probeInFlight := false, state := Closed)
  }

  function RecordFailure(p: Policy, b: Breaker, category: Category, now: int): Breaker {
    if p.disabled || category !in p.tripOn then b
    else
      var b' := b.(probeInFlight := false);
      match b.state
      case Closed =>
        var counted := b'.(failures := b.failures + 1);
        if counted.failures >= p.failureThreshold then counted.(state := Open, tripTime := now) else counted
      case HalfOpen => b'.(failures := b.failures + 1, state := Open, tripTime := now)
      case Open => b'
  }

  const FRESH := Breaker(Closed, 0, 0, false)

  // ---------------------------------------------------------------------
  // The class

  class SharedBreaker {
    const policy: Policy
    var state: State
    var failures: int
    var tripTime: int
    var probeInFlight: bool

    ghost function Value(): Breaker reads this {
      Breaker(state, failures, tripTime, probeInFlight)
    }

    constructor (policy: Policy)
      ensures this.policy == policy && Value() == FRESH
    {
      this.policy := policy;
      state, failures, tripTime, probeInFlight := Closed, 0, 0, false;
    }

    method DoAllow(now: int) returns (allowed: bool, reported: State)
      modifies this
      ensures Verdict(Value(), allowed, reported) == Allow(policy, old(Value()), now)
    {
      if policy.disabled { return true, Closed; }
      if state == Open && now - tripTime >= policy.cooldown {
        state := HalfOpen;
      }
      match state
      case Closed => return true, Closed;
      case Open => return false, Open;
      case HalfOpen =>
        if probeInFlight { return false, HalfOpen; }
        probeInFlight := true;
        return true, HalfOpen;
    }

    method DoRecordSuccess()
      modifies this
      ensures Value() == RecordSuccess(policy, old(Value()))
    {
      if policy.disabled { return; }
      failures := 0;
      probeInFlight := false;
      state := Closed;
    }

    method DoRecordFailure(category: Category, now: int)
      modifies this
      ensures Value() == RecordFailure(policy, old(Value()), category, now)
    {
      if policy.disabled { return; }
      var relevant := IsRelevant(category);
      if !relevant { return; }
      probeInFlight := false;
      match state
      case Closed =>
        failures := failures + 1;
        if failures >= policy.failureThreshold {
          state := Open;
          tripTime := now;
        }
      case HalfOpen =>
        failures := failures + 1;
        state := Open;
        tripTime := now;
      case Open =>
    }

    method IsRelevant(category: Category) returns (r: bool)
      ensures r == (category in policy.tripOn)
    {
      for i := 0 to |policy.tripOn|
        invariant category !in policy.tripOn[..i]
      {
        if policy.tripOn[i] == category { return true; }
      }
      return false;
    }
  }

  // ---------------------------------------------------------------------
  // Calls in flight

  /**
   The breaker with its callers. Calls are numbered as they ask; `inFlight` are those admitted and not
   yet recorded, `probes` those of them admitted half-open, `slot` the one that last took the slot.
   */
  datatype System = System(
    breaker: Breaker, clock: int, next: nat, inFlight: set<nat>, probes: set<nat>, slot: Option<nat>)

  datatype Step =
    | Tick(elapsed: nat)
    | Ask
    | Succeed(call: nat)
    | Fail(call: nat, category: Category)

  const INITIAL := System(FRESH, 0, 0, {}, {}, None)

  predicate Enabled(s: System, step: Step) {
    match step
    case Succeed(call) => call in s.inFlight
    case Fail(call, _) => call in s.inFlight
    case _ => true
  }

  predicate Admits(p: Policy, s: System) {
    Allow(p, s.breaker, s.clock).allowed
  }

  function Next(p: Policy, s: System, step: Step): System {
    match step
    case Tick(d) => s.(clock := s.clock + d)
    case Ask =>
      var v := Allow(p, s.breaker, s.clock);
      var asked := s.(breaker := v.breaker, next := s.next + 1);
      if !v.allowed then asked
      else
        var admitted := asked.(inFlight := s.inFlight + {s.next});
        if v.reported.HalfOpen? then admitted.(probes := s.probes + {s.next}, slot := Some(s.next)) else admitted
    case Succeed(call) =>
      s.(breaker := RecordSuccess(p, s.breaker), inFlight := s.inFlight - {call}, probes := s.probes - {call})
    case Fail(call, category) =>
      s.(breaker := RecordFailure(p, s.breaker, category, s.clock),
         inFlight := s.inFlight - {call}, probes := s.probes - {call})
  }

  function After(p: Policy, s: System, steps: seq<Step>): System {
    if steps == [] then s else Next(p, After(p, s, steps[..|steps| - 1]), steps[|steps| - 1])
  }

  /** Every call of the run records once, after it was admitted. */
  predicate Legal(p: Policy, s: System, steps: seq<Step>) {
    steps == [] ||
    var before := steps[..|steps| - 1];
    Legal(p, s, before) && Enabled(After(p, s, before), steps[|steps| - 1])
  }

  predicate FailsOnlyIn(categories: set<Category>, steps: seq<Step>) {
    forall i :: 0 <= i < |steps| && steps[i].Fail? ==> steps[i].category in categories
  }

  // ---------------------------------------------------------------------
  // What every interleaving keeps

  /** Half-open exactly while the slot is taken, closed exactly below the threshold. */
  predicate Consistent(p: Policy, s: System) {
    && (s.breaker.state.HalfOpen? <==> s.breaker.probeInFlight)
    && (s.breaker.state.Closed? <==> s.breaker.failures < p.failureThreshold)
    && 0 <= s.breaker.failures
    && (!s.breaker.state.Closed? ==> s.breaker.tripTime <= s.clock)
    && (forall c :: c in s.inFlight ==> c < s.next)
    && s.probes <= s.inFlight
  }

  lemma {:induction false} AlwaysConsistent(p: Policy, s: System, steps: seq<Step>)
    requires Usable(p) && Consistent(p, s) && Legal(p, s, steps)
    ensures Consistent(p, After(p, s, steps))
  {
    if steps != [] { AlwaysConsistent(p, s, steps[..|steps| - 1]); }
  }

  /** The failures that count since the last success, or the start. */
  function CountedSince(p: Policy, steps: seq<Step>): nat {
    if steps == [] then 0
    else
      var before, last := CountedSince(p, steps[..|steps| - 1]), steps[|steps| - 1];
      if last.Succeed? then 0 else if last.Fail? && last.category in p.tripOn then before + 1 else before
  }

  /**
   Only failures in a row trip the breaker: in every interleaving it is closed exactly while fewer than the
   threshold have been recorded since the last success, and then it has counted just these.
   */
  lemma {:induction false} ClosedExactly(p: Policy, steps: seq<Step>)
    requires Usable(p) && Legal(p, INITIAL, steps)
    ensures var b := After(p, INITIAL, steps).breaker;
      && (b.state.Closed? <==> CountedSince(p, steps) < p.failureThreshold)
      && (b.state.Closed? ==> b.failures == CountedSince(p, steps))
  {
    if steps != [] {
      ClosedExactly(p, steps[..|steps| - 1]);
      AlwaysConsistent(p, INITIAL, steps[..|steps| - 1]);
    }
  }

  /** The time at which the breaker last came to be open: it tripped, or a probe failed. */
  function OpenedAt(p: Policy, steps: seq<Step>): int {
    if steps == [] then 0
    else
      var before := steps[..|steps| - 1];
      var s := After(p, INITIAL, before);
      if !s.breaker.state.Open? && Next(p, s, steps[|steps| - 1]).breaker.state.Open? then s.clock
      else OpenedAt(p, before)
  }

  lemma {:induction false} TripTimeStands(p: Policy, steps: seq<Step>)
    requires Usable(p) && Legal(p, INITIAL, steps)
    ensures var b := After(p, INITIAL, steps).breaker;
      !b.state.Closed? ==> b.tripTime == OpenedAt(p, steps)
  {
    if steps != [] { TripTimeStands(p, steps[..|steps| - 1]); }
  }

  /**
   A call is admitted exactly while the breaker is closed, or open for the cooldown or longer; in the second
   case it is the probe, and until a record that counts no other is admitted.
   */
  lemma {:induction false} AdmitsExactly(p: Policy, steps: seq<Step>)
    requires Usable(p) && Legal(p, INITIAL, steps)
    ensures var s := After(p, INITIAL, steps);
      && (Admits(p, s) <==>
            || CountedSince(p, steps) < p.failureThreshold
            || (s.breaker.state.Open? && s.clock - OpenedAt(p, steps) >= p.cooldown))
      && Next(p, s, Ask).breaker.state
         == if Admits(p, s) && s.breaker.state.Open? then HalfOpen else s.breaker.state
  {
    ClosedExactly(p, steps);
    TripTimeStands(p, steps);
    AlwaysConsistent(p, INITIAL, steps);
  }

  /** A disabled breaker admits everything and remembers nothing. */
  lemma {:induction false} DisabledAdmits(p: Policy, b: Breaker, category: Category, now: int)
    requires p.disabled
    ensures Allow(p, b, now) == Verdict(b, true, Closed)
    ensures RecordSuccess(p, b) == b && RecordFailure(p, b, category, now) == b
  {
  }

  /** The call that holds the half-open slot is still in flight, so it will give the slot back. */
  predicate SlotHeld(s: System) {
    s.breaker.state.HalfOpen? ==> s.slot.Some? && s.slot.value in s.inFlight && s.slot.value in s.probes
  }

  lemma {:induction false} SlotAlwaysHeld(p: Policy, steps: seq<Step>)
    requires Usable(p) && Legal(p, INITIAL, steps)
    requires forall i :: 0 <= i < |steps| && steps[i].Fail? ==> steps[i].category in p.tripOn
    ensures SlotHeld(After(p, INITIAL, steps))
  {
    if steps != [] {
      var before := steps[..|steps| - 1];
      assert steps[|steps| - 1].Fail? ==> steps[|steps| - 1].category in p.tripOn;
      SlotAlwaysHeld(p, before);
      AlwaysConsistent(p, INITIAL, before);
    }
  }

  /** With no call in flight, waiting out the cooldown is enough for the next call to be admitted. */
  lemma {:induction false} IdleBreakerRecovers(p: Policy, steps: seq<Step>, elapsed: nat)
    requires Usable(p) && Legal(p, INITIAL, steps)
    requires forall i :: 0 <= i < |steps| && steps[i].Fail? ==> steps[i].category in p.tripOn
    requires After(p, INITIAL, steps).inFlight == {} && elapsed >= p.cooldown
    ensures Admits(p, Next(p, After(p, INITIAL, steps), Tick(elapsed)))
  {
    SlotAlwaysHeld(p, steps);
    AlwaysConsistent(p, INITIAL, steps);
  }

  // ---------------------------------------------------------------------
  // Rate of admissions while the upstream keeps failing

  /** The times at which calls are admitted. */
  function AdmitTimes(p: Policy, s: System, steps: seq<Step>): seq<int> {
    if steps == [] then []
    else
      var before := steps[..|steps| - 1];
      var now := After(p, s, before);
      if steps[|steps| - 1].Ask? && Admits(p, now) then AdmitTimes(p, s, before) + [now.clock]
      else AdmitTimes(p, s, before)
  }

  predicate NoSuccess(steps: seq<Step>) {
    forall i :: 0 <= i < |steps| ==> !steps[i].Succeed?
  }

  function Latest(trip: int, times: seq<int>): int {
    if times == [] then trip else times[|times| - 1]
  }

  /** Admissions are a cooldown apart, the first one a cooldown after the trip. */
  predicate Spaced(trip: int, cooldown: int, times: seq<int>) {
    times == [] ||
    var before := times[..|times| - 1];
    Spaced(trip, cooldown, before) && times[|times| - 1] >= Latest(trip, before) + cooldown
  }

  lemma {:induction false} AdmissionsAreSpaced(p: Policy, s: System, steps: seq<Step>)
    requires Usable(p) && Consistent(p, s) && Legal(p, s, steps) && NoSuccess(steps)
    requires s.breaker.state.Open?
    ensures var times, end := AdmitTimes(p, s, steps), After(p, s, steps);
      && Spaced(s.breaker.tripTime, p.cooldown, times)
      && Latest(s.breaker.tripTime, times) <= end.clock
      && !end.breaker.state.Closed?
      && (end.breaker.state.Open? ==> Latest(s.breaker.tripTime, times) <= end.breaker.tripTime)
  {
    if steps != [] {
      var before := steps[..|steps| - 1];
      AdmissionsAreSpaced(p, s, before);
      AlwaysConsistent(p, s, before);
    }
  }

  lemma {:induction false} SpacedCount(trip: int, cooldown: int, times: seq<int>)
    requires Spaced(trip, cooldown, times)
    ensures |times| * cooldown <= Latest(trip, times) - trip
  {
    if times != [] {
      var n := |times| - 1;
      SpacedCount(trip, cooldown, times[..n]);
      assert (n + 1) * cooldown == n * cooldown + cooldown;
    }
  }

  /**
   The rate bound: in every interleaving without a recorded success, at most floor(T/C) calls are
   admitted in the T after a trip, for the cooldown C.
   */
  lemma {:induction false} RateBound(p: Policy, before: seq<Step>, steps: seq<Step>)
    requires Usable(p) && Legal(p, INITIAL, before) && After(p, INITIAL, before).breaker.state.Open?
    requires var s := After(p, INITIAL, before); Legal(p, s, steps) && NoSuccess(steps)
    ensures var s := After(p, INITIAL, before);
      var times, elapsed := AdmitTimes(p, s, steps), After(p, s, steps).clock - s.breaker.tripTime;
      Spaced(s.breaker.tripTime, p.cooldown, times) && |times| <= elapsed / p.cooldown
  {
    var s := After(p, INITIAL, before);
    var trip := s.breaker.tripTime;
    AlwaysConsistent(p, INITIAL, before);
    AdmissionsAreSpaced(p, s, steps);
    SpacedCount(trip, p.cooldown, AdmitTimes(p, s, steps));
    AtMostQuotient(|AdmitTimes(p, s, steps)|, p.cooldown, After(p, s, steps).clock - trip);
  }

  lemma {:induction false} AtMostQuotient(n: nat, c: int, t: int)
    requires c > 0 && n * c <= t
    ensures n <= t / c
  {
    var q := t / c;
    assert n * c < (q + 1) * c by {
      assert t == q * c + t % c;
      assert (q + 1) * c == q * c + c;
    }
    CancelFactor(n, q + 1, c);
  }

  lemma {:induction false} CancelFactor(a: int, b: int, c: int)
    requires c > 0 && a * c < b * c
    ensures a < b
  {
  }

  // ---------------------------------------------------------------------
  // Runs built for the converses

  lemma {:induction false} Continues(p: Policy, s: System, a: seq<Step>, b: seq<Step>)
    ensures After(p, s, a + b) == After(p, After(p, s, a), b)
    ensures Legal(p, s, a + b) <==> Legal(p, s, a) && Legal(p, After(p, s, a), b)
  {
    if b == [] {
      assert a + b == a;
    } else {
      var n := |b| - 1;
      Continues(p, s, a, b[..n]);
      assert (a + b)[..|a + b| - 1] == a + b[..n];
    }
  }

  lemma {:induction false} TwoSteps(p: Policy, s: System, x: Step, y: Step)
    ensures After(p, s, [x, y]) == Next(p, Next(p, s, x), y)
    ensures Legal(p, s, [x, y]) <==> Enabled(s, x) && Enabled(Next(p, s, x), y)
  {
    assert [x, y][..1] == [x] && [x][..0] == [];
    assert After(p, s, [x]) == Next(p, s, x);
    assert Legal(p, s, [x]) <==> Enabled(s, x);
  }

  /** From a closed breaker, enough failing calls trip it, whatever else is in flight. */
  lemma {:induction false} TripFrom(p: Policy, s: System, category: Category) returns (steps: seq<Step>)
    requires Usable(p) && Consistent(p, s) && s.breaker.state.Closed? && category in p.tripOn
    ensures Legal(p, s, steps) && FailsOnlyIn({category}, steps)
    ensures var end := After(p, s, steps);
      end.breaker.state.Open? && end.inFlight == s.inFlight && end.probes == s.probes && Consistent(p, end)
    decreases p.failureThreshold - s.breaker.failures
  {
    var once := [Ask, Fail(s.next, category)];
    TwoSteps(p, s, Ask, Fail(s.next, category));
    var s' := After(p, s, once);
    assert s'.inFlight == s.inFlight && s'.probes == s.probes;
    AlwaysConsistent(p, s, once);
    if s'.breaker.state.Open? {
      steps := once;
    } else {
      var rest := TripFrom(p, s', category);
      steps := once + rest;
      Continues(p, s, once, rest);
    }
  }

  /** From an open breaker, waiting and asking takes the slot. */
  lemma {:induction false} ProbeFrom(p: Policy, s: System) returns (steps: seq<Step>)
    requires Usable(p) && Consistent(p, s) && s.breaker.state.Open?
    ensures steps == [Tick(p.cooldown), Ask] && Legal(p, s, steps)
    ensures var end := After(p, s, steps);
      && end.breaker.state.HalfOpen? && end.slot == Some(s.next)
      && end.inFlight == s.inFlight + {s.next} && end.probes == s.probes + {s.next}
  {
    steps := [Tick(p.cooldown), Ask];
    TwoSteps(p, s, Tick(p.cooldown), Ask);
  }

  // ---------------------------------------------------------------------
  // Exactly when the breaker never wedges

  ghost predicate NeverWedges(p: Policy, categories: set<Category>) {
    forall steps :: Legal(p, INITIAL, steps) && FailsOnlyIn(categories, steps) ==> SlotHeld(After(p, INITIAL, steps))
  }

  /** Without a failure that counts, the breaker never leaves closed. */
  lemma {:induction false} NeverTrips(p: Policy, steps: seq<Step>)
    requires Usable(p) && Legal(p, INITIAL, steps)
    requires forall i :: 0 <= i < |steps| && steps[i].Fail? ==> steps[i].category !in p.tripOn
    ensures After(p, INITIAL, steps).breaker.state.Closed?
  {
    if steps != [] {
      var before := steps[..|steps| - 1];
      assert steps[|steps| - 1].Fail? ==> steps[|steps| - 1].category !in p.tripOn;
      NeverTrips(p, before);
    }
  }

  /** A probe that fails in a category that does not count keeps the slot for ever. */
  lemma {:induction false} IgnoredFailureWedges(p: Policy, counted: Category, ignored: Category)
    returns (steps: seq<Step>)
    requires Usable(p) && counted in p.tripOn && ignored !in p.tripOn
    ensures Legal(p, INITIAL, steps) && FailsOnlyIn({counted, ignored}, steps)
    ensures var end := After(p, INITIAL, steps);
      end.inFlight == {} && !SlotHeld(end) && forall now :: !Allow(p, end.breaker, now).allowed
  {
    var trip := TripFrom(p, INITIAL, counted);
    var open := After(p, INITIAL, trip);
    var probe := ProbeFrom(p, open);
    Continues(p, INITIAL, trip, probe);
    var last := [Fail(open.next, ignored)];
    steps := trip + probe + last;
    var half := After(p, open, probe);
    Continues(p, INITIAL, trip + probe, last);
    assert last[..0] == [];
    assert After(p, half, last) == Next(p, half, last[0]);
  }

  lemma {:induction false} NeverWedgesExactly(p: Policy, categories: set<Category>)
    requires Usable(p)
    ensures NeverWedges(p, categories)
        <==> (forall c :: c in categories ==> c in p.tripOn) || (forall c :: c in categories ==> c !in p.tripOn)
  {
    if c, d :| c in categories && d in categories && c in p.tripOn && d !in p.tripOn {
      var steps := IgnoredFailureWedges(p, c, d);
      assert FailsOnlyIn(categories, steps);
    } else {
      forall steps | Legal(p, INITIAL, steps) && FailsOnlyIn(categories, steps)
        ensures SlotHeld(After(p, INITIAL, steps))
      {
        if c :| c in categories && c in p.tripOn {
          SlotAlwaysHeld(p, steps);
        } else {
          NeverTrips(p, steps);
        }
      }
    }
  }

  // ---------------------------------------------------------------------
  // Exactly when there can be two probes

  /** A call other than the slot's holder records while the breaker is half-open, and the record counts. */
  predicate Stale(p: Policy, s: System, step: Step) {
    && s.breaker.state.HalfOpen?
    && match step
       case Succeed(call) => s.slot != Some(call)
       case Fail(call, category) => s.slot != Some(call) && category in p.tripOn
       case _ => false
  }

  predicate NoStale(p: Policy, s: System, steps: seq<Step>) {
    steps == [] ||
    var before := steps[..|steps| - 1];
    NoStale(p, s, before) && !Stale(p, After(p, s, before), steps[|steps| - 1])
  }

  lemma {:induction false} ProbeIsHolder(p: Policy, steps: seq<Step>)
    requires Usable(p) && Legal(p, INITIAL, steps) && NoStale(p, INITIAL, steps)
    ensures var s := After(p, INITIAL, steps);
      s.probes <= if s.breaker.state.HalfOpen? && s.slot.Some? then {s.slot.value} else {}
  {
    if steps != [] {
      var before := steps[..|steps| - 1];
      ProbeIsHolder(p, before);
      AlwaysConsistent(p, INITIAL, before);
    }
  }

  /** Without stale records at most one admitted probe is in flight. */
  lemma {:induction false} AtMostOneProbe(p: Policy, steps: seq<Step>)
    requires Usable(p) && Legal(p, INITIAL, steps) && NoStale(p, INITIAL, steps)
    ensures |After(p, INITIAL, steps).probes| <= 1
  {
    var s := After(p, INITIAL, steps);
    ProbeIsHolder(p, steps);
    if s.probes != {} {
      assert s.probes == {s.slot.value};
    }
  }

  /** A breaker that has left closed was tripped by a category that counts. */
  lemma {:induction false} TrippedByCounted(p: Policy, steps: seq<Step>)
    requires Usable(p) && Legal(p, INITIAL, steps) && !After(p, INITIAL, steps).breaker.state.Closed?
    ensures p.tripOn != []
  {
    if forall i :: 0 <= i < |steps| && steps[i].Fail? ==> steps[i].category !in p.tripOn {
      NeverTrips(p, steps);
    }
  }

  /** One stale record is enough: the run goes on to a state with two probes in flight. */
  lemma {:induction false} StaleRecordAllowsTwoProbes(p: Policy, before: seq<Step>, stale: Step)
    returns (more: seq<Step>)
    requires Usable(p) && Legal(p, INITIAL, before)
    requires forall i :: 0 <= i < |before| && before[i].Fail? ==> before[i].category in p.tripOn
    requires var s := After(p, INITIAL, before);
      Enabled(s, stale) && Stale(p, s, stale)
    ensures Legal(p, INITIAL, before + [stale] + more)
    ensures |After(p, INITIAL, before + [stale] + more).probes| >= 2
  {
    var s := After(p, INITIAL, before);
    SlotAlwaysHeld(p, before);
    TrippedByCounted(p, before);
    var holder, start := s.slot.value, before + [stale];
    assert start[..|before|] == before;
    var s' := After(p, INITIAL, start);
    AlwaysConsistent(p, INITIAL, start);
    assert holder in s'.probes;
    var trip := [];
    if s'.breaker.state.Closed? {
      trip := TripFrom(p, s', p.tripOn[0]);
    }
    var open := After(p, s', trip);
    assert open.breaker.state.Open? && holder in open.probes && Consistent(p, open);
    var probe := ProbeFrom(p, open);
    more := trip + probe;
    Continues(p, s', trip, probe);
    Continues(p, INITIAL, start, more);
    var end := After(p, INITIAL, start + more);
    assert {holder, open.next} <= end.probes && holder != open.next;
    AtLeastTwo(end.probes, holder, open.next);
  }

  lemma {:induction false} AtLeastTwo(s: set<nat>, x: nat, y: nat)
    requires x in s && y in s && x != y
    ensures |s| >= 2
  {
    assert |s| == |s - {x, y}| + |{x, y}| by { assert s == (s - {x, y}) + {x, y}; }
  }
}
