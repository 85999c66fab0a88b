/**
 internal/cache/memory.go, on values: the map that `Memory` guards, its two
 critical sections of `Get` and the one of `Set`, and every interleaving of them.
 The class that holds the map is in CacheMemory.dfy.
 */
module CacheModel {
  import opened Wrappers

  /** A cached response. */
  datatype View = View(status: int, header: Option<map<string, seq<string>>>, body: seq<char>, expiresAt: int)

  type Contents = map<string, View>

  /** `now.After(e.ExpiresAt)`. */
  predicate Expired(v: View, now: int) {
    now > v.expiresAt
  }

  function Without(m: Contents, key: string): Contents {
    map k | k in m && k != key :: m[k]
  }

  /** The sweep of `Set`. */
  function Sweep(m: Contents, now: int): Contents {
    map k | k in m && !Expired(m[k], now) :: m[k]
  }

  /** `Set`, given the key that the map iteration happens to yield first when one has to go. */
  function SetEntry(m: Contents, maxKeys: nat, key: string, v: View, now: int, victim: string): Contents {
    if |m| < maxKeys then m[key := v]
    else
      var swept := Sweep(m, now);
      if |swept| < maxKeys then swept[key := v] else Without(swept, victim)[key := v]
  }

  /** The victim is some key of what the sweep leaves. */
  predicate VictimOk(m: Contents, maxKeys: nat, now: int, victim: string) {
    |m| >= maxKeys && |Sweep(m, now)| >= maxKeys && |Sweep(m, now)| > 0 ==> victim in Sweep(m, now)
  }

  datatype Outcome = Hit(view: View) | Miss | Recheck

  /** The section under the read lock. */
  function ReadSection(m: Contents, key: string, now: int): Outcome {
    if key !in m then Miss else if Expired(m[key], now) then Recheck else Hit(m[key])
  }

  /** The section under the write lock: its result, and the map it leaves. */
  function RecheckResult(m: Contents, key: string, now: int): Outcome {
    if key in m && !Expired(m[key], now) then Hit(m[key]) else Miss
  }

  function RecheckContents(m: Contents, key: string, now: int): Contents {
    if key in m && Expired(m[key], now) then Without(m, key) else m
  }

  // ---------------------------------------------------------------------
  // Interleavings

  datatype Phase = Begun | Stale

  /** A `Get` under way: its key, the time it read first, and whether its read section is behind it. */
  datatype Pending = Pending(key: string, now: int, phase: Phase)

  datatype System = System(contents: Contents, clock: int, next: nat, gets: map<nat, Pending>)

  datatype Step =
    | Tick(elapsed: nat)
    | Set(key: string, view: View, victim: string)
    | Begin(key: string)
    | Read(get: nat)
    | Check(get: nat)

  const INITIAL := System(map[], 0, 0, map[])

  predicate Enabled(maxKeys: nat, s: System, step: Step) {
    match step
    case Set(_, _, victim) => VictimOk(s.contents, maxKeys, s.clock, victim)
    case Read(id) => id in s.gets && s.gets[id].phase.Begun?
    case Check(id) => id in s.gets && s.gets[id].phase.Stale?
    case _ => true
  }

  /** What the step returns to its caller: only the last section of a `Get` returns something. */
  function Returned(s: System, step: Step): Outcome {
    match step
    case Read(id) => if id in s.gets then ReadSection(s.contents, s.gets[id].key, s.gets[id].now) else Recheck
    case Check(id) => if id in s.gets then RecheckResult(s.contents, s.gets[id].key, s.gets[id].now) else Recheck
    case _ => Recheck
  }

  function Next(maxKeys: nat, s: System, step: Step): System {
    match step
    case Tick(d) => s.(clock := s.clock + d)
    case Set(key, v, victim) => s.(contents := SetEntry(s.contents, maxKeys, key, v, s.clock, victim))
    case Begin(key) => s.(next := s.next + 1, gets := s.gets[s.next := Pending(key, s.clock, Begun)])
    case Read(id) =>
      if id !in s.gets then s
      else if Returned(s, step).Recheck? then s.(gets := s.gets[id := s.gets[id].(phase := Stale)])
      else s.(gets := s.gets - {id})
    case Check(id) =>
      if id !in s.gets then s
      else s.(contents := RecheckContents(s.contents, s.gets[id].key, s.gets[id].now), gets := s.gets - {id})
  }

  function After(maxKeys: nat, steps: seq<Step>): System {
    if steps == [] then INITIAL else Next(maxKeys, After(maxKeys, steps[..|steps| - 1]), steps[|steps| - 1])
  }

  predicate Legal(maxKeys: nat, steps: seq<Step>) {
    steps == [] ||
    var before := steps[..|steps| - 1];
    Legal(maxKeys, before) && Enabled(maxKeys, After(maxKeys, before), steps[|steps| - 1])
  }

  /** The value of the latest `Set` of a key in the run. */
  function LatestSet(steps: seq<Step>, key: string): Option<View> {
    if steps == [] then None
    else
      var last := steps[|steps| - 1];
      if last.Set? && last.key == key then Some(last.view) else LatestSet(steps[..|steps| - 1], key)
  }

  /** The key that a `Get` was called with and the time it was called at, by its number. */
  function Call(maxKeys: nat, steps: seq<Step>, get: nat): Option<(string, int)> {
    if steps == [] then None
    else
      var before, last := steps[..|steps| - 1], steps[|steps| - 1];
      if last.Begin? && After(maxKeys, before).next == get then Some((last.key, After(maxKeys, before).clock))
      else Call(maxKeys, before, get)
  }

  // ---------------------------------------------------------------------
  // What every interleaving keeps

  predicate GetsMatchCalls(maxKeys: nat, steps: seq<Step>) {
    var s := After(maxKeys, steps);
    forall id :: id in s.gets ==>
      id < s.next && s.gets[id].now <= s.clock && Call(maxKeys, steps, id) == Some((s.gets[id].key, s.gets[id].now))
  }

  lemma {:induction false} PendingGets(maxKeys: nat, steps: seq<Step>)
    ensures GetsMatchCalls(maxKeys, steps)
  {
    if steps != [] {
      PendingGets(maxKeys, steps[..|steps| - 1]);
    }
  }

  /** Whatever is in the cache is the latest `Set` of its key. */
  predicate ContentsAreLatest(m: Contents, steps: seq<Step>) {
    forall k :: k in m ==> LatestSet(steps, k) == Some(m[k])
  }

  lemma {:induction false} NeverOutdated(maxKeys: nat, steps: seq<Step>)
    ensures ContentsAreLatest(After(maxKeys, steps).contents, steps)
  {
    if steps != [] { NeverOutdated(maxKeys, steps[..|steps| - 1]); }
  }

  /**
   A hit, at whichever section it is decided, returns the latest `Set` of its key at that point, and
   a value that had not expired when the `Get` was called.
   */
  lemma {:induction false} HitIsLatestAndFresh(maxKeys: nat, steps: seq<Step>, step: Step)
    requires Legal(maxKeys, steps) && Enabled(maxKeys, After(maxKeys, steps), step)
    requires (step.Read? || step.Check?) && Returned(After(maxKeys, steps), step).Hit?
    ensures var call := Call(maxKeys, steps, step.get);
      && call.Some?
      && LatestSet(steps, call.value.0) == Some(Returned(After(maxKeys, steps), step).view)
      && call.value.1 <= Returned(After(maxKeys, steps), step).view.expiresAt
  {
    PendingGets(maxKeys, steps);
    NeverOutdated(maxKeys, steps);
  }

  lemma {:induction false} SweepSize(m: Contents, now: int)
    ensures |Sweep(m, now)| <= |m|
    ensures |Sweep(m, now)| == |m| ==> Sweep(m, now) == m
  {
    var swept := Sweep(m, now);
    assert swept.Keys <= m.Keys;
    Subset(swept.Keys, m.Keys);
    if |swept| == |m| { assert swept.Keys == m.Keys; }
  }

  lemma {:induction false} Subset(a: set<string>, b: set<string>)
    requires a <= b
    ensures |a| <= |b|
    ensures |a| == |b| ==> a == b
  {
    assert b == a + (b - a) && |b| == |a| + |b - a|;
  }

  lemma {:induction false} SizeWithout(m: Contents, key: string)
    ensures |Without(m, key)| == if key in m then |m| - 1 else |m|
  {
    assert Without(m, key).Keys == m.Keys - {key};
  }

  lemma {:induction false} SizeWith(m: Contents, key: string, v: View)
    ensures |m[key := v]| == if key in m then |m| else |m| + 1
  {
    assert m[key := v].Keys == m.Keys + {key};
  }

  /** A `Set` is possible at any time, whatever the map holds. */
  lemma {:induction false} SetIsPossible(maxKeys: nat, s: System, key: string, v: View)
    ensures exists victim :: Enabled(maxKeys, s, Set(key, v, victim))
  {
    var swept := Sweep(s.contents, s.clock);
    if swept == map[] {
      assert Enabled(maxKeys, s, Set(key, v, ""));
    } else {
      var victim :| victim in swept;
      assert Enabled(maxKeys, s, Set(key, v, victim));
    }
  }

  lemma {:induction false} SetKeepsSize(m: Contents, maxKeys: nat, key: string, v: View, now: int, victim: string)
    requires maxKeys >= 1 && |m| <= maxKeys && VictimOk(m, maxKeys, now, victim)
    ensures |SetEntry(m, maxKeys, key, v, now, victim)| <= maxKeys
  {
    var swept := Sweep(m, now);
    SweepSize(m, now);
    SizeWith(m, key, v);
    SizeWith(swept, key, v);
    SizeWithout(swept, victim);
    SizeWith(Without(swept, victim), key, v);
  }

  lemma {:induction false} NeverOverfull(maxKeys: nat, steps: seq<Step>)
    requires maxKeys >= 1 && Legal(maxKeys, steps)
    ensures |After(maxKeys, steps).contents| <= maxKeys
  {
    if steps != [] {
      var before, last := steps[..|steps| - 1], steps[|steps| - 1];
      var s := After(maxKeys, before);
      NeverOverfull(maxKeys, before);
      match last {
        case Set(key, v, victim) => SetKeepsSize(s.contents, maxKeys, key, v, s.clock, victim);
        case Check(id) => SizeWithout(s.contents, s.gets[id].key);
        case _ =>
      }
    }
  }

  /** The entries that are live at a time: they expire then or later. */
  function Live(m: Contents, now: int): set<string> {
    set k | k in m && now <= m[k].expiresAt
  }

  /**
   A `Get` takes away nothing but an entry of its own key that had expired before the `Get` was
   called; so no live entry goes.
   */
  lemma {:induction false} GetKeepsLiveEntries(maxKeys: nat, steps: seq<Step>, step: Step)
    requires Legal(maxKeys, steps) && Enabled(maxKeys, After(maxKeys, steps), step) && !step.Set?
    ensures var s, s' := After(maxKeys, steps), Next(maxKeys, After(maxKeys, steps), step);
      && Live(s.contents, s.clock) <= s'.contents.Keys
      && (forall k :: k in s.contents && k !in s'.contents ==>
            && step.Check? && Call(maxKeys, steps, step.get).Some?
            && k == Call(maxKeys, steps, step.get).value.0
            && s.contents[k].expiresAt < Call(maxKeys, steps, step.get).value.1)
      && (forall k :: k in s'.contents ==> k in s.contents && s'.contents[k] == s.contents[k])
  {
    PendingGets(maxKeys, steps);
  }

  /**
   A `Set` takes away at most one live entry of another key, and one only from a cache that was full
   and held no expired entry at all.
   */
  lemma {:induction false} SetEvictsOneFromFull(maxKeys: nat, steps: seq<Step>, step: Step)
    requires maxKeys >= 1 && Legal(maxKeys, steps) && Enabled(maxKeys, After(maxKeys, steps), step) && step.Set?
    ensures var s, s' := After(maxKeys, steps), Next(maxKeys, After(maxKeys, steps), step);
      var lost := Live(s.contents, s.clock) - s'.contents.Keys;
      && |lost| <= 1
      && (lost != {} ==> |s.contents| == maxKeys && Live(s.contents, s.clock) == s.contents.Keys)
      && step.key in s'.contents && s'.contents[step.key] == step.view
      && (forall k :: k in s'.contents && k != step.key ==> k in s.contents && s'.contents[k] == s.contents[k])
  {
    NeverOverfull(maxKeys, steps);
    SetLosesOne(maxKeys, After(maxKeys, steps), step);
  }

  lemma {:induction false} SetLosesOne(maxKeys: nat, s: System, step: Step)
    requires maxKeys >= 1 && |s.contents| <= maxKeys && Enabled(maxKeys, s, step) && step.Set?
    ensures var s' := Next(maxKeys, s, step);
      var lost := Live(s.contents, s.clock) - s'.contents.Keys;
      && |lost| <= 1
      && (lost != {} ==> |s.contents| == maxKeys && Live(s.contents, s.clock) == s.contents.Keys)
      && step.key in s'.contents && s'.contents[step.key] == step.view
      && (forall k :: k in s'.contents && k != step.key ==> k in s.contents && s'.contents[k] == s.contents[k])
  {
    SweepSize(s.contents, s.clock);
    var lost := Live(s.contents, s.clock) - Next(maxKeys, s, step).contents.Keys;
    assert lost <= {step.victim};
    Subset(lost, {step.victim});
  }

  /**
   What a `Set` leaves, in the times of the entries: below the capacity all of them, at the capacity
   those that are live, and if these are all of them, then all but the victim.
   */
  lemma {:induction false} SetInFull(maxKeys: nat, steps: seq<Step>, step: Step)
    requires maxKeys >= 1 && Legal(maxKeys, steps) && Enabled(maxKeys, After(maxKeys, steps), step) && step.Set?
    ensures var m, now := After(maxKeys, steps).contents, After(maxKeys, steps).clock;
      var keys := After(maxKeys, steps + [step]).contents.Keys;
      && (|m| < maxKeys ==> keys == m.Keys + {step.key})
      && (|m| == maxKeys && (exists k :: k in m && m[k].expiresAt < now) ==> keys == Live(m, now) + {step.key})
      && (|m| == maxKeys && (forall k :: k in m ==> now <= m[k].expiresAt) ==>
            step.victim in m && keys == m.Keys - {step.victim} + {step.key})
  {
    var s := After(maxKeys, steps);
    assert (steps + [step])[..|steps|] == steps;
    if |s.contents| == maxKeys {
      if k :| k in s.contents && s.contents[k].expiresAt < s.clock {
        SetSweeps(s.contents, maxKeys, step.key, step.view, s.clock, step.victim, k);
      } else {
        SetEvicts(s.contents, maxKeys, step.key, step.view, s.clock, step.victim);
      }
    }
  }

  lemma {:induction false} SetSweeps(m: Contents, maxKeys: nat, key: string, v: View, now: int, victim: string,
      k: string)
    requires |m| == maxKeys && k in m && m[k].expiresAt < now
    ensures SetEntry(m, maxKeys, key, v, now, victim).Keys == Live(m, now) + {key}
  {
    SweepSize(m, now);
    assert k !in Sweep(m, now);
    assert Sweep(m, now).Keys == Live(m, now);
  }

  lemma {:induction false} SetEvicts(m: Contents, maxKeys: nat, key: string, v: View, now: int, victim: string)
    requires |m| == maxKeys && maxKeys >= 1 && VictimOk(m, maxKeys, now, victim)
    requires forall k :: k in m ==> now <= m[k].expiresAt
    ensures victim in m && SetEntry(m, maxKeys, key, v, now, victim).Keys == m.Keys - {victim} + {key}
  {
    assert Sweep(m, now) == m;
    assert Without(m, victim).Keys == m.Keys - {victim};
  }

  /**
   What a section of a `Get` does, in the times: it hits on an entry that was live at the call; the
   read section misses at once only where there is no entry, and otherwise goes on to the write lock,
   whose section deletes the entry if it had expired at the call.
   */
  lemma {:induction false} GetInFull(maxKeys: nat, steps: seq<Step>, step: Step)
    requires Legal(maxKeys, steps) && Enabled(maxKeys, After(maxKeys, steps), step) && (step.Read? || step.Check?)
    ensures var s, s' := After(maxKeys, steps), After(maxKeys, steps + [step]);
      var call, result := Call(maxKeys, steps, step.get), Returned(s, step);
      && call.Some?
      && var (key, at) := call.value;
         && (result.Hit? <==> key in s.contents && at <= s.contents[key].expiresAt)
         && (result.Hit? ==> result.view == s.contents[key])
         && (step.Read? ==> (result.Miss? <==> key !in s.contents) && s'.contents == s.contents)
         && (step.Read? && result.Recheck? ==> s'.gets == s.gets[step.get := Pending(key, at, Stale)])
         && (step.Check? ==> !result.Recheck? && (key in s'.contents <==> result.Hit?))
         && (step.Check? || !result.Recheck? ==> s'.gets.Keys == s.gets.Keys - {step.get})
  {
    PendingGets(maxKeys, steps);
    assert (steps + [step])[..|steps|] == steps;
  }

  // ---------------------------------------------------------------------
  // Below capacity the cache forgets nothing that is still valid

  function KeysSet(steps: seq<Step>): set<string> {
    if steps == [] then {}
    else
      var last := steps[|steps| - 1];
      KeysSet(steps[..|steps| - 1]) + (if last.Set? then {last.key} else {})
  }

  /** Every key whose latest value is still valid is in the cache. */
  predicate Remembers(s: System, steps: seq<Step>) {
    forall k :: k in KeysSet(steps) && LatestSet(steps, k).Some? && s.clock <= LatestSet(steps, k).value.expiresAt ==>
      k in s.contents
  }

  /** Below capacity, a step that is not a `Set` takes away only what has expired. */
  lemma {:induction false} KeepsValid(maxKeys: nat, s: System, step: Step, k: string)
    requires !step.Set? && k in s.contents && s.clock <= s.contents[k].expiresAt
    requires forall id :: id in s.gets ==> s.gets[id].now <= s.clock
    ensures k in Next(maxKeys, s, step).contents
  {
  }

  lemma {:induction false} RemembersSet(maxKeys: nat, before: seq<Step>, s: System, last: Step, steps: seq<Step>)
    requires steps != [] && before == steps[..|steps| - 1] && last == steps[|steps| - 1] && last.Set?
    requires |s.contents| < maxKeys && Remembers(s, before) && s.contents.Keys <= KeysSet(before)
    ensures Next(maxKeys, s, last).contents.Keys <= KeysSet(steps)
    ensures Remembers(Next(maxKeys, s, last), steps)
  {
    assert Next(maxKeys, s, last).contents == s.contents[last.key := last.view];
    forall k | k in KeysSet(steps) && k != last.key
      ensures k in KeysSet(before) && LatestSet(steps, k) == LatestSet(before, k)
    {
    }
  }

  lemma {:induction false} RemembersOther(maxKeys: nat, before: seq<Step>, s: System, last: Step, steps: seq<Step>)
    requires steps != [] && before == steps[..|steps| - 1] && last == steps[|steps| - 1] && !last.Set?
    requires Remembers(s, before) && s.contents.Keys <= KeysSet(before)
    requires ContentsAreLatest(s.contents, before)
    requires forall id :: id in s.gets ==> s.gets[id].now <= s.clock
    ensures Next(maxKeys, s, last).contents.Keys <= KeysSet(steps)
    ensures Remembers(Next(maxKeys, s, last), steps)
  {
    var s' := Next(maxKeys, s, last);
    assert KeysSet(steps) == KeysSet(before) && s'.clock >= s.clock;
    forall k | k in KeysSet(steps) && LatestSet(steps, k).Some? && s'.clock <= LatestSet(steps, k).value.expiresAt
      ensures k in s'.contents
    {
      assert LatestSet(before, k) == LatestSet(steps, k) && k in s.contents;
      KeepsValid(maxKeys, s, last, k);
    }
  }

  lemma {:induction false} RemembersBelowCapacity(maxKeys: nat, steps: seq<Step>)
    requires Legal(maxKeys, steps) && |KeysSet(steps)| < maxKeys
    ensures After(maxKeys, steps).contents.Keys <= KeysSet(steps)
    ensures Remembers(After(maxKeys, steps), steps)
  {
    if steps != [] {
      var before, last := steps[..|steps| - 1], steps[|steps| - 1];
      var s := After(maxKeys, before);
      Subset(KeysSet(before), KeysSet(steps));
      RemembersBelowCapacity(maxKeys, before);
      Subset(s.contents.Keys, KeysSet(before));
      PendingGets(maxKeys, before);
      NeverOutdated(maxKeys, before);
      if last.Set? {
        RemembersSet(maxKeys, before, s, last, steps);
      } else {
        RemembersOther(maxKeys, before, s, last, steps);
      }
    }
  }

  lemma {:induction false} SetKeysHaveValues(steps: seq<Step>, key: string)
    ensures key in KeysSet(steps) <==> LatestSet(steps, key).Some?
  {
    if steps != [] { SetKeysHaveValues(steps[..|steps| - 1], key); }
  }

  /** While fewer keys than the capacity were ever set, a miss means: never set, or expired by now. */
  lemma {:induction false} MissIsHonest(maxKeys: nat, steps: seq<Step>, step: Step)
    requires Legal(maxKeys, steps) && Enabled(maxKeys, After(maxKeys, steps), step)
    requires |KeysSet(steps)| < maxKeys && (step.Read? || step.Check?)
    requires Returned(After(maxKeys, steps), step).Miss?
    ensures var call := Call(maxKeys, steps, step.get);
      call.Some? &&
      (LatestSet(steps, call.value.0).None? ||
       LatestSet(steps, call.value.0).value.expiresAt < After(maxKeys, steps).clock)
  {
    PendingGets(maxKeys, steps);
    NeverOutdated(maxKeys, steps);
    RemembersBelowCapacity(maxKeys, steps);
    SetKeysHaveValues(steps, Call(maxKeys, steps, step.get).value.0);
  }
}
