/**
 internal/budget/service.go and the way internal/gateway/proxy.go uses it: a request reads the clock,
 passes the limits that apply to it one by one, goes upstream, and is metered when it is done. Any number
 of requests do this at once, also across the end of a month. Months are numbered; money is real.
 */
module Budgets {
  import opened Reals
  import opened Wrappers

  datatype Scope = Global | Team(name: string) | Project(name: string) | Agent(name: string)

  datatype Config = Config(
    enabled: bool, monthly: real,
    teams: map<string, real>, projects: map<string, real>, agents: map<string, real>)

  /** The team, project and agent headers of a request, "" for none. */
  datatype Tags = Tags(team: string, project: string, agent: string)

  // ---------------------------------------------------------------------
  // The checks

  datatype MonthlyState = Fine | Eighty | Ninety | Exceeded

  /** `CheckMonthlyBudget`, given the month's spend. */
  function CheckMonthlyBudget(cfg: Config, total: real): MonthlyState {
    if !cfg.enabled || cfg.monthly <= 0.0 then Fine
    else if total >= cfg.monthly then Exceeded
    else if total >= cfg.monthly * 0.9 then Ninety
    else if total >= cfg.monthly * 0.8 then Eighty
    else Fine
  }

  /** The limit of a scope, when one is configured. */
  function LimitOf(cfg: Config, scope: Scope): Option<real> {
    match scope
    case Global => if cfg.monthly > 0.0 then Some(cfg.monthly) else None
    case Team(t) => if t != "" && t in cfg.teams then Some(cfg.teams[t]) else None
    case Project(p) => if p != "" && p in cfg.projects then Some(cfg.projects[p]) else None
    case Agent(a) => if a != "" && a in cfg.agents then Some(cfg.agents[a]) else None
  }

  /** The scopes of a request in the order of the checks. */
  function AllScopes(tags: Tags): seq<Scope> {
    [Global, Team(tags.team), Project(tags.project), Agent(tags.agent)]
  }

  /** Those of the first n scopes that are checked. */
  function FirstChecked(cfg: Config, tags: Tags, n: nat): seq<Scope>
    requires n <= 4
  {
    if n == 0 || !cfg.enabled then []
    else
      var before, scope := FirstChecked(cfg, tags, n - 1), AllScopes(tags)[n - 1];
      if LimitOf(cfg, scope).Some? then before + [scope] else before
  }

  function Checked(cfg: Config, tags: Tags): seq<Scope> {
    FirstChecked(cfg, tags, 4)
  }

  predicate Within(cfg: Config, scope: Scope, spend: real) {
    match LimitOf(cfg, scope)
    case None => true
    case Some(limit) => limit <= 0.0 || spend < limit
  }

  datatype Verdict<E> = Admitted | Rejected(scope: Scope) | Broken(error: E)

  /** What the first check that does not pass says. */
  function FirstFailure<E>(cfg: Config, scopes: seq<Scope>, spend: Scope -> Result<real, E>): Verdict<E> {
    if scopes == [] then Admitted
    else
      match spend(scopes[0])
      case Err(e) => Broken(e)
      case Ok(s) => if !Within(cfg, scopes[0], s) then Rejected(scopes[0]) else FirstFailure(cfg, scopes[1..], spend)
  }

  lemma {:induction false} FailureSplits<E>(
      cfg: Config, a: seq<Scope>, b: seq<Scope>, spend: Scope -> Result<real, E>)
    ensures FirstFailure(cfg, a + b, spend)
         == if FirstFailure(cfg, a, spend).Admitted? then FirstFailure(cfg, b, spend) else FirstFailure(cfg, a, spend)
  {
    if a == [] {
      assert a + b == b;
    } else {
      FailureSplits(cfg, a[1..], b, spend);
      assert (a + b)[1..] == a[1..] + b;
    }
  }

  /** One scope's part of the checks. */
  function CheckOne<E>(cfg: Config, scope: Scope, spend: Scope -> Result<real, E>): Verdict<E> {
    if !cfg.enabled || LimitOf(cfg, scope).None? then Admitted
    else
      match spend(scope)
      case Err(e) => Broken(e)
      case Ok(s) => if Within(cfg, scope, s) then Admitted else Rejected(scope)
  }

  lemma {:induction false} ChecksSplit<E>(cfg: Config, tags: Tags, n: nat, spend: Scope -> Result<real, E>)
    requires n < 4
    ensures var before := FirstFailure(cfg, FirstChecked(cfg, tags, n), spend);
      FirstFailure(cfg, FirstChecked(cfg, tags, n + 1), spend)
      == if before.Admitted? then CheckOne(cfg, AllScopes(tags)[n], spend) else before
  {
    var scope := AllScopes(tags)[n];
    FailureSplits(cfg, FirstChecked(cfg, tags, n), [scope], spend);
    assert [scope][1..] == [];
  }

  lemma {:induction false} ChecksInOrder<E>(cfg: Config, tags: Tags, spend: Scope -> Result<real, E>)
    ensures var global, team := CheckOne(cfg, Global, spend), CheckOne(cfg, Team(tags.team), spend);
      var project, agent := CheckOne(cfg, Project(tags.project), spend), CheckOne(cfg, Agent(tags.agent), spend);
      FirstFailure(cfg, Checked(cfg, tags), spend)
      == if !global.Admitted? then global else if !team.Admitted? then team
         else if !project.Admitted? then project else agent
  {
    ChecksSplit(cfg, tags, 0, spend);
    ChecksSplit(cfg, tags, 1, spend);
    ChecksSplit(cfg, tags, 2, spend);
    ChecksSplit(cfg, tags, 3, spend);
  }

  /** `CheckRequestBudget`; `spend` is what the store answers for a scope. */
  method CheckRequestBudget<E>(cfg: Config, tags: Tags, spend: Scope -> Result<real, E>) returns (v: Verdict<E>)
    ensures v == FirstFailure(cfg, Checked(cfg, tags), spend)
  {
    ChecksInOrder(cfg, tags, spend);
    if !cfg.enabled { return Admitted; }
    if cfg.monthly > 0.0 {
      var total := spend(Global);
      if total.Err? { return Broken(total.error); }
      if total.value >= cfg.monthly { return Rejected(Global); }
    }
    if tags.team != "" && tags.team in cfg.teams {
      var limit, team := cfg.teams[tags.team], spend(Team(tags.team));
      if team.Err? { return Broken(team.error); }
      if limit > 0.0 && team.value >= limit { return Rejected(Team(tags.team)); }
    }
    if tags.project != "" && tags.project in cfg.projects {
      var limit, project := cfg.projects[tags.project], spend(Project(tags.project));
      if project.Err? { return Broken(project.error); }
      if limit > 0.0 && project.value >= limit { return Rejected(Project(tags.project)); }
    }
    if tags.agent != "" && tags.agent in cfg.agents {
      var limit, agent := cfg.agents[tags.agent], spend(Agent(tags.agent));
      if agent.Err? { return Broken(agent.error); }
      if limit > 0.0 && agent.value >= limit { return Rejected(Agent(tags.agent)); }
    }
    return Admitted;
  }

  /** A request is admitted exactly when every limit that applies to it could be read and is not reached. */
  lemma {:induction false} AdmittedExactly<E>(cfg: Config, scopes: seq<Scope>, spend: Scope -> Result<real, E>)
    ensures FirstFailure(cfg, scopes, spend).Admitted?
        <==> forall s :: s in scopes ==> spend(s).Ok? && Within(cfg, s, spend(s).value)
  {
    if scopes != [] {
      AdmittedExactly(cfg, scopes[1..], spend);
      assert scopes == [scopes[0]] + scopes[1..];
    }
  }

  predicate Matches(tags: Tags, scope: Scope) {
    match scope
    case Global => true
    case Team(t) => tags.team == t
    case Project(p) => tags.project == p
    case Agent(a) => tags.agent == a
  }

  /** A limit that can reject: configured, positive, and enabled. */
  predicate Enforced(cfg: Config, scope: Scope) {
    cfg.enabled && LimitOf(cfg, scope).Some? && LimitOf(cfg, scope).value > 0.0
  }

  /** Only limits that concern a request are checked for it. */
  lemma {:induction false} CheckedMatch(cfg: Config, tags: Tags, scope: Scope)
    requires scope in Checked(cfg, tags)
    ensures Matches(tags, scope)
  {
    CheckedMembers(cfg, tags, scope, 4);
    assert AllScopes(tags)[..4] == AllScopes(tags);
  }

  /** An enforced limit is among the checks of every request whose spend it counts. */
  lemma {:induction false} EnforcedIsChecked(cfg: Config, tags: Tags, scope: Scope)
    requires Enforced(cfg, scope)
    ensures Matches(tags, scope) <==> scope in Checked(cfg, tags)
  {
    CheckedMembers(cfg, tags, scope, 4);
    assert Matches(tags, scope) ==> scope in AllScopes(tags)[..4] by {
      assert AllScopes(tags)[..4] == AllScopes(tags);
      assert AllScopes(tags)[0] == Global && AllScopes(tags)[1] == Team(tags.team);
      assert AllScopes(tags)[2] == Project(tags.project) && AllScopes(tags)[3] == Agent(tags.agent);
    }
  }

  lemma {:induction false} CheckedMembers(cfg: Config, tags: Tags, scope: Scope, n: nat)
    requires n <= 4
    ensures scope in FirstChecked(cfg, tags, n)
        <==> cfg.enabled && LimitOf(cfg, scope).Some? && scope in AllScopes(tags)[..n]
  {
    if n > 0 {
      CheckedMembers(cfg, tags, scope, n - 1);
      assert AllScopes(tags)[..n] == AllScopes(tags)[..n - 1] + [AllScopes(tags)[n - 1]];
    }
  }

  // ---------------------------------------------------------------------
  // The verdict in the configuration's own terms

  /** A limit is configured for this name, and it is positive. */
  predicate HasLimit(limits: map<string, real>, name: string) {
    name != "" && name in limits && limits[name] > 0.0
  }

  /** The limits that can reject. */
  lemma {:induction false} EnforcedInFull(cfg: Config, name: string)
    ensures Enforced(cfg, Global) <==> cfg.enabled && cfg.monthly > 0.0
    ensures Enforced(cfg, Team(name)) <==> cfg.enabled && HasLimit(cfg.teams, name)
    ensures Enforced(cfg, Project(name)) <==> cfg.enabled && HasLimit(cfg.projects, name)
    ensures Enforced(cfg, Agent(name)) <==> cfg.enabled && HasLimit(cfg.agents, name)
  {
  }

  /** With every spend readable: the first limit in the order global, team, project, agent that is reached. */
  lemma {:induction false} VerdictInFull<E>(cfg: Config, tags: Tags, spend: Scope -> Result<real, E>)
    requires spend(Global).Ok? && spend(Team(tags.team)).Ok?
    requires spend(Project(tags.project)).Ok? && spend(Agent(tags.agent)).Ok?
    ensures FirstFailure(cfg, Checked(cfg, tags), spend)
         == if !cfg.enabled then Admitted
            else if cfg.monthly > 0.0 && spend(Global).value >= cfg.monthly then Rejected(Global)
            else if HasLimit(cfg.teams, tags.team) && spend(Team(tags.team)).value >= cfg.teams[tags.team]
            then Rejected(Team(tags.team))
            else if HasLimit(cfg.projects, tags.project)
                    && spend(Project(tags.project)).value >= cfg.projects[tags.project]
            then Rejected(Project(tags.project))
            else if HasLimit(cfg.agents, tags.agent) && spend(Agent(tags.agent)).value >= cfg.agents[tags.agent]
            then Rejected(Agent(tags.agent))
            else Admitted
  {
    ChecksInOrder(cfg, tags, spend);
  }

  /** A spend is read exactly for a configured limit, a team's only once the monthly one has passed, and so on. */
  lemma {:induction false} ReadsInFull<E>(cfg: Config, tags: Tags, spend: Scope -> Result<real, E>)
    requires cfg.enabled
    ensures cfg.monthly > 0.0 && spend(Global).Err? ==>
      FirstFailure(cfg, Checked(cfg, tags), spend) == Broken(spend(Global).error)
    ensures cfg.monthly <= 0.0 || (spend(Global).Ok? && spend(Global).value < cfg.monthly) ==>
      var verdict := FirstFailure(cfg, Checked(cfg, tags), spend);
      var team, project, agent := spend(Team(tags.team)), spend(Project(tags.project)), spend(Agent(tags.agent));
      && (tags.team != "" && tags.team in cfg.teams && team.Err? ==> verdict == Broken(team.error))
      && (tags.team !in cfg.teams && tags.project != "" && tags.project in cfg.projects && project.Err? ==>
            verdict == Broken(project.error))
      && (tags.team !in cfg.teams && tags.project !in cfg.projects ==>
            if tags.agent == "" || tags.agent !in cfg.agents then verdict == Admitted
            else if agent.Err? then verdict == Broken(agent.error)
            else verdict.Admitted? || verdict == Rejected(Agent(tags.agent)))
  {
    ChecksInOrder(cfg, tags, spend);
  }

  /** Which alert state a month's total is. */
  lemma {:induction false} MonthlyInFull(cfg: Config, total: real)
    ensures var state := CheckMonthlyBudget(cfg, total);
      if !cfg.enabled || cfg.monthly <= 0.0 then state == Fine
      else
        && (state == Exceeded <==> total >= cfg.monthly)
        && (state == Ninety <==> cfg.monthly * 0.9 <= total < cfg.monthly)
        && (state == Eighty <==> cfg.monthly * 0.8 <= total < cfg.monthly * 0.9)
  {
  }

  // ---------------------------------------------------------------------
  // Requests in flight

  datatype Record = Record(tags: Tags, month: int, cost: real)

  /** `GetTotalSpend`, `GetSpendForTeam`, ... over one month. */
  function Spend(records: seq<Record>, scope: Scope, month: int): real {
    if records == [] then 0.0
    else
      var before, r := Spend(records[..|records| - 1], scope, month), records[|records| - 1];
      if r.month == month && Matches(r.tags, scope) then before + r.cost else before
  }

  /**
   A request in flight: the month that its clock reading fell in, the number of checks it has passed, and
   the month of its usage record, once that has its timestamp.
   */
  datatype Request = Request(tags: Tags, month: int, passed: nat, stamp: Option<int>)

  datatype World = World(month: int, next: nat, live: map<nat, Request>, records: seq<Record>)

  datatype Step =
    | Tick(months: nat)
    | Start(tags: Tags)
    | Check(request: nat)
    | Finish(request: nat)
    | Stamp(request: nat)
    | Save(request: nat, cost: real)

  function Initial(month: int): World { World(month, 0, map[], []) }

  predicate IsAdmitted(cfg: Config, r: Request) {
    r.passed >= |Checked(cfg, r.tags)|
  }

  /** A request ends without a record (`Finish`) at any time: rejected, failed, or answered from the cache. */
  predicate Enabled(cfg: Config, w: World, step: Step) {
    match step
    case Check(i) => i in w.live && !IsAdmitted(cfg, w.live[i])
    case Finish(i) => i in w.live
    case Stamp(i) => i in w.live && IsAdmitted(cfg, w.live[i]) && w.live[i].stamp.None?
    case Save(i, _) => i in w.live && w.live[i].stamp.Some?
    case _ => true
  }

  /** A step that is not possible changes nothing. */
  function Next(cfg: Config, w: World, step: Step): World {
    if !Enabled(cfg, w, step) then w else Taken(cfg, w, step)
  }

  function Taken(cfg: Config, w: World, step: Step): World
    requires Enabled(cfg, w, step)
  {
    match step
    case Tick(m) => w.(month := w.month + m)
    case Start(tags) => w.(live := w.live[w.next := Request(tags, w.month, 0, None)], next := w.next + 1)
    case Check(i) =>
      var r := w.live[i];
      var scope := Checked(cfg, r.tags)[r.passed];
      if Within(cfg, scope, Spend(w.records, scope, r.month)) then w.(live := w.live[i := r.(passed := r.passed + 1)])
      else w.(live := w.live - {i})
    case Finish(i) => w.(live := w.live - {i})
    case Stamp(i) => w.(live := w.live[i := w.live[i].(stamp := Some(w.month))])
    case Save(i, cost) =>
      var r := w.live[i];
      w.(live := w.live - {i}, records := w.records + [Record(r.tags, r.stamp.value, cost)])
  }

  function After(cfg: Config, w: World, steps: seq<Step>): World {
    if steps == [] then w else Next(cfg, After(cfg, w, steps[..|steps| - 1]), steps[|steps| - 1])
  }

  /** A run: each step is possible where it is taken. */
  predicate Legal(cfg: Config, w: World, steps: seq<Step>) {
    steps == [] ||
    var before := steps[..|steps| - 1];
    Legal(cfg, w, before) && Enabled(cfg, After(cfg, w, before), steps[|steps| - 1])
  }

  /** The requests in flight that a scope's spend counts. */
  function InFlight(w: World, scope: Scope): set<nat> {
    set i | i in w.live && Matches(w.live[i].tags, scope)
  }

  predicate AtMost(cfg: Config, w: World, steps: seq<Step>, scope: Scope, k: nat) {
    |InFlight(After(cfg, w, steps), scope)| <= k
    && (steps == [] || AtMost(cfg, w, steps[..|steps| - 1], scope, k))
  }

  predicate CostsAtMost(steps: seq<Step>, c: real) {
    forall i :: 0 <= i < |steps| && steps[i].Save? ==> steps[i].cost <= c
  }

  predicate CostsNotNegative(steps: seq<Step>) {
    forall i :: 0 <= i < |steps| && steps[i].Save? ==> 0.0 <= steps[i].cost
  }

  // ---------------------------------------------------------------------
  // The requests that no check holds back any more

  /**
   A request whose clock reading is from a month gone by, and which has not passed the scope's check, is
   not checked against the current month. How many of these count: all; with costs that are not negative,
   those that their own month still lets through; none, when no check is made that late.
   */
  datatype Rule = AnyStale | StaleWithRoom | NoStale

  /** The runs that a rule is made for. */
  predicate Obeys(rule: Rule, w: World, step: Step) {
    match rule
    case AnyStale => true
    case StaleWithRoom => step.Save? ==> 0.0 <= step.cost
    case NoStale => step.Check? && step.request in w.live ==> w.live[step.request].month == w.month
  }

  predicate AllObey(cfg: Config, w: World, steps: seq<Step>, rule: Rule) {
    steps == [] ||
    var before := steps[..|steps| - 1];
    AllObey(cfg, w, before, rule) && Obeys(rule, After(cfg, w, before), steps[|steps| - 1])
  }

  predicate Passed(cfg: Config, r: Request, scope: Scope) {
    exists n :: 0 <= n < r.passed && n < |Checked(cfg, r.tags)| && Checked(cfg, r.tags)[n] == scope
  }

  /** The stale requests that count. */
  predicate StaleCounts(cfg: Config, w: World, r: Request, scope: Scope, rule: Rule) {
    match rule
    case AnyStale => true
    case StaleWithRoom => Within(cfg, scope, Spend(w.records, scope, r.month))
    case NoStale => false
  }

  predicate CanAdd(cfg: Config, w: World, r: Request, scope: Scope, month: int, rule: Rule) {
    match r.stamp
    case Some(m) => m == month
    case None =>
      month == w.month && (Passed(cfg, r, scope) || (r.month != month && StaleCounts(cfg, w, r, scope, rule)))
  }

  /** The requests that can add to a month's spend without being checked against it any more. */
  function Unstoppable(cfg: Config, w: World, scope: Scope, month: int, rule: Rule): set<nat> {
    set i | i in InFlight(w, scope) && CanAdd(cfg, w, w.live[i], scope, month, rule)
  }

  predicate AtMostUnstoppable(
    cfg: Config, w: World, steps: seq<Step>, scope: Scope, month: int, rule: Rule, k: nat) {
    |Unstoppable(cfg, After(cfg, w, steps), scope, month, rule)| <= k
    && (steps == [] || AtMostUnstoppable(cfg, w, steps[..|steps| - 1], scope, month, rule, k))
  }

  /** Numbers are fresh, and clocks and timestamps are not ahead. */
  predicate WellFormed(cfg: Config, w: World) {
    && (forall i :: i in w.live ==> RequestWellFormed(cfg, w, i, w.live[i]))
    && (forall j :: 0 <= j < |w.records| ==> w.records[j].month <= w.month)
  }

  predicate RequestWellFormed(cfg: Config, w: World, i: nat, r: Request) {
    && i < w.next && r.month <= w.month && r.passed <= |Checked(cfg, r.tags)|
    && (r.stamp.Some? ==> r.stamp.value <= w.month && IsAdmitted(cfg, r))
  }

  lemma {:induction false} StepWellFormed(cfg: Config, w: World, step: Step)
    requires WellFormed(cfg, w) && Enabled(cfg, w, step)
    ensures WellFormed(cfg, Next(cfg, w, step))
  {
    var w' := Next(cfg, w, step);
    forall i | i in w'.live
      ensures RequestWellFormed(cfg, w', i, w'.live[i])
    {
      assert i in w.live ==> RequestWellFormed(cfg, w, i, w.live[i]);
    }
  }

  lemma {:induction false} AlwaysWellFormed(cfg: Config, start: int, steps: seq<Step>)
    requires Legal(cfg, Initial(start), steps)
    ensures WellFormed(cfg, After(cfg, Initial(start), steps))
  {
    if steps != [] {
      AlwaysWellFormed(cfg, start, steps[..|steps| - 1]);
      StepWellFormed(cfg, After(cfg, Initial(start), steps[..|steps| - 1]), steps[|steps| - 1]);
    }
  }

  // ---------------------------------------------------------------------
  // What one step does to a month that is used up

  /** The month's spend, with what its unstoppable requests can still add. */
  function Potential(cfg: Config, w: World, scope: Scope, month: int, rule: Rule, c: real): real {
    Spend(w.records, scope, month) + Repeat(|Unstoppable(cfg, w, scope, month, rule)|, c)
  }

  lemma {:induction false} SubsetSize<T>(a: set<T>, b: set<T>)
    requires a <= b
    ensures |a| <= |b|
  {
    if a != {} {
      var x :| x in a;
      SubsetSize(a - {x}, b - {x});
    }
  }

  lemma {:induction false} NothingAhead(records: seq<Record>, scope: Scope, month: int)
    requires forall j :: 0 <= j < |records| ==> records[j].month < month
    ensures Spend(records, scope, month) == 0.0
  {
    if records != [] { NothingAhead(records[..|records| - 1], scope, month); }
  }

  /** One record counts for its own month, and for its own team, project and agent. */
  lemma {:induction false} SpendInFull(r: Record, scope: Scope, month: int)
    ensures Spend([], scope, month) == 0.0
    ensures var counts := r.month == month &&
        match scope
        case Global => true
        case Team(name) => r.tags.team == name
        case Project(name) => r.tags.project == name
        case Agent(name) => r.tags.agent == name;
      Spend([r], scope, month) == if counts then r.cost else 0.0
  {
    assert [r][..0] == [];
  }

  lemma {:induction false} SpendAdd(records: seq<Record>, r: Record, scope: Scope, month: int)
    ensures Spend(records + [r], scope, month)
         == Spend(records, scope, month) + (if r.month == month && Matches(r.tags, scope) then r.cost else 0.0)
  {
    assert (records + [r])[..|records|] == records;
  }

  /** With no more requests that can add, and the same records, the potential does not grow. */
  lemma {:induction false} FewerUnstoppable(cfg: Config, w: World, w': World, scope: Scope, month: int, rule: Rule,
      c: real)
    requires 0.0 <= c && w'.records == w.records
    requires Unstoppable(cfg, w', scope, month, rule) <= Unstoppable(cfg, w, scope, month, rule)
    ensures Potential(cfg, w', scope, month, rule, c) <= Potential(cfg, w, scope, month, rule, c)
  {
    var now, was := Unstoppable(cfg, w', scope, month, rule), Unstoppable(cfg, w, scope, month, rule);
    SubsetSize(now, was);
    RepeatMonotone(|now|, |was|, c);
  }

  /** Requests that are still there, unchanged, count no more than before while the clock and the records stand. */
  lemma {:induction false} SameRequests(cfg: Config, w: World, w': World, scope: Scope, month: int, rule: Rule)
    requires w'.records == w.records && w'.month == w.month
    requires forall i :: i in w'.live && (i !in w.live || w.live[i] != w'.live[i]) ==>
      !CanAdd(cfg, w', w'.live[i], scope, month, rule)
    ensures Unstoppable(cfg, w', scope, month, rule) <= Unstoppable(cfg, w, scope, month, rule)
  {
    forall i | i in Unstoppable(cfg, w', scope, month, rule)
      ensures i in Unstoppable(cfg, w, scope, month, rule)
    {
      assert CanAdd(cfg, w', w'.live[i], scope, month, rule);
      assert i in w.live && w.live[i] == w'.live[i];
      assert CanAdd(cfg, w, w.live[i], scope, month, rule);
    }
  }

  lemma {:induction false} TickShrinks(cfg: Config, w: World, d: nat, scope: Scope, month: int, rule: Rule)
    requires month <= w.month
    ensures Unstoppable(cfg, Next(cfg, w, Tick(d)), scope, month, rule) <= Unstoppable(cfg, w, scope, month, rule)
  {
    var w' := Next(cfg, w, Tick(d));
    forall i | i in Unstoppable(cfg, w', scope, month, rule)
      ensures i in Unstoppable(cfg, w, scope, month, rule)
    {
      assert CanAdd(cfg, w', w.live[i], scope, month, rule);
      assert CanAdd(cfg, w, w.live[i], scope, month, rule);
    }
  }

  lemma {:induction false} StartShrinks(cfg: Config, w: World, tags: Tags, scope: Scope, month: int, rule: Rule)
    requires WellFormed(cfg, w) && month <= w.month
    ensures Unstoppable(cfg, Next(cfg, w, Start(tags)), scope, month, rule) <= Unstoppable(cfg, w, scope, month, rule)
  {
    var w' := Next(cfg, w, Start(tags));
    assert !CanAdd(cfg, w', w'.live[w.next], scope, month, rule);
    SameRequests(cfg, w, w', scope, month, rule);
  }

  /** One more check passed: only the scope just checked can become one that the request has passed. */
  lemma {:induction false} PassedOne(cfg: Config, r: Request, scope: Scope)
    requires r.passed < |Checked(cfg, r.tags)|
    ensures Passed(cfg, r.(passed := r.passed + 1), scope)
        <==> Passed(cfg, r, scope) || Checked(cfg, r.tags)[r.passed] == scope
  {
    var r' := r.(passed := r.passed + 1);
    if Checked(cfg, r.tags)[r.passed] == scope { assert Passed(cfg, r', scope); }
    if Passed(cfg, r, scope) {
      var n :| 0 <= n < r.passed && n < |Checked(cfg, r.tags)| && Checked(cfg, r.tags)[n] == scope;
      assert Passed(cfg, r', scope);
    }
  }

  /** Against a month that is used up, passing a check adds no one who counts. */
  lemma {:induction false} PassAddsNothing(cfg: Config, w: World, w': World, i: nat, scope: Scope, month: int,
      rule: Rule)
    requires Enforced(cfg, scope) && WellFormed(cfg, w) && Enabled(cfg, w, Check(i)) && Obeys(rule, w, Check(i))
    requires Spend(w.records, scope, month) >= LimitOf(cfg, scope).value && i in w'.live
    requires w' == Next(cfg, w, Check(i)) && CanAdd(cfg, w', w'.live[i], scope, month, rule)
    ensures CanAdd(cfg, w, w.live[i], scope, month, rule)
  {
    var r := w.live[i];
    PassedOne(cfg, r, scope);
    assert Checked(cfg, r.tags)[r.passed] == scope ==> Within(cfg, scope, Spend(w.records, scope, r.month));
  }

  /** Against a month that is used up, a check lets nothing new through. */
  lemma {:induction false} CheckShrinks(cfg: Config, w: World, i: nat, scope: Scope, month: int, rule: Rule)
    requires Enforced(cfg, scope) && WellFormed(cfg, w) && Enabled(cfg, w, Check(i)) && Obeys(rule, w, Check(i))
    requires Spend(w.records, scope, month) >= LimitOf(cfg, scope).value
    ensures Unstoppable(cfg, Next(cfg, w, Check(i)), scope, month, rule) <= Unstoppable(cfg, w, scope, month, rule)
  {
    var w' := Next(cfg, w, Check(i));
    forall j | j in Unstoppable(cfg, w', scope, month, rule)
      ensures j in Unstoppable(cfg, w, scope, month, rule)
    {
      assert CanAdd(cfg, w', w'.live[j], scope, month, rule);
      if j == i {
        PassAddsNothing(cfg, w, w', i, scope, month, rule);
      } else {
        assert CanAdd(cfg, w, w.live[j], scope, month, rule);
      }
    }
  }

  lemma {:induction false} FinishShrinks(cfg: Config, w: World, i: nat, scope: Scope, month: int, rule: Rule)
    requires Enabled(cfg, w, Finish(i))
    ensures Unstoppable(cfg, Next(cfg, w, Finish(i)), scope, month, rule) <= Unstoppable(cfg, w, scope, month, rule)
  {
    SameRequests(cfg, w, Next(cfg, w, Finish(i)), scope, month, rule);
  }

  lemma {:induction false} AdmittedHasPassed(cfg: Config, r: Request, scope: Scope)
    requires Enforced(cfg, scope) && IsAdmitted(cfg, r) && Matches(r.tags, scope)
    ensures Passed(cfg, r, scope)
  {
    EnforcedIsChecked(cfg, r.tags, scope);
    var n :| 0 <= n < |Checked(cfg, r.tags)| && Checked(cfg, r.tags)[n] == scope;
  }

  /** A request that gets its timestamp has passed the scope's check. */
  lemma {:induction false} StampShrinks(cfg: Config, w: World, i: nat, scope: Scope, month: int, rule: Rule)
    requires Enforced(cfg, scope) && Enabled(cfg, w, Stamp(i))
    ensures Unstoppable(cfg, Next(cfg, w, Stamp(i)), scope, month, rule) <= Unstoppable(cfg, w, scope, month, rule)
  {
    var w', r := Next(cfg, w, Stamp(i)), w.live[i];
    if Matches(r.tags, scope) { AdmittedHasPassed(cfg, r, scope); }
    forall j | j in Unstoppable(cfg, w', scope, month, rule)
      ensures j in Unstoppable(cfg, w, scope, month, rule)
    {
      assert CanAdd(cfg, w', w'.live[j], scope, month, rule);
      assert CanAdd(cfg, w, w.live[j], scope, month, rule);
    }
  }

  /** A saved record takes its request away, and leaves no more room in any month. */
  lemma {:induction false} SaveShrinks(cfg: Config, w: World, i: nat, cost: real, scope: Scope, month: int, rule: Rule)
    requires Enabled(cfg, w, Save(i, cost)) && Obeys(rule, w, Save(i, cost))
    ensures Unstoppable(cfg, Next(cfg, w, Save(i, cost)), scope, month, rule)
         <= Unstoppable(cfg, w, scope, month, rule) - {i}
  {
    var w', r := Next(cfg, w, Save(i, cost)), w.live[i];
    forall j | j in Unstoppable(cfg, w', scope, month, rule)
      ensures j in Unstoppable(cfg, w, scope, month, rule) - {i}
    {
      SpendAdd(w.records, Record(r.tags, r.stamp.value, cost), scope, w.live[j].month);
      assert CanAdd(cfg, w', w'.live[j], scope, month, rule);
      assert CanAdd(cfg, w, w.live[j], scope, month, rule);
    }
  }

  lemma {:induction false} SaveCount(cfg: Config, w: World, i: nat, cost: real, scope: Scope, month: int, rule: Rule)
    requires Enabled(cfg, w, Save(i, cost)) && Obeys(rule, w, Save(i, cost))
    ensures var was, now := Unstoppable(cfg, w, scope, month, rule),
                            Unstoppable(cfg, Next(cfg, w, Save(i, cost)), scope, month, rule);
      |now| + (if w.live[i].stamp.value == month && Matches(w.live[i].tags, scope) then 1 else 0) <= |was|
  {
    var was, now := Unstoppable(cfg, w, scope, month, rule),
                    Unstoppable(cfg, Next(cfg, w, Save(i, cost)), scope, month, rule);
    SaveShrinks(cfg, w, i, cost, scope, month, rule);
    SubsetSize(now, was - {i});
    if w.live[i].stamp.value == month && Matches(w.live[i].tags, scope) { assert i in was; }
  }

  lemma {:induction false} SavePotential(cfg: Config, w: World, i: nat, cost: real, scope: Scope, month: int,
      rule: Rule, c: real)
    requires 0.0 <= c && cost <= c && Enabled(cfg, w, Save(i, cost)) && Obeys(rule, w, Save(i, cost))
    ensures Potential(cfg, Next(cfg, w, Save(i, cost)), scope, month, rule, c)
         <= Potential(cfg, w, scope, month, rule, c)
  {
    var was, now := Unstoppable(cfg, w, scope, month, rule),
                    Unstoppable(cfg, Next(cfg, w, Save(i, cost)), scope, month, rule);
    SpendAdd(w.records, Record(w.live[i].tags, w.live[i].stamp.value, cost), scope, month);
    SaveCount(cfg, w, i, cost, scope, month, rule);
    RepeatMonotone(|now|, |was|, c);
  }

  /** While a month is used up, no step adds to its potential. */
  lemma {:induction false} StepPotential(cfg: Config, w: World, step: Step, scope: Scope, month: int, rule: Rule,
      c: real)
    requires Enforced(cfg, scope) && 0.0 <= c && WellFormed(cfg, w) && Enabled(cfg, w, step) && Obeys(rule, w, step)
    requires (step.Save? ==> step.cost <= c) && month <= w.month
    requires Spend(Next(cfg, w, step).records, scope, month) >= LimitOf(cfg, scope).value
    ensures Potential(cfg, Next(cfg, w, step), scope, month, rule, c) <= Potential(cfg, w, scope, month, rule, c)
  {
    var w' := Next(cfg, w, step);
    match step {
      case Tick(d) => TickShrinks(cfg, w, d, scope, month, rule);
      case Start(tags) => StartShrinks(cfg, w, tags, scope, month, rule);
      case Check(i) => CheckShrinks(cfg, w, i, scope, month, rule);
      case Finish(i) => FinishShrinks(cfg, w, i, scope, month, rule);
      case Stamp(i) => StampShrinks(cfg, w, i, scope, month, rule);
      case Save(i, cost) => SavePotential(cfg, w, i, cost, scope, month, rule, c);
    }
    if !step.Save? { FewerUnstoppable(cfg, w, w', scope, month, rule, c); }
  }

  // ---------------------------------------------------------------------
  // The overspend bound

  /** Once the month has begun, its potential is within the limit and the allowance. */
  predicate Bounded(cfg: Config, w: World, scope: Scope, month: int, rule: Rule, k: nat, c: real)
    requires Enforced(cfg, scope)
  {
    month <= w.month ==> Potential(cfg, w, scope, month, rule, c) < LimitOf(cfg, scope).value + Repeat(k, c)
  }

  lemma {:induction false} WithinIsBounded(cfg: Config, w: World, scope: Scope, month: int, rule: Rule, k: nat, c: real)
    requires Enforced(cfg, scope) && 0.0 <= c && |Unstoppable(cfg, w, scope, month, rule)| <= k
    requires Spend(w.records, scope, month) < LimitOf(cfg, scope).value
    ensures Bounded(cfg, w, scope, month, rule, k, c)
  {
    RepeatMonotone(|Unstoppable(cfg, w, scope, month, rule)|, k, c);
  }

  lemma {:induction false} StepBounded(cfg: Config, w: World, step: Step, scope: Scope, month: int, rule: Rule,
      k: nat, c: real)
    requires Enforced(cfg, scope) && 0.0 <= c && WellFormed(cfg, w) && Enabled(cfg, w, step) && Obeys(rule, w, step)
    requires (step.Save? ==> step.cost <= c) && Bounded(cfg, w, scope, month, rule, k, c)
    requires |Unstoppable(cfg, Next(cfg, w, step), scope, month, rule)| <= k
    ensures Bounded(cfg, Next(cfg, w, step), scope, month, rule, k, c)
  {
    var w' := Next(cfg, w, step);
    if Spend(w'.records, scope, month) < LimitOf(cfg, scope).value {
      WithinIsBounded(cfg, w', scope, month, rule, k, c);
    } else if month <= w.month {
      StepPotential(cfg, w, step, scope, month, rule, c);
    } else if step.Tick? {
      NothingAhead(w.records, scope, month);
    }
  }

  lemma {:induction false} PotentialIsBounded(
      cfg: Config, start: int, steps: seq<Step>, scope: Scope, month: int, rule: Rule, k: nat, c: real)
    requires Enforced(cfg, scope) && 0.0 <= c && Legal(cfg, Initial(start), steps) && CostsAtMost(steps, c)
    requires AllObey(cfg, Initial(start), steps, rule)
    requires AtMostUnstoppable(cfg, Initial(start), steps, scope, month, rule, k)
    ensures Bounded(cfg, After(cfg, Initial(start), steps), scope, month, rule, k, c)
  {
    if steps == [] {
      WithinIsBounded(cfg, Initial(start), scope, month, rule, k, c);
    } else {
      var before, step := steps[..|steps| - 1], steps[|steps| - 1];
      AlwaysWellFormed(cfg, start, before);
      PotentialIsBounded(cfg, start, before, scope, month, rule, k, c);
      StepBounded(cfg, After(cfg, Initial(start), before), step, scope, month, rule, k, c);
    }
  }

  /**
   The overspend bound: if a record costs at most c, and at most k requests are ever unstoppable for a
   month, then in every interleaving the scope's spend in that month stays below its limit plus k times c.
   */
  lemma {:induction false} UnstoppableBoundsSpend(
      cfg: Config, start: int, steps: seq<Step>, scope: Scope, month: int, rule: Rule, k: nat, c: real)
    requires Enforced(cfg, scope) && 0.0 <= c && Legal(cfg, Initial(start), steps) && CostsAtMost(steps, c)
    requires AllObey(cfg, Initial(start), steps, rule)
    requires AtMostUnstoppable(cfg, Initial(start), steps, scope, month, rule, k)
    ensures Spend(After(cfg, Initial(start), steps).records, scope, month)
          < LimitOf(cfg, scope).value + k as real * c
  {
    var w := After(cfg, Initial(start), steps);
    PotentialIsBounded(cfg, start, steps, scope, month, rule, k, c);
    AlwaysWellFormed(cfg, start, steps);
    RepeatMonotone(0, |Unstoppable(cfg, w, scope, month, rule)|, c);
    RepeatMonotone(0, k, c);
    RepeatProduct(k, c);
    if month > w.month { NothingAhead(w.records, scope, month); }
  }

  lemma {:induction false} InFlightCovers(cfg: Config, w: World, steps: seq<Step>, scope: Scope, month: int, k: nat)
    requires Legal(cfg, w, steps) && AtMost(cfg, w, steps, scope, k)
    ensures AtMostUnstoppable(cfg, w, steps, scope, month, AnyStale, k) && AllObey(cfg, w, steps, AnyStale)
  {
    var end := After(cfg, w, steps);
    SubsetSize(Unstoppable(cfg, end, scope, month, AnyStale), InFlight(end, scope));
    if steps != [] { InFlightCovers(cfg, w, steps[..|steps| - 1], scope, month, k); }
  }

  /** In particular k can count the scope's requests in flight between their clock reading and their record. */
  lemma {:induction false} OverspendIsBounded(cfg: Config, start: int, steps: seq<Step>, scope: Scope, month: int,
      k: nat, c: real)
    requires Enforced(cfg, scope) && 0.0 <= c && Legal(cfg, Initial(start), steps)
    requires CostsAtMost(steps, c) && AtMost(cfg, Initial(start), steps, scope, k)
    ensures Spend(After(cfg, Initial(start), steps).records, scope, month)
          < LimitOf(cfg, scope).value + k as real * c
  {
    InFlightCovers(cfg, Initial(start), steps, scope, month, k);
    UnstoppableBoundsSpend(cfg, start, steps, scope, month, AnyStale, k, c);
  }

  // ---------------------------------------------------------------------
  // When it is enough to count admitted requests

  /** The scope's check is the last one of every request that it concerns. */
  ghost predicate ComesLast(cfg: Config, scope: Scope) {
    forall tags, n :: 0 <= n < |Checked(cfg, tags)| && Checked(cfg, tags)[n] == scope ==> n == |Checked(cfg, tags)| - 1
  }

  /** The scope's requests that have passed all their checks and have no record yet. */
  function AdmittedOf(cfg: Config, w: World, scope: Scope): set<nat> {
    set i | i in InFlight(w, scope) && IsAdmitted(cfg, w.live[i])
  }

  predicate AtMostAdmitted(cfg: Config, w: World, steps: seq<Step>, scope: Scope, k: nat) {
    |AdmittedOf(cfg, After(cfg, w, steps), scope)| <= k
    && (steps == [] || AtMostAdmitted(cfg, w, steps[..|steps| - 1], scope, k))
  }

  lemma {:induction false} AdmittedCovers(cfg: Config, start: int, steps: seq<Step>, scope: Scope, month: int, k: nat)
    requires Legal(cfg, Initial(start), steps) && AtMostAdmitted(cfg, Initial(start), steps, scope, k)
    requires ComesLast(cfg, scope)
    ensures AtMostUnstoppable(cfg, Initial(start), steps, scope, month, NoStale, k)
  {
    var w := After(cfg, Initial(start), steps);
    var u := Unstoppable(cfg, w, scope, month, NoStale);
    AlwaysWellFormed(cfg, start, steps);
    forall i | i in u
      ensures i in AdmittedOf(cfg, w, scope)
    {
      assert RequestWellFormed(cfg, w, i, w.live[i]) && CanAdd(cfg, w, w.live[i], scope, month, NoStale);
    }
    SubsetSize(u, AdmittedOf(cfg, w, scope));
    if steps != [] { AdmittedCovers(cfg, start, steps[..|steps| - 1], scope, month, k); }
  }

  /**
   When no request is checked after the month of its clock reading has ended, and the scope's check is the
   last one, k need only count the scope's requests that are admitted and have no record yet.
   */
  lemma {:induction false} AdmittedBoundsSpend(cfg: Config, start: int, steps: seq<Step>, scope: Scope, month: int,
      k: nat, c: real)
    requires Enforced(cfg, scope) && 0.0 <= c && Legal(cfg, Initial(start), steps) && CostsAtMost(steps, c)
    requires AllObey(cfg, Initial(start), steps, NoStale) && ComesLast(cfg, scope)
    requires AtMostAdmitted(cfg, Initial(start), steps, scope, k)
    ensures Spend(After(cfg, Initial(start), steps).records, scope, month)
          < LimitOf(cfg, scope).value + k as real * c
  {
    AdmittedCovers(cfg, start, steps, scope, month, k);
    UnstoppableBoundsSpend(cfg, start, steps, scope, month, NoStale, k, c);
  }

  function LastCheck(cfg: Config, tags: Tags): Scope
    requires Checked(cfg, tags) != []
  {
    Checked(cfg, tags)[|Checked(cfg, tags)| - 1]
  }

  /** No scope is checked twice. */
  lemma {:induction false} CheckedOnce(cfg: Config, tags: Tags, n: nat, i: nat, j: nat)
    requires n <= 4 && i < j < |FirstChecked(cfg, tags, n)|
    ensures FirstChecked(cfg, tags, n)[i] != FirstChecked(cfg, tags, n)[j]
  {
    var before, scope := FirstChecked(cfg, tags, n - 1), AllScopes(tags)[n - 1];
    if j < |before| {
      CheckedOnce(cfg, tags, n - 1, i, j);
    } else {
      CheckedMembers(cfg, tags, before[i], n - 1);
      assert before[i] in AllScopes(tags)[..n - 1];
    }
  }

  /** The scope comes last exactly when it is the last check of every request that its spend counts. */
  lemma {:induction false} ComesLastExactly(cfg: Config, scope: Scope)
    requires Enforced(cfg, scope)
    ensures ComesLast(cfg, scope)
       <==> forall tags :: Matches(tags, scope) ==> Checked(cfg, tags) != [] && LastCheck(cfg, tags) == scope
  {
    forall tags | Matches(tags, scope)
      ensures Checked(cfg, tags) != []
      ensures ComesLast(cfg, scope) ==> LastCheck(cfg, tags) == scope
    {
      EnforcedIsChecked(cfg, tags, scope);
    }
    forall tags, n | 0 <= n < |Checked(cfg, tags)| - 1 && Checked(cfg, tags)[n] == scope
      ensures Matches(tags, scope) && LastCheck(cfg, tags) != scope
    {
      CheckedMatch(cfg, tags, scope);
      CheckedOnce(cfg, tags, 4, n, |Checked(cfg, tags)| - 1);
    }
  }

  /** An agent's limit is always checked last. */
  lemma {:induction false} AgentsComeLast(cfg: Config, agent: string)
    ensures ComesLast(cfg, Agent(agent))
  {
    forall tags, n | 0 <= n < |Checked(cfg, tags)| && Checked(cfg, tags)[n] == Agent(agent)
      ensures n == |Checked(cfg, tags)| - 1
    {
      var first := FirstChecked(cfg, tags, 3);
      CheckedMembers(cfg, tags, Agent(agent), 3);
      assert AllScopes(tags)[..3] == [Global, Team(tags.team), Project(tags.project)];
      assert forall j :: 0 <= j < |first| ==> first[j] in first;
    }
  }

  /** So is the monthly limit when it is the only one. */
  predicate GlobalOnly(cfg: Config) {
    cfg.teams == map[] && cfg.projects == map[] && cfg.agents == map[]
  }

  lemma {:induction false} GlobalAlone(cfg: Config, tags: Tags)
    requires GlobalOnly(cfg) && Enforced(cfg, Global)
    ensures Checked(cfg, tags) == [Global]
  {
    assert FirstChecked(cfg, tags, 1) == [Global];
    assert FirstChecked(cfg, tags, 2) == [Global];
    assert FirstChecked(cfg, tags, 3) == [Global];
  }

  lemma {:induction false} GlobalComesLast(cfg: Config)
    requires GlobalOnly(cfg) && Enforced(cfg, Global)
    ensures ComesLast(cfg, Global)
  {
    forall tags, n | 0 <= n < |Checked(cfg, tags)| && Checked(cfg, tags)[n] == Global
      ensures n == |Checked(cfg, tags)| - 1
    {
      GlobalAlone(cfg, tags);
    }
  }

  // ---------------------------------------------------------------------
  // The bound from both sides

  /** The month is used up, and its potential is no more than p. */
  predicate UsedUp(cfg: Config, w: World, scope: Scope, month: int, c: real, p: real)
    requires Enforced(cfg, scope)
  {
    && month <= w.month && Spend(w.records, scope, month) >= LimitOf(cfg, scope).value
    && Potential(cfg, w, scope, month, StaleWithRoom, c) <= p
  }

  lemma {:induction false} UsedUpStep(cfg: Config, w: World, step: Step, scope: Scope, month: int, c: real, p: real)
    requires Enforced(cfg, scope) && 0.0 <= c && WellFormed(cfg, w) && Enabled(cfg, w, step)
    requires (step.Save? ==> 0.0 <= step.cost <= c) && UsedUp(cfg, w, scope, month, c, p)
    ensures UsedUp(cfg, Next(cfg, w, step), scope, month, c, p)
  {
    SpendGrows(cfg, w, step, scope, month);
    StepPotential(cfg, w, step, scope, month, StaleWithRoom, c);
  }

  /** Once a month is used up, its potential never grows, whatever the rest of the run does. */
  lemma {:induction false} UsedUpStays(
      cfg: Config, start: int, before: seq<Step>, more: seq<Step>, scope: Scope, month: int, c: real, p: real)
    requires Enforced(cfg, scope) && 0.0 <= c && Legal(cfg, Initial(start), before)
    requires Legal(cfg, Initial(start), before + more) && CostsAtMost(more, c) && CostsNotNegative(more)
    requires UsedUp(cfg, After(cfg, Initial(start), before), scope, month, c, p)
    ensures UsedUp(cfg, After(cfg, Initial(start), before + more), scope, month, c, p)
    decreases |more|
  {
    if more == [] {
      assert before + more == before;
    } else {
      var n := |more| - 1;
      var init, step := before + more[..n], more[n];
      assert (before + more)[..|before + more| - 1] == init && (before + more)[|before + more| - 1] == step;
      UsedUpStays(cfg, start, before, more[..n], scope, month, c, p);
      AlwaysWellFormed(cfg, start, init);
      UsedUpStep(cfg, After(cfg, Initial(start), init), step, scope, month, c, p);
    }
  }

  lemma {:induction false} SpendGrows(cfg: Config, w: World, step: Step, scope: Scope, month: int)
    requires Enabled(cfg, w, step) && (step.Save? ==> 0.0 <= step.cost)
    ensures Spend(Next(cfg, w, step).records, scope, month) >= Spend(w.records, scope, month)
  {
    if step.Save? {
      var r := w.live[step.request];
      SpendAdd(w.records, Record(r.tags, r.stamp.value, step.cost), scope, month);
    }
  }

  /** From a month that is used up, u unstoppable requests add at most u times c to it, in every continuation. */
  lemma {:induction false} AtMostTheUnstoppable(
      cfg: Config, start: int, before: seq<Step>, more: seq<Step>, scope: Scope, u: nat, c: real)
    requires Enforced(cfg, scope) && 0.0 <= c && Legal(cfg, Initial(start), before)
    requires Legal(cfg, Initial(start), before + more) && CostsAtMost(more, c) && CostsNotNegative(more)
    requires var w := After(cfg, Initial(start), before);
      && Spend(w.records, scope, w.month) >= LimitOf(cfg, scope).value
      && u == |Unstoppable(cfg, w, scope, w.month, StaleWithRoom)|
    ensures var w, w' := After(cfg, Initial(start), before), After(cfg, Initial(start), before + more);
      Spend(w'.records, scope, w.month) <= Spend(w.records, scope, w.month) + u as real * c
  {
    var w, w' := After(cfg, Initial(start), before), After(cfg, Initial(start), before + more);
    RepeatProduct(u, c);
    UsedUpStays(cfg, start, before, more, scope, w.month, c, Spend(w.records, scope, w.month) + Repeat(u, c));
    RepeatMonotone(0, |Unstoppable(cfg, w', scope, w.month, StaleWithRoom)|, c);
  }

  lemma {:induction false} StepOn(cfg: Config, w: World, steps: seq<Step>, step: Step)
    requires Legal(cfg, w, steps) && Enabled(cfg, After(cfg, w, steps), step)
    ensures Legal(cfg, w, steps + [step])
    ensures After(cfg, w, steps + [step]) == Next(cfg, After(cfg, w, steps), step)
  {
    assert (steps + [step])[..|steps|] == steps;
  }

  /** Every record costs c. */
  predicate Priced(steps: seq<Step>, c: real) {
    forall i :: 0 <= i < |steps| && steps[i].Save? ==> steps[i].cost == c
  }

  /** The checks that a request has still to pass let it through, even if v more records of c each come first. */
  predicate HasRoom(cfg: Config, w: World, r: Request, v: nat, c: real) {
    forall n :: r.passed <= n < |Checked(cfg, r.tags)| ==> CheckHasRoom(cfg, w, r, Checked(cfg, r.tags)[n], v, c)
  }

  predicate CheckHasRoom(cfg: Config, w: World, r: Request, scope: Scope, v: nat, c: real) {
    Within(cfg, scope, Spend(w.records, scope, r.month) + if r.month == w.month then Repeat(v, c) else 0.0)
  }

  /** All requests that are unstoppable for the current month can get that far. */
  predicate AllHaveRoom(cfg: Config, w: World, scope: Scope, v: nat, c: real) {
    forall i :: i in Unstoppable(cfg, w, scope, w.month, StaleWithRoom) ==> HasRoom(cfg, w, w.live[i], v, c)
  }

  lemma {:induction false} WithinLess(cfg: Config, scope: Scope, less: real, more: real)
    requires Within(cfg, scope, more) && less <= more
    ensures Within(cfg, scope, less)
  {
  }

  /** A request with room passes its next check. */
  lemma {:induction false} RoomPasses(cfg: Config, w: World, i: nat, v: nat, c: real)
    requires i in w.live && !IsAdmitted(cfg, w.live[i]) && HasRoom(cfg, w, w.live[i], v, c) && 0.0 <= c
    ensures Next(cfg, w, Check(i)) == w.(live := w.live[i := w.live[i].(passed := w.live[i].passed + 1)])
  {
    var r := w.live[i];
    var next := Checked(cfg, r.tags)[r.passed];
    assert CheckHasRoom(cfg, w, r, next, v, c);
    RepeatMonotone(0, v, c);
    WithinLess(cfg, next, Spend(w.records, next, r.month),
               Spend(w.records, next, r.month) + if r.month == w.month then Repeat(v, c) else 0.0);
  }

  lemma {:induction false} RoomStays(cfg: Config, w: World, w': World, r: Request, v: nat, c: real)
    requires HasRoom(cfg, w, r, v, c) && w'.month == w.month && w'.records == w.records
    ensures HasRoom(cfg, w', r.(passed := r.passed + 1), v, c)
  {
    forall n | r.passed + 1 <= n < |Checked(cfg, r.tags)|
      ensures CheckHasRoom(cfg, w', r.(passed := r.passed + 1), Checked(cfg, r.tags)[n], v, c)
    {
      assert CheckHasRoom(cfg, w, r, Checked(cfg, r.tags)[n], v, c);
    }
  }

  /** Request i, unstoppable for the current month, stays so when it passes its next check. */
  lemma {:induction false} PassOne(cfg: Config, w: World, w': World, scope: Scope, i: nat, r: Request)
    requires WellFormed(cfg, w) && i in Unstoppable(cfg, w, scope, w.month, StaleWithRoom)
    requires r == w.live[i] && !IsAdmitted(cfg, r)
    requires w' == w.(live := w.live[i := r.(passed := r.passed + 1)])
    ensures Unstoppable(cfg, w', scope, w.month, StaleWithRoom) == Unstoppable(cfg, w, scope, w.month, StaleWithRoom)
  {
    assert RequestWellFormed(cfg, w, i, r) && r.stamp.None?;
    PassedOne(cfg, r, scope);
    assert CanAdd(cfg, w', w'.live[i], scope, w.month, StaleWithRoom);
    forall j | j in w.live && j != i
      ensures CanAdd(cfg, w', w'.live[j], scope, w.month, StaleWithRoom)
          <==> CanAdd(cfg, w, w.live[j], scope, w.month, StaleWithRoom)
    {
    }
  }

  lemma {:induction false} StampOne(cfg: Config, w: World, scope: Scope, i: nat)
    requires WellFormed(cfg, w) && i in w.live && w.live[i].stamp.None?
    requires i in Unstoppable(cfg, w, scope, w.month, StaleWithRoom) && IsAdmitted(cfg, w.live[i])
    ensures var w' := Next(cfg, w, Stamp(i));
      && w'.month == w.month && w'.records == w.records && i in w'.live && w'.live[i].stamp == Some(w.month)
      && Unstoppable(cfg, w', scope, w.month, StaleWithRoom) == Unstoppable(cfg, w, scope, w.month, StaleWithRoom)
  {
    var w' := Next(cfg, w, Stamp(i));
    forall j | j in w.live
      ensures CanAdd(cfg, w', w'.live[j], scope, w.month, StaleWithRoom)
          <==> CanAdd(cfg, w, w.live[j], scope, w.month, StaleWithRoom)
    {
    }
  }

  lemma {:induction false} SaveOne(cfg: Config, w: World, scope: Scope, i: nat, c: real)
    requires i in w.live && w.live[i].stamp == Some(w.month) && Matches(w.live[i].tags, scope)
    ensures var w' := Next(cfg, w, Save(i, c));
      && w'.month == w.month && Spend(w'.records, scope, w.month) == Spend(w.records, scope, w.month) + c
      && Unstoppable(cfg, w', scope, w.month, StaleWithRoom)
         == Unstoppable(cfg, w, scope, w.month, StaleWithRoom) - {i}
  {
    var r, w' := w.live[i], Next(cfg, w, Save(i, c));
    SpendAdd(w.records, Record(r.tags, w.month, c), scope, w.month);
    forall j | j in w'.live
      ensures CanAdd(cfg, w', w'.live[j], scope, w.month, StaleWithRoom)
          <==> CanAdd(cfg, w, w.live[j], scope, w.month, StaleWithRoom)
    {
      SpendAdd(w.records, Record(r.tags, w.month, c), scope, w.live[j].month);
    }
  }

  lemma {:induction false} Regroup(a: seq<Step>, b: seq<Step>, c: seq<Step>)
    ensures a + (b + c) == a + b + c
  {
  }

  predicate Reaches(cfg: Config, start: int, steps: seq<Step>, w: World) {
    Legal(cfg, Initial(start), steps) && After(cfg, Initial(start), steps) == w
  }

  lemma {:induction false} ReachOn(cfg: Config, start: int, steps: seq<Step>, w: World, step: Step)
    requires Reaches(cfg, start, steps, w) && Enabled(cfg, w, step)
    ensures Reaches(cfg, start, steps + [step], Next(cfg, w, step))
  {
    StepOn(cfg, Initial(start), steps, step);
  }

  /** Request i is stamped for the current month; the other requests and the records are as they were. */
  predicate Prepared(cfg: Config, w: World, w': World, scope: Scope, i: nat) {
    && w'.month == w.month && w'.records == w.records && w'.live.Keys == w.live.Keys
    && (forall j :: j in w.live && j != i ==> w'.live[j] == w.live[j])
    && i in w.live && w'.live[i].tags == w.live[i].tags && w'.live[i].stamp == Some(w.month)
    && Unstoppable(cfg, w', scope, w.month, StaleWithRoom) == Unstoppable(cfg, w, scope, w.month, StaleWithRoom)
  }

  lemma {:induction false} PrepareAdmitted(cfg: Config, start: int, steps: seq<Step>, w: World, scope: Scope, i: nat)
    returns (more: seq<Step>, w': World)
    requires Reaches(cfg, start, steps, w) && WellFormed(cfg, w)
    requires i in Unstoppable(cfg, w, scope, w.month, StaleWithRoom) && IsAdmitted(cfg, w.live[i])
    ensures forall s :: s in more ==> !s.Save?
    ensures Reaches(cfg, start, steps + more, w') && Prepared(cfg, w, w', scope, i)
  {
    if w.live[i].stamp.Some? {
      more, w' := [], w;
      assert steps + more == steps;
    } else {
      StampOne(cfg, w, scope, i);
      ReachOn(cfg, start, steps, w, Stamp(i));
      more, w' := [Stamp(i)], Next(cfg, w, Stamp(i));
    }
  }

  /** Request i passes the checks that are left and gets as far as its timestamp. */
  lemma {:induction false} Prepare(
      cfg: Config, start: int, steps: seq<Step>, w: World, scope: Scope, i: nat, v: nat, c: real)
    returns (more: seq<Step>, w': World)
    requires Reaches(cfg, start, steps, w) && WellFormed(cfg, w) && 0.0 <= c
    requires i in Unstoppable(cfg, w, scope, w.month, StaleWithRoom) && HasRoom(cfg, w, w.live[i], v, c)
    ensures forall s :: s in more ==> !s.Save?
    ensures Reaches(cfg, start, steps + more, w') && Prepared(cfg, w, w', scope, i)
    decreases |Checked(cfg, w.live[i].tags)| - w.live[i].passed
  {
    if IsAdmitted(cfg, w.live[i]) {
      more, w' := PrepareAdmitted(cfg, start, steps, w, scope, i);
    } else {
      var r := w.live[i];
      var checked := w.(live := w.live[i := r.(passed := r.passed + 1)]);
      RoomPasses(cfg, w, i, v, c);
      RoomStays(cfg, w, checked, r, v, c);
      PassOne(cfg, w, checked, scope, i, r);
      StepWellFormed(cfg, w, Check(i));
      ReachOn(cfg, start, steps, w, Check(i));
      var rest;
      rest, w' := Prepare(cfg, start, steps + [Check(i)], checked, scope, i, v, c);
      more := [Check(i)] + rest;
      Regroup(steps, [Check(i)], rest);
    }
  }

  /** What is left of the room once one record of c is there. */
  lemma {:induction false} RoomAfterSave(cfg: Config, w: World, r: Request, record: Record, v: nat, w': World)
    requires v >= 1 && record.month == w.month == w'.month && 0.0 <= record.cost
    requires w'.records == w.records + [record] && HasRoom(cfg, w, r, v, record.cost)
    ensures HasRoom(cfg, w', r, v - 1, record.cost)
  {
    forall n | r.passed <= n < |Checked(cfg, r.tags)|
      ensures CheckHasRoom(cfg, w', r, Checked(cfg, r.tags)[n], v - 1, record.cost)
    {
      var scope := Checked(cfg, r.tags)[n];
      assert CheckHasRoom(cfg, w, r, scope, v, record.cost);
      SpendAdd(w.records, record, scope, r.month);
      WithinLess(cfg, scope,
                 Spend(w'.records, scope, r.month) + (if r.month == w.month then Repeat(v - 1, record.cost) else 0.0),
                 Spend(w.records, scope, r.month) + (if r.month == w.month then Repeat(v, record.cost) else 0.0));
    }
  }

  /** Serving one unstoppable request adds c, and leaves the others unstoppable, with room for one fewer. */
  lemma {:induction false} ServeUnstoppable(
      cfg: Config, start: int, steps: seq<Step>, w: World, scope: Scope, i: nat, v: nat, c: real)
    returns (more: seq<Step>, w': World)
    requires Reaches(cfg, start, steps, w) && 0.0 <= c && v >= 1 && AllHaveRoom(cfg, w, scope, v, c)
    requires i in Unstoppable(cfg, w, scope, w.month, StaleWithRoom)
    ensures Priced(more, c) && Reaches(cfg, start, steps + more, w') && AllHaveRoom(cfg, w', scope, v - 1, c)
    ensures w'.month == w.month && Spend(w'.records, scope, w.month) == Spend(w.records, scope, w.month) + c
    ensures Unstoppable(cfg, w', scope, w.month, StaleWithRoom)
         == Unstoppable(cfg, w, scope, w.month, StaleWithRoom) - {i}
  {
    AlwaysWellFormed(cfg, start, steps);
    var ready, w1 := Prepare(cfg, start, steps, w, scope, i, v, c);
    SaveOne(cfg, w1, scope, i, c);
    ReachOn(cfg, start, steps + ready, w1, Save(i, c));
    more, w' := ready + [Save(i, c)], Next(cfg, w1, Save(i, c));
    Regroup(steps, ready, [Save(i, c)]);
    forall j | j in Unstoppable(cfg, w', scope, w.month, StaleWithRoom)
      ensures HasRoom(cfg, w', w'.live[j], v - 1, c)
    {
      assert w'.live[j] == w.live[j];
      RoomAfterSave(cfg, w, w.live[j], Record(w.live[i].tags, w.month, c), v, w');
    }
  }

  lemma {:induction false} PricedOn(a: seq<Step>, b: seq<Step>, c: real)
    requires Priced(a, c) && Priced(b, c)
    ensures Priced(a + b, c)
  {
  }

  lemma {:induction false} AddAll(
      cfg: Config, start: int, steps: seq<Step>, w: World, scope: Scope, u: set<nat>, c: real)
    returns (more: seq<Step>, w': World)
    requires Reaches(cfg, start, steps, w) && 0.0 <= c && AllHaveRoom(cfg, w, scope, |u|, c)
    requires u == Unstoppable(cfg, w, scope, w.month, StaleWithRoom)
    ensures Reaches(cfg, start, steps + more, w') && Priced(more, c)
    ensures Spend(w'.records, scope, w.month) == Spend(w.records, scope, w.month) + Repeat(|u|, c)
    decreases |u|
  {
    if u == {} {
      more, w' := [], w;
      assert steps + more == steps;
    } else {
      var i :| i in u;
      var one, w1 := ServeUnstoppable(cfg, start, steps, w, scope, i, |u|, c);
      var rest;
      rest, w' := AddAll(cfg, start, steps + one, w1, scope, u - {i}, c);
      more := one + rest;
      PricedOn(one, rest, c);
      Regroup(steps, one, rest);
    }
  }

  /**
   And they can do it, for any scope: when the checks that its unstoppable requests have still to pass have
   room for all of them, some continuation adds exactly that much.
   */
  lemma {:induction false} AllTheUnstoppable(
      cfg: Config, start: int, steps: seq<Step>, scope: Scope, u: nat, c: real)
    returns (more: seq<Step>)
    requires 0.0 <= c && Legal(cfg, Initial(start), steps)
    requires var w := After(cfg, Initial(start), steps);
      u == |Unstoppable(cfg, w, scope, w.month, StaleWithRoom)| && AllHaveRoom(cfg, w, scope, u, c)
    ensures Legal(cfg, Initial(start), steps + more) && CostsAtMost(more, c) && CostsNotNegative(more)
    ensures var w, w' := After(cfg, Initial(start), steps), After(cfg, Initial(start), steps + more);
      Spend(w'.records, scope, w.month) == Spend(w.records, scope, w.month) + u as real * c
  {
    var w := After(cfg, Initial(start), steps);
    RepeatProduct(u, c);
    var w';
    more, w' := AddAll(cfg, start, steps, w, scope, Unstoppable(cfg, w, scope, w.month, StaleWithRoom), c);
  }

  /** With the monthly limit alone there is always room. */
  lemma {:induction false} GlobalHasRoom(cfg: Config, w: World, v: nat, c: real)
    requires GlobalOnly(cfg) && Enforced(cfg, Global) && WellFormed(cfg, w)
    ensures AllHaveRoom(cfg, w, Global, v, c)
  {
    forall i | i in Unstoppable(cfg, w, Global, w.month, StaleWithRoom)
      ensures HasRoom(cfg, w, w.live[i], v, c)
    {
      GlobalAlone(cfg, w.live[i].tags);
      assert RequestWellFormed(cfg, w, i, w.live[i]);
    }
  }

  lemma {:induction false} AllOfTheMonthly(cfg: Config, start: int, steps: seq<Step>, u: nat, c: real)
    returns (more: seq<Step>)
    requires GlobalOnly(cfg) && Enforced(cfg, Global) && 0.0 <= c && Legal(cfg, Initial(start), steps)
    requires var w := After(cfg, Initial(start), steps);
      u == |Unstoppable(cfg, w, Global, w.month, StaleWithRoom)|
    ensures Legal(cfg, Initial(start), steps + more) && CostsAtMost(more, c) && CostsNotNegative(more)
    ensures var w, w' := After(cfg, Initial(start), steps), After(cfg, Initial(start), steps + more);
      Spend(w'.records, Global, w.month) == Spend(w.records, Global, w.month) + u as real * c
  {
    AlwaysWellFormed(cfg, start, steps);
    GlobalHasRoom(cfg, After(cfg, Initial(start), steps), u, c);
    more := AllTheUnstoppable(cfg, start, steps, Global, u, c);
  }

  // ---------------------------------------------------------------------
  // Counting only admitted requests bounds nothing without those conditions

  /** All requests that are admitted and have no record yet. */
  function AdmittedNow(cfg: Config, w: World): set<nat> {
    set i | i in w.live && IsAdmitted(cfg, w.live[i])
  }

  predicate OneAtATime(cfg: Config, w: World, steps: seq<Step>) {
    |AdmittedNow(cfg, After(cfg, w, steps))| <= 1
    && (steps == [] || OneAtATime(cfg, w, steps[..|steps| - 1]))
  }

  /** A run from month 0, with never more than one request admitted and not metered. */
  predicate Thrifty(cfg: Config, steps: seq<Step>, c: real) {
    Legal(cfg, Initial(0), steps) && OneAtATime(cfg, Initial(0), steps) && Priced(steps, c)
  }

  lemma {:induction false} ThriftyStep(cfg: Config, steps: seq<Step>, step: Step, c: real)
    requires Thrifty(cfg, steps, c) && Enabled(cfg, After(cfg, Initial(0), steps), step)
    requires |AdmittedNow(cfg, Next(cfg, After(cfg, Initial(0), steps), step))| <= 1 && (step.Save? ==> step.cost == c)
    ensures Thrifty(cfg, steps + [step], c)
    ensures After(cfg, Initial(0), steps + [step]) == Next(cfg, After(cfg, Initial(0), steps), step)
  {
    StepOn(cfg, Initial(0), steps, step);
    assert (steps + [step])[..|steps|] == steps;
  }

  /**
   Requests i to n - 1 are alike and wait for their last check; the i before them have been metered, at c
   each, in the current month. Their spend counts for the scope.
   */
  ghost predicate Waiting(cfg: Config, w: World, r: Request, scope: Scope, i: nat, n: nat, c: real) {
    && r.stamp.None? && r.passed + 1 == |Checked(cfg, r.tags)| && w.next == n
    && (forall j: nat :: j in w.live <==> i <= j < n)
    && (forall j :: j in w.live ==> w.live[j] == r)
    && Matches(r.tags, scope) && Spend(w.records, scope, w.month) == Repeat(i, c)
    && Spend(w.records, LastCheck(cfg, r.tags), r.month) == (if r.month == w.month then Repeat(i, c) else 0.0)
  }

  /** After i requests at c each, the last check lets the next one pass. */
  predicate Lets(cfg: Config, r: Request, month: int, i: nat, c: real)
    requires Checked(cfg, r.tags) != []
  {
    Within(cfg, LastCheck(cfg, r.tags), if r.month == month then Repeat(i, c) else 0.0)
  }

  ghost predicate LetsAll(cfg: Config, r: Request, month: int, n: nat, c: real)
    requires Checked(cfg, r.tags) != []
  {
    forall i: nat :: i < n ==> Lets(cfg, r, month, i, c)
  }

  /** The world with request i moved on. */
  function With(w: World, i: nat, r: Request): World {
    w.(live := w.live[i := r])
  }

  lemma {:induction false} OnlyOneAdmitted(cfg: Config, w: World, r: Request, scope: Scope, i: nat, n: nat, c: real,
      moved: Request)
    requires i < n && Waiting(cfg, w, r, scope, i, n, c) && IsAdmitted(cfg, moved)
    ensures AdmittedNow(cfg, With(w, i, moved)) == {i}
  {
    assert !IsAdmitted(cfg, r);
    forall j | j in With(w, i, moved).live
      ensures IsAdmitted(cfg, With(w, i, moved).live[j]) <==> j == i
    {
    }
  }

  lemma {:induction false} NoneAdmitted(cfg: Config, w: World, r: Request, scope: Scope, i: nat, n: nat, c: real)
    requires Waiting(cfg, w, r, scope, i, n, c)
    ensures AdmittedNow(cfg, w) == {}
  {
    assert !IsAdmitted(cfg, r);
    forall j | j in w.live
      ensures !IsAdmitted(cfg, w.live[j])
    {
    }
  }

  /** Request i passes its last check. */
  lemma {:induction false} LastCheckPasses(cfg: Config, w: World, r: Request, scope: Scope, i: nat, n: nat, c: real)
    requires i < n && Waiting(cfg, w, r, scope, i, n, c)
    requires Lets(cfg, r, w.month, i, c)
    ensures i in w.live && w.live[i] == r && Enabled(cfg, w, Check(i))
    ensures Next(cfg, w, Check(i)) == With(w, i, r.(passed := r.passed + 1))
  {
  }

  /** Request i is gone, and its record is there. */
  function Metered(w: World, r: Request, i: nat, c: real): World {
    w.(live := w.live - {i}, records := w.records + [Record(r.tags, w.month, c)])
  }

  lemma {:induction false} StillWaiting(cfg: Config, w: World, r: Request, scope: Scope, i: nat, n: nat, c: real)
    requires i < n && Waiting(cfg, w, r, scope, i, n, c)
    ensures Waiting(cfg, Metered(w, r, i, c), r, scope, i + 1, n, c)
  {
    CheckedMatch(cfg, r.tags, LastCheck(cfg, r.tags));
    SpendAdd(w.records, Record(r.tags, w.month, c), scope, w.month);
    SpendAdd(w.records, Record(r.tags, w.month, c), LastCheck(cfg, r.tags), r.month);
  }

  lemma {:induction false} ServeCheck(cfg: Config, steps: seq<Step>, w: World, r: Request, scope: Scope, i: nat,
      n: nat, c: real)
    requires i < n && Thrifty(cfg, steps, c) && w == After(cfg, Initial(0), steps) && Waiting(cfg, w, r, scope, i, n, c)
    requires Lets(cfg, r, w.month, i, c)
    ensures Thrifty(cfg, steps + [Check(i)], c)
    ensures After(cfg, Initial(0), steps + [Check(i)]) == With(w, i, r.(passed := r.passed + 1))
  {
    LastCheckPasses(cfg, w, r, scope, i, n, c);
    OnlyOneAdmitted(cfg, w, r, scope, i, n, c, r.(passed := r.passed + 1));
    ThriftyStep(cfg, steps, Check(i), c);
  }

  lemma {:induction false} ServeStamp(cfg: Config, steps: seq<Step>, w: World, r: Request, scope: Scope, i: nat,
      n: nat, c: real)
    requires i < n && Thrifty(cfg, steps, c) && Waiting(cfg, w, r, scope, i, n, c)
    requires After(cfg, Initial(0), steps) == With(w, i, r.(passed := r.passed + 1))
    ensures Thrifty(cfg, steps + [Stamp(i)], c)
    ensures After(cfg, Initial(0), steps + [Stamp(i)])
         == With(w, i, r.(passed := r.passed + 1, stamp := Some(w.month)))
  {
    var stamped := r.(passed := r.passed + 1, stamp := Some(w.month));
    OnlyOneAdmitted(cfg, w, r, scope, i, n, c, stamped);
    assert Next(cfg, With(w, i, r.(passed := r.passed + 1)), Stamp(i)) == With(w, i, stamped);
    ThriftyStep(cfg, steps, Stamp(i), c);
  }

  lemma {:induction false} ServeSave(cfg: Config, steps: seq<Step>, w: World, r: Request, scope: Scope, i: nat,
      n: nat, c: real)
    requires i < n && Thrifty(cfg, steps, c) && Waiting(cfg, w, r, scope, i, n, c)
    requires After(cfg, Initial(0), steps) == With(w, i, r.(passed := r.passed + 1, stamp := Some(w.month)))
    ensures Thrifty(cfg, steps + [Save(i, c)], c)
    ensures After(cfg, Initial(0), steps + [Save(i, c)]) == Metered(w, r, i, c)
  {
    StillWaiting(cfg, w, r, scope, i, n, c);
    NoneAdmitted(cfg, Metered(w, r, i, c), r, scope, i + 1, n, c);
    assert Next(cfg, After(cfg, Initial(0), steps), Save(i, c)) == Metered(w, r, i, c);
    ThriftyStep(cfg, steps, Save(i, c), c);
  }

  /** Request i passes its last check and is metered. */
  lemma {:induction false} ServeOne(cfg: Config, steps: seq<Step>, w: World, r: Request, scope: Scope, i: nat, n: nat,
      c: real) returns (more: seq<Step>)
    requires i < n && Thrifty(cfg, steps, c) && After(cfg, Initial(0), steps) == w && Waiting(cfg, w, r, scope, i, n, c)
    requires Lets(cfg, r, w.month, i, c)
    ensures Thrifty(cfg, more, c) && After(cfg, Initial(0), more) == Metered(w, r, i, c)
    ensures Waiting(cfg, Metered(w, r, i, c), r, scope, i + 1, n, c)
  {
    ServeCheck(cfg, steps, w, r, scope, i, n, c);
    var checked := steps + [Check(i)];
    ServeStamp(cfg, checked, w, r, scope, i, n, c);
    var stamped := checked + [Stamp(i)];
    ServeSave(cfg, stamped, w, r, scope, i, n, c);
    more := stamped + [Save(i, c)];
    StillWaiting(cfg, w, r, scope, i, n, c);
  }

  lemma {:induction false} ServeMany(cfg: Config, steps: seq<Step>, w: World, r: Request, scope: Scope, i: nat,
      n: nat, c: real)
    returns (more: seq<Step>, w': World)
    requires i <= n && Thrifty(cfg, steps, c) && After(cfg, Initial(0), steps) == w
    requires Waiting(cfg, w, r, scope, 0, n, c)
    requires LetsAll(cfg, r, w.month, n, c)
    ensures Thrifty(cfg, more, c) && After(cfg, Initial(0), more) == w' && Waiting(cfg, w', r, scope, i, n, c)
    ensures w'.month == w.month
  {
    if i == 0 {
      more, w' := steps, w;
    } else {
      var before, w1 := ServeMany(cfg, steps, w, r, scope, i - 1, n, c);
      assert Lets(cfg, r, w.month, i - 1, c);
      more := ServeOne(cfg, before, w1, r, scope, i - 1, n, c);
      w' := Metered(w1, r, i - 1, c);
    }
  }

  /** Requests that are all alike and just started. */
  ghost predicate JustStarted(w: World, r: Request, n: nat) {
    w.month == 0 && w.next == n && w.records == []
    && (forall j: nat :: j in w.live <==> j < n) && (forall j :: j in w.live ==> w.live[j] == r)
  }

  lemma {:induction false} StartMany(cfg: Config, tags: Tags, n: nat, c: real) returns (steps: seq<Step>)
    requires |Checked(cfg, tags)| > 0
    ensures Thrifty(cfg, steps, c) && JustStarted(After(cfg, Initial(0), steps), Request(tags, 0, 0, None), n)
  {
    if n == 0 {
      steps := [];
      assert AdmittedNow(cfg, Initial(0)) == {};
    } else {
      var before := StartMany(cfg, tags, n - 1, c);
      var w := After(cfg, Initial(0), before);
      assert AdmittedNow(cfg, Next(cfg, w, Start(tags))) == {};
      ThriftyStep(cfg, before, Start(tags), c);
      steps := before + [Start(tags)];
    }
  }

  /** All n requests have passed k checks, in a month without records, and the first i of them one more. */
  lemma {:induction false} PassLevel(cfg: Config, tags: Tags, k: nat, i: nat, n: nat, c: real)
    returns (steps: seq<Step>)
    requires k + 1 < |Checked(cfg, tags)| && i <= n
    ensures Thrifty(cfg, steps, c)
    ensures var w := After(cfg, Initial(0), steps);
      && w.month == 0 && w.next == n && w.records == [] && (forall j: nat :: j in w.live <==> j < n)
      && (forall j :: j in w.live ==> w.live[j] == Request(tags, 0, if j < i then k + 1 else k, None))
    decreases k, i
  {
    if i > 0 {
      var before := PassLevel(cfg, tags, k, i - 1, n, c);
      var w := After(cfg, Initial(0), before);
      assert AdmittedNow(cfg, Next(cfg, w, Check(i - 1))) == {};
      ThriftyStep(cfg, before, Check(i - 1), c);
      steps := before + [Check(i - 1)];
    } else if k == 0 {
      steps := StartMany(cfg, tags, n, c);
    } else {
      steps := PassLevel(cfg, tags, k - 1, n, n, c);
    }
  }

  /** In a month without records, all n requests pass all checks but the last. */
  lemma {:induction false} PassAllButLast(cfg: Config, tags: Tags, n: nat, c: real) returns (steps: seq<Step>)
    requires |Checked(cfg, tags)| > 0
    ensures Thrifty(cfg, steps, c)
    ensures JustStarted(After(cfg, Initial(0), steps), Request(tags, 0, |Checked(cfg, tags)| - 1, None), n)
  {
    if |Checked(cfg, tags)| == 1 {
      steps := StartMany(cfg, tags, n, c);
    } else {
      steps := PassLevel(cfg, tags, |Checked(cfg, tags)| - 2, n, n, c);
    }
  }

  /**
   Late checks: with never more than one request that is admitted and not metered, a scope's spend in one
   month can pass any amount, whatever the limit: requests that read the clock before the month began are
   checked against the month before.
   */
  lemma {:induction false} AdmittedOnlyBoundsNothing(cfg: Config, scope: Scope, tags: Tags, n: nat, c: real)
    returns (steps: seq<Step>)
    requires Enforced(cfg, scope) && Matches(tags, scope)
    ensures Legal(cfg, Initial(0), steps) && OneAtATime(cfg, Initial(0), steps) && CostsAtMost(steps, c)
    ensures Spend(After(cfg, Initial(0), steps).records, scope, 1) == n as real * c
  {
    EnforcedIsChecked(cfg, tags, scope);
    var r := Request(tags, 0, |Checked(cfg, tags)| - 1, None);
    var passed := PassAllButLast(cfg, tags, n, c);
    var w := After(cfg, Initial(0), passed);
    assert AdmittedNow(cfg, Next(cfg, w, Tick(1))) == {};
    ThriftyStep(cfg, passed, Tick(1), c);
    var end;
    steps, end := ServeMany(cfg, passed + [Tick(1)], Next(cfg, w, Tick(1)), r, scope, n, n, c);
    RepeatProduct(n, c);
  }

  /** Within month 0 nothing is stale. */
  lemma {:induction false} NeverStale(cfg: Config, steps: seq<Step>)
    requires Legal(cfg, Initial(0), steps)
    ensures var w := After(cfg, Initial(0), steps);
      && w.month >= 0
      && (w.month == 0 ==> AllObey(cfg, Initial(0), steps, NoStale) && forall i :: i in w.live ==> w.live[i].month == 0)
  {
    if steps != [] { NeverStale(cfg, steps[..|steps| - 1]); }
  }

  /**
   Later checks: the same within one month, for a limit that is not the last one checked. All requests pass
   all checks but the last before any is metered, and then go on one by one when the last limit lets them.
   */
  lemma {:induction false} EarlyCheckBoundsNothing(cfg: Config, scope: Scope, tags: Tags, n: nat, c: real)
    returns (steps: seq<Step>)
    requires Enforced(cfg, scope) && Matches(tags, scope)
    requires Checked(cfg, tags) != [] && LastCheck(cfg, tags) != scope
    requires forall i: nat :: i < n ==> Within(cfg, LastCheck(cfg, tags), Repeat(i, c))
    ensures Legal(cfg, Initial(0), steps) && OneAtATime(cfg, Initial(0), steps) && CostsAtMost(steps, c)
    ensures AllObey(cfg, Initial(0), steps, NoStale) && After(cfg, Initial(0), steps).month == 0
    ensures Spend(After(cfg, Initial(0), steps).records, scope, 0) == n as real * c
  {
    var r := Request(tags, 0, |Checked(cfg, tags)| - 1, None);
    var passed := PassAllButLast(cfg, tags, n, c);
    assert LetsAll(cfg, r, 0, n, c);
    var end;
    steps, end := ServeMany(cfg, passed, After(cfg, Initial(0), passed), r, scope, n, n, c);
    RepeatProduct(n, c);
    NeverStale(cfg, steps);
  }
}
