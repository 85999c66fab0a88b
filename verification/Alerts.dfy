/**
 internal/gateway/alerts.go and the budget section of internal/gateway/proxy.go: monthly alerts at 80, 90
 and 100 percent. An alert is looked up, sent and marked in three separate steps, and each step may fail.
 */
module Alerts {
  import opened Wrappers
  import Budgets

  /** What the gateway is configured with. */
  datatype Setup = Setup(store: bool, log: bool, notifier: bool)

  datatype Key = Key(period: int, threshold: int)

  /** Which steps of one alert fail. */
  datatype Faults = Faults(ask: bool, send: bool, mark: bool)

  const NO_FAULTS := Faults(false, false, false)

  /** An alert of an agent's limit: the month and the agent. */
  datatype AgentKey = AgentKey(period: int, agent: string)

  /**
   The monthly alerts that the store has as sent, those that the notifier really delivered, and the agent
   alerts in the store, which are logged and never sent.
   */
  datatype Desk = Desk(marked: set<Key>, delivered: seq<Key>, agents: set<AgentKey>)

  const NO_ALERTS := Desk({}, [], {})

  // ---------------------------------------------------------------------
  // One alert, one request

  /** Whether `sendBudgetAlertEmail` returns an error: a failed send is one only when there is a log. */
  predicate SendError(setup: Setup, fails: bool) {
    !setup.notifier || (fails && setup.log)
  }

  function Deliver(d: Desk, key: Key, fails: bool): Desk {
    if fails then d else d.(delivered := d.delivered + [key])
  }

  function Mark(d: Desk, key: Key, fails: bool): Desk {
    if fails then d else d.(marked := d.marked + {key})
  }

  function Emit(setup: Setup, d: Desk, key: Key, f: Faults): Desk {
    if !setup.store || f.ask || key in d.marked || !setup.notifier then d
    else
      var sent := Deliver(d, key, f.send);
      if SendError(setup, f.send) then sent else Mark(sent, key, f.mark)
  }

  function EmitAgent(setup: Setup, d: Desk, key: AgentKey, f: Faults): Desk {
    if !setup.store || f.ask || f.mark then d else d.(agents := d.agents + {key})
  }

  /**
   A request at the budget section: the month of its clock, the total that `CheckMonthlyBudget` reads,
   what `CheckRequestBudget` reads after it, and the faults of each threshold's alert and the agent's.
   */
  datatype Visit<!E> = Visit(
    period: int, total: Result<real, E>, tags: Budgets.Tags,
    spend: Budgets.Scope -> Result<real, E>, faults: int -> Faults, agentFaults: Faults)

  function MonthlyState<E>(cfg: Budgets.Config, v: Visit<E>): Budgets.MonthlyState {
    if v.total.Err? then Budgets.Fine else Budgets.CheckMonthlyBudget(cfg, v.total.value)
  }

  function VerdictOf<E>(cfg: Budgets.Config, v: Visit<E>): Budgets.Verdict<E> {
    Budgets.FirstFailure(cfg, Budgets.Checked(cfg, v.tags), v.spend)
  }

  function EmitFor<E>(setup: Setup, d: Desk, v: Visit<E>, threshold: int): Desk {
    Emit(setup, d, Key(v.period, threshold), v.faults(threshold))
  }

  /** The alerts at 80 and 90 percent. */
  function LowAlerts<E>(cfg: Budgets.Config, setup: Setup, d: Desk, v: Visit<E>): Desk {
    var state := MonthlyState(cfg, v);
    var eighty := if state.Fine? then d else EmitFor(setup, d, v, 80);
    if state.Fine? || state.Eighty? then eighty else EmitFor(setup, eighty, v, 90)
  }

  function VerdictAlert<E>(setup: Setup, d: Desk, v: Visit<E>, verdict: Budgets.Verdict<E>): Desk {
    match verdict
    case Rejected(Global) => EmitFor(setup, d, v, 100)
    case Rejected(Agent(agent)) => EmitAgent(setup, d, AgentKey(v.period, agent), v.agentFaults)
    case _ => d
  }

  function Receive<E>(cfg: Budgets.Config, setup: Setup, d: Desk, v: Visit<E>): Desk {
    VerdictAlert(setup, LowAlerts(cfg, setup, d, v), v, VerdictOf(cfg, v))
  }

  class AlertDesk {
    const setup: Setup
    var marked: set<Key>
    var delivered: seq<Key>
    var agents: set<AgentKey>

    ghost function Value(): Desk reads this {
      Desk(marked, delivered, agents)
    }

    constructor (setup: Setup)
      ensures this.setup == setup && Value() == NO_ALERTS
    {
      this.setup := setup;
      marked, delivered, agents := {}, [], {};
    }

    method SendBudgetAlertEmail(key: Key, fails: bool) returns (error: bool)
      modifies this`delivered
      ensures error == SendError(setup, fails)
      ensures delivered == if setup.notifier && !fails then old(delivered) + [key] else old(delivered)
    {
      if !setup.notifier { return true; }
      if !fails { delivered := delivered + [key]; }
      if fails && setup.log { return true; }
      return false;
    }

    method EmitMonthlyBudgetAlertOnce(key: Key, f: Faults)
      modifies this
      ensures Value() == Emit(setup, old(Value()), key, f)
      ensures agents == old(agents)
      ensures var starts := setup.store && setup.notifier && !f.ask && key !in old(marked);
        && delivered == (if starts && !f.send then old(delivered) + [key] else old(delivered))
        && marked == (if starts && !f.mark && (!f.send || !setup.log) then old(marked) + {key} else old(marked))
    {
      if !setup.store { return; }
      if f.ask { return; }
      if key in marked { return; }
      var sent := false;
      if setup.notifier {
        var error := SendBudgetAlertEmail(key, f.send);
        if !error { sent := true; }
      }
      if sent {
        if !f.mark { marked := marked + {key}; }
      }
    }

    method EmitAgentBudgetAlertOnce(key: AgentKey, f: Faults)
      modifies this
      ensures Value() == EmitAgent(setup, old(Value()), key, f)
      ensures marked == old(marked) && delivered == old(delivered)
      ensures agents == if setup.store && !f.ask && !f.mark then old(agents) + {key} else old(agents)
    {
      if !setup.store { return; }
      if f.ask { return; }
      if key in agents {
        assert agents + {key} == agents;
        return;
      }
      if !f.mark { agents := agents + {key}; }
    }

    /** The budget section of a request, up to the response. */
    method CheckBudget<E>(cfg: Budgets.Config, v: Visit<E>) returns (verdict: Budgets.Verdict<E>)
      modifies this
      ensures Value() == Receive(cfg, setup, old(Value()), v)
      ensures verdict == VerdictOf(cfg, v)
    {
      if v.total.Ok? {
        match Budgets.CheckMonthlyBudget(cfg, v.total.value)
        case Exceeded =>
          EmitMonthlyBudgetAlertOnce(Key(v.period, 80), v.faults(80));
          EmitMonthlyBudgetAlertOnce(Key(v.period, 90), v.faults(90));
        case Ninety =>
          EmitMonthlyBudgetAlertOnce(Key(v.period, 80), v.faults(80));
          EmitMonthlyBudgetAlertOnce(Key(v.period, 90), v.faults(90));
        case Eighty =>
          EmitMonthlyBudgetAlertOnce(Key(v.period, 80), v.faults(80));
        case Fine =>
      }
      verdict := Budgets.CheckRequestBudget(cfg, v.tags, v.spend);
      if verdict.Rejected? && verdict.scope == Budgets.Global {
        EmitMonthlyBudgetAlertOnce(Key(v.period, 100), v.faults(100));
      } else if verdict.Rejected? && verdict.scope.Agent? {
        EmitAgentBudgetAlertOnce(AgentKey(v.period, verdict.scope.name), v.agentFaults);
      }
    }
  }

  // ---------------------------------------------------------------------
  // Requests one after the other

  function ReceiveAll<E>(cfg: Budgets.Config, setup: Setup, visits: seq<Visit<E>>): Desk {
    if visits == [] then NO_ALERTS
    else Receive(cfg, setup, ReceiveAll(cfg, setup, visits[..|visits| - 1]), visits[|visits| - 1])
  }

  function Count(keys: seq<Key>, key: Key): nat {
    if keys == [] then 0
    else Count(keys[..|keys| - 1], key) + (if keys[|keys| - 1] == key then 1 else 0)
  }

  lemma {:induction false} CountOne(keys: seq<Key>, key: Key, other: Key)
    ensures Count(keys + [key], other) == Count(keys, other) + (if key == other then 1 else 0)
  {
    assert (keys + [key])[..|keys|] == keys;
  }

  predicate Works<E>(v: Visit<E>) {
    v.total.Ok? && v.spend(Budgets.Global).Ok?
    && v.faults(80) == NO_FAULTS && v.faults(90) == NO_FAULTS && v.faults(100) == NO_FAULTS
  }

  /** The month's spend, as the request saw it in the check that a threshold's alert hangs on, has reached it. */
  predicate Reaches<E>(cfg: Budgets.Config, v: Visit<E>, threshold: int)
    requires Works(v)
  {
    cfg.enabled && cfg.monthly > 0.0 &&
    if threshold == 100 then v.spend(Budgets.Global).value >= cfg.monthly
    else threshold in {80, 90} && v.total.value >= cfg.monthly * (if threshold == 80 then 0.8 else 0.9)
  }

  predicate IsReached<E>(cfg: Budgets.Config, v: Visit<E>, key: Key)
    requires Works(v)
  {
    key.period == v.period && Reaches(cfg, v, key.threshold)
  }

  /** Some request of the month saw the threshold reached. */
  ghost predicate Seen<E>(cfg: Budgets.Config, visits: seq<Visit<E>>, key: Key)
    requires forall i :: 0 <= i < |visits| ==> Works(visits[i])
  {
    exists i :: 0 <= i < |visits| && IsReached(cfg, visits[i], key)
  }

  lemma {:induction false} RejectedGlobally<E>(cfg: Budgets.Config, v: Visit<E>)
    requires Works(v)
    ensures VerdictOf(cfg, v) == Budgets.Rejected(Budgets.Global) <==> Reaches(cfg, v, 100)
  {
    Budgets.ChecksInOrder(cfg, v.tags, v.spend);
  }

  /** A desk that keeps its promise: what is marked was delivered once, and nothing else was delivered. */
  ghost predicate Once(d: Desk) {
    forall key :: Count(d.delivered, key) == if key in d.marked then 1 else 0
  }

  lemma {:induction false} EmitOnce(setup: Setup, d: Desk, key: Key)
    requires setup.store && setup.notifier && Once(d)
    ensures Once(Emit(setup, d, key, NO_FAULTS)) && Emit(setup, d, key, NO_FAULTS).marked == d.marked + {key}
  {
    var d' := Emit(setup, d, key, NO_FAULTS);
    forall other
      ensures Count(d'.delivered, other) == if other in d'.marked then 1 else 0
    {
      CountOne(d.delivered, key, other);
      assert Count(d.delivered, other) == if other in d.marked then 1 else 0;
    }
  }

  function KeyIf(reached: bool, period: int, threshold: int): set<Key> {
    if reached then {Key(period, threshold)} else {}
  }

  function LowKeys<E>(cfg: Budgets.Config, v: Visit<E>): set<Key>
    requires Works(v)
  {
    KeyIf(Reaches(cfg, v, 80), v.period, 80) + KeyIf(Reaches(cfg, v, 90), v.period, 90)
  }

  function ReachedKeys<E>(cfg: Budgets.Config, v: Visit<E>): set<Key>
    requires Works(v)
  {
    LowKeys(cfg, v) + KeyIf(Reaches(cfg, v, 100), v.period, 100)
  }

  lemma {:induction false} ReachedExactly<E>(cfg: Budgets.Config, v: Visit<E>, key: Key)
    requires Works(v)
    ensures key in ReachedKeys(cfg, v) <==> IsReached(cfg, v, key)
  {
  }

  lemma {:induction false} LowAlertsOnce<E>(cfg: Budgets.Config, setup: Setup, d: Desk, v: Visit<E>)
    requires setup.store && setup.notifier && Once(d) && Works(v)
    ensures Once(LowAlerts(cfg, setup, d, v)) && LowAlerts(cfg, setup, d, v).marked == d.marked + LowKeys(cfg, v)
  {
    EmitOnce(setup, d, Key(v.period, 80));
    var eighty := if MonthlyState(cfg, v).Fine? then d else EmitFor(setup, d, v, 80);
    EmitOnce(setup, eighty, Key(v.period, 90));
  }

  lemma {:induction false} ReceiveOnce<E>(cfg: Budgets.Config, setup: Setup, d: Desk, v: Visit<E>)
    requires setup.store && setup.notifier && Once(d) && Works(v)
    ensures Once(Receive(cfg, setup, d, v)) && Receive(cfg, setup, d, v).marked == d.marked + ReachedKeys(cfg, v)
  {
    var low := LowAlerts(cfg, setup, d, v);
    LowAlertsOnce(cfg, setup, d, v);
    VerdictOnce(cfg, setup, low, v);
    assert d.marked + ReachedKeys(cfg, v) == low.marked + KeyIf(Reaches(cfg, v, 100), v.period, 100);
  }

  lemma {:induction false} VerdictOnce<E>(cfg: Budgets.Config, setup: Setup, d: Desk, v: Visit<E>)
    requires setup.store && setup.notifier && Once(d) && Works(v)
    ensures var d' := VerdictAlert(setup, d, v, VerdictOf(cfg, v));
      Once(d') && d'.marked == d.marked + KeyIf(Reaches(cfg, v, 100), v.period, 100)
  {
    EmitOnce(setup, d, Key(v.period, 100));
    RejectedGlobally(cfg, v);
  }

  /**
   With requests one after the other and nothing failing, the thresholds marked for a month are exactly
   those that the spend seen in it has reached, and each was delivered exactly once.
   */
  lemma {:induction false} AlertsAreExact<E>(cfg: Budgets.Config, setup: Setup, visits: seq<Visit<E>>)
    requires setup.store && setup.notifier
    requires forall i :: 0 <= i < |visits| ==> Works(visits[i])
    ensures Once(ReceiveAll(cfg, setup, visits))
    ensures forall key :: key in ReceiveAll(cfg, setup, visits).marked <==> Seen(cfg, visits, key)
  {
    if visits != [] {
      var n := |visits| - 1;
      AlertsAreExact(cfg, setup, visits[..n]);
      ReceiveOnce(cfg, setup, ReceiveAll(cfg, setup, visits[..n]), visits[n]);
      forall key
        ensures key in ReceiveAll(cfg, setup, visits).marked <==> Seen(cfg, visits, key)
      {
        ReachedExactly(cfg, visits[n], key);
        if Seen(cfg, visits[..n], key) {
          var i :| 0 <= i < n && IsReached(cfg, visits[..n][i], key);
          assert IsReached(cfg, visits[i], key);
        }
        if Seen(cfg, visits, key) {
          var i :| 0 <= i < |visits| && IsReached(cfg, visits[i], key);
          assert i < n ==> IsReached(cfg, visits[..n][i], key);
        }
      }
    }
  }

  /** Some request of the month was rejected by the agent's limit. */
  ghost predicate SeenAgent<E>(cfg: Budgets.Config, visits: seq<Visit<E>>, key: AgentKey) {
    exists i :: 0 <= i < |visits| && RejectsAgent(cfg, visits[i], key)
  }

  predicate RejectsAgent<E>(cfg: Budgets.Config, v: Visit<E>, key: AgentKey) {
    key.period == v.period && VerdictOf(cfg, v) == Budgets.Rejected(Budgets.Agent(key.agent))
  }

  lemma {:induction false} SeenOneMore<E>(cfg: Budgets.Config, visits: seq<Visit<E>>, v: Visit<E>, key: AgentKey)
    ensures SeenAgent(cfg, visits + [v], key) <==> SeenAgent(cfg, visits, key) || RejectsAgent(cfg, v, key)
  {
    var all := visits + [v];
    assert all[|visits|] == v;
    if SeenAgent(cfg, visits, key) {
      var i :| 0 <= i < |visits| && RejectsAgent(cfg, visits[i], key);
      assert all[i] == visits[i];
    }
  }

  lemma {:induction false} ReceiveAgents<E>(cfg: Budgets.Config, setup: Setup, d: Desk, v: Visit<E>)
    requires setup.store && v.agentFaults == NO_FAULTS
    ensures forall key :: key in Receive(cfg, setup, d, v).agents <==> key in d.agents || RejectsAgent(cfg, v, key)
  {
  }

  /** The agent alerts in the store are exactly those of the requests that an agent's limit rejected. */
  lemma {:induction false} AgentAlertsAreExact<E>(cfg: Budgets.Config, setup: Setup, visits: seq<Visit<E>>)
    requires setup.store && forall i :: 0 <= i < |visits| ==> visits[i].agentFaults == NO_FAULTS
    ensures forall key :: key in ReceiveAll(cfg, setup, visits).agents <==> SeenAgent(cfg, visits, key)
  {
    if visits != [] {
      var n := |visits| - 1;
      AgentAlertsAreExact(cfg, setup, visits[..n]);
      ReceiveAgents(cfg, setup, ReceiveAll(cfg, setup, visits[..n]), visits[n]);
      assert visits == visits[..n] + [visits[n]];
      forall key
        ensures key in ReceiveAll(cfg, setup, visits).agents <==> SeenAgent(cfg, visits, key)
      {
        SeenOneMore(cfg, visits[..n], visits[n], key);
      }
    }
  }

  // ---------------------------------------------------------------------
  // Any number of requests at once

  datatype Stage = ToSend(key: Key) | ToMark(key: Key)

  datatype World = World(desk: Desk, next: nat, pending: map<nat, Stage>)

  /** `Ask` looks an alert up; what it starts is carried on by `Send` and `Set`. */
  datatype Step = Ask(key: Key, fails: bool) | Send(alert: nat, fails: bool) | Set(alert: nat, fails: bool)

  const EMPTY := World(NO_ALERTS, 0, map[])

  predicate Enabled(w: World, step: Step) {
    match step
    case Ask(_, _) => true
    case Send(i, _) => i in w.pending && w.pending[i].ToSend?
    case Set(i, _) => i in w.pending && w.pending[i].ToMark?
  }

  /** A step that is not possible changes nothing. */
  function Next(setup: Setup, w: World, step: Step): World {
    if !Enabled(w, step) then w else Taken(setup, w, step)
  }

  function Taken(setup: Setup, w: World, step: Step): World
    requires Enabled(w, step)
  {
    match step
    case Ask(key, fails) =>
      if !setup.store || fails || key in w.desk.marked || !setup.notifier then w
      else w.(pending := w.pending[w.next := ToSend(key)], next := w.next + 1)
    case Send(i, fails) =>
      var key := w.pending[i].key;
      var sent := w.(desk := Deliver(w.desk, key, fails));
      if SendError(setup, fails) then sent.(pending := w.pending - {i})
      else sent.(pending := w.pending[i := ToMark(key)])
    case Set(i, fails) =>
      w.(desk := Mark(w.desk, w.pending[i].key, fails), pending := w.pending - {i})
  }

  function After(setup: Setup, steps: seq<Step>): World {
    if steps == [] then EMPTY else Next(setup, After(setup, steps[..|steps| - 1]), steps[|steps| - 1])
  }

  predicate Legal(setup: Setup, steps: seq<Step>) {
    steps == [] ||
    var before := steps[..|steps| - 1];
    Legal(setup, before) && Enabled(After(setup, before), steps[|steps| - 1])
  }

  lemma {:induction false} OneMore(setup: Setup, steps: seq<Step>, step: Step)
    requires Legal(setup, steps) && Enabled(After(setup, steps), step)
    ensures Legal(setup, steps + [step])
    ensures After(setup, steps + [step]) == Next(setup, After(setup, steps), step)
  {
    assert (steps + [step])[..|steps|] == steps;
  }

  /** One alert alone takes the three steps in a row. */
  lemma {:induction false} EmitIsThreeSteps(setup: Setup, w: World, key: Key, f: Faults)
    requires w.next !in w.pending
    ensures var asked := Next(setup, w, Ask(key, f.ask));
      var sent := if w.next in asked.pending then Next(setup, asked, Send(w.next, f.send)) else asked;
      var set_ := if w.next in sent.pending then Next(setup, sent, Set(w.next, f.mark)) else sent;
      set_.desk == Emit(setup, w.desk, key, f)
  {
  }

  predicate MarkedWereDelivered(d: Desk) {
    forall key :: key in d.marked ==> key in d.delivered
  }

  lemma {:induction false} LoggedSendsAreHonest(setup: Setup, steps: seq<Step>)
    requires (setup.log || !setup.notifier) && Legal(setup, steps)
    ensures var w := After(setup, steps);
      && MarkedWereDelivered(w.desk)
      && forall i :: i in w.pending && w.pending[i].ToMark? ==> w.pending[i].key in w.desk.delivered
  {
    if steps != [] { LoggedSendsAreHonest(setup, steps[..|steps| - 1]); }
  }

  ghost predicate MarksOnlyDelivered(setup: Setup) {
    forall steps :: Legal(setup, steps) ==> MarkedWereDelivered(After(setup, steps).desk)
  }

  /** Without a log a failed send is taken for a delivery, and the alert is never tried again. */
  lemma {:induction false} UnloggedFailureIsMarked(setup: Setup, key: Key) returns (steps: seq<Step>)
    requires setup.store && setup.notifier && !setup.log
    ensures Legal(setup, steps) && key in After(setup, steps).desk.marked && After(setup, steps).desk.delivered == []
  {
    OneMore(setup, [], Ask(key, false));
    OneMore(setup, [] + [Ask(key, false)], Send(0, true));
    OneMore(setup, [] + [Ask(key, false)] + [Send(0, true)], Set(0, false));
    steps := [] + [Ask(key, false)] + [Send(0, true)] + [Set(0, false)];
  }

  /** Alerts are marked only after a delivery, in every interleaving, exactly with a log or with alerts off. */
  lemma {:induction false} MarksOnlyDeliveredExactly(setup: Setup)
    ensures MarksOnlyDelivered(setup) <==> setup.log || !setup.notifier || !setup.store
  {
    if setup.log || !setup.notifier {
      forall steps | Legal(setup, steps)
        ensures MarkedWereDelivered(After(setup, steps).desk)
      {
        LoggedSendsAreHonest(setup, steps);
      }
    } else if !setup.store {
      forall steps | Legal(setup, steps)
        ensures MarkedWereDelivered(After(setup, steps).desk)
      {
        OffDoesNothing(setup, steps);
      }
    } else {
      var steps := UnloggedFailureIsMarked(setup, Key(0, 80));
      assert !MarkedWereDelivered(After(setup, steps).desk);
    }
  }

  lemma {:induction false} OffDoesNothing(setup: Setup, steps: seq<Step>)
    requires (!setup.store || !setup.notifier) && Legal(setup, steps)
    ensures After(setup, steps) == EMPTY
  {
    if steps != [] { OffDoesNothing(setup, steps[..|steps| - 1]); }
  }

  // ---------------------------------------------------------------------
  // Exactly when an alert is sent once

  /** The look-up starts an alert: the store answers that it was not sent. */
  predicate Starts(setup: Setup, w: World, step: Step) {
    step.Ask? && setup.store && setup.notifier && !step.fails && step.key !in w.desk.marked
  }

  /** Some alert of this key has been looked up and not been sent yet. */
  ghost predicate AboutToSend(w: World, key: Key) {
    exists i :: i in w.pending && w.pending[i] == ToSend(key)
  }

  /** A look-up that starts an alert which is delivered, though not marked, or which another is about to send. */
  ghost predicate Risky(setup: Setup, w: World, step: Step) {
    Starts(setup, w, step) && (step.key in w.desk.delivered || AboutToSend(w, step.key))
  }

  ghost predicate NoRisk(setup: Setup, steps: seq<Step>) {
    steps == [] ||
    var before := steps[..|steps| - 1];
    NoRisk(setup, before) && !Risky(setup, After(setup, before), steps[|steps| - 1])
  }

  /** The requests that have looked this alert up and not sent it yet. */
  ghost function Sending(w: World, key: Key): set<nat> {
    set i | i in w.pending && w.pending[i] == ToSend(key)
  }

  /** No alert is delivered twice or about to be: the deliveries made and those under way are at most one. */
  ghost predicate SentOnce(w: World) {
    && (forall key :: Count(w.desk.delivered, key) + |Sending(w, key)| <= 1)
    && (forall i :: i in w.pending ==> i < w.next)
  }

  lemma {:induction false} CountPositive(keys: seq<Key>, key: Key)
    ensures Count(keys, key) > 0 <==> key in keys
  {
    if keys != [] {
      var n := |keys| - 1;
      CountPositive(keys[..n], key);
      assert keys == keys[..n] + [keys[n]];
    }
  }

  lemma {:induction false} SubsetSize(a: set<nat>, b: set<nat>)
    requires a <= b
    ensures |a| <= |b|
  {
    assert b == a + (b - a);
  }

  /** A send leaves all other alerts of the key as they were. */
  lemma {:induction false} SendLeaves(setup: Setup, w: World, i: nat, fails: bool, key: Key)
    requires Enabled(w, Send(i, fails))
    ensures var w' := Next(setup, w, Send(i, fails));
      && Sending(w', key) == Sending(w, key) - {i}
      && |Sending(w', key)| == |Sending(w, key)| - (if w.pending[i].key == key then 1 else 0)
  {
    var w' := Next(setup, w, Send(i, fails));
    assert Sending(w', key) == Sending(w, key) - {i};
    assert w.pending[i].key == key <==> i in Sending(w, key);
  }

  lemma {:induction false} AskSentOnce(setup: Setup, w: World, asked: Key, fails: bool, key: Key)
    requires SentOnce(w) && !Risky(setup, w, Ask(asked, fails))
    ensures var w' := Next(setup, w, Ask(asked, fails));
      Count(w'.desk.delivered, key) + |Sending(w', key)| <= 1
  {
    var w' := Next(setup, w, Ask(asked, fails));
    if Starts(setup, w, Ask(asked, fails)) && key == asked {
      CountPositive(w.desk.delivered, key);
      assert Sending(w, key) == {};
      assert Sending(w', key) == {w.next};
    } else {
      assert Sending(w', key) == Sending(w, key);
    }
  }

  lemma {:induction false} StepSentOnce(setup: Setup, w: World, step: Step)
    requires SentOnce(w) && Enabled(w, step) && !Risky(setup, w, step)
    ensures SentOnce(Next(setup, w, step))
  {
    var w' := Next(setup, w, step);
    forall key
      ensures Count(w'.desk.delivered, key) + |Sending(w', key)| <= 1
    {
      match step
      case Ask(asked, fails) => AskSentOnce(setup, w, asked, fails, key);
      case Send(i, fails) =>
        CountOne(w.desk.delivered, w.pending[i].key, key);
        SendLeaves(setup, w, i, fails, key);
      case Set(_, _) =>
        SubsetSize(Sending(w', key), Sending(w, key));
    }
  }

  lemma {:induction false} NoRiskSendsOnce(setup: Setup, steps: seq<Step>)
    requires Legal(setup, steps) && NoRisk(setup, steps)
    ensures SentOnce(After(setup, steps))
  {
    if steps != [] {
      var before := steps[..|steps| - 1];
      NoRiskSendsOnce(setup, before);
      StepSentOnce(setup, After(setup, before), steps[|steps| - 1]);
    }
  }

  predicate SendsOnly(steps: seq<Step>) {
    forall i :: 0 <= i < |steps| ==> steps[i].Send? && !steps[i].fails
  }

  /** All sends under way can succeed. */
  lemma {:induction false} SendThemAll(setup: Setup, steps: seq<Step>, w: World, key: Key)
    returns (more: seq<Step>, all: seq<Step>)
    requires Legal(setup, steps) && After(setup, steps) == w
    ensures SendsOnly(more) && all == steps + more && Legal(setup, all)
    ensures Count(After(setup, all).desk.delivered, key) == Count(w.desk.delivered, key) + |Sending(w, key)|
    decreases |Sending(w, key)|
  {
    if Sending(w, key) == {} {
      more, all := [], steps;
    } else {
      var i :| i in Sending(w, key);
      var send := Send(i, false);
      var sent := Next(setup, w, send);
      SendLeaves(setup, w, i, false, key);
      CountOne(w.desk.delivered, key, key);
      var start := GoesOn(setup, steps, w, send, sent);
      var rest;
      rest, all := SendThemAll(setup, start, sent, key);
      more := SendFirst(steps, send, rest);
    }
  }

  lemma {:induction false} SendFirst(steps: seq<Step>, send: Step, rest: seq<Step>) returns (more: seq<Step>)
    requires send.Send? && !send.fails && SendsOnly(rest)
    ensures SendsOnly(more) && steps + more == steps + [send] + rest
  {
    more := [send] + rest;
  }

  /** After a risky look-up, sending what is under way is enough to deliver the alert twice. */
  lemma {:induction false} RiskSendsTwice(setup: Setup, before: seq<Step>, step: Step) returns (more: seq<Step>)
    requires Legal(setup, before) && Risky(setup, After(setup, before), step)
    ensures SendsOnly(more) && Legal(setup, before + [step] + more)
    ensures Count(After(setup, before + [step] + more).desk.delivered, step.key) >= 2
  {
    var w, key := After(setup, before), step.key;
    var w' := Next(setup, w, step);
    var start := GoesOn(setup, before, w, step, w');
    Numbered(setup, before);
    CountPositive(w.desk.delivered, key);
    if AboutToSend(w, key) {
      var i :| i in w.pending && w.pending[i] == ToSend(key);
      SubsetSize({i, w.next}, Sending(w', key));
    } else {
      SubsetSize({w.next}, Sending(w', key));
    }
    var all;
    more, all := SendThemAll(setup, start, w', key);
  }

  lemma {:induction false} Numbered(setup: Setup, steps: seq<Step>)
    requires Legal(setup, steps)
    ensures forall i :: i in After(setup, steps).pending ==> i < After(setup, steps).next
  {
    if steps != [] { Numbered(setup, steps[..|steps| - 1]); }
  }

  /** However far the run has got, sending what is under way then delivers no alert twice. */
  ghost predicate NeverTwice(setup: Setup, steps: seq<Step>) {
    forall n, more, key :: 0 <= n <= |steps| && SendsOnly(more) && Legal(setup, steps[..n] + more) ==>
      Count(After(setup, steps[..n] + more).desk.delivered, key) <= 1
  }

  lemma {:induction false} PrefixIsLegal(setup: Setup, steps: seq<Step>, n: nat)
    requires n <= |steps| && Legal(setup, steps)
    ensures Legal(setup, steps[..n])
    ensures NoRisk(setup, steps) ==> NoRisk(setup, steps[..n])
    decreases |steps|
  {
    if n == |steps| {
      assert steps[..n] == steps;
    } else {
      PrefixIsLegal(setup, steps[..|steps| - 1], n);
      assert steps[..|steps| - 1][..n] == steps[..n];
    }
  }

  lemma {:induction false} SendsAddNoRisk(setup: Setup, steps: seq<Step>, more: seq<Step>)
    requires Legal(setup, steps + more) && SendsOnly(more) && Legal(setup, steps) && NoRisk(setup, steps)
    ensures NoRisk(setup, steps + more)
    decreases |more|
  {
    if more == [] {
      assert steps + more == steps;
    } else {
      var n := |more| - 1;
      assert (steps + more)[..|steps + more| - 1] == steps + more[..n];
      assert more[n].Send?;
      SendsAddNoRisk(setup, steps, more[..n]);
    }
  }

  /** The first risky look-up of a run. */
  lemma {:induction false} FirstRisk(setup: Setup, steps: seq<Step>) returns (n: nat)
    requires Legal(setup, steps) && !NoRisk(setup, steps)
    ensures n < |steps| && Legal(setup, steps[..n]) && Risky(setup, After(setup, steps[..n]), steps[n])
  {
    var before := steps[..|steps| - 1];
    if NoRisk(setup, before) {
      n := |before|;
    } else {
      n := FirstRisk(setup, before);
      assert before[..n] == steps[..n];
    }
  }

  /**
   No alert is sent twice, in this run or by the sends still under way at any point of it, if and only if
   no look-up starts an alert that is already delivered or that another request is about to send.
   */
  lemma {:induction false} SentOnceExactly(setup: Setup, steps: seq<Step>)
    requires Legal(setup, steps)
    ensures NeverTwice(setup, steps) <==> NoRisk(setup, steps)
  {
    if NoRisk(setup, steps) {
      forall n, more, key | 0 <= n <= |steps| && SendsOnly(more) && Legal(setup, steps[..n] + more)
        ensures Count(After(setup, steps[..n] + more).desk.delivered, key) <= 1
      {
        PrefixIsLegal(setup, steps, n);
        SendsAddNoRisk(setup, steps[..n], more);
        NoRiskSendsOnce(setup, steps[..n] + more);
      }
    } else {
      var n := FirstRisk(setup, steps);
      var more := RiskSendsTwice(setup, steps[..n], steps[n]);
      assert steps[..n] + [steps[n]] == steps[..n + 1];
      assert !NeverTwice(setup, steps);
    }
  }

  /** Requests that look an alert up one at a time, each after the last one's mark, and marks that do not fail. */
  ghost predicate OneAtATime(setup: Setup, steps: seq<Step>) {
    steps == [] ||
    var before, last := steps[..|steps| - 1], steps[|steps| - 1];
    && OneAtATime(setup, before)
    && (Starts(setup, After(setup, before), last) ==> !IsPending(After(setup, before), last.key))
    && (last.Set? ==> !last.fails)
  }

  ghost predicate IsPending(w: World, key: Key) {
    exists i :: i in w.pending && w.pending[i].key == key
  }

  /** What was delivered is marked, or its mark is under way. */
  ghost predicate Accounted(w: World) {
    forall key :: key in w.desk.delivered ==> key in w.desk.marked || IsPending(w, key)
  }

  lemma {:induction false} StepAccounted(setup: Setup, w: World, step: Step)
    requires setup.notifier && Accounted(w) && SentOnce(w) && Enabled(w, step) && (step.Set? ==> !step.fails)
    ensures Accounted(Next(setup, w, step))
  {
    var w' := Next(setup, w, step);
    forall key | key in w'.desk.delivered && key !in w'.desk.marked
      ensures IsPending(w', key)
    {
      if key in w.desk.delivered {
        var i :| i in w.pending && w.pending[i].key == key;
        CountPositive(w.desk.delivered, key);
        assert i !in Sending(w, key) by { assert |Sending(w, key)| == 0; }
        assert w.pending[i].ToMark?;
        assert i in w'.pending && w'.pending[i].key == key;
      } else {
        assert w'.pending[step.alert].key == key;
      }
    }
  }

  lemma {:induction false} NotRisky(setup: Setup, w: World, step: Step)
    requires Accounted(w) && (Starts(setup, w, step) ==> !IsPending(w, step.key))
    ensures !Risky(setup, w, step)
  {
    if step.Ask? { AboutToSendIsPending(w, step.key); }
  }

  lemma {:induction false} AboutToSendIsPending(w: World, key: Key)
    ensures AboutToSend(w, key) ==> IsPending(w, key)
  {
    if i :| i in w.pending && w.pending[i] == ToSend(key) {
      assert w.pending[i].key == key;
    }
  }

  /** The usual way to keep the condition: such requests deliver every alert at most once. */
  lemma {:induction false} OneAtATimeSendsOnce(setup: Setup, steps: seq<Step>)
    requires setup.notifier && Legal(setup, steps) && OneAtATime(setup, steps)
    ensures NoRisk(setup, steps) && SentOnce(After(setup, steps)) && Accounted(After(setup, steps))
  {
    if steps != [] {
      var before, last := steps[..|steps| - 1], steps[|steps| - 1];
      OneAtATimeSendsOnce(setup, before);
      NotRisky(setup, After(setup, before), last);
      StepSentOnce(setup, After(setup, before), last);
      StepAccounted(setup, After(setup, before), last);
    }
  }

  /** "Once" does not hold for requests at the same time: both look the alert up before either marks it. */
  lemma {:induction false} TwoRequestsSendTwice(setup: Setup, key: Key) returns (steps: seq<Step>)
    requires setup.store && setup.notifier
    ensures Legal(setup, steps) && After(setup, steps).desk.delivered == [key, key]
    ensures NoFaults(steps)
  {
    var ask := Ask(key, false);
    OneMore(setup, [], ask);
    OneMore(setup, [] + [ask], ask);
    OneMore(setup, [] + [ask] + [ask], Send(0, false));
    OneMore(setup, [] + [ask] + [ask] + [Send(0, false)], Send(1, false));
    steps := [] + [ask] + [ask] + [Send(0, false)] + [Send(1, false)];
  }

  predicate NoFaults(steps: seq<Step>) {
    forall s :: s in steps ==> !s.fails
  }

  /** Nor one after the other: once the mark of a delivered alert fails, the next request can send it again. */
  lemma {:induction false} FailedMarkSendsTwice(setup: Setup, steps: seq<Step>, i: nat) returns (more: seq<Step>)
    requires setup.store && setup.notifier && Legal(setup, steps) && Enabled(After(setup, steps), Set(i, true))
    requires var w, key := After(setup, steps), After(setup, steps).pending[i].key;
      key in w.desk.delivered && key !in w.desk.marked
    ensures more
         == [Set(i, true), Ask(After(setup, steps).pending[i].key, false), Send(After(setup, steps).next, false)]
    ensures Legal(setup, steps + more)
    ensures Count(After(setup, steps + more).desk.delivered, After(setup, steps).pending[i].key) >= 2
  {
    var w := After(setup, steps);
    var key, fail := w.pending[i].key, Set(i, true);
    OneMore(setup, steps, fail);
    OneMore(setup, steps + [fail], Ask(key, false));
    OneMore(setup, steps + [fail] + [Ask(key, false)], Send(w.next, false));
    CountPositive(w.desk.delivered, key);
    CountOne(w.desk.delivered, key, key);
    more := [fail, Ask(key, false), Send(w.next, false)];
    assert steps + more == steps + [fail] + [Ask(key, false)] + [Send(w.next, false)];
  }

  // ---------------------------------------------------------------------
  // What can still happen from any point of a run

  /** Once the alert is marked, the deliveries made and those under way can only grow fewer. */
  lemma {:induction false} MarkedIsFinal(setup: Setup, steps: seq<Step>, more: seq<Step>, key: Key)
    requires Legal(setup, steps) && Legal(setup, steps + more) && key in After(setup, steps).desk.marked
    ensures var w, w' := After(setup, steps), After(setup, steps + more);
      && key in w'.desk.marked
      && Count(w'.desk.delivered, key) + |Sending(w', key)| <= Count(w.desk.delivered, key) + |Sending(w, key)|
    decreases |more|
  {
    if more == [] {
      assert steps + more == steps;
    } else {
      var n := |more| - 1;
      var before := steps + more[..n];
      assert (steps + more)[..|steps + more| - 1] == before;
      MarkedIsFinal(setup, steps, more[..n], key);
      StepKeepsMarked(setup, After(setup, before), more[n], key);
    }
  }

  lemma {:induction false} StepKeepsMarked(setup: Setup, w: World, step: Step, key: Key)
    requires Enabled(w, step) && key in w.desk.marked
    ensures var w' := Next(setup, w, step);
      && key in w'.desk.marked
      && Count(w'.desk.delivered, key) + |Sending(w', key)| <= Count(w.desk.delivered, key) + |Sending(w, key)|
  {
    var w' := Next(setup, w, step);
    match step
    case Ask(_, _) =>
      SubsetSize(Sending(w', key), Sending(w, key));
    case Send(i, fails) =>
      CountOne(w.desk.delivered, w.pending[i].key, key);
      SendLeaves(setup, w, i, fails, key);
    case Set(i, fails) =>
      SubsetSize(Sending(w', key), Sending(w, key));
  }

  lemma {:induction false} Regroup(a: seq<Step>, b: seq<Step>, c: seq<Step>)
    ensures a + (b + c) == a + b + c
  {
  }

  lemma {:induction false} TwoMoreAsk(setup: Setup, steps: seq<Step>, w: World, asks: seq<Step>, key: Key)
    returns (w': World)
    requires setup.store && setup.notifier && Legal(setup, steps) && After(setup, steps) == w && key !in w.desk.marked
    requires asks == [Ask(key, false)] + [Ask(key, false)]
    ensures Legal(setup, steps + asks) && After(setup, steps + asks) == w' && |Sending(w', key)| >= 2
  {
    var ask := Ask(key, false);
    var w1 := Next(setup, w, ask);
    w' := Next(setup, w1, ask);
    Numbered(setup, steps);
    var start := GoesOn(setup, steps, w, ask, w1);
    start := GoesOn(setup, start, w1, ask, w');
    Regroup(steps, [ask], [ask]);
    SubsetSize({w.next, w1.next}, Sending(w', key));
  }

  /** An alert that is not marked can be looked up by two more requests, and both send it. */
  lemma {:induction false} UnmarkedCanSendTwice(setup: Setup, steps: seq<Step>, key: Key) returns (more: seq<Step>)
    requires setup.store && setup.notifier && Legal(setup, steps) && key !in After(setup, steps).desk.marked
    ensures Legal(setup, steps + more) && Count(After(setup, steps + more).desk.delivered, key) >= 2
  {
    var asks := [Ask(key, false)] + [Ask(key, false)];
    var w' := TwoMoreAsk(setup, steps, After(setup, steps), asks, key);
    var sends, all := SendThemAll(setup, steps + asks, w', key);
    Regroup(steps, asks, sends);
    more := asks + sends;
  }

  ghost predicate CanSendTwice(setup: Setup, steps: seq<Step>, key: Key) {
    exists more :: Legal(setup, steps + more) && Count(After(setup, steps + more).desk.delivered, key) >= 2
  }

  /**
   From any point of any run, the run can go on to deliver the alert twice if and only if alerts are on and the
   alert is not marked, or the deliveries made and the sends under way are two or more.
   */
  lemma {:induction false} CanSendTwiceExactly(setup: Setup, steps: seq<Step>, key: Key)
    requires Legal(setup, steps)
    ensures var w := After(setup, steps);
      CanSendTwice(setup, steps, key) <==>
      setup.store && setup.notifier
      && (key !in w.desk.marked || Count(w.desk.delivered, key) + |Sending(w, key)| >= 2)
  {
    var w := After(setup, steps);
    if !setup.store || !setup.notifier {
      forall more | Legal(setup, steps + more)
        ensures Count(After(setup, steps + more).desk.delivered, key) == 0
      {
        OffDoesNothing(setup, steps + more);
      }
    } else if key !in w.desk.marked {
      var more := UnmarkedCanSendTwice(setup, steps, key);
    } else if Count(w.desk.delivered, key) + |Sending(w, key)| >= 2 {
      var more, all := SendThemAll(setup, steps, w, key);
    } else {
      forall more | Legal(setup, steps + more)
        ensures Count(After(setup, steps + more).desk.delivered, key) < 2
      {
        MarkedIsFinal(setup, steps, more, key);
      }
    }
  }

  /**
   Two alerts of one key under way need not end in two deliveries: without a log, when every send has
   failed and a third request has marked the key, nothing delivers it any more.
   */
  lemma {:induction false} PendingPairNeedNotSend(setup: Setup, key: Key) returns (steps: seq<Step>)
    requires setup.store && setup.notifier && !setup.log
    ensures Legal(setup, steps)
    ensures After(setup, steps).pending == map[0 := ToMark(key), 1 := ToMark(key)]
    ensures forall more :: Legal(setup, steps + more) ==> Count(After(setup, steps + more).desk.delivered, key) == 0
  {
    var w := World(Desk({key}, [], {}), 3, map[0 := ToMark(key), 1 := ToMark(key)]);
    steps := ThirdMarks(setup, key, w);
    assert Sending(w, key) == {};
    forall more | Legal(setup, steps + more)
      ensures Count(After(setup, steps + more).desk.delivered, key) == 0
    {
      MarkedIsFinal(setup, steps, more, key);
    }
  }

  lemma {:induction false} ThirdMarks(setup: Setup, key: Key, w: World) returns (steps: seq<Step>)
    requires setup.store && setup.notifier && !setup.log
    requires w == World(Desk({key}, [], {}), 3, map[0 := ToMark(key), 1 := ToMark(key)])
    ensures Legal(setup, steps) && After(setup, steps) == w
  {
    var asked := World(NO_ALERTS, 3, map[0 := ToSend(key), 1 := ToSend(key), 2 := ToSend(key)]);
    var failed1 := World(NO_ALERTS, 3, map[0 := ToMark(key), 1 := ToSend(key), 2 := ToSend(key)]);
    var failed2 := World(NO_ALERTS, 3, map[0 := ToMark(key), 1 := ToMark(key), 2 := ToSend(key)]);
    var failed3 := World(NO_ALERTS, 3, map[0 := ToMark(key), 1 := ToMark(key), 2 := ToMark(key)]);
    steps := ThreeAsk(setup, key, asked);
    steps := GoesOn(setup, steps, asked, Send(0, true), failed1);
    steps := GoesOn(setup, steps, failed1, Send(1, true), failed2);
    steps := GoesOn(setup, steps, failed2, Send(2, true), failed3);
    steps := GoesOn(setup, steps, failed3, Set(2, false), w);
  }

  lemma {:induction false} ThreeAsk(setup: Setup, key: Key, w: World) returns (steps: seq<Step>)
    requires setup.store && setup.notifier
    requires w == World(NO_ALERTS, 3, map[0 := ToSend(key), 1 := ToSend(key), 2 := ToSend(key)])
    ensures Legal(setup, steps) && After(setup, steps) == w
  {
    var one := World(NO_ALERTS, 1, map[0 := ToSend(key)]);
    var two := World(NO_ALERTS, 2, map[0 := ToSend(key), 1 := ToSend(key)]);
    steps := GoesOn(setup, [], EMPTY, Ask(key, false), one);
    steps := GoesOn(setup, steps, one, Ask(key, false), two);
    steps := GoesOn(setup, steps, two, Ask(key, false), w);
  }

  lemma {:induction false} GoesOn(setup: Setup, steps: seq<Step>, w: World, step: Step, w': World)
    returns (more: seq<Step>)
    requires Legal(setup, steps) && After(setup, steps) == w && Enabled(w, step) && Next(setup, w, step) == w'
    ensures more == steps + [step] && Legal(setup, more) && After(setup, more) == w'
  {
    more := steps + [step];
    OneMore(setup, steps, step);
  }
}
