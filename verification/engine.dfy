/** The engine driving one execution instance: it repeatedly picks an enabled
    transition, executes it atomically and appends its events to the log, until
    no transition is enabled or the step budget runs out.
 */
module Engine {
  import opened Bpmn
  import opened ProcessGraph
  import opened InclusiveGatewayTransition

  /** The lifecycle events observable in the engine's event log. */
  datatype Event =
    | EventTriggered(node: NodeId)
    | GatewayTokenArrives(node: NodeId)
    | GatewayActivated(node: NodeId)
    | GatewayTokenConsumed(node: NodeId)
    | GatewayTokenPassed(node: NodeId)
    | ActivityActivated(node: NodeId)
    | ActivityCompleted(node: NodeId)
    | ActivityClosed(node: NodeId)

  /** The kind of the node a flow ends at; a target outside the process (which
      a valid process does not have) is treated as an end event. */
  function TargetKind(p: Process, f: nat): (r: NodeKind)
    requires f < |p.flows|
    ensures ValidProcess(p) ==> r == p.nodes[p.flows[f].target] && r != StartEvent
  {
    var t := p.flows[f].target;
    if t < |p.nodes| && p.nodes[t] != StartEvent then p.nodes[t] else EndEvent
  }

  /** Where a token passed along flow `f` lands: it waits at a gateway on the
      flow it came by, activates an activity, or is absorbed by an end event. */
  function ArrivalPlace(p: Process, f: nat): Place
    requires f < |p.flows|
  {
    var t := p.flows[f].target;
    match TargetKind(p, f)
    case InclusiveGateway => Arrived(f)
    case Activity => InActivity(t, Active)
    case _ => AtEnd(t)
  }

  /** The event the target of flow `f` raises when a token arrives over it. */
  function ArrivalEvent(p: Process, f: nat): Event
    requires f < |p.flows|
  {
    var t := p.flows[f].target;
    match TargetKind(p, f)
    case InclusiveGateway => GatewayTokenArrives(t)
    case Activity => ActivityActivated(t)
    case _ => EventTriggered(t)
  }

  /** The places the tokens passed along `fs` land in, in order. */
  function ArrivalPlaces(p: Process, fs: seq<nat>): (r: seq<Place>)
    requires forall i :: 0 <= i < |fs| ==> fs[i] < |p.flows|
    ensures |r| == |fs|
    ensures forall i :: 0 <= i < |fs| ==> r[i] == ArrivalPlace(p, fs[i])
  {
    if fs == [] then [] else [ArrivalPlace(p, fs[0])] + ArrivalPlaces(p, fs[1..])
  }

  /** `k` copies of event `e`. */
  function Repeat(e: Event, k: nat): (r: seq<Event>)
    ensures |r| == k
    ensures forall i :: 0 <= i < k ==> r[i] == e
  {
    if k == 0 then [] else [e] + Repeat(e, k - 1)
  }

  /** The event announcing a pass: a gateway raises TOKEN_PASSED, other nodes nothing. */
  function Announce(passer: Option<NodeId>): seq<Event>
  {
    if passer.Some? then [GatewayTokenPassed(passer.value)] else []
  }

  /** The events of passing one token along each flow of `fs` in order: each
      pass is announced by the passer and followed at once by the arrival event
      of the flow's target. */
  function PassEvents(p: Process, fs: seq<nat>, passer: Option<NodeId>): seq<Event>
    requires forall i :: 0 <= i < |fs| ==> fs[i] < |p.flows|
    decreases |fs|
  {
    if fs == [] then []
    else Announce(passer) + [ArrivalEvent(p, fs[0])] + PassEvents(p, fs[1..], passer)
  }

  /** A gateway's passes: TOKEN_PASSED and the target's arrival event, in pairs,
      one pair per flow in flow order. */
  lemma {:induction false} GatewayPassEvents(p: Process, fs: seq<nat>, g: NodeId)
    requires forall i :: 0 <= i < |fs| ==> fs[i] < |p.flows|
    ensures |PassEvents(p, fs, Some(g))| == 2 * |fs|
    ensures forall i :: 0 <= i < |fs| ==>
              PassEvents(p, fs, Some(g))[2 * i] == GatewayTokenPassed(g)
              && PassEvents(p, fs, Some(g))[2 * i + 1] == ArrivalEvent(p, fs[i])
    decreases |fs|
  {
    if fs != [] {
      var tail := fs[1..];
      GatewayPassEvents(p, tail, g);
      var rest := PassEvents(p, tail, Some(g));
      var r := PassEvents(p, fs, Some(g));
      assert r == [GatewayTokenPassed(g), ArrivalEvent(p, fs[0])] + rest;
      forall i | 0 < i < |fs|
        ensures r[2 * i] == GatewayTokenPassed(g) && r[2 * i + 1] == ArrivalEvent(p, fs[i])
      {
        assert r[2 * i] == rest[2 * (i - 1)];
        assert r[2 * i + 1] == rest[2 * (i - 1) + 1];
        assert fs[i] == tail[i - 1];
      }
    }
  }

  /** Passes by a start event or an activity: just the arrival events, one per flow. */
  lemma {:induction false} PlainPassEvents(p: Process, fs: seq<nat>)
    requires forall i :: 0 <= i < |fs| ==> fs[i] < |p.flows|
    ensures |PassEvents(p, fs, None)| == |fs|
    ensures forall i :: 0 <= i < |fs| ==> PassEvents(p, fs, None)[i] == ArrivalEvent(p, fs[i])
    decreases |fs|
  {
    if fs != [] {
      var tail := fs[1..];
      PlainPassEvents(p, tail);
      var rest := PassEvents(p, tail, None);
      var r := PassEvents(p, fs, None);
      assert r == [ArrivalEvent(p, fs[0])] + rest;
      forall i | 0 < i < |fs|
        ensures r[i] == ArrivalEvent(p, fs[i])
      {
        assert r[i] == rest[i - 1];
        assert fs[i] == tail[i - 1];
      }
    }
  }

  /** The transitions a node can take. */
  datatype Transition =
    | LeaveStart(node: NodeId)
    | CloseActivity(node: NodeId)
    | LeaveActivity(node: NodeId)
    | FireGateway(node: NodeId)

  /** The transition node `n` is ready to take, if any: a triggered start event
      passes its token on; an activity closes a completed token and then passes
      the closed token on; an inclusive gateway fires when its OR-join is
      satisfied; an end event never moves. */
  function EnabledAt(p: Process, m: Marking, n: NodeId): (r: Option<Transition>)
    requires n < |p.nodes|
    ensures r.Some? ==> r.value.node == n
  {
    match p.nodes[n]
    case StartEvent => if AtStart(n) in m then Some(LeaveStart(n)) else None
    case Activity =>
      if InActivity(n, Completed) in m then Some(CloseActivity(n))
      else if InActivity(n, Closed) in m then Some(LeaveActivity(n))
      else None
    case InclusiveGateway => if JoinEnabled(p, m, n) then Some(FireGateway(n)) else None
    case EndEvent => None
  }

  /** The first node, from `from` on, that has an enabled transition. */
  function FirstEnabled(p: Process, m: Marking, from: nat): (r: Option<NodeId>)
    requires from <= |p.nodes|
    ensures r.Some? ==> from <= r.value < |p.nodes| && EnabledAt(p, m, r.value).Some?
    decreases |p.nodes| - from
  {
    if from == |p.nodes| then None
    else if EnabledAt(p, m, from).Some? then Some(from)
    else FirstEnabled(p, m, from + 1)
  }

  /** `FirstEnabled` finds the least enabled node from `from` on, and finds
      nothing exactly when no node from there on is enabled. */
  lemma {:induction false} FirstEnabledIsLeast(p: Process, m: Marking, from: nat)
    requires from <= |p.nodes|
    ensures var r := FirstEnabled(p, m, from);
            r.None? <==> forall n :: from <= n < |p.nodes| ==> EnabledAt(p, m, n).None?
    ensures var r := FirstEnabled(p, m, from);
            r.Some? ==> forall n :: from <= n < r.value ==> EnabledAt(p, m, n).None?
    decreases |p.nodes| - from
  {
    if from < |p.nodes| && EnabledAt(p, m, from).None? {
      FirstEnabledIsLeast(p, m, from + 1);
    }
  }

  /** The outcome of one scheduling pass. */
  datatype StepResult =
    | Quiescent
    | Stepped(marking: Marking, events: seq<Event>)
    | Failed(node: NodeId)

  /** The event log of one activation of gateway `g` that consumed `k` tokens
      and passes tokens along `fs`. */
  function ActivationEvents(p: Process, g: NodeId, k: nat, fs: seq<nat>): seq<Event>
    requires forall i :: 0 <= i < |fs| ==> fs[i] < |p.flows|
  {
    [GatewayActivated(g)] + Repeat(GatewayTokenConsumed(g), k) + PassEvents(p, fs, Some(g))
  }

  /** The event order of one gateway activation: ACTIVATED, then one
      TOKEN_CONSUMED per consumed token, then for each selected flow TOKEN_PASSED
      immediately followed by the target's arrival event. */
  lemma ActivationEventOrder(p: Process, g: NodeId, k: nat, fs: seq<nat>)
    requires forall i :: 0 <= i < |fs| ==> fs[i] < |p.flows|
    ensures var e := ActivationEvents(p, g, k, fs);
            && |e| == 1 + k + 2 * |fs|
            && e[0] == GatewayActivated(g)
            && (forall i :: 1 <= i <= k ==> e[i] == GatewayTokenConsumed(g))
            && (forall i :: 0 <= i < |fs| ==>
                  e[1 + k + 2 * i] == GatewayTokenPassed(g)
                  && e[2 + k + 2 * i] == ArrivalEvent(p, fs[i]))
  {
    var e := ActivationEvents(p, g, k, fs);
    var passes := PassEvents(p, fs, Some(g));
    GatewayPassEvents(p, fs, g);
    var head := [GatewayActivated(g)] + Repeat(GatewayTokenConsumed(g), k);
    assert e == head + passes;
    forall i | 0 <= i < |fs|
      ensures e[1 + k + 2 * i] == GatewayTokenPassed(g)
      ensures e[2 + k + 2 * i] == ArrivalEvent(p, fs[i])
    {
      var j := 2 * i;
      assert e[|head| + j] == passes[j];
      assert e[|head| + (j + 1)] == passes[j + 1];
    }
  }

  /** One activation of inclusive gateway `g`: it consumes every token that has
      arrived, then passes a token along every flow the OR-split selects. With
      no flow to take it fails (a graph inconsistency). */
  function FireInclusiveGateway(p: Process, data: DataStore, m: Marking, g: NodeId): (r: StepResult)
    ensures !r.Quiescent?
    ensures r.Failed? <==> Split(p, g, data).None?
    ensures r.Failed? ==> r.node == g
  {
    match Split(p, g, data)
    case None => Failed(g)
    case Some(fs) =>
      Stepped(ConsumeArrivals(p, m, g) + ArrivalPlaces(p, fs), ActivationEvents(p, g, ArrivedAt(p, m, g), fs))
  }

  /** A successful activation: its events are those of `ActivationEvents`, and
      afterwards no token is left waiting at the gateway except those the
      activation passed back to it; every token elsewhere stays. */
  lemma GatewayActivation(p: Process, data: DataStore, m: Marking, g: NodeId)
    requires Split(p, g, data).Some?
    ensures var r := FireInclusiveGateway(p, data, m, g);
            var fs := Split(p, g, data).value;
            var k := ArrivedAt(p, m, g);
            && r.Stepped?
            && r.events == ActivationEvents(p, g, k, fs)
            && |r.marking| == |m| - k + |fs|
            && ArrivedAt(p, r.marking[..|m| - k], g) == 0
            && r.marking[|m| - k..] == ArrivalPlaces(p, fs)
            && forall pl :: !IsArrivalAt(p, pl, g) ==> multiset(r.marking[..|m| - k])[pl] == multiset(m)[pl]
  {
    var fs := Split(p, g, data).value;
    var k := ArrivedAt(p, m, g);
    var r := FireInclusiveGateway(p, data, m, g);
    ConsumeArrivalsEffect(p, m, g);
    assert r.marking[..|m| - k] == ConsumeArrivals(p, m, g);
  }

  /** Executes transition `t` atomically, producing its whole event sequence. */
  function Execute(p: Process, data: DataStore, m: Marking, t: Transition): (r: StepResult)
    ensures !r.Quiescent?
    ensures r.Failed? ==> t.FireGateway? && r.node == t.node
  {
    match t
    case LeaveStart(n) =>
      var fs := GuardedFlows(p, Outgoing(p, n), data);
      Stepped(RemoveOne(m, AtStart(n)) + ArrivalPlaces(p, fs), PassEvents(p, fs, None))
    case CloseActivity(n) =>
      Stepped(RemoveOne(m, InActivity(n, Completed)) + [InActivity(n, Closed)], [ActivityClosed(n)])
    case LeaveActivity(n) =>
      var fs := GuardedFlows(p, Outgoing(p, n), data);
      Stepped(RemoveOne(m, InActivity(n, Closed)) + ArrivalPlaces(p, fs), PassEvents(p, fs, None))
    case FireGateway(g) => FireInclusiveGateway(p, data, m, g)
  }

  /** One scheduling pass: execute the first enabled transition, if any. */
  function Step(p: Process, data: DataStore, m: Marking): StepResult
  {
    match FirstEnabled(p, m, 0)
    case None => Quiescent
    case Some(n) => Execute(p, data, m, EnabledAt(p, m, n).value)
  }

  /** The scheduler stops exactly when no node has an enabled transition. */
  lemma StepQuiescentIff(p: Process, data: DataStore, m: Marking)
    ensures Step(p, data, m).Quiescent? <==> forall n :: 0 <= n < |p.nodes| ==> EnabledAt(p, m, n).None?
  {
    FirstEnabledIsLeast(p, m, 0);
  }

  /** The scheduler takes the transition of the lowest-numbered enabled node. */
  lemma StepTakesFirstEnabled(p: Process, data: DataStore, m: Marking, n: NodeId, t: Transition)
    requires n < |p.nodes| && EnabledAt(p, m, n) == Some(t)
    requires forall k :: 0 <= k < n ==> EnabledAt(p, m, k).None?
    ensures Step(p, data, m) == Execute(p, data, m, t)
  {
    FirstEnabledIsLeast(p, m, 0);
    assert FirstEnabled(p, m, 0) == Some(n);
  }

  /** Why a run stopped: no transition enabled, budget used up, or a transition failed. */
  datatype Outcome = Stable | BudgetExhausted | Halted(node: NodeId)

  datatype RunResult = RunResult(marking: Marking, events: seq<Event>, outcome: Outcome)

  /** Runs at most `maxSteps` passes of the scheduling function `step`. The
      boolean the engine reports is `outcome == Stable`: true when a state with
      nothing enabled is reached, false when the budget ran out first (the state
      is then valid and the run can be resumed). */
  function RunWith(step: Marking -> StepResult, m: Marking, maxSteps: nat): RunResult
    decreases maxSteps
  {
    match step(m)
    case Quiescent => RunResult(m, [], Stable)
    case Failed(g) => if maxSteps == 0 then RunResult(m, [], BudgetExhausted) else RunResult(m, [], Halted(g))
    case Stepped(next, events) =>
      if maxSteps == 0 then RunResult(m, [], BudgetExhausted)
      else
        var rest := RunWith(step, next, maxSteps - 1);
        RunResult(rest.marking, events + rest.events, rest.outcome)
  }

  /** Where a run stops: at a state with nothing enabled exactly when it
      reports success; with work left when the budget ran out; at the failing
      transition when it halted. */
  lemma {:induction false} RunWithStops(step: Marking -> StepResult, m: Marking, maxSteps: nat)
    ensures var r := RunWith(step, m, maxSteps);
            && (r.outcome == Stable <==> step(r.marking).Quiescent?)
            && (r.outcome == BudgetExhausted ==> !step(r.marking).Quiescent?)
            && (r.outcome.Halted? ==> step(r.marking) == Failed(r.outcome.node))
    decreases maxSteps
  {
    if maxSteps > 0 && step(m).Stepped? {
      RunWithStops(step, step(m).marking, maxSteps - 1);
    }
  }

  /** Once a run finishes within its budget, a larger budget changes nothing:
      "unbounded" is any budget at least that large. */
  lemma {:induction false} RunWithLargerBudget(step: Marking -> StepResult, m: Marking, n: nat, n': nat)
    requires n <= n'
    requires RunWith(step, m, n).outcome != BudgetExhausted
    ensures RunWith(step, m, n') == RunWith(step, m, n)
    decreases n
  {
    if step(m).Stepped? && n > 0 {
      RunWithLargerBudget(step, step(m).marking, n - 1, n' - 1);
    }
  }

  /** A run stopped by its budget resumes where it left off: spending `a` steps
      and then `b` more is the same as spending `a + b` at once. */
  lemma {:induction false} RunWithResumes(step: Marking -> StepResult, m: Marking, a: nat, b: nat)
    requires RunWith(step, m, a).outcome == BudgetExhausted
    ensures var first := RunWith(step, m, a);
            var second := RunWith(step, first.marking, b);
            RunWith(step, m, a + b) == RunResult(second.marking, first.events + second.events, second.outcome)
    decreases a
  {
    if a > 0 {
      match step(m)
      case Stepped(next, events) =>
        RunWithResumes(step, next, a - 1, b);
        var first := RunWith(step, next, a - 1);
        var second := RunWith(step, first.marking, b);
        assert events + (first.events + second.events) == (events + first.events) + second.events;
    }
  }

  /** The engine's scheduling function for a process and its data. */
  function Scheduler(p: Process, data: DataStore): Marking -> StepResult
  {
    m => Step(p, data, m)
  }

  /** `runToNextState(maxSteps)` on one instance of process `p`. */
  function RunToNextState(p: Process, data: DataStore, m: Marking, maxSteps: nat): RunResult
  {
    RunWith(Scheduler(p, data), m, maxSteps)
  }

  /** `RunWithStops` for the engine's own scheduler: `runToNextState` returns
      true exactly when it reached a state where no transition is enabled. */
  lemma RunToNextStateStops(p: Process, data: DataStore, m: Marking, maxSteps: nat)
    ensures var r := RunToNextState(p, data, m, maxSteps);
            && (r.outcome == Stable <==> Step(p, data, r.marking).Quiescent?)
            && (r.outcome == BudgetExhausted ==> !Step(p, data, r.marking).Quiescent?)
            && (r.outcome.Halted? ==> Step(p, data, r.marking) == Failed(r.outcome.node))
  {
    var r := RunToNextState(p, data, m, maxSteps);
    RunWithStops(Scheduler(p, data), m, maxSteps);
    assert Scheduler(p, data)(r.marking) == Step(p, data, r.marking);
  }

  /** `RunWithLargerBudget` for the engine's own scheduler. */
  lemma LargerBudgetSameRun(p: Process, data: DataStore, m: Marking, n: nat, n': nat)
    requires n <= n'
    requires RunToNextState(p, data, m, n).outcome != BudgetExhausted
    ensures RunToNextState(p, data, m, n') == RunToNextState(p, data, m, n)
  {
    RunWithLargerBudget(Scheduler(p, data), m, n, n');
  }

  /** `RunWithResumes` for the engine's own scheduler. */
  lemma ExhaustedRunResumes(p: Process, data: DataStore, m: Marking, a: nat, b: nat)
    requires RunToNextState(p, data, m, a).outcome == BudgetExhausted
    ensures var first := RunToNextState(p, data, m, a);
            var second := RunToNextState(p, data, first.marking, b);
            RunToNextState(p, data, m, a + b) == RunResult(second.marking, first.events + second.events, second.outcome)
  {
    RunWithResumes(Scheduler(p, data), m, a, b);
  }

  /** A run from a state where nothing is enabled takes no step and reports success. */
  lemma RunFromQuiescent(p: Process, data: DataStore, m: Marking, n: nat)
    requires Step(p, data, m).Quiescent?
    ensures RunToNextState(p, data, m, n) == RunResult(m, [], Stable)
  {
    assert Scheduler(p, data)(m) == Step(p, data, m);
  }

  /** A run with budget left takes the first enabled transition and continues
      from its marking with one step less (`rest`): it ends where that
      continuation ends, with the step's events logged before the
      continuation's. */
  lemma RunTakesStep(p: Process, data: DataStore, m: Marking, n: nat, rest: nat, next: Marking, events: seq<Event>,
                     final: Marking, later: seq<Event>, outcome: Outcome)
    requires n == rest + 1
    requires Step(p, data, m) == Stepped(next, events)
    requires RunToNextState(p, data, next, rest) == RunResult(final, later, outcome)
    ensures RunToNextState(p, data, m, n) == RunResult(final, events + later, outcome)
  {
    assert Scheduler(p, data)(m) == Step(p, data, m);
  }

  /** With a budget of one step, a run stops short, after that step, whenever
      a second transition is still enabled after the first. */
  lemma BudgetOneLeavesWork(p: Process, data: DataStore, m: Marking)
    requires Step(p, data, m).Stepped?
    requires !Step(p, data, Step(p, data, m).marking).Quiescent?
    ensures var s := Step(p, data, m);
            RunToNextState(p, data, m, 1) == RunResult(s.marking, s.events, BudgetExhausted)
  {
    var next := Step(p, data, m).marking;
    assert RunToNextState(p, data, next, 0).outcome == BudgetExhausted;
  }

  /** Starting a process at start event `n`: the start event is triggered and
      holds a token, so its transition is enabled. */
  function Start(p: Process, m: Marking, n: NodeId): (r: (Marking, seq<Event>))
    requires n < |p.nodes| && p.nodes[n] == StartEvent
    ensures r.1 == [EventTriggered(n)]
    ensures EnabledAt(p, r.0, n) == Some(LeaveStart(n))
    ensures multiset(r.0) == multiset(m) + multiset{AtStart(n)}
  {
    (m + [AtStart(n)], [EventTriggered(n)])
  }

  /** Completing an activity (an external call): one active token of activity
      `n` becomes completed, which enables the activity's closing transition.
      Without an active token the call is an invalid token operation (`None`). */
  function Complete(p: Process, m: Marking, n: NodeId): (r: Option<(Marking, seq<Event>)>)
    requires n < |p.nodes| && p.nodes[n] == Activity
    ensures r.Some? <==> InActivity(n, Active) in m
    ensures r.Some? ==> r.value.1 == [ActivityCompleted(n)]
    ensures r.Some? ==> EnabledAt(p, r.value.0, n) == Some(CloseActivity(n))
    ensures r.Some? ==> multiset(r.value.0) == multiset(m) - multiset{InActivity(n, Active)} + multiset{InActivity(n, Completed)}
  {
    if InActivity(n, Active) in m then
      var m' := RemoveOne(m, InActivity(n, Active)) + [InActivity(n, Completed)];
      RemoveOneTakesOne(m, InActivity(n, Active));
      assert m'[|m'| - 1] == InActivity(n, Completed);
      Some((m', [ActivityCompleted(n)]))
    else None
  }
}
