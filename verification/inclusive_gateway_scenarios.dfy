/** The inclusive-gateway processes of the engine's feature tests, run on the
    model: the event logs each test asserts follow from the transition rules.

    Node numbering (both processes): 0 start, 1 split gateway, 2 activity A,
    3 activity B, 4 join gateway, 5 end.
    Flow numbering: 0 is 0->1, 1 is 1->2, 2 is 1->3, 3 is 2->4, 4 is 3->4, 5 is 4->5.
 */
module InclusiveGatewayScenarios {
  import opened Bpmn
  import opened ProcessGraph
  import opened InclusiveGatewayTransition
  import opened Engine

  /** The split sends a token to activity A when A == '1' and to activity B
      when B == '1'; the join merges the two branches again. */
  function AllPathsProcess(): Process
  {
    Process(
      [StartEvent, InclusiveGateway, Activity, Activity, InclusiveGateway, EndEvent],
      [ Flow(0, 1, Always, false),
        Flow(1, 2, DataEquals("A", "1"), false),
        Flow(1, 3, DataEquals("B", "1"), false),
        Flow(2, 4, Always, false),
        Flow(3, 4, Always, false),
        Flow(4, 5, Always, false) ])
  }

  /** The same shape, but the flow to activity B is the split's default flow. */
  function DefaultProcess(): Process
  {
    Process(
      [StartEvent, InclusiveGateway, Activity, Activity, InclusiveGateway, EndEvent],
      [ Flow(0, 1, Always, false),
        Flow(1, 2, DataEquals("A", "1"), false),
        Flow(1, 3, Always, true),
        Flow(2, 4, Always, false),
        Flow(3, 4, Always, false),
        Flow(4, 5, Always, false) ])
  }

  // ---- the graph of the all-paths process ----

  lemma AllPathsFlows()
    ensures Outgoing(AllPathsProcess(), 0) == [0]
    ensures Outgoing(AllPathsProcess(), 2) == [3]
    ensures Outgoing(AllPathsProcess(), 3) == [4]
    ensures Outgoing(AllPathsProcess(), 4) == [5]
    ensures Incoming(AllPathsProcess(), 1) == [0]
    ensures Incoming(AllPathsProcess(), 4) == [3, 4]
  {
  }

  lemma AllPathsSplitFlows()
    ensures Outgoing(AllPathsProcess(), 1) == [1, 2]
  {
  }

  // ---- single steps of the all-paths process ----

  lemma AllPathsLeaveStart(d: DataStore)
    ensures Step(AllPathsProcess(), d, [AtStart(0)]) == Stepped([Arrived(0)], [GatewayTokenArrives(1)])
  {
    var p := AllPathsProcess();
    var m := [AtStart(0)];
    assert EnabledAt(p, m, 0) == Some(LeaveStart(0));
    StepTakesFirstEnabled(p, d, m, 0, LeaveStart(0));
    AllPathsFlows();
    assert GuardedFlows(p, [0], d) == [0];
    assert ArrivalPlaces(p, [0]) == [Arrived(0)];
    assert PassEvents(p, [0], None) == [GatewayTokenArrives(1)];
  }

  lemma AllPathsSplitEnabled(d: DataStore)
    ensures Step(AllPathsProcess(), d, [Arrived(0)]) == FireInclusiveGateway(AllPathsProcess(), d, [Arrived(0)], 1)
  {
    var p := AllPathsProcess();
    var m := [Arrived(0)];
    AllPathsFlows();
    assert EnabledAt(p, m, 0) == None;
    assert ArrivedAt(p, m, 1) == 1;
    assert JoinEnabled(p, m, 1);
    StepTakesFirstEnabled(p, d, m, 1, FireGateway(1));
  }

  lemma SplitInputs(p: Process)
    requires p == AllPathsProcess()
    ensures ArrivedAt(p, [Arrived(0)], 1) == 1
    ensures ConsumeArrivals(p, [Arrived(0)], 1) == []
  {
  }

  lemma BothSelected(d: DataStore)
    requires Holds(DataEquals("A", "1"), d) && Holds(DataEquals("B", "1"), d)
    ensures Split(AllPathsProcess(), 1, d) == Some([1, 2])
  {
    AllPathsSplitFlows();
    var p := AllPathsProcess();
    assert [1, 2][1..] == [2];
    assert ConditionedFlows(p, [2], d) == [2];
    assert ConditionedFlows(p, [1, 2], d) == [1, 2];
  }

  lemma OnlyBSelected(d: DataStore)
    requires !Holds(DataEquals("A", "1"), d) && Holds(DataEquals("B", "1"), d)
    ensures Split(AllPathsProcess(), 1, d) == Some([2])
  {
    AllPathsSplitFlows();
    var p := AllPathsProcess();
    assert [1, 2][1..] == [2];
    assert ConditionedFlows(p, [2], d) == [2];
    assert ConditionedFlows(p, [1, 2], d) == [2];
  }

  lemma BothActivated()
    ensures ArrivalPlaces(AllPathsProcess(), [1, 2]) == [InActivity(2, Active), InActivity(3, Active)]
    ensures ActivationEvents(AllPathsProcess(), 1, 1, [1, 2])
         == [GatewayActivated(1), GatewayTokenConsumed(1),
             GatewayTokenPassed(1), ActivityActivated(2),
             GatewayTokenPassed(1), ActivityActivated(3)]
  {
  }

  lemma OnlyBActivated()
    ensures ArrivalPlaces(AllPathsProcess(), [2]) == [InActivity(3, Active)]
    ensures ActivationEvents(AllPathsProcess(), 1, 1, [2])
         == [GatewayActivated(1), GatewayTokenConsumed(1),
             GatewayTokenPassed(1), ActivityActivated(3)]
  {
  }

  lemma AllPathsSplitBoth(d: DataStore)
    requires Holds(DataEquals("A", "1"), d) && Holds(DataEquals("B", "1"), d)
    ensures Step(AllPathsProcess(), d, [Arrived(0)])
         == Stepped([InActivity(2, Active), InActivity(3, Active)],
                    [GatewayActivated(1), GatewayTokenConsumed(1),
                     GatewayTokenPassed(1), ActivityActivated(2),
                     GatewayTokenPassed(1), ActivityActivated(3)])
  {
    AllPathsSplitEnabled(d);
    BothSelected(d);
    SplitInputs(AllPathsProcess());
    BothActivated();
  }

  lemma AllPathsSplitOnlyB(d: DataStore)
    requires !Holds(DataEquals("A", "1"), d) && Holds(DataEquals("B", "1"), d)
    ensures Step(AllPathsProcess(), d, [Arrived(0)])
         == Stepped([InActivity(3, Active)],
                    [GatewayActivated(1), GatewayTokenConsumed(1),
                     GatewayTokenPassed(1), ActivityActivated(3)])
  {
    AllPathsSplitEnabled(d);
    OnlyBSelected(d);
    SplitInputs(AllPathsProcess());
    OnlyBActivated();
  }

  lemma AllPathsBothActiveRests(d: DataStore)
    ensures Step(AllPathsProcess(), d, [InActivity(2, Active), InActivity(3, Active)]).Quiescent?
  {
    var p := AllPathsProcess();
    var m := [InActivity(2, Active), InActivity(3, Active)];
    assert ArrivedAt(p, m, 1) == 0;
    assert ArrivedAt(p, m, 4) == 0;
    assert forall n :: 0 <= n < |p.nodes| ==> EnabledAt(p, m, n).None?;
    StepQuiescentIff(p, d, m);
  }

  lemma AllPathsCloseA(d: DataStore)
    ensures Step(AllPathsProcess(), d, [InActivity(3, Active), InActivity(2, Completed)])
         == Stepped([InActivity(3, Active), InActivity(2, Closed)], [ActivityClosed(2)])
  {
    var p := AllPathsProcess();
    var m := [InActivity(3, Active), InActivity(2, Completed)];
    assert ArrivedAt(p, m, 1) == 0;
    assert forall k :: 0 <= k < 2 ==> EnabledAt(p, m, k).None?;
    StepTakesFirstEnabled(p, d, m, 2, CloseActivity(2));
  }

  /** Each activity of the all-paths process has a single unconditional
      outgoing flow, to the join. */
  lemma ActivityFlowsToJoin(d: DataStore, a: NodeId)
    requires a == 2 || a == 3
    ensures GuardedFlows(AllPathsProcess(), Outgoing(AllPathsProcess(), a), d) == [a + 1]
    ensures ArrivalPlaces(AllPathsProcess(), [a + 1]) == [Arrived(a + 1)]
    ensures PassEvents(AllPathsProcess(), [a + 1], None) == [GatewayTokenArrives(4)]
  {
    var p := AllPathsProcess();
    AllPathsFlows();
    assert GuardedFlows(p, [a + 1], d) == [a + 1];
  }

  /** Leaving an activity of the all-paths process passes its token to the join. */
  lemma AllPathsLeaving(d: DataStore, rest: Marking, a: NodeId)
    requires a == 2 || a == 3
    ensures Execute(AllPathsProcess(), d, rest + [InActivity(a, Closed)], LeaveActivity(a))
         == Stepped(RemoveOne(rest + [InActivity(a, Closed)], InActivity(a, Closed)) + [Arrived(a + 1)],
                    [GatewayTokenArrives(4)])
  {
    ActivityFlowsToJoin(d, a);
  }

  lemma AllPathsLeaveA(d: DataStore)
    ensures Step(AllPathsProcess(), d, [InActivity(3, Active), InActivity(2, Closed)])
         == Stepped([InActivity(3, Active), Arrived(3)], [GatewayTokenArrives(4)])
  {
    var p := AllPathsProcess();
    var m := [InActivity(3, Active), InActivity(2, Closed)];
    assert ArrivedAt(p, m, 1) == 0;
    assert forall k :: 0 <= k < 2 ==> EnabledAt(p, m, k).None?;
    StepTakesFirstEnabled(p, d, m, 2, LeaveActivity(2));
    AllPathsLeaving(d, [InActivity(3, Active)], 2);
    assert RemoveOne(m, InActivity(2, Closed)) == [InActivity(3, Active)];
  }

  /** Activity B still holds its token, so the join keeps waiting for it. */
  lemma AllPathsJoinWaitsForB(d: DataStore)
    ensures !JoinEnabled(AllPathsProcess(), [InActivity(3, Active), Arrived(3)], 4)
    ensures Step(AllPathsProcess(), d, [InActivity(3, Active), Arrived(3)]).Quiescent?
  {
    var p := AllPathsProcess();
    var m := [InActivity(3, Active), Arrived(3)];
    AllPathsFlows();
    assert ArrivedAt(p, m, 1) == 0;
    assert WaitingOn(m, 4) == 0;
    assert TokensAtNode(p, m, 3) == 1;
    assert BranchPending(p, m, 4);
    assert !JoinEnabled(p, m, 4);
    assert forall n :: 0 <= n < |p.nodes| ==> EnabledAt(p, m, n).None?;
    StepQuiescentIff(p, d, m);
  }

  lemma AllPathsCloseB(d: DataStore)
    ensures Step(AllPathsProcess(), d, [Arrived(3), InActivity(3, Completed)])
         == Stepped([Arrived(3), InActivity(3, Closed)], [ActivityClosed(3)])
  {
    var p := AllPathsProcess();
    var m := [Arrived(3), InActivity(3, Completed)];
    assert ArrivedAt(p, m, 1) == 0;
    assert forall k :: 0 <= k < 3 ==> EnabledAt(p, m, k).None?;
    StepTakesFirstEnabled(p, d, m, 3, CloseActivity(3));
  }

  lemma AllPathsLeaveB(d: DataStore)
    ensures Step(AllPathsProcess(), d, [Arrived(3), InActivity(3, Closed)])
         == Stepped([Arrived(3), Arrived(4)], [GatewayTokenArrives(4)])
  {
    var p := AllPathsProcess();
    var m := [Arrived(3), InActivity(3, Closed)];
    assert ArrivedAt(p, m, 1) == 0;
    assert forall k :: 0 <= k < 3 ==> EnabledAt(p, m, k).None?;
    StepTakesFirstEnabled(p, d, m, 3, LeaveActivity(3));
    AllPathsLeaving(d, [Arrived(3)], 3);
    assert RemoveOne(m, InActivity(3, Closed)) == [Arrived(3)];
  }

  /** Both branches have delivered, so the join is satisfied. */
  lemma AllPathsJoinSatisfied()
    ensures ArrivedAt(AllPathsProcess(), [Arrived(3), Arrived(4)], 1) == 0
    ensures JoinEnabled(AllPathsProcess(), [Arrived(3), Arrived(4)], 4)
  {
    var p := AllPathsProcess();
    var m := [Arrived(3), Arrived(4)];
    AllPathsFlows();
    assert ArrivedAt(p, m, 4) == 2;
    assert WaitingOn(m, 3) == 1 && WaitingOn(m, 4) == 1;
  }

  lemma AllPathsJoinEnabled(d: DataStore)
    ensures Step(AllPathsProcess(), d, [Arrived(3), Arrived(4)])
         == FireInclusiveGateway(AllPathsProcess(), d, [Arrived(3), Arrived(4)], 4)
  {
    var p := AllPathsProcess();
    var m := [Arrived(3), Arrived(4)];
    AllPathsJoinSatisfied();
    assert forall k :: 0 <= k < 4 ==> EnabledAt(p, m, k).None?;
    StepTakesFirstEnabled(p, d, m, 4, FireGateway(4));
  }

  /** The join has a single unconditional outgoing flow, to the end event. */
  lemma JoinPassesToEnd(p: Process, d: DataStore)
    requires p == AllPathsProcess() || p == DefaultProcess()
    ensures Split(p, 4, d) == Some([5])
    ensures ArrivalPlaces(p, [5]) == [AtEnd(5)]
  {
    assert Outgoing(p, 4) == [5];
    assert ConditionedFlows(p, [5], d) == [5];
  }

  /** The join's activation log when `k` tokens have arrived: one
      TOKEN_CONSUMED per token, then the pass to the end event. */
  lemma JoinEvents(p: Process)
    requires p == AllPathsProcess() || p == DefaultProcess()
    ensures ActivationEvents(p, 4, 1, [5])
         == [GatewayActivated(4), GatewayTokenConsumed(4), GatewayTokenPassed(4), EventTriggered(5)]
    ensures ActivationEvents(p, 4, 2, [5])
         == [GatewayActivated(4), GatewayTokenConsumed(4), GatewayTokenConsumed(4),
             GatewayTokenPassed(4), EventTriggered(5)]
  {
    assert PassEvents(p, [5], Some(4)) == [GatewayTokenPassed(4), EventTriggered(5)];
  }

  lemma AllPathsJoinActivation(d: DataStore)
    ensures FireInclusiveGateway(AllPathsProcess(), d, [Arrived(3), Arrived(4)], 4)
         == Stepped([AtEnd(5)],
                    [GatewayActivated(4), GatewayTokenConsumed(4), GatewayTokenConsumed(4),
                     GatewayTokenPassed(4), EventTriggered(5)])
  {
    var p := AllPathsProcess();
    var m := [Arrived(3), Arrived(4)];
    JoinPassesToEnd(p, d);
    JoinEvents(p);
    assert ArrivedAt(p, m, 4) == 2;
    assert ConsumeArrivals(p, m, 4) == [];
  }

  lemma AllPathsJoinFires(d: DataStore)
    ensures Step(AllPathsProcess(), d, [Arrived(3), Arrived(4)])
         == Stepped([AtEnd(5)],
                    [GatewayActivated(4), GatewayTokenConsumed(4), GatewayTokenConsumed(4),
                     GatewayTokenPassed(4), EventTriggered(5)])
  {
    AllPathsJoinEnabled(d);
    AllPathsJoinActivation(d);
  }

  lemma AllPathsEnded(d: DataStore)
    ensures Step(AllPathsProcess(), d, [AtEnd(5)]).Quiescent?
  {
    var p := AllPathsProcess();
    var m := [AtEnd(5)];
    assert ArrivedAt(p, m, 1) == 0;
    assert ArrivedAt(p, m, 4) == 0;
    assert forall n :: 0 <= n < |p.nodes| ==> EnabledAt(p, m, n).None?;
    StepQuiescentIff(p, d, m);
  }

  // ---- single steps when only activity B was selected ----

  lemma OnlyBActiveRests(d: DataStore)
    ensures Step(AllPathsProcess(), d, [InActivity(3, Active)]).Quiescent?
  {
    var p := AllPathsProcess();
    var m := [InActivity(3, Active)];
    assert ArrivedAt(p, m, 1) == 0;
    assert ArrivedAt(p, m, 4) == 0;
    assert forall n :: 0 <= n < |p.nodes| ==> EnabledAt(p, m, n).None?;
    StepQuiescentIff(p, d, m);
  }

  lemma OnlyBCloseB(d: DataStore)
    ensures Step(AllPathsProcess(), d, [InActivity(3, Completed)])
         == Stepped([InActivity(3, Closed)], [ActivityClosed(3)])
  {
    var p := AllPathsProcess();
    var m := [InActivity(3, Completed)];
    assert ArrivedAt(p, m, 1) == 0;
    assert forall k :: 0 <= k < 3 ==> EnabledAt(p, m, k).None?;
    StepTakesFirstEnabled(p, d, m, 3, CloseActivity(3));
  }

  lemma OnlyBLeaveB(d: DataStore)
    ensures Step(AllPathsProcess(), d, [InActivity(3, Closed)])
         == Stepped([Arrived(4)], [GatewayTokenArrives(4)])
  {
    var p := AllPathsProcess();
    var m := [InActivity(3, Closed)];
    assert ArrivedAt(p, m, 1) == 0;
    assert forall k :: 0 <= k < 3 ==> EnabledAt(p, m, k).None?;
    StepTakesFirstEnabled(p, d, m, 3, LeaveActivity(3));
    assert [] + m == m;
    AllPathsLeaving(d, [], 3);
  }

  /** Activity A was never activated, so its branch is not pending and the
      join is satisfied by the single token from B. */
  lemma OnlyBJoinSatisfied()
    ensures ArrivedAt(AllPathsProcess(), [Arrived(4)], 1) == 0
    ensures JoinEnabled(AllPathsProcess(), [Arrived(4)], 4)
  {
    var p := AllPathsProcess();
    var m := [Arrived(4)];
    AllPathsFlows();
    assert ArrivedAt(p, m, 4) == 1;
    assert WaitingOn(m, 4) == 1;
    assert TokensAtNode(p, m, 2) == 0;
  }

  lemma OnlyBJoinEnabled(d: DataStore)
    ensures Step(AllPathsProcess(), d, [Arrived(4)])
         == FireInclusiveGateway(AllPathsProcess(), d, [Arrived(4)], 4)
  {
    var p := AllPathsProcess();
    var m := [Arrived(4)];
    OnlyBJoinSatisfied();
    assert EnabledAt(p, m, 0).None? && EnabledAt(p, m, 1).None?;
    assert EnabledAt(p, m, 2).None? && EnabledAt(p, m, 3).None?;
    StepTakesFirstEnabled(p, d, m, 4, FireGateway(4));
  }

  lemma OnlyBJoinActivation(d: DataStore)
    ensures FireInclusiveGateway(AllPathsProcess(), d, [Arrived(4)], 4)
         == Stepped([AtEnd(5)],
                    [GatewayActivated(4), GatewayTokenConsumed(4),
                     GatewayTokenPassed(4), EventTriggered(5)])
  {
    var p := AllPathsProcess();
    var m := [Arrived(4)];
    JoinPassesToEnd(p, d);
    JoinEvents(p);
    assert ArrivedAt(p, m, 4) == 1;
    assert ConsumeArrivals(p, m, 4) == [];
  }

  lemma OnlyBJoinFires(d: DataStore)
    ensures Step(AllPathsProcess(), d, [Arrived(4)])
         == Stepped([AtEnd(5)],
                    [GatewayActivated(4), GatewayTokenConsumed(4),
                     GatewayTokenPassed(4), EventTriggered(5)])
  {
    OnlyBJoinEnabled(d);
    OnlyBJoinActivation(d);
  }

  // ---- the process with a default flow ----

  lemma DefaultFlowsOfNodes()
    ensures Outgoing(DefaultProcess(), 0) == [0]
    ensures Outgoing(DefaultProcess(), 1) == [1, 2]
    ensures Incoming(DefaultProcess(), 1) == [0]
  {
  }

  lemma DefaultLeaveStart(d: DataStore)
    ensures Step(DefaultProcess(), d, [AtStart(0)]) == Stepped([Arrived(0)], [GatewayTokenArrives(1)])
  {
    var p := DefaultProcess();
    var m := [AtStart(0)];
    assert EnabledAt(p, m, 0) == Some(LeaveStart(0));
    StepTakesFirstEnabled(p, d, m, 0, LeaveStart(0));
    DefaultFlowsOfNodes();
    assert GuardedFlows(p, [0], d) == [0];
    assert ArrivalPlaces(p, [0]) == [Arrived(0)];
    assert PassEvents(p, [0], None) == [GatewayTokenArrives(1)];
  }

  lemma DefaultSplitEnabled(d: DataStore)
    ensures Step(DefaultProcess(), d, [Arrived(0)]) == FireInclusiveGateway(DefaultProcess(), d, [Arrived(0)], 1)
  {
    var p := DefaultProcess();
    var m := [Arrived(0)];
    DefaultFlowsOfNodes();
    assert EnabledAt(p, m, 0) == None;
    assert ArrivedAt(p, m, 1) == 1;
    assert JoinEnabled(p, m, 1);
    StepTakesFirstEnabled(p, d, m, 1, FireGateway(1));
  }

  /** When A is not '1' no condition holds, so the split falls back on its default flow. */
  lemma DefaultTaken(d: DataStore)
    requires !Holds(DataEquals("A", "1"), d)
    ensures Split(DefaultProcess(), 1, d) == Some([2])
  {
    DefaultFlowsOfNodes();
    var p := DefaultProcess();
    assert [1, 2][1..] == [2];
    assert ConditionedFlows(p, [2], d) == [];
    assert ConditionedFlows(p, [1, 2], d) == [];
    assert DefaultFlows(DefaultProcess(), [1, 2]) == [2];
  }

  /** When A is '1' the condition to activity A holds, so the default flow is not taken. */
  lemma ConditionTaken(d: DataStore)
    requires Holds(DataEquals("A", "1"), d)
    ensures Split(DefaultProcess(), 1, d) == Some([1])
  {
    DefaultFlowsOfNodes();
    var p := DefaultProcess();
    assert [1, 2][1..] == [2];
    assert ConditionedFlows(p, [2], d) == [];
    assert ConditionedFlows(p, [1, 2], d) == [1];
  }

  lemma DefaultSplitInputs(p: Process)
    requires p == DefaultProcess()
    ensures ArrivedAt(p, [Arrived(0)], 1) == 1
    ensures ConsumeArrivals(p, [Arrived(0)], 1) == []
  {
  }

  lemma DefaultActivated(a: NodeId)
    requires a == 2 || a == 3
    ensures ArrivalPlaces(DefaultProcess(), [a - 1]) == [InActivity(a, Active)]
    ensures ActivationEvents(DefaultProcess(), 1, 1, [a - 1])
         == [GatewayActivated(1), GatewayTokenConsumed(1),
             GatewayTokenPassed(1), ActivityActivated(a)]
  {
    var p := DefaultProcess();
    if a == 2 {
      assert PassEvents(p, [1], Some(1)) == [GatewayTokenPassed(1), ActivityActivated(2)];
    } else {
      assert PassEvents(p, [2], Some(1)) == [GatewayTokenPassed(1), ActivityActivated(3)];
    }
  }

  lemma DefaultSplitToB(d: DataStore)
    requires !Holds(DataEquals("A", "1"), d)
    ensures Step(DefaultProcess(), d, [Arrived(0)])
         == Stepped([InActivity(3, Active)],
                    [GatewayActivated(1), GatewayTokenConsumed(1),
                     GatewayTokenPassed(1), ActivityActivated(3)])
  {
    DefaultSplitEnabled(d);
    DefaultTaken(d);
    DefaultSplitInputs(DefaultProcess());
    DefaultActivated(3);
  }

  lemma DefaultSplitToA(d: DataStore)
    requires Holds(DataEquals("A", "1"), d)
    ensures Step(DefaultProcess(), d, [Arrived(0)])
         == Stepped([InActivity(2, Active)],
                    [GatewayActivated(1), GatewayTokenConsumed(1),
                     GatewayTokenPassed(1), ActivityActivated(2)])
  {
    DefaultSplitEnabled(d);
    ConditionTaken(d);
    DefaultSplitInputs(DefaultProcess());
    DefaultActivated(2);
  }

  /** A single active token in activity `a` enables nothing. */
  lemma DefaultActiveRests(d: DataStore, a: NodeId)
    requires a == 2 || a == 3
    ensures Step(DefaultProcess(), d, [InActivity(a, Active)]).Quiescent?
  {
    var p := DefaultProcess();
    var m := [InActivity(a, Active)];
    assert ArrivedAt(p, m, 1) == 0;
    assert ArrivedAt(p, m, 4) == 0;
    assert forall n :: 0 <= n < |p.nodes| ==> EnabledAt(p, m, n).None?;
    StepQuiescentIff(p, d, m);
  }
}
