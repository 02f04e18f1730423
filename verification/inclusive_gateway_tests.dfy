/** The feature tests of the inclusive gateway, phase by phase: starting the
    process or completing an activity, then running to the next state, yields
    exactly the event log each test asserts.
 */
module InclusiveGatewayTests {
  import opened Bpmn
  import opened ProcessGraph
  import opened Engine
  import opened InclusiveGatewayScenarios

  // ---- testInclusiveGatewayAllPaths: A == '1' and B == '1' ----

  // The small `...Log(s)` lemmas state how the logs of consecutive steps join
  // up. They are kept apart from the run lemmas: proved inside a run lemma's
  // context, these literal sequence equalities cost the solver far more.

  /** A log followed by nothing. */
  lemma EndsLog(log: seq<Event>)
    ensures log + [] == log
  {
  }

  lemma AllPathsFirstLog(split: seq<Event>)
    requires split == [GatewayActivated(1), GatewayTokenConsumed(1),
                       GatewayTokenPassed(1), ActivityActivated(2),
                       GatewayTokenPassed(1), ActivityActivated(3)]
    ensures [GatewayTokenArrives(1)] + split
         == [GatewayTokenArrives(1), GatewayActivated(1), GatewayTokenConsumed(1),
             GatewayTokenPassed(1), ActivityActivated(2),
             GatewayTokenPassed(1), ActivityActivated(3)]
  {
  }

  /** Starting the process and running it activates both activities. */
  lemma AllPathsFirstRun(d: DataStore, n: nat)
    requires Holds(DataEquals("A", "1"), d) && Holds(DataEquals("B", "1"), d)
    requires n >= 2
    ensures RunToNextState(AllPathsProcess(), d, [AtStart(0)], n)
         == RunResult([InActivity(2, Active), InActivity(3, Active)],
                      [GatewayTokenArrives(1), GatewayActivated(1), GatewayTokenConsumed(1),
                       GatewayTokenPassed(1), ActivityActivated(2),
                       GatewayTokenPassed(1), ActivityActivated(3)],
                      Stable)
  {
    var p := AllPathsProcess();
    var k := n - 1;
    var j := k - 1;
    var split := [GatewayActivated(1), GatewayTokenConsumed(1),
                  GatewayTokenPassed(1), ActivityActivated(2),
                  GatewayTokenPassed(1), ActivityActivated(3)];
    AllPathsBothActiveRests(d);
    RunFromQuiescent(p, d, [InActivity(2, Active), InActivity(3, Active)], j);
    AllPathsSplitBoth(d);
    EndsLog(split);
    RunTakesStep(p, d, [Arrived(0)], k, j, [InActivity(2, Active), InActivity(3, Active)], split,
                 [InActivity(2, Active), InActivity(3, Active)], [], Stable);
    AllPathsLeaveStart(d);
    AllPathsFirstLog(split);
    RunTakesStep(p, d, [AtStart(0)], n, k, [Arrived(0)], [GatewayTokenArrives(1)],
                 [InActivity(2, Active), InActivity(3, Active)], split, Stable);
  }

  /** Completing activity A turns its active token into a completed one. */
  lemma AllPathsCompleteA()
    ensures Complete(AllPathsProcess(), [InActivity(2, Active), InActivity(3, Active)], 2)
         == Some(([InActivity(3, Active), InActivity(2, Completed)], [ActivityCompleted(2)]))
  {
    var c := Complete(AllPathsProcess(), [InActivity(2, Active), InActivity(3, Active)], 2);
    assert RemoveOne([InActivity(2, Active), InActivity(3, Active)], InActivity(2, Active)) == [InActivity(3, Active)];
    assert c.Some? && c.value.0 == [InActivity(3, Active), InActivity(2, Completed)];
  }

  /** Running with a budget of one step closes A and stops short: leaving A
      is still enabled. */
  lemma AllPathsSingleStep(d: DataStore)
    ensures RunToNextState(AllPathsProcess(), d, [InActivity(3, Active), InActivity(2, Completed)], 1)
         == RunResult([InActivity(3, Active), InActivity(2, Closed)], [ActivityClosed(2)], BudgetExhausted)
  {
    AllPathsCloseA(d);
    AllPathsLeaveA(d);
    BudgetOneLeavesWork(AllPathsProcess(), d, [InActivity(3, Active), InActivity(2, Completed)]);
  }

  /** Resuming moves A's token to the join, which keeps waiting for B. */
  lemma AllPathsResume(d: DataStore, n: nat)
    requires n >= 1
    ensures RunToNextState(AllPathsProcess(), d,
                           [InActivity(3, Active), InActivity(2, Closed)], n)
         == RunResult([InActivity(3, Active), Arrived(3)], [GatewayTokenArrives(4)], Stable)
  {
    var p := AllPathsProcess();
    var k := n - 1;
    AllPathsJoinWaitsForB(d);
    RunFromQuiescent(p, d, [InActivity(3, Active), Arrived(3)], k);
    AllPathsLeaveA(d);
    EndsLog([GatewayTokenArrives(4)]);
    RunTakesStep(p, d, [InActivity(3, Active), InActivity(2, Closed)], n, k,
                 [InActivity(3, Active), Arrived(3)], [GatewayTokenArrives(4)],
                 [InActivity(3, Active), Arrived(3)], [], Stable);
  }

  /** Completing activity B turns its active token into a completed one. */
  lemma AllPathsCompleteB()
    ensures Complete(AllPathsProcess(), [InActivity(3, Active), Arrived(3)], 3)
         == Some(([Arrived(3), InActivity(3, Completed)], [ActivityCompleted(3)]))
  {
    var c := Complete(AllPathsProcess(), [InActivity(3, Active), Arrived(3)], 3);
    assert RemoveOne([InActivity(3, Active), Arrived(3)], InActivity(3, Active)) == [Arrived(3)];
    assert c.Some? && c.value.0 == [Arrived(3), InActivity(3, Completed)];
  }

  /** The logs of the final run, assembled step by step. */
  lemma AllPathsFinalLogs(fire: seq<Event>, leave: seq<Event>)
    requires fire == [GatewayActivated(4), GatewayTokenConsumed(4), GatewayTokenConsumed(4),
                      GatewayTokenPassed(4), EventTriggered(5)]
    requires leave == [GatewayTokenArrives(4), GatewayActivated(4), GatewayTokenConsumed(4),
                       GatewayTokenConsumed(4), GatewayTokenPassed(4), EventTriggered(5)]
    ensures fire + [] == fire
    ensures [GatewayTokenArrives(4)] + fire == leave
    ensures [ActivityClosed(3)] + leave
         == [ActivityClosed(3), GatewayTokenArrives(4), GatewayActivated(4),
             GatewayTokenConsumed(4), GatewayTokenConsumed(4),
             GatewayTokenPassed(4), EventTriggered(5)]
  {
  }

  /** With both tokens waiting at the join, the run fires it and the process ends. */
  lemma AllPathsRunFromJoin(d: DataStore, n: nat)
    requires n >= 2
    ensures RunToNextState(AllPathsProcess(), d, [Arrived(3), Arrived(4)], n)
         == RunResult([AtEnd(5)],
                      [GatewayActivated(4), GatewayTokenConsumed(4), GatewayTokenConsumed(4),
                       GatewayTokenPassed(4), EventTriggered(5)],
                      Stable)
  {
    var p := AllPathsProcess();
    var k := n - 1;
    var fire := [GatewayActivated(4), GatewayTokenConsumed(4), GatewayTokenConsumed(4),
                 GatewayTokenPassed(4), EventTriggered(5)];
    AllPathsEnded(d);
    RunFromQuiescent(p, d, [AtEnd(5)], k);
    AllPathsJoinFires(d);
    EndsLog(fire);
    RunTakesStep(p, d, [Arrived(3), Arrived(4)], n, k, [AtEnd(5)], fire, [AtEnd(5)], [], Stable);
  }

  /** Leaving B brings its token to the join, which then fires. */
  lemma AllPathsRunFromLeaveB(d: DataStore, n: nat)
    requires n >= 3
    ensures RunToNextState(AllPathsProcess(), d, [Arrived(3), InActivity(3, Closed)], n)
         == RunResult([AtEnd(5)],
                      [GatewayTokenArrives(4), GatewayActivated(4), GatewayTokenConsumed(4),
                       GatewayTokenConsumed(4), GatewayTokenPassed(4), EventTriggered(5)],
                      Stable)
  {
    var p := AllPathsProcess();
    var k := n - 1;
    var fire := [GatewayActivated(4), GatewayTokenConsumed(4), GatewayTokenConsumed(4),
                 GatewayTokenPassed(4), EventTriggered(5)];
    var leave := [GatewayTokenArrives(4), GatewayActivated(4), GatewayTokenConsumed(4),
                  GatewayTokenConsumed(4), GatewayTokenPassed(4), EventTriggered(5)];
    AllPathsRunFromJoin(d, k);
    AllPathsLeaveB(d);
    AllPathsFinalLogs(fire, leave);
    RunTakesStep(p, d, [Arrived(3), InActivity(3, Closed)], n, k, [Arrived(3), Arrived(4)], [GatewayTokenArrives(4)],
                 [AtEnd(5)], fire, Stable);
  }

  /** Running after B completes lets the join fire on both tokens and the
      process end. */
  lemma AllPathsFinalRun(d: DataStore, n: nat)
    requires n >= 4
    ensures RunToNextState(AllPathsProcess(), d, [Arrived(3), InActivity(3, Completed)], n)
         == RunResult([AtEnd(5)],
                      [ActivityClosed(3), GatewayTokenArrives(4), GatewayActivated(4),
                       GatewayTokenConsumed(4), GatewayTokenConsumed(4),
                       GatewayTokenPassed(4), EventTriggered(5)],
                      Stable)
  {
    var p := AllPathsProcess();
    var k := n - 1;
    var fire := [GatewayActivated(4), GatewayTokenConsumed(4), GatewayTokenConsumed(4),
                 GatewayTokenPassed(4), EventTriggered(5)];
    var leave := [GatewayTokenArrives(4), GatewayActivated(4), GatewayTokenConsumed(4),
                  GatewayTokenConsumed(4), GatewayTokenPassed(4), EventTriggered(5)];
    AllPathsRunFromLeaveB(d, k);
    AllPathsCloseB(d);
    AllPathsFinalLogs(fire, leave);
    RunTakesStep(p, d, [Arrived(3), InActivity(3, Completed)], n, k, [Arrived(3), InActivity(3, Closed)], [ActivityClosed(3)],
                 [AtEnd(5)], leave, Stable);
  }

  // ---- testInclusiveGatewayOnlyB: A == '0' and B == '1' ----

  /** The log of a first run that activates a single activity `a`. */
  lemma SingleSplitLog(split: seq<Event>, a: NodeId)
    requires split == [GatewayActivated(1), GatewayTokenConsumed(1),
                       GatewayTokenPassed(1), ActivityActivated(a)]
    ensures split + [] == split
    ensures [GatewayTokenArrives(1)] + split
         == [GatewayTokenArrives(1), GatewayActivated(1), GatewayTokenConsumed(1),
             GatewayTokenPassed(1), ActivityActivated(a)]
  {
  }

  /** Starting the process and running it activates activity B only. */
  lemma OnlyBFirstRun(d: DataStore, n: nat)
    requires !Holds(DataEquals("A", "1"), d) && Holds(DataEquals("B", "1"), d)
    requires n >= 2
    ensures RunToNextState(AllPathsProcess(), d, [AtStart(0)], n)
         == RunResult([InActivity(3, Active)],
                      [GatewayTokenArrives(1), GatewayActivated(1), GatewayTokenConsumed(1),
                       GatewayTokenPassed(1), ActivityActivated(3)],
                      Stable)
  {
    var p := AllPathsProcess();
    var k := n - 1;
    var j := k - 1;
    var split := [GatewayActivated(1), GatewayTokenConsumed(1),
                  GatewayTokenPassed(1), ActivityActivated(3)];
    OnlyBActiveRests(d);
    RunFromQuiescent(p, d, [InActivity(3, Active)], j);
    AllPathsSplitOnlyB(d);
    SingleSplitLog(split, 3);
    RunTakesStep(p, d, [Arrived(0)], k, j, [InActivity(3, Active)], split, [InActivity(3, Active)], [], Stable);
    AllPathsLeaveStart(d);
    RunTakesStep(p, d, [AtStart(0)], n, k, [Arrived(0)], [GatewayTokenArrives(1)], [InActivity(3, Active)], split, Stable);
  }

  lemma OnlyBComplete()
    ensures Complete(AllPathsProcess(), [InActivity(3, Active)], 3)
         == Some(([InActivity(3, Completed)], [ActivityCompleted(3)]))
  {
    var c := Complete(AllPathsProcess(), [InActivity(3, Active)], 3);
    assert RemoveOne([InActivity(3, Active)], InActivity(3, Active)) == [];
    assert c.Some? && c.value.0 == [InActivity(3, Completed)];
  }

  lemma OnlyBFinalLogs(fire: seq<Event>, leave: seq<Event>)
    requires fire == [GatewayActivated(4), GatewayTokenConsumed(4), GatewayTokenPassed(4), EventTriggered(5)]
    requires leave == [GatewayTokenArrives(4), GatewayActivated(4), GatewayTokenConsumed(4),
                       GatewayTokenPassed(4), EventTriggered(5)]
    ensures fire + [] == fire
    ensures [GatewayTokenArrives(4)] + fire == leave
    ensures [ActivityClosed(3)] + leave
         == [ActivityClosed(3), GatewayTokenArrives(4), GatewayActivated(4),
             GatewayTokenConsumed(4), GatewayTokenPassed(4), EventTriggered(5)]
  {
  }

  /** With B's token alone at the join, the run fires it and the process ends:
      A's branch was never taken, so the join does not wait for it. */
  lemma OnlyBRunFromJoin(d: DataStore, n: nat)
    requires n >= 2
    ensures RunToNextState(AllPathsProcess(), d, [Arrived(4)], n)
         == RunResult([AtEnd(5)],
                      [GatewayActivated(4), GatewayTokenConsumed(4), GatewayTokenPassed(4), EventTriggered(5)],
                      Stable)
  {
    var p := AllPathsProcess();
    var k := n - 1;
    var fire := [GatewayActivated(4), GatewayTokenConsumed(4), GatewayTokenPassed(4), EventTriggered(5)];
    AllPathsEnded(d);
    RunFromQuiescent(p, d, [AtEnd(5)], k);
    OnlyBJoinFires(d);
    EndsLog(fire);
    RunTakesStep(p, d, [Arrived(4)], n, k, [AtEnd(5)], fire, [AtEnd(5)], [], Stable);
  }

  /** Leaving B brings its token to the join, which then fires. */
  lemma OnlyBRunFromLeaveB(d: DataStore, n: nat)
    requires n >= 3
    ensures RunToNextState(AllPathsProcess(), d, [InActivity(3, Closed)], n)
         == RunResult([AtEnd(5)],
                      [GatewayTokenArrives(4), GatewayActivated(4), GatewayTokenConsumed(4),
                       GatewayTokenPassed(4), EventTriggered(5)],
                      Stable)
  {
    var p := AllPathsProcess();
    var k := n - 1;
    var fire := [GatewayActivated(4), GatewayTokenConsumed(4), GatewayTokenPassed(4), EventTriggered(5)];
    var leave := [GatewayTokenArrives(4), GatewayActivated(4), GatewayTokenConsumed(4),
                  GatewayTokenPassed(4), EventTriggered(5)];
    OnlyBRunFromJoin(d, k);
    OnlyBLeaveB(d);
    OnlyBFinalLogs(fire, leave);
    RunTakesStep(p, d, [InActivity(3, Closed)], n, k, [Arrived(4)], [GatewayTokenArrives(4)], [AtEnd(5)], fire, Stable);
  }

  /** Running after B completes closes B, lets the join fire and the process end. */
  lemma OnlyBFinalRun(d: DataStore, n: nat)
    requires n >= 4
    ensures RunToNextState(AllPathsProcess(), d, [InActivity(3, Completed)], n)
         == RunResult([AtEnd(5)],
                      [ActivityClosed(3), GatewayTokenArrives(4), GatewayActivated(4),
                       GatewayTokenConsumed(4), GatewayTokenPassed(4), EventTriggered(5)],
                      Stable)
  {
    var p := AllPathsProcess();
    var k := n - 1;
    var fire := [GatewayActivated(4), GatewayTokenConsumed(4), GatewayTokenPassed(4), EventTriggered(5)];
    var leave := [GatewayTokenArrives(4), GatewayActivated(4), GatewayTokenConsumed(4),
                  GatewayTokenPassed(4), EventTriggered(5)];
    OnlyBRunFromLeaveB(d, k);
    OnlyBCloseB(d);
    OnlyBFinalLogs(fire, leave);
    RunTakesStep(p, d, [InActivity(3, Completed)], n, k, [InActivity(3, Closed)], [ActivityClosed(3)], [AtEnd(5)], leave, Stable);
  }

  // ---- testDefaultTransition ----

  /** With A == '2' no condition holds and the default flow activates B. */
  lemma DefaultRunToB(d: DataStore, n: nat)
    requires !Holds(DataEquals("A", "1"), d)
    requires n >= 2
    ensures RunToNextState(DefaultProcess(), d, [AtStart(0)], n)
         == RunResult([InActivity(3, Active)],
                      [GatewayTokenArrives(1), GatewayActivated(1), GatewayTokenConsumed(1),
                       GatewayTokenPassed(1), ActivityActivated(3)],
                      Stable)
  {
    var p := DefaultProcess();
    var k := n - 1;
    var j := k - 1;
    var split := [GatewayActivated(1), GatewayTokenConsumed(1),
                  GatewayTokenPassed(1), ActivityActivated(3)];
    DefaultActiveRests(d, 3);
    RunFromQuiescent(p, d, [InActivity(3, Active)], j);
    DefaultSplitToB(d);
    SingleSplitLog(split, 3);
    RunTakesStep(p, d, [Arrived(0)], k, j, [InActivity(3, Active)], split, [InActivity(3, Active)], [], Stable);
    DefaultLeaveStart(d);
    RunTakesStep(p, d, [AtStart(0)], n, k, [Arrived(0)], [GatewayTokenArrives(1)], [InActivity(3, Active)], split, Stable);
  }

  /** With A == '1' the conditioned flow activates A and the default flow is not taken. */
  lemma DefaultRunToA(d: DataStore, n: nat)
    requires Holds(DataEquals("A", "1"), d)
    requires n >= 2
    ensures RunToNextState(DefaultProcess(), d, [AtStart(0)], n)
         == RunResult([InActivity(2, Active)],
                      [GatewayTokenArrives(1), GatewayActivated(1), GatewayTokenConsumed(1),
                       GatewayTokenPassed(1), ActivityActivated(2)],
                      Stable)
  {
    var p := DefaultProcess();
    var k := n - 1;
    var j := k - 1;
    var split := [GatewayActivated(1), GatewayTokenConsumed(1),
                  GatewayTokenPassed(1), ActivityActivated(2)];
    DefaultActiveRests(d, 2);
    RunFromQuiescent(p, d, [InActivity(2, Active)], j);
    DefaultSplitToA(d);
    SingleSplitLog(split, 2);
    RunTakesStep(p, d, [Arrived(0)], k, j, [InActivity(2, Active)], split, [InActivity(2, Active)], [], Stable);
    DefaultLeaveStart(d);
    RunTakesStep(p, d, [AtStart(0)], n, k, [Arrived(0)], [GatewayTokenArrives(1)], [InActivity(2, Active)], split, Stable);
  }

  // ---- the three tests end to end ----

  /** testInclusiveGatewayAllPaths: the start activates both activities;
      after A completes, a one-step run reports false, and the resumed run
      brings A's token to the join, which waits; after B completes, the join
      fires once, consuming both tokens, and the process ends. Any budgets
      large enough stand for the unbounded `runToNextState()`. */
  lemma TestInclusiveGatewayAllPaths(d: DataStore, n1: nat, n2: nat, n3: nat)
    requires Holds(DataEquals("A", "1"), d) && Holds(DataEquals("B", "1"), d)
    requires n1 >= 2 && n2 >= 1 && n3 >= 4
    ensures var p := AllPathsProcess();
            var s := Start(p, [], 0);
            var r1 := RunToNextState(p, d, s.0, n1);
            && r1.outcome == Stable
            && s.1 + r1.events
               == [EventTriggered(0), GatewayTokenArrives(1), GatewayActivated(1), GatewayTokenConsumed(1),
                   GatewayTokenPassed(1), ActivityActivated(2),
                   GatewayTokenPassed(1), ActivityActivated(3)]
            && var ca := Complete(p, r1.marking, 2);
            && ca.Some?
            && var r2 := RunToNextState(p, d, ca.value.0, 1);
            && r2.outcome == BudgetExhausted
            && var r3 := RunToNextState(p, d, r2.marking, n2);
            && r3.outcome == Stable
            && ca.value.1 + r2.events + r3.events
               == [ActivityCompleted(2), ActivityClosed(2), GatewayTokenArrives(4)]
            && var cb := Complete(p, r3.marking, 3);
            && cb.Some?
            && var r4 := RunToNextState(p, d, cb.value.0, n3);
            && r4.outcome == Stable
            && r4.marking == [AtEnd(5)]
            && cb.value.1 + r4.events
               == [ActivityCompleted(3), ActivityClosed(3), GatewayTokenArrives(4), GatewayActivated(4),
                   GatewayTokenConsumed(4), GatewayTokenConsumed(4),
                   GatewayTokenPassed(4), EventTriggered(5)]
  {
    var p := AllPathsProcess();
    var first := [GatewayTokenArrives(1), GatewayActivated(1), GatewayTokenConsumed(1),
                  GatewayTokenPassed(1), ActivityActivated(2),
                  GatewayTokenPassed(1), ActivityActivated(3)];
    var last := [ActivityClosed(3), GatewayTokenArrives(4), GatewayActivated(4),
                 GatewayTokenConsumed(4), GatewayTokenConsumed(4),
                 GatewayTokenPassed(4), EventTriggered(5)];
    assert [EventTriggered(0)] + first
        == [EventTriggered(0), GatewayTokenArrives(1), GatewayActivated(1), GatewayTokenConsumed(1),
            GatewayTokenPassed(1), ActivityActivated(2),
            GatewayTokenPassed(1), ActivityActivated(3)];
    assert [ActivityCompleted(3)] + last
        == [ActivityCompleted(3), ActivityClosed(3), GatewayTokenArrives(4), GatewayActivated(4),
            GatewayTokenConsumed(4), GatewayTokenConsumed(4),
            GatewayTokenPassed(4), EventTriggered(5)];
    assert [ActivityCompleted(2)] + [ActivityClosed(2)] + [GatewayTokenArrives(4)]
        == [ActivityCompleted(2), ActivityClosed(2), GatewayTokenArrives(4)];
    assert Start(p, [], 0).0 == [AtStart(0)];
    AllPathsFirstRun(d, n1);
    AllPathsCompleteA();
    AllPathsSingleStep(d);
    AllPathsResume(d, n2);
    AllPathsCompleteB();
    AllPathsFinalRun(d, n3);
  }

  /** testInclusiveGatewayOnlyB: the start activates B alone; after B
      completes, the join fires on B's single token and the process ends. */
  lemma TestInclusiveGatewayOnlyB(d: DataStore, n1: nat, n2: nat)
    requires !Holds(DataEquals("A", "1"), d) && Holds(DataEquals("B", "1"), d)
    requires n1 >= 2 && n2 >= 4
    ensures var p := AllPathsProcess();
            var s := Start(p, [], 0);
            var r1 := RunToNextState(p, d, s.0, n1);
            && r1.outcome == Stable
            && s.1 + r1.events
               == [EventTriggered(0), GatewayTokenArrives(1), GatewayActivated(1), GatewayTokenConsumed(1),
                   GatewayTokenPassed(1), ActivityActivated(3)]
            && var cb := Complete(p, r1.marking, 3);
            && cb.Some?
            && var r2 := RunToNextState(p, d, cb.value.0, n2);
            && r2.outcome == Stable
            && r2.marking == [AtEnd(5)]
            && cb.value.1 + r2.events
               == [ActivityCompleted(3), ActivityClosed(3), GatewayTokenArrives(4), GatewayActivated(4),
                   GatewayTokenConsumed(4), GatewayTokenPassed(4), EventTriggered(5)]
  {
    var p := AllPathsProcess();
    var first := [GatewayTokenArrives(1), GatewayActivated(1), GatewayTokenConsumed(1),
                  GatewayTokenPassed(1), ActivityActivated(3)];
    var last := [ActivityClosed(3), GatewayTokenArrives(4), GatewayActivated(4),
                 GatewayTokenConsumed(4), GatewayTokenPassed(4), EventTriggered(5)];
    assert [EventTriggered(0)] + first
        == [EventTriggered(0), GatewayTokenArrives(1), GatewayActivated(1), GatewayTokenConsumed(1),
            GatewayTokenPassed(1), ActivityActivated(3)];
    assert [ActivityCompleted(3)] + last
        == [ActivityCompleted(3), ActivityClosed(3), GatewayTokenArrives(4), GatewayActivated(4),
            GatewayTokenConsumed(4), GatewayTokenPassed(4), EventTriggered(5)];
    assert Start(p, [], 0).0 == [AtStart(0)];
    OnlyBFirstRun(d, n1);
    OnlyBComplete();
    OnlyBFinalRun(d, n2);
  }

  /** testDefaultTransition: with A == '2' the split takes its default flow to
      B; a new instance run with A == '1' takes the conditioned flow to A
      instead. Each instance starts from an empty marking. */
  lemma TestDefaultTransition(d1: DataStore, d2: DataStore, n1: nat, n2: nat)
    requires !Holds(DataEquals("A", "1"), d1) && Holds(DataEquals("A", "1"), d2)
    requires n1 >= 2 && n2 >= 2
    ensures var p := DefaultProcess();
            var s := Start(p, [], 0);
            var r1 := RunToNextState(p, d1, s.0, n1);
            var r2 := RunToNextState(p, d2, s.0, n2);
            && r1.outcome == Stable
            && r1.marking == [InActivity(3, Active)]
            && s.1 + r1.events
               == [EventTriggered(0), GatewayTokenArrives(1), GatewayActivated(1), GatewayTokenConsumed(1),
                   GatewayTokenPassed(1), ActivityActivated(3)]
            && r2.outcome == Stable
            && r2.marking == [InActivity(2, Active)]
            && s.1 + r2.events
               == [EventTriggered(0), GatewayTokenArrives(1), GatewayActivated(1), GatewayTokenConsumed(1),
                   GatewayTokenPassed(1), ActivityActivated(2)]
  {
    var p := DefaultProcess();
    var toB := [GatewayTokenArrives(1), GatewayActivated(1), GatewayTokenConsumed(1),
                GatewayTokenPassed(1), ActivityActivated(3)];
    var toA := [GatewayTokenArrives(1), GatewayActivated(1), GatewayTokenConsumed(1),
                GatewayTokenPassed(1), ActivityActivated(2)];
    assert [EventTriggered(0)] + toB
        == [EventTriggered(0), GatewayTokenArrives(1), GatewayActivated(1), GatewayTokenConsumed(1),
            GatewayTokenPassed(1), ActivityActivated(3)];
    assert [EventTriggered(0)] + toA
        == [EventTriggered(0), GatewayTokenArrives(1), GatewayActivated(1), GatewayTokenConsumed(1),
            GatewayTokenPassed(1), ActivityActivated(2)];
    assert Start(p, [], 0).0 == [AtStart(0)];
    DefaultRunToB(d1, n1);
    DefaultRunToA(d2, n2);
  }
}
