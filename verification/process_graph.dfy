/** The process graph the engine runs on: nodes, guarded sequence flows, the
    data store guards read, and the places tokens occupy in an execution instance.
 */
module ProcessGraph {
  import opened Bpmn

  datatype NodeKind = StartEvent | EndEvent | Activity | InclusiveGateway

  /** The instance's data store, as the guards see it. */
  type DataStore = map<string, string>

  /** The condition of a sequence flow. `Always` is a flow created without a
      condition; `DataEquals(k, v)` holds when the data store maps `k` to `v`. */
  datatype Guard = Always | DataEquals(key: string, value: string)

  predicate Holds(g: Guard, data: DataStore)
  {
    match g
    case Always => true
    case DataEquals(k, v) => k in data && data[k] == v
  }

  /** A sequence flow; `isDefault` marks the default flow of a split, of
      which a valid process has at most one per node. */
  datatype Flow = Flow(origin: NodeId, target: NodeId, guard: Guard, isDefault: bool)

  /** A process: its nodes (by index) and its flows in declaration order. */
  datatype Process = Process(nodes: seq<NodeKind>, flows: seq<Flow>)

  /** Every flow joins two nodes of the process, no flow enters a start event
      and none leaves an end event, and no node has two default flows. */
  ghost predicate ValidProcess(p: Process)
  {
    && (forall f :: 0 <= f < |p.flows| ==>
          && p.flows[f].origin < |p.nodes|
          && p.flows[f].target < |p.nodes|
          && p.nodes[p.flows[f].target] != StartEvent
          && p.nodes[p.flows[f].origin] != EndEvent)
    && (forall f, g :: 0 <= f < g < |p.flows| && p.flows[f].isDefault && p.flows[g].isDefault ==>
          p.flows[f].origin != p.flows[g].origin)
  }

  predicate Touches(fl: Flow, n: NodeId, leaving: bool)
  {
    if leaving then fl.origin == n else fl.target == n
  }

  /** Indices, from `from` on, of the flows that leave node `n` (when `leaving`)
      or enter it, in declaration order. */
  function FlowsAt(p: Process, n: NodeId, leaving: bool, from: nat): (r: seq<nat>)
    requires from <= |p.flows|
    ensures forall i :: 0 <= i < |r| ==> from <= r[i] < |p.flows|
    decreases |p.flows| - from
  {
    if from == |p.flows| then []
    else if Touches(p.flows[from], n, leaving) then [from] + FlowsAt(p, n, leaving, from + 1)
    else FlowsAt(p, n, leaving, from + 1)
  }

  lemma {:induction false} FlowsAtExactly(p: Process, n: NodeId, leaving: bool, from: nat)
    requires from <= |p.flows|
    ensures forall f: nat :: f in FlowsAt(p, n, leaving, from) <==>
                             from <= f < |p.flows| && Touches(p.flows[f], n, leaving)
    decreases |p.flows| - from
  {
    if from < |p.flows| {
      FlowsAtExactly(p, n, leaving, from + 1);
    }
  }

  /** The outgoing flows of `n`, in declaration order. */
  function Outgoing(p: Process, n: NodeId): (r: seq<nat>)
    ensures forall i :: 0 <= i < |r| ==> r[i] < |p.flows|
  {
    FlowsAt(p, n, true, 0)
  }

  /** The incoming flows of `n`, in declaration order. */
  function Incoming(p: Process, n: NodeId): (r: seq<nat>)
    ensures forall i :: 0 <= i < |r| ==> r[i] < |p.flows|
  {
    FlowsAt(p, n, false, 0)
  }

  /** A flow is listed as outgoing exactly at its origin and as incoming
      exactly at its target. */
  lemma FlowsOfNode(p: Process, n: NodeId)
    ensures forall f: nat :: f in Outgoing(p, n) <==> f < |p.flows| && p.flows[f].origin == n
    ensures forall f: nat :: f in Incoming(p, n) <==> f < |p.flows| && p.flows[f].target == n
  {
    FlowsAtExactly(p, n, true, 0);
    FlowsAtExactly(p, n, false, 0);
  }

  /** Strictly increasing: a list of flow indices in declaration order, without repeats. */
  predicate Increasing(s: seq<nat>)
  {
    forall i, j :: 0 <= i < j < |s| ==> s[i] < s[j]
  }

  /** Keeping the head of an ordered list in front of an ordered selection
      from its tail keeps the order. */
  lemma KeepHeadInOrder(fs: seq<nat>, rest: seq<nat>)
    requires fs != [] && Increasing(fs) && Increasing(rest)
    requires forall k :: 0 <= k < |rest| ==> rest[k] in fs[1..]
    ensures Increasing([fs[0]] + rest)
  {
    var r := [fs[0]] + rest;
    forall i, j | 0 <= i < j < |r|
      ensures r[i] < r[j]
    {
      assert r[j] == rest[j - 1];
      var m :| 0 <= m < |fs[1..]| && fs[1..][m] == rest[j - 1];
      assert fs[m + 1] == rest[j - 1];
      if i > 0 {
        assert r[i] == rest[i - 1];
      }
    }
  }

  lemma {:induction false} FlowsAtInOrder(p: Process, n: NodeId, leaving: bool, from: nat)
    requires from <= |p.flows|
    ensures Increasing(FlowsAt(p, n, leaving, from))
    decreases |p.flows| - from
  {
    if from < |p.flows| {
      FlowsAtInOrder(p, n, leaving, from + 1);
    }
  }

  /** The incoming and outgoing flows of a node are listed in declaration order. */
  lemma FlowsInOrder(p: Process, n: NodeId)
    ensures Increasing(Outgoing(p, n))
    ensures Increasing(Incoming(p, n))
  {
    FlowsAtInOrder(p, n, true, 0);
    FlowsAtInOrder(p, n, false, 0);
  }

  /** The flows among `fs` whose guard holds, in the order of `fs`. */
  function GuardedFlows(p: Process, fs: seq<nat>, data: DataStore): (r: seq<nat>)
    requires forall i :: 0 <= i < |fs| ==> fs[i] < |p.flows|
    ensures forall i :: 0 <= i < |r| ==> r[i] < |p.flows|
  {
    if fs == [] then []
    else
      var rest := GuardedFlows(p, fs[1..], data);
      if Holds(p.flows[fs[0]].guard, data) then [fs[0]] + rest else rest
  }

  /** The guarded flows are exactly the flows of `fs` whose guard holds, and
      they keep the order of `fs`. */
  lemma {:induction false} GuardedFlowsExactly(p: Process, fs: seq<nat>, data: DataStore)
    requires forall i :: 0 <= i < |fs| ==> fs[i] < |p.flows|
    ensures forall f :: f in GuardedFlows(p, fs, data) <==> f in fs && Holds(p.flows[f].guard, data)
    ensures Increasing(fs) ==> Increasing(GuardedFlows(p, fs, data))
  {
    if fs != [] {
      GuardedFlowsExactly(p, fs[1..], data);
      var rest := GuardedFlows(p, fs[1..], data);
      assert forall k :: 0 <= k < |rest| ==> rest[k] in fs[1..];
      assert fs == [fs[0]] + fs[1..];
      if Holds(p.flows[fs[0]].guard, data) && Increasing(fs) {
        KeepHeadInOrder(fs, rest);
      }
    }
  }

  /** Where a token sits inside an execution instance: on a start event that
      has been triggered, arrived over a flow at the flow's target gateway,
      inside an activity with the given status, or absorbed by an end event. */
  datatype Place =
    | AtStart(node: NodeId)
    | Arrived(flow: nat)
    | InActivity(node: NodeId, status: TokenStatus)
    | AtEnd(node: NodeId)

  /** The tokens of an execution instance (a bag; the order is the order of arrival). */
  type Marking = seq<Place>

  /** Whether a token in place `pl` is held by node `n`. */
  predicate LocatedAt(p: Process, pl: Place, n: NodeId)
  {
    match pl
    case Arrived(f) => f < |p.flows| && p.flows[f].target == n
    case AtStart(s) => s == n
    case InActivity(a, _) => a == n
    case AtEnd(e) => e == n
  }

  /** Number of tokens held by node `n`. */
  function TokensAtNode(p: Process, m: Marking, n: NodeId): nat
  {
    if m == [] then 0
    else (if LocatedAt(p, m[0], n) then 1 else 0) + TokensAtNode(p, m[1..], n)
  }

  /** A node holds tokens exactly when some token of the marking is located at it. */
  lemma {:induction false} TokensAtNodeCounts(p: Process, m: Marking, n: NodeId)
    ensures TokensAtNode(p, m, n) <= |m|
    ensures TokensAtNode(p, m, n) == 0 <==> forall i :: 0 <= i < |m| ==> !LocatedAt(p, m[i], n)
  {
    if m != [] {
      TokensAtNodeCounts(p, m[1..], n);
      assert forall i :: 1 <= i < |m| ==> m[i] == m[1..][i - 1];
    }
  }

  /** Number of tokens in exactly the place `pl`. */
  function Count(m: Marking, pl: Place): nat
  {
    if m == [] then 0
    else (if m[0] == pl then 1 else 0) + Count(m[1..], pl)
  }

  /** `Count` is the multiplicity of the place in the marking seen as a bag. */
  lemma {:induction false} CountIsMultiplicity(m: Marking, pl: Place)
    ensures Count(m, pl) == multiset(m)[pl]
  {
    if m != [] {
      CountIsMultiplicity(m[1..], pl);
      assert m == [m[0]] + m[1..];
    }
  }

  /** The marking with one token in place `pl` taken out (unchanged when there is none). */
  function RemoveOne(m: Marking, pl: Place): Marking
  {
    if m == [] then []
    else if m[0] == pl then m[1..] else [m[0]] + RemoveOne(m[1..], pl)
  }

  /** Removing from a marking without a token in place `pl` changes nothing. */
  lemma {:induction false} RemoveOneAbsent(m: Marking, pl: Place)
    requires pl !in m
    ensures RemoveOne(m, pl) == m
  {
    if m != [] {
      assert pl !in m[1..];
      RemoveOneAbsent(m[1..], pl);
      assert m == [m[0]] + m[1..];
    }
  }

  /** Removing takes exactly one token out of place `pl` when there is one. */
  lemma {:induction false} RemoveOnePresent(m: Marking, pl: Place)
    requires pl in m
    ensures multiset(RemoveOne(m, pl)) == multiset(m) - multiset{pl}
  {
    assert m == [m[0]] + m[1..];
    assert multiset(m) == multiset{m[0]} + multiset(m[1..]);
    if m[0] != pl {
      RemoveOnePresent(m[1..], pl);
      assert RemoveOne(m, pl) == [m[0]] + RemoveOne(m[1..], pl);
    }
  }

  /** Removing takes exactly one token out of place `pl` when there is one,
      and nothing otherwise. */
  lemma RemoveOneTakesOne(m: Marking, pl: Place)
    ensures pl in m ==> multiset(RemoveOne(m, pl)) == multiset(m) - multiset{pl}
    ensures pl !in m ==> RemoveOne(m, pl) == m
  {
    if pl in m {
      RemoveOnePresent(m, pl);
    } else {
      RemoveOneAbsent(m, pl);
    }
  }
}
