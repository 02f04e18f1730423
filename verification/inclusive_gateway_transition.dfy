/** The transition rule of an inclusive (OR) gateway.
    Split: every non-default outgoing flow whose guard holds fires; the default
    flow fires only when none of them does. Join: the gateway waits until every
    branch that is still live has delivered its token, then consumes all the
    tokens that have arrived in one activation.
 */
module InclusiveGatewayTransition {
  import opened Bpmn
  import opened ProcessGraph

  /** The non-default flows among `fs` whose guard holds, in the order of `fs`. */
  function ConditionedFlows(p: Process, fs: seq<nat>, data: DataStore): (r: seq<nat>)
    requires forall i :: 0 <= i < |fs| ==> fs[i] < |p.flows|
    ensures forall i :: 0 <= i < |r| ==> r[i] < |p.flows|
  {
    if fs == [] then []
    else
      var rest := ConditionedFlows(p, fs[1..], data);
      if !p.flows[fs[0]].isDefault && Holds(p.flows[fs[0]].guard, data) then [fs[0]] + rest else rest
  }

  lemma {:induction false} ConditionedFlowsExactly(p: Process, fs: seq<nat>, data: DataStore)
    requires forall i :: 0 <= i < |fs| ==> fs[i] < |p.flows|
    ensures forall f :: f in ConditionedFlows(p, fs, data) <==>
                        f in fs && !p.flows[f].isDefault && Holds(p.flows[f].guard, data)
    ensures Increasing(fs) ==> Increasing(ConditionedFlows(p, fs, data))
  {
    if fs != [] {
      ConditionedFlowsExactly(p, fs[1..], data);
      var rest := ConditionedFlows(p, fs[1..], data);
      assert forall k :: 0 <= k < |rest| ==> rest[k] in fs[1..];
      assert fs == [fs[0]] + fs[1..];
      if !p.flows[fs[0]].isDefault && Holds(p.flows[fs[0]].guard, data) {
        assert ConditionedFlows(p, fs, data) == [fs[0]] + rest;
        if Increasing(fs) {
          KeepHeadInOrder(fs, rest);
        }
      } else {
        assert ConditionedFlows(p, fs, data) == rest;
      }
    }
  }

  /** The default flows among `fs`, in the order of `fs`. */
  function DefaultFlows(p: Process, fs: seq<nat>): (r: seq<nat>)
    requires forall i :: 0 <= i < |fs| ==> fs[i] < |p.flows|
    ensures forall i :: 0 <= i < |r| ==> r[i] < |p.flows|
  {
    if fs == [] then []
    else
      var rest := DefaultFlows(p, fs[1..]);
      if p.flows[fs[0]].isDefault then [fs[0]] + rest else rest
  }

  lemma {:induction false} DefaultFlowsExactly(p: Process, fs: seq<nat>)
    requires forall i :: 0 <= i < |fs| ==> fs[i] < |p.flows|
    ensures forall f :: f in DefaultFlows(p, fs) <==> f in fs && p.flows[f].isDefault
    ensures Increasing(fs) ==> Increasing(DefaultFlows(p, fs))
  {
    if fs != [] {
      DefaultFlowsExactly(p, fs[1..]);
      var rest := DefaultFlows(p, fs[1..]);
      assert forall k :: 0 <= k < |rest| ==> rest[k] in fs[1..];
      assert fs == [fs[0]] + fs[1..];
      if p.flows[fs[0]].isDefault && Increasing(fs) {
        KeepHeadInOrder(fs, rest);
      }
    }
  }

  /** No non-default outgoing flow of `g` has a guard that holds. */
  ghost predicate NoConditionHolds(p: Process, g: NodeId, data: DataStore)
  {
    forall f :: f in Outgoing(p, g) && !p.flows[f].isDefault ==> !Holds(p.flows[f].guard, data)
  }

  /** OR-split: the outgoing flows that fire, in declaration order; `None` when
      no guard holds and there is no default flow to fall back on. */
  function Split(p: Process, g: NodeId, data: DataStore): (r: Option<seq<nat>>)
    ensures r.Some? ==> r.value != []
    ensures r.Some? ==> forall i :: 0 <= i < |r.value| ==> r.value[i] < |p.flows|
  {
    var out := Outgoing(p, g);
    var conditioned := ConditionedFlows(p, out, data);
    if conditioned != [] then Some(conditioned)
    else
      var defaults := DefaultFlows(p, out);
      if defaults == [] then None else Some(defaults)
  }

  /** What the split selects: a non-default flow exactly when its guard holds,
      the default flow exactly when no such guard holds, nothing that is not
      an outgoing flow, in declaration order; and it fails exactly when every
      outgoing flow is conditional with a guard that does not hold. */
  lemma SplitSelects(p: Process, g: NodeId, data: DataStore)
    ensures var r := Split(p, g, data);
            r.None? <==> forall f :: f in Outgoing(p, g) ==> !p.flows[f].isDefault && !Holds(p.flows[f].guard, data)
    ensures var r := Split(p, g, data);
            r.Some? ==> forall f :: f in r.value ==> f in Outgoing(p, g)
    ensures var r := Split(p, g, data);
            r.Some? ==> forall f :: f in Outgoing(p, g) && !p.flows[f].isDefault ==>
                                      (f in r.value <==> Holds(p.flows[f].guard, data))
    ensures var r := Split(p, g, data);
            r.Some? ==> forall f :: f in Outgoing(p, g) && p.flows[f].isDefault ==>
                                      (f in r.value <==> NoConditionHolds(p, g, data))
    ensures var r := Split(p, g, data);
            r.Some? ==> Increasing(r.value)
  {
    var out := Outgoing(p, g);
    FlowsInOrder(p, g);
    ConditionedFlowsExactly(p, out, data);
    DefaultFlowsExactly(p, out);
    var conditioned := ConditionedFlows(p, out, data);
    var defaults := DefaultFlows(p, out);
    if conditioned != [] {
      assert conditioned[0] in conditioned;
    } else if defaults != [] {
      assert defaults[0] in defaults;
    }
  }

  /** In a valid process a split never takes two default flows: when no
      guard holds and it falls back on the default, that flow is all it takes. */
  lemma SplitTakesOneDefault(p: Process, g: NodeId, data: DataStore)
    requires ValidProcess(p)
    ensures var r := Split(p, g, data);
            r.Some? ==> forall i, j :: 0 <= i < j < |r.value| ==>
                                        !p.flows[r.value[i]].isDefault || !p.flows[r.value[j]].isDefault
    ensures var r := Split(p, g, data);
            r.Some? && NoConditionHolds(p, g, data) ==> |r.value| == 1
  {
    SplitSelects(p, g, data);
    FlowsOfNode(p, g);
    var r := Split(p, g, data);
    if r.Some? {
      forall i, j | 0 <= i < j < |r.value|
        ensures !p.flows[r.value[i]].isDefault || !p.flows[r.value[j]].isDefault
      {
        assert r.value[i] in r.value && r.value[j] in r.value;
        assert r.value[i] < r.value[j];
      }
      if NoConditionHolds(p, g, data) {
        AtMostOneDefault(p, g, r.value);
      }
    }
  }

  /** A node of a valid process has at most one default flow, so a list of
      its default flows in declaration order has at most one entry. */
  lemma AtMostOneDefault(p: Process, g: NodeId, s: seq<nat>)
    requires ValidProcess(p) && Increasing(s)
    requires forall f :: f in s ==> f in Outgoing(p, g) && p.flows[f].isDefault
    ensures |s| <= 1
  {
    if |s| > 1 {
      var first, second := s[0], s[1];
      assert first in s && second in s && first < second;
      FlowsOfNode(p, g);
      assert false;
    }
  }

  /** Number of tokens waiting on flow `f`. */
  function WaitingOn(m: Marking, f: nat): nat
  {
    Count(m, Arrived(f))
  }

  /** A token that has arrived at gateway `g` over one of its incoming flows. */
  predicate IsArrivalAt(p: Process, pl: Place, g: NodeId)
  {
    pl.Arrived? && pl.flow < |p.flows| && p.flows[pl.flow].target == g
  }

  /** Number of tokens that have arrived at gateway `g`. */
  function ArrivedAt(p: Process, m: Marking, g: NodeId): nat
  {
    if m == [] then 0
    else (if IsArrivalAt(p, m[0], g) then 1 else 0) + ArrivedAt(p, m[1..], g)
  }

  lemma {:induction false} ArrivedAtCounts(p: Process, m: Marking, g: NodeId)
    ensures ArrivedAt(p, m, g) <= |m|
    ensures ArrivedAt(p, m, g) == 0 <==> forall i :: 0 <= i < |m| ==> !IsArrivalAt(p, m[i], g)
  {
    if m != [] {
      ArrivedAtCounts(p, m[1..], g);
      assert forall i :: 1 <= i < |m| ==> m[i] == m[1..][i - 1];
    }
  }

  /** Incoming flow `f` belongs to a branch that is live but has not delivered:
      nothing is waiting on it while its origin still holds a token. */
  predicate BranchPending(p: Process, m: Marking, f: nat)
    requires f < |p.flows|
  {
    WaitingOn(m, f) == 0 && TokensAtNode(p, m, p.flows[f].origin) > 0
  }

  /** None of the branches `fs` is pending. */
  function BranchesSettled(p: Process, m: Marking, fs: seq<nat>): bool
    requires forall i :: 0 <= i < |fs| ==> fs[i] < |p.flows|
  {
    if fs == [] then true
    else !BranchPending(p, m, fs[0]) && BranchesSettled(p, m, fs[1..])
  }

  lemma {:induction false} BranchesSettledIff(p: Process, m: Marking, fs: seq<nat>)
    requires forall i :: 0 <= i < |fs| ==> fs[i] < |p.flows|
    ensures BranchesSettled(p, m, fs) <==> forall f :: f in fs ==> !BranchPending(p, m, f)
  {
    if fs != [] {
      BranchesSettledIff(p, m, fs[1..]);
      assert fs == [fs[0]] + fs[1..];
    }
  }

  /** OR-join: at least one token has arrived and no incoming branch is still pending. */
  predicate JoinEnabled(p: Process, m: Marking, g: NodeId)
  {
    ArrivedAt(p, m, g) > 0 && BranchesSettled(p, m, Incoming(p, g))
  }

  /** The join fires exactly when a token has arrived at the gateway and every
      incoming flow either has a token waiting on it or comes from a node that
      holds no token (a branch that was not taken, or has already delivered). */
  lemma JoinEnabledIff(p: Process, m: Marking, g: NodeId)
    ensures JoinEnabled(p, m, g) <==>
            (exists i :: 0 <= i < |m| && IsArrivalAt(p, m[i], g)) &&
            forall f :: f in Incoming(p, g) ==>
              WaitingOn(m, f) > 0 || forall i :: 0 <= i < |m| ==> !LocatedAt(p, m[i], p.flows[f].origin)
  {
    ArrivedAtCounts(p, m, g);
    BranchesSettledIff(p, m, Incoming(p, g));
    forall f | f in Incoming(p, g)
      ensures BranchPending(p, m, f) <==>
              WaitingOn(m, f) == 0 && exists i :: 0 <= i < |m| && LocatedAt(p, m[i], p.flows[f].origin)
    {
      TokensAtNodeCounts(p, m, p.flows[f].origin);
    }
  }

  /** The marking once the join has consumed every token that arrived at `g`. */
  function ConsumeArrivals(p: Process, m: Marking, g: NodeId): Marking
  {
    if m == [] then []
    else if IsArrivalAt(p, m[0], g) then ConsumeArrivals(p, m[1..], g)
    else [m[0]] + ConsumeArrivals(p, m[1..], g)
  }

  /** Consuming removes every token that arrived at `g`, exactly those, and
      leaves every other token where it was. */
  lemma {:induction false} ConsumeArrivalsEffect(p: Process, m: Marking, g: NodeId)
    ensures ArrivedAt(p, ConsumeArrivals(p, m, g), g) == 0
    ensures |ConsumeArrivals(p, m, g)| + ArrivedAt(p, m, g) == |m|
    ensures forall pl :: !IsArrivalAt(p, pl, g) ==> multiset(ConsumeArrivals(p, m, g))[pl] == multiset(m)[pl]
  {
    if m != [] {
      ConsumeArrivalsEffect(p, m[1..], g);
      assert m == [m[0]] + m[1..];
    }
  }
}
