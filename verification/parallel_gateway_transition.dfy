/** The transition rule of a parallel (AND) gateway: it is enabled when every
    incoming flow's origin holds a token, and it places no condition of its own
    on the tokens (branching is left to the guards of the outgoing flows).
 */
module ParallelGatewayTransition {
  import opened Bpmn

  /** An incoming sequence flow as the gateway sees it: only its origin state matters. */
  datatype Connection = Connection(origin: NodeId)

  /** Number of tokens held by each origin state; a state absent from the map holds none. */
  type Marking = map<NodeId, nat>

  function TokensAt(m: Marking, s: NodeId): nat
  {
    if s in m then m[s] else 0
  }

  /** Initialisation: consume every available token, one per incoming flow. */
  function InitParallelGatewayTransition(c: TransitionConfig): (r: TransitionConfig)
    ensures r.tokensConsumedPerTransition == AllAvailable
    ensures r.tokensConsumedPerIncoming == 1
    ensures r.preserveToken == c.preserveToken
  {
    c.(tokensConsumedPerTransition := AllAvailable, tokensConsumedPerIncoming := 1)
  }

  /** The gateway's own condition accepts every token of every instance. */
  function AssertCondition(t: Token, instance: nat): (r: bool)
    ensures r
  {
    true
  }

  /** The incoming flows whose origin holds at least one token, in flow order
      (the `find` filter over the incoming collection). */
  function IncomingWithToken(incoming: seq<Connection>, m: Marking): (r: seq<Connection>)
    ensures |r| <= |incoming|
    ensures forall c :: c in r ==> c in incoming && TokensAt(m, c.origin) > 0
    ensures forall c :: c in incoming && TokensAt(m, c.origin) > 0 ==> c in r
  {
    if incoming == [] then []
    else if TokensAt(m, incoming[0].origin) > 0 then [incoming[0]] + IncomingWithToken(incoming[1..], m)
    else IncomingWithToken(incoming[1..], m)
  }

  /** Enablement as written: the filtered collection is as large as the whole one. */
  predicate HasAllRequiredTokens(incoming: seq<Connection>, m: Marking)
  {
    |IncomingWithToken(incoming, m)| == |incoming|
  }

  /** The AND-join condition stated directly. */
  ghost predicate EveryOriginMarked(incoming: seq<Connection>, m: Marking)
  {
    forall i :: 0 <= i < |incoming| ==> TokensAt(m, incoming[i].origin) > 0
  }

  /** Counting the flows with a token and comparing with the number of flows
      is exactly the AND-join. */
  lemma {:induction false} HasAllRequiredTokensIsAndJoin(incoming: seq<Connection>, m: Marking)
    ensures HasAllRequiredTokens(incoming, m) <==> EveryOriginMarked(incoming, m)
  {
    if incoming != [] {
      var tail := incoming[1..];
      HasAllRequiredTokensIsAndJoin(tail, m);
      assert EveryOriginMarked(incoming, m) <==>
             TokensAt(m, incoming[0].origin) > 0 && EveryOriginMarked(tail, m) by {
        forall i | 0 < i < |incoming|
          ensures incoming[i] == tail[i - 1]
        {
        }
      }
    }
  }

  /** A gateway without incoming flows is always enabled (0 === 0). */
  lemma NoIncomingIsEnabled(m: Marking)
    ensures HasAllRequiredTokens([], m)
  {
  }

  /** One incoming flow whose origin is empty disables the gateway. */
  lemma EmptyOriginDisables(incoming: seq<Connection>, m: Marking, i: nat)
    requires i < |incoming|
    requires TokensAt(m, incoming[i].origin) == 0
    ensures !HasAllRequiredTokens(incoming, m)
  {
    HasAllRequiredTokensIsAndJoin(incoming, m);
  }

  /** Adding tokens anywhere never disables an enabled gateway. */
  lemma MoreTokensKeepEnabled(incoming: seq<Connection>, m: Marking, m': Marking)
    requires forall s :: TokensAt(m, s) <= TokensAt(m', s)
    requires HasAllRequiredTokens(incoming, m)
    ensures HasAllRequiredTokens(incoming, m')
  {
    HasAllRequiredTokensIsAndJoin(incoming, m);
    HasAllRequiredTokensIsAndJoin(incoming, m');
  }

  /** Only whether an origin holds a token matters, not how many it holds. */
  lemma {:induction false} OnlyPresenceMatters(incoming: seq<Connection>, m: Marking, m': Marking)
    requires forall s :: TokensAt(m, s) > 0 <==> TokensAt(m', s) > 0
    ensures IncomingWithToken(incoming, m) == IncomingWithToken(incoming, m')
    ensures HasAllRequiredTokens(incoming, m) == HasAllRequiredTokens(incoming, m')
  {
    if incoming != [] {
      OnlyPresenceMatters(incoming[1..], m, m');
    }
  }
}
