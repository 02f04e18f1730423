/** The transition rule that cancels an activity: it lets a closed token through,
    keeps it (instead of destroying it) and tags it as a cancellation.
 */
module CancelActivityTransition {
  import opened Bpmn

  /** The class name PHP yields for `CancelInterface::class`, stored as the
      event-type marker of a cancelled token. */
  const CancelMarker: string := "ProcessMaker\\Nayra\\Contracts\\Bpmn\\CancelInterface"

  /** Initialisation: the token is preserved (forwarded), nothing else changes. */
  function InitActivityTransition(c: TransitionConfig): (r: TransitionConfig)
    ensures r.preserveToken
    ensures r.tokensConsumedPerTransition == c.tokensConsumedPerTransition
    ensures r.tokensConsumedPerIncoming == c.tokensConsumedPerIncoming
  {
    c.(preserveToken := true)
  }

  /** The rule lets a token through exactly when the token is closed. */
  function AssertCondition(t: Token): (r: bool)
    ensures r <==> t.status == Closed
    ensures t.status in {Ready, Active, Completed, Consumed} ==> !r
  {
    t.status == Closed
  }

  /** Side effect on each transiting token: its event type becomes the cancel marker. */
  function OnTokenTransit(t: Token): (r: Token)
    ensures EventType in r.properties && r.properties[EventType] == CancelMarker
    ensures r.status == t.status && r.owner == t.owner && r.instance == t.instance
    ensures forall k :: k != EventType ==> (k in r.properties <==> k in t.properties)
    ensures forall k :: k != EventType && k in t.properties ==> r.properties[k] == t.properties[k]
  {
    t.(properties := t.properties[EventType := CancelMarker])
  }

  /** Tagging twice is tagging once. */
  lemma OnTokenTransitIdempotent(t: Token)
    ensures OnTokenTransit(OnTokenTransit(t)) == OnTokenTransit(t)
  {
    var once := OnTokenTransit(t);
    assert once.properties[EventType := CancelMarker] == once.properties;
  }

  /** Tagging does not change whether the rule accepts the token, so a closed
      token stays acceptable after it has been tagged and forwarded. */
  lemma TaggingKeepsCondition(t: Token)
    ensures AssertCondition(OnTokenTransit(t)) == AssertCondition(t)
  {
  }
}
