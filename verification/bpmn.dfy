/** Vocabulary shared by every part of the BPMN engine model: node identifiers,
    tokens and the configuration fields that every transition rule carries.
 */
module Bpmn {

  datatype Option<+T> = None | Some(value: T)

  /** Nodes, states and execution instances are referred to by identifier
      (weak references in the engine become indices into its tables). */
  type NodeId = nat

  /** The states a token goes through (the TOKEN_STATE_* constants). */
  datatype TokenStatus = Ready | Active | Completed | Closed | Consumed

  /** Keys of a token's property map: `EventType` is the BPMN event-type
      property, every other property is known by its name. */
  datatype PropertyKey = EventType | Named(name: string)

  /** A token: its status, the node that owns it, the execution instance it
      belongs to, and its properties. */
  datatype Token = Token(
    status: TokenStatus,
    owner: NodeId,
    instance: nat,
    properties: map<PropertyKey, string>)

  /** The configuration of a transition rule.
      `tokensConsumedPerTransition` is `AllAvailable` when the rule consumes
      every token present; `tokensConsumedPerIncoming` is how many tokens an
      incoming flow must hold to count as satisfied; `preserveToken` says the
      consumed token is forwarded instead of destroyed. */
  datatype TransitionConfig = TransitionConfig(
    tokensConsumedPerTransition: int,
    tokensConsumedPerIncoming: int,
    preserveToken: bool)

  /** The "consume every available token" setting (-1). */
  const AllAvailable: int := -1
}
