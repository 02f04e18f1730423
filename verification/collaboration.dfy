/** The collaboration message bus: catch events subscribe under a message key,
    and sending a message delivers it to every matching subscriber in each of
    the execution instances that subscriber's catch event correlates with.
 */
module Collaboration {
  import opened Bpmn

  /** Kinds of event definition a catch event may carry; the bus only asks
      whether one is a signal. */
  datatype DefinitionKind = SignalDefinition | OtherDefinition(name: string)

  /** A catch event listening on the bus, with its event definitions in order. */
  datatype CatchEvent = CatchEvent(id: NodeId, eventDefinitions: seq<DefinitionKind>)

  /** Whether the catch event's first event definition is a signal; a catch
      event without definitions has none (its first item is null). */
  predicate FirstDefinitionIsSignal(n: CatchEvent)
  {
    |n.eventDefinitions| > 0 && n.eventDefinitions[0].SignalDefinition?
  }

  /** A thrown event definition: a signal is broadcast, anything else is
      correlated by its id. */
  datatype Message = Signal(id: string) | Direct(id: string)

  /** One registration: a catch event and the key it listens under. */
  datatype Subscriber = Subscriber(node: CatchEvent, key: string)

  /** The bus: its ordered subscriber list and its closed flag (null until set). */
  datatype Collaboration = Collaboration(subscribers: seq<Subscriber>, closed: Option<bool>)

  /** A collaboration as constructed: no subscribers, closed flag not set. */
  const Fresh: Collaboration := Collaboration([], None)

  function IsClosed(c: Collaboration): Option<bool>
  {
    c.closed
  }

  /** Setting the closed flag is observed by `IsClosed` and leaves the subscribers alone. */
  function SetClosed(c: Collaboration, isClosed: bool): (r: Collaboration)
    ensures IsClosed(r) == Some(isClosed)
    ensures r.subscribers == c.subscribers
  {
    c.(closed := Some(isClosed))
  }

  /** Subscribing appends one registration at the end of the list. */
  function Subscribe(c: Collaboration, node: CatchEvent, key: string): (r: Collaboration)
    ensures |r.subscribers| == |c.subscribers| + 1
    ensures r.subscribers[..|c.subscribers|] == c.subscribers
    ensures r.subscribers[|c.subscribers|] == Subscriber(node, key)
    ensures r.closed == c.closed
  {
    c.(subscribers := c.subscribers + [Subscriber(node, key)])
  }

  /** The registrations whose key differs from `key`, in list order (the
      `array_filter` with a strict `!==`). */
  function WithoutKey(subs: seq<Subscriber>, key: string): (r: seq<Subscriber>)
    ensures |r| <= |subs|
  {
    if subs == [] then []
    else if subs[0].key != key then [subs[0]] + WithoutKey(subs[1..], key)
    else WithoutKey(subs[1..], key)
  }

  /** The filter keeps exactly the registrations whose key differs from `key`. */
  lemma {:induction false} WithoutKeyExactly(subs: seq<Subscriber>, key: string)
    ensures forall s :: s in WithoutKey(subs, key) <==> s in subs && s.key != key
  {
    if subs != [] {
      WithoutKeyExactly(subs[1..], key);
      assert subs == [subs[0]] + subs[1..];
    }
  }

  /** Unsubscribing drops every registration under `key`, whichever node made
      it (the node argument is not consulted), and keeps all the others. */
  function Unsubscribe(c: Collaboration, node: CatchEvent, key: string): (r: Collaboration)
    ensures forall i :: 0 <= i < |r.subscribers| ==> r.subscribers[i].key != key
    ensures forall s :: s in c.subscribers && s.key != key ==> s in r.subscribers
    ensures r.closed == c.closed
  {
    WithoutKeyExactly(c.subscribers, key);
    c.(subscribers := WithoutKey(c.subscribers, key))
  }

  /** The registrations kept from the head of `a`: the head itself, or nothing. */
  function KeptHead(a: seq<Subscriber>, key: string): seq<Subscriber>
    requires a != []
  {
    if a[0].key != key then [a[0]] else []
  }

  /** Filtering `a + b` keeps or drops `a`'s head and goes on with the rest. */
  lemma WithoutKeyCons(a: seq<Subscriber>, b: seq<Subscriber>, key: string)
    requires a != []
    ensures WithoutKey(a, key) == KeptHead(a, key) + WithoutKey(a[1..], key)
    ensures WithoutKey(a + b, key) == KeptHead(a, key) + WithoutKey(a[1..] + b, key)
  {
    assert (a + b)[0] == a[0];
    assert (a + b)[1..] == a[1..] + b;
    assert [] + WithoutKey(a[1..], key) == WithoutKey(a[1..], key);
    assert [] + WithoutKey(a[1..] + b, key) == WithoutKey(a[1..] + b, key);
  }

  /** Filtering distributes over concatenation, so the kept registrations stay
      in their original relative order. */
  lemma {:induction false} WithoutKeyDistributes(a: seq<Subscriber>, b: seq<Subscriber>, key: string)
    ensures WithoutKey(a + b, key) == WithoutKey(a, key) + WithoutKey(b, key)
  {
    if a == [] {
      assert a + b == b;
    } else {
      WithoutKeyCons(a, b, key);
      WithoutKeyDistributes(a[1..], b, key);
      var head := KeptHead(a, key);
      var tail := WithoutKey(a[1..], key);
      var rest := WithoutKey(b, key);
      assert head + (tail + rest) == (head + tail) + rest;
    }
  }

  /** Every registration under another key survives with its multiplicity. */
  lemma {:induction false} WithoutKeyKeepsOthers(subs: seq<Subscriber>, key: string, s: Subscriber)
    requires s.key != key
    ensures multiset(WithoutKey(subs, key))[s] == multiset(subs)[s]
  {
    if subs != [] {
      WithoutKeyKeepsOthers(subs[1..], key, s);
      assert subs == [subs[0]] + subs[1..];
      if subs[0].key != key {
        assert WithoutKey(subs, key) == [subs[0]] + WithoutKey(subs[1..], key);
      } else {
        assert WithoutKey(subs, key) == WithoutKey(subs[1..], key);
      }
    }
  }

  /** Unsubscribing a key removes whatever subscribing under that key added. */
  lemma UnsubscribeUndoesSubscribe(c: Collaboration, node: CatchEvent, other: CatchEvent, key: string)
    ensures Unsubscribe(Subscribe(c, node, key), other, key) == Unsubscribe(c, other, key)
  {
    WithoutKeyDistributes(c.subscribers, [Subscriber(node, key)], key);
  }

  /** Subscribing is not idempotent: the same registration made twice is listed twice. */
  lemma SubscribeTwiceListsTwice(c: Collaboration, node: CatchEvent, key: string)
    ensures var twice := Subscribe(Subscribe(c, node, key), node, key);
            multiset(twice.subscribers)[Subscriber(node, key)] == multiset(c.subscribers)[Subscriber(node, key)] + 2
  {
  }

  /** The delivery decision for one subscriber: a non-signal message goes to a
      subscriber whose key equals the message id; a signal goes to a subscriber
      whose first event definition is a signal, whatever its key. */
  function Matches(s: Subscriber, msg: Message): (r: bool)
    ensures msg.Direct? ==> (r <==> s.key == msg.id)
    ensures msg.Signal? ==> (r <==> FirstDefinitionIsSignal(s.node))
  {
    (!msg.Signal? && s.key == msg.id) || (msg.Signal? && FirstDefinitionIsSignal(s.node))
  }

  /** One call of the subscriber's `execute(message, instance)`. */
  datatype Delivery<I> = Delivery(node: CatchEvent, instance: I)

  /** The deliveries to one subscriber: one per target instance, in instance
      order, when the subscriber matches, and none otherwise. */
  function DeliveriesTo<I>(s: Subscriber, msg: Message, instances: seq<I>): (r: seq<Delivery<I>>)
  {
    if instances == [] then []
    else (if Matches(s, msg) then [Delivery(s.node, instances[0])] else [])
         + DeliveriesTo(s, msg, instances[1..])
  }

  /** One delivery per target instance, in instance order, when the
      subscriber matches; none when it does not. */
  lemma {:induction false} DeliveriesToContents<I>(s: Subscriber, msg: Message, instances: seq<I>)
    ensures var r := DeliveriesTo(s, msg, instances);
            Matches(s, msg) ==> |r| == |instances| && forall i :: 0 <= i < |r| ==> r[i] == Delivery(s.node, instances[i])
    ensures !Matches(s, msg) ==> DeliveriesTo(s, msg, instances) == []
  {
    if instances != [] {
      DeliveriesToContents(s, msg, instances[1..]);
    }
  }

  /** The deliveries of one send over a subscriber list, subscriber by subscriber.
      `targets` is the catch event's instance correlation, which lies outside the bus. */
  function DeliveriesOver<I>(subs: seq<Subscriber>, msg: Message, token: Token,
                            targets: (CatchEvent, Message, Token) -> seq<I>): seq<Delivery<I>>
  {
    if subs == [] then []
    else DeliveriesTo(subs[0], msg, targets(subs[0].node, msg, token))
         + DeliveriesOver(subs[1..], msg, token, targets)
  }

  function Deliveries<I>(c: Collaboration, msg: Message, token: Token,
                         targets: (CatchEvent, Message, Token) -> seq<I>): seq<Delivery<I>>
  {
    DeliveriesOver(c.subscribers, msg, token, targets)
  }

  /** The inner loop of sending: over the subscriber's target instances in
      order, deliver to each one when the subscriber matches. */
  method DeliverToInstances<I>(s: Subscriber, msg: Message, instances: seq<I>) returns (delivered: seq<Delivery<I>>)
    ensures delivered == DeliveriesTo(s, msg, instances)
  {
    delivered := [];
    var j := 0;
    while j < |instances|
      invariant 0 <= j <= |instances|
      invariant delivered == DeliveriesTo(s, msg, instances[..j])
    {
      if Matches(s, msg) {
        delivered := delivered + [Delivery(s.node, instances[j])];
      }
      DeliveriesToContents(s, msg, instances[..j]);
      DeliveriesToContents(s, msg, instances[..j + 1]);
      assert DeliveriesTo(s, msg, instances[..j + 1])
             == DeliveriesTo(s, msg, instances[..j])
                + (if Matches(s, msg) then [Delivery(s.node, instances[j])] else []);
      j := j + 1;
    }
    assert instances[..j] == instances;
  }

  /** Sending: for each subscriber in list order, for each of its target
      instances in order, deliver when the subscriber matches. The subscriber
      list is read, never written. */
  method Send<I>(c: Collaboration, msg: Message, token: Token,
                 targets: (CatchEvent, Message, Token) -> seq<I>) returns (delivered: seq<Delivery<I>>)
    ensures delivered == Deliveries(c, msg, token, targets)
  {
    var subs := c.subscribers;
    delivered := [];
    var i := 0;
    while i < |subs|
      invariant 0 <= i <= |subs|
      invariant delivered == DeliveriesOver(subs[..i], msg, token, targets)
    {
      var s := subs[i];
      var here := DeliverToInstances(s, msg, targets(s.node, msg, token));
      delivered := delivered + here;
      DeliveriesOverConcat(subs[..i], [s], msg, token, targets);
      assert subs[..i + 1] == subs[..i] + [s];
      i := i + 1;
    }
    assert subs[..i] == subs;
  }

  /** The deliveries over `a + b` start with those of `a`'s first registration. */
  lemma DeliveriesOverCons<I>(a: seq<Subscriber>, b: seq<Subscriber>, msg: Message, token: Token,
                              targets: (CatchEvent, Message, Token) -> seq<I>)
    requires a != []
    ensures DeliveriesOver(a + b, msg, token, targets)
            == DeliveriesTo(a[0], msg, targets(a[0].node, msg, token)) + DeliveriesOver(a[1..] + b, msg, token, targets)
  {
    assert (a + b)[0] == a[0];
    assert (a + b)[1..] == a[1..] + b;
  }

  /** Deliveries follow the subscriber list: a longer list only appends deliveries. */
  lemma {:induction false} DeliveriesOverConcat<I>(a: seq<Subscriber>, b: seq<Subscriber>, msg: Message, token: Token,
                                                  targets: (CatchEvent, Message, Token) -> seq<I>)
    ensures DeliveriesOver(a + b, msg, token, targets)
            == DeliveriesOver(a, msg, token, targets) + DeliveriesOver(b, msg, token, targets)
  {
    if a == [] {
      assert a + b == b;
    } else {
      var first := DeliveriesTo(a[0], msg, targets(a[0].node, msg, token));
      assert DeliveriesOver(a, msg, token, targets) == first + DeliveriesOver(a[1..], msg, token, targets);
      DeliveriesOverCons(a, b, msg, token, targets);
      DeliveriesOverConcat(a[1..], b, msg, token, targets);
      var middle := DeliveriesOver(a[1..], msg, token, targets);
      var last := DeliveriesOver(b, msg, token, targets);
      assert first + (middle + last) == (first + middle) + last;
    }
  }

  /** A (node, instance) pair is delivered exactly when some registration of that
      node matches the message and correlates with that instance. */
  lemma {:induction false} DeliveredIffMatchingRegistration<I>(subs: seq<Subscriber>, msg: Message, token: Token,
                                                              targets: (CatchEvent, Message, Token) -> seq<I>, d: Delivery<I>)
    ensures d in DeliveriesOver(subs, msg, token, targets) <==>
            exists j :: 0 <= j < |subs| && subs[j].node == d.node && Matches(subs[j], msg)
                        && d.instance in targets(subs[j].node, msg, token)
  {
    if subs != [] {
      DeliveredIffMatchingRegistration(subs[1..], msg, token, targets, d);
      var here := DeliveriesTo(subs[0], msg, targets(subs[0].node, msg, token));
      assert d in here <==> subs[0].node == d.node && Matches(subs[0], msg)
                            && d.instance in targets(subs[0].node, msg, token) by {
        var insts := targets(subs[0].node, msg, token);
        DeliveriesToContents(subs[0], msg, insts);
        if d in here {
          var k :| 0 <= k < |here| && here[k] == d;
          assert d.instance == insts[k];
        }
        if subs[0].node == d.node && Matches(subs[0], msg) && d.instance in insts {
          var k :| 0 <= k < |insts| && insts[k] == d.instance;
          assert here[k] == d;
        }
      }
      if d in DeliveriesOver(subs[1..], msg, token, targets) {
        var j :| 0 <= j < |subs[1..]| && subs[1..][j].node == d.node && Matches(subs[1..][j], msg)
                 && d.instance in targets(subs[1..][j].node, msg, token);
        assert subs[j + 1] == subs[1..][j];
      }
      if exists j :: 0 <= j < |subs| && subs[j].node == d.node && Matches(subs[j], msg)
                     && d.instance in targets(subs[j].node, msg, token) {
        var j :| 0 <= j < |subs| && subs[j].node == d.node && Matches(subs[j], msg)
                 && d.instance in targets(subs[j].node, msg, token);
        if j > 0 {
          assert subs[1..][j - 1] == subs[j];
        }
      }
    }
  }

  /** A non-signal message reaches a (node, instance) pair exactly when that node
      is registered under the message id and correlates with the instance. */
  lemma DirectDeliveredIffKeyMatches<I>(c: Collaboration, id: string, token: Token,
                                        targets: (CatchEvent, Message, Token) -> seq<I>, d: Delivery<I>)
    ensures d in Deliveries(c, Direct(id), token, targets) <==>
            exists j :: 0 <= j < |c.subscribers| && c.subscribers[j].node == d.node
                        && c.subscribers[j].key == id
                        && d.instance in targets(c.subscribers[j].node, Direct(id), token)
  {
    DeliveredIffMatchingRegistration(c.subscribers, Direct(id), token, targets, d);
  }

  /** A signal reaches a (node, instance) pair exactly when that node is
      registered (under any key), its first definition is a signal, and it
      correlates with the instance. */
  lemma SignalDeliveredIffSignalListener<I>(c: Collaboration, id: string, token: Token,
                                            targets: (CatchEvent, Message, Token) -> seq<I>, d: Delivery<I>)
    ensures d in Deliveries(c, Signal(id), token, targets) <==>
            exists j :: 0 <= j < |c.subscribers| && c.subscribers[j].node == d.node
                        && FirstDefinitionIsSignal(d.node)
                        && d.instance in targets(c.subscribers[j].node, Signal(id), token)
  {
    DeliveredIffMatchingRegistration(c.subscribers, Signal(id), token, targets, d);
  }

  /** A new registration's deliveries come after all earlier ones. */
  lemma SubscribeThenSend<I>(c: Collaboration, node: CatchEvent, key: string, msg: Message, token: Token,
                             targets: (CatchEvent, Message, Token) -> seq<I>)
    ensures Deliveries(Subscribe(c, node, key), msg, token, targets)
            == Deliveries(c, msg, token, targets)
               + DeliveriesTo(Subscriber(node, key), msg, targets(node, msg, token))
  {
    DeliveriesOverConcat(c.subscribers, [Subscriber(node, key)], msg, token, targets);
  }

  /** With no registration under `id`, a non-signal message with that id is delivered nowhere. */
  lemma {:induction false} NoListenerNoDelivery<I>(subs: seq<Subscriber>, id: string, token: Token,
                                                  targets: (CatchEvent, Message, Token) -> seq<I>)
    requires forall i :: 0 <= i < |subs| ==> subs[i].key != id
    ensures DeliveriesOver(subs, Direct(id), token, targets) == []
  {
    if subs != [] {
      assert forall i :: 0 <= i < |subs[1..]| ==> subs[1..][i] == subs[i + 1];
      NoListenerNoDelivery(subs[1..], id, token, targets);
      DeliveriesToContents(subs[0], Direct(id), targets(subs[0].node, Direct(id), token));
    }
  }

  /** After unsubscribing a key, a message with that id is delivered nowhere. */
  lemma SendAfterUnsubscribeIsSilent<I>(c: Collaboration, node: CatchEvent, id: string, token: Token,
                                        targets: (CatchEvent, Message, Token) -> seq<I>)
    ensures Deliveries(Unsubscribe(c, node, id), Direct(id), token, targets) == []
  {
    NoListenerNoDelivery(Unsubscribe(c, node, id).subscribers, id, token, targets);
  }

  /** A bus as constructed reports no closed flag and delivers nothing; after
      one subscription it delivers exactly to that registration. */
  lemma FreshBus<I>(node: CatchEvent, key: string, msg: Message, token: Token,
                    targets: (CatchEvent, Message, Token) -> seq<I>)
    ensures IsClosed(Fresh) == None
    ensures Deliveries(Fresh, msg, token, targets) == []
    ensures Deliveries(Subscribe(Fresh, node, key), msg, token, targets)
            == DeliveriesTo(Subscriber(node, key), msg, targets(node, msg, token))
  {
    SubscribeThenSend(Fresh, node, key, msg, token, targets);
  }
}
