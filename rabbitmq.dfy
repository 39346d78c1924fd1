/**
 * EventBusRabbitMQ over an abstract broker: the connection flag, the one
 * consumer channel, declared exchanges and queues, queue bindings, started
 * consumers, published messages and acknowledged delivery tags.
 *
 * Broker calls are modelled as their effect on that state.  The connection
 * attempt (RabbitMQPersistentConnection.TryConnection) is modelled as
 * succeeding; an operation on a closed channel fails as the client's
 * AlreadyClosedException does.
 */
module RabbitMQ {
  import opened Wrappers
  import opened EventNames
  import opened Subscriptions
  import opened Dispatch

  datatype QueueFlags = QueueFlags(durable: bool, exclusive: bool, autoDelete: bool)

  datatype QueueBinding = QueueBinding(queue: string, exchange: string, routingKey: string)

  datatype Consumer = Consumer(queue: string, autoAck: bool)

  /** BasicPublish arguments: target, routing key, mandatory flag, delivery mode, body. */
  datatype BasicMessage = BasicMessage(exchange: string, routingKey: string, mandatory: bool, deliveryMode: nat, body: string)

  /** A delivery handed to Consumer_Received. */
  datatype Delivery = Delivery(deliveryTag: nat, routingKey: string, body: string)

  /** How one BasicPublish attempt ended. */
  datatype SendOutcome = Sent | BrokerUnreachable | SocketFailure | OtherFailure

  datatype AdapterFault = ChannelAlreadyClosed | RetryCountOutOfRange | SendFailed(last: SendOutcome)

  datatype Status = Done | Failed(fault: AdapterFault)

  /** The durable, non-exclusive, non-auto-delete queue Subscribe declares. */
  const SubscriberQueue := QueueFlags(true, false, false)

  /** The exchange type declared for DefaultTopicName. */
  const ExchangeType := "direct"

  /** Persistent delivery mode. */
  const Persistent := 2

  function Pow2(n: nat): (r: nat)
    ensures r >= 1
  {
    if n == 0 then 1 else 2 * Pow2(n - 1)
  }

  /** The exceptions the publish policy retries: BrokerUnreachableException and SocketException. */
  predicate Retried(o: SendOutcome) {
    o == BrokerUnreachable || o == SocketFailure
  }

  /** A run of the retry policy: attempts made, seconds waited before each retry, the last outcome. */
  datatype RetryRun = RetryRun(attempts: nat, waits: seq<nat>, last: SendOutcome)

  /**
   * Polly WaitAndRetry(retryCount, n => 2^n seconds) from retry number
   * `retriesDone` on; `attemptAt(k)` is how attempt k (from 0) ends.
   */
  function WaitAndRetry(retryCount: nat, attemptAt: nat -> SendOutcome, retriesDone: nat): (r: RetryRun)
    requires retriesDone <= retryCount
    ensures retriesDone + 1 <= r.attempts <= retryCount + 1
    ensures r.last == attemptAt(r.attempts - 1)
    ensures |r.waits| == r.attempts - 1 - retriesDone
    ensures forall i :: 0 <= i < |r.waits| ==> r.waits[i] == Pow2(retriesDone + 1 + i)
    ensures forall k :: retriesDone <= k < r.attempts - 1 ==> Retried(attemptAt(k))
    ensures Retried(r.last) ==> r.attempts == retryCount + 1
    decreases retryCount - retriesDone
  {
    var outcome := attemptAt(retriesDone);
    if Retried(outcome) && retriesDone < retryCount then
      var rest := WaitAndRetry(retryCount, attemptAt, retriesDone + 1);
      RetryRun(rest.attempts, [Pow2(retriesDone + 1)] + rest.waits, rest.last)
    else
      RetryRun(retriesDone + 1, [], outcome)
  }

  function Sum(s: seq<nat>): nat {
    if s == [] then 0 else s[0] + Sum(s[1..])
  }

  /**
   * When every attempt hits a retried exception, the policy waits
   * 2 + 4 + ... + 2^retryCount seconds in all before giving up.
   */
  lemma {:induction false} WorstCaseWait(retryCount: nat, attemptAt: nat -> SendOutcome, retriesDone: nat)
    requires retriesDone <= retryCount
    requires forall k :: Retried(attemptAt(k))
    ensures Sum(WaitAndRetry(retryCount, attemptAt, retriesDone).waits) == Pow2(retryCount + 1) - Pow2(retriesDone + 1)
    ensures WaitAndRetry(retryCount, attemptAt, retriesDone).attempts == retryCount + 1
    decreases retryCount - retriesDone
  {
    if retriesDone < retryCount {
      var rest := WaitAndRetry(retryCount, attemptAt, retriesDone + 1);
      WorstCaseWait(retryCount, attemptAt, retriesDone + 1);
      assert ([Pow2(retriesDone + 1)] + rest.waits)[1..] == rest.waits;
      PowMonotone(retriesDone + 2, retryCount + 1);
    }
  }

  lemma {:induction false} PowMonotone(m: nat, n: nat)
    requires m <= n
    ensures Pow2(m) <= Pow2(n)
    decreases n - m
  {
    if m < n {
      PowMonotone(m + 1, n);
    }
  }

  class EventBusRabbitMQ {
    const bus: BaseEventBus
    /** persistentConnection.IsConnected, and how many times TryConnection ran. */
    var connected: bool
    var connectionAttempts: nat
    /** consumerChannel is open. */
    var channelOpen: bool
    /** Declared exchanges (name to type) and queues (name to flags). */
    var exchanges: map<string, string>
    var queues: map<string, QueueFlags>
    var bindings: set<QueueBinding>
    var consumers: seq<Consumer>
    var published: seq<BasicMessage>
    var acked: seq<nat>

    /**
     * The bus is valid; a closed channel only happens with an empty registry;
     * every subscribed event has its queue declared and bound.
     */
    ghost predicate Valid()
      reads this`channelOpen, this`queues, this`bindings, bus, bus.subsManager
    {
      && bus.Valid()
      && (!channelOpen ==> bus.subsManager.handlers == map[])
      && (bus.eventBusConfig.Some? ==>
            var config := bus.eventBusConfig.value;
            forall name :: name in bus.subsManager.handlers ==>
              GetSubName(config, name) in queues
              && QueueBinding(GetSubName(config, name), config.defaultTopicName, name) in bindings)
    }

    constructor (
      serviceProvider: HandlerType -> Option<Handler>, eventBusConfig: EventBusConfig,
      deserialize: (string, EventType) -> Option<IntegrationEvent>,
      handle: (Handler, IntegrationEvent) -> bool,
      serialize: IntegrationEvent -> string)
      ensures Valid() && fresh(bus) && fresh(bus.subsManager)
      ensures bus.eventBusConfig == Some(eventBusConfig)
      ensures bus.subsManager.handlers == map[]
      ensures connected && connectionAttempts == 1 && channelOpen
      ensures exchanges == map[eventBusConfig.defaultTopicName := ExchangeType]
      ensures queues == map[] && bindings == {} && consumers == [] && published == [] && acked == []
    {
      bus := new BaseEventBus(serviceProvider, eventBusConfig, deserialize, handle, serialize);
      connected := false;
      connectionAttempts := 0;
      channelOpen := false;
      exchanges := map[];
      queues := map[];
      bindings := {};
      consumers := [];
      published := [];
      acked := [];
      new;
      CreateConsumerChannel();
    }

    /** `if (!persistentConnection.IsConnected) persistentConnection.TryConnection();` */
    method ConnectIfNeeded()
      modifies this`connected, this`connectionAttempts
      ensures connected
      ensures connectionAttempts == old(connectionAttempts) + (if old(connected) then 0 else 1)
      ensures old(Valid()) ==> Valid()
    {
      if !connected {
        connected := true;
        connectionAttempts := connectionAttempts + 1;
      }
    }

    /** CreateConsumerChannel: connect if needed, open the channel, declare the direct exchange. */
    method CreateConsumerChannel()
      requires bus.Valid() && bus.eventBusConfig.Some?
      modifies this`connected, this`connectionAttempts, this`channelOpen, this`exchanges
      ensures connected && channelOpen
      ensures connectionAttempts == old(connectionAttempts) + (if old(connected) then 0 else 1)
      ensures exchanges == old(exchanges)[bus.eventBusConfig.value.defaultTopicName := ExchangeType]
    {
      ConnectIfNeeded();
      channelOpen := true;
      DeclareExchange();
    }

    /** ExchangeDeclare(DefaultTopicName, "direct") on the channel. */
    method DeclareExchange()
      requires bus.eventBusConfig.Some?
      modifies this`exchanges
      ensures exchanges == old(exchanges)[bus.eventBusConfig.value.defaultTopicName := ExchangeType]
      ensures old(Valid()) ==> Valid()
    {
      exchanges := exchanges[bus.eventBusConfig.value.defaultTopicName := ExchangeType];
    }

    /**
     * SubsManager_OnEventRemoved: unbind queue `name` (the canonical name
     * itself, not GetSubName) from the exchange with routing key `name`, then
     * close the channel if the registry is empty.
     */
    method OnEventRemoved(eventName: string) returns (status: Status)
      requires Valid() && bus.eventBusConfig.Some?
      modifies this`connected, this`connectionAttempts, this`bindings, this`channelOpen
      ensures Valid()
      ensures connected
      ensures connectionAttempts == old(connectionAttempts) + (if old(connected) then 0 else 1)
      ensures var config := bus.eventBusConfig.value;
              var name := ProcessEventName(config, eventName);
              if old(channelOpen) then
                status == Done
                && bindings == old(bindings) - {QueueBinding(name, config.defaultTopicName, name)}
                && channelOpen == (bus.subsManager.handlers != map[])
              else
                status == Failed(ChannelAlreadyClosed) && bindings == old(bindings) && !channelOpen
    {
      var config := bus.eventBusConfig.value;
      var name := ProcessEventName(config, eventName);
      ConnectIfNeeded();
      if !channelOpen {
        return Failed(ChannelAlreadyClosed);
      }
      UnbindEventQueue(name);
      if bus.subsManager.IsEmpty() {
        channelOpen := false;
      }
      status := Done;
    }

    /** QueueUnbind(queue: name, exchange: DefaultTopicName, routingKey: name) on the channel. */
    method UnbindEventQueue(name: string)
      requires bus.eventBusConfig.Some?
      modifies this`bindings
      ensures bindings == old(bindings) - {QueueBinding(name, bus.eventBusConfig.value.defaultTopicName, name)}
      ensures old(Valid()) ==> Valid()
    {
      UnbindKeepsSubscriberBindings(bus.eventBusConfig.value, name);
      bindings := bindings - {QueueBinding(name, bus.eventBusConfig.value.defaultTopicName, name)};
    }

    /**
     * The binding OnEventRemoved deletes is never one Subscribe created for a
     * subscribed (canonical) name, because a subscription name is longer than
     * the canonical name.
     */
    static lemma UnbindKeepsSubscriberBindings(config: EventBusConfig, removed: string)
      ensures forall name :: ProcessEventName(config, name) == name ==>
        QueueBinding(GetSubName(config, name), config.defaultTopicName, name)
          != QueueBinding(removed, config.defaultTopicName, removed)
    {
      forall name | ProcessEventName(config, name) == name
        ensures QueueBinding(GetSubName(config, name), config.defaultTopicName, name)
          != QueueBinding(removed, config.defaultTopicName, removed)
      {
        GetSubNameDiffersFromName(config, name);
      }
    }

    /** Publish: connect, declare the exchange, then BasicPublish under the retry policy. */
    method Publish(event: IntegrationEvent, attemptAt: nat -> SendOutcome) returns (status: Status)
      requires Valid() && bus.eventBusConfig.Some?
      modifies this`connected, this`connectionAttempts, this`exchanges, this`published
      ensures Valid()
      ensures connected
      ensures connectionAttempts == old(connectionAttempts) + (if old(connected) then 0 else 1)
      ensures var config := bus.eventBusConfig.value;
              if config.connectionRetryCount < 0 then
                status == Failed(RetryCountOutOfRange) && exchanges == old(exchanges) && published == old(published)
              else if !channelOpen then
                status == Failed(ChannelAlreadyClosed) && exchanges == old(exchanges) && published == old(published)
              else
                var run := WaitAndRetry(config.connectionRetryCount, attemptAt, 0);
                var message := BasicMessage(config.defaultTopicName, ProcessEventName(config, event.typeName),
                                            true, Persistent, bus.serialize(event));
                exchanges == old(exchanges)[config.defaultTopicName := ExchangeType]
                && (run.last == Sent ==> status == Done && published == old(published) + [message])
                && (run.last != Sent ==> status == Failed(SendFailed(run.last)) && published == old(published))
    {
      var config := bus.eventBusConfig.value;
      ConnectIfNeeded();
      if config.connectionRetryCount < 0 {
        // Polly refuses a negative retry count when the policy is built.
        return Failed(RetryCountOutOfRange);
      }
      var eventName := ProcessEventName(config, event.typeName);
      if !channelOpen {
        return Failed(ChannelAlreadyClosed);
      }
      DeclareExchange();
      var message := bus.serialize(event);
      status := BasicPublishWithRetry(
        BasicMessage(config.defaultTopicName, eventName, true, Persistent, message), config.connectionRetryCount, attemptAt);
    }

    /** policy.Execute(() => BasicPublish(...)): the message is sent once, by the attempt that succeeds. */
    method BasicPublishWithRetry(message: BasicMessage, retryCount: nat, attemptAt: nat -> SendOutcome)
      returns (status: Status)
      modifies this`published
      ensures old(Valid()) ==> Valid()
      ensures var run := WaitAndRetry(retryCount, attemptAt, 0);
              && (run.last == Sent ==> status == Done && published == old(published) + [message])
              && (run.last != Sent ==> status == Failed(SendFailed(run.last)) && published == old(published))
    {
      var run := WaitAndRetry(retryCount, attemptAt, 0);
      if run.last == Sent {
        published := published + [message];
        status := Done;
      } else {
        status := Failed(SendFailed(run.last));
      }
    }

    /**
     * Subscribe<T, TH>: on the event's first subscription declare and bind its
     * queue; then always register the subscription and start a consumer.
     * A closed channel makes the first subscription fail before anything is
     * registered; later subscriptions cannot meet a closed channel, since it is
     * only closed once the registry is empty.
     */
    method Subscribe(t: EventType, h: HandlerType) returns (status: Status)
      requires Valid() && bus.eventBusConfig.Some?
      modifies this`connected, this`connectionAttempts, this`queues, this`bindings, this`consumers, bus.subsManager
      ensures Valid()
      ensures var first := !old(bus.subsManager.HasSubscriptionsForEvent(ProcessEventName(bus.eventBusConfig.value, t.name)));
              first ==> connected && connectionAttempts == old(connectionAttempts) + (if old(connected) then 0 else 1)
      ensures var first := !old(bus.subsManager.HasSubscriptionsForEvent(ProcessEventName(bus.eventBusConfig.value, t.name)));
              !first ==> old(channelOpen) && connected == old(connected) && connectionAttempts == old(connectionAttempts)
      ensures var config := bus.eventBusConfig.value;
              var name := ProcessEventName(config, t.name);
              var queue := GetSubName(config, name);
              var first := !old(bus.subsManager.HasSubscriptionsForEvent(name));
              old(channelOpen) ==>
                && status == Done
                && queues == (if first then old(queues)[queue := SubscriberQueue] else old(queues))
                && bindings == (if first then old(bindings) + {QueueBinding(queue, config.defaultTopicName, name)}
                                else old(bindings))
                && consumers == old(consumers) + [Consumer(queue, false)]
      ensures var name := ProcessEventName(bus.eventBusConfig.value, t.name);
              old(channelOpen) ==>
                && bus.subsManager.handlers == old(bus.subsManager.handlers)[name :=
                     AddIfAbsent(old(bus.subsManager.GetHandlersForEvent(name)), SubscriptionInfo(h))]
                && bus.subsManager.eventTypes == old(bus.subsManager.eventTypes)[t.name := t]
      ensures !old(channelOpen) ==>
                && status == Failed(ChannelAlreadyClosed)
                && queues == old(queues) && bindings == old(bindings) && consumers == old(consumers)
                && bus.subsManager.handlers == old(bus.subsManager.handlers)
                && bus.subsManager.eventTypes == old(bus.subsManager.eventTypes)
    {
      var config := bus.eventBusConfig.value;
      var name := ProcessEventName(config, t.name);
      assert name == bus.subsManager.GetEventKey(t);
      ghost var subscribed := bus.subsManager.GetHandlersForEvent(name);
      if !bus.subsManager.HasSubscriptionsForEvent(name) {
        status := DeclareSubscriberQueue(name);
        if status.Failed? {
          return;
        }
      }
      assert GetSubName(config, name) in queues && QueueBinding(GetSubName(config, name), config.defaultTopicName, name) in bindings;
      bus.subsManager.AddSubscription(t, h);
      assert bus.subsManager.handlers == old(bus.subsManager.handlers)[name := AddIfAbsent(subscribed, SubscriptionInfo(h))];
      assert Valid();
      status := StartBasicConsume(name);
    }

    /**
     * The broker side of an event's first subscription: connect if needed,
     * QueueDeclare the durable queue GetSubName(name), and QueueBind it to the
     * exchange under routing key `name`.
     */
    method DeclareSubscriberQueue(name: string) returns (status: Status)
      requires bus.eventBusConfig.Some?
      modifies this`connected, this`connectionAttempts, this`queues, this`bindings
      ensures connected
      ensures connectionAttempts == old(connectionAttempts) + (if old(connected) then 0 else 1)
      ensures var config := bus.eventBusConfig.value;
              var queue := GetSubName(config, name);
              if channelOpen then
                && status == Done
                && queues == old(queues)[queue := SubscriberQueue]
                && bindings == old(bindings) + {QueueBinding(queue, config.defaultTopicName, name)}
              else
                status == Failed(ChannelAlreadyClosed) && queues == old(queues) && bindings == old(bindings)
      ensures old(Valid()) ==> Valid()
    {
      var config := bus.eventBusConfig.value;
      ConnectIfNeeded();
      if !channelOpen {
        return Failed(ChannelAlreadyClosed);
      }
      queues := queues[GetSubName(config, name) := SubscriberQueue];
      bindings := bindings + {QueueBinding(GetSubName(config, name), config.defaultTopicName, name)};
      status := Done;
    }

    /** StartBasicConsume: a consumer on GetSubName(name) with manual acknowledgement. */
    method StartBasicConsume(eventName: string) returns (status: Status)
      requires bus.eventBusConfig.Some?
      modifies this`consumers
      ensures old(Valid()) ==> Valid()
      ensures channelOpen ==>
        status == Done && consumers == old(consumers) + [Consumer(GetSubName(bus.eventBusConfig.value, eventName), false)]
      ensures !channelOpen ==> status == Failed(ChannelAlreadyClosed) && consumers == old(consumers)
    {
      if !channelOpen {
        return Failed(ChannelAlreadyClosed);
      }
      consumers := consumers + [Consumer(GetSubName(bus.eventBusConfig.value, eventName), false)];
      status := Done;
    }

    /**
     * UnSubscribe<T, TH>: only the registry changes here; the broker changes
     * through OnEventRemoved, when the event's last subscription went.
     */
    method UnSubscribe(t: EventType, h: HandlerType) returns (status: Status)
      requires Valid() && bus.eventBusConfig.Some?
      modifies this`connected, this`connectionAttempts, this`bindings, this`channelOpen, bus.subsManager
      ensures Valid() && status == Done
      ensures SubscriptionInfo(h) !in bus.subsManager.GetHandlersForEventType(t)
      ensures var name := bus.subsManager.GetEventKey(t);
              var before := old(bus.subsManager.GetHandlersForEvent(name));
              var rest := Without(before, SubscriptionInfo(h));
              && bus.subsManager.handlers ==
                   (if rest == [] then old(bus.subsManager.handlers) - {name}
                    else old(bus.subsManager.handlers)[name := rest])
              && bus.subsManager.eventTypes ==
                   (if before == [SubscriptionInfo(h)] then old(bus.subsManager.eventTypes) - {t.name}
                    else old(bus.subsManager.eventTypes))
      ensures var config := bus.eventBusConfig.value;
              var name := bus.subsManager.GetEventKey(t);
              var last := old(bus.subsManager.GetHandlersForEvent(name)) == [SubscriptionInfo(h)];
              && (last ==>
                    && bindings == old(bindings) - {QueueBinding(name, config.defaultTopicName, name)}
                    && channelOpen == (bus.subsManager.handlers != map[])
                    && connected)
              && (!last ==>
                    bindings == old(bindings) && channelOpen == old(channelOpen) && connected == old(connected)
                    && connectionAttempts == old(connectionAttempts))
      ensures var config := bus.eventBusConfig.value;
              var name := bus.subsManager.GetEventKey(t);
              var created := QueueBinding(GetSubName(config, name), config.defaultTopicName, name);
              old(created in bindings) ==> created in bindings
    {
      var config := bus.eventBusConfig.value;
      var name := bus.subsManager.GetEventKey(t);
      var removed := RemoveRegistration(t, h);
      if removed.Some? {
        GetSubNameDiffersFromName(config, name);
        status := OnEventRemoved(removed.value);
      } else {
        status := Done;
      }
    }

    /**
     * The registry step of UnSubscribe: the entry goes, and the event's name
     * is reported exactly when `h` was its last subscription.
     */
    method RemoveRegistration(t: EventType, h: HandlerType) returns (removed: Option<string>)
      requires Valid() && bus.eventBusConfig.Some?
      modifies bus.subsManager
      ensures Valid()
      ensures SubscriptionInfo(h) !in bus.subsManager.GetHandlersForEventType(t)
      ensures var name := bus.subsManager.GetEventKey(t);
              var before := old(bus.subsManager.GetHandlersForEvent(name));
              var rest := Without(before, SubscriptionInfo(h));
              && bus.subsManager.handlers ==
                   (if rest == [] then old(bus.subsManager.handlers) - {name}
                    else old(bus.subsManager.handlers)[name := rest])
              && bus.subsManager.eventTypes ==
                   (if before == [SubscriptionInfo(h)] then old(bus.subsManager.eventTypes) - {t.name}
                    else old(bus.subsManager.eventTypes))
      ensures var name := bus.subsManager.GetEventKey(t);
              removed == if old(bus.subsManager.GetHandlersForEvent(name)) == [SubscriptionInfo(h)] then Some(name) else None
      ensures removed.Some? ==> channelOpen
    {
      removed := bus.subsManager.RemoveSubscription(t, h);
    }

    /**
     * Consumer_Received: dispatch the delivery (any exception is swallowed),
     * then acknowledge it, whatever the dispatch did.  Deliveries only arrive
     * on the open consumer channel.  After Dispose, canonicalising the routing
     * key dereferences the dropped configuration before the try block: the
     * handler throws ConfigDisposed and the delivery is never acknowledged.
     */
    method ConsumerReceived(delivery: Delivery) returns (r: DispatchResult)
      requires Valid() && channelOpen
      modifies this`acked
      ensures acked == if bus.eventBusConfig.Some? then old(acked) + [delivery.deliveryTag] else old(acked)
      ensures bus.eventBusConfig.None? ==> r.outcome == Threw(ConfigDisposed) && r.invoked == []
      ensures r == bus.Dispatched(delivery.routingKey, delivery.body)
    {
      if bus.eventBusConfig.None? {
        return DispatchResult(Threw(ConfigDisposed), []);
      }
      var eventName := ProcessEventName(bus.eventBusConfig.value, delivery.routingKey);
      var message := delivery.body;
      r := bus.ProcessEvent(eventName, message);
      bus.DispatchCanonicalName(delivery.routingKey, message);
      acked := acked + [delivery.deliveryTag];
    }
  }

  /** A new adapter on which `h` has subscribed to `t`: one entry, its queue bound, the channel open. */
  method SubscribedOnce(
    serviceProvider: HandlerType -> Option<Handler>, config: EventBusConfig,
    deserialize: (string, EventType) -> Option<IntegrationEvent>,
    handle: (Handler, IntegrationEvent) -> bool,
    serialize: IntegrationEvent -> string, t: EventType, h: HandlerType)
    returns (eventBus: EventBusRabbitMQ)
    ensures fresh(eventBus) && fresh(eventBus.bus) && fresh(eventBus.bus.subsManager)
    ensures eventBus.Valid() && eventBus.bus.eventBusConfig == Some(config) && eventBus.channelOpen
    ensures eventBus.bus.subsManager.handlers == map[ProcessEventName(config, t.name) := [SubscriptionInfo(h)]]
    ensures var name := ProcessEventName(config, t.name);
            QueueBinding(GetSubName(config, name), config.defaultTopicName, name) in eventBus.bindings
  {
    eventBus := new EventBusRabbitMQ(serviceProvider, config, deserialize, handle, serialize);
    var name := ProcessEventName(config, t.name);
    assert eventBus.bus.subsManager.GetHandlersForEvent(name) == [];
    assert AddIfAbsent([], SubscriptionInfo(h)) == [SubscriptionInfo(h)];
    var subscribed := eventBus.Subscribe(t, h);
  }

  /** Removing the only subscription closes the channel and keeps the queue binding. */
  method UnsubscribeOnly(eventBus: EventBusRabbitMQ, t: EventType, h: HandlerType)
    requires eventBus.Valid() && eventBus.bus.eventBusConfig.Some?
    requires var name := ProcessEventName(eventBus.bus.eventBusConfig.value, t.name);
             eventBus.bus.subsManager.handlers == map[name := [SubscriptionInfo(h)]]
    modifies eventBus`connected, eventBus`connectionAttempts, eventBus`bindings, eventBus`channelOpen,
             eventBus.bus.subsManager
    ensures eventBus.Valid() && !eventBus.channelOpen && eventBus.bus.subsManager.handlers == map[]
    ensures var config := eventBus.bus.eventBusConfig.value;
            var name := ProcessEventName(config, t.name);
            var created := QueueBinding(GetSubName(config, name), config.defaultTopicName, name);
            old(created in eventBus.bindings) ==> created in eventBus.bindings
  {
    var manager := eventBus.bus.subsManager;
    var name := manager.GetEventKey(t);
    assert name == ProcessEventName(eventBus.bus.eventBusConfig.value, t.name);
    assert manager.GetHandlersForEvent(name) == [SubscriptionInfo(h)];
    var unsubscribed := eventBus.UnSubscribe(t, h);
    assert Without([SubscriptionInfo(h)], SubscriptionInfo(h)) == [];
    assert manager.handlers == map[name := [SubscriptionInfo(h)]] - {name};
    assert manager.handlers.Keys == {};
  }

  /**
   * Subscribing one handler and then unsubscribing it leaves the queue binding
   * Subscribe created in place, while the consumer channel ends up closed, so
   * subscribing again fails.
   */
  method SubscribeUnsubscribeScenario(
    serviceProvider: HandlerType -> Option<Handler>, config: EventBusConfig,
    deserialize: (string, EventType) -> Option<IntegrationEvent>,
    handle: (Handler, IntegrationEvent) -> bool,
    serialize: IntegrationEvent -> string, t: EventType, h: HandlerType)
    returns (bindingSurvives: bool, channelClosed: bool, resubscribe: Status)
    ensures bindingSurvives && channelClosed
    ensures resubscribe == Failed(ChannelAlreadyClosed)
  {
    var eventBus := SubscribedOnce(serviceProvider, config, deserialize, handle, serialize, t, h);
    UnsubscribeOnly(eventBus, t, h);
    var name := ProcessEventName(config, t.name);
    bindingSurvives := QueueBinding(GetSubName(config, name), config.defaultTopicName, name) in eventBus.bindings;
    channelClosed := !eventBus.channelOpen;
    resubscribe := eventBus.Subscribe(t, h);
  }
}
