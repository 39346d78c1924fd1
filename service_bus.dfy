/**
 * EventBusServiceBus over an abstract Service Bus namespace: the topics, the
 * subscriptions of each topic with their rules, the messages sent, and a log
 * of the management calls that change the namespace.
 *
 * The management, topic and subscription clients are modelled as their effect
 * on that state; a call on a missing entity fails with EntityNotFound and a
 * create of an existing one with EntityAlreadyExists, as the SDK's
 * MessagingEntityNotFoundException and MessagingEntityAlreadyExistsException.
 */
module ServiceBus {
  import opened Wrappers
  import opened EventNames
  import opened Subscriptions
  import opened Dispatch

  datatype TopicClient = TopicClient(topicPath: string, closedOrClosing: bool)

  datatype SubscriptionClient = SubscriptionClient(topicPath: string, subscriptionName: string)

  datatype SubscriptionKey = SubscriptionKey(topic: string, subscription: string)

  /** A rule's filter: the default rule's match-all filter, or a filter on the message label. */
  datatype Filter = TrueFilter | CorrelationFilter(matchLabel: string)

  datatype Message = Message(messageId: string, body: string, messageLabel: string)

  /** The namespace-changing calls, in the order they were made. */
  datatype ManagementCall =
    | CreateTopic(topic: string)
    | CreateSubscription(key: SubscriptionKey)
    | AddRule(key: SubscriptionKey, rule: string, filter: Filter)
    | RemoveRule(key: SubscriptionKey, rule: string)

  datatype Fault = NotImplemented | EntityNotFound | EntityAlreadyExists | ClientClosed

  datatype Status = Done | Failed(fault: Fault)

  /** RuleDescription.DefaultRuleName: the match-all rule a new subscription starts with. */
  const DefaultRuleName := "$Default"

  class EventBusServiceBus {
    const bus: BaseEventBus
    var topicClient: Option<TopicClient>
    /** How many TopicClient instances were constructed. */
    var clientsCreated: nat
    var topics: set<string>
    /** Subscription to its rules, rule name to filter. */
    var subscriptions: map<SubscriptionKey, map<string, Filter>>
    var sent: seq<Message>
    /** Warnings logged by RemoveDefaultRule. */
    var warnings: nat
    var log: seq<ManagementCall>

    /** The bus is valid, and the topic it publishes on exists. */
    ghost predicate Valid()
      reads this`topics, bus, bus.subsManager
    {
      && bus.Valid()
      && (bus.eventBusConfig.Some? ==> bus.eventBusConfig.value.defaultTopicName in topics)
    }

    /** `existingTopics` and `existingSubscriptions` are what the namespace already holds. */
    constructor (
      serviceProvider: HandlerType -> Option<Handler>, eventBusConfig: EventBusConfig,
      deserialize: (string, EventType) -> Option<IntegrationEvent>,
      handle: (Handler, IntegrationEvent) -> bool,
      serialize: IntegrationEvent -> string,
      existingTopics: set<string>, existingSubscriptions: map<SubscriptionKey, map<string, Filter>>)
      ensures Valid() && fresh(bus) && fresh(bus.subsManager)
      ensures bus.eventBusConfig == Some(eventBusConfig) && bus.serialize == serialize
      ensures topicClient == Some(TopicClient(eventBusConfig.defaultTopicName, false)) && clientsCreated == 1
      ensures topics == existingTopics + {eventBusConfig.defaultTopicName}
      ensures log == if eventBusConfig.defaultTopicName in existingTopics then []
                     else [CreateTopic(eventBusConfig.defaultTopicName)]
      ensures subscriptions == existingSubscriptions && sent == [] && warnings == 0
    {
      bus := new BaseEventBus(serviceProvider, eventBusConfig, deserialize, handle, serialize);
      topicClient := None;
      clientsCreated := 0;
      topics := existingTopics;
      subscriptions := existingSubscriptions;
      sent := [];
      warnings := 0;
      log := [];
      new;
      CreateTopicClient();
    }

    /**
     * CreateTopicClient: a new topic client only when there is none or it is
     * closed or closing; the topic is created only when it does not exist.
     */
    method CreateTopicClient()
      requires bus.eventBusConfig.Some?
      modifies this`topicClient, this`clientsCreated, this`topics, this`log
      ensures var topic := bus.eventBusConfig.value.defaultTopicName;
              var replace := old(topicClient).None? || old(topicClient).value.closedOrClosing;
              && topicClient == (if replace then Some(TopicClient(topic, false)) else old(topicClient))
              && clientsCreated == old(clientsCreated) + (if replace then 1 else 0)
              && topics == old(topics) + {topic}
              && log == old(log) + (if topic in old(topics) then [] else [CreateTopic(topic)])
    {
      var topic := bus.eventBusConfig.value.defaultTopicName;
      if topicClient.None? || topicClient.value.closedOrClosing {
        topicClient := Some(TopicClient(topic, false));
        clientsCreated := clientsCreated + 1;
      }
      if topic !in topics {
        topics := topics + {topic};
        log := log + [CreateTopic(topic)];
      }
    }

    /**
     * Publish: one message labelled with the canonical event name, carrying
     * the serialized event; `messageId` stands for the fresh Guid.
     */
    method Publish(event: IntegrationEvent, messageId: string) returns (status: Status)
      requires bus.eventBusConfig.Some?
      modifies this`sent
      ensures var message := Message(messageId, bus.serialize(event),
                                     ProcessEventName(bus.eventBusConfig.value, event.typeName));
              if topicClient.Some? && !topicClient.value.closedOrClosing then
                status == Done && sent == old(sent) + [message]
              else
                status == Failed(ClientClosed) && sent == old(sent)
    {
      var eventName := ProcessEventName(bus.eventBusConfig.value, event.typeName);
      var message := Message(messageId, bus.serialize(event), eventName);
      if topicClient.None? || topicClient.value.closedOrClosing {
        return Failed(ClientClosed);
      }
      sent := sent + [message];
      status := Done;
    }

    /** Subscribe<T, TH>: computes the canonical name and queries the registry, and changes nothing. */
    method Subscribe(t: EventType, h: HandlerType) returns (status: Status)
      requires Valid() && bus.eventBusConfig.Some?
      ensures status == Done
    {
      var eventName := ProcessEventName(bus.eventBusConfig.value, t.name);
      if !bus.subsManager.HasSubscriptionsForEvent(eventName) {
      }
      status := Done;
    }

    /** UnSubscribe<T, TH>: not implemented. */
    method UnSubscribe(t: EventType, h: HandlerType) returns (status: Status)
      ensures status == Failed(NotImplemented)
    {
      status := Failed(NotImplemented);
    }

    /**
     * The answer GetRuleAsync(topic, subscription, rule) gives: the rule exists
     * only if the subscription exists and holds it (otherwise the call throws
     * not-found, which CreateRuleIfNotExists reads as absent).
     */
    function RuleExists(topic: string, subscription: string, rule: string): (r: bool)
      reads this`subscriptions
      ensures r <==> SubscriptionKey(topic, subscription) in subscriptions
                     && rule in subscriptions[SubscriptionKey(topic, subscription)]
    {
      var key := SubscriptionKey(topic, subscription);
      key in subscriptions && rule in subscriptions[key]
    }

    /** SubscriptionClient.AddRuleAsync on the client's subscription. */
    method AddRuleOn(client: SubscriptionClient, rule: string, filter: Filter) returns (status: Status)
      modifies this`subscriptions, this`log
      ensures var key := SubscriptionKey(client.topicPath, client.subscriptionName);
              if key !in old(subscriptions) then
                status == Failed(EntityNotFound) && subscriptions == old(subscriptions) && log == old(log)
              else if rule in old(subscriptions)[key] then
                status == Failed(EntityAlreadyExists) && subscriptions == old(subscriptions) && log == old(log)
              else
                && status == Done
                && subscriptions == old(subscriptions)[key := old(subscriptions)[key][rule := filter]]
                && log == old(log) + [AddRule(key, rule, filter)]
    {
      var key := SubscriptionKey(client.topicPath, client.subscriptionName);
      if key !in subscriptions {
        return Failed(EntityNotFound);
      }
      if rule in subscriptions[key] {
        return Failed(EntityAlreadyExists);
      }
      subscriptions := subscriptions[key := subscriptions[key][rule := filter]];
      log := log + [AddRule(key, rule, filter)];
      status := Done;
    }

    /**
     * CreateRuleIfNotExists: probe for rule `eventName` in the subscription
     * named `eventName` itself (not the client's subscription); when the probe
     * finds nothing, add the rule `eventName`, filtering on label `eventName`,
     * through the client.
     */
    method CreateRuleIfNotExists(eventName: string, client: SubscriptionClient) returns (status: Status)
      requires bus.eventBusConfig.Some?
      modifies this`subscriptions, this`log
      ensures var key := SubscriptionKey(client.topicPath, client.subscriptionName);
              var probe := old(RuleExists(bus.eventBusConfig.value.defaultTopicName, eventName, eventName));
              if probe then
                status == Done && subscriptions == old(subscriptions) && log == old(log)
              else if key !in old(subscriptions) then
                status == Failed(EntityNotFound) && subscriptions == old(subscriptions) && log == old(log)
              else if eventName in old(subscriptions)[key] then
                status == Failed(EntityAlreadyExists) && subscriptions == old(subscriptions) && log == old(log)
              else
                && status == Done
                && subscriptions == old(subscriptions)[key := old(subscriptions)[key][eventName := CorrelationFilter(eventName)]]
                && log == old(log) + [AddRule(key, eventName, CorrelationFilter(eventName))]
    {
      var ruleExists := RuleExists(bus.eventBusConfig.value.defaultTopicName, eventName, eventName);
      if !ruleExists {
        status := AddRuleOn(client, eventName, CorrelationFilter(eventName));
      } else {
        status := Done;
      }
    }

    /** RemoveDefaultRule: remove the default rule; when it is not found, log a warning instead of failing. */
    method RemoveDefaultRule(client: SubscriptionClient)
      modifies this`subscriptions, this`log, this`warnings
      ensures var key := SubscriptionKey(client.topicPath, client.subscriptionName);
              if key in old(subscriptions) && DefaultRuleName in old(subscriptions)[key] then
                && subscriptions == old(subscriptions)[key := old(subscriptions)[key] - {DefaultRuleName}]
                && log == old(log) + [RemoveRule(key, DefaultRuleName)]
                && warnings == old(warnings)
              else
                subscriptions == old(subscriptions) && log == old(log) && warnings == old(warnings) + 1
    {
      var key := SubscriptionKey(client.topicPath, client.subscriptionName);
      if key in subscriptions && DefaultRuleName in subscriptions[key] {
        subscriptions := subscriptions[key := subscriptions[key] - {DefaultRuleName}];
        log := log + [RemoveRule(key, DefaultRuleName)];
      } else {
        warnings := warnings + 1;
      }
    }

    /**
     * CreateSubscriptionClientIfNotExists: the client for subscription
     * GetSubName(eventName); a subscription that does not exist is created
     * (with its default rule) and has that rule removed; then
     * CreateRuleIfNotExists runs with the canonical name.
     */
    method CreateSubscriptionClientIfNotExists(eventName: string) returns (client: SubscriptionClient, status: Status)
      requires Valid() && bus.eventBusConfig.Some?
      modifies this`subscriptions, this`log, this`warnings
      ensures Valid() && warnings == old(warnings)
      ensures var config := bus.eventBusConfig.value;
              var name := ProcessEventName(config, eventName);
              var key := SubscriptionKey(config.defaultTopicName, GetSubName(config, eventName));
              var created := key !in old(subscriptions);
              var rules := if created then map[] else old(subscriptions)[key];
              var probe := old(RuleExists(config.defaultTopicName, name, name));
              var calls := if created then [CreateSubscription(key), RemoveRule(key, DefaultRuleName)] else [];
              && client == SubscriptionClient(config.defaultTopicName, GetSubName(config, eventName))
              && (if probe then
                    status == Done && subscriptions == old(subscriptions)[key := rules] && log == old(log) + calls
                  else if name in rules then
                    && status == Failed(EntityAlreadyExists)
                    && subscriptions == old(subscriptions)[key := rules] && log == old(log) + calls
                  else
                    && status == Done
                    && subscriptions == old(subscriptions)[key := rules[name := CorrelationFilter(name)]]
                    && log == old(log) + calls + [AddRule(key, name, CorrelationFilter(name))])
    {
      var config := bus.eventBusConfig.value;
      client := SubscriptionClient(config.defaultTopicName, GetSubName(config, eventName));
      var key := SubscriptionKey(config.defaultTopicName, GetSubName(config, eventName));
      var name := ProcessEventName(config, eventName);
      ghost var probe := RuleExists(config.defaultTopicName, name, name);
      var subscriptionExists := key in subscriptions;
      if !subscriptionExists {
        NewSubscription(client);
      }
      ProbeUnaffected(config, eventName);
      assert RuleExists(config.defaultTopicName, name, name) == probe;
      status := CreateRuleIfNotExists(name, client);
    }

    /**
     * CreateSubscriptionAsync for the client's subscription, which the
     * namespace gives a default rule, followed by RemoveDefaultRule: the new
     * subscription ends up without rules.
     */
    method NewSubscription(client: SubscriptionClient)
      requires SubscriptionKey(client.topicPath, client.subscriptionName) !in subscriptions
      modifies this`subscriptions, this`log, this`warnings
      ensures var key := SubscriptionKey(client.topicPath, client.subscriptionName);
              && subscriptions == old(subscriptions)[key := map[]]
              && log == old(log) + [CreateSubscription(key), RemoveRule(key, DefaultRuleName)]
              && warnings == old(warnings)
    {
      var key := SubscriptionKey(client.topicPath, client.subscriptionName);
      subscriptions := subscriptions[key := map[DefaultRuleName := TrueFilter]];
      log := log + [CreateSubscription(key)];
      RemoveDefaultRule(client);
      assert map[DefaultRuleName := TrueFilter] - {DefaultRuleName} == map[];
    }

    /**
     * The probe looks at the subscription named by the canonical name, never
     * at the client's subscription GetSubName(name).
     */
    static lemma ProbeUnaffected(config: EventBusConfig, eventName: string)
      ensures SubscriptionKey(config.defaultTopicName, ProcessEventName(config, eventName))
              != SubscriptionKey(config.defaultTopicName, GetSubName(config, eventName))
    {
      ProcessEventNameIdempotent(config, eventName);
      GetSubNameOfCanonical(config, eventName);
      GetSubNameDiffersFromName(config, ProcessEventName(config, eventName));
    }
  }

  /**
   * Provisioning the same event twice on a fresh namespace: the first call
   * creates the subscription and its rule; the second call's probe misses (it
   * looks in the wrong subscription), so it tries to add the rule again and
   * fails with EntityAlreadyExists.
   */
  method ProvisionTwiceScenario(
    serviceProvider: HandlerType -> Option<Handler>, config: EventBusConfig,
    deserialize: (string, EventType) -> Option<IntegrationEvent>,
    handle: (Handler, IntegrationEvent) -> bool,
    serialize: IntegrationEvent -> string, eventName: string)
    returns (first: Status, second: Status, rules: map<string, Filter>)
    ensures first == Done && second == Failed(EntityAlreadyExists)
    ensures var name := ProcessEventName(config, eventName);
            rules == map[name := CorrelationFilter(name)]
  {
    var eventBus := new EventBusServiceBus(serviceProvider, config, deserialize, handle, serialize, {}, map[]);
    var client;
    client, first := eventBus.CreateSubscriptionClientIfNotExists(eventName);
    client, second := eventBus.CreateSubscriptionClientIfNotExists(eventName);
    var key := SubscriptionKey(config.defaultTopicName, GetSubName(config, eventName));
    rules := eventBus.subscriptions[key];
  }
}
