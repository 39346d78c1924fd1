/**
 * BaseEventBus: the configuration it owns, Dispose, and ProcessEvent, which
 * routes one inbound message to the handlers registered for its event.
 *
 * Handler resolution (the service provider), JSON deserialisation and the
 * handlers themselves are outside the core; they are given to the bus as
 * functions.  A handler either completes (true) or throws (false).
 */
module Dispatch {
  import opened Wrappers
  import opened EventNames
  import opened Subscriptions

  /** A resolved handler instance. */
  datatype Handler = Handler(handlerType: HandlerType, instance: nat)

  /** An integration event: its type name, its identity and its own fields (as text). */
  datatype IntegrationEvent = IntegrationEvent(typeName: string, id: nat, createdDate: int, fields: string)

  /** Exceptions that escape ProcessEvent. */
  datatype Fault =
    | ConfigDisposed              // EventBusConfig was set to null by Dispose
    | EventTypeMissing            // no event type under prefix + name + suffix
    | DeserializationFailed(typeName: string)
    | HandlerFailed(handler: Handler)

  datatype Outcome = Returned(processed: bool) | Threw(fault: Fault)

  /** What ProcessEvent did: how it ended, and the handlers it invoked, in order. */
  datatype DispatchResult = DispatchResult(outcome: Outcome, invoked: seq<Handler>)

  /** The handlers that resolve, in subscription order. */
  function Resolved(subs: seq<SubscriptionInfo>, resolve: HandlerType -> Option<Handler>): (r: seq<Handler>)
    ensures |r| <= |subs|
    decreases |subs|
  {
    if subs == [] then []
    else
      var head := resolve(subs[0].handlerType);
      (if head.Some? then [head.value] else []) + Resolved(subs[1..], resolve)
  }

  /** The index of the first handler that throws on `event`, or |hs| when none does. */
  function FirstFailure(hs: seq<Handler>, event: IntegrationEvent, handle: (Handler, IntegrationEvent) -> bool): (k: nat)
    ensures k <= |hs|
    ensures forall i :: 0 <= i < k ==> handle(hs[i], event)
    ensures k < |hs| ==> !handle(hs[k], event)
    decreases |hs|
  {
    if hs == [] then 0
    else if !handle(hs[0], event) then 0
    else 1 + FirstFailure(hs[1..], event, handle)
  }

  /** Prefix a run of the remaining subscriptions with the handlers already invoked. */
  function After(done: seq<Handler>, rest: DispatchResult): DispatchResult {
    DispatchResult(rest.outcome, done + rest.invoked)
  }

  /**
   * The foreach loop of ProcessEvent over `subs`: skip a handler that does not
   * resolve, otherwise look up the event type, deserialise and invoke.
   */
  function RunHandlers(
    subs: seq<SubscriptionInfo>, eventType: Option<EventType>, message: string,
    resolve: HandlerType -> Option<Handler>,
    deserialize: (string, EventType) -> Option<IntegrationEvent>,
    handle: (Handler, IntegrationEvent) -> bool): (r: DispatchResult)
    decreases |subs|
  {
    if subs == [] then DispatchResult(Returned(true), [])
    else
      var handler := resolve(subs[0].handlerType);
      if handler.None? then RunHandlers(subs[1..], eventType, message, resolve, deserialize, handle)
      else if eventType.None? then DispatchResult(Threw(EventTypeMissing), [])
      else
        var event := deserialize(message, eventType.value);
        if event.None? then DispatchResult(Threw(DeserializationFailed(eventType.value.name)), [])
        else if !handle(handler.value, event.value) then DispatchResult(Threw(HandlerFailed(handler.value)), [handler.value])
        else After([handler.value], RunHandlers(subs[1..], eventType, message, resolve, deserialize, handle))
  }

  /** The handler loop never answers false: it completes or throws. */
  lemma {:induction false} RunHandlersNeverFalse(
    subs: seq<SubscriptionInfo>, eventType: Option<EventType>, message: string,
    resolve: HandlerType -> Option<Handler>,
    deserialize: (string, EventType) -> Option<IntegrationEvent>,
    handle: (Handler, IntegrationEvent) -> bool)
    ensures RunHandlers(subs, eventType, message, resolve, deserialize, handle).outcome != Returned(false)
    decreases |subs|
  {
    if subs != [] {
      RunHandlersNeverFalse(subs[1..], eventType, message, resolve, deserialize, handle);
    }
  }

  /** When no handler resolves, nothing is invoked and the answer is true, whatever the payload. */
  lemma {:induction false} RunHandlersAllSkipped(
    subs: seq<SubscriptionInfo>, eventType: Option<EventType>, message: string,
    resolve: HandlerType -> Option<Handler>,
    deserialize: (string, EventType) -> Option<IntegrationEvent>,
    handle: (Handler, IntegrationEvent) -> bool)
    requires Resolved(subs, resolve) == []
    ensures RunHandlers(subs, eventType, message, resolve, deserialize, handle) == DispatchResult(Returned(true), [])
    decreases |subs|
  {
    if subs != [] {
      RunHandlersAllSkipped(subs[1..], eventType, message, resolve, deserialize, handle);
    }
  }

  /**
   * When some handler resolves but the payload cannot be turned into an event,
   * the loop throws before invoking anything.
   */
  lemma {:induction false} RunHandlersNoEvent(
    subs: seq<SubscriptionInfo>, eventType: Option<EventType>, message: string,
    resolve: HandlerType -> Option<Handler>,
    deserialize: (string, EventType) -> Option<IntegrationEvent>,
    handle: (Handler, IntegrationEvent) -> bool)
    requires Resolved(subs, resolve) != []
    requires eventType.None? || deserialize(message, eventType.value).None?
    ensures var r := RunHandlers(subs, eventType, message, resolve, deserialize, handle);
            r.invoked == [] && r.outcome.Threw?
            && (eventType.None? ==> r.outcome.fault == EventTypeMissing)
            && (eventType.Some? ==> r.outcome.fault == DeserializationFailed(eventType.value.name))
    decreases |subs|
  {
    if resolve(subs[0].handlerType).None? {
      RunHandlersNoEvent(subs[1..], eventType, message, resolve, deserialize, handle);
    }
  }

  /**
   * With the event deserialised, the resolvable handlers run one at a time in
   * subscription order up to and including the first that throws; the loop
   * answers true exactly when none throws.
   */
  lemma {:induction false} RunHandlersInOrder(
    subs: seq<SubscriptionInfo>, eventType: Option<EventType>, message: string,
    resolve: HandlerType -> Option<Handler>,
    deserialize: (string, EventType) -> Option<IntegrationEvent>,
    handle: (Handler, IntegrationEvent) -> bool,
    event: IntegrationEvent)
    requires eventType.Some? && deserialize(message, eventType.value) == Some(event)
    ensures var hs := Resolved(subs, resolve);
            var k := FirstFailure(hs, event, handle);
            RunHandlers(subs, eventType, message, resolve, deserialize, handle)
              == if k == |hs| then DispatchResult(Returned(true), hs)
                 else DispatchResult(Threw(HandlerFailed(hs[k])), hs[..k + 1])
    decreases |subs|
  {
    if subs == [] {
      return;
    }
    var rest := subs[1..];
    RunHandlersInOrder(rest, eventType, message, resolve, deserialize, handle, event);
    var head := resolve(subs[0].handlerType);
    var hs := Resolved(subs, resolve);
    if head.None? {
      assert hs == Resolved(rest, resolve);
    } else if !handle(head.value, event) {
      assert hs[0] == head.value && FirstFailure(hs, event, handle) == 0;
      assert hs[..1] == [head.value];
    } else {
      RunHandlersInOrderCompleted(subs, eventType, message, resolve, deserialize, handle, event, head.value);
    }
  }

  /** The step of RunHandlersInOrder where the first subscription resolves to a handler that completes. */
  lemma {:induction false} RunHandlersInOrderCompleted(
    subs: seq<SubscriptionInfo>, eventType: Option<EventType>, message: string,
    resolve: HandlerType -> Option<Handler>,
    deserialize: (string, EventType) -> Option<IntegrationEvent>,
    handle: (Handler, IntegrationEvent) -> bool,
    event: IntegrationEvent, h: Handler)
    requires eventType.Some? && deserialize(message, eventType.value) == Some(event)
    requires subs != [] && resolve(subs[0].handlerType) == Some(h) && handle(h, event)
    requires var hs := Resolved(subs[1..], resolve);
             var k := FirstFailure(hs, event, handle);
             RunHandlers(subs[1..], eventType, message, resolve, deserialize, handle)
               == if k == |hs| then DispatchResult(Returned(true), hs)
                  else DispatchResult(Threw(HandlerFailed(hs[k])), hs[..k + 1])
    ensures var hs := Resolved(subs, resolve);
            var k := FirstFailure(hs, event, handle);
            RunHandlers(subs, eventType, message, resolve, deserialize, handle)
              == if k == |hs| then DispatchResult(Returned(true), hs)
                 else DispatchResult(Threw(HandlerFailed(hs[k])), hs[..k + 1])
  {
    var hsRest := Resolved(subs[1..], resolve);
    var hs := Resolved(subs, resolve);
    assert hs == [h] + hsRest;
    var k := FirstFailure(hsRest, event, handle);
    assert FirstFailure(hs, event, handle) == 1 + k by {
      assert hs[1..] == hsRest;
    }
    if k < |hsRest| {
      assert hs[..k + 2] == [h] + hsRest[..k + 1];
    }
  }

  class BaseEventBus {
    /** EventBusConfig; Dispose sets it to null (None). */
    var eventBusConfig: Option<EventBusConfig>
    const subsManager: SubscriptionManager
    /** IServiceProvider.GetService for handler types. */
    const serviceProvider: HandlerType -> Option<Handler>
    /** JsonConvert.DeserializeObject(message, eventType). */
    const deserialize: (string, EventType) -> Option<IntegrationEvent>
    /** IIntegrationEventHandler.Handle: true when it completes, false when it throws. */
    const handle: (Handler, IntegrationEvent) -> bool
    /** JsonConvert.SerializeObject(event), used by the transports. */
    const serialize: IntegrationEvent -> string

    /** The registry is consistent and derives its keys from this bus's configuration. */
    ghost predicate Valid()
      reads this, subsManager
    {
      subsManager.Valid() && (eventBusConfig.Some? ==> eventBusConfig.value == subsManager.keyConfig)
    }

    constructor (
      serviceProvider: HandlerType -> Option<Handler>, eventBusConfig: EventBusConfig,
      deserialize: (string, EventType) -> Option<IntegrationEvent>,
      handle: (Handler, IntegrationEvent) -> bool,
      serialize: IntegrationEvent -> string)
      ensures Valid() && fresh(subsManager)
      ensures this.eventBusConfig == Some(eventBusConfig)
      ensures subsManager.handlers == map[] && subsManager.eventTypes == map[]
      ensures this.serviceProvider == serviceProvider && this.deserialize == deserialize
      ensures this.handle == handle && this.serialize == serialize
    {
      this.serviceProvider := serviceProvider;
      this.subsManager := new SubscriptionManager(eventBusConfig);
      this.eventBusConfig := Some(eventBusConfig);
      this.deserialize := deserialize;
      this.handle := handle;
      this.serialize := serialize;
    }

    /** Dispose: drops the configuration. */
    method Dispose()
      requires Valid()
      modifies this
      ensures Valid() && eventBusConfig == None
    {
      eventBusConfig := None;
    }

    /** What ProcessEvent(eventName, message) does in the current registry state. */
    function Dispatched(eventName: string, message: string): DispatchResult
      requires subsManager.Valid()
      reads this, subsManager
    {
      if eventBusConfig.None? then DispatchResult(Threw(ConfigDisposed), [])
      else
        var config := eventBusConfig.value;
        var name := ProcessEventName(config, eventName);
        if !subsManager.HasSubscriptionsForEvent(name) then DispatchResult(Returned(false), [])
        else
          RunHandlers(subsManager.GetHandlersForEvent(name),
                      subsManager.GetEventTypeByName(config.eventNamePrefix + name + config.eventNameSuffix),
                      message, serviceProvider, deserialize, handle)
    }

    /** ProcessEvent(eventName, message). */
    method ProcessEvent(eventName: string, message: string) returns (r: DispatchResult)
      requires Valid()
      ensures r == Dispatched(eventName, message)
    {
      if eventBusConfig.None? {
        return DispatchResult(Threw(ConfigDisposed), []);
      }
      var config := eventBusConfig.value;
      var name := ProcessEventName(config, eventName);
      var processed := false;
      if subsManager.HasSubscriptionsForEvent(name) {
        var subscriptions := subsManager.GetHandlersForEvent(name);
        r := InvokeHandlers(subscriptions, config.eventNamePrefix + name + config.eventNameSuffix, message);
        return r;
      }
      return DispatchResult(Returned(processed), []);
    }

    /**
     * The foreach loop of ProcessEvent: resolve each subscription's handler,
     * skip it when unresolved, otherwise look up the event type under
     * `typeName`, deserialise and invoke; the first exception ends the loop.
     */
    method InvokeHandlers(subscriptions: seq<SubscriptionInfo>, typeName: string, message: string)
      returns (r: DispatchResult)
      requires subsManager.Valid()
      ensures r == RunHandlers(subscriptions, subsManager.GetEventTypeByName(typeName), message,
                               serviceProvider, deserialize, handle)
    {
      ghost var lookup := subsManager.GetEventTypeByName(typeName);
      var invoked: seq<Handler> := [];
      var i := 0;
      while i < |subscriptions|
        invariant 0 <= i <= |subscriptions|
        invariant After(invoked, RunHandlers(subscriptions[i..], lookup, message, serviceProvider, deserialize, handle))
                  == RunHandlers(subscriptions, lookup, message, serviceProvider, deserialize, handle)
      {
        ghost var here := subscriptions[i..];
        assert here[0] == subscriptions[i] && here[1..] == subscriptions[i + 1..];
        ghost var next := RunHandlers(subscriptions[i + 1..], lookup, message, serviceProvider, deserialize, handle);
        var handler := serviceProvider(subscriptions[i].handlerType);
        if handler.None? {
          assert RunHandlers(here, lookup, message, serviceProvider, deserialize, handle) == next;
          i := i + 1;
          continue;
        }
        var eventType := subsManager.GetEventTypeByName(typeName);
        if eventType.None? {
          assert RunHandlers(here, lookup, message, serviceProvider, deserialize, handle)
              == DispatchResult(Threw(EventTypeMissing), []);
          return DispatchResult(Threw(EventTypeMissing), invoked);
        }
        var integrationEvent := deserialize(message, eventType.value);
        if integrationEvent.None? {
          assert RunHandlers(here, lookup, message, serviceProvider, deserialize, handle)
              == DispatchResult(Threw(DeserializationFailed(eventType.value.name)), []);
          return DispatchResult(Threw(DeserializationFailed(eventType.value.name)), invoked);
        }
        if !handle(handler.value, integrationEvent.value) {
          assert RunHandlers(here, lookup, message, serviceProvider, deserialize, handle)
              == DispatchResult(Threw(HandlerFailed(handler.value)), [handler.value]);
          return DispatchResult(Threw(HandlerFailed(handler.value)), invoked + [handler.value]);
        }
        assert RunHandlers(here, lookup, message, serviceProvider, deserialize, handle)
            == After([handler.value], next);
        invoked := invoked + [handler.value];
        i := i + 1;
      }
      return DispatchResult(Returned(true), invoked);
    }

    /** ProcessEvent answers false exactly when the canonical name has no subscription; then nothing runs. */
    lemma DispatchFalseIffUnsubscribed(eventName: string, message: string)
      requires Valid() && eventBusConfig.Some?
      ensures var r := Dispatched(eventName, message);
              (r.outcome == Returned(false) <==>
                 !subsManager.HasSubscriptionsForEvent(ProcessEventName(eventBusConfig.value, eventName)))
              && (r.outcome == Returned(false) ==> r.invoked == [])
    {
      var config := eventBusConfig.value;
      var name := ProcessEventName(config, eventName);
      RunHandlersNeverFalse(subsManager.GetHandlersForEvent(name),
                            subsManager.GetEventTypeByName(config.eventNamePrefix + name + config.eventNameSuffix),
                            message, serviceProvider, deserialize, handle);
    }

    /**
     * The event type is looked up under prefix + canonical name + suffix; once
     * the event is deserialised, the resolvable handlers run in registration
     * order up to the first that throws, and the answer is true iff none throws.
     */
    lemma DispatchInOrder(eventName: string, message: string, event: IntegrationEvent)
      requires Valid() && eventBusConfig.Some?
      requires var config := eventBusConfig.value;
               var name := ProcessEventName(config, eventName);
               var t := subsManager.GetEventTypeByName(config.eventNamePrefix + name + config.eventNameSuffix);
               subsManager.HasSubscriptionsForEvent(name) && t.Some? && deserialize(message, t.value) == Some(event)
      ensures var name := ProcessEventName(eventBusConfig.value, eventName);
              var hs := Resolved(subsManager.GetHandlersForEvent(name), serviceProvider);
              var k := FirstFailure(hs, event, handle);
              Dispatched(eventName, message)
                == if k == |hs| then DispatchResult(Returned(true), hs)
                   else DispatchResult(Threw(HandlerFailed(hs[k])), hs[..k + 1])
    {
      var config := eventBusConfig.value;
      var name := ProcessEventName(config, eventName);
      RunHandlersInOrder(subsManager.GetHandlersForEvent(name),
                         subsManager.GetEventTypeByName(config.eventNamePrefix + name + config.eventNameSuffix),
                         message, serviceProvider, deserialize, handle, event);
    }

    /** Subscriptions whose handler does not resolve are skipped before any deserialisation: the answer is true. */
    lemma DispatchAllUnresolved(eventName: string, message: string)
      requires Valid() && eventBusConfig.Some?
      requires var name := ProcessEventName(eventBusConfig.value, eventName);
               subsManager.HasSubscriptionsForEvent(name)
               && Resolved(subsManager.GetHandlersForEvent(name), serviceProvider) == []
      ensures Dispatched(eventName, message) == DispatchResult(Returned(true), [])
    {
      var config := eventBusConfig.value;
      var name := ProcessEventName(config, eventName);
      RunHandlersAllSkipped(subsManager.GetHandlersForEvent(name),
                            subsManager.GetEventTypeByName(config.eventNamePrefix + name + config.eventNameSuffix),
                            message, serviceProvider, deserialize, handle);
    }

    /** Re-canonicalising inside ProcessEvent is harmless: a canonical name dispatches like the raw one. */
    lemma DispatchCanonicalName(eventName: string, message: string)
      requires Valid() && eventBusConfig.Some?
      ensures Dispatched(ProcessEventName(eventBusConfig.value, eventName), message) == Dispatched(eventName, message)
    {
      ProcessEventNameIdempotent(eventBusConfig.value, eventName);
    }
  }
}
