/**
 * The subscription registry behind IEventBusSubscriptionManager: a map from
 * canonical event name to the ordered list of subscriptions (handler types)
 * for it, and a map from event type name to event type.  The names are
 * derived with the bus's ProcessEventName, which the source hands to the
 * manager when it is built (BaseEventBus.cs:23); here the manager keeps the
 * configuration it was built with.
 */
module Subscriptions {
  import opened Wrappers
  import opened EventNames

  /** A .NET type is identified by its simple name (Type.Name). */
  type HandlerType = string

  /** An integration event type, known by its simple type name. */
  datatype EventType = EventType(name: string)

  /** SubscriptionInfo: one handler type bound to an event. */
  datatype SubscriptionInfo = SubscriptionInfo(handlerType: HandlerType)

  /** No handler type occurs twice: each list is an ordered set. */
  predicate NoDuplicates(subs: seq<SubscriptionInfo>) {
    forall i, j :: 0 <= i < j < |subs| ==> subs[i] != subs[j]
  }

  /** Append `s` unless it is already present. */
  function AddIfAbsent(subs: seq<SubscriptionInfo>, s: SubscriptionInfo): (r: seq<SubscriptionInfo>)
    ensures s in r
    ensures forall x :: x in r <==> x in subs || x == s
    ensures NoDuplicates(subs) ==> NoDuplicates(r)
  {
    if s in subs then subs else subs + [s]
  }

  /** Drop every occurrence of `s`, keeping the order of the rest. */
  function Without(subs: seq<SubscriptionInfo>, s: SubscriptionInfo): (r: seq<SubscriptionInfo>)
    ensures s !in r
    ensures forall x :: x in r <==> x in subs && x != s
    ensures |r| <= |subs|
    ensures NoDuplicates(subs) ==> NoDuplicates(r)
    decreases |subs|
  {
    if subs == [] then []
    else if subs[0] == s then Without(subs[1..], s)
    else
      var rest := Without(subs[1..], s);
      assert NoDuplicates(subs) ==> subs[0] !in subs[1..] && NoDuplicates(subs[1..]);
      [subs[0]] + rest
  }

  /** Removing an absent entry changes nothing. */
  lemma {:induction false} WithoutAbsent(subs: seq<SubscriptionInfo>, s: SubscriptionInfo)
    requires s !in subs
    ensures Without(subs, s) == subs
    decreases |subs|
  {
    if subs != [] {
      WithoutAbsent(subs[1..], s);
      assert subs == [subs[0]] + subs[1..];
    }
  }

  /** Removing `s` leaves nothing exactly when `s` was the only entry. */
  lemma {:induction false} WithoutLeavesNothing(subs: seq<SubscriptionInfo>, s: SubscriptionInfo)
    requires NoDuplicates(subs)
    ensures (s in subs && Without(subs, s) == []) <==> subs == [s]
  {
    if subs == [s] {
      assert subs[1..] == [];
    }
    if s in subs && Without(subs, s) == [] {
      assert forall i :: 0 <= i < |subs| ==> subs[i] == s by {
        forall i | 0 <= i < |subs| ensures subs[i] == s {
          assert subs[i] !in Without(subs, s);
        }
      }
    }
  }

  /**
   * A name is present iff it has a subscription; its list has no duplicate;
   * every key is canonical; every event type is filed under its own name.
   */
  ghost predicate RegistryValid(
    config: EventBusConfig, handlers: map<string, seq<SubscriptionInfo>>, eventTypes: map<string, EventType>)
  {
    && (forall name {:trigger name in handlers} :: name in handlers ==>
          handlers[name] != [] && NoDuplicates(handlers[name]) && ProcessEventName(config, name) == name)
    && (forall name :: name in eventTypes ==> eventTypes[name].name == name)
  }

  /** Filing a non-empty, duplicate-free list under a canonical key keeps the registry valid. */
  lemma RegistryPut(
    config: EventBusConfig, handlers: map<string, seq<SubscriptionInfo>>, eventTypes: map<string, EventType>,
    key: string, subs: seq<SubscriptionInfo>)
    requires RegistryValid(config, handlers, eventTypes)
    requires subs != [] && NoDuplicates(subs) && ProcessEventName(config, key) == key
    ensures RegistryValid(config, handlers[key := subs], eventTypes)
  {
  }

  /** Dropping an event's entry and its type keeps the registry valid. */
  lemma RegistryDrop(
    config: EventBusConfig, handlers: map<string, seq<SubscriptionInfo>>, eventTypes: map<string, EventType>,
    key: string, typeName: string)
    requires RegistryValid(config, handlers, eventTypes)
    ensures RegistryValid(config, handlers - {key}, eventTypes - {typeName})
  {
  }

  class SubscriptionManager {
    /** The configuration whose ProcessEventName derives event keys. */
    const keyConfig: EventBusConfig
    /** Canonical event name to its subscriptions, in registration order. */
    var handlers: map<string, seq<SubscriptionInfo>>
    /** Event type name to event type. */
    var eventTypes: map<string, EventType>

    /**
     * A name is present iff it has a subscription; its list has no duplicate;
     * every key is canonical; every event type is filed under its own name.
     */
    ghost predicate Valid()
      reads this
    {
      RegistryValid(keyConfig, handlers, eventTypes)
    }

    constructor (keyConfig: EventBusConfig)
      ensures Valid()
      ensures this.keyConfig == keyConfig && handlers == map[] && eventTypes == map[]
    {
      this.keyConfig := keyConfig;
      handlers := map[];
      eventTypes := map[];
    }

    /** GetEventKey<T>(): the registry key of an event type, always canonical. */
    function GetEventKey(t: EventType): (key: string)
      ensures ProcessEventName(keyConfig, key) == key
    {
      ProcessEventNameIdempotent(keyConfig, t.name);
      ProcessEventName(keyConfig, t.name)
    }

    /** GetHandlersForEvent(eventName): the subscriptions for a name, in order, without duplicates. */
    function GetHandlersForEvent(eventName: string): (r: seq<SubscriptionInfo>)
      requires Valid()
      reads this
      ensures NoDuplicates(r)
      ensures eventName !in handlers ==> r == []
    {
      if eventName in handlers then handlers[eventName] else []
    }

    /** HasSubscriptionsForEvent(eventName): holds exactly when the name has a subscription. */
    function HasSubscriptionsForEvent(eventName: string): (r: bool)
      requires Valid()
      reads this
      ensures r <==> GetHandlersForEvent(eventName) != []
    {
      eventName in handlers
    }

    /** GetHandlersForEvent<T>(): the string form applied to the event's key. */
    function GetHandlersForEventType(t: EventType): (r: seq<SubscriptionInfo>)
      requires Valid()
      reads this
      ensures r == GetHandlersForEvent(GetEventKey(t))
    {
      var key := GetEventKey(t);
      if key in handlers then handlers[key] else []
    }

    /** HasSubscriptionsForEvent<T>(): the string form applied to the event's key. */
    function HasSubscriptionsForEventType(t: EventType): (r: bool)
      requires Valid()
      reads this
      ensures r == HasSubscriptionsForEvent(GetEventKey(t))
      ensures r <==> GetHandlersForEventType(t) != []
    {
      GetEventKey(t) in handlers
    }

    /** IsEmpty: no event name has a subscription. */
    function IsEmpty(): (r: bool)
      requires Valid()
      reads this
      ensures r <==> forall name :: !HasSubscriptionsForEvent(name)
    {
      if handlers == map[] then true
      else
        var name :| name in handlers;
        assert HasSubscriptionsForEvent(name);
        false
    }

    /** GetEventTypeByName(name): the event type registered under that name, if any. */
    function GetEventTypeByName(name: string): (r: Option<EventType>)
      requires Valid()
      reads this
      ensures r.Some? <==> name in eventTypes
      ensures r.Some? ==> r.value.name == name
    {
      if name in eventTypes then Some(eventTypes[name]) else None
    }

    /** AddSubscription<T, TH>(): registering a pair twice leaves one binding. */
    method AddSubscription(t: EventType, h: HandlerType)
      requires Valid()
      modifies this
      ensures Valid()
      ensures handlers == old(handlers)[GetEventKey(t) := AddIfAbsent(old(GetHandlersForEvent(GetEventKey(t))), SubscriptionInfo(h))]
      ensures eventTypes == old(eventTypes)[t.name := t]
      ensures HasSubscriptionsForEventType(t) && SubscriptionInfo(h) in GetHandlersForEventType(t)
    {
      var key := GetEventKey(t);
      handlers := handlers[key := AddIfAbsent(GetHandlersForEvent(key), SubscriptionInfo(h))];
      eventTypes := eventTypes[t.name := t];
    }

    /**
     * RemoveSubscription<T, TH>(). The result is the OnEventRemoved notification:
     * the event's key when its last subscription went, None otherwise.
     */
    method RemoveSubscription(t: EventType, h: HandlerType) returns (removed: Option<string>)
      requires Valid()
      modifies this
      ensures Valid()
      ensures SubscriptionInfo(h) !in GetHandlersForEventType(t)
      ensures var before := old(GetHandlersForEvent(GetEventKey(t)));
              SubscriptionInfo(h) !in before ==>
                handlers == old(handlers) && eventTypes == old(eventTypes) && removed == None
      ensures var before := old(GetHandlersForEvent(GetEventKey(t)));
              var rest := Without(before, SubscriptionInfo(h));
              SubscriptionInfo(h) in before && rest != [] ==>
                handlers == old(handlers)[GetEventKey(t) := rest] && eventTypes == old(eventTypes) && removed == None
      ensures var before := old(GetHandlersForEvent(GetEventKey(t)));
              SubscriptionInfo(h) in before && Without(before, SubscriptionInfo(h)) == [] ==>
                && handlers == old(handlers) - {GetEventKey(t)} && eventTypes == old(eventTypes) - {t.name}
                && removed == Some(GetEventKey(t))
      ensures var before := old(GetHandlersForEvent(GetEventKey(t)));
              var rest := Without(before, SubscriptionInfo(h));
              && handlers == (if rest == [] then old(handlers) - {GetEventKey(t)} else old(handlers)[GetEventKey(t) := rest])
              && eventTypes == (if before == [SubscriptionInfo(h)] then old(eventTypes) - {t.name} else old(eventTypes))
              && removed == (if before == [SubscriptionInfo(h)] then Some(GetEventKey(t)) else None)
    {
      var key := GetEventKey(t);
      var before := GetHandlersForEvent(key);
      WithoutLeavesNothing(before, SubscriptionInfo(h));
      if SubscriptionInfo(h) !in before {
        WithoutAbsent(before, SubscriptionInfo(h));
        if before == [] {
          assert handlers - {key} == handlers;
        } else {
          assert handlers[key := before] == handlers;
        }
      }
      removed := None;
      if SubscriptionInfo(h) in before {
        var rest := Without(before, SubscriptionInfo(h));
        if rest != [] {
          RegistryPut(keyConfig, handlers, eventTypes, key, rest);
          handlers := handlers[key := rest];
        } else {
          RegistryDrop(keyConfig, handlers, eventTypes, key, t.name);
          handlers := handlers - {key};
          eventTypes := eventTypes - {t.name};
          removed := Some(key);
        }
      }
      assert SubscriptionInfo(h) !in GetHandlersForEvent(key);
    }

    /** Clear(): afterwards the registry is empty. */
    method Clear()
      requires Valid()
      modifies this
      ensures Valid() && IsEmpty()
      ensures handlers == map[] && eventTypes == map[]
    {
      handlers := map[];
      eventTypes := map[];
    }
  }

  /** Subscribing the same pair twice yields exactly one binding. */
  method SubscribeTwiceScenario(config: EventBusConfig, t: EventType, h: HandlerType) returns (count: nat)
    ensures count == 1
  {
    var m := new SubscriptionManager(config);
    m.AddSubscription(t, h);
    m.AddSubscription(t, h);
    count := |m.GetHandlersForEventType(t)|;
  }

  /** Removing the last binding notifies once, with the canonical name, and empties the entry. */
  method UnsubscribeLastScenario(config: EventBusConfig, t: EventType, h: HandlerType)
    returns (first: Option<string>, second: Option<string>, stillSubscribed: bool)
    ensures first == Some(ProcessEventName(config, t.name))
    ensures second == None
    ensures !stillSubscribed
  {
    var m := new SubscriptionManager(config);
    m.AddSubscription(t, h);
    first := m.RemoveSubscription(t, h);
    second := m.RemoveSubscription(t, h);
    stillSubscribed := m.HasSubscriptionsForEventType(t);
  }
}
