# Event bus and catalog service core, modelled in Dafny

This project models the core of a small microservice system in Dafny:

- **The event bus layer.** An in-process subscription registry maps canonical event names to handler types. `BaseEventBus` canonicalises event names and dispatches an inbound message to its handlers. Two transport adapters sit on top:
  - a RabbitMQ adapter: direct exchange, one durable queue per event, a retried publish, push consumers that acknowledge;
  - an Azure Service Bus adapter: one topic, one subscription per event with a label filter rule.
- **The catalog service.** It pages, orders and filters catalog items, looks items up by id and by a comma-separated id list, sets picture URIs, and creates, updates and deletes items.

## Modules and files

| file | module | what it holds |
|---|---|---|
| `wrappers.dfy` | `Wrappers` | `Option` and `Result`. |
| `int32.dfy` | `Int32` | The 32-bit range and unchecked (wrapping) multiplication. |
| `text.dfy` | `Text` | .NET string operations: `TrimStart`/`TrimEnd` with a character array, ordinal comparison, `StartsWith`, `Split`, `Int32.TryParse` and `Int32.ToString`. |
| `event_names.dfy` | `EventNames` | The bus configuration, `ProcessEventName` and `GetSubName`. |
| `subscriptions.dfy` | `Subscriptions` | The registry as a class with `handlers` and `eventTypes` maps. |
| `dispatch.dfy` | `Dispatch` | `BaseEventBus` as a class: configuration, `Dispose`, `ProcessEvent` and its handler loop. |
| `rabbitmq.dfy` | `RabbitMQ` | The retry policy, and `EventBusRabbitMQ` as a class over broker state. |
| `service_bus.dfy` | `ServiceBus` | `EventBusServiceBus` as a class over namespace state. |
| `paging.dfy` | `Paging` | LINQ `Skip`/`Take` and the page of `pageSize * pageIndex`. |
| `catalog.dfy` | `Catalog` | The catalog queries as functions of the table. `CatalogServices` is a class holding the table, with the create, update and delete operations and the in-place `ChangeUriPlaceHolder`. |

### How the model is built

**Base class.** The adapters derive from `BaseEventBus` in the source. Here each adapter holds its `BaseEventBus` in a `bus` field.

**Eviction event.** The `OnEventRemoved` event is modelled as the value `RemoveSubscription` returns: the canonical key when the last subscription of an event went. The adapter's `UnSubscribe` passes that value on to its `OnEventRemoved` method.

**External calls become parameters:**
- the service provider, JSON (de)serialisation and the handlers themselves are functions given to the bus;
- a handler either completes (`true`) or throws (`false`);
- the number of rows `SaveChangesAsync` reports is a parameter `saved`;
- the outcome of each `BasicPublish` attempt is a function `attemptAt`;
- the new message's Guid is a parameter `messageId`;
- the key the database assigns to a new row is a parameter `newId`.

**Broker and namespace state.** Each adapter's broker or namespace is a set of fields (exchanges, queues, bindings, consumers, published messages and acknowledged tags; or topics, subscriptions with their rules, sent messages and a management-call log). Each operation is stated as its effect on those fields.

### Where the code does something other than its names suggest

The model follows the code. It records each such place as a lemma or a scenario method:

- **RabbitMQ unbind.** `OnEventRemoved` unbinds queue `name` (the canonical name). `Subscribe` bound queue `GetSubName(name)`. The binding made by `Subscribe` therefore survives the unsubscribe:
  - `RabbitMQ.EventBusRabbitMQ.UnbindKeepsSubscriberBindings` proves this;
  - `RabbitMQ.SubscribeUnsubscribeScenario` shows it, and shows that the closed channel is never reopened.
- **RabbitMQ acknowledgement.** `Consumer_Received` acknowledges every delivery, whatever the dispatch did, because exceptions inside the `try` are swallowed. A message whose handler failed is therefore acknowledged and never redelivered. After `Dispose` the opposite happens: the exception is raised before the `try`, and the delivery is never acknowledged.
- **Service Bus rule probe.** `CreateRuleIfNotExists` probes for the rule in the subscription named after the event, not in the client's subscription `GetSubName(name)`:
  - `ServiceBus.EventBusServiceBus.ProbeUnaffected` proves the probe never looks at the right subscription;
  - `ServiceBus.ProvisionTwiceScenario` shows that provisioning twice fails the second time with EntityAlreadyExists.
- **Service Bus `Subscribe`.** It only queries the registry and provisions nothing.
- **`ItemWithNameAsync`.** It counts the items whose name starts with the given text, but its page is the unfiltered page of the whole table (`Catalog.ItemWithNamePageIgnoresName`).
- **Page offset.** `pageSize * pageIndex` is an unchecked 32-bit product. A large page index wraps round to the first page (`Paging.OverflowedOffsetRestarts`).

## Model

| member | source | states |
|---|---|---|
| Int32.Multiply | src/Services/CatalogService/CatalogService.Api/Services/CatalogServices.cs:95 | The unchecked product stays in the 32-bit range and is congruent to the true product modulo 2^32, so it is the wrapped product. It equals the true product whenever that product fits. |
| Text.TrimStart | src/BuildingBlocks/EventBus/EventBus.Base/Events/BaseEventBus.cs:30 | The result is a suffix of the input. Every removed leading character is in the trim set (white space when the set is empty). The first kept character is not in it. |
| Text.TrimEnd | src/BuildingBlocks/EventBus/EventBus.Base/Events/BaseEventBus.cs:33 | The result is a prefix of the input. Every removed trailing character is in the trim set. The last kept character is not in it. |
| Text.TrimStartUnique | src/BuildingBlocks/EventBus/EventBus.Base/Events/BaseEventBus.cs:30 | Any string with those three properties is TrimStart's result, so the properties characterise it. |
| Text.TrimEndUnique | src/BuildingBlocks/EventBus/EventBus.Base/Events/BaseEventBus.cs:33 | Any string with those three properties is TrimEnd's result. |
| Text.OrdinalLeqTotal | src/Services/CatalogService/CatalogService.Api/Services/CatalogServices.cs:94 | Any two names are ordered one way or the other by the ordinal comparison. |
| Text.OrdinalLeqTransitive | src/Services/CatalogService/CatalogService.Api/Services/CatalogServices.cs:94 | The ordinal name ordering is transitive. |
| Text.OrdinalLeqAntisymmetric | src/Services/CatalogService/CatalogService.Api/Services/CatalogServices.cs:94 | Two names ordered both ways are equal. |
| Text.Split | src/Services/CatalogService/CatalogService.Api/Services/CatalogServices.cs:105 | There is always at least one piece. No piece contains the separator. Joining the pieces with the separator gives back the input. |
| Text.SplitJoin | src/Services/CatalogService/CatalogService.Api/Services/CatalogServices.cs:105 | Splitting the join of separator-free pieces gives back those pieces (the inverse of Join). |
| Text.TryParseInt32 | src/Services/CatalogService/CatalogService.Api/Services/CatalogServices.cs:105 | A parsed value is always a 32-bit integer. The empty string never parses. |
| Text.TryParseIntToString | src/Services/CatalogService/CatalogService.Api/Services/CatalogServices.cs:105 | Int32.TryParse reads back every 32-bit value Int32.ToString writes (a round trip). |
| Text.TryParseRejectsStray | src/Services/CatalogService/CatalogService.Api/Services/CatalogServices.cs:105-106 | A piece containing a character that is not a digit, a sign or number white space fails to parse. |
| EventNames.ProcessEventName | src/BuildingBlocks/EventBus/EventBus.Base/Events/BaseEventBus.cs:27-36 | With both delete flags off, the name is unchanged. Otherwise the result is a contiguous part of the name, no longer than it. When a flag is on, the result's first (last) character is not one the prefix (suffix) character set trims. |
| EventNames.ProcessEventNameIdempotent | src/BuildingBlocks/EventBus/EventBus.Base/Events/BaseEventBus.cs:27-36 | Canonicalising a canonical name leaves it unchanged. |
| EventNames.GetSubName | src/BuildingBlocks/EventBus/EventBus.Base/Events/BaseEventBus.cs:38-41 | The subscription name is the client application name, a dot, then the canonical event name, with exactly this length. |
| EventNames.GetSubNameOfCanonical | src/BuildingBlocks/EventBus/EventBus.Base/Events/BaseEventBus.cs:38-41 | The subscription name depends only on the canonical name. |
| EventNames.GetSubNameDiffersFromName | src/BuildingBlocks/EventBus/EventBus.Base/Events/BaseEventBus.cs:38-41 | A subscription name never equals the canonical event name it is built from. |
| Subscriptions.AddIfAbsent | src/BuildingBlocks/EventBus/EventBus.Base/Abstraction/IEventBusSubscriptionManager.cs:24 | The new subscription is present. Membership is the old list's plus the new one. A list without duplicates stays without duplicates. |
| Subscriptions.Without | src/BuildingBlocks/EventBus/EventBus.Base/Abstraction/IEventBusSubscriptionManager.cs:31 | The removed subscription is absent. Every other entry is kept, and none is added. No duplicates are introduced. |
| Subscriptions.WithoutAbsent | src/BuildingBlocks/EventBus/EventBus.Base/Abstraction/IEventBusSubscriptionManager.cs:31 | Removing a subscription that is not there changes nothing. |
| Subscriptions.WithoutLeavesNothing | src/BuildingBlocks/EventBus/EventBus.Base/Abstraction/IEventBusSubscriptionManager.cs:12 | A removal empties an event's list exactly when that subscription was its only entry. This is the condition for the OnEventRemoved notification. |
| Subscriptions.SubscriptionManager.constructor | src/BuildingBlocks/EventBus/EventBus.Base/Events/BaseEventBus.cs:23 | A new registry is empty and keys events with the given configuration's ProcessEventName. |
| Subscriptions.SubscriptionManager.GetEventKey | src/BuildingBlocks/EventBus/EventBus.Base/Abstraction/IEventBusSubscriptionManager.cs:79 | An event type's key is always a canonical name. |
| Subscriptions.SubscriptionManager.GetHandlersForEvent | src/BuildingBlocks/EventBus/EventBus.Base/Abstraction/IEventBusSubscriptionManager.cs:72 | The subscriptions for a name have no duplicate. An unknown name has none. |
| Subscriptions.SubscriptionManager.HasSubscriptionsForEvent | src/BuildingBlocks/EventBus/EventBus.Base/Abstraction/IEventBusSubscriptionManager.cs:45 | True exactly when the name's subscription list is non-empty. |
| Subscriptions.SubscriptionManager.GetHandlersForEventType | src/BuildingBlocks/EventBus/EventBus.Base/Abstraction/IEventBusSubscriptionManager.cs:64 | The typed query answers the string query on the type's canonical key. |
| Subscriptions.SubscriptionManager.HasSubscriptionsForEventType | src/BuildingBlocks/EventBus/EventBus.Base/Abstraction/IEventBusSubscriptionManager.cs:38 | The typed query answers the string query on the type's key. It is true exactly when that type's list is non-empty. |
| Subscriptions.SubscriptionManager.IsEmpty | src/BuildingBlocks/EventBus/EventBus.Base/Abstraction/IEventBusSubscriptionManager.cs:17 | True exactly when no event name has a subscription. |
| Subscriptions.SubscriptionManager.GetEventTypeByName | src/BuildingBlocks/EventBus/EventBus.Base/Abstraction/IEventBusSubscriptionManager.cs:52 | Found exactly when the name is registered. A found event type carries that name. |
| Subscriptions.SubscriptionManager.AddSubscription | src/BuildingBlocks/EventBus/EventBus.Base/Abstraction/IEventBusSubscriptionManager.cs:24 | The registry stays valid. The handler is appended under the event's canonical key unless already there, and the event type is recorded. Afterwards the event has that subscription. |
| Subscriptions.SubscriptionManager.RemoveSubscription | src/BuildingBlocks/EventBus/EventBus.Base/Abstraction/IEventBusSubscriptionManager.cs:12-31 | An absent pair changes nothing. Otherwise the handler is dropped from the event's list, and the event's entry and type go when the list empties. The notification carries the canonical key exactly in that last case. |
| Subscriptions.SubscriptionManager.Clear | src/BuildingBlocks/EventBus/EventBus.Base/Abstraction/IEventBusSubscriptionManager.cs:57 | Afterwards the registry is empty. |
| Subscriptions.SubscribeTwiceScenario | src/BuildingBlocks/EventBus/EventBus.Base/Abstraction/IEventBusSubscriptionManager.cs:24 | Adding the same event/handler pair twice leaves exactly one subscription. |
| Subscriptions.UnsubscribeLastScenario | src/BuildingBlocks/EventBus/EventBus.Base/Abstraction/IEventBusSubscriptionManager.cs:12 | Removing the only subscription notifies once, with the canonical name. A second removal does not notify, and the event is no longer subscribed. |
| Dispatch.Resolved | src/BuildingBlocks/EventBus/EventBus.Base/Events/BaseEventBus.cs:59-60 | The handlers that resolve are at most as many as the subscriptions. |
| Dispatch.FirstFailure | src/BuildingBlocks/EventBus/EventBus.Base/Events/BaseEventBus.cs:66 | The index of the first handler that throws: every handler before it completes, and the one at it throws. It equals the list length when none throws. |
| Dispatch.RunHandlersNeverFalse | src/BuildingBlocks/EventBus/EventBus.Base/Events/BaseEventBus.cs:57-69 | The handler loop never answers false: it completes with true or throws. |
| Dispatch.RunHandlersAllSkipped | src/BuildingBlocks/EventBus/EventBus.Base/Events/BaseEventBus.cs:59-60 | When no handler resolves, nothing runs and the answer is true, whatever the payload. |
| Dispatch.RunHandlersNoEvent | src/BuildingBlocks/EventBus/EventBus.Base/Events/BaseEventBus.cs:62-63 | When some handler resolves but the event type is unknown or the payload does not deserialise, nothing runs and the loop throws that fault. |
| Dispatch.RunHandlersInOrder | src/BuildingBlocks/EventBus/EventBus.Base/Events/BaseEventBus.cs:57-67 | With the event deserialised, the resolvable handlers run in subscription order up to and including the first that throws. The answer is true exactly when none throws. |
| Dispatch.BaseEventBus.constructor | src/BuildingBlocks/EventBus/EventBus.Base/Events/BaseEventBus.cs:20-25 | The bus keeps the configuration and collaborators it is given. Its new registry is empty and keys events by that configuration. |
| Dispatch.BaseEventBus.Dispose | src/BuildingBlocks/EventBus/EventBus.Base/Events/BaseEventBus.cs:43-46 | The configuration is dropped. |
| Dispatch.BaseEventBus.ProcessEvent | src/BuildingBlocks/EventBus/EventBus.Base/Events/BaseEventBus.cs:48-72 | The result is the dispatch of the canonical name in the current registry: false with nothing run when unsubscribed, otherwise the handler loop. After Dispose it throws. |
| Dispatch.BaseEventBus.InvokeHandlers | src/BuildingBlocks/EventBus/EventBus.Base/Events/BaseEventBus.cs:54-67 | The loop over the subscriptions yields exactly the recursive handler-loop specification: the invoked handlers and how the loop ended. |
| Dispatch.BaseEventBus.DispatchFalseIffUnsubscribed | src/BuildingBlocks/EventBus/EventBus.Base/Events/BaseEventBus.cs:50-71 | ProcessEvent answers false exactly when the canonical name has no subscription. Then no handler is invoked. |
| Dispatch.BaseEventBus.DispatchInOrder | src/BuildingBlocks/EventBus/EventBus.Base/Events/BaseEventBus.cs:57-69 | The event type is looked up under prefix + canonical name + suffix. Then handlers run in registration order up to the first failure, and the answer is true exactly when none fails. |
| Dispatch.BaseEventBus.DispatchAllUnresolved | src/BuildingBlocks/EventBus/EventBus.Base/Events/BaseEventBus.cs:59-69 | A subscribed event none of whose handlers resolves is answered true with nothing run. |
| Dispatch.BaseEventBus.DispatchCanonicalName | src/BuildingBlocks/EventBus/EventBus.Base/Events/BaseEventBus.cs:50 | Dispatching a canonical name is the same as dispatching the raw name. |
| RabbitMQ.WaitAndRetry | src/BuildingBlocks/EventBus/EventBus.RabbitMQ/EventBusRabbitMQ.cs:63 | Between 1 and retryCount + 1 attempts are made. Every attempt but the last hit a broker-unreachable or socket exception. The wait before retry n is 2^n seconds. The policy gives up on a retried exception only after retryCount retries. |
| RabbitMQ.WorstCaseWait | src/BuildingBlocks/EventBus/EventBus.RabbitMQ/EventBusRabbitMQ.cs:63 | When every attempt fails with a retried exception, all retryCount + 1 attempts are made, waiting 2 + 4 + ... + 2^retryCount seconds in all. |
| RabbitMQ.EventBusRabbitMQ.constructor | src/BuildingBlocks/EventBus/EventBus.RabbitMQ/EventBusRabbitMQ.cs:23-39 | The adapter connects once, opens the consumer channel and declares the direct exchange. It starts with no queues, bindings, consumers, messages or acknowledgements, and an empty registry. |
| RabbitMQ.EventBusRabbitMQ.ConnectIfNeeded | src/BuildingBlocks/EventBus/EventBus.RabbitMQ/EventBusRabbitMQ.cs:44-47 | Afterwards the connection is up. A connection attempt is counted only when it was down. |
| RabbitMQ.EventBusRabbitMQ.CreateConsumerChannel | src/BuildingBlocks/EventBus/EventBus.RabbitMQ/EventBusRabbitMQ.cs:119-129 | Connects if needed, opens the channel and declares the default topic as a direct exchange. |
| RabbitMQ.EventBusRabbitMQ.DeclareExchange | src/BuildingBlocks/EventBus/EventBus.RabbitMQ/EventBusRabbitMQ.cs:127 | The default topic is declared as a direct exchange. Nothing else changes, and the adapter invariant is kept. |
| RabbitMQ.EventBusRabbitMQ.OnEventRemoved | src/BuildingBlocks/EventBus/EventBus.RabbitMQ/EventBusRabbitMQ.cs:41-54 | Connects if needed, removes the binding of queue `name` with routing key `name`, and closes the channel exactly when the registry is empty. On a closed channel it fails and changes nothing. |
| RabbitMQ.EventBusRabbitMQ.UnbindEventQueue | src/BuildingBlocks/EventBus/EventBus.RabbitMQ/EventBusRabbitMQ.cs:49 | Exactly the binding of queue `name` under routing key `name` goes. Every binding Subscribe made for a registered event stays, so the adapter invariant is kept. |
| RabbitMQ.EventBusRabbitMQ.UnbindKeepsSubscriberBindings | src/BuildingBlocks/EventBus/EventBus.RabbitMQ/EventBusRabbitMQ.cs:49 | The binding the eviction handler removes is never a binding Subscribe created for a canonical name (line 105). |
| RabbitMQ.EventBusRabbitMQ.Publish | src/BuildingBlocks/EventBus/EventBus.RabbitMQ/EventBusRabbitMQ.cs:56-87 | A negative retry count, or a closed channel, fails with nothing published. Otherwise the exchange is declared and the retry policy runs. On success exactly one persistent, mandatory message is published to the default topic, routed by the canonical name and carrying the serialised event. On failure nothing is published. |
| RabbitMQ.EventBusRabbitMQ.BasicPublishWithRetry | src/BuildingBlocks/EventBus/EventBus.RabbitMQ/EventBusRabbitMQ.cs:76-86 | The message is published exactly once when the retry run ends in success. Otherwise nothing is published and the run's last failure is reported. |
| RabbitMQ.EventBusRabbitMQ.Subscribe | src/BuildingBlocks/EventBus/EventBus.RabbitMQ/EventBusRabbitMQ.cs:89-112 | On the event's first subscription it connects, declares the durable queue GetSubName(name) and binds it by the canonical name. In every case it registers the subscription and starts a manual-ack consumer on that queue. On a closed channel it fails and changes nothing. |
| RabbitMQ.EventBusRabbitMQ.DeclareSubscriberQueue | src/BuildingBlocks/EventBus/EventBus.RabbitMQ/EventBusRabbitMQ.cs:94-106 | Connects if needed. On an open channel it declares the durable queue GetSubName(name) and binds it to the exchange under routing key `name`. On a closed channel it fails and declares nothing. The adapter invariant is kept. |
| RabbitMQ.EventBusRabbitMQ.StartBasicConsume | src/BuildingBlocks/EventBus/EventBus.RabbitMQ/EventBusRabbitMQ.cs:131-140 | Adds one consumer on GetSubName(name) with autoAck off. On a closed channel it fails and adds nothing. |
| RabbitMQ.EventBusRabbitMQ.UnSubscribe | src/BuildingBlocks/EventBus/EventBus.RabbitMQ/EventBusRabbitMQ.cs:114-117 | The handler leaves the registry. Only when it was the event's last subscription does the broker change, through the eviction handler. The binding Subscribe created survives. |
| RabbitMQ.EventBusRabbitMQ.RemoveRegistration | src/BuildingBlocks/EventBus/EventBus.RabbitMQ/EventBusRabbitMQ.cs:116 | The registry loses the handler while the adapter stays consistent. The event's name is reported exactly when the handler was its last subscription, and then the channel is open. |
| RabbitMQ.EventBusRabbitMQ.ConsumerReceived | src/BuildingBlocks/EventBus/EventBus.RabbitMQ/EventBusRabbitMQ.cs:142-156 | The delivery is dispatched under its routing key, and its tag is acknowledged exactly once, whatever the dispatch did. After Dispose it throws ConfigDisposed, nothing runs and nothing is acknowledged. |
| RabbitMQ.SubscribedOnce | src/BuildingBlocks/EventBus/EventBus.RabbitMQ/EventBusRabbitMQ.cs:89-112 | On a new adapter, one Subscribe leaves exactly one registry entry, the subscriber queue bound and the channel open. |
| RabbitMQ.UnsubscribeOnly | src/BuildingBlocks/EventBus/EventBus.RabbitMQ/EventBusRabbitMQ.cs:41-54 | Removing the only subscription empties the registry and closes the channel, and the subscriber's queue binding stays. |
| RabbitMQ.SubscribeUnsubscribeScenario | src/BuildingBlocks/EventBus/EventBus.RabbitMQ/EventBusRabbitMQ.cs:41-54 | After subscribing one handler and removing it, the subscriber's queue binding is still in place and the channel is closed. A new Subscribe then fails. |
| ServiceBus.EventBusServiceBus.constructor | src/BuildingBlocks/EventBus/EventBus.AzureServiceBus/EventBusServiceBus.cs:21-26 | A fresh, open topic client is made for the default topic. The topic is created only when it does not already exist. Existing subscriptions are kept. |
| ServiceBus.EventBusServiceBus.CreateTopicClient | src/BuildingBlocks/EventBus/EventBus.AzureServiceBus/EventBusServiceBus.cs:32-42 | A new client only when there is none or it is closed or closing. The topic is created and logged only when missing. |
| ServiceBus.EventBusServiceBus.Publish | src/BuildingBlocks/EventBus/EventBus.AzureServiceBus/EventBusServiceBus.cs:48-63 | Exactly one message is sent, labelled with the canonical name and carrying the serialised event. A closed client fails and sends nothing. |
| ServiceBus.EventBusServiceBus.Subscribe | src/BuildingBlocks/EventBus/EventBus.AzureServiceBus/EventBusServiceBus.cs:65-74 | Completes without changing the namespace or the registry. |
| ServiceBus.EventBusServiceBus.UnSubscribe | src/BuildingBlocks/EventBus/EventBus.AzureServiceBus/EventBusServiceBus.cs:76-79 | Always fails as not implemented. |
| ServiceBus.EventBusServiceBus.RuleExists | src/BuildingBlocks/EventBus/EventBus.AzureServiceBus/EventBusServiceBus.cs:101-110 | The rule exists exactly when the subscription exists and holds a rule of that name. A missing subscription reads as absent. |
| ServiceBus.EventBusServiceBus.AddRuleOn | src/BuildingBlocks/EventBus/EventBus.AzureServiceBus/EventBusServiceBus.cs:114-118 | A missing subscription fails with not-found, and an existing rule of that name fails with already-exists; in both cases nothing changes. Otherwise exactly that rule is added and logged. |
| ServiceBus.EventBusServiceBus.CreateRuleIfNotExists | src/BuildingBlocks/EventBus/EventBus.AzureServiceBus/EventBusServiceBus.cs:99-120 | The probe looks in the subscription named `eventName`. When the probe finds the rule, nothing changes. Otherwise the correlation rule on label `eventName` is added to the client's subscription, with the add's failure cases. |
| ServiceBus.EventBusServiceBus.RemoveDefaultRule | src/BuildingBlocks/EventBus/EventBus.AzureServiceBus/EventBusServiceBus.cs:126-136 | Removes the `$Default` rule when it exists. Otherwise the namespace is unchanged and one warning is logged. |
| ServiceBus.EventBusServiceBus.NewSubscription | src/BuildingBlocks/EventBus/EventBus.AzureServiceBus/EventBusServiceBus.cs:87-88 | A missing subscription is created, and its default rule is removed again: it ends up with no rules. Both calls are logged and no warning is raised. |
| ServiceBus.EventBusServiceBus.CreateSubscriptionClientIfNotExists | src/BuildingBlocks/EventBus/EventBus.AzureServiceBus/EventBusServiceBus.cs:81-92 | Returns the client for GetSubName. A missing subscription is created with its default rule removed. Then the canonical name's rule is added unless the probe finds it, failing with already-exists when the client's subscription holds it. The resulting rules and the call log are stated for each case. |
| ServiceBus.EventBusServiceBus.ProbeUnaffected | src/BuildingBlocks/EventBus/EventBus.AzureServiceBus/EventBusServiceBus.cs:104 | The subscription the rule probe reads is never the client's subscription. |
| ServiceBus.ProvisionTwiceScenario | src/BuildingBlocks/EventBus/EventBus.AzureServiceBus/EventBusServiceBus.cs:81-120 | On an empty namespace, the first provisioning creates the subscription with only the canonical label rule. A second provisioning fails with already-exists. |
| Paging.Skip | src/Services/CatalogService/CatalogService.Api/Services/CatalogServices.cs:95 | A count at or below zero skips nothing, a count past the end leaves nothing, and otherwise the suffix from the count is kept. |
| Paging.Take | src/Services/CatalogService/CatalogService.Api/Services/CatalogServices.cs:96 | A count at or below zero takes nothing, a count past the end takes everything, and otherwise the prefix of that length is taken. |
| Paging.Offset | src/Services/CatalogService/CatalogService.Api/Services/CatalogServices.cs:95 | The skip count is the 32-bit wrapped product pageSize * pageIndex; it is the product itself whenever that fits. |
| Paging.Page | src/Services/CatalogService/CatalogService.Api/Services/CatalogServices.cs:95-96 | A page has at most max(pageSize, 0) items and is the contiguous slice starting at the offset clamped to [0, length]. For a positive size it holds exactly pageSize items, or all that remain after that start. |
| Paging.PageSlice | src/Services/CatalogService/CatalogService.Api/Services/CatalogServices.cs:95-96 | A page whose offset does not overflow is the slice from the offset of pageSize items, or up to the end. |
| Paging.PageWithin | src/Services/CatalogService/CatalogService.Api/Services/CatalogServices.cs:95-96 | Every item of a page is an item of the sequence. |
| Paging.PagesTile | src/Services/CatalogService/CatalogService.Api/Services/CatalogServices.cs:95-96 | Pages 0 to count - 1, concatenated, are exactly the first pageSize * count items: no gap and no repeat. |
| Paging.OverflowedOffsetRestarts | src/Services/CatalogService/CatalogService.Api/Services/CatalogServices.cs:95 | The offset 65536 * 32768 wraps to -2^31, so that page is the first page again. |
| Catalog.WithPictureUri | src/Services/CatalogService/CatalogService.Api/Services/CatalogServices.cs:51 | The picture URI becomes base URL + file name, and no other field changes. |
| Catalog.PlaceUriIdempotent | src/Services/CatalogService/CatalogService.Api/Services/CatalogServices.cs:48-52 | Setting the picture URI twice is setting it once. Null entries stay null. |
| Catalog.WithUris | src/Services/CatalogService/CatalogService.Api/Services/CatalogServices.cs:48-52 | Same length, and each item is the original with its picture URI set. |
| Catalog.WithUrisMembers | src/Services/CatalogService/CatalogService.Api/Services/CatalogServices.cs:48-52 | Every resulting item has its URI set and comes from an input item. |
| Catalog.Where | src/Services/CatalogService/CatalogService.Api/Services/CatalogServices.cs:122 | An item is kept exactly when it is in the input and satisfies the filter. The result is no longer than the input. |
| Catalog.WhereCounts | src/Services/CatalogService/CatalogService.Api/Services/CatalogServices.cs:122 | Every matching row keeps its multiplicity and every other row is dropped, so the filtered length counts the matching rows. |
| Catalog.WhereAll | src/Services/CatalogService/CatalogService.Api/Services/CatalogServices.cs:121-122 | A filter every item passes keeps the sequence unchanged. |
| Catalog.WhereWhere | src/Services/CatalogService/CatalogService.Api/Services/CatalogServices.cs:151-154 | Two successive filters give the same rows as one filter on both conditions. |
| Catalog.InsertByName | src/Services/CatalogService/CatalogService.Api/Services/CatalogServices.cs:94 | Inserting into a name-sorted sequence keeps it sorted and adds exactly that item. |
| Catalog.SortByName | src/Services/CatalogService/CatalogService.Api/Services/CatalogServices.cs:94 | OrderBy(Name) is a permutation of the table, sorted by ordinal name order. |
| Catalog.SortedSlice | src/Services/CatalogService/CatalogService.Api/Services/CatalogServices.cs:94-96 | Any slice of a sorted sequence is sorted. |
| Catalog.SortedWithUris | src/Services/CatalogService/CatalogService.Api/Services/CatalogServices.cs:94-98 | Setting the picture URIs keeps the name order. |
| Catalog.PageMembers | src/Services/CatalogService/CatalogService.Api/Services/CatalogServices.cs:93-98 | A page after the URI pass has at most max(pageSize, 0) items. Each has its URI set and comes from the rows. |
| Catalog.GetItems | src/Services/CatalogService/CatalogService.Api/Services/CatalogServices.cs:90-101 | Succeeds, echoing the page index and size, counting the whole table. The page is exactly the requested page of the table ordered by name, with picture URIs set: at most pageSize items, sorted, each a table row. |
| Catalog.OrderedPageMembers | src/Services/CatalogService/CatalogService.Api/Services/CatalogServices.cs:90-101 | A page of the table ordered by name, with URIs set, has at most pageSize items, is sorted by name, and each item is a table row with its picture URI set. |
| Catalog.GetItemsPagesTile | src/Services/CatalogService/CatalogService.Api/Services/CatalogServices.cs:92-96 | GetItems pages 0 to count - 1, one after another, are the whole name-ordered table with URIs set, without gap or repeat, once they cover it and while the offset fits in 32 bits. |
| Catalog.BrandFiltered | src/Services/CatalogService/CatalogService.Api/Services/CatalogServices.cs:121-122 | The optional brand filter keeps exactly the rows of the given brand. No brand id keeps every row. |
| Catalog.WhereSame | src/Services/CatalogService/CatalogService.Api/Services/CatalogServices.cs:122 | Filters that agree on every item select the same rows. |
| Catalog.ItemByBrandId | src/Services/CatalogService/CatalogService.Api/Services/CatalogServices.cs:117-133 | Succeeds. The count is the number of rows of the brand. The page is exactly the requested page of the brand's rows in table order, with URIs set: at most pageSize items, each a row of that brand. |
| Catalog.ItemByTypeIdAndBrandId | src/Services/CatalogService/CatalogService.Api/Services/CatalogServices.cs:148-165 | Succeeds. The count is the number of rows of the type (and brand, when given). The page is exactly the requested page of those rows in table order, with URIs set: at most pageSize items, each such a row. |
| Catalog.ItemWithName | src/Services/CatalogService/CatalogService.Api/Services/CatalogServices.cs:167-179 | Succeeds. The count is the number of rows whose name starts with the given text. The page is GetItems' page of the whole table. |
| Catalog.ItemWithNamePageIgnoresName | src/Services/CatalogService/CatalogService.Api/Services/CatalogServices.cs:169-174 | A table with one "Mug" queried for "Hat" answers a count of 0 beside a page holding the mug. |
| Catalog.FindSingle | src/Services/CatalogService/CatalogService.Api/Services/CatalogServices.cs:137 | No match exactly when no row has the id. A unique match is the one row with it. Many matches means two rows share it. |
| Catalog.ItemById | src/Services/CatalogService/CatalogService.Api/Services/CatalogServices.cs:135-146 | Null exactly when no row has the id. Otherwise a success with that row and its picture URI. With unique ids it never throws. |
| Catalog.ParsedIds | src/Services/CatalogService/CatalogService.Api/Services/CatalogServices.cs:105-106 | Null exactly when some comma-separated piece fails to parse. Otherwise one value per piece, each the piece's parse. |
| Catalog.ParsedIdsOfJoin | src/Services/CatalogService/CatalogService.Api/Services/CatalogServices.cs:105-106 | Every non-empty list of 32-bit ids, written with commas, parses back to exactly that list. |
| Catalog.GetItemsByIds | src/Services/CatalogService/CatalogService.Api/Services/CatalogServices.cs:103-115 | Always succeeds. With an unparsable piece the list is empty. Otherwise it holds exactly the rows whose id is among the parsed ids, with their URIs set. |
| Catalog.CatalogServices.constructor | src/Services/CatalogService/CatalogService.Api/Services/CatalogServices.cs:24-31 | The service holds the given table and picture base URL. |
| Catalog.CatalogServices.ChangeUriPlaceHolder | src/Services/CatalogService/CatalogService.Api/Services/CatalogServices.cs:45-54 | The same list is returned. Each non-null entry gets base URL + file name as its picture URI in place, and null entries stay null. |
| Catalog.CatalogServices.CreateProduct | src/Services/CatalogService/CatalogService.Api/Services/CatalogServices.cs:56-74 | When SaveChanges writes, the new row (six copied fields and the new key) is appended and returned, and ItemById then finds it. Otherwise it fails with not-found and the table is unchanged. |
| Catalog.CatalogServices.UpdateProduct | src/Services/CatalogService/CatalogService.Api/Services/CatalogServices.cs:181-195 | No row with the id: false and unchanged. Otherwise the row is replaced and the answer is whether SaveChanges wrote it. After a true answer, ItemById returns the new row. Ids stay unique. |
| Catalog.CatalogServices.DeleteProduct | src/Services/CatalogService/CatalogService.Api/Services/CatalogServices.cs:76-88 | No row with the id: success, unchanged. Otherwise the row is removed when SaveChanges writes, else it fails with not-found and nothing changes. After a success no row has the id. |

## Left out

- I/O, `async`/`await`, threads and the concurrency discipline: every operation is one atomic step on the modelled state.
- JSON serialisation and UTF-8 encoding are functions given to the bus (`serialize`, `deserialize`). The payload is text.
- The RabbitMQ connection factory built from the JSON connection settings (EventBusRabbitMQ.cs:25-34) is not modelled. `RabbitMQPersistentConnection.TryConnection` is not part of this model, and is taken to succeed. Its own retry loop is not modelled.
- The dependency-injection scope opened by `ProcessEvent` (BaseEventBus.cs:55) is not modelled. Handlers are resolved by the `serviceProvider` function.
- The Service Bus logger: the source obtains it with `GetService(typeof(EventBusServiceBus)) as ILogger<…>`, which yields null, so the warning branch of `RemoveDefaultRule` would throw. The model counts the warning instead.
- Broker and namespace calls that the source does not guard are not modelled as throwing: `QueueUnbind` of a binding that does not exist is a no-op in the model. `OnEventRemoved` unbinds queue `name`, which was never declared, and a broker would answer with AMQP 404 NOT_FOUND and close the channel. The no-op is what lets RabbitMQ.EventBusRabbitMQ.UnSubscribe always answer Done and keep the channel state the model gives.
- `CatalogBrandsAsync` and `CatalogTypesAsync` (CatalogServices.cs:33-43) read a whole table and map it. The model has no brand or type tables, so they are not modelled.
- AutoMapper: DTOs and entities are one `CatalogItem` type. `Stored` writes every field except the picture URI, which is not stored.
- The price-changed flag in `UpdateProductAsync` (CatalogServices.cs:186-187) is computed but never used, so it is not modelled.
- Database collation: `OrderBy(Name)` and `StartsWith` are ordinal. The database's ORDER BY of equal names is not fixed; the model uses one particular sorted permutation.
- A null `PictureFileName` is modelled as the empty string.
- `Int32.TryParse` is modelled with the invariant culture. Trailing NUL characters, which .NET also accepts, are not modelled.
- The concrete in-memory subscription manager is not part of this model. Its behaviour is stated against the interface (IEventBusSubscriptionManager.cs:10-66) and its doc comments: a duplicate add is a no-op, keys are canonical names from `GetEventKey`, and event types are filed under their type name.
- Subscriptions.SubscriptionManager.Clear also empties the event-type map. The interface (IEventBusSubscriptionManager.cs:54-57) promises only that every subscription is deleted, so that `IsEmpty` holds; a concrete manager could keep its event types.
- Dispatch.BaseEventBus.ProcessEvent: an unknown event type throws before deserialising. In .NET, deserialising with a null type may succeed and the generic handler type then fails, so the fault raised differs, but the handler is never invoked in both.
- RabbitMQ.EventBusRabbitMQ.Publish, Subscribe, UnSubscribe, OnEventRemoved, their steps DeclareExchange, DeclareSubscriberQueue, UnbindEventQueue and StartBasicConsume, and ServiceBus.EventBusServiceBus.Publish, Subscribe, CreateSubscriptionClientIfNotExists: require the configuration to be present. After `Dispose` the source dereferences null and throws, and calling them then is not modelled.
- RabbitMQ.EventBusRabbitMQ.ConsumerReceived: requires an open channel, because deliveries only arrive on the open consumer channel. After `Dispose` the handler throws before its `try` block; the model returns that fault and leaves the tag unacknowledged, but the exception escaping an `async void` method (which would crash the process) is not modelled.
- Catalog.CatalogServices.CreateProduct: the database's key generator is the parameter `newId`, required to be a key not yet used.
- Catalog.CatalogServices.ChangeUriPlaceHolder: the `List<CatalogItemDto>` is an array, since the method changes its items in place and keeps its length.
- Paging.Offset: the translation of a negative or wrapped offset into SQL is taken to be LINQ's clamping semantics.
