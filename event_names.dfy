/**
 * Canonical event names (BaseEventBus.ProcessEventName) and subscription
 * names (BaseEventBus.GetSubName).
 *
 * The source trims with String.TrimStart/TrimEnd handed a char ARRAY, so a
 * configured prefix or suffix is a SET of characters: every leading
 * (trailing) character that occurs anywhere in it is removed.  When that
 * array is empty, .NET trims white space instead.
 */
module EventNames {
  import opened Text

  /** The part of the bus configuration (EventBusConfig) the core reads. */
  datatype EventBusConfig = EventBusConfig(
    connectionRetryCount: int,
    defaultTopicName: string,
    subscribeClientAppName: string,
    eventNamePrefix: string,
    eventNameSuffix: string,
    deleteEventPrefix: bool,
    deleteEventSuffix: bool)

  /** `a` occurs in `b` as a contiguous run of characters. */
  ghost predicate IsSubstring(a: string, b: string) {
    exists i :: 0 <= i <= |b| - |a| && b[i..][..|a|] == a
  }

  /** BaseEventBus.ProcessEventName: the canonical name used as routing key and registry key. */
  function ProcessEventName(config: EventBusConfig, eventName: string): (r: string)
    ensures !config.deleteEventPrefix && !config.deleteEventSuffix ==> r == eventName
    ensures |r| <= |eventName|
    ensures IsSubstring(r, eventName)
    ensures config.deleteEventPrefix && r != [] ==> !InTrimSet(r[0], config.eventNamePrefix)
    ensures config.deleteEventSuffix && r != [] ==> !InTrimSet(r[|r| - 1], config.eventNameSuffix)
  {
    var afterPrefix := if config.deleteEventPrefix then TrimStart(eventName, config.eventNamePrefix) else eventName;
    var r := if config.deleteEventSuffix then TrimEnd(afterPrefix, config.eventNameSuffix) else afterPrefix;
    var i := |eventName| - |afterPrefix|;
    assert eventName[i..][..|r|] == r;
    r
  }

  /** Canonicalising a canonical name changes nothing. */
  lemma ProcessEventNameIdempotent(config: EventBusConfig, eventName: string)
    ensures ProcessEventName(config, ProcessEventName(config, eventName)) == ProcessEventName(config, eventName)
  {
    var p := ProcessEventName(config, eventName);
    var afterPrefix := if config.deleteEventPrefix then TrimStart(eventName, config.eventNamePrefix) else eventName;
    if config.deleteEventPrefix {
      // p is a prefix of afterPrefix, whose first character survives TrimStart.
      assert p == [] || p[0] == afterPrefix[0];
      assert TrimStart(p, config.eventNamePrefix) == p;
    }
    var q := if config.deleteEventPrefix then TrimStart(p, config.eventNamePrefix) else p;
    assert q == p;
    if config.deleteEventSuffix {
      assert TrimEnd(p, config.eventNameSuffix) == p;
    }
  }

  /** BaseEventBus.GetSubName: the per-consumer queue or subscription name. */
  function GetSubName(config: EventBusConfig, eventName: string): (r: string)
    ensures |r| == |config.subscribeClientAppName| + 1 + |ProcessEventName(config, eventName)|
    ensures r[..|config.subscribeClientAppName|] == config.subscribeClientAppName
    ensures r[|config.subscribeClientAppName|] == '.'
    ensures r[|config.subscribeClientAppName| + 1..] == ProcessEventName(config, eventName)
  {
    config.subscribeClientAppName + "." + ProcessEventName(config, eventName)
  }

  /** The subscription name depends only on the canonical name. */
  lemma GetSubNameOfCanonical(config: EventBusConfig, eventName: string)
    ensures GetSubName(config, ProcessEventName(config, eventName)) == GetSubName(config, eventName)
  {
    ProcessEventNameIdempotent(config, eventName);
  }

  /** A subscription name is never the canonical name itself: it is strictly longer. */
  lemma {:induction false} GetSubNameDiffersFromName(config: EventBusConfig, eventName: string)
    requires ProcessEventName(config, eventName) == eventName
    ensures GetSubName(config, eventName) != eventName
  {
    assert |GetSubName(config, eventName)| > |eventName|;
  }
}
