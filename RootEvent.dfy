/**
 * The event base class (src/lib/RootEvent.ts): the readonly fields its constructor derives
 * from the options a subclass passes. The SDK value comes from the older event table.
 */
module RootEvents {
  import opened Wrappers
  import Legacy = LegacyRootEventTypes

  /** What a subclass passes to the constructor; `None` is an omitted property. */
  datatype EventOptions = EventOptions(event: Legacy.RootEventType, once: Option<bool>, enabled: Option<bool>)

  /** The readonly fields of a constructed event; `sdkEvent` is the SDK string value. */
  datatype RootEvent = RootEvent(
    name: string,
    event: Legacy.RootEventType,
    sdkEvent: string,
    once: bool,
    enabled: bool)

  /** The constructor: name and event are the tag, `once` defaults to false, `enabled` to true. */
  function NewEvent(o: EventOptions): (e: RootEvent)
    ensures e.name == Legacy.Name(o.event) && e.event == o.event
    ensures e.sdkEvent == Legacy.RootEventMap(o.event)
    ensures e.once <==> o.once == Some(true)
    ensures e.enabled <==> o.enabled != Some(false)
  {
    RootEvent(Legacy.Name(o.event), o.event, Legacy.RootEventMap(o.event),
      o.once.GetOr(false), o.enabled.GetOr(true))
  }

  /** Omitting `once` or `enabled` builds the same event as passing false or true. */
  lemma OmittedFlagsAreDefaults(o: EventOptions)
    ensures NewEvent(o.(once := None)) == NewEvent(o.(once := Some(false)))
    ensures NewEvent(o.(enabled := None)) == NewEvent(o.(enabled := Some(true)))
  {
  }

  /** The name of an event is its tag's string value, and the SDK value is that same string. */
  lemma NameIsSdkValue(o: EventOptions)
    ensures NewEvent(o).sdkEvent == NewEvent(o).name
  {
    if Legacy.IsChannelMessage(o.event) {
      Legacy.ChannelMessageEntries(o.event);
    } else {
      Legacy.CommunityEntriesAreUnclassified(o.event);
    }
  }

  /** Two events share a name exactly when they share a tag. */
  lemma NameDeterminesTag(o1: EventOptions, o2: EventOptions)
    ensures NewEvent(o1).name == NewEvent(o2).name <==> o1.event == o2.event
  {
    NameIsSdkValue(o1);
    NameIsSdkValue(o2);
    Legacy.MapIsInjective(o1.event, o2.event);
  }
}
