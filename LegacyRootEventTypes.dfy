/**
 * The older event taxonomy (src/lib/RootEventType.ts), the one `RootEvent` imports: ten
 * members and a table whose two community entries are raw strings cast to the
 * channel-message enumeration rather than members of any SDK enumeration.
 */
module LegacyRootEventTypes {
  import opened Wrappers
  import opened Strings
  import opened SdkEvents
  import Current = RootEventTypes

  datatype RootEventType =
    // Channel message events
    | ChannelMessageCreated | ChannelMessageEdited | ChannelMessageDeleted
    | ChannelMessageReactionCreated | ChannelMessageReactionDeleted
    | ChannelMessagePinCreated | ChannelMessagePinDeleted | ChannelMessageSetTypingIndicator
    // Community member events
    | CommunityMemberJoined | CommunityMemberLeft

  /** Every member, in declaration order. */
  const AllEventTypes: seq<RootEventType> := [
    ChannelMessageCreated, ChannelMessageEdited, ChannelMessageDeleted,
    ChannelMessageReactionCreated, ChannelMessageReactionDeleted,
    ChannelMessagePinCreated, ChannelMessagePinDeleted, ChannelMessageSetTypingIndicator,
    CommunityMemberJoined, CommunityMemberLeft
  ]

  /** The string value of a member: its own name. */
  function Name(t: RootEventType): string {
    match t
    case ChannelMessageCreated => "ChannelMessageCreated"
    case ChannelMessageEdited => "ChannelMessageEdited"
    case ChannelMessageDeleted => "ChannelMessageDeleted"
    case ChannelMessageReactionCreated => "ChannelMessageReactionCreated"
    case ChannelMessageReactionDeleted => "ChannelMessageReactionDeleted"
    case ChannelMessagePinCreated => "ChannelMessagePinCreated"
    case ChannelMessagePinDeleted => "ChannelMessagePinDeleted"
    case ChannelMessageSetTypingIndicator => "ChannelMessageSetTypingIndicator"
    case CommunityMemberJoined => "CommunityMemberJoined"
    case CommunityMemberLeft => "CommunityMemberLeft"
  }

  predicate IsChannelMessage(t: RootEventType) {
    t != CommunityMemberJoined && t != CommunityMemberLeft
  }

  /** The member of the current enumeration with the same name. */
  function Upgrade(t: RootEventType): Current.RootEventType {
    match t
    case ChannelMessageCreated => Current.ChannelMessageCreated
    case ChannelMessageEdited => Current.ChannelMessageEdited
    case ChannelMessageDeleted => Current.ChannelMessageDeleted
    case ChannelMessageReactionCreated => Current.ChannelMessageReactionCreated
    case ChannelMessageReactionDeleted => Current.ChannelMessageReactionDeleted
    case ChannelMessagePinCreated => Current.ChannelMessagePinCreated
    case ChannelMessagePinDeleted => Current.ChannelMessagePinDeleted
    case ChannelMessageSetTypingIndicator => Current.ChannelMessageSetTypingIndicator
    case CommunityMemberJoined => Current.CommunityMemberJoined
    case CommunityMemberLeft => Current.CommunityMemberLeft
  }

  /** The legacy member with the same name as a current member, if there is one. */
  function Downgrade(t: Current.RootEventType): (r: Option<RootEventType>)
    ensures r.Some? ==> Upgrade(r.value) == t
  {
    match t
    case ChannelMessageCreated => Some(ChannelMessageCreated)
    case ChannelMessageEdited => Some(ChannelMessageEdited)
    case ChannelMessageDeleted => Some(ChannelMessageDeleted)
    case ChannelMessageReactionCreated => Some(ChannelMessageReactionCreated)
    case ChannelMessageReactionDeleted => Some(ChannelMessageReactionDeleted)
    case ChannelMessagePinCreated => Some(ChannelMessagePinCreated)
    case ChannelMessagePinDeleted => Some(ChannelMessagePinDeleted)
    case ChannelMessageSetTypingIndicator => Some(ChannelMessageSetTypingIndicator)
    case CommunityMemberJoined => Some(CommunityMemberJoined)
    case CommunityMemberLeft => Some(CommunityMemberLeft)
    case _ => None
  }

  lemma DowngradeInvertsUpgrade(t: RootEventType)
    ensures Downgrade(Upgrade(t)) == Some(t)
  {
  }

  /**
   * `RootEventMap`: the eight channel-message members map to the channel-message SDK
   * values; the two community members map to their own names, cast.
   */
  function RootEventMap(t: RootEventType): string {
    match t
    case ChannelMessageCreated => "ChannelMessageCreated"
    case ChannelMessageEdited => "ChannelMessageEdited"
    case ChannelMessageDeleted => "ChannelMessageDeleted"
    case ChannelMessageReactionCreated => "ChannelMessageReactionCreated"
    case ChannelMessageReactionDeleted => "ChannelMessageReactionDeleted"
    case ChannelMessagePinCreated => "ChannelMessagePinCreated"
    case ChannelMessagePinDeleted => "ChannelMessagePinDeleted"
    case ChannelMessageSetTypingIndicator => "ChannelMessageSetTypingIndicator"
    case CommunityMemberJoined => "CommunityMemberJoined"
    case CommunityMemberLeft => "CommunityMemberLeft"
  }

  /** The declaration lists ten members, eight of them channel-message members, and none is missing. */
  lemma EnumerationHas10Members()
    ensures |AllEventTypes| == 10
    ensures forall t :: t in AllEventTypes
    ensures forall i :: 0 <= i < 8 ==> IsChannelMessage(AllEventTypes[i])
  {
    forall t ensures t in AllEventTypes {
      match t
      case ChannelMessageCreated => assert AllEventTypes[0] == t;
      case ChannelMessageEdited => assert AllEventTypes[1] == t;
      case ChannelMessageDeleted => assert AllEventTypes[2] == t;
      case ChannelMessageReactionCreated => assert AllEventTypes[3] == t;
      case ChannelMessageReactionDeleted => assert AllEventTypes[4] == t;
      case ChannelMessagePinCreated => assert AllEventTypes[5] == t;
      case ChannelMessagePinDeleted => assert AllEventTypes[6] == t;
      case ChannelMessageSetTypingIndicator => assert AllEventTypes[7] == t;
      case CommunityMemberJoined => assert AllEventTypes[8] == t;
      case CommunityMemberLeft => assert AllEventTypes[9] == t;
    }
  }

  /**
   * Each channel-message member maps to the same-named channel-message SDK value, the
   * value the current table gives its namesake.
   */
  lemma ChannelMessageEntries(t: RootEventType)
    requires IsChannelMessage(t)
    ensures RootEventMap(t) == Name(t) == Current.Name(Upgrade(t))
    ensures Current.RootEventMap(Upgrade(t)) == SdkMember(ChannelMessageEvent, RootEventMap(t))
  {
    Current.TableChannelMessageEvent1();
    Current.TableChannelMessageEvent2();
    Current.TableChannelMessageEvent3();
    Current.TableChannelMessageEvent4();
  }

  /** The raw community strings are not values of the current table. */
  lemma RawStringsAreNotSdkValues()
    ensures Current.MemberOf("CommunityMemberJoined") == None
    ensures Current.MemberOf("CommunityMemberLeft") == None
  {
  }

  /** The two community entries are their own names, which no SDK category holds. */
  lemma CommunityEntriesAreUnclassified(t: RootEventType)
    requires !IsChannelMessage(t)
    ensures RootEventMap(t) == Name(t)
    ensures Current.MemberOf(RootEventMap(t)) == None
    ensures forall c :: RootEventMap(t) !in Values(c)
    ensures CategoryCount(RootEventMap(t)) == 0
  {
    RawStringsAreNotSdkValues();
    forall c ensures RootEventMap(t) !in Values(c) {
      if RootEventMap(t) in Values(c) {
        Current.MemberOfCoversValues(c, RootEventMap(t));
      }
    }
  }

  /** A channel-message value never equals a raw community string. */
  lemma KindsDiffer(a: RootEventType, b: RootEventType)
    requires IsChannelMessage(a) && !IsChannelMessage(b)
    ensures RootEventMap(a) != RootEventMap(b)
  {
    ChannelMessageEntries(a);
    Current.MemberOfInvertsMap(Upgrade(a));
    CommunityEntriesAreUnclassified(b);
  }

  /** No two members share a value. */
  lemma MapIsInjective(a: RootEventType, b: RootEventType)
    ensures RootEventMap(a) == RootEventMap(b) <==> a == b
  {
    if IsChannelMessage(a) && IsChannelMessage(b) {
      ChannelMessageEntries(a);
      ChannelMessageEntries(b);
      Current.MapIsInjective(Upgrade(a), Upgrade(b));
      DowngradeInvertsUpgrade(a);
      DowngradeInvertsUpgrade(b);
    } else if IsChannelMessage(a) {
      KindsDiffer(a, b);
    } else if IsChannelMessage(b) {
      KindsDiffer(b, a);
    }
  }
}
