/**
 * The current event taxonomy (src/lib/Types/RootEventType.ts): the 28-member
 * `RootEventType` enumeration and the constant `RootEventMap` table from each member to
 * the SDK enumeration member that must be subscribed to receive it.
 */
module RootEventTypes {
  import opened Wrappers
  import opened Strings
  import opened SdkEvents

  datatype RootEventType =
    // Channel message events
    | ChannelMessageCreated | ChannelMessageEdited | ChannelMessageDeleted
    | ChannelMessageReactionCreated | ChannelMessageReactionDeleted
    | ChannelMessagePinCreated | ChannelMessagePinDeleted | ChannelMessageSetTypingIndicator
    // Community member events
    | CommunityMemberJoined | CommunityMemberLeft | CommunityEdited
    | CommunityMemberBanCreated | CommunityMemberBanDeleted
    | CommunityMemberAttach | CommunityMemberDetach | UserSetProfile
    // Channel events
    | ChannelCreated | ChannelDeleted | ChannelEdited | ChannelMoved
    // Channel group events
    | ChannelGroupCreated | ChannelGroupDeleted | ChannelGroupEdited | ChannelGroupMoved
    // Channel directory events
    | ChannelDirectoryCreated | ChannelDirectoryDeleted | ChannelDirectoryEdited
    | ChannelDirectoryMoved

  /** Every member, in declaration order. */
  const AllEventTypes: seq<RootEventType> := [
    ChannelMessageCreated, ChannelMessageEdited, ChannelMessageDeleted, ChannelMessageReactionCreated,
    ChannelMessageReactionDeleted, ChannelMessagePinCreated, ChannelMessagePinDeleted, ChannelMessageSetTypingIndicator,
    CommunityMemberJoined, CommunityMemberLeft, CommunityEdited, CommunityMemberBanCreated,
    CommunityMemberBanDeleted, CommunityMemberAttach, CommunityMemberDetach, UserSetProfile,
    ChannelCreated, ChannelDeleted, ChannelEdited, ChannelMoved,
    ChannelGroupCreated, ChannelGroupDeleted, ChannelGroupEdited, ChannelGroupMoved,
    ChannelDirectoryCreated, ChannelDirectoryDeleted, ChannelDirectoryEdited, ChannelDirectoryMoved
  ]

  /** The position of a member in the declaration. */
  function Ordinal(t: RootEventType): nat {
    match t
    case ChannelMessageCreated => 0
    case ChannelMessageEdited => 1
    case ChannelMessageDeleted => 2
    case ChannelMessageReactionCreated => 3
    case ChannelMessageReactionDeleted => 4
    case ChannelMessagePinCreated => 5
    case ChannelMessagePinDeleted => 6
    case ChannelMessageSetTypingIndicator => 7
    case CommunityMemberJoined => 8
    case CommunityMemberLeft => 9
    case CommunityEdited => 10
    case CommunityMemberBanCreated => 11
    case CommunityMemberBanDeleted => 12
    case CommunityMemberAttach => 13
    case CommunityMemberDetach => 14
    case UserSetProfile => 15
    case ChannelCreated => 16
    case ChannelDeleted => 17
    case ChannelEdited => 18
    case ChannelMoved => 19
    case ChannelGroupCreated => 20
    case ChannelGroupDeleted => 21
    case ChannelGroupEdited => 22
    case ChannelGroupMoved => 23
    case ChannelDirectoryCreated => 24
    case ChannelDirectoryDeleted => 25
    case ChannelDirectoryEdited => 26
    case ChannelDirectoryMoved => 27
  }

  /** The string value of a member: each member's value is its own name. */
  function Name(t: RootEventType): string {
    match t
    case ChannelMessageCreated => "ChannelMessageCreated"
    case ChannelMessageEdited => "ChannelMessageEdited"
    case ChannelMessageDeleted => "ChannelMessageDeleted"
    case ChannelMessageReactionCreated => "ChannelMessageReactionCreated"
    case ChannelMessageReactionDeleted => "ChannelMessageReactionDeleted"
    case ChannelMessagePinCreated => "ChannelMessagePinCreated"
    case ChannelMessagePinDeleted => "ChannelMessagePinDeleted"
    case ChannelMessageSetTypingIndicator => "ChannelMessageSetTypingIndicator"
    case CommunityMemberJoined => "CommunityMemberJoined"
    case CommunityMemberLeft => "CommunityMemberLeft"
    case CommunityEdited => "CommunityEdited"
    case CommunityMemberBanCreated => "CommunityMemberBanCreated"
    case CommunityMemberBanDeleted => "CommunityMemberBanDeleted"
    case CommunityMemberAttach => "CommunityMemberAttach"
    case CommunityMemberDetach => "CommunityMemberDetach"
    case UserSetProfile => "UserSetProfile"
    case ChannelCreated => "ChannelCreated"
    case ChannelDeleted => "ChannelDeleted"
    case ChannelEdited => "ChannelEdited"
    case ChannelMoved => "ChannelMoved"
    case ChannelGroupCreated => "ChannelGroupCreated"
    case ChannelGroupDeleted => "ChannelGroupDeleted"
    case ChannelGroupEdited => "ChannelGroupEdited"
    case ChannelGroupMoved => "ChannelGroupMoved"
    case ChannelDirectoryCreated => "ChannelDirectoryCreated"
    case ChannelDirectoryDeleted => "ChannelDirectoryDeleted"
    case ChannelDirectoryEdited => "ChannelDirectoryEdited"
    case ChannelDirectoryMoved => "ChannelDirectoryMoved"
  }

  /**
   * `RootEventMap`: the SDK enumeration member each member stands for, as its category
   * and its string value. Every member has exactly one entry.
   */
  function RootEventMap(t: RootEventType): SdkMember {
    match t
    case ChannelMessageCreated => SdkMember(ChannelMessageEvent, "ChannelMessageCreated")
    case ChannelMessageEdited => SdkMember(ChannelMessageEvent, "ChannelMessageEdited")
    case ChannelMessageDeleted => SdkMember(ChannelMessageEvent, "ChannelMessageDeleted")
    case ChannelMessageReactionCreated => SdkMember(ChannelMessageEvent, "ChannelMessageReactionCreated")
    case ChannelMessageReactionDeleted => SdkMember(ChannelMessageEvent, "ChannelMessageReactionDeleted")
    case ChannelMessagePinCreated => SdkMember(ChannelMessageEvent, "ChannelMessagePinCreated")
    case ChannelMessagePinDeleted => SdkMember(ChannelMessageEvent, "ChannelMessagePinDeleted")
    case ChannelMessageSetTypingIndicator => SdkMember(ChannelMessageEvent, "ChannelMessageSetTypingIndicator")
    case CommunityMemberJoined => SdkMember(CommunityEvent, "CommunityJoined")
    case CommunityMemberLeft => SdkMember(CommunityEvent, "CommunityLeave")
    case CommunityEdited => SdkMember(CommunityEvent, "CommunityEdited")
    case CommunityMemberBanCreated => SdkMember(CommunityMemberBanEvent, "CommunityMemberBanCreated")
    case CommunityMemberBanDeleted => SdkMember(CommunityMemberBanEvent, "CommunityMemberBanDeleted")
    case CommunityMemberAttach => SdkMember(CommunityMemberEvent, "CommunityMemberAttach")
    case CommunityMemberDetach => SdkMember(CommunityMemberEvent, "CommunityMemberDetach")
    case UserSetProfile => SdkMember(CommunityMemberEvent, "UserSetProfile")
    case ChannelCreated => SdkMember(ChannelEvent, "ChannelCreated")
    case ChannelDeleted => SdkMember(ChannelEvent, "ChannelDeleted")
    case ChannelEdited => SdkMember(ChannelEvent, "ChannelEdited")
    case ChannelMoved => SdkMember(ChannelEvent, "ChannelMoved")
    case ChannelGroupCreated => SdkMember(ChannelGroupEvent, "ChannelGroupCreated")
    case ChannelGroupDeleted => SdkMember(ChannelGroupEvent, "ChannelGroupDeleted")
    case ChannelGroupEdited => SdkMember(ChannelGroupEvent, "ChannelGroupEdited")
    case ChannelGroupMoved => SdkMember(ChannelGroupEvent, "ChannelGroupMoved")
    case ChannelDirectoryCreated => SdkMember(ChannelDirectoryEvent, "ChannelDirectoryCreated")
    case ChannelDirectoryDeleted => SdkMember(ChannelDirectoryEvent, "ChannelDirectoryDeleted")
    case ChannelDirectoryEdited => SdkMember(ChannelDirectoryEvent, "ChannelDirectoryEdited")
    case ChannelDirectoryMoved => SdkMember(ChannelDirectoryEvent, "ChannelDirectoryMoved")
  }

  /** The member whose SDK value is `v`, if any: the inverse of the table. */
  function MemberOf(v: string): (r: Option<RootEventType>)
  {
    match |v|
    case 12 =>
      if v == "ChannelMoved" then Some(ChannelMoved)
      else None
    case 13 =>
      if v == "ChannelEdited" then Some(ChannelEdited)
      else None
    case 14 =>
      if v == "CommunityLeave" then Some(CommunityMemberLeft)
      else if v == "UserSetProfile" then Some(UserSetProfile)
      else if v == "ChannelCreated" then Some(ChannelCreated)
      else if v == "ChannelDeleted" then Some(ChannelDeleted)
      else None
    case 15 =>
      if v == "CommunityJoined" then Some(CommunityMemberJoined)
      else if v == "CommunityEdited" then Some(CommunityEdited)
      else None
    case 17 =>
      if v == "ChannelGroupMoved" then Some(ChannelGroupMoved)
      else None
    case 18 =>
      if v == "ChannelGroupEdited" then Some(ChannelGroupEdited)
      else None
    case 19 =>
      if v == "ChannelGroupCreated" then Some(ChannelGroupCreated)
      else if v == "ChannelGroupDeleted" then Some(ChannelGroupDeleted)
      else None
    case 20 =>
      if v == "ChannelMessageEdited" then Some(ChannelMessageEdited)
      else None
    case 21 =>
      if v == "ChannelMessageCreated" then Some(ChannelMessageCreated)
      else if v == "ChannelMessageDeleted" then Some(ChannelMessageDeleted)
      else if v == "CommunityMemberAttach" then Some(CommunityMemberAttach)
      else if v == "CommunityMemberDetach" then Some(CommunityMemberDetach)
      else if v == "ChannelDirectoryMoved" then Some(ChannelDirectoryMoved)
      else None
    case 22 =>
      if v == "ChannelDirectoryEdited" then Some(ChannelDirectoryEdited)
      else None
    case 23 =>
      if v == "ChannelDirectoryCreated" then Some(ChannelDirectoryCreated)
      else if v == "ChannelDirectoryDeleted" then Some(ChannelDirectoryDeleted)
      else None
    case 24 =>
      if v == "ChannelMessagePinCreated" then Some(ChannelMessagePinCreated)
      else if v == "ChannelMessagePinDeleted" then Some(ChannelMessagePinDeleted)
      else None
    case 25 =>
      if v == "CommunityMemberBanCreated" then Some(CommunityMemberBanCreated)
      else if v == "CommunityMemberBanDeleted" then Some(CommunityMemberBanDeleted)
      else None
    case 29 =>
      if v == "ChannelMessageReactionCreated" then Some(ChannelMessageReactionCreated)
      else if v == "ChannelMessageReactionDeleted" then Some(ChannelMessageReactionDeleted)
      else None
    case 32 =>
      if v == "ChannelMessageSetTypingIndicator" then Some(ChannelMessageSetTypingIndicator)
      else None
    case _ => None
  }

  /** The declaration lists 28 members and no member is missing from it. */
  lemma EnumerationHas28Members()
    ensures |AllEventTypes| == 28
    ensures forall t :: Ordinal(t) < 28 && AllEventTypes[Ordinal(t)] == t
  {
    forall t ensures Ordinal(t) < 28 && AllEventTypes[Ordinal(t)] == t {
      match t
      case ChannelMessageCreated =>
      case ChannelMessageEdited =>
      case ChannelMessageDeleted =>
      case ChannelMessageReactionCreated =>
      case ChannelMessageReactionDeleted =>
      case ChannelMessagePinCreated =>
      case ChannelMessagePinDeleted =>
      case ChannelMessageSetTypingIndicator =>
      case CommunityMemberJoined =>
      case CommunityMemberLeft =>
      case CommunityEdited =>
      case CommunityMemberBanCreated =>
      case CommunityMemberBanDeleted =>
      case CommunityMemberAttach =>
      case CommunityMemberDetach =>
      case UserSetProfile =>
      case ChannelCreated =>
      case ChannelDeleted =>
      case ChannelEdited =>
      case ChannelMoved =>
      case ChannelGroupCreated =>
      case ChannelGroupDeleted =>
      case ChannelGroupEdited =>
      case ChannelGroupMoved =>
      case ChannelDirectoryCreated =>
      case ChannelDirectoryDeleted =>
      case ChannelDirectoryEdited =>
      case ChannelDirectoryMoved =>
    }
  }

  /** No member is listed twice. */
  lemma EnumerationIsDistinct()
    ensures forall i, j :: 0 <= i < j < |AllEventTypes| ==> AllEventTypes[i] != AllEventTypes[j]
  {
    forall i | 0 <= i < 28 ensures Ordinal(AllEventTypes[i]) == i {
    }
  }

  /** Every entry of the table names a value its SDK enumeration really holds. */
  lemma EntryIsSdkMember(t: RootEventType)
    ensures RootEventMap(t).value in Values(RootEventMap(t).category)
  {
  }

  // The table entry by entry, in groups small enough for the solver. These are the steps
  // the whole-table lemmas below are proved from, not properties of their own.

  /** Entries of the table for `ChannelMessageEvent`, their names and their inverse. */
  lemma TableChannelMessageEvent1()
    ensures Name(ChannelMessageCreated) == "ChannelMessageCreated"
    ensures RootEventMap(ChannelMessageCreated) == SdkMember(ChannelMessageEvent, "ChannelMessageCreated") && MemberOf("ChannelMessageCreated") == Some(ChannelMessageCreated)
    ensures Name(ChannelMessageEdited) == "ChannelMessageEdited"
    ensures RootEventMap(ChannelMessageEdited) == SdkMember(ChannelMessageEvent, "ChannelMessageEdited") && MemberOf("ChannelMessageEdited") == Some(ChannelMessageEdited)
  {
  }

  lemma TableChannelMessageEvent2()
    ensures Name(ChannelMessageDeleted) == "ChannelMessageDeleted"
    ensures RootEventMap(ChannelMessageDeleted) == SdkMember(ChannelMessageEvent, "ChannelMessageDeleted") && MemberOf("ChannelMessageDeleted") == Some(ChannelMessageDeleted)
    ensures Name(ChannelMessageReactionCreated) == "ChannelMessageReactionCreated"
    ensures RootEventMap(ChannelMessageReactionCreated) == SdkMember(ChannelMessageEvent, "ChannelMessageReactionCreated") && MemberOf("ChannelMessageReactionCreated") == Some(ChannelMessageReactionCreated)
  {
  }

  lemma TableChannelMessageEvent3()
    ensures Name(ChannelMessageReactionDeleted) == "ChannelMessageReactionDeleted"
    ensures RootEventMap(ChannelMessageReactionDeleted) == SdkMember(ChannelMessageEvent, "ChannelMessageReactionDeleted") && MemberOf("ChannelMessageReactionDeleted") == Some(ChannelMessageReactionDeleted)
    ensures Name(ChannelMessagePinCreated) == "ChannelMessagePinCreated"
    ensures RootEventMap(ChannelMessagePinCreated) == SdkMember(ChannelMessageEvent, "ChannelMessagePinCreated") && MemberOf("ChannelMessagePinCreated") == Some(ChannelMessagePinCreated)
  {
  }

  lemma TableChannelMessageEvent4()
    ensures Name(ChannelMessagePinDeleted) == "ChannelMessagePinDeleted"
    ensures RootEventMap(ChannelMessagePinDeleted) == SdkMember(ChannelMessageEvent, "ChannelMessagePinDeleted") && MemberOf("ChannelMessagePinDeleted") == Some(ChannelMessagePinDeleted)
    ensures Name(ChannelMessageSetTypingIndicator) == "ChannelMessageSetTypingIndicator"
    ensures RootEventMap(ChannelMessageSetTypingIndicator) == SdkMember(ChannelMessageEvent, "ChannelMessageSetTypingIndicator") && MemberOf("ChannelMessageSetTypingIndicator") == Some(ChannelMessageSetTypingIndicator)
  {
  }

  /** Entries of the table for `CommunityEvent`, their names and their inverse. */
  lemma TableCommunityEvent1()
    ensures Name(CommunityMemberJoined) == "CommunityMemberJoined"
    ensures RootEventMap(CommunityMemberJoined) == SdkMember(CommunityEvent, "CommunityJoined") && MemberOf("CommunityJoined") == Some(CommunityMemberJoined)
    ensures Name(CommunityMemberLeft) == "CommunityMemberLeft"
    ensures RootEventMap(CommunityMemberLeft) == SdkMember(CommunityEvent, "CommunityLeave") && MemberOf("CommunityLeave") == Some(CommunityMemberLeft)
  {
  }

  lemma TableCommunityEvent2()
    ensures Name(CommunityEdited) == "CommunityEdited"
    ensures RootEventMap(CommunityEdited) == SdkMember(CommunityEvent, "CommunityEdited") && MemberOf("CommunityEdited") == Some(CommunityEdited)
  {
  }

  /** Entries of the table for `CommunityMemberBanEvent`, their names and their inverse. */
  lemma TableCommunityMemberBanEvent()
    ensures Name(CommunityMemberBanCreated) == "CommunityMemberBanCreated"
    ensures RootEventMap(CommunityMemberBanCreated) == SdkMember(CommunityMemberBanEvent, "CommunityMemberBanCreated") && MemberOf("CommunityMemberBanCreated") == Some(CommunityMemberBanCreated)
    ensures Name(CommunityMemberBanDeleted) == "CommunityMemberBanDeleted"
    ensures RootEventMap(CommunityMemberBanDeleted) == SdkMember(CommunityMemberBanEvent, "CommunityMemberBanDeleted") && MemberOf("CommunityMemberBanDeleted") == Some(CommunityMemberBanDeleted)
  {
  }

  /** Entries of the table for `CommunityMemberEvent`, their names and their inverse. */
  lemma TableCommunityMemberEvent1()
    ensures Name(CommunityMemberAttach) == "CommunityMemberAttach"
    ensures RootEventMap(CommunityMemberAttach) == SdkMember(CommunityMemberEvent, "CommunityMemberAttach") && MemberOf("CommunityMemberAttach") == Some(CommunityMemberAttach)
    ensures Name(CommunityMemberDetach) == "CommunityMemberDetach"
    ensures RootEventMap(CommunityMemberDetach) == SdkMember(CommunityMemberEvent, "CommunityMemberDetach") && MemberOf("CommunityMemberDetach") == Some(CommunityMemberDetach)
  {
  }

  lemma TableCommunityMemberEvent2()
    ensures Name(UserSetProfile) == "UserSetProfile"
    ensures RootEventMap(UserSetProfile) == SdkMember(CommunityMemberEvent, "UserSetProfile") && MemberOf("UserSetProfile") == Some(UserSetProfile)
  {
  }

  /** Entries of the table for `ChannelEvent`, their names and their inverse. */
  lemma TableChannelEvent1()
    ensures Name(ChannelCreated) == "ChannelCreated"
    ensures RootEventMap(ChannelCreated) == SdkMember(ChannelEvent, "ChannelCreated") && MemberOf("ChannelCreated") == Some(ChannelCreated)
    ensures Name(ChannelDeleted) == "ChannelDeleted"
    ensures RootEventMap(ChannelDeleted) == SdkMember(ChannelEvent, "ChannelDeleted") && MemberOf("ChannelDeleted") == Some(ChannelDeleted)
  {
  }

  lemma TableChannelEvent2()
    ensures Name(ChannelEdited) == "ChannelEdited"
    ensures RootEventMap(ChannelEdited) == SdkMember(ChannelEvent, "ChannelEdited") && MemberOf("ChannelEdited") == Some(ChannelEdited)
    ensures Name(ChannelMoved) == "ChannelMoved"
    ensures RootEventMap(ChannelMoved) == SdkMember(ChannelEvent, "ChannelMoved") && MemberOf("ChannelMoved") == Some(ChannelMoved)
  {
  }

  /** Entries of the table for `ChannelGroupEvent`, their names and their inverse. */
  lemma TableChannelGroupEvent1()
    ensures Name(ChannelGroupCreated) == "ChannelGroupCreated"
    ensures RootEventMap(ChannelGroupCreated) == SdkMember(ChannelGroupEvent, "ChannelGroupCreated") && MemberOf("ChannelGroupCreated") == Some(ChannelGroupCreated)
    ensures Name(ChannelGroupDeleted) == "ChannelGroupDeleted"
    ensures RootEventMap(ChannelGroupDeleted) == SdkMember(ChannelGroupEvent, "ChannelGroupDeleted") && MemberOf("ChannelGroupDeleted") == Some(ChannelGroupDeleted)
  {
  }

  lemma TableChannelGroupEvent2()
    ensures Name(ChannelGroupEdited) == "ChannelGroupEdited"
    ensures RootEventMap(ChannelGroupEdited) == SdkMember(ChannelGroupEvent, "ChannelGroupEdited") && MemberOf("ChannelGroupEdited") == Some(ChannelGroupEdited)
    ensures Name(ChannelGroupMoved) == "ChannelGroupMoved"
    ensures RootEventMap(ChannelGroupMoved) == SdkMember(ChannelGroupEvent, "ChannelGroupMoved") && MemberOf("ChannelGroupMoved") == Some(ChannelGroupMoved)
  {
  }

  /** Entries of the table for `ChannelDirectoryEvent`, their names and their inverse. */
  lemma TableChannelDirectoryEvent1()
    ensures Name(ChannelDirectoryCreated) == "ChannelDirectoryCreated"
    ensures RootEventMap(ChannelDirectoryCreated) == SdkMember(ChannelDirectoryEvent, "ChannelDirectoryCreated") && MemberOf("ChannelDirectoryCreated") == Some(ChannelDirectoryCreated)
    ensures Name(ChannelDirectoryDeleted) == "ChannelDirectoryDeleted"
    ensures RootEventMap(ChannelDirectoryDeleted) == SdkMember(ChannelDirectoryEvent, "ChannelDirectoryDeleted") && MemberOf("ChannelDirectoryDeleted") == Some(ChannelDirectoryDeleted)
  {
  }

  lemma TableChannelDirectoryEvent2()
    ensures Name(ChannelDirectoryEdited) == "ChannelDirectoryEdited"
    ensures RootEventMap(ChannelDirectoryEdited) == SdkMember(ChannelDirectoryEvent, "ChannelDirectoryEdited") && MemberOf("ChannelDirectoryEdited") == Some(ChannelDirectoryEdited)
  {
  }

  lemma TableChannelDirectoryEvent3()
    ensures Name(ChannelDirectoryMoved) == "ChannelDirectoryMoved"
    ensures RootEventMap(ChannelDirectoryMoved) == SdkMember(ChannelDirectoryEvent, "ChannelDirectoryMoved") && MemberOf("ChannelDirectoryMoved") == Some(ChannelDirectoryMoved)
  {
  }

  /** `MemberOf` inverts the table. */
  lemma MemberOfInvertsMap(t: RootEventType)
    ensures MemberOf(RootEventMap(t).value) == Some(t)
  {
    TableChannelMessageEvent1();
    TableChannelMessageEvent2();
    TableChannelMessageEvent3();
    TableChannelMessageEvent4();
    TableCommunityEvent1();
    TableCommunityEvent2();
    TableCommunityMemberBanEvent();
    TableCommunityMemberEvent1();
    TableCommunityMemberEvent2();
    TableChannelEvent1();
    TableChannelEvent2();
    TableChannelGroupEvent1();
    TableChannelGroupEvent2();
    TableChannelDirectoryEvent1();
    TableChannelDirectoryEvent2();
    TableChannelDirectoryEvent3();
    match t
    case ChannelMessageCreated =>
    case ChannelMessageEdited =>
    case ChannelMessageDeleted =>
    case ChannelMessageReactionCreated =>
    case ChannelMessageReactionDeleted =>
    case ChannelMessagePinCreated =>
    case ChannelMessagePinDeleted =>
    case ChannelMessageSetTypingIndicator =>
    case CommunityMemberJoined =>
    case CommunityMemberLeft =>
    case CommunityEdited =>
    case CommunityMemberBanCreated =>
    case CommunityMemberBanDeleted =>
    case CommunityMemberAttach =>
    case CommunityMemberDetach =>
    case UserSetProfile =>
    case ChannelCreated =>
    case ChannelDeleted =>
    case ChannelEdited =>
    case ChannelMoved =>
    case ChannelGroupCreated =>
    case ChannelGroupDeleted =>
    case ChannelGroupEdited =>
    case ChannelGroupMoved =>
    case ChannelDirectoryCreated =>
    case ChannelDirectoryDeleted =>
    case ChannelDirectoryEdited =>
    case ChannelDirectoryMoved =>
  }

  /** The table is injective: no two members share an SDK value. */
  lemma MapIsInjective(a: RootEventType, b: RootEventType)
    ensures RootEventMap(a).value == RootEventMap(b).value <==> a == b
  {
    MemberOfInvertsMap(a);
    MemberOfInvertsMap(b);
  }

  /** Every SDK value of every category is the value of some member: the table is onto. */
  lemma MemberOfCoversValues(c: Category, v: string)
    requires v in Values(c)
    ensures MemberOf(v).Some? && RootEventMap(MemberOf(v).value) == SdkMember(c, v)
  {
    match c
    case ChannelMessageEvent =>
      TableChannelMessageEvent1();
      TableChannelMessageEvent2();
      TableChannelMessageEvent3();
      TableChannelMessageEvent4();
    case CommunityEvent =>
      TableCommunityEvent1();
      TableCommunityEvent2();
    case CommunityMemberBanEvent =>
      TableCommunityMemberBanEvent();
    case CommunityMemberEvent =>
      TableCommunityMemberEvent1();
      TableCommunityMemberEvent2();
    case ChannelEvent =>
      TableChannelEvent1();
      TableChannelEvent2();
    case ChannelGroupEvent =>
      TableChannelGroupEvent1();
      TableChannelGroupEvent2();
    case ChannelDirectoryEvent =>
      TableChannelDirectoryEvent1();
      TableChannelDirectoryEvent2();
      TableChannelDirectoryEvent3();
  }

  /** The categories holding a mapped value are exactly the one its entry names. */
  lemma MappedValueCategories(t: RootEventType, c: Category)
    ensures RootEventMap(t).value in Values(c) <==> c == RootEventMap(t).category
  {
    EntryIsSdkMember(t);
    MemberOfInvertsMap(t);
    if RootEventMap(t).value in Values(c) {
      MemberOfCoversValues(c, RootEventMap(t).value);
    }
  }

  /** Every mapped value lies in exactly one of the seven SDK categories. */
  lemma EachValueInExactlyOneCategory(t: RootEventType)
    ensures CategoryCount(RootEventMap(t).value) == 1
  {
    forall c ensures RootEventMap(t).value in Values(c) <==> c == RootEventMap(t).category {
      MappedValueCategories(t, c);
    }
    CountInSingle(CategoryOrder, RootEventMap(t).value, RootEventMap(t).category);
  }

  /**
   * Every member maps to the SDK value spelled as its own name, except the two community
   * members, which map to `CommunityJoined` and `CommunityLeave`.
   */
  lemma NameIsValue(t: RootEventType)
    ensures Name(t) == RootEventMap(t).value <==> t != CommunityMemberJoined && t != CommunityMemberLeft
  {
    TableChannelMessageEvent1();
    TableChannelMessageEvent2();
    TableChannelMessageEvent3();
    TableChannelMessageEvent4();
    TableCommunityEvent1();
    TableCommunityEvent2();
    TableCommunityMemberBanEvent();
    TableCommunityMemberEvent1();
    TableCommunityMemberEvent2();
    TableChannelEvent1();
    TableChannelEvent2();
    TableChannelGroupEvent1();
    TableChannelGroupEvent2();
    TableChannelDirectoryEvent1();
    TableChannelDirectoryEvent2();
    TableChannelDirectoryEvent3();
    match t
    case ChannelMessageCreated =>
    case ChannelMessageEdited =>
    case ChannelMessageDeleted =>
    case ChannelMessageReactionCreated =>
    case ChannelMessageReactionDeleted =>
    case ChannelMessagePinCreated =>
    case ChannelMessagePinDeleted =>
    case ChannelMessageSetTypingIndicator =>
    case CommunityMemberJoined =>
    case CommunityMemberLeft =>
    case CommunityEdited =>
    case CommunityMemberBanCreated =>
    case CommunityMemberBanDeleted =>
    case CommunityMemberAttach =>
    case CommunityMemberDetach =>
    case UserSetProfile =>
    case ChannelCreated =>
    case ChannelDeleted =>
    case ChannelEdited =>
    case ChannelMoved =>
    case ChannelGroupCreated =>
    case ChannelGroupDeleted =>
    case ChannelGroupEdited =>
    case ChannelGroupMoved =>
    case ChannelDirectoryCreated =>
    case ChannelDirectoryDeleted =>
    case ChannelDirectoryEdited =>
    case ChannelDirectoryMoved =>
  }

  /** `CommunityMemberJoined` and `CommunityMemberLeft` map into the community category, not the member one. */
  lemma CommunityMembersMapToCommunityEvent()
    ensures RootEventMap(CommunityMemberJoined) == SdkMember(CommunityEvent, "CommunityJoined")
    ensures RootEventMap(CommunityMemberLeft) == SdkMember(CommunityEvent, "CommunityLeave")
    ensures RootEventMap(CommunityMemberJoined).value !in Values(CommunityMemberEvent)
    ensures RootEventMap(CommunityMemberLeft).value !in Values(CommunityMemberEvent)
  {
    TableCommunityEvent1();
    MappedValueCategories(CommunityMemberJoined, CommunityMemberEvent);
    MappedValueCategories(CommunityMemberLeft, CommunityMemberEvent);
  }

  /** A member whose value is a channel-message event is named `ChannelMessage…`. */
  lemma ChannelMessageNaming(t: RootEventType)
    ensures RootEventMap(t).value in Values(ChannelMessageEvent) ==> StartsWith(Name(t), "ChannelMessage")
  {
    MappedValueCategories(t, ChannelMessageEvent);
    NameIsValue(t);
    TableCommunityEvent1();
    forall v | v in Values(ChannelMessageEvent) ensures StartsWith(v, "ChannelMessage") {
    }
  }

  /** A member whose value is a community event has `Community` or `Member` in its name. */
  lemma CommunityNaming(t: RootEventType)
    ensures RootEventMap(t).value in Values(CommunityEvent) ==> Contains(Name(t), "Community") || Contains(Name(t), "Member")
  {
    MappedValueCategories(t, CommunityEvent);
    if RootEventMap(t).category == CommunityEvent {
      TableCommunityEvent1();
      TableCommunityEvent2();
      assert StartsWith(Name(t)[0..], "Community");
    }
  }

  /** A member whose value is a ban event has `Ban` in its name. */
  lemma BanNaming(t: RootEventType)
    ensures RootEventMap(t).value in Values(CommunityMemberBanEvent) ==> Contains(Name(t), "Ban")
  {
    MappedValueCategories(t, CommunityMemberBanEvent);
    if RootEventMap(t).category == CommunityMemberBanEvent {
      TableCommunityMemberBanEvent();
      assert StartsWith(Name(t)[15..], "Ban");
    }
  }

  /** A member whose value is a community-member event has `Member` or `User` in its name. */
  lemma MemberNaming(t: RootEventType)
    ensures RootEventMap(t).value in Values(CommunityMemberEvent) ==> Contains(Name(t), "Member") || Contains(Name(t), "User")
  {
    MappedValueCategories(t, CommunityMemberEvent);
    if RootEventMap(t).category == CommunityMemberEvent {
      TableCommunityMemberEvent1();
      TableCommunityMemberEvent2();
      if t == UserSetProfile {
        assert StartsWith(Name(t)[0..], "User");
      } else {
        assert StartsWith(Name(t)[9..], "Member");
      }
    }
  }

  /** A member whose value is a plain channel event is named `Channel…` but not `ChannelMessage…`, `ChannelGroup…` or `ChannelDirectory…`. */
  lemma ChannelNaming(t: RootEventType)
    ensures RootEventMap(t).value in Values(ChannelEvent) ==>
      && StartsWith(Name(t), "Channel")
      && !StartsWith(Name(t), "ChannelMessage")
      && !StartsWith(Name(t), "ChannelGroup")
      && !StartsWith(Name(t), "ChannelDirectory")
  {
    MappedValueCategories(t, ChannelEvent);
    NameIsValue(t);
    TableCommunityEvent1();
    forall v | v in Values(ChannelEvent)
      ensures StartsWith(v, "Channel") && !StartsWith(v, "ChannelMessage")
      ensures !StartsWith(v, "ChannelGroup") && !StartsWith(v, "ChannelDirectory")
    {
      NotPrefixAt(v, "ChannelMessage", if v == "ChannelMoved" then 8 else 7);
      NotPrefixAt(v, "ChannelGroup", 7);
      NotPrefixAt(v, "ChannelDirectory", 8);
    }
  }

  /** A member whose value is a channel-group event is named `ChannelGroup…`. */
  lemma ChannelGroupNaming(t: RootEventType)
    ensures RootEventMap(t).value in Values(ChannelGroupEvent) ==> StartsWith(Name(t), "ChannelGroup")
  {
    MappedValueCategories(t, ChannelGroupEvent);
    NameIsValue(t);
    TableCommunityEvent1();
    forall v | v in Values(ChannelGroupEvent) ensures StartsWith(v, "ChannelGroup") {
    }
  }

  /** A member whose value is a channel-directory event is named `ChannelDirectory…`. */
  lemma ChannelDirectoryNaming(t: RootEventType)
    ensures RootEventMap(t).value in Values(ChannelDirectoryEvent) ==> StartsWith(Name(t), "ChannelDirectory")
  {
    MappedValueCategories(t, ChannelDirectoryEvent);
    NameIsValue(t);
    TableCommunityEvent1();
    forall v | v in Values(ChannelDirectoryEvent) ensures StartsWith(v, "ChannelDirectory") {
    }
  }
}
