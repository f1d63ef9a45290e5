/**
 * The seven event categories of the external platform SDK, each with the string values
 * of its enumeration. The SDK itself is not part of this model; the values are the ones
 * the repository's test suite substitutes for it.
 */
module SdkEvents {

  /** The SDK enumerations, in the order the dispatch facade tests them. */
  datatype Category =
    | ChannelMessageEvent
    | CommunityEvent
    | CommunityMemberBanEvent
    | CommunityMemberEvent
    | ChannelEvent
    | ChannelGroupEvent
    | ChannelDirectoryEvent

  const CategoryOrder: seq<Category> := [
    ChannelMessageEvent, CommunityEvent, CommunityMemberBanEvent, CommunityMemberEvent,
    ChannelEvent, ChannelGroupEvent, ChannelDirectoryEvent
  ]

  /** One member of an SDK enumeration: the enumeration it belongs to and its string value. */
  datatype SdkMember = SdkMember(category: Category, value: string)

  /** `Object.values(<enumeration>)`. */
  function Values(c: Category): seq<string> {
    match c
    case ChannelMessageEvent => [
      "ChannelMessageCreated", "ChannelMessageEdited", "ChannelMessageDeleted",
      "ChannelMessageReactionCreated", "ChannelMessageReactionDeleted",
      "ChannelMessagePinCreated", "ChannelMessagePinDeleted", "ChannelMessageSetTypingIndicator"]
    case CommunityEvent => ["CommunityJoined", "CommunityLeave", "CommunityEdited"]
    case CommunityMemberBanEvent => ["CommunityMemberBanCreated", "CommunityMemberBanDeleted"]
    case CommunityMemberEvent => ["CommunityMemberAttach", "CommunityMemberDetach", "UserSetProfile"]
    case ChannelEvent => ["ChannelCreated", "ChannelDeleted", "ChannelEdited", "ChannelMoved"]
    case ChannelGroupEvent => [
      "ChannelGroupCreated", "ChannelGroupDeleted", "ChannelGroupEdited", "ChannelGroupMoved"]
    case ChannelDirectoryEvent => [
      "ChannelDirectoryCreated", "ChannelDirectoryDeleted", "ChannelDirectoryEdited",
      "ChannelDirectoryMoved"]
  }

  /** How many of the categories in `cs` hold `v`. */
  function CountIn(cs: seq<Category>, v: string): (n: nat)
    ensures n <= |cs|
    ensures n == 0 <==> forall i :: 0 <= i < |cs| ==> v !in Values(cs[i])
  {
    if cs == [] then 0
    else (if v in Values(cs[0]) then 1 else 0) + CountIn(cs[1..], v)
  }

  /** The number of SDK categories that hold `v`. */
  function CategoryCount(v: string): nat {
    CountIn(CategoryOrder, v)
  }

  /** A value held by exactly one category, listed once in `cs`, is counted once. */
  lemma {:induction false} CountInSingle(cs: seq<Category>, v: string, c: Category)
    requires c in cs
    requires forall i, j :: 0 <= i < j < |cs| ==> cs[i] != cs[j]
    requires forall d :: v in Values(d) <==> d == c
    ensures CountIn(cs, v) == 1
  {
    if cs[0] == c {
      assert forall i :: 0 <= i < |cs[1..]| ==> v !in Values(cs[1..][i]) by {
        forall i | 0 <= i < |cs[1..]| ensures v !in Values(cs[1..][i]) {
          assert cs[1..][i] == cs[i + 1] != cs[0];
        }
      }
    } else {
      assert c in cs[1..];
      CountInSingle(cs[1..], v, c);
    }
  }
}
