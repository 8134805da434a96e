/** `ChatSidebar`: the list of the user's conversations, with the current one
    marked, or an empty state when there are none. It keeps no state. */
module ChatSidebar {
  import opened Common
  import opened Records

  /** `truncateText`'s default limit here, used for the previews. */
  const DefaultLimit: nat := 50
  const TitleLimit: nat := 30
  const UntitledLabel: string := "New Chat"
  const NoMessagesLabel: string := "No messages yet"

  /** `formatDate`: a missing time shows nothing; a day difference of 0
      shows the time, 1 "Yesterday", any other below 7 (a negative one for a
      time ahead of the clock included) the short weekday, and the rest the
      month and day. */
  function FormatDate(updatedAt: Option<int>, now: int): (r: Label)
    ensures updatedAt.None? ==> r == Fixed("")
    ensures updatedAt.Some? ==>
              var d := now - updatedAt.value;
              && (0 <= d < MsPerDay ==> r == Localized(TimeHourMinute(updatedAt.value)))
              && (MsPerDay <= d < 2 * MsPerDay ==> r == Fixed("Yesterday"))
              && (d < 0 || 2 * MsPerDay <= d < 7 * MsPerDay ==> r == Localized(WeekdayShort(updatedAt.value)))
              && (7 * MsPerDay <= d ==> r == Localized(MonthDay(updatedAt.value)))
  {
    if updatedAt.None? then Fixed("")
    else
      var days := DayDiff(now, updatedAt.value);
      if days == 0 then Localized(TimeHourMinute(updatedAt.value))
      else if days == 1 then Fixed("Yesterday")
      else if days < 7 then Localized(WeekdayShort(updatedAt.value))
      else Localized(MonthDay(updatedAt.value))
  }

  /** One entry of the list. */
  datatype Item = Item(id: Id, title: string, preview: string, time: Label, active: bool)

  function ItemFor(c: Conversation, currentChatId: Option<Id>, now: int): Item {
    Item(c.id,
         Truncate(if c.title != "" then c.title else UntitledLabel, TitleLimit),
         Truncate(if TruthyText(c.lastMessage) then c.lastMessage.value else NoMessagesLabel, DefaultLimit),
         FormatDate(Some(c.updatedAt), now),
         currentChatId == Some(c.id))
  }

  /** The sidebar's body. */
  datatype View = EmptyState | Entries(items: seq<Item>)

  /** The empty state for no conversations, otherwise one entry per
      conversation in list order; an entry is active exactly when its id is
      the current conversation's, and its title and preview are cut to 30
      and 50 characters. */
  function Render(chats: seq<Conversation>, currentChatId: Option<Id>, now: int): (r: View)
    ensures r.EmptyState? <==> chats == []
    ensures r.Entries? ==> |r.items| == |chats|
    ensures r.Entries? ==> forall i :: 0 <= i < |chats| ==>
              && r.items[i].id == chats[i].id
              && (r.items[i].active <==> currentChatId == Some(chats[i].id))
              && 0 < |r.items[i].title| <= TitleLimit + 3
              && 0 < |r.items[i].preview| <= DefaultLimit + 3
    ensures r.Entries? ==> forall i :: 0 <= i < |chats| ==> r.items[i] == ItemFor(chats[i], currentChatId, now)
  {
    if chats == [] then EmptyState
    else Entries(seq(|chats|, i requires 0 <= i < |chats| => ItemFor(chats[i], currentChatId, now)))
  }

  /** An entry shows the title, or `New Chat` for an empty one, and the
      preview, or `No messages yet` without one: whole when at most 30 and
      50 characters, otherwise their first 30 and 50 characters and `...`.
      Its time is `formatDate`'s. */
  lemma ItemShows(c: Conversation, currentChatId: Option<Id>, now: int)
    ensures var k := ItemFor(c, currentChatId, now);
            var t := if c.title != "" then c.title else UntitledLabel;
            var p := if TruthyText(c.lastMessage) then c.lastMessage.value else NoMessagesLabel;
            && k.id == c.id
            && (|t| <= TitleLimit ==> k.title == t)
            && (|t| > TitleLimit ==> k.title == t[..TitleLimit] + "...")
            && (|p| <= DefaultLimit ==> k.preview == p)
            && (|p| > DefaultLimit ==> k.preview == p[..DefaultLimit] + "...")
            && k.time == FormatDate(Some(c.updatedAt), now)
            && (k.active <==> currentChatId == Some(c.id))
  {
  }

  /** With distinct ids, at most one entry is active, and none when there
      is no current conversation. */
  lemma AtMostOneActive(chats: seq<Conversation>, currentChatId: Option<Id>, now: int)
    requires DistinctIds(chats)
    ensures var r := Render(chats, currentChatId, now);
            r.Entries? ==>
              && (forall i, j :: 0 <= i < |r.items| && 0 <= j < |r.items| && r.items[i].active && r.items[j].active ==> i == j)
              && (currentChatId.None? ==> forall i :: 0 <= i < |r.items| ==> !r.items[i].active)
  {
  }
}
