/** `StarredChats`: the list of conversations the user has starred, loaded
    once from the starred-chats service (known only by name, so its answer
    is a parameter), shown as cards, and unstarred one by one. */
module StarredChats {
  import opened Common
  import opened Records
  import opened Firebase

  /** `truncateText`'s default limit here; the cards pass their own. */
  const DefaultLimit: nat := 100
  const TitleLimit: nat := 50
  const PreviewLimit: nat := 150
  const UntitledLabel: string := "Untitled Chat"
  const NoMessagesLabel: string := "No messages yet"

  /** `truncateText(text)` with the default limit. */
  function TruncateDefault(text: string): (r: string)
    ensures text == "" ==> r == "New Chat"
    ensures text != "" && |text| <= DefaultLimit ==> r == text
    ensures |text| > DefaultLimit ==> |r| == DefaultLimit + 3 && r == text[..DefaultLimit] + "..."
  {
    Truncate(text, DefaultLimit)
  }

  /** `formatDate`: a missing time shows nothing; a day difference of 0 is
      "Today", 1 "Yesterday", any other below 7 (a negative one for a time
      ahead of the clock included) the weekday, and the rest the date. */
  function FormatDate(updatedAt: Option<int>, now: int): (r: Label)
    ensures updatedAt.None? ==> r == Fixed("")
    ensures updatedAt.Some? ==>
              var d := now - updatedAt.value;
              && (0 <= d < MsPerDay ==> r == Fixed("Today"))
              && (MsPerDay <= d < 2 * MsPerDay ==> r == Fixed("Yesterday"))
              && (d < 0 || 2 * MsPerDay <= d < 7 * MsPerDay ==> r == Localized(WeekdayLong(updatedAt.value)))
              && (7 * MsPerDay <= d ==> r == Localized(MonthDayYear(updatedAt.value)))
  {
    if updatedAt.None? then Fixed("")
    else
      var days := DayDiff(now, updatedAt.value);
      if days == 0 then Fixed("Today")
      else if days == 1 then Fixed("Yesterday")
      else if days < 7 then Localized(WeekdayLong(updatedAt.value))
      else Localized(MonthDayYear(updatedAt.value))
  }

  /** A starred card's heading and preview. */
  datatype Card = Card(id: Id, title: string, preview: string, date: Label)

  function CardFor(c: Conversation, now: int): Card {
    Card(c.id,
         Truncate(if c.title != "" then c.title else UntitledLabel, TitleLimit),
         Truncate(if TruthyText(c.lastMessage) then c.lastMessage.value else NoMessagesLabel, PreviewLimit),
         FormatDate(Some(c.updatedAt), now))
  }

  /** A card's heading is at most 53 characters and its preview at most
      153; short ones are shown whole, long ones cut to their first 50 or
      150 characters and `...`, and neither is ever empty. The date is
      `formatDate`'s. */
  lemma CardBounds(c: Conversation, now: int)
    ensures var k := CardFor(c, now);
            && k.id == c.id
            && 0 < |k.title| <= TitleLimit + 3 && 0 < |k.preview| <= PreviewLimit + 3
            && (0 < |c.title| <= TitleLimit ==> k.title == c.title)
            && (|c.title| > TitleLimit ==> k.title == c.title[..TitleLimit] + "...")
            && (c.title == "" ==> k.title == UntitledLabel)
            && (TruthyText(c.lastMessage) && |c.lastMessage.value| <= PreviewLimit ==> k.preview == c.lastMessage.value)
            && (TruthyText(c.lastMessage) && |c.lastMessage.value| > PreviewLimit ==>
                  k.preview == c.lastMessage.value[..PreviewLimit] + "...")
            && (!TruthyText(c.lastMessage) ==> k.preview == NoMessagesLabel)
            && k.date == FormatDate(Some(c.updatedAt), now)
  {
  }

  /** `Without` drops matching conversations piece by piece: it is the
      filter of the whole list. */
  lemma {:induction false} WithoutConcat(a: seq<Conversation>, b: seq<Conversation>, id: Id)
    ensures Without(a + b, id) == Without(a, id) + Without(b, id)
  {
    if a != [] {
      WithoutConcat(a[1..], b, id);
      assert (a + b)[0] == a[0] && (a + b)[1..] == a[1..] + b;
    } else {
      assert a + b == b;
    }
  }

  /** A list without that id is left exactly as it was. */
  lemma {:induction false} WithoutAbsent(cs: seq<Conversation>, id: Id)
    requires forall i :: 0 <= i < |cs| ==> cs[i].id != id
    ensures Without(cs, id) == cs
  {
    if cs != [] {
      WithoutAbsent(cs[1..], id);
    }
  }

  /** Unstarring removes exactly the conversations with that id and keeps
      every other one, in the order they had. */
  lemma UnstarRemovesOnly(cs: seq<Conversation>, id: Id, c: Conversation, before: seq<Conversation>, after: seq<Conversation>)
    requires cs == before + [c] + after && c.id != id
    ensures Without(cs, id) == Without(before, id) + [c] + Without(after, id)
    ensures c in Without(cs, id)
  {
    WithoutConcat(before + [c], after, id);
    WithoutConcat(before, [c], id);
    assert [c][1..] == [];
  }

  /** What the panel shows. */
  datatype View = Loading | Empty | Cards(cards: seq<Card>)

  function Render(loading: bool, starred: seq<Conversation>, now: int): (r: View)
    ensures loading ==> r == Loading
    ensures !loading && starred == [] ==> r == Empty
    ensures !loading && starred != [] ==> r.Cards?
    ensures r.Cards? ==> |r.cards| == |starred| && forall i :: 0 <= i < |starred| ==> r.cards[i] == CardFor(starred[i], now)
  {
    if loading then Loading
    else if starred == [] then Empty
    else Cards(seq(|starred|, i requires 0 <= i < |starred| => CardFor(starred[i], now)))
  }

  /** A call into the starred-chats service. */
  datatype Call = LoadStarred | Unstar(id: Id)

  class StarredPanel {
    var starred: seq<Conversation>
    var loading: bool
    /** The service calls made so far, in order. */
    ghost var calls: seq<Call>

    constructor ()
      ensures starred == [] && loading && calls == []
    {
      starred, loading := [], true;
      calls := [];
    }

    /** `loadStarredChats`: the service's list replaces the shown one; a
        failure is only logged and keeps it. Loading ends either way. */
    method LoadStarredChats(answer: Result<seq<Conversation>>)
      modifies this
      ensures starred == if answer.Success? then answer.value else old(starred)
      ensures !loading && calls == old(calls) + [LoadStarred]
    {
      loading := true;
      calls := calls + [LoadStarred];
      if answer.Success? {
        starred := answer.value;
      }
      loading := false;
    }

    /** `handleUnstar(id)`: once the service has accepted the unstar, that
        conversation leaves the list and the others keep their order; a
        refusal is only logged. */
    method HandleUnstar(id: Id, fault: Fault)
      modifies this
      ensures starred == if fault.Succeeds? then Without(old(starred), id) else old(starred)
      ensures forall c :: c in starred <==> c in old(starred) && (fault.Succeeds? ==> c.id != id)
      ensures loading == old(loading) && calls == old(calls) + [Unstar(id)]
    {
      calls := calls + [Unstar(id)];
      if fault.Succeeds? {
        forall c {
          WithoutMembers(starred, id, c);
        }
        starred := Without(starred, id);
      }
    }
  }
}
