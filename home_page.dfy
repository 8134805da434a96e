/** `HomePage`: the landing screen. Sending from it runs the page's own chat
    hook (started without a conversation), and a send that reports a newly
    created conversation is meant to open that conversation at once, under
    a title made from the text. It also offers the six most recent
    conversations. */
module HomePage {
  import opened Common
  import opened Records
  import opened Firebase
  import opened MessageService
  import opened UseChat
  import opened ChatInput

  const TitleLength: nat := 40
  const StartFailed: string := "Failed to start chat. Please try again."
  const RecentCount: nat := 6
  const UntitledLabel: string := "New Chat"
  const NoMessagesLabel: string := "No messages yet"

  /** The temporary conversation object handed to `onSelectChat`. */
  datatype TempChat = TempChat(id: Id, title: string, lastMessage: string, createdAt: int)

  /** The `{chatId, isNewChat}` object the page looks for in the value
      `sendMessage` resolves to. */
  datatype SendResult = SendResult(chatId: Option<Id>, isNewChat: bool)

  /** The title of the temporary conversation: the trimmed text, cut to its
      first 40 characters followed by `...` when it is longer. */
  function TempTitle(content: string): string {
    var t := Trim(content);
    if |t| > TitleLength then t[..TitleLength] + "..." else t
  }

  /** The title is at most 43 characters, begins the trimmed text, is that
      text itself when it is at most 40 characters long, and never starts
      with white space. */
  lemma TempTitleSpec(content: string)
    ensures var t := Trim(content);
            var r := TempTitle(content);
            && |r| <= TitleLength + 3
            && (|t| <= TitleLength ==> r == t)
            && (|t| > TitleLength ==> r == t[..TitleLength] + "..." && |r| == TitleLength + 3)
            && StartsWith(r, t[..if |t| < TitleLength then |t| else TitleLength])
            && (r == [] || !IsSpace(r[0]))
  {
    var t := Trim(content);
    TrimmedEnds(content);
    if |t| > TitleLength {
      assert TempTitle(content)[0] == t[0];
    }
  }

  /** What the page does with the value `sendMessage` resolved to: open a
      temporary conversation when it names a chat id and says the
      conversation is new, and nothing otherwise. */
  function Navigation(resolved: Option<SendResult>, content: string, now: int): (r: Option<TempChat>)
    ensures r.Some? <==> resolved.Some? && resolved.value.chatId.Some? && resolved.value.isNewChat
    ensures r.Some? ==> r.value == TempChat(resolved.value.chatId.value, TempTitle(content), content, now)
  {
    if resolved.Some? && resolved.value.chatId.Some? && resolved.value.isNewChat then
      Some(TempChat(resolved.value.chatId.value, TempTitle(content), content, now))
    else None
  }

  /** What the chat hook's `sendMessage` resolves to: it has no `return`
      with a value, so always `undefined`. */
  const Resolved: Option<SendResult> := None

  /** As written, a send from the home page never opens the conversation,
      whatever the text and however the send went. */
  lemma HomeNeverNavigates(content: string, now: int)
    ensures Navigation(Resolved, content, now) == None
  {
  }

  /** What `sendMessage` evidently should resolve to: after a send that was
      not ignored and did not throw, the conversation id the hook used and
      whether the hook had to create it. */
  function IntendedResult(userId: Option<string>, current: Option<Id>, content: string, o: SendOutcome): Option<SendResult> {
    if Ignored(userId, content) || o.result.Failure? then None else Some(SendResult(o.chatId, current.None?))
  }

  /** With that result, the first send from the page (its hook has no
      conversation yet) opens the conversation it created, which takes the
      store's next id, exactly when the send went through. */
  lemma IntendedOpensNewChat(s: State, userId: Option<string>, content: string, image: Option<Image>,
                             nowUser: int, nowAssistant: int, reply: Result<Reply>, f: SendFaults, now: int)
    requires Sound(s)
    ensures var o := Send(s, userId, None, content, image, nowUser, nowAssistant, reply, f);
            var r := Navigation(IntendedResult(userId, None, content, o), content, now);
            && (r.Some? <==> !Ignored(userId, content) && o.result.Success?)
            && (r.Some? ==> r.value == TempChat(s.nextId, TempTitle(content), content, now))
  {
    var o := Send(s, userId, None, content, image, nowUser, nowAssistant, reply, f);
    SendCreating(s, userId, content, image, nowUser, nowAssistant, reply, f);
    if !Ignored(userId, content) && o.result.Success? {
      var c := ChatFor(s, None, f.create);
      assert c.result.Success?;
      assert o.chatId == Some(c.result.value);
    }
  }

  /** Later sends from the same page reuse the hook's conversation and open
      nothing. */
  lemma IntendedStaysOnLaterSends(userId: Option<string>, current: Id, content: string, o: SendOutcome, now: int)
    ensures Navigation(IntendedResult(userId, Some(current), content, o), content, now) == None
  {
  }

  /** A card of the recent-chats grid. */
  datatype Card = Card(id: Id, title: string, preview: string)

  function CardFor(c: Conversation): Card {
    Card(c.id, if c.title != "" then c.title else UntitledLabel,
         if TruthyText(c.lastMessage) then c.lastMessage.value else NoMessagesLabel)
  }

  /** `userChats.slice(0, 6)` as cards: the first six conversations in list
      order, each with the fallbacks for an empty title and a missing or
      empty preview. */
  function RecentChats(chats: seq<Conversation>): (r: seq<Card>)
    ensures |r| == if |chats| < RecentCount then |chats| else RecentCount
    ensures forall i :: 0 <= i < |r| ==> r[i].id == chats[i].id
    ensures forall i :: 0 <= i < |r| ==>
              && (r[i].title == if chats[i].title == "" then UntitledLabel else chats[i].title)
              && (r[i].preview == if TruthyText(chats[i].lastMessage) then chats[i].lastMessage.value else NoMessagesLabel)
  {
    var shown := if |chats| < RecentCount then chats else chats[..RecentCount];
    seq(|shown|, i requires 0 <= i < |shown| => CardFor(shown[i]))
  }

  /** The "Recent Chats" section is shown exactly when there is a
      conversation; no card is ever blank. */
  lemma RecentChatsNonBlank(chats: seq<Conversation>)
    ensures |RecentChats(chats)| > 0 <==> |chats| > 0
    ensures forall i :: 0 <= i < |RecentChats(chats)| ==>
              RecentChats(chats)[i].title != "" && RecentChats(chats)[i].preview != ""
  {
  }

  class Home {
    const chat: ChatHook
    var thinking: bool
    var error: string
    var selectedPromptContent: string
    var showUserMenu: bool

    ghost predicate Valid()
      reads this, chat, chat.store
    {
      chat.Valid()
    }

    constructor (chat: ChatHook)
      requires chat.Valid()
      ensures Valid() && this.chat == chat
      ensures !thinking && error == "" && selectedPromptContent == "" && !showUserMenu
    {
      this.chat := chat;
      thinking, error, selectedPromptContent, showUserMenu := false, "", "", false;
    }

    /** `handleSendMessage(content, image)`: clear the error, wait for the
        chat hook's `sendMessage`, set the error if it threw, open the
        conversation it names, and always end the thinking state. */
    method HandleSendMessage(content: string, image: Option<Attachment>, nowUser: int, nowAssistant: int, now: int,
                             server: Payload -> HttpReply, parse: Parser, f: SendFaults)
      returns (navigated: Option<TempChat>)
      requires Valid()
      modifies this, chat, chat.store
      ensures Valid()
      ensures var img := AsImage(image);
              var o := Send(old(chat.store.Current()), chat.userId, old(chat.currentChatId), content, img,
                            nowUser, nowAssistant, ReplyFor(old(chat.messages), content, img, server, parse), f);
              && chat.store.Current() == o.state && chat.currentChatId == o.chatId
              && chat.store.log == old(chat.store.log) + o.writes
              && error == (if o.result.Failure? then StartFailed else "")
      ensures navigated == None
      ensures !thinking && selectedPromptContent == old(selectedPromptContent)
    {
      error := "";
      thinking := true;
      var img := AsImage(image);
      var r := chat.SendMessage(content, img, nowUser, nowAssistant, server, parse, f);
      navigated := None;
      if r.Failure? {
        error := StartFailed;
      } else {
        navigated := Navigation(Resolved, content, now);
      }
      thinking := false;
    }

    /** `onSelectPrompt`: the chosen prompt's text is kept in the page's
        state. */
    method SelectPrompt(content: string)
      modifies this
      ensures selectedPromptContent == content
      ensures thinking == old(thinking) && error == old(error) && showUserMenu == old(showUserMenu)
    {
      selectedPromptContent := content;
    }

    /** The avatar's click. */
    method ToggleUserMenu()
      modifies this
      ensures showUserMenu == !old(showUserMenu)
      ensures thinking == old(thinking) && error == old(error) && selectedPromptContent == old(selectedPromptContent)
    {
      showUserMenu := !showUserMenu;
    }
  }
}
