/** `ChatInterface`: the screen that wires the conversation list hook and
    the chat hook (both over one store) to the view modes, the sidebar, the
    composer's send and the "new chat" actions.

    The hooks do not return `clearCurrentChat` or `switchChat`, so the
    handlers that call them throw a `TypeError` at that call: what they do
    before it happens and nothing after it. */
module ChatInterface {
  import opened Common
  import opened Records
  import opened Firebase
  import opened MessageService
  import opened UseChat
  import opened UseFirestore
  import opened ChatInput

  datatype ViewMode = HomeView | ChatView | StarredView

  /** What `renderContent` shows; `Blank` is its `null`. */
  datatype Screen = HomeScreen | ChatScreen | StarredScreen | Blank

  /** A view mode after a render, and what that render showed. */
  datatype Frame = Frame(mode: ViewMode, screen: Screen)

  const SendFailed: string := "Failed to send message. Please try again."
  const CreateFailed: string := "Failed to create new chat. Please try again."

  /** The `TypeError` of calling a property the hook does not return. */
  function NotAFunction(name: string): string {
    name + " is not a function"
  }

  /** The composer's `disabled` prop: while the messages load or a reply is
      awaited. */
  function InputDisabled(loading: bool, thinking: bool): (r: bool)
    ensures r <==> loading || thinking
  {
    loading || thinking
  }

  /** `renderContent`: the starred and home modes show their screen; the
      chat mode shows the chat when there is a current conversation and
      otherwise switches back to home and shows nothing. */
  function Render(mode: ViewMode, current: Option<Conversation>): (r: Frame)
    ensures r.screen == ChatScreen <==> mode == ChatView && current.Some?
    ensures r.mode == ChatView ==> current.Some?
    ensures r.screen == Blank <==> mode == ChatView && current.None?
    ensures r.screen == Blank ==> r.mode == HomeView
    ensures r.screen != Blank ==> r.mode == mode
  {
    match mode
    case StarredView => Frame(StarredView, StarredScreen)
    case ChatView => if current.None? then Frame(HomeView, Blank) else Frame(ChatView, ChatScreen)
    case HomeView => Frame(HomeView, HomeScreen)
  }

  /** A render that falls back is followed by one of the home screen, and
      any other render is repeated as it was. */
  lemma RenderSettles(mode: ViewMode, current: Option<Conversation>)
    ensures var f := Render(mode, current);
            Render(f.mode, current) == if f.screen == Blank then Frame(HomeView, HomeScreen) else f
  {
  }

  /** The effect on `currentChat`: a current conversation switches to the
      chat mode; none leaves the mode alone. */
  function AfterCurrentChat(mode: ViewMode, current: Option<Conversation>): (r: ViewMode)
    ensures current.Some? ==> r == ChatView
    ensures current.None? ==> r == mode
  {
    if current.Some? then ChatView else mode
  }

  /** Once the effect has run, the chat mode renders the chat screen. */
  lemma EffectThenRenderShowsChat(mode: ViewMode, current: Option<Conversation>)
    requires current.Some?
    ensures Render(AfterCurrentChat(mode, current), current) == Frame(ChatView, ChatScreen)
  {
  }

  /** `userChats.find(chat => chat.id === chatId)` for what `createNewChat`
      resolved to (nothing is found for an `undefined` id). */
  function Found(listed: seq<Conversation>, created: Result<Option<Id>>): (r: Option<Conversation>)
    ensures r.Some? ==> created.Success? && created.value.Some? && r.value.id == created.value.value && r.value in listed
    ensures created.Success? && created.value.Some? && (exists c :: c in listed && c.id == created.value.value) ==> r.Some?
  {
    if created.Success? && created.value.Some? then Lookup(listed, created.value.value) else None
  }

  /** A list whose ids all come from the store so far never holds the
      conversation `createNewChat` has just made: that id is the store's
      next one. */
  lemma NewChatUnlisted(userId: Option<string>, s: State, title: string, fault: Fault, listed: seq<Conversation>)
    requires forall i :: 0 <= i < |listed| ==> listed[i].id < s.nextId
    ensures Found(listed, CreateFor(userId, s, title, fault).result) == None
  {
    var o := CreateFor(userId, s, title, fault);
    if o.result.Success? && o.result.value.Some? {
      assert o.result.value.value == s.nextId;
    }
  }

  class Interface {
    const list: ChatListHook
    const chat: ChatHook
    var thinking: bool
    var error: string
    var sidebarOpen: bool
    var mode: ViewMode

    /** Both hooks work on one store. */
    ghost predicate Valid()
      reads this, list, chat, chat.store
    {
      list.store == chat.store && chat.Valid()
    }

    constructor (list: ChatListHook, chat: ChatHook)
      requires list.store == chat.store && chat.Valid()
      ensures Valid() && this.list == list && this.chat == chat
      ensures !thinking && error == "" && !sidebarOpen && mode == HomeView
    {
      this.list := list;
      this.chat := chat;
      thinking, error, sidebarOpen, mode := false, "", false, HomeView;
    }

    /** The start of `handleSendMessage`: the error is cleared and the
        input is disabled until the send settles. */
    method StartSend()
      modifies this
      ensures error == "" && thinking && InputDisabled(chat.loading, thinking)
      ensures mode == old(mode) && sidebarOpen == old(sidebarOpen)
    {
      error := "";
      thinking := true;
    }

    /** The `catch` and `finally` of `handleSendMessage`. */
    method FinishSend(r: Result<()>)
      modifies this
      ensures !thinking
      ensures error == if r.Failure? then SendFailed else old(error)
      ensures mode == old(mode) && sidebarOpen == old(sidebarOpen)
    {
      if r.Failure? {
        error := SendFailed;
      }
      thinking := false;
    }

    /** `handleSendMessage(content, image)`: the chat hook's `sendMessage`,
        with its error turned into the fixed message. */
    method HandleSendMessage(content: string, image: Option<Attachment>, nowUser: int, nowAssistant: int,
                             server: Payload -> HttpReply, parse: Parser, f: SendFaults)
      requires Valid()
      modifies this, chat, chat.store
      ensures Valid()
      ensures var o := Send(old(chat.store.Current()), chat.userId, old(chat.currentChatId), content, AsImage(image),
                            nowUser, nowAssistant, ReplyFor(old(chat.messages), content, AsImage(image), server, parse), f);
              && chat.store.Current() == o.state && chat.currentChatId == o.chatId
              && chat.store.log == old(chat.store.log) + o.writes
              && error == (if o.result.Failure? then SendFailed else "")
      ensures !thinking && mode == old(mode) && sidebarOpen == old(sidebarOpen)
    {
      StartSend();
      var r := chat.SendMessage(content, AsImage(image), nowUser, nowAssistant, server, parse, f);
      FinishSend(r);
    }

    /** `handleNewChat` throws at its first call, so nothing changes. */
    method HandleNewChat() returns (thrown: Result<()>)
      ensures thrown == Failure(NotAFunction("clearCurrentChat"))
    {
      thrown := Failure(NotAFunction("clearCurrentChat"));
    }

    method HandleStarredChatsClick()
      modifies this
      ensures !sidebarOpen && mode == StarredView
      ensures thinking == old(thinking) && error == old(error)
    {
      sidebarOpen := false;
      mode := StarredView;
    }

    method HandleBackFromStarred()
      modifies this
      ensures mode == HomeView
      ensures sidebarOpen == old(sidebarOpen) && thinking == old(thinking) && error == old(error)
    {
      mode := HomeView;
    }

    /** The sidebar's `onToggle`. */
    method ToggleSidebar()
      modifies this
      ensures sidebarOpen == !old(sidebarOpen)
      ensures mode == old(mode) && thinking == old(thinking) && error == old(error)
    {
      sidebarOpen := !sidebarOpen;
    }

    /** `handleSelectChat(chat)`: the conversation becomes current, then the
        `switchChat` call throws, before the sidebar or the mode change. */
    method HandleSelectChat(c: Conversation) returns (thrown: Result<()>)
      modifies list
      ensures list.currentChat == Some(c)
      ensures list.userChats == old(list.userChats) && list.loading == old(list.loading)
      ensures thrown == Failure(NotAFunction("switchChat"))
    {
      list.SelectChat(Some(c));
      thrown := Failure(NotAFunction("switchChat"));
    }

    /** The effect on `currentChat`. */
    method OnCurrentChatChanged()
      modifies this
      ensures mode == AfterCurrentChat(old(mode), list.currentChat)
      ensures sidebarOpen == old(sidebarOpen) && thinking == old(thinking) && error == old(error)
    {
      if list.currentChat.Some? {
        mode := ChatView;
      }
    }

    method RenderContent() returns (screen: Screen)
      modifies this
      ensures Frame(mode, screen) == Render(old(mode), list.currentChat)
      ensures sidebarOpen == old(sidebarOpen) && thinking == old(thinking) && error == old(error)
    {
      match mode
      case StarredView =>
        screen := StarredScreen;
      case ChatView =>
        if list.currentChat.None? {
          mode := HomeView;
          screen := Blank;
        } else {
          screen := ChatScreen;
        }
      case HomeView =>
        screen := HomeScreen;
    }

    /** `handleStartNewChat`: a conversation titled "New Chat" is created and
        looked up in the list as it was rendered. A found one becomes
        current and the `switchChat` call then throws inside the `try`, so
        the error is set as for a failed creation; the mode itself is never
        set here. A list taken from the store never holds the new id, so
        then nothing becomes current. */
    method HandleStartNewChat(fault: Fault)
      requires Valid()
      modifies this, list, list.store
      ensures Valid()
      ensures var o := CreateFor(list.userId, old(list.store.Current()), DefaultTitle, fault);
              var found := Found(old(list.userChats), o.result);
              && list.store.Current() == o.state
              && list.currentChat == (if found.Some? then found else old(list.currentChat))
              && error == (if o.result.Failure? || found.Some? then CreateFailed else old(error))
      ensures (forall i :: 0 <= i < |old(list.userChats)| ==> old(list.userChats)[i].id < old(list.store.nextId)) ==>
                list.currentChat == old(list.currentChat)
      ensures list.userChats == old(list.userChats)
      ensures mode == old(mode) && sidebarOpen == old(sidebarOpen) && thinking == old(thinking)
    {
      ghost var before := list.store.Current();
      ghost var listed := list.userChats;
      if forall i :: 0 <= i < |listed| ==> listed[i].id < before.nextId {
        NewChatUnlisted(list.userId, before, DefaultTitle, fault, listed);
      }
      var created := list.CreateNewChat(DefaultTitle, fault);
      if created.Failure? {
        error := CreateFailed;
        return;
      }
      var found := None;
      if created.value.Some? {
        found := Lookup(list.userChats, created.value.value);
      }
      if found.Some? {
        list.SelectChat(found);
        error := CreateFailed;
      }
    }
  }
}
