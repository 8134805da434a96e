/** The `useFirestore` hook: the signed-in user's conversation list, kept up
    to date by a subscription, the current conversation, and the actions to
    create and select one. */
module UseFirestore {
  import opened Common
  import opened Records
  import opened Firebase

  /** `createNewChat`'s default title. */
  const DefaultTitle: string := "New Chat"

  /** The conversation current after a list snapshot: the one already
      current, else the first (most recently updated) of a non-empty list. */
  function SelectedAfter(current: Option<Conversation>, chats: seq<Conversation>): (r: Option<Conversation>)
    ensures current.Some? ==> r == current
    ensures current.None? ==> (r.Some? <==> |chats| > 0)
    ensures r.Some? ==> r == current || r.value == chats[0]
  {
    if current.None? && |chats| > 0 then Some(chats[0]) else current
  }

  /** A snapshot never replaces a current conversation; with none current it
      picks the most recently updated one of the list, and with an empty list
      it leaves none current. */
  lemma SnapshotSelection(current: Option<Conversation>, chats: seq<Conversation>)
    requires NewestFirst(chats)
    ensures current.Some? ==> SelectedAfter(current, chats) == current
    ensures current.None? && chats == [] ==> SelectedAfter(current, chats) == None
    ensures current.None? && chats != [] ==>
              && SelectedAfter(current, chats) == Some(chats[0])
              && forall i :: 0 <= i < |chats| ==> chats[i].updatedAt <= chats[0].updatedAt
  {
  }

  /** `createNewChat` on the store: no write and no id without a signed-in
      user, else `createChat` with its id or its error passed through. */
  function CreateFor(userId: Option<string>, s: State, title: string, fault: Fault): (o: Outcome<Option<Id>>)
    ensures !TruthyText(userId) ==> o == Outcome(s, Success(None))
    ensures TruthyText(userId) ==> o.state == Create(s, title, fault).state
    ensures TruthyText(userId) && o.result.Success? ==>
              Create(s, title, fault).result.Success? && o.result.value == Some(Create(s, title, fault).result.value)
    ensures TruthyText(userId) && o.result.Failure? ==> Create(s, title, fault).result.Failure?
  {
    if !TruthyText(userId) then Outcome(s, Success(None))
    else
      var c := Create(s, title, fault);
      Outcome(c.state, if c.result.Success? then Success(Some(c.result.value)) else Failure(c.result.error))
  }

  /** Signed in, the created id is the store's next one and is listed first,
      and a refused write leaves the store as it was. */
  lemma CreateForSound(userId: Option<string>, s: State, title: string, fault: Fault)
    requires Sound(s) && TruthyText(userId)
    ensures var o := CreateFor(userId, s, title, fault);
            && Sound(o.state)
            && (fault.Succeeds? <==> o.result.Success?)
            && (o.result.Success? ==> o.result.value == Some(s.nextId) && o.state.chats[0].id == s.nextId)
            && (o.result.Failure? ==> o.state == s && o.result.error == fault.message)
  {
    CreateSound(s, title, fault);
  }

  class ChatListHook {
    const userId: Option<string>
    const store: Store
    var userChats: seq<Conversation>
    var currentChat: Option<Conversation>
    var loading: bool
    /** Whether `subscribeToUserChats` is active. */
    var subscribed: bool

    constructor (userId: Option<string>, store: Store)
      ensures this.userId == userId && this.store == store
      ensures userChats == [] && currentChat == None && loading && !subscribed
    {
      this.userId := userId;
      this.store := store;
      userChats, currentChat, loading, subscribed := [], None, true, false;
    }

    /** The effect on `[userId, currentChat]`: a subscription exists exactly
        when a user is signed in. */
    method SyncSubscription()
      modifies this
      ensures subscribed == TruthyText(userId)
      ensures userChats == old(userChats) && currentChat == old(currentChat) && loading == old(loading)
    {
      subscribed := TruthyText(userId);
    }

    /** A `subscribeToUserChats` snapshot: the list is replaced wholesale, a
        conversation is selected if none is current, and loading ends.
        Without a subscription nothing arrives. */
    method OnChatsSnapshot()
      requires store.Valid()
      modifies this
      ensures subscribed ==>
                && userChats == store.chats && NewestFirst(userChats)
                && currentChat == SelectedAfter(old(currentChat), store.chats) && !loading
      ensures !subscribed ==> userChats == old(userChats) && currentChat == old(currentChat) && loading == old(loading)
      ensures subscribed == old(subscribed)
    {
      if !subscribed {
        return;
      }
      var chats := store.ChatsSnapshot();
      userChats := chats;
      if currentChat.None? && |chats| > 0 {
        currentChat := Some(chats[0]);
      }
      loading := false;
    }

    /** `createNewChat(title)`: nothing without a signed-in user; otherwise
        the id `createChat` resolves to, or its error rethrown. */
    method CreateNewChat(title: string, fault: Fault) returns (r: Result<Option<Id>>)
      requires store.Valid()
      modifies store
      ensures store.Valid()
      ensures Outcome(store.Current(), r) == CreateFor(userId, old(store.Current()), title, fault)
      ensures store.log == old(store.log) + (if r.Success? && r.value.Some? then [CreatedChat(r.value.value)] else [])
    {
      if !TruthyText(userId) {
        return Success(None);
      }
      var created := store.CreateChat(title, fault);
      if created.Failure? {
        return Failure(created.error);
      }
      r := Success(Some(created.value));
    }

    /** `selectChat(chat)`: the current conversation becomes exactly the
        argument. */
    method SelectChat(chat: Option<Conversation>)
      modifies this
      ensures currentChat == chat
      ensures userChats == old(userChats) && loading == old(loading) && subscribed == old(subscribed)
    {
      currentChat := chat;
    }
  }
}
