/** The `useChat` hook: the open conversation's messages, kept up to date by
    a subscription, and `sendMessage`, which creates the conversation on the
    first message, appends the user's message, waits for the whole reply
    and appends one assistant message. `new Date()` is a parameter; the
    store replaces it with its own timestamp. */
module UseChat {
  import opened Common
  import opened Records
  import opened Firebase
  import opened MessageService

  /** The title `sendMessage` gives a conversation it creates. */
  const NewChatTitle: string := "New Chat"

  /** Which of the store writes `sendMessage` may make are refused. */
  datatype SendFaults = SendFaults(create: Fault, user: AddFault, assistant: AddFault)

  /** The store after a call, the hook's chat id, whether the call resolved
      or threw, and the store writes it made in order. */
  datatype SendOutcome = SendOutcome(state: State, chatId: Option<Id>, result: Result<()>, writes: seq<Write>)

  /** `sendMessage` returns at once, without writing, when nobody is signed
      in or the text is blank, whatever image comes with it. */
  predicate Ignored(userId: Option<string>, content: string) {
    !TruthyText(userId) || IsBlank(content)
  }

  /** The user's message: the text as typed, untrimmed, and `{url, type}`
      of the image when there is one. */
  function UserMessage(content: string, image: Option<Image>, now: int): Message {
    Message("user", content, image, None, now)
  }

  /** The assistant's message: the reply's content, and its thinking only
      when that is a non-empty string. */
  function AssistantMessage(reply: Reply, now: int): Message {
    Message("assistant", reply.Content(), None, if TruthyText(reply.Thinking()) then reply.Thinking() else None, now)
  }

  /** The part of `sendMessage` after the chat id is known: append the user
      message, take the reply, append the assistant message. The first
      error is rethrown. */
  function Exchange(s: State, chatId: Id, content: string, image: Option<Image>,
                    nowUser: int, nowAssistant: int, reply: Result<Reply>, f: SendFaults): SendOutcome
  {
    var um := UserMessage(content, image, nowUser);
    var u := Add(s, chatId, um, f.user);
    var w := AddWrites(s, chatId, um, f.user);
    if u.result.Failure? then SendOutcome(u.state, Some(chatId), Failure(u.result.error), w)
    else
      match reply
      case Failure(e) => SendOutcome(u.state, Some(chatId), Failure(e), w)
      case Success(rp) =>
        var am := AssistantMessage(rp, nowAssistant);
        var a := Add(u.state, chatId, am, f.assistant);
        SendOutcome(a.state, Some(chatId), a.result, w + AddWrites(u.state, chatId, am, f.assistant))
  }

  /** The chat id `sendMessage` works on: the hook's own, or a new
      conversation titled `New Chat` when it has none. */
  function ChatFor(s: State, current: Option<Id>, create: Fault): Outcome<Id> {
    if current.Some? then Outcome(s, Success(current.value)) else Create(s, NewChatTitle, create)
  }

  /** The writes made while the chat id is found. */
  function CreationWrites(current: Option<Id>, c: Id): seq<Write> {
    if current.Some? then [] else [CreatedChat(c)]
  }

  /** What `sendMessage` does once the chat id is found, or has failed to
      be: rethrow the failure, or run the exchange on that conversation. */
  function Continue(c: Outcome<Id>, current: Option<Id>, content: string, image: Option<Image>,
                    nowUser: int, nowAssistant: int, reply: Result<Reply>, f: SendFaults): SendOutcome
  {
    if c.result.Failure? then SendOutcome(c.state, current, Failure(c.result.error), [])
    else
      var x := Exchange(c.state, c.result.value, content, image, nowUser, nowAssistant, reply, f);
      x.(writes := CreationWrites(current, c.result.value) + x.writes)
  }

  /** `sendMessage(content, image)` from store contents `s` and the hook's
      chat id `current`; `reply` is what `sendMessageToClaud` gives for the
      hook's `messages` state at call time. */
  function Send(s: State, userId: Option<string>, current: Option<Id>, content: string, image: Option<Image>,
                nowUser: int, nowAssistant: int, reply: Result<Reply>, f: SendFaults): SendOutcome
  {
    if Ignored(userId, content) then SendOutcome(s, current, Success(()), [])
    else Continue(ChatFor(s, current, f.create), current, content, image, nowUser, nowAssistant, reply, f)
  }

  /** Every store write `sendMessage` can make on conversation `c`, in their
      order: the conversation (only when there was none), the user message
      and its preview update, the assistant message and its preview update. */
  function Planned(created: bool, c: Id): seq<Write> {
    (if created then [CreatedChat(c)] else [])
    + [AppendedMessage(c, "user"), UpdatedPreview(c), AppendedMessage(c, "assistant"), UpdatedPreview(c)]
  }

  predicate IsPrefix(a: seq<Write>, b: seq<Write>) {
    |a| <= |b| && a == b[..|a|]
  }

  /** A blank text, or nobody signed in: nothing is created or written and
      the call resolves, whatever image comes with it. */
  lemma IgnoredChangesNothing(s: State, userId: Option<string>, current: Option<Id>, content: string,
                               image: Option<Image>, nowUser: int, nowAssistant: int, reply: Result<Reply>, f: SendFaults)
    requires !TruthyText(userId) || AllSpace(content)
    ensures Send(s, userId, current, content, image, nowUser, nowAssistant, reply, f)
            == SendOutcome(s, current, Success(()), [])
  {
    BlankIffAllSpace(content);
  }

  /** After the chat id is known, the writes follow the plan and stop at the
      first failure; the assistant message is written only after the user
      message and the reply both succeeded. */
  lemma ExchangeWrites(s: State, chatId: Id, content: string, image: Option<Image>,
                       nowUser: int, nowAssistant: int, reply: Result<Reply>, f: SendFaults)
    ensures var x := Exchange(s, chatId, content, image, nowUser, nowAssistant, reply, f);
            && x.chatId == Some(chatId)
            && IsPrefix(x.writes, Planned(false, chatId))
            && (AppendedMessage(chatId, "assistant") in x.writes ==>
                  Add(s, chatId, UserMessage(content, image, nowUser), f.user).result.Success? && reply.Success?)
  {
    var um := UserMessage(content, image, nowUser);
    var u := Add(s, chatId, um, f.user);
    var w := AddWrites(s, chatId, um, f.user);
    var p := Planned(false, chatId);
    assert IsPrefix(w, p);
    assert AppendedMessage(chatId, "assistant") !in w;
    if u.result.Success? && reply.Success? {
      var am := AssistantMessage(reply.value, nowAssistant);
      assert w == p[..2];
      var w2 := AddWrites(u.state, chatId, am, f.assistant);
      assert w + w2 == p[..2 + |w2|];
    }
  }

  /** With a chat id, no conversation is created and the id is kept. */
  lemma SendWithChat(s: State, userId: Option<string>, current: Option<Id>, content: string, image: Option<Image>,
                     nowUser: int, nowAssistant: int, reply: Result<Reply>, f: SendFaults)
    requires current.Some?
    ensures var o := Send(s, userId, current, content, image, nowUser, nowAssistant, reply, f);
            o.chatId == current && IsPrefix(o.writes, Planned(false, current.value))
  {
    if !Ignored(userId, content) {
      ExchangeWrites(s, current.value, content, image, nowUser, nowAssistant, reply, f);
    }
  }

  /** The exchange keeps every conversation and its title. */
  lemma ExchangeKeepsTitle(s: State, chatId: Id, content: string, image: Option<Image>,
                           nowUser: int, nowAssistant: int, reply: Result<Reply>, f: SendFaults, id: Id)
    requires Lookup(s.chats, id).Some?
    ensures var x := Exchange(s, chatId, content, image, nowUser, nowAssistant, reply, f);
            && Lookup(x.state.chats, id).Some?
            && Lookup(x.state.chats, id).value.title == Lookup(s.chats, id).value.title
  {
    var um := UserMessage(content, image, nowUser);
    var u := Add(s, chatId, um, f.user);
    AddKeepsTitle(s, chatId, um, f.user, id);
    if u.result.Success? && reply.Success? {
      AddKeepsTitle(u.state, chatId, AssistantMessage(reply.value, nowAssistant), f.assistant, id);
    }
  }

  /** Without a chat id, a conversation titled `New Chat` is created once,
      first of all the writes, and its id becomes the hook's chat id; when
      the hook ends up without an id, nothing was written. */
  lemma SendCreating(s: State, userId: Option<string>, content: string, image: Option<Image>,
                     nowUser: int, nowAssistant: int, reply: Result<Reply>, f: SendFaults)
    ensures var o := Send(s, userId, None, content, image, nowUser, nowAssistant, reply, f);
            && (o.chatId.Some? ==>
                  && !Ignored(userId, content) && f.create.Succeeds? && o.chatId == Some(s.nextId)
                  && IsPrefix(o.writes, Planned(true, s.nextId)))
            && (o.chatId.None? ==> o.writes == [] && o.state == s)
            && (o.chatId.Some? ==>
                  Lookup(o.state.chats, s.nextId).Some? && Lookup(o.state.chats, s.nextId).value.title == NewChatTitle)
  {
    if !Ignored(userId, content) && f.create.Succeeds? {
      var c := Create(s, NewChatTitle, f.create);
      assert Lookup(c.state.chats, s.nextId).Some? && Lookup(c.state.chats, s.nextId).value.title == NewChatTitle;
      ExchangeKeepsTitle(c.state, s.nextId, content, image, nowUser, nowAssistant, reply, f, s.nextId);
      ExchangeWrites(c.state, s.nextId, content, image, nowUser, nowAssistant, reply, f);
      var x := Exchange(c.state, s.nextId, content, image, nowUser, nowAssistant, reply, f);
      var p := Planned(false, s.nextId);
      assert Planned(true, s.nextId) == [CreatedChat(s.nextId)] + p;
      assert [CreatedChat(s.nextId)] + x.writes == Planned(true, s.nextId)[..1 + |x.writes|];
    }
  }

  /** A refused `createChat` is rethrown with nothing written. */
  lemma SendCreateRethrown(s: State, userId: Option<string>, content: string, image: Option<Image>,
                           nowUser: int, nowAssistant: int, reply: Result<Reply>, f: SendFaults)
    requires !Ignored(userId, content) && f.create.Fails?
    ensures Send(s, userId, None, content, image, nowUser, nowAssistant, reply, f)
            == SendOutcome(s, None, Failure(f.create.message), [])
  {
  }

  /** A refused write of the user message is rethrown, and no assistant
      message is written after it. */
  lemma ExchangeUserRethrown(s: State, chatId: Id, content: string, image: Option<Image>,
                             nowUser: int, nowAssistant: int, reply: Result<Reply>, f: SendFaults)
    requires f.user.MessageWriteFails? || f.user.UpdateFails?
    ensures var x := Exchange(s, chatId, content, image, nowUser, nowAssistant, reply, f);
            && x.result == Failure(f.user.message)
            && forall c :: AppendedMessage(c, "assistant") !in x.writes
  {
    var w := AddWrites(s, chatId, UserMessage(content, image, nowUser), f.user);
    assert forall x :: AppendedMessage(x, "assistant") !in w;
  }

  /** A failed reply is rethrown after the user message was written, and no
      assistant message is written. */
  lemma ExchangeReplyRethrown(s: State, chatId: Id, content: string, image: Option<Image>,
                              nowUser: int, nowAssistant: int, reply: Result<Reply>, f: SendFaults)
    requires Add(s, chatId, UserMessage(content, image, nowUser), f.user).result.Success? && reply.Failure?
    ensures var x := Exchange(s, chatId, content, image, nowUser, nowAssistant, reply, f);
            && x.result == Failure(reply.error)
            && x.state == Add(s, chatId, UserMessage(content, image, nowUser), f.user).state
            && forall c :: AppendedMessage(c, "assistant") !in x.writes
  {
    var w := AddWrites(s, chatId, UserMessage(content, image, nowUser), f.user);
    assert forall x :: AppendedMessage(x, "assistant") !in w;
  }

  /** Both writes of `addMessage` succeed on an existing conversation: the
      stamped message ends its list, and the conversation still exists. */
  lemma AddAppendsOne(s: State, chatId: Id, m: Message)
    requires Sound(s) && Lookup(s.chats, chatId).Some?
    ensures var o := Add(s, chatId, m, AddSucceeds);
            && o.result == Success(()) && Sound(o.state) && Lookup(o.state.chats, chatId).Some?
            && History(o.state.messages, chatId) == History(s.messages, chatId) + [Stamped(m, s.nextId, s.clock + 1)]
            && o.state.nextId == s.nextId + 1 && o.state.clock == s.clock + 2
            && AddWrites(s, chatId, m, AddSucceeds) == [AppendedMessage(chatId, m.role), UpdatedPreview(chatId)]
  {
    AddSound(s, chatId, m, AddSucceeds);
    var o := Add(s, chatId, m, AddSucceeds);
    assert o.state.chats[0].id == chatId;
  }

  /** When every write and the reply succeed, the conversation gains exactly
      two messages: the user's (role `user`, the text untrimmed, the image
      iff one was given) and then the assistant's, holding the reply's
      content, and its thinking iff that is a non-empty string. */
  lemma ExchangeAppendsTwo(s: State, chatId: Id, content: string, image: Option<Image>,
                           nowUser: int, nowAssistant: int, reply: Reply)
    requires Sound(s) && Lookup(s.chats, chatId).Some?
    ensures var f := SendFaults(Succeeds, AddSucceeds, AddSucceeds);
            var x := Exchange(s, chatId, content, image, nowUser, nowAssistant, Success(reply), f);
            var user := Stamped(UserMessage(content, image, nowUser), s.nextId, s.clock + 1);
            var assistant := Stamped(AssistantMessage(reply, nowAssistant), s.nextId + 1, s.clock + 3);
            && x.result == Success(()) && x.writes == Planned(false, chatId)
            && History(x.state.messages, chatId) == History(s.messages, chatId) + [user, assistant]
            && user.role == "user" && user.content == content && user.image == image
            && assistant.role == "assistant" && assistant.content == reply.Content()
            && (assistant.thinking.Some? <==> TruthyText(reply.Thinking()))
  {
    var um := UserMessage(content, image, nowUser);
    AddAppendsOne(s, chatId, um);
    var u := Add(s, chatId, um, AddSucceeds);
    var am := AssistantMessage(reply, nowAssistant);
    AddAppendsOne(u.state, chatId, am);
    var user := Stamped(um, s.nextId, s.clock + 1);
    var assistant := Stamped(am, s.nextId + 1, s.clock + 3);
    assert History(s.messages, chatId) + [user] + [assistant] == History(s.messages, chatId) + [user, assistant];
  }

  lemma Associative(a: seq<Write>, b: seq<Write>, c: seq<Write>)
    ensures (a + b) + c == a + (b + c)
  {
  }

  /** The `useChat` hook's state over the signed-in user's store. */
  class ChatHook {
    const userId: Option<string>
    const store: Store
    var messages: seq<MessageRecord>
    var loading: bool
    var currentChatId: Option<Id>
    /** The conversation whose messages the hook is subscribed to. */
    var subscription: Option<Id>

    ghost predicate Valid()
      reads this, store
    {
      store.Valid() && OldestFirst(messages)
    }

    constructor (userId: Option<string>, store: Store)
      requires store.Valid()
      ensures Valid() && this.userId == userId && this.store == store
      ensures messages == [] && !loading && currentChatId == None && subscription == None
    {
      this.userId := userId;
      this.store := store;
      messages, loading, currentChatId, subscription := [], false, None, None;
    }

    /** The effect on `[userId, currentChatId]`: the previous subscription is
        dropped; a new one, which sets loading, exists only when both are
        set. */
    method SyncSubscription()
      modifies this
      ensures subscription == (if TruthyText(userId) && currentChatId.Some? then currentChatId else None)
      ensures loading == (subscription.Some? || old(loading))
      ensures messages == old(messages) && currentChatId == old(currentChatId)
    {
      subscription := None;
      if !TruthyText(userId) || currentChatId.None? {
        return;
      }
      loading := true;
      subscription := currentChatId;
    }

    /** A `subscribeToChat` snapshot: the messages are replaced wholesale and
        loading is cleared. Without a subscription nothing arrives. */
    method OnSnapshot()
      requires Valid()
      modifies this
      ensures Valid()
      ensures subscription.Some? ==> messages == History(store.messages, subscription.value) && !loading
      ensures subscription.None? ==> messages == old(messages) && loading == old(loading)
      ensures subscription == old(subscription) && currentChatId == old(currentChatId)
    {
      if subscription.Some? {
        messages := store.ChatSnapshot(subscription.value);
        loading := false;
      }
    }

    /** `sendMessage` once the chat id is known: append the user message,
        wait for the whole reply to the `messages` the hook holds, append
        one assistant message; the first error is rethrown. */
    method Converse(chatId: Id, content: string, image: Option<Image>, nowUser: int, nowAssistant: int,
                    server: Payload -> HttpReply, parse: Parser, f: SendFaults)
      returns (r: Result<()>)
      requires store.Valid()
      modifies store
      ensures store.Valid()
      ensures var x := Exchange(old(store.Current()), chatId, content, image, nowUser, nowAssistant,
                                ReplyFor(messages, content, image, server, parse), f);
              store.Current() == x.state && r == x.result && store.log == old(store.log) + x.writes
    {
      ghost var s1, log1 := store.Current(), store.log;
      var userMessage := UserMessage(content, image, nowUser);
      var added := store.AddMessage(chatId, userMessage, f.user);
      ghost var w1 := AddWrites(s1, chatId, userMessage, f.user);
      if added.Failure? {
        return Failure(added.error);
      }
      var response := SendMessageToClaude(messages, content, image, server, parse);
      if response.Failure? {
        return Failure(response.error);
      }
      ghost var s2, log2 := store.Current(), store.log;
      assert log2 == log1 + w1;
      var assistantMessage := AssistantMessage(response.value, nowAssistant);
      r := store.AddMessage(chatId, assistantMessage, f.assistant);
      ghost var w2 := AddWrites(s2, chatId, assistantMessage, f.assistant);
      assert store.log == log2 + w2;
      Associative(log1, w1, w2);
    }

    /** The chat id `sendMessage` works on; a conversation it creates
        becomes the hook's chat id. */
    method OpenChat(create: Fault) returns (r: Result<Id>)
      requires store.Valid()
      modifies this, store
      ensures store.Valid()
      ensures Outcome(store.Current(), r) == ChatFor(old(store.Current()), old(currentChatId), create)
      ensures store.log == old(store.log) + (if r.Success? then CreationWrites(old(currentChatId), r.value) else [])
      ensures currentChatId == (if r.Success? then Some(r.value) else old(currentChatId))
      ensures messages == old(messages) && loading == old(loading) && subscription == old(subscription)
    {
      if currentChatId.Some? {
        return Success(currentChatId.value);
      }
      r := store.CreateChat(NewChatTitle, create);
      if r.Success? {
        currentChatId := Some(r.value);
      }
    }

    /** The `try` block of `sendMessage`: find or create the chat id, then
        run the exchange on it; the first error is rethrown. */
    method Deliver(content: string, image: Option<Image>, nowUser: int, nowAssistant: int,
                   server: Payload -> HttpReply, parse: Parser, f: SendFaults)
      returns (r: Result<()>)
      requires Valid()
      modifies this, store
      ensures Valid()
      ensures var o := Continue(ChatFor(old(store.Current()), old(currentChatId), f.create), old(currentChatId),
                                content, image, nowUser, nowAssistant, ReplyFor(old(messages), content, image, server, parse), f);
              && store.Current() == o.state && currentChatId == o.chatId && r == o.result
              && store.log == old(store.log) + o.writes
      ensures messages == old(messages) && loading == old(loading) && subscription == old(subscription)
    {
      ghost var log0 := store.log;
      var chat := OpenChat(f.create);
      if chat.Failure? {
        return Failure(chat.error);
      }
      ghost var mid, logMid := store.Current(), store.log;
      ghost var created := CreationWrites(old(currentChatId), chat.value);
      assert logMid == log0 + created;
      r := Converse(chat.value, content, image, nowUser, nowAssistant, server, parse, f);
      ghost var x := Exchange(mid, chat.value, content, image, nowUser, nowAssistant,
                              ReplyFor(messages, content, image, server, parse), f);
      assert store.log == logMid + x.writes;
      Associative(log0, created, x.writes);
    }

    /** `sendMessage(content, image)`: nothing at all when nobody is signed in
        or the text is blank, otherwise the `try` block. */
    method SendMessage(content: string, image: Option<Image>, nowUser: int, nowAssistant: int,
                       server: Payload -> HttpReply, parse: Parser, f: SendFaults)
      returns (r: Result<()>)
      requires Valid()
      modifies this, store
      ensures Valid()
      ensures var o := Send(old(store.Current()), userId, old(currentChatId), content, image, nowUser, nowAssistant,
                            ReplyFor(old(messages), content, image, server, parse), f);
              && store.Current() == o.state && currentChatId == o.chatId && r == o.result
              && store.log == old(store.log) + o.writes
      ensures messages == old(messages) && loading == old(loading) && subscription == old(subscription)
    {
      if !TruthyText(userId) || IsBlank(content) {
        return Success(());
      }
      r := Deliver(content, image, nowUser, nowAssistant, server, parse, f);
    }
  }
}
