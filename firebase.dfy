/** The Firestore operations on one user's subtree `chats/{userId}`: the
    `conversations` collection and each conversation's `messages`
    sub-collection. Document ids come from a counter and
    `serverTimestamp()` from a clock that advances on every write, so the
    store's orderings have no ties. A write that the service refuses is
    modelled by a `fault` argument. */
module Firebase {
  import opened Common
  import opened Records

  /** Whether a single-document write is refused, and with what message. */
  datatype Fault = Succeeds | Fails(message: string)

  /** `addMessage` makes two writes: the message document, then the update
      of the conversation. Either can be refused. */
  datatype AddFault = AddSucceeds | MessageWriteFails(message: string) | UpdateFails(message: string)

  /** The writes made, in order; the proof's record of the store's history. */
  datatype Write = CreatedChat(id: Id) | AppendedMessage(chatId: Id, role: string) | UpdatedPreview(chatId: Id) | DeletedChat(id: Id)

  /** Firestore's refusal of `updateDoc` on a document that does not exist. */
  const NoDocument: string := "No document to update"

  /** The conversation with the given id, if any. */
  function Lookup(cs: seq<Conversation>, id: Id): (r: Option<Conversation>)
    ensures r.Some? ==> r.value.id == id && r.value in cs
    ensures r.None? ==> forall i :: 0 <= i < |cs| ==> cs[i].id != id
  {
    if cs == [] then None else if cs[0].id == id then Some(cs[0]) else Lookup(cs[1..], id)
  }

  /** The conversations without the one with the given id, in their order. */
  function Without(cs: seq<Conversation>, id: Id): (r: seq<Conversation>)
    ensures |r| <= |cs|
    ensures forall i :: 0 <= i < |r| ==> r[i] in cs && r[i].id != id
  {
    if cs == [] then [] else if cs[0].id == id then Without(cs[1..], id) else [cs[0]] + Without(cs[1..], id)
  }

  /** `Without` removes the conversation with that id and keeps every other. */
  lemma {:induction false} WithoutMembers(cs: seq<Conversation>, id: Id, c: Conversation)
    ensures c in Without(cs, id) <==> c in cs && c.id != id
  {
    if cs != [] {
      WithoutMembers(cs[1..], id, c);
      assert c in cs <==> c == cs[0] || c in cs[1..];
    }
  }

  /** Removing one conversation does not change what is found under another
      id. */
  lemma {:induction false} LookupWithout(cs: seq<Conversation>, x: Id, id: Id)
    requires id != x
    ensures Lookup(Without(cs, x), id) == Lookup(cs, id)
  {
    if cs != [] {
      LookupWithout(cs[1..], x, id);
      if cs[0].id != x {
        assert ([cs[0]] + Without(cs[1..], x))[1..] == Without(cs[1..], x);
      }
    }
  }

  /** `addMessage` never removes a conversation and never changes a title:
      it only rewrites the preview and the time. */
  lemma AddKeepsTitle(s: State, chatId: Id, m: Message, fault: AddFault, id: Id)
    requires Lookup(s.chats, id).Some?
    ensures var o := Add(s, chatId, m, fault);
            && Lookup(o.state.chats, id).Some?
            && Lookup(o.state.chats, id).value.title == Lookup(s.chats, id).value.title
  {
    if fault.AddSucceeds? && id != chatId {
      var a := Append(s, chatId, m);
      if Lookup(a.chats, chatId).Some? {
        var c := Lookup(a.chats, chatId).value;
        var updated := c.(lastMessage := Some(m.content), updatedAt := a.clock + 1);
        LookupWithout(a.chats, chatId, id);
        assert ([updated] + Without(a.chats, chatId))[1..] == Without(a.chats, chatId);
      }
    }
  }

  /** Every conversation is older than `t` and has another id than `x`. */
  predicate Below(cs: seq<Conversation>, t: int, x: Id) {
    forall i :: 0 <= i < |cs| ==> cs[i].updatedAt < t && cs[i].id != x
  }

  lemma {:induction false} WithoutBelow(cs: seq<Conversation>, id: Id, t: int, x: Id)
    requires Below(cs, t, x)
    ensures Below(Without(cs, id), t, x)
  {
    if cs != [] {
      WithoutBelow(cs[1..], id, t, x);
    }
  }

  /** A conversation newer than, and distinct from, every other may head them. */
  lemma ConsOrdered(c: Conversation, w: seq<Conversation>)
    requires NewestFirst(w) && DistinctIds(w) && Below(w, c.updatedAt, c.id)
    ensures NewestFirst([c] + w) && DistinctIds([c] + w)
  {
    var r := [c] + w;
    assert forall i :: 1 <= i < |r| ==> r[i] == w[i - 1];
  }

  /** Dropping conversations keeps the order newest first. */
  lemma {:induction false} WithoutKeepsOrder(cs: seq<Conversation>, id: Id)
    requires NewestFirst(cs) && DistinctIds(cs)
    ensures NewestFirst(Without(cs, id)) && DistinctIds(Without(cs, id))
  {
    if cs != [] {
      var rest := cs[1..];
      assert NewestFirst(rest) && DistinctIds(rest) && Below(rest, cs[0].updatedAt, cs[0].id) by {
        assert forall i :: 0 <= i < |rest| ==> rest[i] == cs[i + 1];
      }
      WithoutKeepsOrder(rest, id);
      if cs[0].id != id {
        WithoutBelow(rest, id, cs[0].updatedAt, cs[0].id);
        ConsOrdered(cs[0], Without(rest, id));
      }
    }
  }

  /** The subtree's contents: the conversations as `orderBy('updatedAt',
      'desc')` lists them, each conversation's messages as
      `orderBy('timestamp', 'asc')` lists them, the server clock and the
      document-id counter. */
  datatype State = State(chats: seq<Conversation>, messages: map<Id, seq<MessageRecord>>, clock: nat, nextId: nat)

  /** The new contents after an operation, and what the operation returns or
      throws. */
  datatype Outcome<T> = Outcome(state: State, result: Result<T>)

  /** What the store keeps true: conversations are listed newest first with
      distinct ids, every message list is oldest first, and no timestamp or
      id lies ahead of the clock or the counter. */
  ghost predicate Sound(s: State) {
    ChatsSound(s.chats, s.clock, s.nextId) && MessagesSound(s.messages, s.clock, s.nextId)
  }

  ghost predicate ChatsSound(chats: seq<Conversation>, clock: nat, nextId: nat) {
    && NewestFirst(chats) && DistinctIds(chats)
    && (forall i :: 0 <= i < |chats| ==> chats[i].createdAt <= chats[i].updatedAt <= clock && chats[i].id < nextId)
  }

  ghost predicate MessagesSound(messages: map<Id, seq<MessageRecord>>, clock: nat, nextId: nat) {
    && (forall id :: id in messages ==> OldestFirst(messages[id]))
    && (forall id, i :: id in messages && 0 <= i < |messages[id]| ==>
          messages[id][i].timestamp <= clock && messages[id][i].id < nextId)
  }

  lemma ChatsLater(chats: seq<Conversation>, clock: nat, nextId: nat, clock': nat, nextId': nat)
    requires ChatsSound(chats, clock, nextId) && clock <= clock' && nextId <= nextId'
    ensures ChatsSound(chats, clock', nextId')
  {
  }

  lemma MessagesLater(messages: map<Id, seq<MessageRecord>>, clock: nat, nextId: nat, clock': nat, nextId': nat)
    requires MessagesSound(messages, clock, nextId) && clock <= clock' && nextId <= nextId'
    ensures MessagesSound(messages, clock', nextId')
  {
  }

  /** The message list of a conversation (empty when it has none). */
  function History(messages: map<Id, seq<MessageRecord>>, chatId: Id): seq<MessageRecord> {
    if chatId in messages then messages[chatId] else []
  }

  /** `createChat`: one `addDoc` whose `createdAt` and `updatedAt` are the
      same server timestamp; resolves to the new document's id. */
  function Create(s: State, title: string, fault: Fault): Outcome<Id> {
    if fault.Fails? then Outcome(s, Failure(fault.message))
    else
      var c := Conversation(s.nextId, title, s.clock + 1, s.clock + 1, None);
      Outcome(s.(chats := [c] + s.chats, clock := s.clock + 1, nextId := s.nextId + 1), Success(s.nextId))
  }

  /** The first write of `addMessage`: `addDoc` of the message with the
      server's timestamp. */
  function Append(s: State, chatId: Id, m: Message): State {
    var record := Stamped(m, s.nextId, s.clock + 1);
    s.(messages := s.messages[chatId := History(s.messages, chatId) + [record]], clock := s.clock + 1, nextId := s.nextId + 1)
  }

  /** The second write of `addMessage`: `updateDoc` of the conversation's
      `lastMessage` and `updatedAt`, which fails on a missing document. */
  function Touch(s: State, chatId: Id, content: string): Outcome<()> {
    match Lookup(s.chats, chatId)
    case None => Outcome(s, Failure(NoDocument))
    case Some(c) =>
      var updated := c.(lastMessage := Some(content), updatedAt := s.clock + 1);
      Outcome(s.(chats := [updated] + Without(s.chats, chatId), clock := s.clock + 1), Success(()))
  }

  /** `addMessage`: the two writes in order, the second only when the first
      succeeded; there is no rollback of the first. */
  function Add(s: State, chatId: Id, m: Message, fault: AddFault): Outcome<()> {
    match fault
    case MessageWriteFails(e) => Outcome(s, Failure(e))
    case UpdateFails(e) => Outcome(Append(s, chatId, m), Failure(e))
    case AddSucceeds => Touch(Append(s, chatId, m), chatId, m.content)
  }

  /** `deleteChat`: `deleteDoc` of the conversation, which succeeds also when
      it is missing and leaves its `messages` sub-collection in place. */
  function Delete(s: State, chatId: Id, fault: Fault): Outcome<()> {
    if fault.Fails? then Outcome(s, Failure(fault.message))
    else Outcome(s.(chats := Without(s.chats, chatId)), Success(()))
  }

  /** The writes `addMessage` makes, in order. */
  function AddWrites(s: State, chatId: Id, m: Message, fault: AddFault): seq<Write> {
    match fault
    case MessageWriteFails(_) => []
    case UpdateFails(_) => [AppendedMessage(chatId, m.role)]
    case AddSucceeds =>
      if Lookup(s.chats, chatId).Some? then [AppendedMessage(chatId, m.role), UpdatedPreview(chatId)]
      else [AppendedMessage(chatId, m.role)]
  }

  /** `createChat` keeps the store sound; a new conversation heads the list
      with a fresh id, the given title and no `lastMessage`. */
  lemma CreateSound(s: State, title: string, fault: Fault)
    requires Sound(s)
    ensures Sound(Create(s, title, fault).state)
    ensures fault.Fails? ==> Create(s, title, fault) == Outcome(s, Failure(fault.message))
    ensures fault.Succeeds? ==>
              var o := Create(s, title, fault);
              && o.result.Success?
              && (forall i :: 0 <= i < |s.chats| ==> s.chats[i].id != o.result.value)
              && o.state.chats[0] == Conversation(o.result.value, title, o.state.clock, o.state.clock, None)
              && o.state.chats[1..] == s.chats && o.state.messages == s.messages
  {
    if fault.Succeeds? {
      var c := Conversation(s.nextId, title, s.clock + 1, s.clock + 1, None);
      ChatsLater(s.chats, s.clock, s.nextId, s.clock + 1, s.nextId + 1);
      MessagesLater(s.messages, s.clock, s.nextId, s.clock + 1, s.nextId + 1);
      ConsOrdered(c, s.chats);
      var r := [c] + s.chats;
      assert r[1..] == s.chats;
      assert forall i :: 1 <= i < |r| ==> r[i] == s.chats[i - 1];
    }
  }

  /** Appending a message keeps the store sound. */
  lemma AppendSound(s: State, chatId: Id, m: Message)
    requires Sound(s)
    ensures Sound(Append(s, chatId, m))
  {
    StampedInvariant(s.messages, s.clock, s.nextId, chatId, Stamped(m, s.nextId, s.clock + 1));
    ChatsLater(s.chats, s.clock, s.nextId, s.clock + 1, s.nextId + 1);
  }

  /** Updating a conversation's preview keeps the store sound. */
  lemma TouchSound(s: State, chatId: Id, content: string)
    requires Sound(s)
    ensures Sound(Touch(s, chatId, content).state)
  {
    if Lookup(s.chats, chatId).Some? {
      var c := Lookup(s.chats, chatId).value;
      PromoteKeepsOrder(s.chats, s.clock, s.nextId, chatId, c.(lastMessage := Some(content), updatedAt := s.clock + 1));
      MessagesLater(s.messages, s.clock, s.nextId, s.clock + 1, s.nextId);
    }
  }

  /** `addMessage` keeps the store sound. */
  lemma AddSound(s: State, chatId: Id, m: Message, fault: AddFault)
    requires Sound(s)
    ensures Sound(Add(s, chatId, m, fault).state)
  {
    if !fault.MessageWriteFails? {
      AppendSound(s, chatId, m);
      if fault.AddSucceeds? {
        TouchSound(Append(s, chatId, m), chatId, m.content);
      }
    }
  }

  /** Unless the first write is refused, the message is appended to its
      conversation's list, stamped later than every message before it, with
      its role, content, image and thinking; other lists are unchanged. */
  lemma AddRecordsMessage(s: State, chatId: Id, m: Message, fault: AddFault)
    requires Sound(s)
    ensures var o := Add(s, chatId, m, fault);
            && (fault.MessageWriteFails? ==> o == Outcome(s, Failure(fault.message)))
            && (!fault.MessageWriteFails? ==>
                  && |History(o.state.messages, chatId)| == |History(s.messages, chatId)| + 1
                  && History(o.state.messages, chatId)[..|History(s.messages, chatId)|] == History(s.messages, chatId)
                  && Holds(History(o.state.messages, chatId)[|History(s.messages, chatId)|], m)
                  && (forall i :: 0 <= i < |History(s.messages, chatId)| ==>
                        History(s.messages, chatId)[i].timestamp < History(o.state.messages, chatId)[|History(s.messages, chatId)|].timestamp)
                  && (forall id :: id != chatId ==> History(o.state.messages, id) == History(s.messages, id)))
  {
    if !fault.MessageWriteFails? {
      var h := History(s.messages, chatId);
      var h' := h + [Stamped(m, s.nextId, s.clock + 1)];
      assert h'[..|h|] == h;
      assert forall i :: 0 <= i < |h| ==> h[i].timestamp <= s.clock;
    }
  }

  /** When both writes succeed, the conversation becomes the first of the
      list with the message content as `lastMessage`, and every other
      conversation keeps its place relative to the rest. */
  lemma AddPromotes(s: State, chatId: Id, m: Message)
    requires Sound(s) && Lookup(s.chats, chatId).Some?
    ensures var o := Add(s, chatId, m, AddSucceeds);
            && o.result == Success(())
            && o.state.chats[0] == Lookup(s.chats, chatId).value.(lastMessage := Some(m.content), updatedAt := o.state.clock)
            && o.state.chats[1..] == Without(s.chats, chatId)
  {
    var o := Add(s, chatId, m, AddSucceeds);
    assert o.state.chats[1..] == Without(s.chats, chatId);
  }

  /** A refused update, or a conversation that no longer exists, is thrown
      after the message was appended: the conversation list is unchanged. */
  lemma AddPartialFailure(s: State, chatId: Id, m: Message, fault: AddFault)
    requires fault.UpdateFails? || (fault.AddSucceeds? && Lookup(s.chats, chatId).None?)
    ensures var o := Add(s, chatId, m, fault);
            && o.result == Failure(if fault.UpdateFails? then fault.message else NoDocument)
            && o.state == Append(s, chatId, m) && o.state.chats == s.chats
  {
  }

  /** `deleteChat` keeps the store sound and removes exactly the one
      conversation; its messages stay. */
  lemma DeleteSound(s: State, chatId: Id, fault: Fault)
    requires Sound(s)
    ensures Sound(Delete(s, chatId, fault).state)
    ensures fault.Fails? ==> Delete(s, chatId, fault) == Outcome(s, Failure(fault.message))
    ensures fault.Succeeds? ==>
              && Delete(s, chatId, fault).result == Success(())
              && (forall c :: c in Delete(s, chatId, fault).state.chats <==> c in s.chats && c.id != chatId)
              && Delete(s, chatId, fault).state.messages == s.messages
  {
    if fault.Succeeds? {
      WithoutSound(s.chats, chatId, s.clock, s.nextId);
      forall c
        ensures c in Without(s.chats, chatId) <==> c in s.chats && c.id != chatId
      {
        WithoutMembers(s.chats, chatId, c);
      }
    }
  }

  class Store {
    var chats: seq<Conversation>
    var messages: map<Id, seq<MessageRecord>>
    var clock: nat
    var nextId: nat
    ghost var log: seq<Write>

    function Current(): State
      reads this
    {
      State(chats, messages, clock, nextId)
    }

    ghost predicate Valid()
      reads this
    {
      Sound(Current())
    }

    constructor ()
      ensures Valid() && Current() == State([], map[], 0, 0) && log == []
    {
      chats, messages, clock, nextId := [], map[], 0, 0;
      log := [];
    }

    /** `createChat(userId, {title})`; a refused write is rethrown. */
    method CreateChat(title: string, fault: Fault) returns (r: Result<Id>)
      requires Valid()
      modifies this
      ensures Valid()
      ensures Outcome(Current(), r) == Create(old(Current()), title, fault)
      ensures log == old(log) + (if r.Success? then [CreatedChat(r.value)] else [])
    {
      CreateSound(Current(), title, fault);
      if fault.Fails? {
        return Failure(fault.message);
      }
      var c := Conversation(nextId, title, clock + 1, clock + 1, None);
      r := Success(nextId);
      chats, clock, nextId := [c] + chats, clock + 1, nextId + 1;
      log := log + [CreatedChat(r.value)];
    }

    /** `addMessage(userId, chatId, message)`; a refused write is rethrown. */
    method AddMessage(chatId: Id, m: Message, fault: AddFault) returns (r: Result<()>)
      requires Valid()
      modifies this
      ensures Valid()
      ensures Outcome(Current(), r) == Add(old(Current()), chatId, m, fault)
      ensures log == old(log) + AddWrites(old(Current()), chatId, m, fault)
    {
      ghost var before := Current();
      if fault.MessageWriteFails? {
        return Failure(fault.message);
      }
      AppendSound(before, chatId, m);
      var record := Stamped(m, nextId, clock + 1);
      messages, clock, nextId := messages[chatId := History(messages, chatId) + [record]], clock + 1, nextId + 1;
      log := log + [AppendedMessage(chatId, m.role)];
      ghost var appended := Current();
      assert appended == Append(before, chatId, m);
      if fault.UpdateFails? {
        return Failure(fault.message);
      }
      var found := Lookup(chats, chatId);
      if found.None? {
        return Failure(NoDocument);
      }
      TouchSound(appended, chatId, m.content);
      var updated := found.value.(lastMessage := Some(m.content), updatedAt := clock + 1);
      chats, clock := [updated] + Without(chats, chatId), clock + 1;
      log := log + [UpdatedPreview(chatId)];
      r := Success(());
      assert Outcome(Current(), r) == Touch(appended, chatId, m.content);
    }

    /** `deleteChat(userId, chatId)`; a refused write is rethrown. */
    method DeleteChat(chatId: Id, fault: Fault) returns (r: Result<()>)
      requires Valid()
      modifies this
      ensures Valid()
      ensures Outcome(Current(), r) == Delete(old(Current()), chatId, fault)
      ensures log == old(log) + (if r.Success? then [DeletedChat(chatId)] else [])
    {
      DeleteSound(Current(), chatId, fault);
      if fault.Fails? {
        return Failure(fault.message);
      }
      chats := Without(chats, chatId);
      log := log + [DeletedChat(chatId)];
      r := Success(());
    }

    /** What a `subscribeToChat` snapshot delivers: the conversation's
        messages, oldest first. */
    function ChatSnapshot(chatId: Id): (ms: seq<MessageRecord>)
      requires Valid()
      reads this
      ensures OldestFirst(ms)
      ensures chatId in messages ==> ms == messages[chatId]
      ensures chatId !in messages ==> ms == []
    {
      History(messages, chatId)
    }

    /** What a `subscribeToUserChats` snapshot delivers: the conversations,
        most recently updated first. */
    function ChatsSnapshot(): (cs: seq<Conversation>)
      requires Valid()
      reads this
      ensures NewestFirst(cs) && DistinctIds(cs)
      ensures cs == chats
    {
      chats
    }

    /** `getChatHistory(userId, chatId)`: the snapshot, or `[]` when the read
        fails. */
    function ChatHistory(chatId: Id, fault: Fault): (ms: seq<MessageRecord>)
      requires Valid()
      reads this
      ensures OldestFirst(ms)
      ensures fault.Fails? ==> ms == []
      ensures fault.Succeeds? ==> ms == ChatSnapshot(chatId)
    {
      if fault.Fails? then [] else ChatSnapshot(chatId)
    }

    /** `getUserChats(userId)`: the snapshot, or `[]` when the read fails. */
    function UserChats(fault: Fault): (cs: seq<Conversation>)
      requires Valid()
      reads this
      ensures NewestFirst(cs) && DistinctIds(cs)
      ensures fault.Fails? ==> cs == []
      ensures fault.Succeeds? ==> cs == ChatsSnapshot()
    {
      if fault.Fails? then [] else ChatsSnapshot()
    }
  }

  /** A record stamped after every other keeps a message list oldest first. */
  lemma AppendKeepsOrder(ms: seq<MessageRecord>, r: MessageRecord)
    requires OldestFirst(ms) && forall i :: 0 <= i < |ms| ==> ms[i].timestamp < r.timestamp
    ensures OldestFirst(ms + [r])
  {
  }

  /** Appending a freshly stamped record keeps the message lists sound. */
  lemma StampedInvariant(messages: map<Id, seq<MessageRecord>>, clock: nat, nextId: nat, chatId: Id, r: MessageRecord)
    requires MessagesSound(messages, clock, nextId)
    requires r.timestamp == clock + 1 && r.id == nextId
    ensures MessagesSound(messages[chatId := History(messages, chatId) + [r]], clock + 1, nextId + 1)
  {
    var h := History(messages, chatId);
    AppendKeepsOrder(h, r);
    var ms: map<Id, seq<MessageRecord>> := messages[chatId := h + [r]];
    forall id: Id, i: int | id in ms && 0 <= i < |ms[id]|
      ensures ms[id][i].timestamp <= clock + 1 && ms[id][i].id < nextId + 1
    {
      if id == chatId && i == |h| {
        assert ms[id][i] == r;
      } else if id == chatId {
        assert ms[id][i] == h[i];
      }
    }
  }

  /** Dropping a conversation keeps the conversation list sound. */
  lemma WithoutSound(chats: seq<Conversation>, id: Id, clock: nat, nextId: nat)
    requires ChatsSound(chats, clock, nextId)
    ensures ChatsSound(Without(chats, id), clock, nextId)
  {
    WithoutKeepsOrder(chats, id);
    var w := Without(chats, id);
    forall i | 0 <= i < |w|
      ensures w[i].createdAt <= w[i].updatedAt <= clock && w[i].id < nextId
    {
      assert w[i] in chats;
    }
  }

  /** Moving an updated conversation, stamped after everything else, to the
      front keeps the conversation list sound. */
  lemma PromoteKeepsOrder(chats: seq<Conversation>, prev: nat, nextId: nat, id: Id, updated: Conversation)
    requires ChatsSound(chats, prev, nextId)
    requires Lookup(chats, id).Some? && updated.id == id && updated.updatedAt == prev + 1
    requires updated.createdAt == Lookup(chats, id).value.createdAt
    ensures ChatsSound([updated] + Without(chats, id), prev + 1, nextId)
  {
    var w := Without(chats, id);
    WithoutSound(chats, id, prev, nextId);
    assert Below(w, updated.updatedAt, id);
    ConsOrdered(updated, w);
    var r := [updated] + w;
    assert forall i :: 1 <= i < |r| ==> r[i] == w[i - 1];
    assert Lookup(chats, id).value in chats;
  }
}
