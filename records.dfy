/** The records the client and the store exchange: a conversation document,
    a message as the client writes it, and a message document as the store
    returns it (`{id, ...data}`). Identifiers are drawn by the store; they are
    numbers here. */
module Records {
  import opened Common

  type Id = nat

  /** The `{url, type}` image reference attached to a user turn. */
  datatype Image = Image(url: string, mimeType: string)

  /** A message as `addMessage` receives it. `clientTime` is the `new Date()`
      the caller puts in its `timestamp` key; the store overrides it. */
  datatype Message = Message(role: string, content: string, image: Option<Image>,
                             thinking: Option<string>, clientTime: int)

  /** A message document read back from a `messages` sub-collection. */
  datatype MessageRecord = MessageRecord(id: Id, role: string, content: string, image: Option<Image>,
                                         thinking: Option<string>, timestamp: nat)

  /** A conversation document read back from the `conversations` collection.
      `lastMessage` is absent until the first message is appended. */
  datatype Conversation = Conversation(id: Id, title: string, createdAt: nat, updatedAt: nat,
                                       lastMessage: Option<string>)

  /** The document `addDoc` stores for `{...message, timestamp: serverTimestamp()}`:
      every field of the message, with the later `timestamp` key winning. */
  function Stamped(m: Message, id: Id, serverTime: nat): MessageRecord {
    MessageRecord(id, m.role, m.content, m.image, m.thinking, serverTime)
  }

  /** The record holds the role, content, image and thinking of the message. */
  predicate Holds(r: MessageRecord, m: Message) {
    r.role == m.role && r.content == m.content && r.image == m.image && r.thinking == m.thinking
  }

  /** The ids of a list of conversations are pairwise different. */
  predicate DistinctIds(cs: seq<Conversation>) {
    forall i, j :: 0 <= i < j < |cs| ==> cs[i].id != cs[j].id
  }

  /** `orderBy('updatedAt', 'desc')`, with the store's strictly increasing clock. */
  predicate NewestFirst(cs: seq<Conversation>) {
    forall i, j :: 0 <= i < j < |cs| ==> cs[i].updatedAt > cs[j].updatedAt
  }

  /** `orderBy('timestamp', 'asc')`, with the store's strictly increasing clock. */
  predicate OldestFirst(ms: seq<MessageRecord>) {
    forall i, j :: 0 <= i < j < |ms| ==> ms[i].timestamp < ms[j].timestamp
  }
}
