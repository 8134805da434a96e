# cloud-claude, modelled in Dafny

cloud-claude is a chat front end for Claude. A React client keeps conversations
in Firestore and streams replies from a Python cloud function that calls the
Anthropic API. This project models the sequential logic under the views and
proves properties of that model:

- **The streaming client** (`MessageService`). It builds the payload. An
  `SseBuffer` object keeps the unterminated tail of the decoded text between
  reads and dispatches only complete `data: ` lines. It passes `chunk` events
  on in arrival order and emits the last `done` once, at the end. The
  `sendMessageToClaud` fold returns that `done` record or the concatenated
  chunks.
- **The cloud function** (`ChatFunction`). It validates the request and
  applies defaults. It rebuilds the messages into content blocks, with the
  image only on the last turn and `cache_control` on older assistant turns,
  and adds the system block. It folds the API event stream into thinking text
  and answer text, and shapes the response.
- **The conversation store** (`Firebase`). It is one user's `chats/{userId}`
  subtree kept as a `Store` object: conversations ordered newest first, a
  message log per conversation, a server clock and an id counter.
  `createChat`, `addMessage` and `deleteChat` are methods that change it.
  The reads and snapshot subscriptions are functions of it.
- **The hooks** (`UseChat`, `UseFirestore`). Their state is held in objects:
  - `sendMessage` creates a conversation only when there is none. It then
    writes the user message, then one assistant message with the reply.
  - The chat-list snapshot handler selects the newest conversation when none
    is current.
- **The components' state machines**:
  - the composer's submit gate, image selection and drop (`ChatInput`);
  - the view modes and the send flags (`ChatInterface`);
  - the home page's title and navigation rule (`HomePage`);
  - prompt selection, adding and deleting (`SavedPrompts`);
  - the search panel, with its newest-first sort (`SearchResults`);
  - the starred list (`StarredChats`);
  - the sidebar (`ChatSidebar`).
- **The Drive export** (`GoogleDrive`): the `markdownToHtml` rewrite pipeline,
  one regular-expression rule at a time, and the multipart upload body.

How the model is built:

- Services the code only calls are parameters of the model:
  - the network reply and the JSON parser;
  - the Anthropic client, as the outcome of one call;
  - whether a store write is refused;
  - the search, starred-chat and prompt services.
- `Common` holds JavaScript's `trim`, `truncateText`, decimal printing and the
  day difference `Math.floor(ms / 86400000)`.
- `Records` holds the shapes that are stored.

## Model

| member | source | states |
|---|---|---|
| MessageService.BuildPayloadSpec | src/services/messageService.js:6-34 | the payload's messages are the earlier ones as role and content, in order, then one user message with the new text; max tokens 8192, cache on, the system prompt, and an image field exactly when an image is given |
| MessageService.Split | src/services/messageService.js:64-65 | splitting at '\n' always gives at least one part |
| MessageService.SplitSpec | src/services/messageService.js:64-65 | every part is free of '\n' and joining the parts with '\n' gives the text back |
| MessageService.SplitJoin | src/services/messageService.js:64-65 | splitting parts that were joined with '\n' gives those parts back (the other half of the round trip) |
| MessageService.SplitNoNewline | src/services/messageService.js:64-65 | a text without '\n' splits into itself alone |
| MessageService.LinesDetermined | src/services/messageService.js:64-65 | the complete lines and the remainder are the only decomposition of a text into '\n'-terminated lines followed by an unterminated tail |
| MessageService.LinesAndRemainder | src/services/messageService.js:64-65 | the complete lines, each followed by '\n', then the remainder, rebuild all received text |
| MessageService.DispatchRule | src/services/messageService.js:68-71 | a line is acted on only when it starts with `data: ` and its rest is not blank, and then its effect is that of the parsed event |
| MessageService.YieldsAreChunks | src/services/messageService.js:67-87 | only chunk events are passed on during the stream, at most one per line |
| MessageService.YieldsAppend | src/services/messageService.js:67-87 | the events passed on for two runs of lines are those of the first followed by those of the second (arrival order) |
| MessageService.LastDoneAppend | src/services/messageService.js:75-78 | the kept `done` record is the last one received: a later batch's one replaces an earlier one |
| MessageService.LoggedLineDoesNotStop | src/services/messageService.js:79-84 | an error event or unparsable line changes nothing: the lines around it are handled as if it were absent |
| MessageService.ReadStep | src/services/messageService.js:55-66 | one read keeps the buffer invariant: processed lines, their terminators and the buffer rebuild everything received |
| MessageService.SseBuffer.constructor | src/services/messageService.js:52-53 | nothing received, nothing processed, empty buffer, nothing kept |
| MessageService.SseBuffer.Read | src/services/messageService.js:55-66 | after a read, exactly the complete lines of all text received have been processed once each, the buffer holds the unterminated tail, and the chunks passed on and the kept `done` are those of the processed lines |
| MessageService.DispatchLines | src/services/messageService.js:67-87 | the loop over lines adds exactly their chunk events to those so far and keeps their last `done`, or the earlier one when they have none |
| MessageService.LineStep | src/services/messageService.js:67-87 | one more line adds its own chunk, if any, and replaces the kept `done` only when it is one |
| MessageService.StreamMessageToClaude | src/services/messageService.js:3-105 | the request sent is the built payload and the events emitted are the chunks of the complete lines, then the last `done` once, or the error the reply carries |
| MessageService.SendMessageToClaude | src/services/messageService.js:108-123 | the reply is the `done` record when one was emitted, otherwise the concatenated chunk texts; a stream error is passed on |
| MessageService.NoDoneAmongChunks | src/services/messageService.js:108-123 | a stream of chunks only has no `done` record |
| MessageService.ReplyIsDoneOrChunks | src/services/messageService.js:108-123 | folding the emitted events gives exactly the last `done` when there is one, otherwise the concatenation of the chunks |
| MessageService.DoneOnlyLast | src/services/messageService.js:91-99 | a `done` event is emitted at most once, as the last event |
| MessageService.UnterminatedTailIgnored | src/services/messageService.js:58-65 | text left without a final '\n' when the stream ends is never processed |
| MessageService.NoDataLinesEmptyReply | src/services/messageService.js:64-68 | a reply body with no `data: ` lines, such as the function's single JSON object, gives an empty text reply |
| MessageService.NothingDispatched | src/services/messageService.js:68 | lines without the `data: ` prefix pass nothing on and keep no `done` |
| ChatFunction.BadRequest | functions/main.py:46-49 | the answer is the 400 error 'Messages are required' exactly when the body is missing or has no messages |
| ChatFunction.BuildMessages | functions/main.py:58-98 | the loop builds the entries of the messages in order, and stops at the first entry that cannot be built |
| ChatFunction.BuiltEntries | functions/main.py:58-98 | a built list has one entry per message, and entry i is message i converted |
| ChatFunction.BuiltFailure | functions/main.py:58-98 | building fails exactly when some message cannot be converted, and then with the first one's error |
| ChatFunction.FailureKept | functions/main.py:58-98 | once building has failed, the later messages do not change the outcome |
| ChatFunction.ConvertShape | functions/main.py:63-97 | an entry keeps the message's role; only the last message with an image gets the image block before the text block; others get one text block with the content; cache control is added only with caching on, for an assistant turn before the last two |
| ChatFunction.ClientImageRejected | functions/main.py:69-70 | the image the client sends, with `url` and `type` keys, makes the function fail, because it reads `media_type` and `data` |
| ChatFunction.OptionsFor | functions/main.py:51-119 | max tokens defaults to 8192 and the thinking budget is 6553; the system block is present exactly when the system prompt is not empty, with cache control exactly when caching is on |
| ChatFunction.FoldEvents | functions/main.py:122-147 | the event loop computes the answer text, thinking text and chunks of the fold |
| ChatFunction.FullIsChunks | functions/main.py:136-144 | the answer text is the concatenation of the chunks |
| ChatFunction.FlagIsInThinking | functions/main.py:127-147 | the thinking flag is set exactly while a thinking block has started and not yet stopped |
| ChatFunction.FoldPartition | functions/main.py:127-147 | text deltas inside thinking blocks go to the thinking text and all others to the answer text |
| ChatFunction.UsageOf | functions/main.py:150-159 | input and output tokens are always reported; the cache counts are reported exactly when the API reports them |
| ChatFunction.Chat | functions/main.py:45-173 | the handler's response is the modelled result of the request and the API call |
| ChatFunction.CompletedShape | functions/main.py:161-169 | a completed response has no empty thinking text, and `cached` is set exactly when cache-read tokens are reported |
| ChatFunction.StreamedResponse | functions/main.py:121-169 | a good request whose API call streams events without an exception is answered with the fold of those events: the answer and thinking texts, the usage and the cache flag |
| ChatFunction.ExceptionIs500 | functions/main.py:170-172 | past the 400 check, a message that cannot be converted, a refused call and an exception while streaming each give the 500 error with that exception's message; every error is then a 500, and the response is completed exactly when none of these happens |
| Firebase.Lookup | src/services/firebase.js:114-117 | the conversation found has that id and is in the list; none is found only when no conversation has it |
| Firebase.Without | src/services/firebase.js:126 | deleting never adds a conversation and removes every one with that id |
| Firebase.WithoutMembers | src/services/firebase.js:126 | a conversation is kept by a delete exactly when it was there and has another id |
| Firebase.WithoutKeepsOrder | src/services/firebase.js:126 | a delete keeps the list newest first and its ids distinct |
| Firebase.WithoutSound | src/services/firebase.js:126 | a delete keeps the store's conversation invariant |
| Firebase.CreateSound | src/services/firebase.js:67-74 | creating keeps the store invariant; a refused create changes nothing; a created conversation has an id no other has, the title, the new clock time as both stamps and no last message, and heads the list in front of the others, unchanged |
| Firebase.AppendSound | src/services/firebase.js:108-111 | appending a message keeps the store invariant |
| Firebase.StampedInvariant | src/services/firebase.js:108-111 | a record stamped with the next clock time and id keeps the message logs' invariant |
| Firebase.AddRecordsMessage | src/services/firebase.js:108-111 | a refused message write changes nothing; otherwise the message is stored with the server's stamp replacing its own time, last in its log and later than every earlier message, and no other log changes |
| Firebase.TouchSound | src/services/firebase.js:114-117 | updating a conversation's preview and time keeps the store invariant |
| Firebase.AddPromotes | src/services/firebase.js:114-117 | after an accepted add, the conversation's preview is the message text, it was updated last, and it moves to the front of the list |
| Firebase.AddKeepsTitle | src/services/firebase.js:114-117 | adding a message, accepted or not, never changes any conversation's title nor removes it |
| Firebase.LookupWithout | src/services/firebase.js:126 | deleting one conversation leaves every other one found as before |
| Firebase.PromoteKeepsOrder | src/services/firebase.js:114-117 | moving the updated conversation to the front keeps the list newest first |
| Firebase.AddSound | src/services/firebase.js:105-122 | an add keeps the store invariant whatever happens |
| Firebase.AddPartialFailure | src/services/firebase.js:105-122 | when the update after the message write fails, or the conversation is missing, the message stays written and the error is passed on |
| Firebase.DeleteSound | src/services/firebase.js:124-131 | a delete keeps the store invariant; a refused one changes nothing; an accepted one removes the conversation and keeps its messages |
| Firebase.AppendKeepsOrder | src/services/firebase.js:84 | a record newer than all others keeps the log oldest first |
| Firebase.Store.constructor | src/services/firebase.js:37-39 | the user's store starts with no conversations and no messages, and satisfies the store invariant |
| Firebase.Store.CreateChat | src/services/firebase.js:67-79 | creating changes the store exactly as `Create` says, returns the new id or rethrows, and logs the write |
| Firebase.Store.AddMessage | src/services/firebase.js:105-122 | adding changes the store exactly as `Add` says and logs the writes that happened |
| Firebase.Store.DeleteChat | src/services/firebase.js:124-131 | deleting changes the store exactly as `Delete` says and logs the write |
| Firebase.Store.ChatSnapshot | src/services/firebase.js:134-142 | a chat's snapshot is its message log, oldest first, or empty for an unknown chat |
| Firebase.Store.ChatsSnapshot | src/services/firebase.js:144-152 | the list snapshot is all conversations, newest first, with distinct ids |
| Firebase.Store.ChatHistory | src/services/firebase.js:81-91 | a read gives the chat's messages oldest first, and an empty list on any error |
| Firebase.Store.UserChats | src/services/firebase.js:93-103 | a read gives the conversations newest first, and an empty list on any error |
| UseChat.IgnoredChangesNothing | src/hooks/useChat.js:28 | a send without a user or with blank text writes nothing and creates nothing, an image-only send included |
| UseChat.SendWithChat | src/hooks/useChat.js:31-37 | with a current conversation no conversation is created and the exchange goes to that one |
| UseChat.SendCreating | src/hooks/useChat.js:31-37 | without one, a conversation titled 'New Chat' is created first, once, gets the next id and keeps that title through the exchange, which goes to its id |
| UseChat.SendCreateRethrown | src/hooks/useChat.js:31-74 | a refused create is passed on and nothing else is written |
| UseChat.ExchangeWrites | src/hooks/useChat.js:39-69 | the exchange stays on the given chat; its writes are a prefix of the plan (user message, its preview update, assistant message, its preview update), so they stop at the first failure; the assistant message is written only after the user message was written and the reply arrived |
| UseChat.ExchangeAppendsTwo | src/hooks/useChat.js:39-69 | an exchange where every write is accepted adds exactly two messages to the conversation's log, user then assistant |
| UseChat.ExchangeKeepsTitle | src/hooks/useChat.js:39-69 | an exchange keeps every existing conversation and its title |
| UseChat.AddAppendsOne | src/services/firebase.js:105-122 | an accepted add on a known conversation adds exactly one record to its log and keeps the store sound |
| UseChat.ExchangeUserRethrown | src/hooks/useChat.js:53-74 | when the user message cannot be written, no reply is asked for and no assistant message is written; the error is passed on |
| UseChat.ExchangeReplyRethrown | src/hooks/useChat.js:53-74 | when the reply fails after the user message was written, no assistant message is written and the error is passed on |
| UseChat.ChatHook.constructor | src/hooks/useChat.js:9-12 | no messages, not loading, no current conversation and no subscription |
| UseChat.ChatHook.SyncSubscription | src/hooks/useChat.js:14-18 | the chat is subscribed exactly when there is a user and a current conversation, and subscribing sets loading |
| UseChat.ChatHook.OnSnapshot | src/hooks/useChat.js:19-22 | a snapshot replaces the messages with the subscribed chat's log and clears loading |
| UseChat.ChatHook.OpenChat | src/hooks/useChat.js:31-37 | the conversation used is the current one, or a newly created one that becomes current |
| UseChat.ChatHook.Converse | src/hooks/useChat.js:39-69 | the store changes exactly as the modelled exchange says, with the history taken before the user message |
| UseChat.ChatHook.Deliver | src/hooks/useChat.js:30-74 | the conversation is opened and the exchange made as the model says, or the error passed on |
| UseChat.ChatHook.SendMessage | src/hooks/useChat.js:27-75 | the whole send changes the store and the current conversation exactly as `Send` says |
| UseFirestore.SelectedAfter | src/hooks/useFirestore.js:21-23 | a current conversation is kept; without one the first of a non-empty list is selected |
| UseFirestore.SnapshotSelection | src/hooks/useFirestore.js:17-23 | the auto-selected conversation is the most recently updated one |
| UseFirestore.CreateFor | src/hooks/useFirestore.js:31-42 | without a user nothing is written and nothing returned; otherwise the store's create is done and its id returned or its error passed on |
| UseFirestore.CreateForSound | src/hooks/useFirestore.js:31-42 | creating from the hook keeps the store invariant |
| UseFirestore.ChatListHook.constructor | src/hooks/useFirestore.js:8-11 | no conversations, none selected, loading |
| UseFirestore.ChatListHook.SyncSubscription | src/hooks/useFirestore.js:13-14 | the list is subscribed exactly when there is a user |
| UseFirestore.ChatListHook.OnChatsSnapshot | src/hooks/useFirestore.js:17-26 | a snapshot replaces the list with the store's, newest first, applies the selection rule and clears loading |
| UseFirestore.ChatListHook.CreateNewChat | src/hooks/useFirestore.js:31-42 | the store changes as `CreateFor` says |
| UseFirestore.ChatListHook.SelectChat | src/hooks/useFirestore.js:44-46 | the current conversation becomes exactly the argument |
| ChatInput.AsImage | src/hooks/useChat.js:46-50 | an attachment is read as its data URL and MIME type, and no attachment as no image |
| ChatInput.SendButtonDisabled | src/components/Chat/ChatInput.js:155 | the send button is disabled exactly when a submit would be refused |
| ChatInput.Submit | src/components/Chat/ChatInput.js:18-30 | a submit goes through exactly when the input is enabled and there is non-blank text or an image; it hands on the trimmed text and the image and clears both; otherwise nothing changes |
| ChatInput.SubmittedIsTrimmed | src/components/Chat/ChatInput.js:20-21 | the text handed on has no white space at either end |
| ChatInput.KeyDownSubmits | src/components/Chat/ChatInput.js:32-37 | Enter without Shift submits; any other key does nothing |
| ChatInput.Select | src/components/Chat/ChatInput.js:39-51 | only an `image/` file replaces the attachment; other files leave it |
| ChatInput.SelectKeepsImages | src/components/Chat/ChatInput.js:39-40 | the attachment is always an image |
| ChatInput.FirstFile | src/components/Chat/ChatInput.js:67 | a drop yields its first file, or none when it holds no file |
| ChatInput.DropLooksAtFirstOnly | src/components/Chat/ChatInput.js:63-71 | a drop acts on its first file alone |
| ChatInput.Composer.constructor | src/components/Chat/ChatInput.js:4-6 | empty draft, not dragging |
| ChatInput.Composer.SetMessage | src/components/Chat/ChatInput.js:145 | typing replaces the text and nothing else |
| ChatInput.Composer.HandleSubmit | src/components/Chat/ChatInput.js:18-30 | the composer steps as `Submit` says |
| ChatInput.Composer.HandleKeyDown | src/components/Chat/ChatInput.js:32-37 | the default is prevented exactly for Enter without Shift, and the composer steps as `KeyDown` says |
| ChatInput.Composer.HandleImageSelect | src/components/Chat/ChatInput.js:39-51 | the attachment becomes `Select`'s |
| ChatInput.Composer.HandleDragOver | src/components/Chat/ChatInput.js:53-56 | dragging is set and the draft kept |
| ChatInput.Composer.HandleDragLeave | src/components/Chat/ChatInput.js:58-61 | dragging is cleared and the draft kept |
| ChatInput.Composer.HandleDrop | src/components/Chat/ChatInput.js:63-71 | dragging is cleared and the attachment becomes that of the first file |
| ChatInput.Composer.RemoveImage | src/components/Chat/ChatInput.js:93 | the attachment is removed and the text kept |
| ChatInterface.InputDisabled | src/components/Chat/ChatInterface.js:122 | the input is disabled exactly while loading or thinking |
| ChatInterface.Render | src/components/Chat/ChatInterface.js:89-103 | the chat screen shows exactly in chat mode with a current conversation; chat mode without one renders nothing and falls back to home |
| ChatInterface.RenderSettles | src/components/Chat/ChatInterface.js:99-102 | after the fallback the next render shows the home screen and changes nothing more |
| ChatInterface.AfterCurrentChat | src/components/Chat/ChatInterface.js:82-86 | whenever there is a current conversation the mode becomes chat; otherwise it is kept |
| ChatInterface.EffectThenRenderShowsChat | src/components/Chat/ChatInterface.js:82-103 | once a conversation is current the effect and the render show its chat screen |
| ChatInterface.Found | src/components/Chat/ChatInterface.js:69-70 | a conversation is found only when the create returned an id and the list holds a conversation with it |
| ChatInterface.NewChatUnlisted | src/components/Chat/ChatInterface.js:66-74 | a just-created conversation is never in the list taken before the create, so starting a new chat never navigates |
| ChatInterface.Interface.constructor | src/components/Chat/ChatInterface.js:11-15 | not thinking, no error, sidebar closed, home mode |
| ChatInterface.Interface.StartSend | src/components/Chat/ChatInterface.js:30-31 | the error is cleared and thinking set, which disables the input |
| ChatInterface.Interface.FinishSend | src/components/Chat/ChatInterface.js:35-40 | thinking always ends and the error text is set only on failure |
| ChatInterface.Interface.HandleSendMessage | src/components/Chat/ChatInterface.js:29-41 | the send changes the store as `Send` says; thinking ends and the error is set exactly when the send failed |
| ChatInterface.Interface.HandleNewChat | src/components/Chat/ChatInterface.js:43-48 | the handler throws, because `clearCurrentChat` is not provided by the hook |
| ChatInterface.Interface.HandleStarredChatsClick | src/components/Chat/ChatInterface.js:50-53 | the starred view opens with the sidebar closed |
| ChatInterface.Interface.HandleBackFromStarred | src/components/Chat/ChatInterface.js:55-57 | back returns to the home mode |
| ChatInterface.Interface.ToggleSidebar | src/components/Chat/ChatInterface.js:149 | the sidebar flips and nothing else changes |
| ChatInterface.Interface.HandleSelectChat | src/components/Chat/ChatInterface.js:59-64 | the chosen conversation becomes current, then the handler throws because `switchChat` is not provided |
| ChatInterface.Interface.OnCurrentChatChanged | src/components/Chat/ChatInterface.js:82-86 | the mode becomes `AfterCurrentChat`'s |
| ChatInterface.Interface.RenderContent | src/components/Chat/ChatInterface.js:89-103 | the screen and the mode after it are `Render`'s |
| ChatInterface.Interface.HandleStartNewChat | src/components/Chat/ChatInterface.js:66-79 | the store changes as `CreateFor` says; when the new id is in the list held before the create, that chat becomes current and the missing `switchChat` throws, so the error is set; a failed create sets the error; otherwise nothing but the store changes; the view mode never changes, and a fresh id is never in that list |
| HomePage.TempTitleSpec | src/components/Home/HomePage.js:27-29 | the title is the trimmed text when at most 40 characters, otherwise its first 40 and `...`, so at most 43; it never starts with white space |
| HomePage.Navigation | src/components/Home/HomePage.js:23-37 | the page opens a temporary conversation exactly when the send result names a chat id and says it is new, with the derived title |
| HomePage.HomeNeverNavigates | src/components/Home/HomePage.js:21-23 | as written, a send from the home page never opens the conversation |
| HomePage.IntendedOpensNewChat | src/components/Home/HomePage.js:23-37 | with the intended send result, the first send opens the conversation it created exactly when the send went through |
| HomePage.IntendedStaysOnLaterSends | src/components/Home/HomePage.js:23-37 | with the intended result, a send into an existing conversation opens nothing |
| HomePage.RecentChats | src/components/Home/HomePage.js:95-103 | at most the first six conversations, in order, with 'New Chat' and 'No messages yet' for a missing title or preview |
| HomePage.RecentChatsNonBlank | src/components/Home/HomePage.js:95-103 | a card is offered exactly when there are conversations, and no card has an empty title or preview |
| HomePage.Home.constructor | src/components/Home/HomePage.js:9-13 | not thinking, no error, no selected prompt, menu closed |
| HomePage.Home.HandleSendMessage | src/components/Home/HomePage.js:15-44 | the send changes the store as `Send` says; thinking ends, the error is set exactly on failure, and the navigation is `Navigation`'s |
| HomePage.Home.SelectPrompt | src/components/Home/HomePage.js:87 | the chosen prompt's text is kept for the input |
| HomePage.Home.ToggleUserMenu | src/components/Home/HomePage.js:64 | the user menu flips and nothing else changes |
| SavedPrompts.FindPrompt | src/components/Home/SavedPrompts.js:30 | the prompt found has that id and is listed; none is found exactly when no prompt has it; the prompt found is at an index before which no prompt has the id |
| SavedPrompts.SelectSpec | src/components/Home/SavedPrompts.js:29-44 | a listed id is selected and its text handed on; any other id clears the selection and hands on '' |
| SavedPrompts.SaveDisabled | src/components/Home/SavedPrompts.js:168 | the save button is disabled exactly while saving or when the title or text is blank |
| SavedPrompts.SavedTextIsTrimmed | src/components/Home/SavedPrompts.js:48-57 | what is saved is trimmed and not empty |
| SavedPrompts.PromptPicker.constructor | src/components/Home/SavedPrompts.js:12-18 | no prompts, nothing selected, form closed and empty, not loading, no error |
| SavedPrompts.PromptPicker.OnPromptsSnapshot | src/components/Home/SavedPrompts.js:22-24 | a snapshot replaces the list wholesale |
| SavedPrompts.PromptPicker.HandleSelectPrompt | src/components/Home/SavedPrompts.js:29-44 | the selection and the text handed on are `Select`'s, and a found prompt is marked used |
| SavedPrompts.PromptPicker.HandleDropdownChange | src/components/Home/SavedPrompts.js:85-93 | the add entry opens the form and clears the selection without handing anything on; another value is a selection |
| SavedPrompts.PromptPicker.SetNewTitle | src/components/Home/SavedPrompts.js:136 | typing replaces the title only |
| SavedPrompts.PromptPicker.SetNewContent | src/components/Home/SavedPrompts.js:149 | typing replaces the text only |
| SavedPrompts.PromptPicker.CloseForm | src/components/Home/SavedPrompts.js:126-160 | the overlay and Cancel close the form and keep its fields |
| SavedPrompts.PromptPicker.HandleAddPrompt | src/components/Home/SavedPrompts.js:46-67 | nothing without a non-blank title and text; otherwise the trimmed pair is saved; success empties and closes the form, failure keeps it open with the error; loading always ends |
| SavedPrompts.PromptPicker.HandleDeletePrompt | src/components/Home/SavedPrompts.js:69-83 | nothing unless confirmed; deleting the selected prompt clears the selection and hands on '', another one leaves it; a failure sets the error |
| SearchResults.InsertNoneNewer | src/components/Chat/SearchResults.js:24-28 | inserting a hit no newer than a bound keeps every hit at or under it |
| SearchResults.InsertOrdered | src/components/Chat/SearchResults.js:24-28 | inserting into a newest-first list keeps it newest first |
| SearchResults.InsertCounts | src/components/Chat/SearchResults.js:24-28 | inserting adds exactly that hit |
| SearchResults.SortNewestFirstSpec | src/components/Chat/SearchResults.js:24-28 | the shown hits are newest first and a permutation of the returned ones |
| SearchResults.InsertAtTime | src/components/Chat/SearchResults.js:24-28 | inserting a hit keeps the order of the hits sharing any one timestamp, the new one after those already there |
| SearchResults.SortKeepsTies | src/components/Chat/SearchResults.js:24-28 | the sort is stable: hits with equal timestamps keep their order from the answer |
| SearchResults.TitleOf | src/components/Chat/SearchResults.js:106 | a hit's title is its chat title, or 'Untitled Chat' when that is empty, so never empty |
| SearchResults.FormatTimestamp | src/components/Chat/SearchResults.js:44-59 | no time shows nothing; a day difference of 0 gives 'Today at' and the time, 1 'Yesterday at' and the time, anything else the date |
| SearchResults.Highlight | src/components/Chat/SearchResults.js:61-62 | a blank query leaves the text unmarked |
| SearchResults.ResultsHeaderPlural | src/components/Chat/SearchResults.js:97 | the header says 'results' exactly when the count is not 1 |
| SearchResults.ResultsHeaderCount | src/components/Chat/SearchResults.js:97 | the header starts with the count in decimal digits |
| SearchResults.Render | src/components/Chat/SearchResults.js:72-118 | a spinner while loading, then the error, then the empty notice, or the count header and one row per hit in order with its chat and message ids, its title or 'Untitled Chat', the highlighted content and the time label |
| SearchResults.SearchPanel.constructor | src/components/Chat/SearchResults.js:6-9 | no results, not loading, no error |
| SearchResults.SearchPanel.PerformSearch | src/components/Chat/SearchResults.js:12-37 | a blank query empties the results and asks nothing; otherwise the hits are shown newest first and as a permutation of the answer, or a failure empties them and sets the error; loading ends |
| StarredChats.TruncateDefault | src/components/Chat/StarredChats.js:56-59 | with the default limit of 100, empty text shows 'New Chat', short text is kept whole and longer text is exactly its first 100 characters and `...` |
| StarredChats.FormatDate | src/components/Chat/StarredChats.js:37-54 | no time shows nothing; a day difference of 0 gives 'Today', 1 'Yesterday', other values below 7 the weekday, the rest the date |
| StarredChats.CardBounds | src/components/Chat/StarredChats.js:89-101 | a card keeps the conversation's id; the title is 'New Chat' when empty, whole up to 50 characters and otherwise its first 50 and `...`; the preview is 'No messages yet' without a last message, whole up to 150 and otherwise its first 150 and `...`; the date is the conversation's time label; neither text is empty |
| StarredChats.WithoutConcat | src/components/Chat/StarredChats.js:31 | the filter works piece by piece over a list |
| StarredChats.WithoutAbsent | src/components/Chat/StarredChats.js:31 | filtering out an id no card has leaves the list as it was |
| StarredChats.UnstarRemovesOnly | src/components/Chat/StarredChats.js:31 | unstarring keeps every other conversation, in its order |
| StarredChats.Render | src/components/Chat/StarredChats.js:70-108 | loading, then the empty state, then one card per starred conversation in order; cards are shown exactly when loading is over and the list is not empty |
| StarredChats.StarredPanel.constructor | src/components/Chat/StarredChats.js:7-8 | no conversations, loading |
| StarredChats.StarredPanel.LoadStarredChats | src/components/Chat/StarredChats.js:14-24 | the service's list replaces the shown one, a failure keeps it, and loading ends either way |
| StarredChats.StarredPanel.HandleUnstar | src/components/Chat/StarredChats.js:26-35 | only after the service accepts is that id removed, every other conversation kept in order |
| ChatSidebar.FormatDate | src/components/Chat/ChatSidebar.js:12-29 | no time shows nothing; a day difference of 0 gives the time, 1 'Yesterday', other values below 7 the short weekday, the rest month and day |
| ChatSidebar.Render | src/components/Chat/ChatSidebar.js:61-87 | the empty state exactly for no conversations; otherwise one entry each, in order, each the item of its conversation: active exactly when its id is the current one, with title and preview cut to 30 and 50 |
| ChatSidebar.ItemShows | src/components/Chat/ChatSidebar.js:72-86 | an entry keeps the id; the title is 'New Chat' when empty, whole up to 30 characters and otherwise its first 30 and `...`; the preview is 'No messages yet' without a last message, whole up to 50 and otherwise its first 50 and `...`; the time is the conversation's label; it is active exactly when its id is the current one |
| ChatSidebar.AtMostOneActive | src/components/Chat/ChatSidebar.js:75 | with distinct ids at most one entry is active, and none without a current conversation |
| GoogleDrive.FirstAt | src/services/googleDriveService.js:107 | the first occurrence of a pattern at or after a position, or none |
| GoogleDrive.LastBefore | src/services/googleDriveService.js:127 | the last occurrence of a pattern before a position, or none |
| GoogleDrive.Heading3Line | src/services/googleDriveService.js:102 | a `### ` line without line terminators ('\n', '\r', U+2028, U+2029) becomes an h3 element, and not an h2 or h1 |
| GoogleDrive.HeadingStopsAtLineEnd | src/services/googleDriveService.js:102 | a heading ends at the first line terminator, which is kept, and the lines after it are rewritten on their own |
| GoogleDrive.LinesSplit | src/services/googleDriveService.js:102-110 | a line-wise rule rewrites the text before the first line terminator on its own, keeps the terminator and goes on with the rest |
| GoogleDrive.Heading2Line | src/services/googleDriveService.js:103 | a `## ` line without line terminators becomes an h2 element |
| GoogleDrive.Heading1Line | src/services/googleDriveService.js:104 | a `# ` line without line terminators becomes an h1 element |
| GoogleDrive.BoldIsGreedy | src/services/googleDriveService.js:107 | bold runs from the first `**` of a line (text without line terminators) to its last |
| GoogleDrive.BoldStopsAtLineEnd | src/services/googleDriveService.js:107 | `.` does not cross a line terminator, so `**a`, a terminator, `b**` is left unchanged |
| GoogleDrive.BoldLine | src/services/googleDriveService.js:107 | a line without line terminators and with one bold span becomes a strong element |
| GoogleDrive.ItalicLeavesPlain | src/services/googleDriveService.js:110 | a line without `*` is left alone by the italic rule |
| GoogleDrive.BoldBeforeItalic | src/services/googleDriveService.js:107-110 | bold runs first, so a `**` span on one line is not read as italic |
| GoogleDrive.LinkPositions | src/services/googleDriveService.js:113 | in `[text](url)` the link rule finds the brackets and parentheses where they are |
| GoogleDrive.LinkRewrite | src/services/googleDriveService.js:113 | `[text](url)` becomes an anchor to the url with that text |
| GoogleDrive.CodeBlockRewrite | src/services/googleDriveService.js:116 | a fenced span without backticks becomes a pre and code element around that text |
| GoogleDrive.InlineCodeRewrite | src/services/googleDriveService.js:119 | a non-empty backtick span becomes a code element around that text |
| GoogleDrive.ParagraphsLeaveNoBlankLine | src/services/googleDriveService.js:122 | no '\n\n' is left after the paragraph rule |
| GoogleDrive.ParagraphsWithoutBlankLine | src/services/googleDriveService.js:122 | a text without '\n\n' is left alone |
| GoogleDrive.ParagraphsPrefix | src/services/googleDriveService.js:122 | text before the first line break is copied unchanged |
| GoogleDrive.ParagraphBreak | src/services/googleDriveService.js:122 | a '\n\n' between two lines becomes `</p><p>` |
| GoogleDrive.ListItemsKeepStart | src/services/googleDriveService.js:126 | the list-item rule keeps the leading `<p>` |
| GoogleDrive.WrapListKeepsStart | src/services/googleDriveService.js:127 | wrapping the list keeps the leading `<p>` |
| GoogleDrive.MarkdownStartsWithParagraph | src/services/googleDriveService.js:97-130 | the converted document always starts with `<p>` |
| GoogleDrive.MultipartShape | src/services/googleDriveService.js:155-171 | the body starts with the delimiter and ends with the closing delimiter, and the HTML is recovered whole from between the parts' headers and the closing delimiter |
| GoogleDrive.DocumentName | src/services/googleDriveService.js:133-143 | the file is named by the title, 'Claude Chat Export' by default, then ' - ' and the local time |
| Common.TrimStartSpec | src/components/Chat/ChatInput.js:20 | trimming the start leaves a suffix of the text that does not start with white space, and removes only white space |
| Common.TrimEndSpec | src/components/Chat/ChatInput.js:20 | trimming the end leaves a prefix of the text that does not end with white space, and removes only white space |
| Common.TrimIsInnerSlice | src/components/Chat/ChatInput.js:20 | the trimmed text is a slice of the text with only white space on either side |
| Common.TrimmedEnds | src/components/Chat/ChatInput.js:21 | trimmed text has no white space at either end |
| Common.BlankIffAllSpace | src/components/Chat/ChatInput.js:20 | text trims to empty exactly when it is all white space |
| Common.TrimIdempotent | src/components/Home/SavedPrompts.js:55-56 | trimming twice is trimming once |
| Common.Truncate | src/components/Chat/StarredChats.js:56-59 | empty text shows 'New Chat'; text up to the limit is kept; longer text is exactly its first limit characters and `...`, so three over the limit |
| Common.BmpLength | src/components/Chat/StarredChats.js:56-59 | JavaScript's UTF-16 length is never below the character count, equals it exactly for text in the Basic Multilingual Plane and exceeds it otherwise |
| Common.NatToStringValue | src/components/Chat/SearchResults.js:97 | the count is printed as decimal digits whose value is the count |
| Common.DayDiff | src/components/Chat/SearchResults.js:50 | the day difference is the floor of the time difference in days |

## Left out

- The network, `fetch`, the stream reader and `TextDecoder` are parameters. The reply is a sequence of decoded text pieces, and `JSON.parse` is a parser function.
- The Anthropic client is the outcome of one API call: an event sequence or an exception. The CORS preflight is not modelled.
- The Firestore SDK is one user's subtree held in memory. `serverTimestamp()` is a strictly increasing clock, and `new Date()` stamps are parameters. Concurrency between clients and listener delivery order are not modelled.
- Sign-in, sign-out and session handling are not modelled, nor is the PDF export, which works on floating-point page sizes and a canvas library.
- The Google API script loading, OAuth and the Drive create, patch and get calls are not modelled. Only the document name and the upload body are.
- The eight search, starred-chat and prompt services are imported from the store module, which does not export them: `searchMessages` (src/components/Chat/SearchResults.js:2), `getStarredChats` and `toggleChatStar` (src/components/Chat/StarredChats.js:2), and `getSavedPrompts`, `createPrompt`, `deletePrompt`, `updatePromptLastUsed` and `subscribeToUserPrompts` (src/components/Home/SavedPrompts.js:2-8). As written, every call would throw, and `subscribeToUserPrompts` does so in an effect outside any `try`; `getSavedPrompts` is never called. The model assumes they exist and work: their answers or refusals are parameters, and their calls are recorded.
- Timers are not modelled: the 300 ms search debounce, the status clears, and the `FileReader` callback (a selected file arrives with its data URL already read).
- `toLocaleDateString` and `toLocaleTimeString` output is an abstract label naming the format asked for.
- SearchResults.Highlight: the text to mark is not computed, because `highlightText` builds an unescaped regular expression from the query.
- SearchResults.SortNewestFirstSpec: missing or unparsable timestamps are not modelled; every hit has a time. The sort is stable, as ECMAScript 2019 requires of `Array.prototype.sort`, and SortKeepsTies proves the model's sort is too.
- ChatFunction.OptionsFor: the system prompt's text is a constant of the model that is not spelled out. JSON `null` is read as an absent key, so `"use_cache": null` means the default (caching on) here, while Python's `data.get('use_cache', True)` returns `None` and turns caching off; likewise `"max_tokens": null` means 8192 here but is passed on as `None` as written.
- ChatFunction.BadRequest: JSON `null` is read as an absent key, so `{"messages": null}` gives the 400 error here, while the function as written fails later with a 500. A body that is not a JSON object is not modelled. As written, a falsy one (`[]`, `0`, `""`, `false`) or one that does not contain `'messages'` (`[1]`, `"abc"`) gets the 400; a 500 comes only when the `in` test raises (a non-zero number, `true`) or succeeds (`["messages"]`, `"messages"`, which then fail at `.get`).
- Common.Truncate: lengths and cut points count Unicode characters, so they agree with JavaScript's UTF-16 `length` and `substring` only for text in the Basic Multilingual Plane (BmpLength states the difference); a cut inside a surrogate pair is not representable.
- StarredChats.TruncateDefault: the limit of 100 counts Unicode characters, which agrees with JavaScript's UTF-16 count only for text in the Basic Multilingual Plane.
- StarredChats.CardBounds: the limits of 50 and 150 count Unicode characters, which agrees with JavaScript's UTF-16 count only for text in the Basic Multilingual Plane.
- ChatSidebar.Render: the limits of 30 and 50 count Unicode characters, which agrees with JavaScript's UTF-16 count only for text in the Basic Multilingual Plane.
- HomePage.TempTitleSpec: the limit of 40 and the cut count Unicode characters, which agrees with JavaScript's UTF-16 `length` and `substring` only for text in the Basic Multilingual Plane.
- SavedPrompts.PromptPicker.HandleSelectPrompt: the outcome of marking a prompt used is only logged by the code, so it changes nothing here.
- The sidebar's `onStarredChatsClick` argument and the composer's `value` and `placeholder` props are unused by those components and are not modelled.
- UseChat.IgnoredChangesNothing: a send with an image but blank text is dropped by the hook, although the composer lets it through.
- ChatInterface.Interface.HandleStartNewChat: when the new conversation is listed, the call to the missing `switchChat` throws, so the error is recorded then too.
- The theme toggle, the message list, the message item's markdown rendering, the user menu and the spinner are presentation only.

## Findings

| source | as written | input that shows it | evidently intended | confidence | as-written member | corrected member |
|---|---|---|---|---|---|---|
| src/components/Home/HomePage.js:21-23 | `sendMessage` (src/hooks/useChat.js:27-75) returns no value, so `result` is undefined and the page never opens the new conversation | any first send from the home page that succeeds | resolve to the chat id used and whether it was created, so the first send opens the new conversation | not executed | HomePage.HomeNeverNavigates | HomePage.IntendedOpensNewChat |
