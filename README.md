# Conversation message synchronisation, modelled in Dafny

This project models the non-UI logic of a chat client built on a messaging SDK. It has two
views.

- `MessagesView` (module `Messages`, class `Messages.MessagesView`). It loads a
  conversation's history through a newest-first paginator. It maps each raw SDK message
  into a feed entry (`ExtendedMessageData`, here the datatype `ChatMessage`). It appends
  live `messageAdded` events. It composes an outbound message from the typed text and the
  staged files. It reloads only when the conversation `sid` changes.
- `App` in `Conversations.tsx` (module `Conversations`, class `Conversations.App`). It holds
  the conversation list and the active conversation, and has load, create, select and
  delete transitions.

The SDK is modelled as plain data:

- A paginator chain is a `seq<Page>`, newest first. `pages[0]` is what `getMessages()`
  resolves to, and `pages[k + 1]` is what `pages[k].prevPage()` resolves to. An empty
  chain means `getMessages()` rejected. A chain whose last page still reports
  `hasPrevPage` means that page's `prevPage()` rejected. A rejected load leaves the feed
  as it was, because `loadMessages` rejects before its `setState`.
- Each attachment carries the `Option<string>` its `getContentTemporaryUrl()` resolves to.
- The viewer's username (`this.context?.session?.user?.username`) is an `Option<string>`
  parameter of every mapping operation.
- A staged file is an opaque `StagedFile`. The outbound message the builder hands to `send()`
  is returned by `OnAddMessage` as an `Outbound` value.

Mapping details that follow the code:

- `id` is 0 exactly when the username is present and equals the author. An absent username
  is `undefined` and an absent author is `null`, and these never compare equal, so an
  absent username always gives 1.
- Each attachment of a `media` message that has an attachment list adds `" "` followed by at
  most the first 120 characters of its URL. An absent or empty URL adds `" "` alone. A
  text message's attachments are ignored.
- `created` is the record's `dateCreated`, or `null` when it has none (the
  `created || null` in the `ExtendedMessageData` constructor, MessagesView.tsx line 43). A
  `Date` object is always truthy, so nothing is ever synthesised.

JavaScript's `setState` is taken as an immediate assignment. Each `async` operation is one
sequential step whose awaited results are given as inputs.

Three safeguards a reader might expect are absent from the code, and the model does not add them:

- The code has no generation token, so a late history load is not discarded.
- The code never unsubscribes the old `messageAdded` listener.
- The code never clears the staged files after a send, so `OnAddMessage` changes no state.

A successful load replaces the feed wholesale, so a live entry appended before the load
finished is dropped. The contract of `LoadMessages` shows this: the new feed does not
depend on the old one.

## Model

| member | source | states |
|---|---|---|
| Messages.FinalPage | src/views/MessagesView.tsx:123-127 | the loop stops at the first page whose `hasPrevPage` is false: every earlier page has an older one; with no such page every page claims an older one |
| Messages.History | src/views/MessagesView.tsx:117-128 | the load succeeds exactly when some page of the chain has no older page; it fails with `GetMessagesRejected` exactly when `getMessages()` gave nothing |
| Messages.PrependPage | src/views/MessagesView.tsx:125 | fetching one more (older) page puts its items in front of everything collected so far |
| Messages.HistoryOrder | src/views/MessagesView.tsx:120-128 | the history holds all items of the fetched pages; item j of the k-th page fetched sits right after all items of the older pages fetched after it, so pages run oldest to newest and each keeps its internal order |
| Messages.NewestPageLast | src/views/MessagesView.tsx:120-128 | the first page fetched, the newest, ends the history, after the history of the older pages |
| Messages.SinglePageHistory | src/views/MessagesView.tsx:123-127 | a first page with no older page is the whole history; a single empty page gives an empty history and no error |
| Messages.HistoryIgnoresLaterPages | src/views/MessagesView.tsx:127 | pagination stops after the first page without an older one: pages beyond it never change the result |
| Messages.TwoPageHistory | src/views/MessagesView.tsx:120-128 | a newest page [m3, m4] with an older last page [m1, m2] loads as [m1, m2, m3, m4] |
| Messages.ChatId | src/views/MessagesView.tsx:164 | the id is 0 or 1, and 0 exactly when the viewer's username is present and equals the author; an absent username always gives 1 |
| Messages.UrlFragmentShape | src/views/MessagesView.tsx:150 | an attachment adds a space and then a prefix of its URL of at most 120 characters (the whole URL when shorter); an absent URL adds a space alone; at most 121 characters in all |
| Messages.FragmentsLength | src/views/MessagesView.tsx:144-150 | n attachments add between n and 121·n characters |
| Messages.FragmentsAppend | src/views/MessagesView.tsx:145-150 | the fragments of two runs of attachments are the fragments of the first run followed by those of the second |
| Messages.FragmentsInOrder | src/views/MessagesView.tsx:145-150 | attachment i's fragment sits between the fragments of the attachments before it and those after it |
| Messages.MessageBodyShape | src/views/MessagesView.tsx:142-150 | a body starts with the message text or ""; it is exactly that text unless the message is of type media and has an attachment list, and then it is longer by between 1 and 121 characters per attachment |
| Messages.ChatFeed | src/views/MessagesView.tsx:130-134 | the mapped feed has one entry per raw message, and entry i is the mapping of raw message i |
| Messages.ChatFeedAppend | src/views/MessagesView.tsx:130-134 | mapping commutes with concatenation, so history followed by live messages maps as history's feed followed by the live entries |
| Messages.MessagesView.constructor | src/views/MessagesView.tsx:78-85 | a new view has an empty feed and no staged files |
| Messages.MessagesView.MakeChatMessage | src/views/MessagesView.tsx:141-169 | the entry has the body built fragment by fragment in attachment order, the id 0 exactly for the viewer's own messages, the author or "" as sender, and the record's own `dateCreated` |
| Messages.MessagesView.CollectHistory | src/views/MessagesView.tsx:118-128 | the paging loop yields the fetched pages reversed and flattened, or the rejection that stops it |
| Messages.MessagesView.MapMessages | src/views/MessagesView.tsx:130-134 | the mapping loop yields the mapped feed of the collected history, in order |
| Messages.MessagesView.LoadMessages | src/views/MessagesView.tsx:117-139 | the load settles with exactly the history outcome of the chain; a successful load replaces the feed wholesale with the mapped history; a rejected load leaves it; staged files are untouched |
| Messages.MessagesView.MessageAdded | src/views/MessagesView.tsx:171-184 | a live event appends exactly one mapped entry at the end and leaves every earlier entry in place |
| Messages.MessagesView.OnAddMedia | src/views/MessagesView.tsx:111-115 | a new file selection replaces the staged files and leaves the feed alone |
| Messages.MessagesView.OnAddMessage | src/views/MessagesView.tsx:91-109 | the outbound message has the typed text and one media part per staged file in selection order, none when nothing is staged; the view's state, staged files included, does not change |
| Messages.MessagesView.ComponentDidMount | src/views/MessagesView.tsx:186-190 | mounting loads the history as `LoadMessages` does and settles with the same outcome |
| Messages.MessagesView.ComponentDidUpdate | src/views/MessagesView.tsx:198-207 | the view takes the new `sid`; with an unchanged `sid` nothing is loaded, the outcome is `None` and the feed stays; a changed `sid` reloads as `LoadMessages` does and settles with that load's outcome |
| Conversations.WithoutSidMembers | src/views/Conversations.tsx:70-72 | after a delete an entry is in the list exactly when it was before and its `sid` differs from the deleted one; the list shrinks by the number of entries with that `sid` |
| Conversations.WithoutSidAppend | src/views/Conversations.tsx:71 | the filter works piece by piece over a concatenation, so the remaining entries keep their relative order |
| Conversations.WithoutAbsentSid | src/views/Conversations.tsx:70-72 | deleting a `sid` no entry carries leaves the list unchanged |
| Conversations.WithoutSidIdempotent | src/views/Conversations.tsx:71 | filtering out the same `sid` twice removes nothing more |
| Conversations.App.constructor | src/views/Conversations.tsx:35-37 | the initial state is an empty list with no active conversation |
| Conversations.App.ConversationsLoaded | src/views/Conversations.tsx:39-45 | the fetched items replace the list; the active conversation is untouched |
| Conversations.App.OnAdd | src/views/Conversations.tsx:47-50 | the created conversation is appended at the end and every earlier entry stays, in order |
| Conversations.App.OnSelect | src/views/Conversations.tsx:68 | the chosen conversation becomes active and the list is unchanged |
| Conversations.App.OnDelete | src/views/Conversations.tsx:69-74 | exactly the entries with the deleted `sid` go, the rest keep their order, and no conversation is active afterwards, whichever one was |

## Left out

- Registering the `messageAdded` listener (MessagesView.tsx lines 172, 187 and 203) is not modelled. The source never removes a listener, so after a switch the old conversation's events still append to the view. Switching back (A, then B, then A) registers a second listener on A, so if the same conversation object is handed back every later event of A is appended twice; the parent that hands the conversation over is not part of this model. Only the listener's effect on the feed is modelled, as `MessageAdded`.
- The model does not cover async interleaving between a live append and the `setState` of `loadMessages`. Nor does it cover two loads in flight at once, or React's batching of `setState`. Each operation is one sequential step.
- The SDK calls `getMessages`, `prevPage`, `getContentTemporaryUrl`, `send`, `createConversation`, `join`, `delete` and `getSubscribedConversations` are network calls. Their results are inputs to the model.
- A `getContentTemporaryUrl()` that rejects is not modelled; only an absent URL is. During a history load such a rejection would reject `loadMessages` before its `setState`, leaving the feed as it was. In the live listener it would reach the `.catch` (MessagesView.tsx line 182), which logs it with `console.error` and drops the event.
- A rejected `send()` is not modelled, because it changes no state.
- `FormData` construction is a browser API. Each staged file is one opaque media part.
- `formatDate`, the luxon formatting, `render`, `ChatMessageWrapper`, `ConversationItem`'s confirmation dialog and the theme and layout components are UI.
- A failed history load is not logged anywhere: the rejection of `loadMessages` escapes `componentDidMount` and `componentDidUpdate` (MessagesView.tsx lines 189 and 206) unhandled. In the model `LoadMessages`, `ComponentDidMount` and `ComponentDidUpdate` return that rejection as a `LoadError` outcome, which is what the source's promise rejects with, and leave the feed unchanged. The `console.error` calls (MessagesView.tsx line 182 for a failed live mapping, Conversations.tsx line 44 for a failed conversation-list load) are not modelled.
- Messages.MessagesView.MessageAdded: calls are taken in the order the mappings finish, which is the order the source appends in (the `setState` runs when the `makeChatMessage` promise resolves, MessagesView.tsx lines 173-180). For media messages that order can differ from the order events arrive. A text message resolves within a microtask, but a media message waits on one `getContentTemporaryUrl()` network call per attachment (line 147). So a text event arriving after a media event can be appended first. The model does not capture the arrival order.
- Messages.MessagesView.MakeChatMessage and Messages.UrlFragmentShape: the 120-character cut counts Dafny characters, whereas `substring(0, 120)` counts UTF-16 code units and can split a surrogate pair. The model does not capture that difference for URLs outside the Basic Multilingual Plane.
- Conversations.App.ConversationsLoaded: the source stores only the `items` of the first page of the `getSubscribedConversations()` paginator (Conversations.tsx line 42) and never fetches further pages, so conversations past the first page never appear. The model's `items` is that first page.
- `App`'s handlers capture the `conversations` value of the render that created them (Conversations.tsx lines 49 and 71). This matters only when another update lands between that render and the handler call. The model applies each handler to the current list.
