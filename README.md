# ask-ai-web: a Dafny model of the conversation state and the use-case layer

ask-ai-web is a chat front end to a large language model, with custom
personas ("custom GPTs"), starred personas and guest chats keyed by client IP.
This project models the parts of it that hold logic:

- **Client-side conversation state.** The chat cache and loaded flags of
  `StoreContext` (`StoreContext.AppStore`). The flat message store of
  `useStore` (`UseStore.Store`). The optimistic two-phase send of
  `ChatInterface` (`ChatInterface.ChatComponent`): it appends the user
  message and an empty assistant placeholder, then fills the placeholder or
  drops it. The session hook `useChatSessions` (`ChatSessions.SessionsHook`):
  session creation and reuse, the title, the choice of system prompt, the
  history window and the streamed reply. The persona hook `useCustomGpts`
  (`CustomGptsHook.GptsHook`): form normalisation, the star list and the
  no-user guards.
- **Domain entities.** Chat and User are classes whose methods update
  fields. CustomGPT is a class too. Message is a value.
- **Use cases.** SendMessage, GetChatMessages, GetUserChats, CreateCustomGPT,
  StarCustomGPT, SignUpUser and SyncGoogleUser. They run over in-memory
  repositories (`Repositories`) shaped like the repository interfaces: a map
  from id to row, or an append-only message log.
- **Request identity and the AI client.** `getClientIP`, the retry loop of
  `getAuthHeaders`, `authenticate`/`requireAuth`, and the message shaping of
  `GroqAIService`.

Everything outside the program is a parameter. That covers the clock, fresh
UUIDs and ids the database assigns, the Supabase answers, the Groq SDK (a
function from the request to an answer), the session tokens seen by each
retry, the streamed response body (a sequence of chunks), and `confirm()`.
Strings are sequences of characters. `trim` works over an explicit set of
ASCII whitespace: space, tab, line feed, carriage return, vertical tab and
form feed. JavaScript truthiness of an optional string means present and
non-empty (`Text.Truthy`).

Two details of the code that a reader may not expect:

- The cache serves an entry while `now - loadedAt <= 300000`: expiry is
  `> CACHE_DURATION` (lib/context/StoreContext.js:56). The boundary instant is
  therefore still fresh (`StoreContext.ExpiryBoundary`).
- Starring through the `useCustomGpts` hook appends without a duplicate check
  (src/hooks/useCustomGpts.ts:90). Only the User entity's `starGPT` is
  idempotent. `CustomGptsHook.ToggleProperties` proves the two differ on an
  id that is already starred.

Behaviour of the source that the model keeps, although it may surprise:

- `ChatInterface` sends as context the list as read before the two appends,
  minus its last element (components/ChatInterface.jsx:56). The newest
  earlier message is therefore never sent (`ChatInterface.ContextLeavesOutLatest`).
- The reply fills the placeholder with the server's `message` object, not a
  string (`UseStore.Content.Payload`).
- A failed reload of the chat list after a first reply lands in the same
  `catch` as a failed send. It removes the last message, which is by then
  the filled reply (`ChatInterface.ChatComponent.Settle`).
- `SendMessage` creates the new chat before it checks the message. A blank
  message therefore leaves an empty chat behind
  (`SendMessageUseCase.SendMessage.Execute`).
- With a `maxHistory` of 0, `slice(-0)` keeps the whole history
  (`ChatSessions.ZeroWindowSendsAll`).

## Model

| member | source | states |
|---|---|---|
| `StoreContext.Lookup` | lib/context/StoreContext.js:50-59 | An entry is served iff it exists and `now - loadedAt <= 300000`; what is served is the stored entry itself. |
| `StoreContext.ExpiryBoundary` | lib/context/StoreContext.js:55-58 | An entry is still served exactly 300000 ms after loading and is not served one millisecond later. |
| `StoreContext.WithLastContent` | lib/context/StoreContext.js:78-82 | The copied list has the same length and the same earlier elements. The last element has the new content and keeps its role and time. |
| `StoreContext.WithLastContentLaws` | lib/context/StoreContext.js:78-82 | A second overwrite of the last content wins over the first, and writing back the current content changes nothing. |
| `StoreContext.AppStore.constructor` | lib/context/StoreContext.js:8-22 | Starts with no user, empty lists, no selected GPT, all three loaded flags false and an empty cache. |
| `StoreContext.AppStore.SetUser` | lib/context/StoreContext.js:8 | Replaces the user and nothing else. |
| `StoreContext.AppStore.SetChats` | lib/context/StoreContext.js:25-28 | Replaces the chat list and raises `chatsLoaded`; the other flags and fields stay as they were. |
| `StoreContext.AppStore.SetCustomGpts` | lib/context/StoreContext.js:30-33 | Replaces the custom GPT list and raises only `customGPTsLoaded`. |
| `StoreContext.AppStore.SetPublicGpts` | lib/context/StoreContext.js:116 | Replaces the public GPT list and raises no flag. |
| `StoreContext.AppStore.SetStarredGpts` | lib/context/StoreContext.js:35-38 | Replaces the starred GPT list and raises only `starredGPTsLoaded`. |
| `StoreContext.AppStore.SetSelectedGpt` | lib/context/StoreContext.js:13 | Replaces the selected GPT and nothing else. |
| `StoreContext.AppStore.SetIsLoading` | lib/context/StoreContext.js:14 | Replaces the loading flag and nothing else. |
| `StoreContext.AppStore.SetChatCache` | lib/context/StoreContext.js:40-48 | The entry for the id becomes the given chat and messages with `loadedAt = now`; every other key is unchanged; the new entry is served at once. |
| `StoreContext.AppStore.GetChatCache` | lib/context/StoreContext.js:50-59 | `null` for a missing entry; otherwise the entry iff it is at most 300000 ms old. |
| `StoreContext.AppStore.AddMessageToCache` | lib/context/StoreContext.js:61-72 | An uncached id leaves the cache as it was. A cached id gets the message appended, with `chat` and `loadedAt` unchanged, so at every time the entry is fresh exactly when it was before. |
| `StoreContext.AppStore.UpdateLastMessageInCache` | lib/context/StoreContext.js:74-91 | No change for a missing entry or an empty list. Otherwise only the last message's content changes, and every other key is unchanged. |
| `StoreContext.AppStore.ClearCache` | lib/context/StoreContext.js:93-98 | Empties the cache, so nothing is served for any id at any time, and lowers the three loaded flags; the user and the lists are untouched. |
| `UseStore.SetLastContent` | lib/store/useStore.js:24-30 | Same length and same earlier messages; the last message keeps its role and time and takes the new content. |
| `UseStore.FillAfterAppend` | lib/store/useStore.js:20-30 | After appending two messages, filling the last one leaves the first and everything before them untouched; dropping the last afterwards leaves `history ++ [first]`. |
| `UseStore.Store.constructor` | lib/store/useStore.js:4-10 | Starts with no user, no current chat, empty lists and `isLoading` false. |
| `UseStore.Store.SetUser` | lib/store/useStore.js:12 | Replaces exactly the user. |
| `UseStore.Store.SetChats` | lib/store/useStore.js:13 | Replaces exactly the chat list. |
| `UseStore.Store.SetCurrentChat` | lib/store/useStore.js:14 | Replaces exactly the current chat. |
| `UseStore.Store.SetMessages` | lib/store/useStore.js:15 | Replaces exactly the message list. |
| `UseStore.Store.SetCustomGpts` | lib/store/useStore.js:16 | Replaces exactly the custom GPT list. |
| `UseStore.Store.SetSelectedGpt` | lib/store/useStore.js:17 | Replaces exactly the selected GPT. |
| `UseStore.Store.SetIsLoading` | lib/store/useStore.js:18 | Replaces exactly the loading flag. |
| `UseStore.Store.AddMessage` | lib/store/useStore.js:20-22 | `messages == old ++ [m]`; no other field changes. |
| `UseStore.Store.UpdateLastMessage` | lib/store/useStore.js:24-30 | An empty list stays empty; otherwise only the last message's content becomes the given content. |
| `UseStore.Store.ClearMessages` | lib/store/useStore.js:32 | `messages == []`. |
| `ChatInterface.ContextOf` | components/ChatInterface.jsx:56 | The context is the pre-send list minus its last element: adding that element back gives the list. |
| `ChatInterface.ContextLeavesOutLatest` | components/ChatInterface.jsx:56 | With a non-empty history the context has one element fewer and is the history's prefix without its newest message. |
| `ChatInterface.ChatComponent.constructor` | components/ChatInterface.jsx:14-17 | Starts with an empty input and no stream in progress, over the given store. |
| `ChatInterface.ChatComponent.Settle` | components/ChatInterface.jsx:64-85 | A failed send drops the last message. A reply fills the last message's content. A reply naming a chat when none was current sets `currentChat` and reloads the chat list (`chats || []`). A failed reload drops the filled message. Nothing else in the store changes. |
| `ChatInterface.ChatComponent.HandleSend` | components/ChatInterface.jsx:26-89 | A blank input or a stream in progress changes nothing. Otherwise the request carries the trimmed text, the current chat id, the selected GPT id and `ContextOf(before)`. Messages end as `before ++ [user]` on failure and `before ++ [user, filled placeholder]` on success. The input is cleared and `isStreaming` is false at the end. |
| `ChatInterface.ChatComponent.Answer` | components/ChatInterface.jsx:64-85 | The outcome of `Settle`, stated over the list as it was before the two optimistic appends. |
| `ChatSessions.FirstSession` | src/hooks/useChatSessions.ts:58 | The index of the first session with the id, and no earlier match; `None` iff no session has it. |
| `ChatSessions.FindSession` | src/hooks/useChatSessions.ts:91 | A session is found iff one has the id, and it is the first such session. |
| `ChatSessions.WithGptKeepsSessions` | src/hooks/useChatSessions.ts:61-64 | Re-associating the GPT keeps the number of sessions and every id, title, time and message list; only matching sessions get the new `gpt_id`. |
| `ChatSessions.WithReplyOverrides` | src/hooks/useChatSessions.ts:166-170 | A later streaming update replaces an earlier one entirely. |
| `ChatSessions.SystemPromptFor` | src/hooks/useChatSessions.ts:136-140 | The preferences' prompt unless the active session's truthy `gpt_id` matches a custom GPT; then the instructions of the first matching GPT. |
| `ChatSessions.FirstGpt` | src/hooks/useChatSessions.ts:138 | The index of the first GPT with the id, and no earlier match; `None` iff there is none. |
| `ChatSessions.HistoryWindow` | src/hooks/useChatSessions.ts:143-147 | For `maxHistory >= 1` the request holds `1 + min(maxHistory, n)` messages: the system prompt, then the last ones of the updated history in order, reduced to role and content. |
| `ChatSessions.ZeroWindowSendsAll` | src/hooks/useChatSessions.ts:143 | A window of 0 sends the whole history. |
| `ChatSessions.InsertByTime` | src/hooks/useChatSessions.ts:32-34 | Insertion adds exactly the one message (multiset). |
| `ChatSessions.InsertKeepsSorted` | src/hooks/useChatSessions.ts:32-34 | Inserting into a list sorted by `created_at` keeps it sorted. |
| `ChatSessions.SortByTime` | src/hooks/useChatSessions.ts:32-34 | The result is sorted ascending by `created_at` (absent counts as 0) and is a permutation of the input. |
| `ChatSessions.InsertAtEnd` | src/hooks/useChatSessions.ts:32-34 | A message whose key is not smaller than any other goes last, so equal keys keep their order. |
| `ChatSessions.SortKeepsSorted` | src/hooks/useChatSessions.ts:32-34 | A list that is already in order is returned unchanged. |
| `ChatSessions.SessionsHook.constructor` | src/hooks/useChatSessions.ts:12-15 | No sessions, no active id, empty input, not loading. |
| `ChatSessions.SessionsHook.CreateNewChat` | src/hooks/useChatSessions.ts:57-77 | An active empty session is reused: no session is added, and only its `gpt_id` changes, and only if it differs. Otherwise a "New Conversation" session with no messages and the given `gpt_id` is put first and made active, after the old sessions unchanged. |
| `ChatSessions.SessionsHook.HandleSend` | src/hooks/useChatSessions.ts:97-171 | The guard (blank input, loading, no active id) changes nothing. Otherwise the active sessions get `old ++ [user(input)]` and the 30-character title if they were empty. The posted messages are the prompt plus the history window. The sessions end with the reply as the concatenation of all chunks. The input is cleared and loading is false. |
| `ChatSessions.SessionsHook.StreamReply` | src/hooks/useChatSessions.ts:159-171 | After the chunks are read the active sessions show `updated ++ [assistant(concat of chunks)]`; no chunk leaves the sessions as they were. |
| `ChatSessions.SessionsHook.LoadRemoteSessions` | src/hooks/useChatSessions.ts:19-41 | On success the sessions become the loaded chats in order, each with its messages sorted by time; an error or no data changes nothing. |
| `CustomGptsHook.CollapseNewlines` | src/hooks/useCustomGpts.ts:42 | The output never holds three newlines in a row (given the newlines already kept). |
| `CustomGptsHook.CollapseBlanks` | src/hooks/useCustomGpts.ts:43 | The output holds no tab and no two consecutive spaces. |
| `CustomGptsHook.CollapseBlanksKeepsNoTriple` | src/hooks/useCustomGpts.ts:42-43 | Collapsing blanks after collapsing newlines never creates a run of three newlines. |
| `CustomGptsHook.InstructionsAreNormal` | src/hooks/useCustomGpts.ts:40-44 | Normalised instructions hold no run of three newlines, no tab and no double space, and start and end with a non-whitespace character. |
| `CustomGptsHook.NormalizeForm` | src/hooks/useCustomGpts.ts:39-47 | A missing field throws the `TypeError` of the first method called on it, read in source order: `(reading 'trim')` for `name`, then `(reading 'replace')` for `instructions`, then `(reading 'trim')` for `description`. Otherwise the name and description are trimmed and the instructions normalised. `user_instruction`, when present, is trimmed after its CRLFs become LFs. `is_public` is true iff the field equals "on". |
| `CustomGptsHook.ToggledStars` | src/hooks/useCustomGpts.ts:87-90 | Unstarring filters the id out; starring appends it. |
| `CustomGptsHook.ToggleProperties` | src/hooks/useCustomGpts.ts:87-90 | Unstarring removes every occurrence and keeps the other ids in order. Starring adds one more occurrence, so it differs from the entity's `starGPT` on an id already starred. |
| `CustomGptsHook.Visible` | src/hooks/useCustomGpts.ts:13-20 | The rows selected are exactly the user's own and the public ones, or only the public ones without a user id. |
| `CustomGptsHook.GptsHook.constructor` | src/hooks/useCustomGpts.ts:5-9 | No GPTs, modal closed, nothing being edited, not saving. |
| `CustomGptsHook.GptsHook.LoadCustomGpts` | src/hooks/useCustomGpts.ts:13-27 | A successful query replaces the list with the visible rows; an error keeps it. |
| `CustomGptsHook.GptsHook.SaveGpt` | src/hooks/useCustomGpts.ts:33-82 | Without a user nothing happens. A missing field rethrows `NormalizeForm`'s error and nothing is written. Otherwise the GPT being edited is updated, or a row owned by the user is inserted. A write error is rethrown and the state is kept. Success reloads the list, closes the modal and clears the editing GPT. Saving is false at the end. |
| `CustomGptsHook.GptsHook.ToggleStarGpt` | src/hooks/useCustomGpts.ts:84-95 | No write without a user. Otherwise the write targets the user's profile: unstarring writes `RemoveAll` of the current list (the other ids in their order, the id gone), and starring appends it to `starred_gpt_ids \|\| []`. |
| `CustomGptsHook.GptsHook.DeleteGpt` | src/hooks/useCustomGpts.ts:108-114 | Nothing without a user or without confirmation; otherwise the row is deleted and the list reloaded. |
| `ChatEntity.GenerateTitle` | lib/domain/entities/Chat.js:43-46 | The trimmed message if it fits, else its first `maxLength` characters plus "..."; never longer than `maxLength + 3`. |
| `ChatEntity.TitleAtLimitIsWholeMessage` | lib/domain/entities/Chat.js:45 | A trimmed message of exactly 50 characters is its own title, without an ellipsis. |
| `ChatEntity.LongTitleIsTruncated` | lib/domain/entities/Chat.js:43-46 | A trimmed message longer than the limit becomes its prefix plus "...", of length `maxLength + 3`. |
| `ChatEntity.ShortTitleIsUnchanged` | lib/domain/entities/Chat.js:43-46 | A trimmed message within the limit is kept as it is. |
| `ChatEntity.Chat.constructor` | lib/domain/entities/Chat.js:6-13 | The chat holds exactly the given row. |
| `ChatEntity.Chat.UpdateTitle` | lib/domain/entities/Chat.js:32-38 | A blank title is refused and nothing changes; otherwise the title becomes the trimmed, non-empty title and `updatedAt` becomes now. |
| `ChatEntity.Chat.Touch` | lib/domain/entities/Chat.js:51-53 | Only `updatedAt` changes, to now. |
| `ChatEntity.GuestChatHasNoOwner` | lib/domain/entities/Chat.js:18-28 | A guest chat is owned by no (non-empty) user. |
| `MessageEntity.IsValidRole` | lib/domain/entities/Message.js:31-33 | True iff the role is "user" or "assistant". |
| `MessageEntity.RolesExclusive` | lib/domain/entities/Message.js:17-33 | No message is both a user and an assistant message, and a role is valid iff it is one of the two. |
| `MessageEntity.CreateUserMessage` | lib/domain/entities/Message.js:38-50 | Blank content is refused with "Message content cannot be empty". Otherwise the message is a user message with no id, the chat id and trimmed, non-empty content. |
| `MessageEntity.CreateAssistantMessage` | lib/domain/entities/Message.js:55-63 | An assistant message with the content verbatim, even when empty, and no id. |
| `UserEntity.NameOrEmailLocalPart` | lib/domain/entities/User.js:42 | A truthy name, else the part of the email before its first '@'. |
| `UserEntity.Starred` | lib/domain/entities/User.js:25-29 | The id is in the result, which extends the old list: an id already present leaves the list unchanged, and an absent one is appended once at the end. |
| `UserEntity.StarIdempotent` | lib/domain/entities/User.js:25-29 | Starring twice is starring once. |
| `UserEntity.StarAbsentAppendsOnce` | lib/domain/entities/User.js:25-29 | An absent id is appended at the end, exactly once, and no other id's count changes. |
| `UserEntity.UnstarProperties` | lib/domain/entities/User.js:34-36 | After unstarring, the id is absent. Unstarring an absent id changes nothing. The remaining ids keep their order. |
| `UserEntity.StarThenUnstar` | lib/domain/entities/User.js:25-36 | Starring an absent id and unstarring it gives back the original list. |
| `UserEntity.User.FromRow` | lib/domain/entities/User.js:6-13 | The user holds exactly the given row. |
| `UserEntity.User.StarGpt` | lib/domain/entities/User.js:25-29 | The list becomes `Starred(old, g)`, and `hasStarredGPT(g)` then holds. |
| `UserEntity.User.UnstarGpt` | lib/domain/entities/User.js:34-36 | The list becomes the old list without `g`, and `hasStarredGPT(g)` then fails. |
| `UserEntity.User.DisplayName` | lib/domain/entities/User.js:41-43 | The truthy name, else the email's part before its first '@' (the whole email when it has none). |
| `CustomGptEntity.Validate` | lib/domain/entities/CustomGPT.js:62-78 | Each message is reported iff its condition holds. The messages come in source order. The list is empty iff the name and prompt are non-blank and the name has at most 100 characters. |
| `CustomGptEntity.NameLengthBoundary` | lib/domain/entities/CustomGPT.js:73-75 | A 100-character name passes; a 101-character name fails with the length message alone. |
| `CustomGptEntity.EmptyNameReportedFirst` | lib/domain/entities/CustomGPT.js:65-67 | An empty name is the first error reported. |
| `CustomGptEntity.Patched` | lib/domain/entities/CustomGPT.js:52-57 | Each of name, description, system prompt and visibility takes the patch's value when provided and keeps the row's otherwise; `id`, creator id, creator name and `createdAt` never change. An explicit `null` is not modelled (see "## Left out"). |
| `CustomGptEntity.PatchProperties` | lib/domain/entities/CustomGPT.js:52-57 | An empty patch changes nothing, and a patch applied twice acts once. Two patches in turn act as one, in which the later patch's provided fields win. |
| `CustomGptEntity.CustomGpt.constructor` | lib/domain/entities/CustomGPT.js:6-26 | The GPT holds exactly the given row and star flag. |
| `CustomGptEntity.CustomGpt.MakePublic` | lib/domain/entities/CustomGPT.js:38-40 | Only `isPublic` changes, to true. |
| `CustomGptEntity.CustomGpt.MakePrivate` | lib/domain/entities/CustomGPT.js:45-47 | Only `isPublic` changes, to false. |
| `CustomGptEntity.CustomGpt.Update` | lib/domain/entities/CustomGPT.js:52-57 | The row becomes `Patched(old, patch)`. |
| `Repositories.ChatRepository.Create` | lib/infrastructure/repositories/ChatRepository.js:14-38 | A taken id fails and changes nothing; otherwise exactly that row is added. |
| `Repositories.ChatRepository.FindById` | lib/infrastructure/repositories/ChatRepository.js:40-60 | Found iff the id is stored, and then the stored row. |
| `Repositories.ChatRepository.FindByUserId` | lib/infrastructure/repositories/ChatRepository.js:62-79 | Exactly the stored chats of that user, each once. |
| `Repositories.ChatRepository.FindByGuestIp` | lib/infrastructure/repositories/ChatRepository.js:81-98 | Exactly the stored chats of that guest IP, each once. |
| `Repositories.ChatRepository.Update` | lib/infrastructure/repositories/ChatRepository.js:100-121 | A missing chat fails; otherwise only its title and `updatedAt` are written. |
| `Repositories.ChatRepository.Delete` | lib/infrastructure/repositories/ChatRepository.js:123-130 | The id is removed and nothing else. |
| `Repositories.MessagesOf` | lib/infrastructure/repositories/MessageRepository.js:37-53 | Exactly the logged messages of the chat. |
| `Repositories.MessagesOfAppend` | lib/infrastructure/repositories/MessageRepository.js:14-53 | Logging a message adds it to its own chat's list and to no other. |
| `Repositories.MessageRepository.Create` | lib/infrastructure/repositories/MessageRepository.js:14-35 | The message is logged last, with the id the store assigns. |
| `Repositories.MessageRepository.FindById` | lib/infrastructure/repositories/MessageRepository.js:55-74 | A logged message with that id, or `None` when none has it. |
| `Repositories.MessageRepository.DeleteByChatId` | lib/infrastructure/repositories/MessageRepository.js:76-83 | The log becomes `WithoutChat(old, chatId)`: the chat's own list becomes empty and every other chat's list is exactly as before, in order. |
| `Repositories.WithoutChat` | lib/infrastructure/repositories/MessageRepository.js:76-83 | A message is kept iff it is logged and belongs to another chat. |
| `Repositories.WithoutChatMessages` | lib/infrastructure/repositories/MessageRepository.js:76-83 | After the delete, `findByChatId` gives `[]` for the chat and the unchanged list for every other chat. |
| `Repositories.UserRepository.FindById` | lib/infrastructure/repositories/UserRepository.js:14-34 | Found iff the id is stored, and then the stored row. |
| `Repositories.UserRepository.Create` | lib/infrastructure/repositories/UserRepository.js:58-82 | A taken id fails and changes nothing; otherwise exactly that row is added. |
| `Repositories.UserRepository.UpdateStarredGpts` | lib/infrastructure/repositories/UserRepository.js:107-125 | A missing user fails; otherwise only that user's star list is written. |
| `Repositories.CustomGptRepository.FindById` | lib/infrastructure/repositories/CustomGPTRepository.js:50-79 | Found iff the id is stored, and then the stored row. |
| `Repositories.CustomGptRepository.Create` | lib/infrastructure/repositories/CustomGPTRepository.js:14-48 | A taken id fails and changes nothing; otherwise exactly that row is added. |
| `Repositories.CustomGptRepository.Update` | lib/infrastructure/repositories/CustomGPTRepository.js:208-240 | A missing GPT fails with nothing changed. Otherwise only name, description, system prompt and visibility are written; creator and `createdAt` keep the stored values, and the result is the updated row. |
| `Repositories.CustomGptRepository.Delete` | lib/infrastructure/repositories/CustomGPTRepository.js:242-249 | The id is removed and nothing else. |
| `SendMessageUseCase.SystemPromptFor` | lib/application/use-cases/chat/SendMessage.js:47-53 | A prompt iff the truthy GPT id names a stored GPT, and then that GPT's prompt. |
| `SendMessageUseCase.MessagesForAi` | lib/application/use-cases/chat/SendMessage.js:56-59 | The previous turns unchanged, then the raw, untrimmed message as a user turn. |
| `SendMessageUseCase.SendAppendsTwoMessages` | lib/application/use-cases/chat/SendMessage.js:43-66 | A successful send grows the chat's message list by the user message and then the reply; every other chat's list is unchanged. |
| `SendMessageUseCase.SendMessage.FindOrCreate` | lib/application/use-cases/chat/SendMessage.js:18-40 | A given id must exist ("Chat not found"). Without one, exactly one chat is created, titled from the message and owned by the truthy user id and guest IP. |
| `SendMessageUseCase.SendMessage.StoreQuestion` | lib/application/use-cases/chat/SendMessage.js:43-44 | A blank message is refused with nothing stored; otherwise the trimmed user message is logged. |
| `SendMessageUseCase.SendMessage.StoreReply` | lib/application/use-cases/chat/SendMessage.js:65-80 | The reply is logged, the chat's `updatedAt` becomes now and is written back, and the result carries the chat id, title and reply. |
| `SendMessageUseCase.SendMessage.Deliver` | lib/application/use-cases/chat/SendMessage.js:42-80 | Blank message: nothing logged. AI failure: the user message stays logged and the chat is untouched. Success: both messages logged and the chat touched. |
| `SendMessageUseCase.SendMessage.Execute` | lib/application/use-cases/chat/SendMessage.js:17-81 | A missing chat (or a taken new id) stops before any write. A blank message stops after the chat was created. An AI error stops after the user message was stored. A success logs both messages, touches the chat and returns its id and title. |
| `GetChatMessagesUseCase.Views` | lib/application/use-cases/chat/GetChatMessages.js:28-36 | Each message, in order, as role, content and `created_at`. |
| `GetChatMessagesUseCase.AccessRules` | lib/application/use-cases/chat/GetChatMessages.js:19-25 | The owner gets through, with or without an IP. A guest with the chat's IP gets through. A caller with neither id is never refused. A signed-in caller is refused a chat with no owner, even from its guest IP. |
| `GetChatMessagesUseCase.GetChatMessages.Execute` | lib/application/use-cases/chat/GetChatMessages.js:11-37 | "Chat not found" for a missing chat and "Unauthorized" for a refused caller; otherwise the chat's messages in log order. |
| `GetUserChatsUseCase.Summaries` | lib/application/use-cases/chat/GetUserChats.js:21-28 | Each chat, in order, as id, title and both times. |
| `GetUserChatsUseCase.UserLookupIgnoresGuestIp` | lib/application/use-cases/chat/GetUserChats.js:13-16 | With a user id the guest IP plays no part, and only that user's chats are selected. |
| `GetUserChatsUseCase.GetUserChats.Execute` | lib/application/use-cases/chat/GetUserChats.js:10-29 | Neither id: an empty list. Otherwise exactly the selected chats' summaries, each once. |
| `CreateCustomGptUseCase.NewGptRow` | lib/application/use-cases/custom-gpt/CreateCustomGPT.js:28-37 | Trimmed name and prompt. The description is trimmed or defaults to "". `isPublic` is true iff given as true. The creator's name is copied. |
| `CreateCustomGptUseCase.NewGptIsWellFormed` | lib/application/use-cases/custom-gpt/CreateCustomGPT.js:16-37 | Every stored GPT has a trimmed, non-empty name of at most 100 characters and a trimmed, non-empty prompt, and validates again. |
| `CreateCustomGptUseCase.CreateCustomGpt.Execute` | lib/application/use-cases/custom-gpt/CreateCustomGPT.js:14-54 | Validation errors are joined by ", " before any lookup. An unknown creator gives "Creator not found". Otherwise exactly the new row is added. |
| `StarCustomGptUseCase.NewStars` | lib/application/use-cases/custom-gpt/StarCustomGPT.js:25-29 | Starring an id already present leaves the list unchanged; an absent id is appended once at the end. Unstarring is `RemoveAll`: the id is gone and every other id keeps its count and its order. |
| `StarCustomGptUseCase.StarUnstarRoundTrip` | lib/application/use-cases/custom-gpt/StarCustomGPT.js:25-29 | Starring then unstarring leaves the list with every occurrence of the id removed. Unstarring an absent id changes nothing. |
| `StarCustomGptUseCase.StarCustomGpt.Execute` | lib/application/use-cases/custom-gpt/StarCustomGPT.js:11-38 | "User not found" or "Custom GPT not found" (for unstar too) change nothing. Otherwise only that user's star list is written, and the result is `{success: true, starred: star}`. |
| `StarCustomGptUseCase.StarCustomGpt.ExecuteWithDefault` | lib/application/use-cases/custom-gpt/StarCustomGPT.js:11-38 | With `star` left out it stars: the same errors, and otherwise the list becomes `Starred(old, gptId)` and `starred: true` is returned. |
| `SignUpUserUseCase.NewUserRow` | lib/application/use-cases/auth/SignUpUser.js:25-32 | The given fields, the name or the email's local part, and an empty star list. |
| `SignUpUserUseCase.NewUserDisplayName` | lib/application/use-cases/auth/SignUpUser.js:25-32 | A truthy name is kept; otherwise the name is the email's part before its first '@' (the whole email when it has none). |
| `SignUpUserUseCase.SignUpUser.Execute` | lib/application/use-cases/auth/SignUpUser.js:12-44 | A falsy id, email or password gives "Missing required fields". An existing id gives "User already exists" with nothing written. Otherwise the row is added and only id, email and name are returned. |
| `SyncGoogleUserUseCase.GoogleUserRow` | lib/application/use-cases/auth/SyncGoogleUser.js:22-29 | The id and email, the name or the email's local part, an empty star list and the fixed placeholder password. |
| `SyncGoogleUserUseCase.SyncGoogleUser.Execute` | lib/application/use-cases/auth/SyncGoogleUser.js:12-36 | A falsy id or email is refused. An existing user is returned with `isNew` false and no write. An absent one is created and returned with `isNew` true. |
| `SyncGoogleUserUseCase.SyncGoogleUser.SyncTwice` | lib/application/use-cases/auth/SyncGoogleUser.js:18-35 | Two calls with the same id: the second reports `isNew` false and returns the same user, and at most that one id is added. |
| `ClientIp.GetClientIp` | lib/utils/getClientIP.js:1-18 | A truthy `x-forwarded-for` gives its first comma-separated field, trimmed. Otherwise a truthy `x-real-ip`, then a truthy `cf-connecting-ip`, else "unknown". |
| `ClientIp.ForwardedChainGivesFirstHop` | lib/utils/getClientIP.js:7-9 | For `client,rest` the result is the trimmed client and holds no comma. |
| `ClientIp.BeforeFirstOfPrefix` | lib/utils/getClientIP.js:8 | `split(',')[0]` of `client,rest` is the client. |
| `ClientIp.EmptyHeaderIsSkipped` | lib/utils/getClientIP.js:7-15 | An empty `x-forwarded-for` acts as if it were absent. |
| `AuthHeaders.FirstSession` | lib/utils/getAuthHeaders.js:8-17 | The first attempt below `retries` whose session has a truthy token; `None` iff there is none. |
| `AuthHeaders.GetAuthHeaders` | lib/utils/getAuthHeaders.js:5-29 | The first attempt with a token returns Authorization plus Content-Type after that many fetches. Otherwise only Content-Type, after `max(retries, 0)` fetches and `max(retries - 1, 0)` pauses. Every pause lasts `interval`. |
| `AuthHeaders.GetDefaultAuthHeaders` | lib/utils/getAuthHeaders.js:5 | With the defaults, 1 to 3 session reads and one 500 ms pause fewer than the reads. Guest headers come only after three reads without a token; otherwise the reads stop at the first one with a token, and the headers carry Authorization. |
| `AuthMiddleware.BearerTokenExtracted` | lib/infrastructure/middleware/auth.js:15 | The token of `"Bearer " + t` is `t`. |
| `AuthMiddleware.Authenticate` | lib/infrastructure/middleware/auth.js:7-27 | `null` without a truthy Authorization header. A validator error, a missing user or a thrown error also give `null`. Otherwise the user the validator returns for the token. |
| `AuthMiddleware.RequireAuth` | lib/infrastructure/middleware/auth.js:33-41 | "Authentication required" iff `authenticate` yields null; otherwise the same user. |
| `GroqAiService.FormatMessages` | lib/infrastructure/services/GroqAIService.js:19-33 | A system turn comes first iff the prompt is truthy, then every message in order; the length is `n + (prompt ? 1 : 0)`. |
| `GroqAiService.CompletionText` | lib/infrastructure/services/GroqAIService.js:42 | "" iff there is no first choice, message or truthy content; otherwise that content. |
| `GroqAiService.GenerateCompletion` | lib/infrastructure/services/GroqAIService.js:17-46 | An SDK failure becomes "AI service error: " plus its message; a completion gives its text. |
| `GroqAiService.RequestShape` | lib/infrastructure/services/GroqAIService.js:35-40 | The request uses `llama-3.3-70b-versatile`, temperature 0.7 and 2048 tokens. When no input turn is a system turn, the request holds one iff the prompt is truthy. |
| `GroqAiService.IsAvailable` | lib/infrastructure/services/GroqAIService.js:48-55 | True iff the API key is set and non-empty. |
| `Text.Trim` | lib/domain/entities/Chat.js:44 | A slice of the input; empty iff the input is all whitespace; otherwise it starts and ends with non-whitespace. |
| `Text.TrimIdempotent` | lib/domain/entities/Chat.js:44 | Trimming twice is trimming once. |
| `Text.BeforeFirst` | lib/utils/getClientIP.js:8 | A prefix with no separator in it, followed in the input by the separator when shorter. |
| `Text.ReplaceFirst` | lib/infrastructure/middleware/auth.js:15 | `String.replace` with a string pattern: only the first occurrence is replaced; no occurrence leaves the input as it was. |
| `Seqs.RemoveAll` | lib/domain/entities/User.js:35 | The element is absent afterwards and every other element keeps its count. |
| `Seqs.RemoveAllAppend` | lib/domain/entities/User.js:35 | Filtering distributes over concatenation, so the order of the kept ids is preserved. |
| `Seqs.DropLast` | components/ChatInterface.jsx:84 | `slice(0, -1)`: empty for an empty list; otherwise the list minus its last element. |
| `Seqs.SliceFrom` | src/hooks/useChatSessions.ts:143 | `slice(start)` with JavaScript's negative-index rule: a suffix of the computed length. |

## Left out

- Supabase, Groq and `fetch` are not called. Their answers are parameters and
  the writes they would make are returned, so request headers, HTTP status
  codes and JSON parsing are not modelled.
- Ordering by the database (`order("created_at")`) and the joins in the repository
  queries are not modelled. In the model, a repository lists rows in the order its map is walked.
- The repository methods no core code calls are not modelled: `findByEmail`,
  the user `update`, and the GPT `findByCreatorId`, `findPublic` and
  `findStarredByUserId`.
- Passwords are opaque strings. Plaintext storage is neither modelled nor
  judged.
- Strings are sequences of code points, not JavaScript UTF-16 units, so
  `slice(0, 30)` and `length > 100` count code points. `trim` removes only
  ASCII whitespace.
- Timestamps are integers. ISO formatting, `Date` parsing and the `NaN` an
  unparsable `created_at` would give in the sort are not modelled.
- Each call reads the clock once. The source reads it separately for
  `createdAt` and `updatedAt`.
- React scheduling is not modelled. Every update is applied at once, in
  order. The source's functional `setState` updates interleave with renders,
  and `addMessageToCache`/`updateLastMessageInCache` read a render snapshot
  of the cache, so two quick calls may lose one update.
- The `useEffect` hooks (loading on user change, creating a first session when
  none exist) are not modelled. Their effects are the modelled operations.
- The 10-second timeout race in `saveGpt`, alerts, toasts, console output and
  `window.location.reload()` are not modelled.
- `ChatSessions.SessionsHook.HandleSend`: the Supabase writes of the chat and of
  both messages for a signed-in user are not modelled. A failed read
  midway through the stream counts as its end.
- `UseStore.Store.UpdateLastMessage`: the source assigns `.content` on the
  shared last message object in place. The model builds a new value, so it
  does not capture aliasing with earlier snapshots.
- `CustomGptsHook.ReplaceCrlf` states only that the result is no longer than the input; the
  `\r\n` replacement is its definition.
- `undefined` and `null` are not told apart. Both are `None`. This matters for
  the `gpt_id` of a new session and for `CustomGPT.update` (next line).
- `CustomGptEntity.Patched`: a field that the parsed request body sets to an
  explicit `null` is not modelled. `update` tests each field with
  `!== undefined` (lib/domain/entities/CustomGPT.js:53-56), so `null` passes the test and is
  stored (app/api/custom-gpts/[id]/route.js:60). The model's row fields cannot
  hold `null`, so its `None` always keeps the old value.
- Predicates whose meaning is their definition (`Chat.IsOwnedBy`,
  `Chat.IsGuestChat`, `CustomGpt.IsOwnedBy`, `User.HasStarredGpt`,
  `MessageEntity.Message.IsUserMessage`/`IsAssistantMessage`) carry no
  contract of their own. They are used in the lemmas above.
- The repositories' errors keep the source's prefix ("Failed to create chat: ", …). The database's own message after it is a fixed stand-in, because the database is not modelled.
- `Repositories.CustomGptRepository.Update`: the creator name of the returned row is the stored one. The source reads it again from the `users` table.
