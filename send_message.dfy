/** The SendMessage use case of lib/application/use-cases/chat/SendMessage.js:
    find or create the chat, persist the user's message, ask the AI service
    for a reply, persist the reply and touch the chat.  The chat id of a new
    chat, the clock, the ids the message store assigns and the Groq SDK's
    answer are parameters. */
module SendMessageUseCase {
  import opened Wrappers
  import opened Text
  import opened ChatEntity
  import opened MessageEntity
  import opened CustomGptEntity
  import opened Repositories
  import opened GroqAiService

  const ChatNotFound: string := "Chat not found"

  /** The argument of `execute`; `previousMessages` defaults to `[]` at the caller. */
  datatype SendInput = SendInput(message: string, chatId: Option<string>, userId: Option<string>,
                                 guestIp: Option<string>, customGptId: Option<string>,
                                 previousMessages: seq<Turn>)

  /** `{role, content, created_at}` of the saved reply. */
  datatype ReplyView = ReplyView(role: string, content: string, createdAt: int)

  datatype SendResult = SendResult(chatId: string, title: string, message: ReplyView)

  /** `x || null` on an optional string. */
  function OrNull(s: Option<string>): (r: Option<string>)
    ensures r.Some? <==> Truthy(s)
    ensures r.Some? ==> r == s
  {
    if Truthy(s) then s else None
  }

  /** The chat created when no chat id is given. */
  function NewChatRow(id: string, input: SendInput, now: int): ChatRow {
    ChatRow(id, OrNull(input.userId), OrNull(input.guestIp),
            GenerateTitle(input.message, DefaultTitleLength), now, now)
  }

  /** The id of the chat the message goes to. */
  function TargetChatId(input: SendInput, newChatId: string): string {
    if Truthy(input.chatId) then input.chatId.value else newChatId
  }

  /** Whether the chat can be found (an existing id) or created (a fresh id). */
  predicate ChatAvailable(rows: map<string, ChatRow>, input: SendInput, newChatId: string) {
    if Truthy(input.chatId) then input.chatId.value in rows else newChatId !in rows
  }

  /** The chats after the find-or-create step. */
  function ChatsWithTarget(rows: map<string, ChatRow>, input: SendInput, newChatId: string, now: int)
    : map<string, ChatRow>
  {
    if Truthy(input.chatId) then rows else rows[newChatId := NewChatRow(newChatId, input, now)]
  }

  /** The system prompt: `None` unless `customGptId` names a stored GPT,
      whose prompt it then is. */
  function SystemPromptFor(gpts: map<string, GptRow>, customGptId: Option<string>): (r: Option<string>)
    ensures r.Some? <==> Truthy(customGptId) && customGptId.value in gpts
    ensures r.Some? ==> r.value == gpts[customGptId.value].systemPrompt
  {
    if Truthy(customGptId) && customGptId.value in gpts then Some(gpts[customGptId.value].systemPrompt)
    else None
  }

  /** The conversation given to the AI: the previous turns and then the raw,
      untrimmed message as a user turn. */
  function MessagesForAi(input: SendInput): (r: seq<Turn>)
    ensures |r| == |input.previousMessages| + 1
    ensures r[..|input.previousMessages|] == input.previousMessages
    ensures r[|input.previousMessages|] == Turn(UserRole, input.message)
  {
    input.previousMessages + [Turn(UserRole, input.message)]
  }

  /** The user message as stored: trimmed, with the id the store assigns. */
  function UserMessageFor(input: SendInput, newChatId: string, userMessageId: string, now: int): Message {
    Message(Some(userMessageId), TargetChatId(input, newChatId), UserRole, Trim(input.message), now)
  }

  /** What the AI service answers for this input. */
  function AnswerFor(input: SendInput, gpts: map<string, GptRow>, sdk: CompletionRequest -> SdkAnswer): Result<string> {
    GenerateCompletion(MessagesForAi(input), SystemPromptFor(gpts, input.customGptId), sdk)
  }

  /** After a successful send, the chat's message list has grown by exactly
      the user message and then the reply; every other chat's list is unchanged. */
  lemma SendAppendsTwoMessages(log: seq<Message>, user: Message, reply: Message, chatId: string, other: string)
    requires user.chatId == chatId && reply.chatId == chatId && other != chatId
    ensures MessagesOf(log + [user, reply], chatId) == MessagesOf(log, chatId) + [user, reply]
    ensures MessagesOf(log + [user, reply], other) == MessagesOf(log, other)
  {
    assert log + [user, reply] == (log + [user]) + [reply];
    MessagesOfAppend(log, user, chatId);
    MessagesOfAppend(log + [user], reply, chatId);
    MessagesOfAppend(log, user, other);
    MessagesOfAppend(log + [user], reply, other);
  }

  class SendMessage {
    const chats: ChatRepository
    const messages: MessageRepository
    const gpts: CustomGptRepository

    constructor (chats: ChatRepository, messages: MessageRepository, gpts: CustomGptRepository)
      ensures this.chats == chats && this.messages == messages && this.gpts == gpts
    {
      this.chats, this.messages, this.gpts := chats, messages, gpts;
    }

    /** The find-or-create step: an existing chat by id, or a new one titled
        after the message and owned by the (truthy) user id and guest IP. */
    method FindOrCreate(input: SendInput, newChatId: string, now: int) returns (r: Result<Chat>)
      requires chats.Valid()
      modifies chats
      ensures chats.Valid()
      ensures !ChatAvailable(old(chats.rows), input, newChatId) ==>
                r == Err(if Truthy(input.chatId) then ChatNotFound else DuplicateChat)
                && chats.rows == old(chats.rows)
      ensures ChatAvailable(old(chats.rows), input, newChatId) ==>
                var base := ChatsWithTarget(old(chats.rows), input, newChatId, now);
                var id := TargetChatId(input, newChatId);
                r.Ok? && fresh(r.value) && r.value.id == id && id in base
                && r.value.Row() == base[id] && chats.rows == base
    {
      if Truthy(input.chatId) {
        var found := chats.FindById(input.chatId.value);
        if found.None? {
          return Err(ChatNotFound);
        }
        var chat := new Chat(found.value);
        return Ok(chat);
      }
      var newChat := new Chat(NewChatRow(newChatId, input, now));
      var created := chats.Create(newChat);
      if created.Err? {
        return Err(created.error);
      }
      var chat := new Chat(created.value);
      r := Ok(chat);
    }

    /** Everything after the chat is known: store the user's message, ask the
        AI service, store the reply and touch the chat. */
    method Deliver(chat: Chat, input: SendInput, userMessageId: string, replyId: string, now: int,
                   sdk: CompletionRequest -> SdkAnswer)
      returns (r: Result<SendResult>)
      requires chats.Valid() && chat.id in chats.rows && chats.rows[chat.id] == chat.Row()
      modifies chats, messages, chat`updatedAt
      ensures chats.Valid()
      ensures Trim(input.message) == "" ==>
                r == Err(EmptyContentError) && messages.log == old(messages.log) && chats.rows == old(chats.rows)
      ensures Trim(input.message) != "" && AnswerFor(input, gpts.rows, sdk).Err? ==>
                r == Err(AnswerFor(input, gpts.rows, sdk).error) && chats.rows == old(chats.rows)
                && messages.log == old(messages.log) + [Message(Some(userMessageId), chat.id, UserRole, Trim(input.message), now)]
      ensures Trim(input.message) != "" && AnswerFor(input, gpts.rows, sdk).Ok? ==>
                r == Ok(SendResult(chat.id, chat.title, ReplyView(AssistantRole, AnswerFor(input, gpts.rows, sdk).value, now)))
                && chats.rows == old(chats.rows)[chat.id := old(chats.rows)[chat.id].(updatedAt := now)]
      ensures Trim(input.message) != "" && AnswerFor(input, gpts.rows, sdk).Ok? ==>
                messages.log == old(messages.log) + [Message(Some(userMessageId), chat.id, UserRole, Trim(input.message), now),
                                                     Message(Some(replyId), chat.id, AssistantRole,
                                                             AnswerFor(input, gpts.rows, sdk).value, now)]
    {
      var stored := StoreQuestion(chat.id, input.message, userMessageId, now);
      if stored.Err? {
        return Err(stored.error);
      }
      var systemPrompt := SystemPromptFor(gpts.rows, input.customGptId);
      var answer := GenerateCompletion(MessagesForAi(input), systemPrompt, sdk);
      if answer.Err? {
        return Err(answer.error);
      }
      var sent := StoreReply(chat, answer.value, replyId, now);
      r := Ok(sent);
    }

    /** The first step after the chat is known: build the user's message,
        which refuses blank content, and store it. */
    method StoreQuestion(chatId: string, content: string, userMessageId: string, now: int) returns (r: Result<()>)
      modifies messages
      ensures Trim(content) == "" ==> r == Err(EmptyContentError) && messages.log == old(messages.log)
      ensures Trim(content) != "" ==>
                r == Ok(()) && messages.log == old(messages.log) + [Message(Some(userMessageId), chatId, UserRole, Trim(content), now)]
    {
      var userMessage := CreateUserMessage(chatId, content, now);
      if userMessage.Err? {
        return Err(userMessage.error);
      }
      var storedUser := messages.Create(userMessage.value, userMessageId);
      r := Ok(());
    }

    /** The last step of a successful send: store the reply, touch the chat
        and write its `updatedAt` back. */
    method StoreReply(chat: Chat, content: string, replyId: string, now: int) returns (r: SendResult)
      requires chats.Valid() && chat.id in chats.rows && chats.rows[chat.id] == chat.Row()
      modifies chats, messages, chat`updatedAt
      ensures chats.Valid()
      ensures r == SendResult(chat.id, chat.title, ReplyView(AssistantRole, content, now))
      ensures chats.rows == old(chats.rows)[chat.id := old(chats.rows)[chat.id].(updatedAt := now)]
      ensures messages.log == old(messages.log) + [Message(Some(replyId), chat.id, AssistantRole, content, now)]
    {
      var saved := messages.Create(CreateAssistantMessage(chat.id, content, now), replyId);
      chat.Touch(now);
      var updated := chats.Update(chat);
      r := SendResult(chat.id, chat.title, ReplyView(saved.role, saved.content, saved.createdAt));
    }

    /** `execute(input)`.  In order: a missing chat or a taken id stops
        everything; a blank message stops after the new chat was created; an
        AI failure stops after the user message was stored; otherwise the
        reply is stored and the chat's `updatedAt` becomes `now`. */
    method Execute(input: SendInput, newChatId: string, now: int, userMessageId: string,
                   replyId: string, sdk: CompletionRequest -> SdkAnswer)
      returns (r: Result<SendResult>)
      requires chats.Valid()
      modifies chats, messages
      ensures chats.Valid()
      ensures !ChatAvailable(old(chats.rows), input, newChatId) ==>
                r == Err(if Truthy(input.chatId) then ChatNotFound else DuplicateChat)
                && chats.rows == old(chats.rows) && messages.log == old(messages.log)
      ensures ChatAvailable(old(chats.rows), input, newChatId) && Trim(input.message) == "" ==>
                r == Err(EmptyContentError) && messages.log == old(messages.log)
                && chats.rows == ChatsWithTarget(old(chats.rows), input, newChatId, now)
      ensures ChatAvailable(old(chats.rows), input, newChatId) && Trim(input.message) != ""
              && AnswerFor(input, gpts.rows, sdk).Err? ==>
                r == Err(AnswerFor(input, gpts.rows, sdk).error)
                && messages.log == old(messages.log) + [UserMessageFor(input, newChatId, userMessageId, now)]
                && chats.rows == ChatsWithTarget(old(chats.rows), input, newChatId, now)
      ensures ChatAvailable(old(chats.rows), input, newChatId) && Trim(input.message) != ""
              && AnswerFor(input, gpts.rows, sdk).Ok? ==>
                var id := TargetChatId(input, newChatId);
                var base := ChatsWithTarget(old(chats.rows), input, newChatId, now);
                id in base
                && r == Ok(SendResult(id, base[id].title, ReplyView(AssistantRole, AnswerFor(input, gpts.rows, sdk).value, now)))
                && chats.rows == base[id := base[id].(updatedAt := now)]
      ensures ChatAvailable(old(chats.rows), input, newChatId) && Trim(input.message) != ""
              && AnswerFor(input, gpts.rows, sdk).Ok? ==>
                messages.log == old(messages.log) + [UserMessageFor(input, newChatId, userMessageId, now),
                                                     Message(Some(replyId), TargetChatId(input, newChatId), AssistantRole,
                                                             AnswerFor(input, gpts.rows, sdk).value, now)]
    {
      var found := FindOrCreate(input, newChatId, now);
      if found.Err? {
        return Err(found.error);
      }
      r := Deliver(found.value, input, userMessageId, replyId, now, sdk);
    }
  }
}
