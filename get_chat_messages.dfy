/** The GetChatMessages use case of lib/application/use-cases/chat/GetChatMessages.js:
    the messages of one chat, after an ownership check that depends on which
    of the caller's identities is present. */
module GetChatMessagesUseCase {
  import opened Wrappers
  import opened Text
  import opened ChatEntity
  import opened MessageEntity
  import opened Repositories

  const ChatNotFound: string := "Chat not found"
  const Unauthorized: string := "Unauthorized"

  /** `{role, content, created_at}`. */
  datatype MessageView = MessageView(role: string, content: string, createdAt: int)

  function Views(ms: seq<Message>): (r: seq<MessageView>)
    ensures |r| == |ms|
    ensures forall i :: 0 <= i < |ms| ==> r[i] == MessageView(ms[i].role, ms[i].content, ms[i].createdAt)
  {
    seq(|ms|, i requires 0 <= i < |ms| => MessageView(ms[i].role, ms[i].content, ms[i].createdAt))
  }

  /** The refusal rule: a truthy user id must own the chat; without one, a
      truthy guest IP must equal the chat's guest IP; with neither, nothing is checked. */
  predicate Refused(chat: ChatRow, userId: Option<string>, guestIp: Option<string>) {
    (Truthy(userId) && chat.userId != userId)
    || (!Truthy(userId) && Truthy(guestIp) && chat.guestIp != guestIp)
  }

  /** The owner may always read; a guest may read its own guest chat; a
      caller with no identity at all is never refused; a signed-in caller
      is refused a guest chat. */
  lemma AccessRules(chat: ChatRow, user: string, ip: string)
    requires user != "" && ip != ""
    ensures chat.userId == Some(user) ==> !Refused(chat, Some(user), None) && !Refused(chat, Some(user), Some(ip))
    ensures chat.guestIp == Some(ip) ==> !Refused(chat, None, Some(ip))
    ensures !Refused(chat, None, None)
    ensures chat.userId == None ==> Refused(chat, Some(user), Some(ip))
  {
  }

  class GetChatMessages {
    const chats: ChatRepository
    const messages: MessageRepository

    constructor (chats: ChatRepository, messages: MessageRepository)
      ensures this.chats == chats && this.messages == messages
    {
      this.chats, this.messages := chats, messages;
    }

    /** `execute({chatId, userId, guestIp})`: no write; the chat's messages
        in store order, or the first error that applies. */
    method Execute(chatId: string, userId: Option<string>, guestIp: Option<string>)
      returns (r: Result<seq<MessageView>>)
      ensures chatId !in chats.rows ==> r == Err(ChatNotFound)
      ensures chatId in chats.rows && Refused(chats.rows[chatId], userId, guestIp) ==> r == Err(Unauthorized)
      ensures chatId in chats.rows && !Refused(chats.rows[chatId], userId, guestIp) ==>
                r.Ok? && |r.value| == |MessagesOf(messages.log, chatId)|
                && forall i :: 0 <= i < |r.value| ==>
                     var m := MessagesOf(messages.log, chatId)[i];
                     r.value[i] == MessageView(m.role, m.content, m.createdAt)
    {
      var found := chats.FindById(chatId);
      if found.None? {
        return Err(ChatNotFound);
      }
      var chat := new Chat(found.value);
      if Truthy(userId) && !chat.IsOwnedBy(userId) {
        return Err(Unauthorized);
      }
      if !Truthy(userId) && Truthy(guestIp) && chat.guestIp != guestIp {
        return Err(Unauthorized);
      }
      r := Ok(Views(messages.FindByChatId(chatId)));
    }
  }
}
