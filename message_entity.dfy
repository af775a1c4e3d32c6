/** The Message entity of lib/domain/entities/Message.js: an immutable value
    with role predicates and two factories. */
module MessageEntity {
  import opened Wrappers
  import opened Text

  const UserRole: string := "user"
  const AssistantRole: string := "assistant"
  const EmptyContentError: string := "Message content cannot be empty"

  /** `id` is `None` until the repository assigns one; `createdAt` is the
      creation time taken as a parameter. */
  datatype Message = Message(id: Option<string>, chatId: string, role: string, content: string, createdAt: int)
  {
    predicate IsUserMessage() {
      role == UserRole
    }

    predicate IsAssistantMessage() {
      role == AssistantRole
    }
  }

  /** `['user', 'assistant'].includes(role)`. */
  predicate IsValidRole(role: string): (b: bool)
    ensures b <==> role == "user" || role == "assistant"
  {
    role in [UserRole, AssistantRole]
  }

  /** No message is both a user message and an assistant message, and every
      message produced with a valid role is exactly one of the two. */
  lemma RolesExclusive(m: Message)
    ensures !(m.IsUserMessage() && m.IsAssistantMessage())
    ensures IsValidRole(m.role) <==> (m.IsUserMessage() || m.IsAssistantMessage())
  {
  }

  /** `Message.createUserMessage(chatId, content)`: blank content is refused;
      otherwise the content is stored trimmed, with no id yet. */
  function CreateUserMessage(chatId: string, content: string, now: int): (r: Result<Message>)
    ensures r.Err? <==> Trim(content) == ""
    ensures r.Err? ==> r.error == EmptyContentError
    ensures r.Ok? ==> r.value.IsUserMessage() && r.value.id == None && r.value.chatId == chatId
                      && r.value.content == Trim(content) && r.value.createdAt == now
    ensures r.Ok? ==> r.value.content != "" && Trim(r.value.content) == r.value.content
  {
    if Trim(content) == "" then Err(EmptyContentError)
    else
      TrimIdempotent(content);
      Ok(Message(None, chatId, UserRole, Trim(content), now))
  }

  /** `Message.createAssistantMessage(chatId, content)`: the content is kept
      verbatim, even when it is empty. */
  function CreateAssistantMessage(chatId: string, content: string, now: int): (m: Message)
    ensures m.IsAssistantMessage() && !m.IsUserMessage()
    ensures m.content == content && m.chatId == chatId && m.id == None && m.createdAt == now
  {
    Message(None, chatId, AssistantRole, content, now)
  }
}
