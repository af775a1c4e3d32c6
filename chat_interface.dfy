/** `handleSend` of components/ChatInterface.jsx: the optimistic send over
    the flat store.  The user's message and an empty assistant placeholder
    are appended at once; the server's reply then fills the placeholder, or
    a failure removes the last message.  The two timestamps, the `/api/chat`
    outcome and the `/api/chats` reload outcome are parameters. */
module ChatInterface {
  import opened Wrappers
  import opened Text
  import opened Seqs
  import opened MessageEntity
  import opened UseStore

  /** The body posted to `/api/chat`. */
  datatype SendRequest = SendRequest(message: string, chatId: Option<string>, customGptId: Option<string>,
                                     messages: seq<StoreMessage>)

  /** The parsed `/api/chat` response: `chatId`, `title` and `message`. */
  datatype ChatReply = ChatReply(chatId: Option<string>, title: string, message: Content)

  /** The messages sent as context: the list as it was read before the two
      appends, without its last element. */
  function ContextOf(before: seq<StoreMessage>): (r: seq<StoreMessage>)
    ensures before == [] ==> r == []
    ensures before != [] ==> r + [before[|before| - 1]] == before
  {
    DropLast(before)
  }

  /** The context never contains the newly typed message, and with a
      non-empty history it leaves out the history's latest message. */
  lemma ContextLeavesOutLatest(before: seq<StoreMessage>)
    requires before != []
    ensures |ContextOf(before)| == |before| - 1
    ensures ContextOf(before) == before[..|before| - 1]
  {
    assert ContextOf(before) + [before[|before| - 1]] == before[..|before| - 1] + [before[|before| - 1]];
  }

  /** `currentChat?.id`. */
  function IdOf(c: Option<ChatRef>): Option<string> {
    if c.Some? then Some(c.value.id) else None
  }

  /** `selectedGPT?.id`. */
  function GptIdOf(g: Option<GptRef>): Option<string> {
    if g.Some? then Some(g.value.id) else None
  }

  /** `data.chatId && !currentChat`: the reply names a chat and none was current. */
  predicate NewChat(reply: Result<ChatReply>, current: Option<ChatRef>) {
    reply.Ok? && Truthy(reply.value.chatId) && current.None?
  }

  class ChatComponent {
    var input: string
    var isStreaming: bool
    const store: Store

    constructor (store: Store)
      ensures this.store == store && input == "" && !isStreaming
    {
      this.store := store;
      input, isStreaming := "", false;
    }

    /** What happens once the request is answered: the reply fills the
        placeholder; a failed send, or a failed reload of the chat list
        after a first reply, removes the last message. */
    method Settle(current: Option<ChatRef>, reply: Result<ChatReply>, reload: Result<Option<seq<ChatRef>>>)
      requires store.messages != []
      modifies store
      ensures reply.Err? ==> store.messages == DropLast(old(store.messages))
      ensures reply.Ok? && NewChat(reply, current) && reload.Err? ==>
                store.messages == DropLast(SetLastContent(old(store.messages), reply.value.message))
      ensures reply.Ok? && !(NewChat(reply, current) && reload.Err?) ==>
                store.messages == SetLastContent(old(store.messages), reply.value.message)
      ensures NewChat(reply, current) ==> store.currentChat == Some(ChatRef(reply.value.chatId.value, reply.value.title))
      ensures !NewChat(reply, current) ==> store.currentChat == old(store.currentChat)
      ensures NewChat(reply, current) && reload.Ok? ==> store.chats == reload.value.GetOr([])
      ensures !(NewChat(reply, current) && reload.Ok?) ==> store.chats == old(store.chats)
      ensures store.user == old(store.user) && store.customGpts == old(store.customGpts)
              && store.selectedGpt == old(store.selectedGpt) && store.isLoading == old(store.isLoading)
    {
      if reply.Err? {
        store.SetMessages(DropLast(store.messages));
        return;
      }
      var data := reply.value;
      store.UpdateLastMessage(data.message);
      if Truthy(data.chatId) && current.None? {
        store.SetCurrentChat(Some(ChatRef(data.chatId.value, data.title)));
        if reload.Err? {
          store.SetMessages(DropLast(store.messages));
        } else {
          store.SetChats(reload.value.GetOr([]));
        }
      }
    }

    /** The guard of `handleSend`: blank input or a send in flight. */
    predicate SendRefused()
      reads this
    {
      Trim(input) == "" || isStreaming
    }

    /** `handleSend()`. */
    method HandleSend(userAt: int, placeholderAt: int, reply: Result<ChatReply>,
                      reload: Result<Option<seq<ChatRef>>>)
      returns (request: Option<SendRequest>)
      modifies this`input, this`isStreaming, store
      ensures old(SendRefused()) ==>
                request == None && input == old(input) && isStreaming == old(isStreaming)
                && store.messages == old(store.messages) && store.currentChat == old(store.currentChat)
                && store.chats == old(store.chats)
      ensures !(old(SendRefused())) ==>
                input == "" && !isStreaming
                && request == Some(SendRequest(Trim(old(input)), IdOf(old(store.currentChat)),
                                               GptIdOf(old(store.selectedGpt)), ContextOf(old(store.messages))))
      ensures !(old(SendRefused())) && (reply.Err? || (NewChat(reply, old(store.currentChat)) && reload.Err?)) ==>
                store.messages == old(store.messages) + [StoreMessage(UserRole, Text(Trim(old(input))), userAt)]
      ensures !(old(SendRefused())) && reply.Ok? && !(NewChat(reply, old(store.currentChat)) && reload.Err?) ==>
                store.messages == old(store.messages) + [StoreMessage(UserRole, Text(Trim(old(input))), userAt),
                                                         StoreMessage(AssistantRole, reply.value.message, placeholderAt)]
      ensures !(old(SendRefused())) && NewChat(reply, old(store.currentChat)) ==>
                store.currentChat == Some(ChatRef(reply.value.chatId.value, reply.value.title))
                && (reload.Ok? ==> store.chats == reload.value.GetOr([]))
                && (reload.Err? ==> store.chats == old(store.chats))
      ensures !NewChat(reply, old(store.currentChat)) ==>
                store.currentChat == old(store.currentChat) && store.chats == old(store.chats)
      ensures store.user == old(store.user) && store.customGpts == old(store.customGpts)
              && store.selectedGpt == old(store.selectedGpt) && store.isLoading == old(store.isLoading)
    {
      if Trim(input) == "" || isStreaming {
        return None;
      }
      var before := store.messages;
      var current := store.currentChat;
      var text := Trim(input);
      var userMessage := StoreMessage(UserRole, Text(text), userAt);
      var placeholder := StoreMessage(AssistantRole, Text(""), placeholderAt);
      store.AddMessage(userMessage);
      input := "";
      isStreaming := true;
      store.AddMessage(placeholder);
      request := Some(SendRequest(text, IdOf(current), GptIdOf(store.selectedGpt), ContextOf(before)));
      Answer(before, userMessage, placeholder, current, reply, reload);
      isStreaming := false;
    }

    /** `Settle` after the two optimistic appends, stated over the list as it
        was before them. */
    method Answer(before: seq<StoreMessage>, userMessage: StoreMessage, placeholder: StoreMessage,
                  current: Option<ChatRef>, reply: Result<ChatReply>, reload: Result<Option<seq<ChatRef>>>)
      requires store.messages == before + [userMessage, placeholder]
      modifies store
      ensures reply.Err? || (NewChat(reply, current) && reload.Err?) ==> store.messages == before + [userMessage]
      ensures reply.Ok? && !(NewChat(reply, current) && reload.Err?) ==>
                store.messages == before + [userMessage, placeholder.(content := reply.value.message)]
      ensures NewChat(reply, current) ==>
                store.currentChat == Some(ChatRef(reply.value.chatId.value, reply.value.title))
                && (reload.Ok? ==> store.chats == reload.value.GetOr([]))
                && (reload.Err? ==> store.chats == old(store.chats))
      ensures !NewChat(reply, current) ==> store.currentChat == old(store.currentChat) && store.chats == old(store.chats)
      ensures store.user == old(store.user) && store.customGpts == old(store.customGpts)
              && store.selectedGpt == old(store.selectedGpt) && store.isLoading == old(store.isLoading)
    {
      FillAfterAppend(before, userMessage, placeholder, if reply.Ok? then reply.value.message else Text(""));
      assert DropLast(store.messages) == before + [userMessage];
      Settle(current, reply, reload);
    }
  }
}
