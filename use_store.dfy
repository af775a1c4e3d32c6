/** The flat client store of lib/store/useStore.js: the current user, chat
    list, current chat, message list, GPT list, selected GPT and a loading
    flag, each replaced by its setter, plus the message-list actions. */
module UseStore {
  import opened Wrappers
  import opened Seqs

  /** A message's `content`: normally text, but a whole reply object when
      the chat component stores the server's `message` field there. */
  datatype Content = Text(text: string) | Payload(role: string, text: string, createdAt: int)

  /** `{role, content, created_at}`. */
  datatype StoreMessage = StoreMessage(role: string, content: Content, createdAt: int)

  datatype UserRef = UserRef(id: string, email: string)
  datatype ChatRef = ChatRef(id: string, title: string)
  datatype GptRef = GptRef(id: string, name: string)

  /** The list after `updateLastMessage(content)` on a non-empty list. */
  function SetLastContent(messages: seq<StoreMessage>, content: Content): (r: seq<StoreMessage>)
    requires messages != []
    ensures |r| == |messages|
    ensures r[..|r| - 1] == messages[..|messages| - 1]
    ensures r[|r| - 1] == StoreMessage(messages[|messages| - 1].role, content, messages[|messages| - 1].createdAt)
  {
    messages[..|messages| - 1] + [messages[|messages| - 1].(content := content)]
  }

  /** Filling the last of two appended messages leaves the first one and
      everything before it untouched; dropping the last message afterwards
      takes the filled message away again. */
  lemma {:induction false} FillAfterAppend(history: seq<StoreMessage>, first: StoreMessage, last: StoreMessage, content: Content)
    ensures SetLastContent(history + [first, last], content) == history + [first, last.(content := content)]
    ensures DropLast(SetLastContent(history + [first, last], content)) == history + [first]
  {
    var s := history + [first, last];
    assert s[..|s| - 1] == history + [first];
  }

  class Store {
    var user: Option<UserRef>
    var chats: seq<ChatRef>
    var currentChat: Option<ChatRef>
    var messages: seq<StoreMessage>
    var customGpts: seq<GptRef>
    var selectedGpt: Option<GptRef>
    var isLoading: bool

    constructor ()
      ensures user == None && chats == [] && currentChat == None && messages == []
      ensures customGpts == [] && selectedGpt == None && !isLoading
    {
      user, chats, currentChat, messages := None, [], None, [];
      customGpts, selectedGpt, isLoading := [], None, false;
    }

    method SetUser(u: Option<UserRef>)
      modifies this`user
      ensures user == u
    {
      user := u;
    }

    method SetChats(cs: seq<ChatRef>)
      modifies this`chats
      ensures chats == cs
    {
      chats := cs;
    }

    method SetCurrentChat(c: Option<ChatRef>)
      modifies this`currentChat
      ensures currentChat == c
    {
      currentChat := c;
    }

    method SetMessages(ms: seq<StoreMessage>)
      modifies this`messages
      ensures messages == ms
    {
      messages := ms;
    }

    method SetCustomGpts(gs: seq<GptRef>)
      modifies this`customGpts
      ensures customGpts == gs
    {
      customGpts := gs;
    }

    method SetSelectedGpt(g: Option<GptRef>)
      modifies this`selectedGpt
      ensures selectedGpt == g
    {
      selectedGpt := g;
    }

    method SetIsLoading(b: bool)
      modifies this`isLoading
      ensures isLoading == b
    {
      isLoading := b;
    }

    /** `addMessage(message)`. */
    method AddMessage(m: StoreMessage)
      modifies this`messages
      ensures messages == old(messages) + [m]
    {
      messages := messages + [m];
    }

    /** `updateLastMessage(content)`: only the last message's content; an
        empty list stays empty. */
    method UpdateLastMessage(content: Content)
      modifies this`messages
      ensures old(messages) == [] ==> messages == []
      ensures old(messages) != [] ==> messages == SetLastContent(old(messages), content)
    {
      if |messages| > 0 {
        messages := SetLastContent(messages, content);
      }
    }

    /** `clearMessages()`. */
    method ClearMessages()
      modifies this`messages
      ensures messages == []
    {
      messages := [];
    }
  }
}
