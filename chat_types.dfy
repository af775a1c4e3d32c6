/** The client-side shapes of src/types/chat.ts.  `created_at` is an
    ordered integer; an absent one is `None`. */
module ChatTypes {
  import opened Wrappers

  datatype SessionMessage = SessionMessage(role: string, content: string, createdAt: Option<int>)

  /** A conversation in the sidebar; `gptId` is the custom GPT it talks to. */
  datatype ChatSession = ChatSession(id: string, title: string, createdAt: int,
                                     messages: seq<SessionMessage>, gptId: Option<string>)

  datatype CustomGptItem = CustomGptItem(id: string, name: string, description: string,
                                         instructions: string, isPublic: bool, userId: string)

  /** The signed-in user; `starredGptIds` is `None` when the profile has no list. */
  datatype CustomUser = CustomUser(id: string, email: Option<string>, starredGptIds: Option<seq<string>>)

  datatype ChatPreferences = ChatPreferences(systemPrompt: string, maxHistory: int)
}
