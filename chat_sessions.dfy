/** The session hook of src/hooks/useChatSessions.ts: a list of chat
    sessions with one active id, the input box and a loading flag.
    `createNewChat` reuses an empty active session or opens a new one;
    `handleSend` appends the user's message, builds the prompt and
    accumulates the streamed reply chunk by chunk.  The fresh session id,
    the clock and the response stream are parameters. */
module ChatSessions {
  import opened Wrappers
  import opened Text
  import opened Seqs
  import opened ChatTypes

  const NewConversation: string := "New Conversation"
  const TitleLength: nat := 30
  const UserRole: string := "user"
  const AssistantRole: string := "assistant"
  const SystemRole: string := "system"

  /** `{role, content}` as sent to `/api/chat`. */
  datatype ApiMessage = ApiMessage(role: string, content: string)

  /** `sessions.findIndex(s => s.id === id)`; a null id matches nothing. */
  function FirstSession(sessions: seq<ChatSession>, id: Option<string>): (r: Option<nat>)
    ensures r.Some? ==> r.value < |sessions| && Some(sessions[r.value].id) == id
                        && forall j :: 0 <= j < r.value ==> Some(sessions[j].id) != id
    ensures r.None? ==> forall s :: s in sessions ==> Some(s.id) != id
  {
    if sessions == [] then None
    else if Some(sessions[0].id) == id then Some(0)
    else match FirstSession(sessions[1..], id)
      case None => None
      case Some(k) => Some(k + 1)
  }

  /** `sessions.find(s => s.id === id)`. */
  function FindSession(sessions: seq<ChatSession>, id: Option<string>): (r: Option<ChatSession>)
    ensures r.Some? <==> exists s :: s in sessions && Some(s.id) == id
    ensures r.Some? ==> Some(r.value.id) == id && r.value == sessions[FirstSession(sessions, id).value]
  {
    match FirstSession(sessions, id)
    case None => None
    case Some(i) => Some(sessions[i])
  }

  /** The sessions with id `id` get `gptId`; the rest are untouched. */
  function WithGpt(sessions: seq<ChatSession>, id: string, gptId: Option<string>): (r: seq<ChatSession>)
    ensures |r| == |sessions|
    ensures forall i :: 0 <= i < |r| ==> r[i] == if sessions[i].id == id then sessions[i].(gptId := gptId) else sessions[i]
  {
    seq(|sessions|, i requires 0 <= i < |sessions| =>
          if sessions[i].id == id then sessions[i].(gptId := gptId) else sessions[i])
  }

  /** The first setSessions of `handleSend`: the active sessions get the
      new message list, and the input's first 30 characters as title when
      they had no messages yet. */
  function WithUserMessage(sessions: seq<ChatSession>, id: string, updated: seq<SessionMessage>, input: string)
    : (r: seq<ChatSession>)
    ensures |r| == |sessions|
    ensures forall i :: 0 <= i < |r| ==>
              r[i] == if sessions[i].id == id
                      then sessions[i].(messages := updated,
                                        title := if sessions[i].messages == [] then Prefix(input, TitleLength) else sessions[i].title)
                      else sessions[i]
  {
    seq(|sessions|, i requires 0 <= i < |sessions| =>
          if sessions[i].id == id
          then sessions[i].(messages := updated,
                            title := if sessions[i].messages == [] then Prefix(input, TitleLength) else sessions[i].title)
          else sessions[i])
  }

  /** One streaming update: the active sessions show `updated` followed by
      the reply so far. */
  function WithReply(sessions: seq<ChatSession>, id: string, updated: seq<SessionMessage>, content: string)
    : (r: seq<ChatSession>)
    ensures |r| == |sessions|
    ensures forall i :: 0 <= i < |r| ==>
              r[i] == if sessions[i].id == id
                      then sessions[i].(messages := updated + [SessionMessage(AssistantRole, content, None)])
                      else sessions[i]
  {
    seq(|sessions|, i requires 0 <= i < |sessions| =>
          if sessions[i].id == id
          then sessions[i].(messages := updated + [SessionMessage(AssistantRole, content, None)])
          else sessions[i])
  }

  /** A later streaming update overrides an earlier one. */
  lemma WithReplyOverrides(sessions: seq<ChatSession>, id: string, updated: seq<SessionMessage>, c1: string, c2: string)
    ensures WithReply(WithReply(sessions, id, updated, c1), id, updated, c2) == WithReply(sessions, id, updated, c2)
  {
  }

  /** `createNewChat` on a reusable session only changes `gpt_id`: no session
      is added or removed and ids, titles and messages stay as they were. */
  lemma {:induction false} WithGptKeepsSessions(sessions: seq<ChatSession>, id: string, gptId: Option<string>)
    ensures |WithGpt(sessions, id, gptId)| == |sessions|
    ensures forall i :: 0 <= i < |sessions| ==>
              var s := WithGpt(sessions, id, gptId)[i];
              s.id == sessions[i].id && s.title == sessions[i].title && s.messages == sessions[i].messages
              && s.createdAt == sessions[i].createdAt
              && s.gptId == (if sessions[i].id == id then gptId else sessions[i].gptId)
  {
  }

  /** The prompt: the preferences' prompt, unless the active session's
      (truthy) `gpt_id` names a known GPT, whose instructions it then is. */
  function SystemPromptFor(preferences: ChatPreferences, active: Option<ChatSession>, gpts: seq<CustomGptItem>)
    : (r: string)
    ensures (active.None? || !Truthy(active.value.gptId)) ==> r == preferences.systemPrompt
    ensures active.Some? && Truthy(active.value.gptId) ==>
              (r == preferences.systemPrompt
               && forall g :: g in gpts ==> g.id != active.value.gptId.value)
              || (exists i :: 0 <= i < |gpts| && gpts[i].id == active.value.gptId.value
                              && r == gpts[i].instructions
                              && forall j :: 0 <= j < i ==> gpts[j].id != active.value.gptId.value)
  {
    if active.Some? && Truthy(active.value.gptId) then
      match FirstGpt(gpts, active.value.gptId.value)
      case Some(i) => gpts[i].instructions
      case None => preferences.systemPrompt
    else preferences.systemPrompt
  }

  /** `customGpts.findIndex(g => g.id === id)`. */
  function FirstGpt(gpts: seq<CustomGptItem>, id: string): (r: Option<nat>)
    ensures r.Some? ==> r.value < |gpts| && gpts[r.value].id == id
                        && forall j :: 0 <= j < r.value ==> gpts[j].id != id
    ensures r.None? ==> forall g :: g in gpts ==> g.id != id
  {
    if gpts == [] then None
    else if gpts[0].id == id then Some(0)
    else match FirstGpt(gpts[1..], id)
      case None => None
      case Some(k) => Some(k + 1)
  }

  /** `{role, content}` of a message. */
  function Sanitized(ms: seq<SessionMessage>): (r: seq<ApiMessage>)
    ensures |r| == |ms|
    ensures forall i :: 0 <= i < |ms| ==> r[i] == ApiMessage(ms[i].role, ms[i].content)
  {
    seq(|ms|, i requires 0 <= i < |ms| => ApiMessage(ms[i].role, ms[i].content))
  }

  /** The API messages: the system prompt, then the last `maxHistory`
      messages (`slice(-maxHistory)`) reduced to role and content. */
  function ApiMessages(systemPrompt: string, updated: seq<SessionMessage>, maxHistory: int): (r: seq<ApiMessage>)
    ensures |r| >= 1 && r[0] == ApiMessage(SystemRole, systemPrompt)
    ensures r[1..] == Sanitized(SliceFrom(updated, -maxHistory))
  {
    [ApiMessage(SystemRole, systemPrompt)] + Sanitized(SliceFrom(updated, -maxHistory))
  }

  /** With a positive window the request holds the prompt and the last
      `min(maxHistory, |updated|)` messages, in order, ending with the newest. */
  lemma HistoryWindow(systemPrompt: string, updated: seq<SessionMessage>, maxHistory: int)
    requires maxHistory >= 1
    ensures var h := if maxHistory <= |updated| then maxHistory else |updated|;
            |ApiMessages(systemPrompt, updated, maxHistory)| == 1 + h
            && ApiMessages(systemPrompt, updated, maxHistory)[1..] == Sanitized(updated[|updated| - h..])
  {
    var h := if maxHistory <= |updated| then maxHistory else |updated|;
    assert SliceFrom(updated, -maxHistory) == updated[|updated| - h..];
  }

  /** A window of 0 (`slice(-0)`, the same as `slice(0)`) sends the whole history. */
  lemma ZeroWindowSendsAll(systemPrompt: string, updated: seq<SessionMessage>)
    ensures ApiMessages(systemPrompt, updated, 0)[1..] == Sanitized(updated)
  {
  }

  /** The sort key: `created_at`, with an absent one counting as 0. */
  function Key(m: SessionMessage): int {
    m.createdAt.GetOr(0)
  }

  predicate SortedByTime(ms: seq<SessionMessage>) {
    forall i, j :: 0 <= i < j < |ms| ==> Key(ms[i]) <= Key(ms[j])
  }

  /** A key no larger than every key of a sorted list may go in front. */
  lemma SortedCons(x: SessionMessage, s: seq<SessionMessage>)
    requires SortedByTime(s)
    requires forall y :: y in s ==> Key(x) <= Key(y)
    ensures SortedByTime([x] + s)
  {
    var r := [x] + s;
    forall i, j | 0 <= i < j < |r| ensures Key(r[i]) <= Key(r[j]) {
      assert r[j] == s[j - 1];
      if i > 0 {
        assert r[i] == s[i - 1];
      }
    }
  }

  /** The tail of a sorted list is sorted and bounded below by its head. */
  lemma SortedTail(s: seq<SessionMessage>)
    requires SortedByTime(s) && s != []
    ensures SortedByTime(s[1..])
    ensures forall x :: x in s[1..] ==> Key(s[0]) <= Key(x)
  {
    var tail := s[1..];
    forall i, j | 0 <= i < j < |tail| ensures Key(tail[i]) <= Key(tail[j]) {
      assert tail[i] == s[i + 1] && tail[j] == s[j + 1];
    }
    forall x | x in tail ensures Key(s[0]) <= Key(x) {
      var i :| 0 <= i < |tail| && tail[i] == x;
      assert s[i + 1] == x;
    }
  }

  /** Inserts `m` after every element whose key is not larger. */
  function InsertByTime(m: SessionMessage, sorted: seq<SessionMessage>): (r: seq<SessionMessage>)
    ensures multiset(r) == multiset(sorted) + multiset{m}
  {
    if sorted == [] then [m]
    else if Key(m) < Key(sorted[0]) then [m] + sorted
    else
      assert sorted == [sorted[0]] + sorted[1..];
      [sorted[0]] + InsertByTime(m, sorted[1..])
  }

  /** Inserting into a sorted list keeps it sorted. */
  lemma {:induction false} InsertKeepsSorted(m: SessionMessage, sorted: seq<SessionMessage>)
    requires SortedByTime(sorted)
    ensures SortedByTime(InsertByTime(m, sorted))
  {
    if sorted == [] {
    } else if Key(m) < Key(sorted[0]) {
      SortedCons(m, sorted);
    } else {
      var rest := InsertByTime(m, sorted[1..]);
      SortedTail(sorted);
      InsertKeepsSorted(m, sorted[1..]);
      forall x | x in rest ensures Key(sorted[0]) <= Key(x) {
        assert x in multiset(rest);
        assert x in sorted[1..] || x == m;
      }
      SortedCons(sorted[0], rest);
    }
  }

  /** The messages of a loaded chat, in ascending `created_at` order; equal
      keys keep their order, as with the stable `Array.prototype.sort`. */
  function SortByTime(ms: seq<SessionMessage>): (r: seq<SessionMessage>)
    ensures SortedByTime(r)
    ensures multiset(r) == multiset(ms)
  {
    if ms == [] then []
    else
      assert ms == ms[..|ms| - 1] + [ms[|ms| - 1]];
      var sortedFront := SortByTime(ms[..|ms| - 1]);
      InsertKeepsSorted(ms[|ms| - 1], sortedFront);
      InsertByTime(ms[|ms| - 1], sortedFront)
  }

  lemma {:induction false} InsertAtEnd(m: SessionMessage, sorted: seq<SessionMessage>)
    requires SortedByTime(sorted)
    requires forall x :: x in sorted ==> Key(x) <= Key(m)
    ensures InsertByTime(m, sorted) == sorted + [m]
  {
    if sorted != [] {
      assert sorted[0] in sorted;
      SortedTail(sorted);
      InsertAtEnd(m, sorted[1..]);
    }
  }

  /** The front of a sorted list is sorted and bounded by its last key. */
  lemma SortedFront(ms: seq<SessionMessage>)
    requires SortedByTime(ms) && ms != []
    ensures SortedByTime(ms[..|ms| - 1])
    ensures forall x :: x in ms[..|ms| - 1] ==> Key(x) <= Key(ms[|ms| - 1])
  {
    var init := ms[..|ms| - 1];
    forall i, j | 0 <= i < j < |init| ensures Key(init[i]) <= Key(init[j]) {
      assert init[i] == ms[i] && init[j] == ms[j];
    }
    forall x | x in init ensures Key(x) <= Key(ms[|ms| - 1]) {
      var i :| 0 <= i < |init| && init[i] == x;
      assert ms[i] == x;
    }
  }

  /** Sorting a list that is already in order changes nothing. */
  lemma {:induction false} SortKeepsSorted(ms: seq<SessionMessage>)
    requires SortedByTime(ms)
    ensures SortByTime(ms) == ms
  {
    if ms != [] {
      var init, last := ms[..|ms| - 1], ms[|ms| - 1];
      SortedFront(ms);
      SortKeepsSorted(init);
      InsertAtEnd(last, init);
      assert init + [last] == ms;
    }
  }

  class SessionsHook {
    var sessions: seq<ChatSession>
    var activeSessionId: Option<string>
    var input: string
    var isLoading: bool

    constructor ()
      ensures sessions == [] && activeSessionId == None && input == "" && !isLoading
    {
      sessions, activeSessionId, input, isLoading := [], None, "", false;
    }

    /** `activeSession`: the first session with the active id. */
    function ActiveSession(): Option<ChatSession>
      reads this
    {
      FindSession(sessions, activeSessionId)
    }

    /** `createNewChat(gptId)`. */
    method CreateNewChat(gptId: Option<string>, newId: string, now: int)
      modifies this`sessions, this`activeSessionId
      ensures old(ActiveSession()).Some? && old(ActiveSession()).value.messages == [] ==>
                activeSessionId == old(activeSessionId)
                && (old(ActiveSession()).value.gptId == gptId ==> sessions == old(sessions))
                && (old(ActiveSession()).value.gptId != gptId ==>
                      sessions == WithGpt(old(sessions), old(activeSessionId).value, gptId))
      ensures !(old(ActiveSession()).Some? && old(ActiveSession()).value.messages == []) ==>
                sessions == [ChatSession(newId, NewConversation, now, [], gptId)] + old(sessions)
                && activeSessionId == Some(newId)
    {
      var currentActive := FindSession(sessions, activeSessionId);
      if currentActive.Some? && currentActive.value.messages == [] {
        if currentActive.value.gptId != gptId {
          sessions := WithGpt(sessions, activeSessionId.value, gptId);
        }
        return;
      }
      sessions := [ChatSession(newId, NewConversation, now, [], gptId)] + sessions;
      activeSessionId := Some(newId);
    }

    /** The guard of `handleSend`: blank input, a request in flight or no
        active chat. */
    predicate SendRefused()
      reads this
    {
      Trim(input) == "" || isLoading || !Truthy(activeSessionId)
    }

    /** The active chat's messages followed by the user's new message. */
    function MessagesWithInput(): seq<SessionMessage>
      reads this
    {
      var active := ActiveSession();
      (if active.Some? then active.value.messages else []) + [SessionMessage(UserRole, input, None)]
    }

    /** `handleSend()`: returns the messages posted, or `None` when the
        guard stops it.  `stream` is the chunks of the response body,
        `None` when the request fails or has no body. */
    method HandleSend(preferences: ChatPreferences, gpts: seq<CustomGptItem>, stream: Option<seq<string>>)
      returns (posted: Option<seq<ApiMessage>>)
      modifies this`sessions, this`input, this`isLoading
      ensures old(SendRefused()) ==>
                posted == None && sessions == old(sessions) && input == old(input) && isLoading == old(isLoading)
      ensures !old(SendRefused()) ==> input == "" && !isLoading
      ensures !old(SendRefused()) ==>
                posted == Some(ApiMessages(SystemPromptFor(preferences, old(ActiveSession()), gpts),
                                           old(MessagesWithInput()), preferences.maxHistory))
      ensures !old(SendRefused()) ==>
                var afterUser := WithUserMessage(old(sessions), old(activeSessionId).value, old(MessagesWithInput()), old(input));
                (stream.None? || stream.value == [] ==> sessions == afterUser)
                && (stream.Some? && stream.value != [] ==>
                      sessions == WithReply(afterUser, old(activeSessionId).value, old(MessagesWithInput()), Concat(stream.value)))
    {
      if Trim(input) == "" || isLoading || !Truthy(activeSessionId) {
        return None;
      }
      var id := activeSessionId.value;
      var active := FindSession(sessions, activeSessionId);
      var updated := (if active.Some? then active.value.messages else []) + [SessionMessage(UserRole, input, None)];
      sessions := WithUserMessage(sessions, id, updated, input);
      input := "";
      isLoading := true;
      var systemPrompt := SystemPromptFor(preferences, active, gpts);
      posted := Some(ApiMessages(systemPrompt, updated, preferences.maxHistory));
      if stream.Some? {
        StreamReply(stream.value, id, updated);
      }
      isLoading := false;
    }

    /** The read loop of `handleSend`: after each chunk the session's last
        message is the assistant's reply so far. */
    method StreamReply(chunks: seq<string>, id: string, updated: seq<SessionMessage>)
      modifies this`sessions
      ensures chunks == [] ==> sessions == old(sessions)
      ensures chunks != [] ==> sessions == WithReply(old(sessions), id, updated, Concat(chunks))
    {
      ghost var afterUser := sessions;
      var assistantContent := "";
      var k := 0;
      while k < |chunks|
        invariant 0 <= k <= |chunks|
        invariant assistantContent == Concat(chunks[..k])
        invariant k == 0 ==> sessions == afterUser
        invariant k > 0 ==> sessions == WithReply(afterUser, id, updated, assistantContent)
      {
        assert chunks[..k + 1][..k] == chunks[..k];
        assistantContent := assistantContent + chunks[k];
        if k > 0 {
          WithReplyOverrides(afterUser, id, updated, Concat(chunks[..k]), assistantContent);
        }
        sessions := WithReply(sessions, id, updated, assistantContent);
        k := k + 1;
      }
      assert chunks[..k] == chunks;
    }

    /** `loadRemoteSessions(userId)` once the query has answered: on success
        the chats replace the sessions with each message list sorted by
        time; an error changes nothing. */
    method LoadRemoteSessions(answer: Result<Option<seq<ChatSession>>>)
      modifies this`sessions
      ensures answer.Err? || answer.value.None? ==> sessions == old(sessions)
      ensures answer.Ok? && answer.value.Some? ==>
                |sessions| == |answer.value.value|
                && forall i :: 0 <= i < |sessions| ==>
                     sessions[i] == answer.value.value[i].(messages := SortByTime(answer.value.value[i].messages))
    {
      if answer.Ok? && answer.value.Some? {
        var chats := answer.value.value;
        sessions := seq(|chats|, i requires 0 <= i < |chats| => chats[i].(messages := SortByTime(chats[i].messages)));
      }
    }
  }
}
