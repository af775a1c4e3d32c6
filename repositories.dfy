/** In-memory repositories with the operations of
    lib/domain/repositories/I{Chat,Message,User,CustomGPT}Repository.js.
    Chats, users and custom GPTs are maps from id to row; messages are an
    append-only log in creation order.  Each `create` of a keyed repository
    refuses an id that is already taken, as the primary key of the table does. */
module Repositories {
  import opened Wrappers
  import opened ChatEntity
  import opened MessageEntity
  import opened UserEntity
  import opened CustomGptEntity

  /** Errors the repositories throw: the prefixes are the source's, and the
      database's own `error.message` after them, which the model does not
      know, is a fixed stand-in. */
  const DuplicateChat: string := "Failed to create chat: duplicate key"
  const MissingChat: string := "Failed to update chat: no row"
  const DuplicateUser: string := "Failed to create user: duplicate key"
  const MissingUser: string := "Failed to update starred GPTs: no row"
  const DuplicateGpt: string := "Failed to create custom GPT: duplicate key"
  const MissingGpt: string := "Failed to update custom GPT: no row"

  class ChatRepository {
    var rows: map<string, ChatRow>

    constructor ()
      ensures rows == map[]
    {
      rows := map[];
    }

    /** Every row is stored under its own id. */
    ghost predicate Valid()
      reads this
    {
      forall k :: k in rows ==> rows[k].id == k
    }

    /** `create(chat)`. */
    method Create(chat: Chat) returns (r: Result<ChatRow>)
      requires Valid()
      modifies this
      ensures Valid()
      ensures chat.id in old(rows) ==> r == Err(DuplicateChat) && rows == old(rows)
      ensures chat.id !in old(rows) ==> r == Ok(chat.Row()) && rows == old(rows)[chat.id := chat.Row()]
    {
      if chat.id in rows {
        return Err(DuplicateChat);
      }
      rows := rows[chat.id := chat.Row()];
      r := Ok(chat.Row());
    }

    /** `findById(id)`: `None` when there is no such chat. */
    function FindById(id: string): (r: Option<ChatRow>)
      reads this
      ensures r.Some? <==> id in rows
      ensures r.Some? ==> r.value == rows[id]
    {
      if id in rows then Some(rows[id]) else None
    }

    /** The rows that satisfy `matches`, each once, in the order the
        repository enumerates them. */
    method Where(matches: ChatRow -> bool) returns (r: seq<ChatRow>)
      requires Valid()
      ensures forall c :: c in r ==> c.id in rows && rows[c.id] == c && matches(c)
      ensures forall k :: k in rows && matches(rows[k]) ==> rows[k] in r
      ensures forall i, j :: 0 <= i < j < |r| ==> r[i].id != r[j].id
    {
      r := [];
      var remaining := rows.Keys;
      while remaining != {}
        invariant remaining <= rows.Keys
        invariant forall c :: c in r ==> c.id in rows && rows[c.id] == c && matches(c) && c.id !in remaining
        invariant forall k :: k in rows && k !in remaining && matches(rows[k]) ==> rows[k] in r
        invariant forall i, j :: 0 <= i < j < |r| ==> r[i].id != r[j].id
        decreases |remaining|
      {
        var k :| k in remaining;
        if matches(rows[k]) {
          r := r + [rows[k]];
        }
        remaining := remaining - {k};
      }
    }

    /** `findByUserId(userId)`. */
    method FindByUserId(userId: string) returns (r: seq<ChatRow>)
      requires Valid()
      ensures forall c :: c in r ==> c.id in rows && rows[c.id] == c && c.userId == Some(userId)
      ensures forall k :: k in rows && rows[k].userId == Some(userId) ==> rows[k] in r
      ensures forall i, j :: 0 <= i < j < |r| ==> r[i].id != r[j].id
    {
      r := Where((c: ChatRow) => c.userId == Some(userId));
    }

    /** `findByGuestIp(guestIp)`. */
    method FindByGuestIp(guestIp: string) returns (r: seq<ChatRow>)
      requires Valid()
      ensures forall c :: c in r ==> c.id in rows && rows[c.id] == c && c.guestIp == Some(guestIp)
      ensures forall k :: k in rows && rows[k].guestIp == Some(guestIp) ==> rows[k] in r
      ensures forall i, j :: 0 <= i < j < |r| ==> r[i].id != r[j].id
    {
      r := Where((c: ChatRow) => c.guestIp == Some(guestIp));
    }

    /** `update(chat)`: writes the title and `updatedAt` of an existing row. */
    method Update(chat: Chat) returns (r: Result<ChatRow>)
      requires Valid()
      modifies this
      ensures Valid()
      ensures chat.id !in old(rows) ==> r == Err(MissingChat) && rows == old(rows)
      ensures chat.id in old(rows) ==>
                var updated := old(rows)[chat.id].(title := chat.title, updatedAt := chat.updatedAt);
                r == Ok(updated) && rows == old(rows)[chat.id := updated]
    {
      if chat.id !in rows {
        return Err(MissingChat);
      }
      var updated := rows[chat.id].(title := chat.title, updatedAt := chat.updatedAt);
      rows := rows[chat.id := updated];
      r := Ok(updated);
    }

    /** `delete(id)`. */
    method Delete(id: string)
      requires Valid()
      modifies this
      ensures Valid()
      ensures rows == old(rows) - {id}
    {
      rows := rows - {id};
    }
  }

  /** The messages of one chat, in log order. */
  function MessagesOf(log: seq<Message>, chatId: string): (r: seq<Message>)
    ensures forall m :: m in r ==> m in log && m.chatId == chatId
    ensures forall m :: m in log && m.chatId == chatId ==> m in r
  {
    if log == [] then []
    else
      var rest := MessagesOf(log[..|log| - 1], chatId);
      assert log == log[..|log| - 1] + [log[|log| - 1]];
      if log[|log| - 1].chatId == chatId then rest + [log[|log| - 1]] else rest
  }

  class MessageRepository {
    var log: seq<Message>

    constructor ()
      ensures log == []
    {
      log := [];
    }

    /** `create(message)`: the store assigns the id `newId`. */
    method Create(m: Message, newId: string) returns (saved: Message)
      modifies this
      ensures saved == m.(id := Some(newId))
      ensures log == old(log) + [saved]
    {
      saved := m.(id := Some(newId));
      log := log + [saved];
    }

    /** `findByChatId(chatId)`. */
    function FindByChatId(chatId: string): seq<Message>
      reads this
    {
      MessagesOf(log, chatId)
    }

    /** `findById(id)`: the first message with that id. */
    function FindById(id: string): (r: Option<Message>)
      reads this
      ensures r.Some? ==> r.value in log && r.value.id == Some(id)
      ensures r.None? ==> forall m :: m in log ==> m.id != Some(id)
    {
      FirstWithId(log, id)
    }

    /** `deleteByChatId(chatId)`: the chat's messages go, the rest keep
        their order. */
    method DeleteByChatId(chatId: string)
      modifies this
      ensures log == WithoutChat(old(log), chatId)
      ensures forall c :: MessagesOf(log, c) == if c == chatId then [] else MessagesOf(old(log), c)
    {
      WithoutChatMessages(log, chatId);
      var kept: seq<Message> := [];
      var i := 0;
      while i < |log|
        invariant 0 <= i <= |log|
        invariant kept == WithoutChat(log[..i], chatId)
      {
        if log[i].chatId != chatId {
          kept := kept + [log[i]];
        }
        assert log[..i + 1] == log[..i] + [log[i]];
        i := i + 1;
      }
      assert log[..i] == log;
      log := kept;
    }
  }

  /** The log without the messages of one chat, in log order. */
  function WithoutChat(log: seq<Message>, chatId: string): (r: seq<Message>)
    ensures forall m :: m in r <==> m in log && m.chatId != chatId
  {
    if log == [] then []
    else
      var rest := WithoutChat(log[..|log| - 1], chatId);
      assert log == log[..|log| - 1] + [log[|log| - 1]];
      if log[|log| - 1].chatId != chatId then rest + [log[|log| - 1]] else rest
  }

  /** Deleting one chat's messages empties that chat's list and leaves every
      other chat's list exactly as it was. */
  lemma {:induction false} WithoutChatMessages(log: seq<Message>, chatId: string)
    ensures forall c :: MessagesOf(WithoutChat(log, chatId), c) == if c == chatId then [] else MessagesOf(log, c)
  {
    if log != [] {
      var init, last := log[..|log| - 1], log[|log| - 1];
      WithoutChatMessages(init, chatId);
      forall c ensures MessagesOf(WithoutChat(log, chatId), c) == if c == chatId then [] else MessagesOf(log, c) {
        assert init + [last] == log;
        MessagesOfAppend(init, last, c);
        if last.chatId != chatId {
          MessagesOfAppend(WithoutChat(init, chatId), last, c);
        }
      }
    }
  }

  function FirstWithId(log: seq<Message>, id: string): (r: Option<Message>)
    ensures r.Some? ==> r.value in log && r.value.id == Some(id)
    ensures r.None? ==> forall m :: m in log ==> m.id != Some(id)
  {
    if log == [] then None
    else if log[0].id == Some(id) then Some(log[0])
    else FirstWithId(log[1..], id)
  }

  /** A message appended to the log joins exactly its own chat's list, at the end. */
  lemma {:induction false} MessagesOfAppend(log: seq<Message>, m: Message, chatId: string)
    ensures MessagesOf(log + [m], chatId) == MessagesOf(log, chatId) + (if m.chatId == chatId then [m] else [])
  {
    assert (log + [m])[..|log + [m]| - 1] == log;
  }

  class UserRepository {
    var rows: map<string, UserRow>

    constructor ()
      ensures rows == map[]
    {
      rows := map[];
    }

    ghost predicate Valid()
      reads this
    {
      forall k :: k in rows ==> rows[k].id == k
    }

    /** `findById(id)`. */
    function FindById(id: string): (r: Option<UserRow>)
      reads this
      ensures r.Some? <==> id in rows
      ensures r.Some? ==> r.value == rows[id]
    {
      if id in rows then Some(rows[id]) else None
    }

    /** `create(user)`. */
    method Create(user: User) returns (r: Result<UserRow>)
      requires Valid()
      modifies this
      ensures Valid()
      ensures user.id in old(rows) ==> r == Err(DuplicateUser) && rows == old(rows)
      ensures user.id !in old(rows) ==> r == Ok(user.Row()) && rows == old(rows)[user.id := user.Row()]
    {
      if user.id in rows {
        return Err(DuplicateUser);
      }
      rows := rows[user.id := user.Row()];
      r := Ok(user.Row());
    }

    /** `updateStarredGPTs(userId, starredGptIds)`: only that user's list changes. */
    method UpdateStarredGpts(userId: string, ids: seq<string>) returns (r: Result<UserRow>)
      requires Valid()
      modifies this
      ensures Valid()
      ensures userId !in old(rows) ==> r == Err(MissingUser) && rows == old(rows)
      ensures userId in old(rows) ==>
                var updated := old(rows)[userId].(starredGptIds := ids);
                r == Ok(updated) && rows == old(rows)[userId := updated]
    {
      if userId !in rows {
        return Err(MissingUser);
      }
      var updated := rows[userId].(starredGptIds := ids);
      rows := rows[userId := updated];
      r := Ok(updated);
    }
  }

  class CustomGptRepository {
    var rows: map<string, GptRow>

    constructor ()
      ensures rows == map[]
    {
      rows := map[];
    }

    ghost predicate Valid()
      reads this
    {
      forall k :: k in rows ==> rows[k].id == k
    }

    /** `findById(id)`. */
    function FindById(id: string): (r: Option<GptRow>)
      reads this
      ensures r.Some? <==> id in rows
      ensures r.Some? ==> r.value == rows[id]
    {
      if id in rows then Some(rows[id]) else None
    }

    /** `create(customGPT)`. */
    method Create(gpt: CustomGpt) returns (r: Result<GptRow>)
      requires Valid()
      modifies this
      ensures Valid()
      ensures gpt.id in old(rows) ==> r == Err(DuplicateGpt) && rows == old(rows)
      ensures gpt.id !in old(rows) ==> r == Ok(gpt.Row()) && rows == old(rows)[gpt.id := gpt.Row()]
    {
      if gpt.id in rows {
        return Err(DuplicateGpt);
      }
      rows := rows[gpt.id := gpt.Row()];
      r := Ok(gpt.Row());
    }

    /** `update(customGPT)`: writes the name, description, prompt and
        visibility of an existing row; creator and creation time stay. */
    method Update(gpt: CustomGpt) returns (r: Result<GptRow>)
      requires Valid()
      modifies this
      ensures Valid()
      ensures gpt.id !in old(rows) ==> r == Err(MissingGpt) && rows == old(rows)
      ensures gpt.id in old(rows) ==>
                var updated := old(rows)[gpt.id].(name := gpt.name, description := gpt.description,
                                                  systemPrompt := gpt.systemPrompt, isPublic := gpt.isPublic);
                r == Ok(updated) && rows == old(rows)[gpt.id := updated]
    {
      if gpt.id !in rows {
        return Err(MissingGpt);
      }
      var updated := rows[gpt.id].(name := gpt.name, description := gpt.description,
                                   systemPrompt := gpt.systemPrompt, isPublic := gpt.isPublic);
      rows := rows[gpt.id := updated];
      r := Ok(updated);
    }

    /** `delete(id)`. */
    method Delete(id: string)
      requires Valid()
      modifies this
      ensures Valid()
      ensures rows == old(rows) - {id}
    {
      rows := rows - {id};
    }
  }
}
