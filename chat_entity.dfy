/** The Chat entity of lib/domain/entities/Chat.js: a conversation owned by an
    authenticated user or by a guest IP, whose title and `updatedAt` change in place. */
module ChatEntity {
  import opened Wrappers
  import opened Text

  const DefaultTitleLength: nat := 50
  const Ellipsis: string := "..."
  const EmptyTitleError: string := "Title cannot be empty"

  /** The stored form of a chat; `None` stands for a null owner field. */
  datatype ChatRow = ChatRow(id: string, userId: Option<string>, guestIp: Option<string>,
                             title: string, createdAt: int, updatedAt: int)

  /** `Chat.generateTitle(message, maxLength)`: the trimmed message, cut to
      `maxLength` characters with "..." appended when it was longer. */
  function GenerateTitle(message: string, maxLength: nat): (title: string)
    ensures |Trim(message)| <= maxLength ==> title == Trim(message)
    ensures |Trim(message)| > maxLength ==> title == Trim(message)[..maxLength] + Ellipsis
    ensures |title| <= maxLength + |Ellipsis|
  {
    var trimmed := Trim(message);
    Prefix(trimmed, maxLength) + (if |trimmed| > maxLength then Ellipsis else "")
  }

  /** A message of exactly the limit (after trimming) gets no ellipsis. */
  lemma TitleAtLimitIsWholeMessage(message: string)
    requires |Trim(message)| == DefaultTitleLength
    ensures GenerateTitle(message, DefaultTitleLength) == Trim(message)
  {
  }

  /** A message with no surrounding whitespace that is longer than the limit
      becomes its first `maxLength` characters followed by "...". */
  lemma LongTitleIsTruncated(message: string, maxLength: nat)
    requires |message| > maxLength
    requires !IsSpace(message[0]) && !IsSpace(message[|message| - 1])
    ensures GenerateTitle(message, maxLength) == message[..maxLength] + Ellipsis
    ensures |GenerateTitle(message, maxLength)| == maxLength + 3
  {
    TrimOfTrimmed(message);
  }

  /** A short message with no surrounding whitespace is its own title. */
  lemma ShortTitleIsUnchanged(message: string, maxLength: nat)
    requires message != "" && |message| <= maxLength
    requires !IsSpace(message[0]) && !IsSpace(message[|message| - 1])
    ensures GenerateTitle(message, maxLength) == message
  {
    TrimOfTrimmed(message);
  }

  class Chat {
    var id: string
    var userId: Option<string>
    var guestIp: Option<string>
    var title: string
    var createdAt: int
    var updatedAt: int

    constructor (row: ChatRow)
      ensures Row() == row
    {
      id, userId, guestIp := row.id, row.userId, row.guestIp;
      title, createdAt, updatedAt := row.title, row.createdAt, row.updatedAt;
    }

    /** The field values as a row. */
    function Row(): ChatRow
      reads this
    {
      ChatRow(id, userId, guestIp, title, createdAt, updatedAt)
    }

    /** `chat.isOwnedBy(userId)`: strict equality of the owner field. */
    predicate IsOwnedBy(user: Option<string>)
      reads this
    {
      userId == user
    }

    /** `chat.isGuestChat()`: no (truthy) user id, and a truthy guest IP. */
    predicate IsGuestChat()
      reads this
    {
      !Truthy(userId) && Truthy(guestIp)
    }

    /** `chat.updateTitle(newTitle)`: a blank title is refused and nothing
        changes; otherwise the title is stored trimmed and `updatedAt` is stamped. */
    method UpdateTitle(newTitle: Option<string>, now: int) returns (r: Result<()>)
      modifies this`title, this`updatedAt
      ensures Blank(newTitle) ==> r == Err(EmptyTitleError) && title == old(title) && updatedAt == old(updatedAt)
      ensures !Blank(newTitle) ==> r == Ok(()) && title == Trim(newTitle.value) && updatedAt == now
      ensures !Blank(newTitle) ==> title != "" && Trim(title) == title
    {
      if Blank(newTitle) {
        return Err(EmptyTitleError);
      }
      TrimIdempotent(newTitle.value);
      title := Trim(newTitle.value);
      updatedAt := now;
      r := Ok(());
    }

    /** `chat.touch()`: only `updatedAt` changes. */
    method Touch(now: int)
      modifies this`updatedAt
      ensures updatedAt == now
    {
      updatedAt := now;
    }
  }

  /** A guest chat is owned by no authenticated user. */
  lemma GuestChatHasNoOwner(c: Chat, user: string)
    requires c.IsGuestChat() && user != ""
    ensures !c.IsOwnedBy(Some(user))
  {
  }
}
