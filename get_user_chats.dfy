/** The GetUserChats use case of lib/application/use-cases/chat/GetUserChats.js:
    the chats of the signed-in user, or else of the guest IP, or none. */
module GetUserChatsUseCase {
  import opened Wrappers
  import opened Text
  import opened ChatEntity
  import opened Repositories

  /** `{id, title, created_at, updated_at}`. */
  datatype ChatSummary = ChatSummary(id: string, title: string, createdAt: int, updatedAt: int)

  function Summary(c: ChatRow): ChatSummary {
    ChatSummary(c.id, c.title, c.createdAt, c.updatedAt)
  }

  function Summaries(cs: seq<ChatRow>): (r: seq<ChatSummary>)
    ensures |r| == |cs|
    ensures forall i :: 0 <= i < |cs| ==> r[i] == Summary(cs[i])
  {
    seq(|cs|, i requires 0 <= i < |cs| => Summary(cs[i]))
  }

  /** Which chats a call lists: a truthy user id selects by owner alone;
      otherwise a truthy guest IP selects by IP; otherwise nothing. */
  predicate Selected(c: ChatRow, userId: Option<string>, guestIp: Option<string>) {
    if Truthy(userId) then c.userId == userId
    else if Truthy(guestIp) then c.guestIp == guestIp
    else false
  }

  /** A signed-in caller's list ignores the guest IP and never holds a chat
      of another owner or a chat with no owner. */
  lemma UserLookupIgnoresGuestIp(c: ChatRow, user: string, ip1: Option<string>, ip2: Option<string>)
    requires user != ""
    ensures Selected(c, Some(user), ip1) <==> Selected(c, Some(user), ip2)
    ensures Selected(c, Some(user), ip1) ==> c.userId == Some(user)
  {
  }

  class GetUserChats {
    const chats: ChatRepository

    constructor (chats: ChatRepository)
      ensures this.chats == chats
    {
      this.chats := chats;
    }

    /** `execute({userId, guestIp})`: every selected chat exactly once, as a
        summary of its stored row, and nothing else. */
    method Execute(userId: Option<string>, guestIp: Option<string>) returns (r: seq<ChatSummary>)
      requires chats.Valid()
      ensures !Truthy(userId) && !Truthy(guestIp) ==> r == []
      ensures forall s :: s in r ==> s.id in chats.rows && Selected(chats.rows[s.id], userId, guestIp)
                                     && s == Summary(chats.rows[s.id])
      ensures forall k :: k in chats.rows && Selected(chats.rows[k], userId, guestIp) ==> Summary(chats.rows[k]) in r
      ensures forall i, j :: 0 <= i < j < |r| ==> r[i].id != r[j].id
    {
      var found: seq<ChatRow>;
      if Truthy(userId) {
        found := chats.FindByUserId(userId.value);
      } else if Truthy(guestIp) {
        found := chats.FindByGuestIp(guestIp.value);
      } else {
        return [];
      }
      r := Summaries(found);
      forall k | k in chats.rows && Selected(chats.rows[k], userId, guestIp)
        ensures Summary(chats.rows[k]) in r
      {
        var i :| 0 <= i < |found| && found[i] == chats.rows[k];
        assert r[i] == Summary(chats.rows[k]);
      }
    }
  }
}
