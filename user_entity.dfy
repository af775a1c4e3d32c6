/** The User entity of lib/domain/entities/User.js: an account with an ordered
    list of starred custom-GPT ids that `starGPT`/`unstarGPT` change in place. */
module UserEntity {
  import opened Wrappers
  import opened Text
  import opened Seqs

  /** The stored form of a user; `name` is `None` for a null name. */
  datatype UserRow = UserRow(id: string, email: string, name: Option<string>, password: string,
                             createdAt: int, starredGptIds: seq<string>)

  /** `name || email.split('@')[0]`: the name when it is truthy, else the part
      of the email before the first '@'. */
  function NameOrEmailLocalPart(name: Option<string>, email: string): (r: string)
    ensures Truthy(name) ==> r == name.value
    ensures !Truthy(name) ==> r <= email && '@' !in r && (|r| < |email| ==> email[|r|] == '@')
  {
    if Truthy(name) then name.value else BeforeFirst(email, '@')
  }

  /** The star list after `starGPT(g)`: `g` is appended only when absent. */
  function Starred(ids: seq<string>, g: string): (r: seq<string>)
    ensures g in r
    ensures |ids| <= |r| && r[..|ids|] == ids
    ensures g in ids ==> r == ids
    ensures g !in ids ==> r == ids + [g]
  {
    if g in ids then ids else ids + [g]
  }

  /** Starring twice is the same as starring once. */
  lemma StarIdempotent(ids: seq<string>, g: string)
    ensures Starred(Starred(ids, g), g) == Starred(ids, g)
  {
  }

  /** Starring an absent id adds exactly one occurrence of it, at the end,
      and leaves every other id's count unchanged. */
  lemma StarAbsentAppendsOnce(ids: seq<string>, g: string)
    requires g !in ids
    ensures Starred(ids, g) == ids + [g]
    ensures multiset(Starred(ids, g))[g] == 1
    ensures forall h :: h != g ==> multiset(Starred(ids, g))[h] == multiset(ids)[h]
  {
    assert multiset(ids)[g] == 0;
  }

  /** Unstarring removes every occurrence, keeps the other ids and their
      order, and unstarring an id that is not starred changes nothing. */
  lemma UnstarProperties(ids: seq<string>, g: string)
    ensures g !in RemoveAll(ids, g)
    ensures g !in ids ==> RemoveAll(ids, g) == ids
    ensures forall a, b :: ids == a + b ==> RemoveAll(ids, g) == RemoveAll(a, g) + RemoveAll(b, g)
  {
    if g !in ids { RemoveAllAbsent(ids, g); }
    forall a, b | ids == a + b ensures RemoveAll(ids, g) == RemoveAll(a, g) + RemoveAll(b, g) {
      RemoveAllAppend(a, b, g);
    }
  }

  /** Star then unstar of an id that was not starred gives back the original list. */
  lemma StarThenUnstar(ids: seq<string>, g: string)
    requires g !in ids
    ensures RemoveAll(Starred(ids, g), g) == ids
  {
    RemoveAllAppend(ids, [g], g);
    RemoveAllAbsent(ids, g);
  }

  class User {
    var id: string
    var email: string
    var name: Option<string>
    var password: string
    var createdAt: int
    var starredGptIds: seq<string>

    constructor FromRow(row: UserRow)
      ensures Row() == row
    {
      id, email, name, password := row.id, row.email, row.name, row.password;
      createdAt, starredGptIds := row.createdAt, row.starredGptIds;
    }

    function Row(): UserRow
      reads this
    {
      UserRow(id, email, name, password, createdAt, starredGptIds)
    }

    /** `user.hasStarredGPT(g)`. */
    predicate HasStarredGpt(g: string)
      reads this
    {
      g in starredGptIds
    }

    /** `user.starGPT(g)`: pushes `g` onto the list unless it is already there. */
    method StarGpt(g: string)
      modifies this`starredGptIds
      ensures starredGptIds == Starred(old(starredGptIds), g)
      ensures HasStarredGpt(g)
    {
      if !HasStarredGpt(g) {
        starredGptIds := starredGptIds + [g];
      }
    }

    /** `user.unstarGPT(g)`: keeps the ids that differ from `g`. */
    method UnstarGpt(g: string)
      modifies this`starredGptIds
      ensures starredGptIds == RemoveAll(old(starredGptIds), g)
      ensures !HasStarredGpt(g)
    {
      starredGptIds := RemoveAll(starredGptIds, g);
    }

    /** `user.getDisplayName()`. */
    function DisplayName(): (r: string)
      reads this
      ensures Truthy(name) ==> r == name.value
      ensures !Truthy(name) ==> r <= email && '@' !in r && (|r| < |email| ==> email[|r|] == '@')
    {
      NameOrEmailLocalPart(name, email)
    }
  }
}
