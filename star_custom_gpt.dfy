/** The StarCustomGPT use case of lib/application/use-cases/custom-gpt/StarCustomGPT.js:
    add a GPT to, or remove it from, a user's starred list and write the list back. */
module StarCustomGptUseCase {
  import opened Wrappers
  import opened Seqs
  import opened UserEntity
  import opened CustomGptEntity
  import opened Repositories

  const UserNotFound: string := "User not found"
  const GptNotFound: string := "Custom GPT not found"
  /** The default of `star` in `execute({userId, gptId, star = true})`. */
  const DefaultStar: bool := true

  /** `{success: true, starred: star}`. */
  datatype StarResult = StarResult(success: bool, starred: bool)

  /** The list written back: `starGPT` for a star, `unstarGPT` otherwise. */
  function NewStars(ids: seq<string>, gptId: string, star: bool): (r: seq<string>)
    ensures star ==> gptId in r && |ids| <= |r| && r[..|ids|] == ids
    ensures star && gptId in ids ==> r == ids
    ensures star && gptId !in ids ==> r == ids + [gptId]
    ensures !star ==> gptId !in r && |r| <= |ids|
    ensures !star ==> forall y :: y != gptId ==> multiset(r)[y] == multiset(ids)[y]
    ensures !star ==> r == RemoveAll(ids, gptId)
  {
    if star then Starred(ids, gptId) else RemoveAll(ids, gptId)
  }

  /** Starring and then unstarring the same GPT leaves exactly the list
      without that GPT; unstarring a GPT that is not starred changes nothing. */
  lemma {:induction false} StarUnstarRoundTrip(ids: seq<string>, gptId: string)
    ensures NewStars(NewStars(ids, gptId, true), gptId, false) == RemoveAll(ids, gptId)
    ensures gptId !in ids ==> NewStars(ids, gptId, false) == ids
  {
    if gptId !in ids {
      RemoveAllAppend(ids, [gptId], gptId);
      assert RemoveAll([gptId], gptId) == [];
      RemoveAllAbsent(ids, gptId);
    }
  }

  class StarCustomGpt {
    const users: UserRepository
    const gpts: CustomGptRepository

    constructor (users: UserRepository, gpts: CustomGptRepository)
      ensures this.users == users && this.gpts == gpts
    {
      this.users, this.gpts := users, gpts;
    }

    /** `execute({userId, gptId, star})`: an unknown user or GPT changes
        nothing; otherwise only that user's star list is rewritten. */
    method Execute(userId: string, gptId: string, star: bool) returns (r: Result<StarResult>)
      requires users.Valid()
      modifies users
      ensures users.Valid()
      ensures userId !in old(users.rows) ==> r == Err(UserNotFound) && users.rows == old(users.rows)
      ensures userId in old(users.rows) && gptId !in gpts.rows ==> r == Err(GptNotFound) && users.rows == old(users.rows)
      ensures userId in old(users.rows) && gptId in gpts.rows ==>
                r == Ok(StarResult(true, star))
                && users.rows == old(users.rows)[userId := old(users.rows)[userId].(
                     starredGptIds := NewStars(old(users.rows)[userId].starredGptIds, gptId, star))]
    {
      var found := users.FindById(userId);
      if found.None? {
        return Err(UserNotFound);
      }
      var gpt := gpts.FindById(gptId);
      if gpt.None? {
        return Err(GptNotFound);
      }
      var user := new User.FromRow(found.value);
      if star {
        user.StarGpt(gptId);
      } else {
        user.UnstarGpt(gptId);
      }
      var written := users.UpdateStarredGpts(userId, user.starredGptIds);
      r := Ok(StarResult(true, star));
    }

    /** `execute({userId, gptId})`: `star` left out defaults to `true`. */
    method ExecuteWithDefault(userId: string, gptId: string) returns (r: Result<StarResult>)
      requires users.Valid()
      modifies users
      ensures users.Valid()
      ensures userId !in old(users.rows) ==> r == Err(UserNotFound) && users.rows == old(users.rows)
      ensures userId in old(users.rows) && gptId !in gpts.rows ==> r == Err(GptNotFound) && users.rows == old(users.rows)
      ensures userId in old(users.rows) && gptId in gpts.rows ==>
                r == Ok(StarResult(true, true))
                && users.rows == old(users.rows)[userId := old(users.rows)[userId].(
                     starredGptIds := Starred(old(users.rows)[userId].starredGptIds, gptId))]
    {
      r := Execute(userId, gptId, DefaultStar);
    }
  }
}
