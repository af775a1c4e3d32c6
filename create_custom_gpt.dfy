/** The CreateCustomGPT use case of lib/application/use-cases/custom-gpt/CreateCustomGPT.js:
    validate, look up the creator, build the GPT from trimmed fields and
    store it.  The new id and the clock are parameters. */
module CreateCustomGptUseCase {
  import opened Wrappers
  import opened Text
  import opened UserEntity
  import opened CustomGptEntity
  import opened Repositories

  const CreatorNotFound: string := "Creator not found"
  const ErrorSeparator: string := ", "

  datatype CreateInput = CreateInput(name: Option<string>, description: Option<string>,
                                     systemPrompt: Option<string>, isPublic: Option<bool>,
                                     creatorId: string)

  /** The stored row for a validated input: trimmed name and prompt,
      `description?.trim() || ''`, `isPublic || false`, the creator's name. */
  function NewGptRow(id: string, input: CreateInput, creatorName: Option<string>, now: int): (g: GptRow)
    requires input.name.Some? && input.systemPrompt.Some?
    ensures g.id == id && g.creatorId == input.creatorId && g.creatorName == creatorName && g.createdAt == now
    ensures g.name == Trim(input.name.value) && g.systemPrompt == Trim(input.systemPrompt.value)
    ensures g.description == if input.description.Some? then Trim(input.description.value) else ""
    ensures g.isPublic <==> input.isPublic == Some(true)
  {
    GptRow(id, Trim(input.name.value),
           if input.description.Some? then Trim(input.description.value) else "",
           Trim(input.systemPrompt.value), input.creatorId, creatorName,
           input.isPublic.GetOr(false), now)
  }

  /** Every GPT this use case stores has a non-blank, trimmed name of at most
      100 characters and a non-blank, trimmed prompt. */
  lemma {:induction false} NewGptIsWellFormed(id: string, input: CreateInput, creatorName: Option<string>, now: int)
    requires Validate(input.name, input.systemPrompt) == []
    ensures var g := NewGptRow(id, input, creatorName, now);
            g.name != "" && |g.name| <= MaxNameLength && Trim(g.name) == g.name
            && g.systemPrompt != "" && Trim(g.systemPrompt) == g.systemPrompt
            && Validate(Some(g.name), Some(g.systemPrompt)) == []
  {
    TrimIdempotent(input.name.value);
    TrimIdempotent(input.systemPrompt.value);
  }

  class CreateCustomGpt {
    const gpts: CustomGptRepository
    const users: UserRepository

    constructor (gpts: CustomGptRepository, users: UserRepository)
      ensures this.gpts == gpts && this.users == users
    {
      this.gpts, this.users := gpts, users;
    }

    /** `execute(input)`: validation errors come first and are joined by
        ", "; then an unknown creator; otherwise exactly one row is added. */
    method Execute(input: CreateInput, newId: string, now: int) returns (r: Result<GptRow>)
      requires gpts.Valid()
      modifies gpts
      ensures gpts.Valid()
      ensures Validate(input.name, input.systemPrompt) != [] ==>
                r == Err(Join(Validate(input.name, input.systemPrompt), ErrorSeparator)) && gpts.rows == old(gpts.rows)
      ensures Validate(input.name, input.systemPrompt) == [] && input.creatorId !in users.rows ==>
                r == Err(CreatorNotFound) && gpts.rows == old(gpts.rows)
      ensures Validate(input.name, input.systemPrompt) == [] && input.creatorId in users.rows ==>
                newId in old(gpts.rows) ==> r == Err(DuplicateGpt) && gpts.rows == old(gpts.rows)
      ensures Validate(input.name, input.systemPrompt) == [] && input.creatorId in users.rows
              && newId !in old(gpts.rows) ==>
                var g := NewGptRow(newId, input, users.rows[input.creatorId].name, now);
                r == Ok(g) && gpts.rows == old(gpts.rows)[newId := g]
    {
      var errors := Validate(input.name, input.systemPrompt);
      if errors != [] {
        return Err(Join(errors, ErrorSeparator));
      }
      assert input.name.Some? && input.systemPrompt.Some?;
      var creator := users.FindById(input.creatorId);
      if creator.None? {
        return Err(CreatorNotFound);
      }
      var gpt := new CustomGpt(NewGptRow(newId, input, creator.value.name, now), false);
      r := gpts.Create(gpt);
    }
  }
}
