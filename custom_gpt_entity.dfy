/** The CustomGPT entity of lib/domain/entities/CustomGPT.js: a named system
    prompt with a creator and a visibility flag, plus its static validation. */
module CustomGptEntity {
  import opened Wrappers
  import opened Text

  const MaxNameLength: nat := 100
  const NameRequired: string := "Name is required"
  const PromptRequired: string := "System prompt is required"
  const NameTooLong: string := "Name must be less than 100 characters"

  /** The stored form of a custom GPT. */
  datatype GptRow = GptRow(id: string, name: string, description: string, systemPrompt: string,
                           creatorId: string, creatorName: Option<string>, isPublic: bool, createdAt: int)

  /** The argument of `update({...})`: `None` stands for a field left undefined. */
  datatype GptPatch = GptPatch(name: Option<string>, description: Option<string>,
                               systemPrompt: Option<string>, isPublic: Option<bool>)

  /** Position of each validation message in the order `validate` checks them. */
  function ErrorRank(e: string): nat {
    if e == NameRequired then 0 else if e == PromptRequired then 1 else 2
  }

  /** `CustomGPT.validate({name, systemPrompt})`. */
  function Validate(name: Option<string>, systemPrompt: Option<string>): (errors: seq<string>)
    ensures NameRequired in errors <==> Blank(name)
    ensures PromptRequired in errors <==> Blank(systemPrompt)
    ensures NameTooLong in errors <==> name.Some? && |name.value| > MaxNameLength
    ensures forall e :: e in errors ==> e == NameRequired || e == PromptRequired || e == NameTooLong
    ensures forall i, j :: 0 <= i < j < |errors| ==> ErrorRank(errors[i]) < ErrorRank(errors[j])
    ensures errors == [] <==> !Blank(name) && !Blank(systemPrompt) && |name.value| <= MaxNameLength
  {
    (if Blank(name) then [NameRequired] else [])
    + (if Blank(systemPrompt) then [PromptRequired] else [])
    + (if Truthy(name) && |name.value| > MaxNameLength then [NameTooLong] else [])
  }

  /** A 100-character name passes; a 101-character name is refused with the
      length message alone when it is not blank. */
  lemma NameLengthBoundary(name: string, prompt: string)
    requires Trim(name) != "" && Trim(prompt) != ""
    ensures |name| == 100 ==> Validate(Some(name), Some(prompt)) == []
    ensures |name| == 101 ==> Validate(Some(name), Some(prompt)) == [NameTooLong]
  {
  }

  /** An empty name is reported first, before any other message. */
  lemma EmptyNameReportedFirst(prompt: Option<string>)
    ensures Validate(Some(""), prompt)[0] == NameRequired
  {
    assert Trim("") == "";
  }

  /** The row after `update(patch)`. */
  function Patched(row: GptRow, patch: GptPatch): (r: GptRow)
    ensures r.id == row.id && r.creatorId == row.creatorId && r.creatorName == row.creatorName
            && r.createdAt == row.createdAt
    ensures patch.name.Some? ==> r.name == patch.name.value
    ensures patch.name.None? ==> r.name == row.name
    ensures patch.description.Some? ==> r.description == patch.description.value
    ensures patch.description.None? ==> r.description == row.description
    ensures patch.systemPrompt.Some? ==> r.systemPrompt == patch.systemPrompt.value
    ensures patch.systemPrompt.None? ==> r.systemPrompt == row.systemPrompt
    ensures patch.isPublic.Some? ==> r.isPublic == patch.isPublic.value
    ensures patch.isPublic.None? ==> r.isPublic == row.isPublic
  {
    row.(name := patch.name.GetOr(row.name),
         description := patch.description.GetOr(row.description),
         systemPrompt := patch.systemPrompt.GetOr(row.systemPrompt),
         isPublic := patch.isPublic.GetOr(row.isPublic))
  }

  /** An empty patch changes nothing, a patch applied twice acts once, and
      two patches applied in turn act as one patch in which the later
      provided fields win. */
  lemma PatchProperties(row: GptRow, patch: GptPatch, later: GptPatch)
    ensures Patched(row, GptPatch(None, None, None, None)) == row
    ensures Patched(Patched(row, patch), patch) == Patched(row, patch)
    ensures Patched(Patched(row, patch), later)
            == Patched(row, GptPatch(if later.name.Some? then later.name else patch.name,
                                     if later.description.Some? then later.description else patch.description,
                                     if later.systemPrompt.Some? then later.systemPrompt else patch.systemPrompt,
                                     if later.isPublic.Some? then later.isPublic else patch.isPublic))
  {
  }

  class CustomGpt {
    var id: string
    var name: string
    var description: string
    var systemPrompt: string
    var creatorId: string
    var creatorName: Option<string>
    var isPublic: bool
    var createdAt: int
    var isStarred: bool

    constructor (row: GptRow, isStarred: bool)
      ensures Row() == row && this.isStarred == isStarred
    {
      id, name, description, systemPrompt := row.id, row.name, row.description, row.systemPrompt;
      creatorId, creatorName, isPublic, createdAt := row.creatorId, row.creatorName, row.isPublic, row.createdAt;
      this.isStarred := isStarred;
    }

    function Row(): GptRow
      reads this
    {
      GptRow(id, name, description, systemPrompt, creatorId, creatorName, isPublic, createdAt)
    }

    /** `gpt.isOwnedBy(userId)`. */
    predicate IsOwnedBy(user: string)
      reads this
    {
      creatorId == user
    }

    method MakePublic()
      modifies this`isPublic
      ensures isPublic && Row() == old(Row()).(isPublic := true)
    {
      isPublic := true;
    }

    method MakePrivate()
      modifies this`isPublic
      ensures !isPublic && Row() == old(Row()).(isPublic := false)
    {
      isPublic := false;
    }

    /** `gpt.update(fields)`: exactly the provided fields change; the id,
        creator and creation time cannot change. */
    method Update(patch: GptPatch)
      modifies this`name, this`description, this`systemPrompt, this`isPublic
      ensures Row() == Patched(old(Row()), patch)
    {
      if patch.name.Some? { name := patch.name.value; }
      if patch.description.Some? { description := patch.description.value; }
      if patch.systemPrompt.Some? { systemPrompt := patch.systemPrompt.value; }
      if patch.isPublic.Some? { isPublic := patch.isPublic.value; }
    }
  }
}
