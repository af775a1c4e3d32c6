/** The custom-GPT hook of src/hooks/useCustomGpts.ts: the list of GPTs
    visible to the user, the editor state, and `saveGpt`, `toggleStarGpt` and
    `deleteGpt`.  Every database call is a parameter: the rows a query
    returns, or the error a write reports; the write itself is returned. */
module CustomGptsHook {
  import opened Wrappers
  import opened Text
  import opened Seqs
  import opened ChatTypes
  import UserEntity

  /** The messages of the `TypeError` thrown when a form field is missing:
      `name` and `description` are read with `.trim()`, `instructions` with
      `.replace(...)` first. */
  const NullTrim: string := "Cannot read properties of null (reading 'trim')"
  const NullReplace: string := "Cannot read properties of null (reading 'replace')"
  const OnValue: string := "on"

  // ---------- the instruction normalisation chain ----------

  /** `.replace(/\r\n/g, "\n")`. */
  function ReplaceCrlf(s: string): (r: string)
    ensures |r| <= |s|
    decreases |s|
  {
    if s == [] then []
    else if |s| >= 2 && s[0] == '\r' && s[1] == '\n' then "\n" + ReplaceCrlf(s[2..])
    else [s[0]] + ReplaceCrlf(s[1..])
  }

  /** No three consecutive newlines in `s`, given that `k` newlines come
      right before it. */
  predicate NoTripleFrom(s: string, k: nat)
    decreases |s|
  {
    s == [] || (if s[0] == '\n' then k < 2 && NoTripleFrom(s[1..], k + 1) else NoTripleFrom(s[1..], 0))
  }

  predicate NoTripleNewline(s: string) {
    forall i :: 0 <= i < |s| - 2 ==> !(s[i] == '\n' && s[i + 1] == '\n' && s[i + 2] == '\n')
  }

  predicate NoDoubleSpace(s: string) {
    forall i :: 0 <= i < |s| - 1 ==> !(s[i] == ' ' && s[i + 1] == ' ')
  }

  /** `.replace(/\n{3,}/g, "\n\n")`: a run of n newlines becomes min(n, 2) of
      them.  `run` is the number already kept from the current run. */
  function CollapseNewlines(s: string, run: nat): (r: string)
    requires run <= 2
    ensures NoTripleFrom(r, run)
  {
    if s == [] then []
    else if s[0] == '\n' then
      if run < 2 then "\n" + CollapseNewlines(s[1..], run + 1) else CollapseNewlines(s[1..], run)
    else [s[0]] + CollapseNewlines(s[1..], 0)
  }

  predicate IsBlank(c: char) {
    c == ' ' || c == '\t'
  }

  /** `.replace(/[ \t]+/g, " ")`: a run of spaces and tabs becomes one
      space.  `inRun` says that the space for the current run was emitted. */
  function CollapseBlanks(s: string, inRun: bool): (r: string)
    ensures '\t' !in r
    ensures inRun && r != [] ==> r[0] != ' '
    ensures NoDoubleSpace(r)
  {
    if s == [] then []
    else if IsBlank(s[0]) then
      if inRun then CollapseBlanks(s[1..], true) else " " + CollapseBlanks(s[1..], true)
    else [s[0]] + CollapseBlanks(s[1..], false)
  }

  /** Collapsing blanks never joins newlines into a longer run. */
  lemma {:induction false} CollapseBlanksKeepsNoTriple(s: string, inRun: bool, k: nat)
    requires inRun ==> k == 0
    requires NoTripleFrom(s, k)
    ensures NoTripleFrom(CollapseBlanks(s, inRun), k)
  {
    if s != [] {
      if IsBlank(s[0]) {
        CollapseBlanksKeepsNoTriple(s[1..], true, 0);
        var t := CollapseBlanks(s[1..], true);
        if !inRun {
          assert (" " + t)[1..] == t;
        }
      } else if s[0] == '\n' {
        CollapseBlanksKeepsNoTriple(s[1..], false, k + 1);
        assert ([s[0]] + CollapseBlanks(s[1..], false))[1..] == CollapseBlanks(s[1..], false);
      } else {
        CollapseBlanksKeepsNoTriple(s[1..], false, 0);
        assert ([s[0]] + CollapseBlanks(s[1..], false))[1..] == CollapseBlanks(s[1..], false);
      }
    }
  }

  /** The run-counting form implies the positional form. */
  lemma {:induction false} NoTripleFromForall(s: string, k: nat)
    requires NoTripleFrom(s, k)
    ensures NoTripleNewline(s)
    ensures k >= 1 && |s| >= 2 ==> !(s[0] == '\n' && s[1] == '\n')
    ensures k >= 2 && s != [] ==> s[0] != '\n'
  {
    if s != [] {
      var k' := if s[0] == '\n' then k + 1 else 0;
      NoTripleFromForall(s[1..], k');
      forall i | 1 <= i < |s| - 2 ensures !(s[i] == '\n' && s[i + 1] == '\n' && s[i + 2] == '\n') {
        assert s[1..][i - 1] == s[i] && s[1..][i] == s[i + 1] && s[1..][i + 1] == s[i + 2];
      }
    }
  }

  /** A slice of a string keeps all three positional properties. */
  lemma SliceKeepsProperties(s: string, a: nat, b: nat)
    requires a <= b <= |s|
    requires NoTripleNewline(s) && NoDoubleSpace(s) && '\t' !in s
    ensures NoTripleNewline(s[a..b]) && NoDoubleSpace(s[a..b]) && '\t' !in s[a..b]
  {
    var r := s[a..b];
    forall i | 0 <= i < |r| - 2 ensures !(r[i] == '\n' && r[i + 1] == '\n' && r[i + 2] == '\n') {
      assert r[i] == s[a + i] && r[i + 1] == s[a + i + 1] && r[i + 2] == s[a + i + 2];
    }
    forall i | 0 <= i < |r| - 1 ensures !(r[i] == ' ' && r[i + 1] == ' ') {
      assert r[i] == s[a + i] && r[i + 1] == s[a + i + 1];
    }
  }

  /** The `instructions` normalisation chain. */
  function NormalizeInstructions(s: string): string {
    Trim(CollapseBlanks(CollapseNewlines(ReplaceCrlf(s), 0), false))
  }

  /** Normalised instructions hold no run of three newlines, no tab, no two
      consecutive spaces, and start and end with a non-whitespace character. */
  lemma InstructionsAreNormal(s: string)
    ensures var r := NormalizeInstructions(s);
            NoTripleNewline(r) && '\t' !in r && NoDoubleSpace(r)
            && (r != "" ==> !IsSpace(r[0]) && !IsSpace(r[|r| - 1]))
  {
    var collapsed := CollapseNewlines(ReplaceCrlf(s), 0);
    var blanked := CollapseBlanks(collapsed, false);
    CollapseBlanksKeepsNoTriple(collapsed, false, 0);
    NoTripleFromForall(blanked, 0);
    var a, b :| 0 <= a <= b <= |blanked| && Trim(blanked) == blanked[a..b];
    SliceKeepsProperties(blanked, a, b);
  }

  // ---------- the saved fields ----------

  /** `formData.get(key)`: `None` for a missing field. */
  function Field(form: map<string, string>, key: string): Option<string> {
    if key in form then Some(form[key]) else None
  }

  datatype GptFields = GptFields(name: string, instructions: string, description: string,
                                 userInstruction: Option<string>, isPublic: bool)

  /** The fields `saveGpt` computes; a missing name, instructions or
      description makes the first method called on it throw, and the fields
      are read in that order. */
  function NormalizeForm(form: map<string, string>): (r: Result<GptFields>)
    ensures r.Err? <==> "name" !in form || "instructions" !in form || "description" !in form
    ensures "name" !in form ==> r == Err(NullTrim)
    ensures "name" in form && "instructions" !in form ==> r == Err(NullReplace)
    ensures "name" in form && "instructions" in form && "description" !in form ==> r == Err(NullTrim)
    ensures r.Ok? ==> r.value.name == Trim(form["name"]) && r.value.description == Trim(form["description"])
                      && r.value.instructions == NormalizeInstructions(form["instructions"])
    ensures r.Ok? ==> (r.value.isPublic <==> "is_public" in form && form["is_public"] == OnValue)
    ensures r.Ok? ==> r.value.userInstruction ==
                        if "user_instruction" in form then Some(Trim(ReplaceCrlf(form["user_instruction"]))) else None
  {
    if "name" !in form then Err(NullTrim)
    else if "instructions" !in form then Err(NullReplace)
    else if "description" !in form then Err(NullTrim)
    else
      var userInstruction := Field(form, "user_instruction");
      Ok(GptFields(Trim(form["name"]), NormalizeInstructions(form["instructions"]), Trim(form["description"]),
                   if userInstruction.Some? then Some(Trim(ReplaceCrlf(userInstruction.value))) else None,
                   Field(form, "is_public") == Some(OnValue)))
  }

  /** The database write `saveGpt` issues. */
  datatype GptWrite = UpdateRow(id: string, fields: GptFields) | InsertRow(userId: string, fields: GptFields)

  // ---------- stars ----------

  /** `newStars` of `toggleStarGpt`. */
  function ToggledStars(current: seq<string>, gptId: string, isCurrentlyStarred: bool): (r: seq<string>)
    ensures isCurrentlyStarred ==> r == RemoveAll(current, gptId)
    ensures !isCurrentlyStarred ==> r == current + [gptId]
  {
    if isCurrentlyStarred then RemoveAll(current, gptId) else current + [gptId]
  }

  /** Unstarring removes every occurrence and keeps the other ids in order;
      starring appends without checking for a duplicate, unlike the User
      entity's `starGPT`. */
  lemma {:induction false} ToggleProperties(current: seq<string>, gptId: string)
    ensures gptId !in ToggledStars(current, gptId, true)
    ensures forall a, b :: current == a + b ==>
              ToggledStars(current, gptId, true) == RemoveAll(a, gptId) + RemoveAll(b, gptId)
    ensures multiset(ToggledStars(current, gptId, false))[gptId] == multiset(current)[gptId] + 1
    ensures gptId in current ==> ToggledStars(current, gptId, false) != UserEntity.Starred(current, gptId)
  {
    UserEntity.UnstarProperties(current, gptId);
    if gptId in current {
      assert |ToggledStars(current, gptId, false)| == |current| + 1;
    }
  }

  /** What `loadCustomGpts(userId)` selects: the user's own GPTs and the
      public ones, or only the public ones without a (truthy) user id. */
  predicate VisibleTo(g: CustomGptItem, userId: Option<string>) {
    if Truthy(userId) then g.userId == userId.value || g.isPublic else g.isPublic
  }

  function Visible(table: seq<CustomGptItem>, userId: Option<string>): (r: seq<CustomGptItem>)
    ensures forall g :: g in r <==> g in table && VisibleTo(g, userId)
  {
    if table == [] then []
    else
      var rest := Visible(table[1..], userId);
      assert table == [table[0]] + table[1..];
      if VisibleTo(table[0], userId) then [table[0]] + rest else rest
  }

  /** `{starred_gpt_ids}` written to a profile. */
  datatype StarWrite = StarWrite(userId: string, starredGptIds: seq<string>)

  class GptsHook {
    const user: Option<CustomUser>
    var customGpts: seq<CustomGptItem>
    var isGptModalOpen: bool
    var editingGpt: Option<CustomGptItem>
    var isGptSaving: bool

    constructor (user: Option<CustomUser>)
      ensures this.user == user && customGpts == [] && !isGptModalOpen && editingGpt == None && !isGptSaving
    {
      this.user := user;
      customGpts, isGptModalOpen, editingGpt, isGptSaving := [], false, None, false;
    }

    /** `loadCustomGpts(userId)` over the rows the query sees: the list is
        replaced only when the query succeeds. */
    method LoadCustomGpts(userId: Option<string>, table: Result<seq<CustomGptItem>>)
      modifies this`customGpts
      ensures table.Err? ==> customGpts == old(customGpts)
      ensures table.Ok? ==> customGpts == Visible(table.value, userId)
    {
      if table.Ok? {
        customGpts := Visible(table.value, userId);
      }
    }

    /** `saveGpt(formData)`: nothing without a user; otherwise the update of
        the GPT being edited, or an insert owned by the user.  `dbError` is
        the error the write reports and `table` the rows the reload sees. */
    method SaveGpt(form: map<string, string>, dbError: Option<string>, table: Result<seq<CustomGptItem>>)
      returns (write: Option<GptWrite>, r: Result<()>)
      modifies this`customGpts, this`isGptModalOpen, this`editingGpt, this`isGptSaving
      ensures user.None? ==>
                write == None && r == Ok(()) && customGpts == old(customGpts) && isGptModalOpen == old(isGptModalOpen)
                && editingGpt == old(editingGpt) && isGptSaving == old(isGptSaving)
      ensures user.Some? ==> !isGptSaving
      ensures user.Some? && NormalizeForm(form).Err? ==>
                write == None && r == Err(NormalizeForm(form).error) && customGpts == old(customGpts)
                && isGptModalOpen == old(isGptModalOpen) && editingGpt == old(editingGpt)
      ensures user.Some? && NormalizeForm(form).Ok? ==>
                write == Some(if old(editingGpt).Some? then UpdateRow(old(editingGpt).value.id, NormalizeForm(form).value)
                              else InsertRow(user.value.id, NormalizeForm(form).value))
      ensures user.Some? && NormalizeForm(form).Ok? && dbError.Some? ==>
                r == Err(dbError.value) && customGpts == old(customGpts)
                && isGptModalOpen == old(isGptModalOpen) && editingGpt == old(editingGpt)
      ensures user.Some? && NormalizeForm(form).Ok? && dbError.None? ==>
                r == Ok(()) && !isGptModalOpen && editingGpt == None
                && customGpts == (if table.Ok? then Visible(table.value, Some(user.value.id)) else old(customGpts))
    {
      if user.None? {
        return None, Ok(());
      }
      isGptSaving := true;
      var fields := NormalizeForm(form);
      if fields.Err? {
        isGptSaving := false;
        return None, Err(fields.error);
      }
      write := Some(if editingGpt.Some? then UpdateRow(editingGpt.value.id, fields.value)
                    else InsertRow(user.value.id, fields.value));
      if dbError.Some? {
        isGptSaving := false;
        return write, Err(dbError.value);
      }
      LoadCustomGpts(Some(user.value.id), table);
      isGptModalOpen := false;
      editingGpt := None;
      isGptSaving := false;
      r := Ok(());
    }

    /** `toggleStarGpt(gptId, isCurrentlyStarred)`: the profile write, or
        `None` without a user. */
    function ToggleStarGpt(gptId: string, isCurrentlyStarred: bool): (w: Option<StarWrite>)
      ensures user.None? ==> w == None
      ensures user.Some? ==> w.Some? && w.value.userId == user.value.id
      ensures user.Some? && isCurrentlyStarred ==> gptId !in w.value.starredGptIds
      ensures user.Some? && isCurrentlyStarred ==>
                w.value.starredGptIds == RemoveAll(user.value.starredGptIds.GetOr([]), gptId)
      ensures user.Some? && !isCurrentlyStarred ==>
                w.value.starredGptIds == user.value.starredGptIds.GetOr([]) + [gptId]
    {
      if user.None? then None
      else Some(StarWrite(user.value.id, ToggledStars(user.value.starredGptIds.GetOr([]), gptId, isCurrentlyStarred)))
    }

    /** `deleteGpt(gptId)`: with a user and a confirmed prompt, the row to
        delete and a reload; otherwise nothing. */
    method DeleteGpt(gptId: string, confirmed: bool, table: Result<seq<CustomGptItem>>)
      returns (deleted: Option<string>)
      modifies this`customGpts
      ensures user.None? || !confirmed ==> deleted == None && customGpts == old(customGpts)
      ensures user.Some? && confirmed ==>
                deleted == Some(gptId)
                && customGpts == (if table.Ok? then Visible(table.value, Some(user.value.id)) else old(customGpts))
    {
      if user.None? || !confirmed {
        return None;
      }
      deleted := Some(gptId);
      LoadCustomGpts(Some(user.value.id), table);
    }
  }
}
