/** `SavedPrompts`: a drop-down of the user's saved prompts, with an entry
    that opens a form to add one and a button that deletes the selected
    one. The prompt store calls are known only by name: each is recorded,
    and whether it is refused is a parameter. The list itself changes only
    when a subscription snapshot arrives. */
module SavedPrompts {
  import opened Common
  import opened Firebase

  /** A saved prompt as the subscription delivers it. Ids are strings, as
      the drop-down's option values are. */
  datatype Prompt = Prompt(id: string, title: string, content: string)

  /** A call into the prompt store. */
  datatype Call = CreatePrompt(title: string, content: string) | DeletePrompt(id: string) | MarkUsed(id: string)

  /** The option value of the "+ Add New Prompt" entry. */
  const AddNew: string := "add-new"
  const SaveFailed: string := "Failed to save prompt. Please try again."
  const DeleteFailed: string := "Failed to delete prompt. Please try again."

  /** `prompts.find(p => p.id === id)`: the first prompt with that id. */
  function FindPrompt(prompts: seq<Prompt>, id: string): (r: Option<Prompt>)
    ensures r.Some? ==> r.value in prompts && r.value.id == id
    ensures r.None? <==> forall i :: 0 <= i < |prompts| ==> prompts[i].id != id
    ensures |prompts| > 0 && prompts[0].id == id ==> r == Some(prompts[0])
    ensures r.Some? ==> exists i :: 0 <= i < |prompts| && prompts[i] == r.value && forall j :: 0 <= j < i ==> prompts[j].id != id
  {
    if prompts == [] then None
    else if prompts[0].id == id then Some(prompts[0])
    else FindPrompt(prompts[1..], id)
  }

  /** The selection `handleSelectPrompt(id)` leaves, and the text it hands
      to `onSelectPrompt`. */
  datatype Selection = Selection(selectedId: string, forwarded: string)

  function Select(prompts: seq<Prompt>, id: string): Selection {
    var p := FindPrompt(prompts, id);
    if p.Some? then Selection(id, p.value.content) else Selection("", "")
  }

  /** A listed id is selected and its prompt's text handed on; any other id
      (the placeholder's `''` among them) clears the selection and hands on
      `''`. */
  lemma SelectSpec(prompts: seq<Prompt>, id: string)
    ensures (exists i :: 0 <= i < |prompts| && prompts[i].id == id) ==>
              Select(prompts, id).selectedId == id
              && exists p :: p in prompts && p.id == id && Select(prompts, id).forwarded == p.content
    ensures (forall i :: 0 <= i < |prompts| ==> prompts[i].id != id) ==> Select(prompts, id) == Selection("", "")
  {
    var p := FindPrompt(prompts, id);
    if p.Some? {
      assert p.value in prompts && p.value.id == id;
    }
  }

  /** The add form may be saved: a title and a text that are not blank. */
  predicate CanSave(title: string, content: string) {
    !IsBlank(title) && !IsBlank(content)
  }

  /** The save button's `disabled` attribute: set exactly while a save is
      running or when saving would be refused. */
  function SaveDisabled(loading: bool, title: string, content: string): (r: bool)
    ensures r <==> loading || !CanSave(title, content)
  {
    loading || IsBlank(title) || IsBlank(content)
  }

  /** What is sent to the store never has white space at either end and is
      never empty. */
  lemma SavedTextIsTrimmed(title: string, content: string)
    requires CanSave(title, content)
    ensures Trim(Trim(title)) == Trim(title) && Trim(title) != []
    ensures Trim(Trim(content)) == Trim(content) && Trim(content) != []
  {
    TrimIdempotent(title);
    TrimIdempotent(content);
  }

  class PromptPicker {
    var prompts: seq<Prompt>
    var selectedId: string
    var showAdd: bool
    var newTitle: string
    var newContent: string
    var loading: bool
    var error: string
    /** The prompt store calls made so far, in order. */
    ghost var calls: seq<Call>

    constructor ()
      ensures prompts == [] && selectedId == "" && !showAdd && newTitle == "" && newContent == ""
      ensures !loading && error == "" && calls == []
    {
      prompts, selectedId, showAdd, newTitle, newContent, loading, error := [], "", false, "", "", false, "";
      calls := [];
    }

    /** A `subscribeToUserPrompts` snapshot replaces the list wholesale. */
    method OnPromptsSnapshot(updated: seq<Prompt>)
      modifies this
      ensures prompts == updated
      ensures selectedId == old(selectedId) && showAdd == old(showAdd) && error == old(error) && calls == old(calls)
    {
      prompts := updated;
    }

    /** `handleSelectPrompt(id)`: the selection and the text handed on are
        `Select`'s; a found prompt is also marked as used, and a refusal of
        that is only logged. */
    method HandleSelectPrompt(id: string, markFault: Fault) returns (forwarded: string)
      modifies this
      ensures Selection(selectedId, forwarded) == Select(old(prompts), id)
      ensures calls == old(calls) + (if FindPrompt(old(prompts), id).Some? then [MarkUsed(id)] else [])
      ensures prompts == old(prompts) && showAdd == old(showAdd) && error == old(error) && loading == old(loading)
      ensures newTitle == old(newTitle) && newContent == old(newContent)
    {
      var p := FindPrompt(prompts, id);
      if p.Some? {
        selectedId := id;
        forwarded := p.value.content;
        calls := calls + [MarkUsed(id)];
      } else {
        selectedId := "";
        forwarded := "";
      }
    }

    /** `handleDropdownChange`: the add entry opens the form and clears the
        selection without handing anything on; any other value is a
        selection. */
    method HandleDropdownChange(value: string, markFault: Fault) returns (forwarded: Option<string>)
      modifies this
      ensures value == AddNew ==>
                && showAdd && selectedId == "" && forwarded == None && calls == old(calls)
      ensures value != AddNew ==>
                && forwarded.Some? && Selection(selectedId, forwarded.value) == Select(old(prompts), value)
                && showAdd == old(showAdd)
                && calls == old(calls) + (if FindPrompt(old(prompts), value).Some? then [MarkUsed(value)] else [])
      ensures prompts == old(prompts) && error == old(error) && loading == old(loading)
      ensures newTitle == old(newTitle) && newContent == old(newContent)
    {
      if value == AddNew {
        showAdd := true;
        selectedId := "";
        forwarded := None;
      } else {
        var text := HandleSelectPrompt(value, markFault);
        forwarded := Some(text);
      }
    }

    method SetNewTitle(text: string)
      modifies this
      ensures newTitle == text && newContent == old(newContent) && showAdd == old(showAdd)
      ensures selectedId == old(selectedId) && prompts == old(prompts) && calls == old(calls)
    {
      newTitle := text;
    }

    method SetNewContent(text: string)
      modifies this
      ensures newContent == text && newTitle == old(newTitle) && showAdd == old(showAdd)
      ensures selectedId == old(selectedId) && prompts == old(prompts) && calls == old(calls)
    {
      newContent := text;
    }

    /** The overlay click and the Cancel button. */
    method CloseForm()
      modifies this
      ensures !showAdd && newTitle == old(newTitle) && newContent == old(newContent)
      ensures selectedId == old(selectedId) && prompts == old(prompts) && calls == old(calls)
    {
      showAdd := false;
    }

    /** `handleAddPrompt`: refused without a title and a text; otherwise the
        trimmed pair is sent to the store. Success empties and closes the
        form; a failure keeps it open with the error set. Loading always
        ends. */
    method HandleAddPrompt(fault: Fault)
      modifies this
      ensures !CanSave(old(newTitle), old(newContent)) ==>
                && calls == old(calls) && loading == old(loading) && error == old(error)
                && showAdd == old(showAdd) && newTitle == old(newTitle) && newContent == old(newContent)
      ensures CanSave(old(newTitle), old(newContent)) ==>
                && calls == old(calls) + [CreatePrompt(Trim(old(newTitle)), Trim(old(newContent)))]
                && !loading
                && (fault.Succeeds? ==> newTitle == "" && newContent == "" && !showAdd && error == "")
                && (fault.Fails? ==> newTitle == old(newTitle) && newContent == old(newContent)
                                     && showAdd == old(showAdd) && error == SaveFailed)
      ensures prompts == old(prompts) && selectedId == old(selectedId)
    {
      if IsBlank(newTitle) || IsBlank(newContent) {
        return;
      }
      loading := true;
      error := "";
      calls := calls + [CreatePrompt(Trim(newTitle), Trim(newContent))];
      if fault.Succeeds? {
        newTitle := "";
        newContent := "";
        showAdd := false;
      } else {
        error := SaveFailed;
      }
      loading := false;
    }

    /** The delete button is offered while a prompt id is selected and the
        list is not empty. */
    predicate DeleteOffered()
      reads this
    {
      selectedId != "" && |prompts| > 0
    }

    /** `handleDeletePrompt(id)`: nothing unless confirmed; then the store is
        asked to delete. After success the selection is cleared and `''`
        handed on only when the deleted prompt was the selected one, which
        also withdraws the delete button; a failure sets the error and
        leaves the selection. */
    method HandleDeletePrompt(id: string, confirmed: bool, fault: Fault) returns (forwarded: Option<string>)
      modifies this
      ensures !confirmed ==> calls == old(calls) && selectedId == old(selectedId) && error == old(error) && forwarded == None
      ensures confirmed ==> calls == old(calls) + [DeletePrompt(id)]
      ensures confirmed && fault.Succeeds? && old(selectedId) == id ==>
                selectedId == "" && forwarded == Some("") && error == old(error) && !DeleteOffered()
      ensures confirmed && fault.Succeeds? && old(selectedId) != id ==>
                selectedId == old(selectedId) && forwarded == None && error == old(error)
      ensures confirmed && fault.Fails? ==> selectedId == old(selectedId) && forwarded == None && error == DeleteFailed
      ensures prompts == old(prompts) && showAdd == old(showAdd) && loading == old(loading)
      ensures newTitle == old(newTitle) && newContent == old(newContent)
    {
      forwarded := None;
      if !confirmed {
        return;
      }
      calls := calls + [DeletePrompt(id)];
      if fault.Fails? {
        error := DeleteFailed;
      } else if selectedId == id {
        selectedId := "";
        forwarded := Some("");
      }
    }
  }
}
