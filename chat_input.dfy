/** The `ChatInput` composer: a draft (text and an optional picked image),
    the submit gate shared by the form, the Enter key and the send button,
    the image filter and the drag-and-drop state. */
module ChatInput {
  import opened Common
  import opened Records

  /** A file from the file picker or a drop, with the data URL its
      `FileReader` yields. */
  datatype File = File(name: string, mimeType: string, dataUrl: string)

  /** `selectedImage`: `{file, url, type}`. */
  datatype Attachment = Attachment(file: File, url: string, mimeType: string)

  /** The attachment as the message service reads it: its data URL and
      MIME type. */
  function AsImage(a: Option<Attachment>): (r: Option<Image>)
    ensures r.Some? <==> a.Some?
    ensures a.Some? ==> r.value.url == a.value.url && r.value.mimeType == a.value.mimeType
  {
    if a.Some? then Some(Image(a.value.url, a.value.mimeType)) else None
  }

  /** The arguments of one `onSendMessage(text, image)` call. */
  datatype Submission = Submission(text: string, image: Option<Attachment>)

  /** The parts of a key event the composer looks at. */
  datatype Key = Key(key: string, shift: bool)

  /** The composer's draft. */
  datatype Draft = Draft(message: string, image: Option<Attachment>)

  /** A draft after an event, and the message handed on by it, if any. */
  datatype Step = Step(draft: Draft, sent: Option<Submission>)

  const Empty: Draft := Draft("", None)

  /** The submit gate: some non-blank text or an image, and an enabled input. */
  predicate CanSubmit(d: Draft, disabled: bool) {
    (!IsBlank(d.message) || d.image.Some?) && !disabled
  }

  /** The send button's `disabled` attribute: set exactly when the gate
      would refuse a submit. */
  function SendButtonDisabled(d: Draft, disabled: bool): (r: bool)
    ensures r <==> !CanSubmit(d, disabled)
  {
    disabled || (IsBlank(d.message) && d.image.None?)
  }

  /** `handleSubmit`: a draft that passes the gate is handed on trimmed,
      with its image, and the composer is emptied; any other draft stays. */
  function Submit(d: Draft, disabled: bool): (r: Step)
    ensures r.sent.Some? <==> CanSubmit(d, disabled)
    ensures r.sent.Some? ==> r.draft == Empty && r.sent.value == Submission(Trim(d.message), d.image)
    ensures r.sent.None? ==> r.draft == d
  {
    if CanSubmit(d, disabled) then Step(Empty, Some(Submission(Trim(d.message), d.image))) else Step(d, None)
  }

  /** What is handed on never has white space at either end, and it is
      never empty text without an image. */
  lemma SubmittedIsTrimmed(d: Draft, disabled: bool)
    requires Submit(d, disabled).sent.Some?
    ensures var s := Submit(d, disabled).sent.value;
            && Trim(s.text) == s.text
            && (s.text == [] || (!IsSpace(s.text[0]) && !IsSpace(s.text[|s.text| - 1])))
            && (s.text != [] || s.image.Some?)
  {
    TrimIdempotent(d.message);
    TrimmedEnds(d.message);
  }

  /** Enter without Shift submits. */
  predicate SubmitsOn(k: Key) {
    k.key == "Enter" && !k.shift
  }

  /** `handleKeyDown`. */
  function KeyDown(d: Draft, k: Key, disabled: bool): Step {
    if SubmitsOn(k) then Submit(d, disabled) else Step(d, None)
  }

  /** Enter without Shift behaves exactly like a submit; every other key,
      Shift+Enter among them, neither sends nor changes the draft. */
  lemma KeyDownSubmits(d: Draft, k: Key, disabled: bool)
    ensures SubmitsOn(k) ==> KeyDown(d, k, disabled) == Submit(d, disabled)
    ensures !SubmitsOn(k) ==> KeyDown(d, k, disabled) == Step(d, None)
    ensures KeyDown(d, k, disabled).sent.Some? <==> SubmitsOn(k) && CanSubmit(d, disabled)
    ensures KeyDown(d, Key("Enter", true), disabled) == Step(d, None)
  {
  }

  /** `file.type.startsWith('image/')`. */
  predicate IsImage(f: File) {
    StartsWith(f.mimeType, "image/")
  }

  /** `handleImageSelect(file)` once its read completes: an image file
      replaces the selection, with its data URL and type; no file, or a
      file of another type, leaves the selection as it was. */
  function Select(current: Option<Attachment>, file: Option<File>): (r: Option<Attachment>)
    ensures file.None? || !IsImage(file.value) ==> r == current
    ensures file.Some? && IsImage(file.value) ==>
              r == Some(Attachment(file.value, file.value.dataUrl, file.value.mimeType))
  {
    if file.Some? && IsImage(file.value) then Some(Attachment(file.value, file.value.dataUrl, file.value.mimeType))
    else current
  }

  /** Any attachment the composer holds after a selection has an image type. */
  lemma SelectKeepsImages(current: Option<Attachment>, file: Option<File>)
    requires current.Some? ==> StartsWith(current.value.mimeType, "image/")
    ensures var r := Select(current, file);
            r.Some? ==> StartsWith(r.value.mimeType, "image/")
  {
  }

  /** The file a drop offers: the first one, if any. */
  function FirstFile(files: seq<File>): (r: Option<File>)
    ensures r.Some? <==> |files| > 0
    ensures r.Some? ==> r.value == files[0]
  {
    if |files| > 0 then Some(files[0]) else None
  }

  /** Only the first dropped file is ever looked at: files after it make no
      difference, an empty drop changes nothing, and a non-image first file
      is not replaced by an image behind it. */
  lemma {:induction false} DropLooksAtFirstOnly(current: Option<Attachment>, f: File, rest: seq<File>)
    ensures Select(current, FirstFile([f] + rest)) == Select(current, Some(f))
    ensures Select(current, FirstFile([])) == current
    ensures !IsImage(f) ==> Select(current, FirstFile([f] + rest)) == current
  {
    assert ([f] + rest)[0] == f;
  }

  class Composer {
    var message: string
    var selectedImage: Option<Attachment>
    var dragging: bool

    function Current(): Draft
      reads this
    {
      Draft(message, selectedImage)
    }

    constructor ()
      ensures Current() == Empty && !dragging
    {
      message, selectedImage, dragging := "", None, false;
    }

    /** The text area's `onChange`. */
    method SetMessage(text: string)
      modifies this
      ensures message == text && selectedImage == old(selectedImage) && dragging == old(dragging)
    {
      message := text;
    }

    method HandleSubmit(disabled: bool) returns (sent: Option<Submission>)
      modifies this
      ensures Step(Current(), sent) == Submit(old(Current()), disabled)
      ensures dragging == old(dragging)
    {
      sent := None;
      if (!IsBlank(message) || selectedImage.Some?) && !disabled {
        sent := Some(Submission(Trim(message), selectedImage));
        message := "";
        selectedImage := None;
      }
    }

    /** `prevented` is whether the key's default action is cancelled. */
    method HandleKeyDown(k: Key, disabled: bool) returns (sent: Option<Submission>, prevented: bool)
      modifies this
      ensures prevented == SubmitsOn(k)
      ensures Step(Current(), sent) == KeyDown(old(Current()), k, disabled)
      ensures dragging == old(dragging)
    {
      sent, prevented := None, false;
      if k.key == "Enter" && !k.shift {
        prevented := true;
        sent := HandleSubmit(disabled);
      }
    }

    /** The file input's `onChange` and the tail of a drop. */
    method HandleImageSelect(file: Option<File>)
      modifies this
      ensures selectedImage == Select(old(selectedImage), file)
      ensures message == old(message) && dragging == old(dragging)
    {
      if file.Some? && StartsWith(file.value.mimeType, "image/") {
        selectedImage := Some(Attachment(file.value, file.value.dataUrl, file.value.mimeType));
      }
    }

    method HandleDragOver()
      modifies this
      ensures dragging && Current() == old(Current())
    {
      dragging := true;
    }

    method HandleDragLeave()
      modifies this
      ensures !dragging && Current() == old(Current())
    {
      dragging := false;
    }

    /** A drop ends the drag and offers its first file, whether or not the
        input is disabled. */
    method HandleDrop(files: seq<File>)
      modifies this
      ensures !dragging
      ensures selectedImage == Select(old(selectedImage), FirstFile(files))
      ensures message == old(message)
    {
      dragging := false;
      if |files| > 0 {
        HandleImageSelect(Some(files[0]));
      }
    }

    /** The preview's close button. */
    method RemoveImage()
      modifies this
      ensures selectedImage == None && message == old(message) && dragging == old(dragging)
    {
      selectedImage := None;
    }
  }
}
