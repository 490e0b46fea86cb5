/** The new-post dialog: a two-step machine (pick an image, then write the
    caption and location), the trimming of what it sends, and the reset on
    close. */
module CreatePostDialog {
  import opened Wrappers
  import opened Text
  import opened Store
  import opened FeedPosts

  /** The `maxLength` of the caption box. */
  const CaptionLimit: nat := 2200

  datatype Step = SelectStep | EditStep

  /** `text.trim() || undefined`: the trimmed text, or nothing when it is blank. */
  function TrimmedOrAbsent(text: string): (r: Option<string>)
    ensures r.None? <==> AllSpace(text)
    ensures r.Some? ==> r.value == Trim(text)
    ensures r.Some? ==> r.value != [] && Trim(r.value) == r.value && |r.value| <= |text|
  {
    var t := Trim(text);
    if t == [] then None else Some(t)
  }

  /** What a share sends for the selected file and the two fields. */
  function ShareRequest(file: File, caption: string, location: string): (r: CreatePostRequest)
    ensures r.imageFile == file
    ensures r.caption == TrimmedOrAbsent(caption) && r.location == TrimmedOrAbsent(location)
  {
    CreatePostRequest(file, TrimmedOrAbsent(caption), TrimmedOrAbsent(location))
  }

  /** Sending fields that were already trimmed sends them unchanged. */
  lemma TrimmedFieldsAreStable(text: string)
    ensures TrimmedOrAbsent(text).Some? ==> TrimmedOrAbsent(TrimmedOrAbsent(text).value) == TrimmedOrAbsent(text)
  {
  }

  /** The test that the MIME type starts with "image/". */
  predicate IsImage(file: File) {
    StartsWith(file.mimeType, "image/")
  }

  class CreatePostModal {
    var step: Step
    var selectedFile: Option<File>
    var preview: string
    var caption: string
    var location: string

    /** The edit step is shown exactly when a file is held, the held file
        is an image, and the caption fits the box. */
    ghost predicate Valid()
      reads this
    {
      && (step == EditStep <==> selectedFile.Some?)
      && (selectedFile.Some? ==> IsImage(selectedFile.value))
      && |caption| <= CaptionLimit
    }

    predicate IsReset()
      reads this
    {
      step == SelectStep && selectedFile.None? && preview == [] && caption == [] && location == []
    }

    constructor ()
      ensures Valid() && IsReset()
    {
      step, selectedFile, preview, caption, location := SelectStep, None, [], [], [];
    }

    /** `handleFileSelect`: no file does nothing; a file that is not an
        image is refused with a toast and changes nothing; an image is held,
        previewed through `objectUrl`, and moves the dialog to the edit step. */
    method HandleFileSelect(file: Option<File>, objectUrl: string) returns (refused: bool)
      requires Valid()
      modifies this
      ensures Valid()
      ensures refused <==> file.Some? && !IsImage(file.value)
      ensures file.None? || refused ==>
                step == old(step) && selectedFile == old(selectedFile) && preview == old(preview)
      ensures file.Some? && !refused ==> step == EditStep && selectedFile == file && preview == objectUrl
      ensures caption == old(caption) && location == old(location)
    {
      refused := false;
      if file.Some? {
        if !IsImage(file.value) {
          return true;
        }
        selectedFile := file;
        preview := objectUrl;
        step := EditStep;
      }
    }

    /** Typing in the caption box, which holds at most 2200 characters. */
    method SetCaption(typed: string)
      requires Valid()
      modifies this
      ensures Valid()
      ensures caption == typed[..Min(|typed|, CaptionLimit)]
      ensures step == old(step) && selectedFile == old(selectedFile) && preview == old(preview)
      ensures location == old(location)
    {
      caption := typed[..Min(|typed|, CaptionLimit)];
    }

    method SetLocation(typed: string)
      requires Valid()
      modifies this
      ensures Valid()
      ensures location == typed
      ensures step == old(step) && selectedFile == old(selectedFile) && preview == old(preview)
      ensures caption == old(caption)
    {
      location := typed;
    }

    /** `handleClose`: back to the first step with everything cleared. */
    method HandleClose()
      requires Valid()
      modifies this
      ensures Valid() && IsReset()
    {
      step, selectedFile, preview, caption, location := SelectStep, None, [], [], [];
    }

    /** `handleShare`: without a file nothing happens; otherwise the post
        is sent as the file and the trimmed fields, and the awaited outcome
        decides the rest: a success closes and resets the dialog, a failure
        keeps what was entered. */
    method HandleShare(shared: bool) returns (sent: Option<CreatePostRequest>)
      requires Valid()
      modifies this
      ensures Valid()
      ensures old(selectedFile).None? ==> sent.None?
      ensures old(selectedFile).Some? ==> sent == Some(ShareRequest(old(selectedFile).value, old(caption), old(location)))
      ensures sent.Some? && shared ==> IsReset()
      ensures sent.None? || !shared ==>
                && step == old(step) && selectedFile == old(selectedFile) && preview == old(preview)
                && caption == old(caption) && location == old(location)
    {
      if selectedFile.None? {
        return None;
      }
      sent := Some(ShareRequest(selectedFile.value, caption, location));
      if shared {
        HandleClose();
      }
    }
  }
}
