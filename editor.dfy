/** The form rules the two post editors share: CreateBlog.jsx and
    EditBlog.jsx apply the same blank check, send the same trimmed payload
    and disable their submit button under the same condition. */
module Editor {
  import opened Effects
  import opened Text

  const BlankFieldsMessage := "Please fill in both title and content"

  /** `handleSubmit`'s gate and payload: no request when the title or the
      content is whitespace only, otherwise both fields trimmed. */
  function Validate(title: string, content: string): (r: Option<Payload>)
    ensures r.None? <==> AllSpace(title) || AllSpace(content)
    ensures r.Some? ==> r.value == Payload(Trim(title), Trim(content))
    ensures r.Some? ==> Filled(r.value.title) && Filled(r.value.content)
  {
    if IsBlank(title) || IsBlank(content) then None
    else Some(Payload(Trim(title), Trim(content)))
  }

  const UnsavedCaption := "Unsaved changes"

  /** The toolbar label, `title ? 'Unsaved changes' : emptyCaption`: it
      tests the raw title, not the trimmed one.  The new-post editor shows
      "New Draft" for an empty title, the post editor "Draft". */
  function StatusLabel(title: string, emptyCaption: string): (caption: string)
    ensures title != "" ==> caption == UnsavedCaption
    ensures title == "" ==> caption == emptyCaption
  {
    if title != "" then UnsavedCaption else emptyCaption
  }

  /** `disabled={isSubmitting || !title.trim() || !content.trim()}` */
  predicate SubmitDisabled(isSubmitting: bool, title: string, content: string) {
    isSubmitting || IsBlank(title) || IsBlank(content)
  }

  /** The button is enabled exactly when no request is outstanding and a
      click would send one. */
  lemma SubmitEnabledIff(isSubmitting: bool, title: string, content: string)
    ensures !SubmitDisabled(isSubmitting, title, content) <==>
      !isSubmitting && Validate(title, content).Some?
  {
  }

  /** Whenever the submit button is enabled the label reads "Unsaved
      changes"; a title of one space reads "Unsaved changes" with the
      button disabled. */
  lemma StatusLabelAndSubmit(isSubmitting: bool, title: string, content: string, emptyCaption: string)
    ensures !SubmitDisabled(isSubmitting, title, content) ==> StatusLabel(title, emptyCaption) == UnsavedCaption
    ensures title == " " ==>
      SubmitDisabled(isSubmitting, title, content) && StatusLabel(title, emptyCaption) == UnsavedCaption
  {
    if title == " " {
      assert AllSpace(title);
    }
  }

  /** Trimming leaves nothing to trim: the payload validates again to
      itself. */
  lemma {:induction false} ValidateIdempotent(title: string, content: string)
    requires Validate(title, content).Some?
    ensures var p := Validate(title, content).value;
      Validate(p.title, p.content) == Some(p)
  {
    var p := Validate(title, content).value;
    TrimOfTrimmed(p.title);
    TrimOfTrimmed(p.content);
  }

  lemma TrimOfTrimmed(t: string)
    requires Filled(t)
    ensures Trim(t) == t
  {
    assert TrimStart(t) == t;
    assert TrimEnd(t) == t;
  }
}
