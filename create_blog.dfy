/** The new-post editor (CreateBlog.jsx). */
module CreateBlog {
  import opened Effects
  import opened Text
  import opened Editor

  const CreatedMessage := "Blog created successfully!"

  const NewDraftCaption := "New Draft"

  class CreateBlogPage {
    var title: string
    var content: string
    var isSubmitting: bool
    var effects: seq<Effect>

    constructor ()
      ensures title == "" && content == "" && !isSubmitting && effects == []
    {
      title := "";
      content := "";
      isSubmitting := false;
      effects := [];
    }

    predicate PublishDisabled()
      reads this
    {
      SubmitDisabled(isSubmitting, title, content)
    }

    function Caption(): string
      reads this
    {
      StatusLabel(title, NewDraftCaption)
    }

    /** The title input's change handler. */
    method SetTitle(value: string)
      modifies this`title
      ensures title == value
    {
      title := value;
    }

    /** The content textarea's change handler. */
    method SetContent(value: string)
      modifies this`content
      ensures content == value
    {
      content := value;
    }

    /** `handleSubmit` up to the awaited `createBlog` call: the blank check,
        then `isSubmitting` is set and the trimmed payload is sent. */
    method HandleSubmit()
      modifies this`isSubmitting, this`effects
      ensures Validate(title, content).None? ==>
        isSubmitting == old(isSubmitting) && effects == old(effects) + [ToastError(BlankFieldsMessage)]
      ensures Validate(title, content).Some? ==>
        isSubmitting && effects == old(effects) + [CreateRequest(Validate(title, content).value)]
    {
      if IsBlank(title) || IsBlank(content) {
        effects := effects + [ToastError(BlankFieldsMessage)];
        return;
      }
      isSubmitting := true;
      effects := effects + [CreateRequest(Payload(Trim(title), Trim(content)))];
    }

    /** The rest of `handleSubmit` once `createBlog` has answered; `created`
        is whether its result was truthy. */
    method FinishSubmit(created: bool)
      requires isSubmitting
      modifies this`isSubmitting, this`effects
      ensures !isSubmitting
      ensures effects == old(effects) +
        if created then [ToastSuccess(CreatedMessage), Navigate("/dashboard", false)] else []
    {
      if created {
        effects := effects + [ToastSuccess(CreatedMessage), Navigate("/dashboard", false)];
      }
      isSubmitting := false;
    }
  }

  /** A fresh editor into which `title` and `content` have been typed. */
  method OpenEditor(title: string, content: string) returns (page: CreateBlogPage)
    ensures fresh(page)
    ensures page.title == title && page.content == content
    ensures !page.isSubmitting && page.effects == []
  {
    page := new CreateBlogPage();
    page.SetTitle(title);
    page.SetContent(content);
  }

  /** One submission from a fresh editor: `isSubmitting` is set exactly
      while a request is outstanding and cleared once it is answered,
      whatever the answer; a blank field sends nothing. */
  method SubmitScenario(title: string, content: string, created: bool)
    returns (trace: seq<Effect>, submittingWhileSent: bool, submittingAfter: bool)
    ensures !submittingAfter
    ensures submittingWhileSent <==> Validate(title, content).Some?
    ensures match Validate(title, content)
      case None => trace == [ToastError(BlankFieldsMessage)]
      case Some(p) => trace == [CreateRequest(p)] +
                       (if created then [ToastSuccess(CreatedMessage), Navigate("/dashboard", false)] else [])
  {
    var page := OpenEditor(title, content);
    ghost var v := Validate(title, content);
    page.HandleSubmit();
    assert page.title == title && page.content == content;
    submittingWhileSent := page.isSubmitting;
    if page.isSubmitting {
      ghost var sent := page.effects;
      assert sent == [CreateRequest(v.value)];
      page.FinishSubmit(created);
      assert page.effects == sent +
        (if created then [ToastSuccess(CreatedMessage), Navigate("/dashboard", false)] else []);
    }
    trace, submittingAfter := page.effects, page.isSubmitting;
  }
}
