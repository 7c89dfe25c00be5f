/** The post editor for an existing post (EditBlog.jsx). */
module EditBlog {
  import opened Effects
  import opened Text
  import opened Editor

  const UpdatedMessage := "Blog updated successfully!"
  const NotFoundMessage := "Blog not found"

  const DraftCaption := "Draft"

  class EditBlogPage {
    const id: string  // the `:id` route parameter
    var title: string
    var content: string
    var isSubmitting: bool
    var isLoading: bool
    var effects: seq<Effect>

    constructor (id: string)
      ensures this.id == id
      ensures title == "" && content == "" && !isSubmitting && isLoading && effects == []
    {
      this.id := id;
      title := "";
      content := "";
      isSubmitting := false;
      isLoading := true;
      effects := [];
    }

    predicate UpdateDisabled()
      reads this
    {
      SubmitDisabled(isSubmitting, title, content)
    }

    function Caption(): string
      reads this
    {
      StatusLabel(title, DraftCaption)
    }

    /** The load effect, run when `id` is set: fetch the post, fill the
        fields from it, or report it missing and go to the dashboard. */
    method LoadBlog(found: Option<Blog>)
      modifies this`title, this`content, this`isLoading, this`effects
      ensures id == "" ==> unchanged(this)
      ensures id != "" ==> !isLoading
      ensures id != "" && found.Some? ==>
        title == found.value.title && content == found.value.content &&
        effects == old(effects) + [OwnFetch(id)]
      ensures id != "" && found.None? ==>
        title == old(title) && content == old(content) &&
        effects == old(effects) + [OwnFetch(id), ToastError(NotFoundMessage), Navigate("/dashboard", false)]
    {
      if id != "" {
        isLoading := true;
        effects := effects + [OwnFetch(id)];
        if found.Some? {
          title := found.value.title;
          content := found.value.content;
        } else {
          effects := effects + [ToastError(NotFoundMessage), Navigate("/dashboard", false)];
        }
        isLoading := false;
      }
    }

    /** The title input's change handler. */
    method SetTitle(value: string)
      modifies this`title
      ensures title == value
    {
      title := value;
    }

    /** The content textarea's change handler. */
    method SetContent(value: string)
      modifies this`content
      ensures content == value
    {
      content := value;
    }

    /** `handleSubmit` up to the awaited `updateBlog` call. */
    method HandleSubmit()
      modifies this`isSubmitting, this`effects
      ensures Validate(title, content).None? ==>
        isSubmitting == old(isSubmitting) && effects == old(effects) + [ToastError(BlankFieldsMessage)]
      ensures Validate(title, content).Some? ==>
        isSubmitting && effects == old(effects) + [UpdateRequest(id, Validate(title, content).value)]
    {
      if IsBlank(title) || IsBlank(content) {
        effects := effects + [ToastError(BlankFieldsMessage)];
        return;
      }
      isSubmitting := true;
      effects := effects + [UpdateRequest(id, Payload(Trim(title), Trim(content)))];
    }

    /** The rest of `handleSubmit` once `updateBlog` has answered; `updated`
        is whether its result was truthy. */
    method FinishSubmit(updated: bool)
      requires isSubmitting
      modifies this`isSubmitting, this`effects
      ensures !isSubmitting
      ensures effects == old(effects) +
        if updated then [ToastSuccess(UpdatedMessage), Navigate("/dashboard", false)] else []
    {
      if updated {
        effects := effects + [ToastSuccess(UpdatedMessage), Navigate("/dashboard", false)];
      }
      isSubmitting := false;
    }
  }

  /** An editor opened on `id` whose post was fetched. */
  method OpenPost(id: string, post: Blog) returns (page: EditBlogPage)
    requires id != ""
    ensures fresh(page) && page.id == id
    ensures page.title == post.title && page.content == post.content
    ensures !page.isLoading && !page.isSubmitting && page.effects == [OwnFetch(id)]
  {
    page := new EditBlogPage(id);
    page.LoadBlog(Some(post));
  }

  /** Opening a post for editing and saving it unchanged: the fields are
      filled from the post and the update carries the route id and the
      post's trimmed text. */
  method EditScenario(id: string, post: Blog, updated: bool)
    returns (trace: seq<Effect>, loading: bool, submittingAfter: bool)
    requires id != ""
    ensures !loading  // once the post is in, the spinner is gone
    ensures !submittingAfter
    ensures match Validate(post.title, post.content)
      case None => trace == [OwnFetch(id)] + [ToastError(BlankFieldsMessage)]
      case Some(p) => trace == [OwnFetch(id)] + [UpdateRequest(id, p)] +
                       (if updated then [ToastSuccess(UpdatedMessage), Navigate("/dashboard", false)] else [])
  {
    var page := OpenPost(id, post);
    loading := page.isLoading;
    ghost var v := Validate(post.title, post.content);
    page.HandleSubmit();
    assert page.title == post.title && page.content == post.content;
    if page.isSubmitting {
      ghost var sent := page.effects;
      assert sent == [OwnFetch(id)] + [UpdateRequest(id, v.value)];
      page.FinishSubmit(updated);
      assert page.effects == sent +
        (if updated then [ToastSuccess(UpdatedMessage), Navigate("/dashboard", false)] else []);
    }
    trace, submittingAfter := page.effects, page.isSubmitting;
  }

  /** Opening a post that cannot be fetched: an error toast and a move to
      the dashboard, and the spinner is gone. */
  method MissingPostScenario(id: string)
    returns (trace: seq<Effect>, loading: bool)
    requires id != ""
    ensures !loading
    ensures trace == [OwnFetch(id), ToastError(NotFoundMessage), Navigate("/dashboard", false)]
  {
    var page := new EditBlogPage(id);
    page.LoadBlog(None);
    trace, loading := page.effects, page.isLoading;
  }
}
