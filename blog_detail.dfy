/** The post page (BlogDetail.jsx): how the post is found and who owns it,
    the owner's share toggle and delete, the copy-link action, the screen
    it shows, and the read-time estimate. */
module BlogDetail {
  import opened Effects
  import opened Text

  /** The session as the page reads it: `userName` is `user?.name`,
      `undefined` when there is no user or the user has no `name` key. */
  datatype Viewer = Viewer(isAuthenticated: bool, userName: JsName)

  /** The component state `loadBlog` leaves: `blog`, `isOwner`, `isShared`
      and `blogLoading`. */
  datatype Resolution = Resolution(blog: Option<Blog>, isOwner: bool, isShared: bool, loading: bool)

  /** What the page renders. */
  datatype View =
    | Spinner
    | NotFound
    | Article(title: string, readTime: nat, ownerControls: bool, copyLink: bool)

  /** The outcome of the share toggle: the new `isShared` and the effects. */
  datatype ShareStep = ShareStep(isShared: bool, effects: seq<Effect>)

  const WordsPerMinute: nat := 200

  /** `isAuthenticated && blogData.author === user?.name`.  Two missing
      names compare equal, as `undefined === undefined` does. */
  predicate Owns(viewer: Viewer, blog: Blog) {
    viewer.isAuthenticated && blog.author == viewer.userName
  }

  /** `blogData?.shared || false` */
  predicate SharedFlag(blog: Blog) {
    blog.shared == Some(true)
  }

  /** The requests `loadBlog` makes, in order. */
  function LoadRequests(id: string, publicResult: Option<Blog>, viewer: Viewer): (r: seq<Effect>)
    ensures 1 <= |r| <= 2 && r[0] == PublicFetch(id)
    ensures |r| == 2 <==> publicResult.None? && viewer.isAuthenticated
    ensures |r| == 2 ==> r[1] == OwnFetch(id)
  {
    [PublicFetch(id)] + if publicResult.None? && viewer.isAuthenticated then [OwnFetch(id)] else []
  }

  /** The state `loadBlog` settles on, given the results of the public and
      the authenticated fetch (a failed fetch is `None`) and the state it
      starts from.  The not-found path returns before `isOwner` and
      `isShared` are set, so they keep their earlier values. */
  function Resolve(publicResult: Option<Blog>, ownResult: Option<Blog>, viewer: Viewer,
                   wasOwner: bool, wasShared: bool): (r: Resolution)
    ensures r.blog.None? <==> publicResult.None? && (!viewer.isAuthenticated || ownResult.None?)
    ensures publicResult.Some? ==> r.blog == publicResult
    ensures publicResult.None? && r.blog.Some? ==> viewer.isAuthenticated && r.blog == ownResult
    ensures r.blog.Some? ==> (r.isOwner <==> Owns(viewer, r.blog.value))
    ensures r.blog.Some? ==> (r.isShared <==> SharedFlag(r.blog.value))
    ensures r.blog.None? ==> r.isOwner == wasOwner && r.isShared == wasShared
    ensures !r.loading
  {
    var found := if publicResult.Some? then publicResult
                 else if viewer.isAuthenticated then ownResult
                 else None;
    match found
    case None => Resolution(None, wasOwner, wasShared, false)
    case Some(b) => Resolution(found, Owns(viewer, b), SharedFlag(b), false)
  }

  /** `calculateReadTime`: whole minutes at 200 words per minute, rounded up,
      never less than one. */
  function ReadTime(content: string): (minutes: nat)
    ensures minutes >= 1
    ensures (minutes - 1) * WordsPerMinute < SplitWordCount(content) <= minutes * WordsPerMinute
  {
    var wordCount := SplitWordCount(content);
    var ceiling := (wordCount + WordsPerMinute - 1) / WordsPerMinute;
    Max(1, ceiling)
  }

  /** `Math.max` on naturals. */
  function Max(a: nat, b: nat): nat {
    if a < b then b else a
  }

  /** The estimate in terms of the words of the content: one minute per 200
      words, rounded up, and one minute for content with no words at all. */
  lemma ReadTimeCountsWords(content: string)
    ensures var words := CountWords(content, true);
      (words == 0 ==> ReadTime(content) == 1) &&
      (words > 0 ==> (ReadTime(content) - 1) * WordsPerMinute < words <= ReadTime(content) * WordsPerMinute)
    ensures AllSpace(content) ==> ReadTime(content) == 1
  {
    SplitWordCountIsWords(content);
    if AllSpace(content) {
      CountWordsAllSpace(content, true);
    }
  }

  function ShareUrl(origin: string, id: string): string {
    origin + "/blog/" + id
  }

  /** `copyToClipboard`: the write, then the toast for its outcome. */
  function CopyToClipboard(url: string, copied: bool): (r: seq<Effect>)
    ensures |r| == 2 && r[0] == WriteClipboard(url)
    ensures r[1].ToastSuccess? <==> copied
    ensures r[1] == if copied then ToastSuccess("Link copied to clipboard!") else ToastError("Failed to copy link")
  {
    [WriteClipboard(url),
     if copied then ToastSuccess("Link copied to clipboard!") else ToastError("Failed to copy link")]
  }

  /** `handleToggleShare`, given whether the sharing request succeeded and
      whether the clipboard write succeeded. */
  function ToggleShare(id: string, origin: string, isOwner: bool, isShared: bool,
                       updated: bool, copied: bool): (r: ShareStep)
    ensures !isOwner ==> r == ShareStep(isShared, [])
    ensures isOwner ==> |r.effects| >= 2 && r.effects[0] == SharingRequest(id, !isShared)
    ensures r.isShared == if isOwner && updated then !isShared else isShared
    ensures isOwner && !updated ==>
      r.effects == [SharingRequest(id, !isShared), ToastError("Failed to update share status")]
    ensures WriteClipboard(ShareUrl(origin, id)) in r.effects <==> isOwner && updated && !isShared
    ensures forall e :: e in r.effects && e.WriteClipboard? ==> e.text == ShareUrl(origin, id)
    ensures isOwner && updated ==>
      r.effects[1] == ToastSuccess(if isShared then "Blog unshared successfully!" else "Blog shared successfully!") &&
      r.effects[2..] == (if !isShared then CopyToClipboard(ShareUrl(origin, id), copied) else [])
  {
    if !isOwner then ShareStep(isShared, [])
    else
      var newShared := !isShared;
      var request := SharingRequest(id, newShared);
      if !updated then
        ShareStep(isShared, [request, ToastError("Failed to update share status")])
      else
        var toast := ToastSuccess(if newShared then "Blog shared successfully!" else "Blog unshared successfully!");
        var copy := if newShared then CopyToClipboard(ShareUrl(origin, id), copied) else [];
        ShareStep(newShared, [request, toast] + copy)
  }

  /** Two successful toggles by the owner restore the original status. */
  lemma ToggleTwiceRestores(id: string, origin: string, isShared: bool, c1: bool, c2: bool)
    ensures var once := ToggleShare(id, origin, true, isShared, true, c1);
      ToggleShare(id, origin, true, once.isShared, true, c2).isShared == isShared
  {
  }

  /** `handleDelete`, given whether the delete request succeeded. */
  function Delete(id: string, isOwner: bool, deleted: bool): (r: seq<Effect>)
    ensures !isOwner ==> r == []
    ensures isOwner ==> |r| >= 1 && r[0] == DeleteRequest(id)
    ensures Navigate("/", false) in r <==> isOwner && deleted
    ensures !deleted ==> |r| <= 1
    ensures isOwner && deleted ==>
      r == [DeleteRequest(id), ToastSuccess("Blog deleted successfully"), Navigate("/", false)]
    ensures isOwner && !deleted ==> r == [DeleteRequest(id)]
  {
    if !isOwner then []
    else [DeleteRequest(id)] + if deleted then [ToastSuccess("Blog deleted successfully"), Navigate("/", false)] else []
  }

  /** The screen for a given state: the spinner while loading, "Story Not
      Found" without a post, else the article with the owner's controls
      or, for a shared post seen by someone else, the copy-link button. */
  function ViewOf(blog: Option<Blog>, loading: bool, isOwner: bool, isShared: bool): (v: View)
    ensures v.Spinner? <==> loading
    ensures v.NotFound? <==> !loading && blog.None?
    ensures v.Article? ==> blog.Some? && v.title == blog.value.title
    ensures v.Article? ==> v.readTime == ReadTime(blog.value.content) && v.readTime >= 1
    ensures v.Article? ==> v.ownerControls == isOwner && v.copyLink == (!isOwner && isShared)
    ensures v.Article? ==> !(v.ownerControls && v.copyLink)
  {
    if loading then Spinner
    else match blog
      case None => NotFound
      case Some(b) => Article(b.title, ReadTime(b.content), isOwner, !isOwner && isShared)
  }

  /** A signed-out visitor never gets the owner's controls on a first load,
      and a post the public fetch does not return is "not found" to them. */
  lemma SignedOutViewer(publicResult: Option<Blog>, ownResult: Option<Blog>, userName: JsName)
    ensures var r := Resolve(publicResult, ownResult, Viewer(false, userName), false, false);
      !r.isOwner &&
      (publicResult.None? ==> ViewOf(r.blog, r.loading, r.isOwner, r.isShared) == NotFound) &&
      (publicResult.Some? ==> ViewOf(r.blog, r.loading, r.isOwner, r.isShared).Article? &&
                              !ViewOf(r.blog, r.loading, r.isOwner, r.isShared).ownerControls)
  {
  }

  /** On a first load (nothing set yet) ownership is exactly: the post was
      found and its author is the signed-in user's name. */
  lemma FirstLoadOwnership(publicResult: Option<Blog>, ownResult: Option<Blog>, viewer: Viewer)
    ensures var r := Resolve(publicResult, ownResult, viewer, false, false);
      r.isOwner <==> r.blog.Some? && viewer.isAuthenticated && r.blog.value.author == viewer.userName
  {
  }

  /** After a first load the article's controls follow the post and the
      viewer: the owner's controls exactly for the signed-in author, the
      copy-link button exactly for anyone else when the post is shared. */
  lemma LoadedViewControls(publicResult: Option<Blog>, ownResult: Option<Blog>, viewer: Viewer)
    ensures var r := Resolve(publicResult, ownResult, viewer, false, false);
      var v := ViewOf(r.blog, r.loading, r.isOwner, r.isShared);
      (v.Article? <==> r.blog.Some?) &&
      (v.Article? ==> (v.ownerControls <==> Owns(viewer, r.blog.value)) &&
                      (v.copyLink <==> !Owns(viewer, r.blog.value) && SharedFlag(r.blog.value)))
  {
  }

  /** Ownership compares display names, so a signed-in session whose user
      has no `name` key owns every post whose JSON has no `author` key;
      a post whose `author` is `null` it does not own. */
  lemma AbsentNamesGrantOwnership(title: string, content: string, shared: Option<bool>)
    ensures Owns(Viewer(true, Undefined), Blog(title, content, Undefined, shared))
    ensures !Owns(Viewer(true, Undefined), Blog(title, content, Null, shared))
  {
  }

  /** The page's component state and the effects it has produced. */
  class BlogDetailPage {
    const id: string      // the `:id` route parameter
    const origin: string  // window.location.origin
    var blog: Option<Blog>
    var blogLoading: bool
    var isOwner: bool
    var isShared: bool
    var deleteConfirm: bool
    var effects: seq<Effect>

    constructor (id: string, origin: string)
      ensures this.id == id && this.origin == origin
      ensures blog == None && blogLoading && !isOwner && !isShared && !deleteConfirm
      ensures effects == []
    {
      this.id := id;
      this.origin := origin;
      blog := None;
      blogLoading := true;
      isOwner := false;
      isShared := false;
      deleteConfirm := false;
      effects := [];
    }

    function CurrentView(): View
      reads this
    {
      ViewOf(blog, blogLoading, isOwner, isShared)
    }

    /** The load effect.  It runs only when `id` is set; the fetches that
        throw are modelled as empty results. */
    method LoadBlog(viewer: Viewer, publicResult: Option<Blog>, ownResult: Option<Blog>)
      modifies this
      ensures id == "" ==> unchanged(this)
      ensures id != "" ==>
        Resolution(blog, isOwner, isShared, blogLoading) ==
          Resolve(publicResult, ownResult, viewer, old(isOwner), old(isShared))
      ensures id != "" ==> effects == old(effects) + LoadRequests(id, publicResult, viewer)
      ensures deleteConfirm == old(deleteConfirm)
    {
      if id != "" {
        blogLoading := true;
        effects := effects + [PublicFetch(id)];
        var blogData := publicResult;
        if blogData.None? && viewer.isAuthenticated {
          effects := effects + [OwnFetch(id)];
          blogData := ownResult;
        }
        if blogData.None? {
          blog := None;
        } else {
          if Owns(viewer, blogData.value) {
            isOwner := true;
          } else {
            isOwner := false;
          }
          isShared := SharedFlag(blogData.value);
          blog := blogData;
        }
        blogLoading := false;
      }
    }

    /** The share button's handler. */
    method HandleToggleShare(updated: bool, copied: bool)
      modifies this`isShared, this`effects
      ensures var step := ToggleShare(id, origin, old(isOwner), old(isShared), updated, copied);
        isShared == step.isShared && effects == old(effects) + step.effects
    {
      if !isOwner {
        return;
      }
      var newSharedStatus := !isShared;
      var request := SharingRequest(id, newSharedStatus);
      if updated {
        isShared := newSharedStatus;
        var toast := ToastSuccess(if newSharedStatus then "Blog shared successfully!" else "Blog unshared successfully!");
        var copy := if newSharedStatus then CopyToClipboard(ShareUrl(origin, id), copied) else [];
        effects := effects + ([request, toast] + copy);
      } else {
        effects := effects + [request, ToastError("Failed to update share status")];
      }
    }

    /** The trash button opens the confirmation dialog. */
    method OpenDeleteConfirm()
      modifies this`deleteConfirm
      ensures deleteConfirm
    {
      deleteConfirm := true;
    }

    /** The dialog's Cancel button. */
    method CancelDelete()
      modifies this`deleteConfirm
      ensures !deleteConfirm
    {
      deleteConfirm := false;
    }

    /** The dialog's Delete button. */
    method HandleDelete(deleted: bool)
      modifies this`effects
      ensures effects == old(effects) + Delete(id, isOwner, deleted)
    {
      if !isOwner {
        return;
      }
      effects := effects + [DeleteRequest(id)];
      if deleted {
        effects := effects + [ToastSuccess("Blog deleted successfully"), Navigate("/", false)];
      }
    }

    /** The copy-link button shown to non-owners of a shared post copies
        the page's own address. */
    method CopyPageLink(href: string, copied: bool)
      modifies this`effects
      ensures effects == old(effects) + CopyToClipboard(href, copied)
    {
      effects := effects + CopyToClipboard(href, copied);
    }
  }
}
