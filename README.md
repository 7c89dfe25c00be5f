# Vital Logs front end: a Dafny model of its page logic

Vital Logs is a small blogging front end written in React. This project models the decision logic inside five of its components and proves what that logic promises:

- **BlogDetail**: finding a post, by a public fetch and then an authenticated fetch. It also covers the owner and shared flags, the owner-only share toggle and delete, copying a link, the screen shown, and the read-time estimate.
- **AuthSuccess**: the OAuth landing page. Its two effects form a state machine over the `error` and `token` query parameters, the session flags and `loginAttempted`. They write the token to storage and to the `Authorization` header, call `login` at most once, and redirect.
- **CreateBlog** and **EditBlog**: the blank-after-trim check, the trimmed payload, the `isSubmitting` bracket around the request, the submit-button rule and the status label. EditBlog also has its load step.
- **App**: the route table with its protected routes and catch-all redirect, the loading gate, and the full-width layout rule.

## How the model is built

Each page is a class. Its fields are the component's React state plus `effects`, the ordered log of what the page does to the outside world:

- requests to the API;
- toasts;
- navigations, immediate or delayed;
- clipboard writes.

The answer to each API call is a method parameter, for example the post a fetch returns (`None` when it fails) or whether an update succeeded. A submit handler is modelled in two steps around its `await`:

- `HandleSubmit` issues the request;
- `FinishSubmit` handles the answer.

This makes the `isSubmitting` bracket observable. Each method ensures that its new state equals a pure specification function of the old state, and the properties are proved about those functions.

JavaScript details are written out:

- `trim()` and `split(/\s+/)` work over ECMAScript whitespace (module `Text`).
- Query parameters are truthy when present and non-empty: `?token=` is falsy.
- Names are `undefined`, `null` or a string, and `blog.author === user?.name` is equality on these three kinds: two missing names are equal, `null` and `undefined` are not.
- `Math.ceil(n / 200)` is `(n + 199) / 200` on naturals.

Routing follows React Router's matching:

- the pathname is split on `/`;
- trailing empty segments are ignored;
- `:id` matches any non-empty segment.

The routes are pairwise disjoint (`Routing.RoutesDisjoint`), so taking the first match in source order gives the route the router's ranking picks.

## Model

| member | source | states |
|---|---|---|
| Text.TrimStart | frontend/src/pages/BlogDetail.jsx:106 | the result is a suffix of the input; everything removed is whitespace; the result does not start with whitespace |
| Text.TrimEnd | frontend/src/pages/BlogDetail.jsx:106 | the result is a prefix of the input; everything removed is whitespace; the result does not end with whitespace |
| Text.IsBlank | frontend/src/pages/CreateBlog.jsx:17 | `!s.trim()`: the trimmed text is empty, which by `Trim`'s contract holds exactly when the text is whitespace only |
| Text.Trim | frontend/src/pages/CreateBlog.jsx:17 | `trim()` is empty exactly when the input is whitespace only; otherwise it starts and ends with a non-whitespace character |
| Text.TrimSplits | frontend/src/pages/CreateBlog.jsx:23-24 | the input is leading whitespace, then its trim, then trailing whitespace |
| Text.FirstSpace | frontend/src/pages/BlogDetail.jsx:106 | the index of the first whitespace character (or the length); everything before it is non-whitespace |
| Text.SplitOnSpaceRuns | frontend/src/pages/BlogDetail.jsx:106 | `split(/\s+/)` yields at least one piece, and no piece holds whitespace |
| Text.SplitCountsWords | frontend/src/pages/BlogDetail.jsx:106 | on text with no whitespace at either end, the split has exactly one piece per word |
| Text.CountWordsOfTrim | frontend/src/pages/BlogDetail.jsx:106 | trimming does not change the number of words |
| Text.SplitWordCountIsWords | frontend/src/pages/BlogDetail.jsx:106 | `trim().split(/\s+/).length` is the number of words, except that text with no words gives 1 |
| Editor.Validate | frontend/src/pages/CreateBlog.jsx:17-25 | no request exactly when the title or the content is whitespace only; otherwise the payload is both fields trimmed, each non-empty with no whitespace at either end (EditBlog.jsx:38-46 is the same) |
| Editor.SubmitDisabled | frontend/src/pages/CreateBlog.jsx:53 | disabled while submitting or when either field is blank (EditBlog.jsx:82 is the same); `SubmitEnabledIff` ties it to `Validate` |
| Editor.SubmitEnabledIff | frontend/src/pages/CreateBlog.jsx:53 | Publish/Update is enabled exactly when nothing is submitting and a click would send a request (EditBlog.jsx:82 is the same) |
| Editor.ValidateIdempotent | frontend/src/pages/CreateBlog.jsx:22-25 | the payload sent validates again to itself: trimming leaves nothing more to trim |
| Editor.TrimOfTrimmed | frontend/src/pages/CreateBlog.jsx:23-24 | text with no whitespace at either end is its own trim |
| Editor.StatusLabel | frontend/src/pages/CreateBlog.jsx:49 | "Unsaved changes" when the raw title is non-empty, otherwise the editor's empty-title caption: "New Draft" here, "Draft" in EditBlog.jsx:78 |
| Editor.StatusLabelAndSubmit | frontend/src/pages/CreateBlog.jsx:49-53 | an enabled submit button implies "Unsaved changes"; a title of one space shows "Unsaved changes" with the button disabled (EditBlog.jsx:78-82 is the same) |
| CreateBlog.CreateBlogPage.constructor | frontend/src/pages/CreateBlog.jsx:9-11 | empty title and content, not submitting, nothing done yet |
| CreateBlog.CreateBlogPage.SetTitle | frontend/src/pages/CreateBlog.jsx:68 | the title input sets `title` |
| CreateBlog.CreateBlogPage.SetContent | frontend/src/pages/CreateBlog.jsx:74 | the content textarea sets `content` |
| CreateBlog.CreateBlogPage.HandleSubmit | frontend/src/pages/CreateBlog.jsx:15-25 | a blank field adds only the error toast and leaves `isSubmitting` alone; otherwise `isSubmitting` is set and the create request carries the trimmed fields |
| CreateBlog.CreateBlogPage.FinishSubmit | frontend/src/pages/CreateBlog.jsx:26-30 | a truthy answer adds the success toast and the move to /dashboard, a falsy one adds nothing; `isSubmitting` is cleared either way |
| CreateBlog.OpenEditor | frontend/src/pages/CreateBlog.jsx:65-77 | a new editor with the typed title and content and nothing done yet |
| CreateBlog.SubmitScenario | frontend/src/pages/CreateBlog.jsx:15-31 | from a new editor, `isSubmitting` is set while the request is out exactly when one is sent, and is cleared afterwards; the whole effect trace for each outcome |
| EditBlog.EditBlogPage.constructor | frontend/src/pages/EditBlog.jsx:9-12 | empty fields, not submitting, loading, nothing done yet |
| EditBlog.EditBlogPage.LoadBlog | frontend/src/pages/EditBlog.jsx:17-34 | without an id nothing changes; otherwise the post is fetched and either fills title and content, or adds "Blog not found" and the move to /dashboard leaving the fields alone; `isLoading` ends false on both paths |
| EditBlog.EditBlogPage.SetTitle | frontend/src/pages/EditBlog.jsx:97 | the title input sets `title` |
| EditBlog.EditBlogPage.SetContent | frontend/src/pages/EditBlog.jsx:103 | the content textarea sets `content` |
| EditBlog.EditBlogPage.HandleSubmit | frontend/src/pages/EditBlog.jsx:36-46 | a blank field adds only the error toast; otherwise `isSubmitting` is set and the update carries the route id and the trimmed fields |
| EditBlog.EditBlogPage.FinishSubmit | frontend/src/pages/EditBlog.jsx:47-51 | a truthy answer adds the success toast and the move to /dashboard; `isSubmitting` is cleared either way |
| EditBlog.OpenPost | frontend/src/pages/EditBlog.jsx:17-33 | an editor whose post was fetched shows the post's title and content and is no longer loading |
| EditBlog.EditScenario | frontend/src/pages/EditBlog.jsx:17-52 | loading a post and saving it sends one fetch and then an update with the route id and the post's trimmed text; the spinner is gone and `isSubmitting` ends cleared |
| EditBlog.MissingPostScenario | frontend/src/pages/EditBlog.jsx:20-28 | a post that cannot be fetched gives the fetch, "Blog not found" and the move to /dashboard, and loading ends |
| BlogDetail.LoadRequests | frontend/src/pages/BlogDetail.jsx:26-38 | the public fetch always comes first; the authenticated fetch follows exactly when the public one gave nothing and the viewer is signed in |
| BlogDetail.Resolve | frontend/src/pages/BlogDetail.jsx:20-57 | not found exactly when the public fetch gave nothing and either the viewer is signed out or the authenticated fetch also gave nothing; a found post makes `isOwner` the author-name match of a signed-in viewer and `isShared` its `shared` flag (false if absent); not found keeps the earlier flags; loading ends on every path |
| BlogDetail.Owns | frontend/src/pages/BlogDetail.jsx:45 | signed in and the post's author `===` the user's name; `FirstLoadOwnership` and `AbsentNamesGrantOwnership` characterize it |
| BlogDetail.SharedFlag | frontend/src/pages/BlogDetail.jsx:51 | `shared` is present and true, so a missing flag reads as false; `Resolve` and `LoadedViewControls` use it for the copy-link button |
| BlogDetail.FirstLoadOwnership | frontend/src/pages/BlogDetail.jsx:45-49 | on a first load, `isOwner` holds exactly when a post was found, the viewer is signed in and the author equals the user's name |
| BlogDetail.SignedOutViewer | frontend/src/pages/BlogDetail.jsx:32-49 | a signed-out viewer never owns the post, gets "not found" when the public fetch fails, and otherwise sees the article without owner controls |
| BlogDetail.AbsentNamesGrantOwnership | frontend/src/pages/BlogDetail.jsx:45 | a signed-in session whose user has no `name` key owns every post whose JSON has no `author` key (`undefined === undefined`), but not a post whose `author` is `null` |
| BlogDetail.ReadTime | frontend/src/pages/BlogDetail.jsx:104-108 | at least one minute, and the least number of 200-word minutes covering the split count |
| BlogDetail.ReadTimeCountsWords | frontend/src/pages/BlogDetail.jsx:104-108 | the estimate is ceil(words / 200) for content with words, and 1 for content with none, including whitespace-only content |
| BlogDetail.CopyToClipboard | frontend/src/pages/BlogDetail.jsx:90-94 | the clipboard write, then "Link copied to clipboard!" as a success toast when it succeeded and "Failed to copy link" as an error toast when it failed |
| BlogDetail.ToggleShare | frontend/src/pages/BlogDetail.jsx:74-88 | a non-owner changes nothing and sends nothing; the owner sends the flipped status; success flips `isShared` and shows "Blog shared successfully!" or "Blog unshared successfully!" for the new status, followed by the copy of the share link `origin/blog/id` exactly when the post becomes shared; failure keeps `isShared` and shows the error toast |
| BlogDetail.ToggleTwiceRestores | frontend/src/pages/BlogDetail.jsx:76-79 | two successful toggles by the owner restore the original status |
| BlogDetail.Delete | frontend/src/pages/BlogDetail.jsx:65-72 | a non-owner sends nothing; the owner sends the delete, then on success exactly the toast "Blog deleted successfully" and the move to /, and nothing more on failure |
| BlogDetail.ViewOf | frontend/src/pages/BlogDetail.jsx:110-198 | the spinner exactly while loading, "Story Not Found" exactly when loading is done without a post, otherwise the article with the post's title and `ReadTime` of its content; the owner's controls exactly when `isOwner`, the copy-link button exactly when not owner and shared, never both |
| BlogDetail.LoadedViewControls | frontend/src/pages/BlogDetail.jsx:45-51 | after a first load the article shows exactly when a post was found; its owner controls show exactly for the signed-in author, and the copy-link button exactly for anyone else on a shared post |
| BlogDetail.BlogDetailPage.constructor | frontend/src/pages/BlogDetail.jsx:14-18 | no post, loading, not owner, not shared, dialog closed |
| BlogDetail.BlogDetailPage.LoadBlog | frontend/src/pages/BlogDetail.jsx:20-63 | without an id nothing changes; otherwise the state becomes `Resolve` of the fetch results and the requests are appended in order |
| BlogDetail.BlogDetailPage.HandleToggleShare | frontend/src/pages/BlogDetail.jsx:74-88 | the new `isShared` and the effects are those of `ToggleShare` |
| BlogDetail.BlogDetailPage.OpenDeleteConfirm | frontend/src/pages/BlogDetail.jsx:170 | the trash button opens the confirmation dialog |
| BlogDetail.BlogDetailPage.CancelDelete | frontend/src/pages/BlogDetail.jsx:237 | Cancel closes the dialog |
| BlogDetail.BlogDetailPage.HandleDelete | frontend/src/pages/BlogDetail.jsx:65-72 | the effects are those of `Delete` for the current owner flag |
| BlogDetail.BlogDetailPage.CopyPageLink | frontend/src/pages/BlogDetail.jsx:178-180 | the copy-link button copies the page's address with its toast |
| AuthSuccess.Decide | frontend/src/pages/AuthSuccess.jsx:16-55 | an error gives the delayed return to login; otherwise no token gives the immediate return; a signed-in session gives the dashboard; `login` is attempted exactly when there is a token, no session, no earlier attempt and no loading, and it uses that token |
| AuthSuccess.StoresTokenIff | frontend/src/pages/AuthSuccess.jsx:26-41 | the token is stored exactly when there is no error and there is a token, so it is stored before any dashboard redirect or login attempt |
| AuthSuccess.StepEffects | frontend/src/pages/AuthSuccess.jsx:18-54 | each run does at most one thing, and does nothing exactly in the waiting case |
| AuthSuccess.Truthy | frontend/src/pages/AuthSuccess.jsx:18-26 | a query parameter is truthy when present and non-empty, so absent and `?token=` are both falsy; `Decide`, `StoresTokenIff` and `ScreenOf` branch on it |
| AuthSuccess.ScreenOf | frontend/src/pages/AuthSuccess.jsx:65-92 | the failure panel showing the error exactly when an error is set, otherwise the "Signing you in" spinner |
| AuthSuccess.AuthSuccessPage.constructor | frontend/src/pages/AuthSuccess.jsx:12-14 | the token and error come from the query; no login attempted; storage and headers as found |
| AuthSuccess.AuthSuccessPage.RunAuthEffect | frontend/src/pages/AuthSuccess.jsx:16-55 | appends the effect `Decide` picks; sets `loginAttempted` exactly on an attempt; writes `token` to storage and `Bearer <token>` to the header exactly on the paths past the early returns; keeps `login` called at most once |
| AuthSuccess.RedirectStep | frontend/src/pages/AuthSuccess.jsx:58-63 | the second effect navigates to /dashboard with replace exactly when signed in and not loading, and does nothing else |
| AuthSuccess.GuardedRedirectStep | frontend/src/pages/AuthSuccess.jsx:58-63 | the second effect with an error guard: nothing while an error is shown, otherwise exactly `RedirectStep` |
| AuthSuccess.AuthSuccessPage.RunRedirectEffect | frontend/src/pages/AuthSuccess.jsx:58-63 | appends `RedirectStep`: /dashboard with replace exactly when signed in and not loading, even with an error shown |
| AuthSuccess.AuthSuccessPage.RunGuardedRedirectEffect | frontend/src/pages/AuthSuccess.jsx:58-63 | appends `GuardedRedirectStep`, keeping the page invariant |
| AuthSuccess.AuthSuccessPage.LoginRejected | frontend/src/pages/AuthSuccess.jsx:50-53 | a rejected `login` sets the error "Authentication failed. Please try again." |
| AuthSuccess.ErrorParameterScenario | frontend/src/pages/AuthSuccess.jsx:18-63 | mounting with an error parameter runs both effects: the return to /login is scheduled for 3000 ms, nothing is stored, no `login` is made and the failure panel shows the error; a session already in and not loading is also sent to /dashboard at once |
| AuthSuccess.GuardedErrorParameterScenario | frontend/src/pages/AuthSuccess.jsx:18-23 | with the guarded second effect, an error parameter gives only the return to /login after 3000 ms, whatever the session |
| AuthSuccess.MountWithToken | frontend/src/pages/AuthSuccess.jsx:32-46 | the first run with a token and no session stores the token and calls `login` once |
| AuthSuccess.LoginSucceedsScenario | frontend/src/pages/AuthSuccess.jsx:44-63 | a token and no session: the token is stored, `login` is called once and not again while the session loads, and the page ends on /dashboard |
| AuthSuccess.LoginFailsScenario | frontend/src/pages/AuthSuccess.jsx:18-53 | a rejected `login` leads to the failure panel and the delayed return to /login, with no second attempt |
| AuthSuccess.AlreadySignedInScenario | frontend/src/pages/AuthSuccess.jsx:37-63 | already signed in: straight to /dashboard and no `login` call |
| Routing.SplitOnSlash | frontend/src/App.jsx:42-82 | splitting a pathname on '/' gives at least one part and no part holds a '/' |
| Routing.SplitJoin | frontend/src/App.jsx:42-82 | splitting on '/' undoes joining with '/' when no part holds a '/' |
| Routing.JoinSplit | frontend/src/App.jsx:42-82 | joining with '/' undoes splitting on '/' |
| Routing.DropTrailingEmpty | frontend/src/App.jsx:42-82 | trailing slashes are ignored: the segments are a prefix, they do not end with an empty segment, and only empty segments were dropped |
| Routing.ParamOf | frontend/src/App.jsx:65 | a pattern binds `:id` exactly when it has one, to the segment at its place |
| Routing.FirstMatch | frontend/src/App.jsx:42-82 | the chosen route matches and no earlier one does; no result means no route matches |
| Routing.Resolve | frontend/src/App.jsx:42-82 | a path no route matches redirects to / with replace, and only such a path does; otherwise a route's page is rendered with its protection flag, and `ResolveRendersMatch` says which route |
| Routing.ResolveRendersMatch | frontend/src/App.jsx:42-82 | a path whose segments match route k renders route k's page with its guard flag and `:id` bound to the segment at the parameter's place; the routes are disjoint, so no other route can win |
| Routing.IsFullPageRoute | frontend/src/App.jsx:25 | full width exactly for "/", "/login", "/dashboard", "/create", "/profile" and any path starting "/blog/"; `LayoutOfCanonicalPath` and `TrailingSlashPadsLogin` characterize it on real routes |
| Routing.Layout | frontend/src/App.jsx:25-41 | while the session loads only the spinner shows and no route is chosen; afterwards the main area is full-width exactly for the full-page paths |
| Routing.ProtectedPages | frontend/src/App.jsx:43-80 | a rendered page is behind the guard exactly when it is Dashboard, CreateBlog, EditBlog, BlogDetail or Profile |
| Routing.RoutesDisjoint | frontend/src/App.jsx:43-80 | no segment list matches two routes |
| Routing.CanonicalPathSegments | frontend/src/App.jsx:43-80 | the canonical path of a pattern splits back into its segments, and the pattern matches them |
| Routing.RouteRoundTrip | frontend/src/App.jsx:43-80 | every route is reached by its own canonical path for every single-segment `:id`, and binds `:id` to it |
| Routing.LayoutOfCanonicalPath | frontend/src/App.jsx:25 | on the canonical paths, only About, Privacy and AuthSuccess get the padded layout |
| Routing.BlogPagesAreProtected | frontend/src/App.jsx:64-79 | `/blog/<id>/edit` renders EditBlog and `/blog/<id>` renders BlogDetail with that id, both behind the guard |
| Routing.BlogWithoutIdRedirects | frontend/src/App.jsx:25 | `/blog` and `/blog/` hit the catch-all redirect, yet `/blog/` is laid out full-width |
| Routing.SegmentsIgnoreTrailingSlash | frontend/src/App.jsx:42-82 | a trailing '/' leaves the segments of a canonical path unchanged |
| Routing.TrailingSlashSameRoute | frontend/src/App.jsx:42-82 | every non-root route is still chosen, with the same `:id`, when its canonical path ends in '/' |
| Routing.TrailingSlashPadsLogin | frontend/src/App.jsx:25 | `/login/` renders Login like `/login`, but gets the padded layout where `/login` is full-width |

## Left out

- Network calls (the fetches, create, update, delete, the sharing toggle and `login`): their implementations are not part of this model. Each answer is a parameter, and a request is recorded as an effect.
- Toasts, navigation, clipboard writes and the 3-second `setTimeout`: these are recorded as effects, not performed. The timer's `clearTimeout` cleanup (AuthSuccess.jsx:22) is not modelled. That cleanup runs when the effect runs again or the page is left.
- AuthSuccess.ErrorParameterScenario: the scheduled return to /login is recorded even when the dashboard redirect follows. Leaving the page then cancels it, so that visitor ends on /dashboard.
- React's scheduling of effects, async interleaving between an `await` and later events, and unmounting: each handler or effect body is one atomic step, or two around a submit's `await`.
- `formatDate`: it depends on JavaScript `Date` and locale formatting.
- JSX markup, styling, icons, `Home.jsx`, `Navbar.jsx`, `LoadingSpinner.jsx`, `Login.jsx`: presentation with no decision logic worth stating.
- `ProtectedRoute`: its code is not part of this model. `/blog/:id` is wrapped in it (`Routing.BlogPagesAreProtected`), so BlogDetail's signed-out read path (`BlogDetail.SignedOutViewer`) is reachable only if the guard lets signed-out visitors through. The model assumes neither.
- BlogDetail.Resolve: when no post is found, `isOwner` and `isShared` keep their earlier values, because the code returns before setting them. This follows the code, not the reading "otherwise false".
- BlogDetail.BlogDetailPage.LoadBlog: a fetch that throws is modelled as an empty result, as the inner `catch` blocks make it. The outer `catch` (lines 53-54) cannot be reached once both fetches are guarded.
- BlogDetail.Owns: `blog.author` is `undefined`, `null` or a display name. The object form that the avatar markup tolerates (`blog.author?.picture`) is not modelled.
- EditBlog.EditBlogPage.LoadBlog: a `fetchBlog` that throws is not modelled. The code does not catch it, so the page would stay on the spinner.
- CreateBlog.CreateBlogPage.FinishSubmit: the answer is a settled value, truthy or not. A `createBlog` that rejects is not modelled. `handleSubmit` has no `try`/`finally` (CreateBlog.jsx:21-30), so after a rejection `isSubmitting` would stay true and Publish would stay disabled.
- EditBlog.EditBlogPage.FinishSubmit: likewise, an `updateBlog` that rejects is not modelled. The code would leave `isSubmitting` true and Update disabled (EditBlog.jsx:42-51).
- BlogDetail.ToggleShare: `updated` is the settled answer of `toggleBlogSharing`. A rejection is not modelled. It would show no "Failed to update share status" toast, which the model shows for a falsy answer.
- BlogDetail.Delete: a `deleteBlog` that rejects is not modelled. It would add nothing after the request, the same trace as a falsy answer.
- CreateBlog.CreateBlogPage.FinishSubmit and EditBlog.EditBlogPage.FinishSubmit require a request to be outstanding. A second submit while one is out is not modelled, since the disabled button prevents it.
- Routing.Resolve: React Router matches paths case-insensitively and percent-decodes them. The model matches segments exactly as written.
- Routing.Resolve: React Router ranks routes by specificity rather than order. The model takes the first match, which gives the same choice because the routes are disjoint (`Routing.RoutesDisjoint`).
- Routing.SplitOnSlash and its lemmas describe the router's view of a pathname. They are not code from App.jsx.

## Findings

| source | as written | input that shows it | evidently intended | confidence | as-written member | corrected member |
|---|---|---|---|---|---|---|
| frontend/src/pages/AuthSuccess.jsx:58-63 | the dashboard redirect effect does not look at `error`, so on mount it runs next to the error branch of the first effect | `?error=denied` while a session is already in and not loading: the trace is `NavigateAfter(3000, "/login")` then `Navigate("/dashboard")`, and leaving the page cancels the return to login | an error parameter shows the error and returns to the login page after the delay, without other navigation | medium, not executed | AuthSuccess.ErrorParameterScenario | AuthSuccess.GuardedErrorParameterScenario |
