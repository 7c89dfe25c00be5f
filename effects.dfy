/** Values shared by the pages: the post as the API returns it, the form
    payload, and the observable effects a page produces.  The API calls
    themselves are not modelled; a page records the request it issues and
    receives the response as a parameter. */
module Effects {

  datatype Option<+T> = None | Some(value: T)

  /** A name as JavaScript holds it: `undefined` (a missing key or a
      missing object), `null`, or a string.  Equality of these values is
      exactly `===`: `undefined === undefined` and `null === null` hold,
      `null === undefined` does not. */
  datatype JsName = Undefined | Null | Str(text: string)

  /** A post as returned by the API.  `shared` may be absent from the
      JSON; `author` is the author's display name. */
  datatype Blog = Blog(title: string, content: string, author: JsName, shared: Option<bool>)

  /** The body of a create or update request. */
  datatype Payload = Payload(title: string, content: string)

  /** What a page does to the outside world, in the order it does it. */
  datatype Effect =
    | PublicFetch(id: string)                      // fetchPublicBlog(id)
    | OwnFetch(id: string)                         // fetchBlog(id)
    | CreateRequest(payload: Payload)              // createBlog(payload)
    | UpdateRequest(id: string, payload: Payload)  // updateBlog(id, payload)
    | DeleteRequest(id: string)                    // deleteBlog(id)
    | SharingRequest(id: string, shared: bool)     // toggleBlogSharing(id, shared)
    | LoginRequest(token: string)                  // login(token)
    | ToastSuccess(message: string)
    | ToastError(message: string)
    | Navigate(path: string, replace: bool)
    | NavigateAfter(delayMs: nat, path: string, replace: bool)
    | WriteClipboard(text: string)
}
