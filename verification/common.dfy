/** Values shared by every screen: the optional wrapper, the signed-in
    identity as the auth service hands it over, and a post as the document
    store returns it. */
module Common {

  datatype Option<+T> = None | Some(value: T)

  /** The signed-in identity: its unique id, the optional display name and
      the email address. */
  datatype User = User(uid: string, displayName: Option<string>, email: string)

  /** A document of the `posts` collection together with its id. Fields that
      older documents may lack (`updatedAt`, `commentCount`) are optional. */
  datatype Post = Post(
    id: string,
    title: string,
    content: string,
    authorId: string,
    authorName: string,
    createdAt: string,
    updatedAt: Option<string>,
    commentCount: Option<int>)

  /** The author name written into new posts and comments: the display name
      when it is set and not empty (JavaScript's `||` treats "" as false),
      the email otherwise. */
  function AuthorName(u: User): string
  {
    if u.displayName.Some? && u.displayName.value != "" then u.displayName.value else u.email
  }
}
