/** The comment thread under a post: who may delete a comment, which badge
    an author gets, how old a comment looks, the form that writes a new
    comment, and the live list that each snapshot replaces. */
module Comments {
  import opened Common
  import opened Text

  /** A document of the `comments` collection together with its id. */
  datatype Comment = Comment(
    id: string,
    postId: string,
    content: string,
    authorId: string,
    authorName: string,
    createdAt: string)

  /** The fields of a comment as written by the form; the store assigns
      the id. */
  datatype NewComment = NewComment(
    postId: string,
    content: string,
    authorId: string,
    authorName: string,
    createdAt: string)

  /** `canDeleteComment`: the delete button is shown to admins and to the
      comment's author. */
  predicate CanDeleteComment(isAdmin: bool, viewer: User, c: Comment)
  {
    isAdmin || c.authorId == viewer.uid
  }

  /** The "Tú" badge: the viewer wrote the comment. */
  predicate ShowsYouBadge(viewer: User, c: Comment)
  {
    c.authorId == viewer.uid
  }

  /** The "Usuario" badge: an admin looks at somebody else's comment. */
  predicate ShowsUserBadge(isAdmin: bool, viewer: User, c: Comment)
  {
    isAdmin && c.authorId != viewer.uid
  }

  /** The two badges never show together, an admin always sees exactly one
      of them, and the delete button is shown exactly when one of them is:
      a non-admin may delete precisely the comments marked "Tú". */
  lemma BadgesAndDeletion(isAdmin: bool, viewer: User, c: Comment)
    ensures !(ShowsYouBadge(viewer, c) && ShowsUserBadge(isAdmin, viewer, c))
    ensures isAdmin ==> ShowsYouBadge(viewer, c) || ShowsUserBadge(isAdmin, viewer, c)
    ensures CanDeleteComment(isAdmin, viewer, c) <==> ShowsYouBadge(viewer, c) || ShowsUserBadge(isAdmin, viewer, c)
    ensures !isAdmin ==> (CanDeleteComment(isAdmin, viewer, c) <==> ShowsYouBadge(viewer, c))
  {
  }

  /** The delete button: it exists only when `CanDeleteComment` holds, and
      it asks the store to delete the comment only once the visitor has
      confirmed. The result is the id passed to the store, if any. */
  function DeleteRequest(isAdmin: bool, viewer: User, c: Comment, confirmed: bool): (r: Option<string>)
    ensures r.Some? <==> CanDeleteComment(isAdmin, viewer, c) && confirmed
    ensures r.Some? ==> r.value == c.id
  {
    if CanDeleteComment(isAdmin, viewer, c) && confirmed then Some(c.id) else None
  }

  /** The whole seconds elapsed between two instants given in
      milliseconds, rounded down (`Math.floor`), negative when the comment
      is dated in the future. */
  function SecondsBetween(thenMs: int, nowMs: int): (d: int)
    ensures d * 1000 <= nowMs - thenMs < (d + 1) * 1000
  {
    (nowMs - thenMs) / 1000
  }

  /** The relative time shown beside a comment: "hace unos segundos",
      "hace N min", "hace N h", or a short locale date. */
  datatype TimeAgo = FewSeconds | Minutes(n: int) | Hours(n: int) | ShortDate

  /** `formatTimeAgo` over the elapsed whole seconds: the first bucket that
      fits wins. */
  function FormatTimeAgo(d: int): (t: TimeAgo)
    ensures t == FewSeconds <==> d < 60
    ensures t.Minutes? <==> 60 <= d < 3600
    ensures t.Hours? <==> 3600 <= d < 86400
    ensures t == ShortDate <==> 86400 <= d
    ensures t.Minutes? ==> 1 <= t.n <= 59 && t.n * 60 <= d < (t.n + 1) * 60
    ensures t.Hours? ==> 1 <= t.n <= 23 && t.n * 3600 <= d < (t.n + 1) * 3600
  {
    if d < 60 then FewSeconds
    else if d < 3600 then Minutes(d / 60)
    else if d < 86400 then Hours(d / 3600)
    else ShortDate
  }

  /** An older comment never shows a smaller age: the buckets and the
      counts inside them only grow with the elapsed time. */
  lemma FormatTimeAgoMonotone(d1: int, d2: int)
    requires d1 <= d2
    ensures Rank(FormatTimeAgo(d1)) <= Rank(FormatTimeAgo(d2))
    ensures FormatTimeAgo(d1).Minutes? && FormatTimeAgo(d2).Minutes? ==> FormatTimeAgo(d1).n <= FormatTimeAgo(d2).n
    ensures FormatTimeAgo(d1).Hours? && FormatTimeAgo(d2).Hours? ==> FormatTimeAgo(d1).n <= FormatTimeAgo(d2).n
  {
    var t1, t2 := FormatTimeAgo(d1), FormatTimeAgo(d2);
    if t1.Minutes? && t2.Minutes? {
      assert t1.n * 60 <= d1 <= d2 < (t2.n + 1) * 60;
    }
    if t1.Hours? && t2.Hours? {
      assert t1.n * 3600 <= d1 <= d2 < (t2.n + 1) * 3600;
    }
  }

  /** The order of the buckets. */
  function Rank(t: TimeAgo): nat
  {
    match t
    case FewSeconds => 0
    case Minutes(_) => 1
    case Hours(_) => 2
    case ShortDate => 3
  }

  /** The send button is disabled while a write is in flight and while the
      text is blank. */
  predicate SubmitDisabled(loading: bool, newComment: string)
  {
    loading || Trim(newComment) == ""
  }

  /** The record the form writes for `text`, or None when the trimmed
      text is empty: the trimmed text, the post, and the viewer as
      author. */
  function CommentRecord(postId: string, text: string, viewer: User, now: string): (r: Option<NewComment>)
    ensures r.None? <==> Blank(text)
    ensures r.Some? ==> r.value.content == Trim(text) && r.value.content != ""
    ensures r.Some? ==> r.value.postId == postId && r.value.authorId == viewer.uid
    ensures r.Some? ==> r.value.authorName == AuthorName(viewer) && r.value.createdAt == now
  {
    TrimEmptyIffBlank(text);
    if Trim(text) == "" then None
    else Some(NewComment(postId, Trim(text), viewer.uid, AuthorName(viewer), now))
  }

  /** The stored content has no surrounding whitespace: writing it back
      through the form would store it unchanged. */
  lemma StoredContentIsTrimmed(postId: string, text: string, viewer: User, now: string)
    requires CommentRecord(postId, text, viewer, now).Some?
    ensures Trim(CommentRecord(postId, text, viewer, now).value.content) == CommentRecord(postId, text, viewer, now).value.content
  {
    TrimIdempotent(text);
  }

  /** The state of the `Comments` component for one post. */
  class CommentsPanel {
    const postId: string
    var comments: seq<Comment>
    var newComment: string
    var loading: bool

    /** The initial state: no comments yet, empty input, not loading. */
    constructor (postId: string)
      ensures this.postId == postId
      ensures comments == [] && newComment == "" && !loading
    {
      this.postId := postId;
      comments := [];
      newComment := "";
      loading := false;
    }

    /** A snapshot of the live query: the list becomes exactly the
        delivered comments, in the delivered order. */
    method OnSnapshot(delivered: seq<Comment>)
      modifies this
      ensures comments == delivered
      ensures newComment == old(newComment) && loading == old(loading)
    {
      comments := delivered;
    }

    /** `handleSubmitComment`, with the store's answer as `writeSucceeds`.
        A blank input returns at once and changes nothing; otherwise the
        record `CommentRecord` names is written, the input is emptied when
        the write succeeds and kept when it fails, and loading ends false. */
    method HandleSubmitComment(viewer: User, now: string, writeSucceeds: bool) returns (written: Option<NewComment>)
      modifies this
      ensures written == CommentRecord(postId, old(newComment), viewer, now)
      ensures written.None? ==> newComment == old(newComment) && loading == old(loading)
      ensures written.Some? ==> !loading && newComment == (if writeSucceeds then "" else old(newComment))
      ensures comments == old(comments)
    {
      var text := Trim(newComment);
      if text == "" {
        written := None;
        TrimEmptyIffBlank(newComment);
        return;
      }
      loading := true;
      written := Some(NewComment(postId, text, viewer.uid, AuthorName(viewer), now));
      if writeSucceeds {
        newComment := "";
      }
      loading := false;
    }

    /** Typing in the comment box. */
    method EditComment(text: string)
      modifies this
      ensures newComment == text
      ensures comments == old(comments) && loading == old(loading)
    {
      newComment := text;
    }

    /** "Ver más comentarios" is shown when more than five comments are
        listed. */
    predicate ShowsMoreButton()
      reads this
    {
      |comments| > 5
    }
  }

  /** Two snapshots in a row leave exactly the second one on screen: the
      list is replaced, never appended to. */
  method SnapshotsReplace(panel: CommentsPanel, a: seq<Comment>, b: seq<Comment>)
    modifies panel
    ensures panel.comments == b
  {
    panel.OnSnapshot(a);
    panel.OnSnapshot(b);
  }
}
