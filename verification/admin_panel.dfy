/** The admin panel: the create / edit form and its transitions, the
    records written by create and update, the delete button, and the
    comment total shown in the statistics. */
module Admin {
  import opened Common

  /** The two fields of the create / edit form. */
  datatype FormData = FormData(title: string, content: string)

  const EmptyForm: FormData := FormData("", "")

  /** The fields `handleCreatePost` writes; the store assigns the id. */
  datatype NewPost = NewPost(
    title: string,
    content: string,
    authorId: string,
    authorName: string,
    createdAt: string,
    commentCount: int)

  /** The fields `handleUpdatePost` writes into an existing post. */
  datatype PostUpdate = PostUpdate(title: string, content: string, updatedAt: string)

  /** The write a submit of the form performs. */
  datatype Write =
    | CreateWrite(post: NewPost)
    | UpdateWrite(id: string, update: PostUpdate)
    | NoWrite

  /** The record a create writes: the form's title and content, the
      current user as author, and no comments yet. */
  function CreateRecord(form: FormData, user: User, now: string): (r: NewPost)
    ensures r.title == form.title && r.content == form.content
    ensures r.authorId == user.uid && r.createdAt == now
    ensures r.commentCount == 0
    ensures r.authorName == (if user.displayName.Some? && user.displayName.value != "" then user.displayName.value else user.email)
  {
    NewPost(form.title, form.content, user.uid, AuthorName(user), now, 0)
  }

  /** The created post as the store later returns it under `id`. */
  function Stored(p: NewPost, id: string): Post
  {
    Post(id, p.title, p.content, p.authorId, p.authorName, p.createdAt, None, Some(p.commentCount))
  }

  /** The store merging an update into a post: only the title, the content
      and `updatedAt` change. */
  function ApplyUpdate(p: Post, u: PostUpdate): (r: Post)
    ensures r.title == u.title && r.content == u.content && r.updatedAt == Some(u.updatedAt)
    ensures r.id == p.id && r.authorId == p.authorId && r.authorName == p.authorName
    ensures r.createdAt == p.createdAt && r.commentCount == p.commentCount
  {
    p.(title := u.title, content := u.content, updatedAt := Some(u.updatedAt))
  }

  /** `post.commentCount || 0`: a missing count reads as zero. */
  function CommentCount(p: Post): int
  {
    if p.commentCount.Some? then p.commentCount.value else 0
  }

  /** The "Comentarios" statistic: `posts.reduce` adding each count from
      the left, starting at zero. */
  function TotalComments(posts: seq<Post>): int
  {
    if posts == [] then 0 else TotalComments(posts[..|posts| - 1]) + CommentCount(posts[|posts| - 1])
  }

  /** The total over two lists put together is the sum of their totals. */
  lemma {:induction false} TotalCommentsAppend(a: seq<Post>, b: seq<Post>)
    ensures TotalComments(a + b) == TotalComments(a) + TotalComments(b)
    decreases |b|
  {
    if b != [] {
      var b' := b[..|b| - 1];
      assert (a + b)[..|a + b| - 1] == a + b';
      assert (a + b)[|a + b| - 1] == b[|b| - 1];
      TotalCommentsAppend(a, b');
    } else {
      assert a + b == a;
    }
  }

  /** Counts that are never negative give a total that is not negative. */
  lemma {:induction false} TotalCommentsNonNegative(posts: seq<Post>)
    requires forall i :: 0 <= i < |posts| ==> CommentCount(posts[i]) >= 0
    ensures TotalComments(posts) >= 0
  {
    if posts != [] {
      TotalCommentsNonNegative(posts[..|posts| - 1]);
    }
  }

  /** A newly created post adds nothing to the total. */
  lemma CreatedPostAddsNoComments(posts: seq<Post>, form: FormData, user: User, now: string, id: string)
    ensures TotalComments(posts + [Stored(CreateRecord(form, user, now), id)]) == TotalComments(posts)
  {
    TotalCommentsAppend(posts, [Stored(CreateRecord(form, user, now), id)]);
    assert [Stored(CreateRecord(form, user, now), id)][..0] == [];
  }

  /** Updating a post leaves the total unchanged. */
  lemma UpdateKeepsTotal(posts: seq<Post>, i: nat, u: PostUpdate)
    requires i < |posts|
    ensures TotalComments(posts[i := ApplyUpdate(posts[i], u)]) == TotalComments(posts)
  {
    var p := ApplyUpdate(posts[i], u);
    var q := posts[i := p];
    assert posts == posts[..i] + [posts[i]] + posts[i + 1..];
    assert q == posts[..i] + [p] + posts[i + 1..];
    TotalCommentsAppend(posts[..i] + [posts[i]], posts[i + 1..]);
    TotalCommentsAppend(posts[..i] + [p], posts[i + 1..]);
    TotalCommentsAppend(posts[..i], [posts[i]]);
    TotalCommentsAppend(posts[..i], [p]);
    assert [p][..0] == [] && [posts[i]][..0] == [];
  }

  /** The state of the `AdminPanel` component. */
  class AdminPanel {
    var posts: seq<Post>
    var loading: bool
    var showCreateForm: bool
    var editingPost: Option<Post>
    var formData: FormData
    var formLoading: bool

    /** The create form and the edit form are never open together. */
    predicate Valid()
      reads this
    {
      !(showCreateForm && editingPost.Some?)
    }

    /** The form is shown while creating or editing. */
    predicate FormVisible()
      reads this
    {
      showCreateForm || editingPost.Some?
    }

    /** The initial state: no posts yet, loading, no form open. */
    constructor ()
      ensures Valid()
      ensures posts == [] && loading && !showCreateForm && editingPost == None
      ensures formData == EmptyForm && !formLoading
    {
      posts := [];
      loading := true;
      showCreateForm := false;
      editingPost := None;
      formData := EmptyForm;
      formLoading := false;
    }

    /** `fetchPosts` settling: on success the list is replaced, on failure
        it is kept; loading ends either way. */
    method FetchSettled(fetched: Option<seq<Post>>)
      modifies this
      ensures posts == (if fetched.Some? then fetched.value else old(posts))
      ensures !loading
      ensures showCreateForm == old(showCreateForm) && editingPost == old(editingPost)
      ensures formData == old(formData) && formLoading == old(formLoading)
    {
      if fetched.Some? {
        posts := fetched.value;
      }
      loading := false;
    }

    /** `startEditing`: edit `p`, with its title and content in the form,
        and the create form closed. */
    method StartEditing(p: Post)
      modifies this
      ensures Valid()
      ensures editingPost == Some(p) && formData == FormData(p.title, p.content) && !showCreateForm
      ensures posts == old(posts) && loading == old(loading) && formLoading == old(formLoading)
    {
      editingPost := Some(p);
      formData := FormData(p.title, p.content);
      showCreateForm := false;
    }

    /** `cancelEditing`: stop editing and empty the form. */
    method CancelEditing()
      modifies this
      ensures Valid()
      ensures editingPost == None && formData == EmptyForm
      ensures showCreateForm == old(showCreateForm)
      ensures posts == old(posts) && loading == old(loading) && formLoading == old(formLoading)
    {
      editingPost := None;
      formData := EmptyForm;
    }

    /** `startCreating`: open the create form, stop editing, empty the
        form. */
    method StartCreating()
      modifies this
      ensures Valid()
      ensures showCreateForm && editingPost == None && formData == EmptyForm
      ensures posts == old(posts) && loading == old(loading) && formLoading == old(formLoading)
    {
      showCreateForm := true;
      editingPost := None;
      formData := EmptyForm;
    }

    /** The close and cancel buttons of the form: hide the create form,
        then cancel editing. */
    method CloseForm()
      modifies this
      ensures Valid() && !FormVisible()
      ensures formData == EmptyForm
      ensures posts == old(posts) && loading == old(loading) && formLoading == old(formLoading)
    {
      showCreateForm := false;
      CancelEditing();
    }

    /** Typing in the title or content field. */
    method EditForm(title: string, content: string)
      modifies this
      ensures formData == FormData(title, content)
      ensures showCreateForm == old(showCreateForm) && editingPost == old(editingPost)
      ensures posts == old(posts) && loading == old(loading) && formLoading == old(formLoading)
    {
      formData := FormData(title, content);
    }

    /** The submit of the form dispatches on `editingPost`: update when a
        post is being edited, create otherwise. */
    method Submit(user: User, now: string, writeSucceeds: bool) returns (w: Write)
      requires Valid()
      modifies this
      ensures Valid()
      ensures old(editingPost).Some? ==> w == UpdateWrite(old(editingPost).value.id, PostUpdate(old(formData).title, old(formData).content, now))
      ensures old(editingPost).None? ==> w == CreateWrite(CreateRecord(old(formData), user, now))
      ensures !formLoading && posts == old(posts) && loading == old(loading)
      ensures writeSucceeds ==> formData == EmptyForm && !FormVisible()
      ensures !writeSucceeds ==> formData == old(formData) && showCreateForm == old(showCreateForm) && editingPost == old(editingPost)
    {
      if editingPost.Some? {
        w := HandleUpdatePost(now, writeSucceeds);
      } else {
        w := HandleCreatePost(user, now, writeSucceeds);
      }
    }

    /** `handleCreatePost`, with the store's answer as `writeSucceeds`: the
        record `CreateRecord` names is written; on success the form is
        emptied and hidden. The list is refreshed by the `fetchPosts` it
        starts, modelled by `FetchSettled`. */
    method HandleCreatePost(user: User, now: string, writeSucceeds: bool) returns (w: Write)
      requires Valid()
      modifies this
      ensures Valid()
      ensures w == CreateWrite(CreateRecord(old(formData), user, now))
      ensures !formLoading && posts == old(posts) && loading == old(loading) && editingPost == old(editingPost)
      ensures writeSucceeds ==> formData == EmptyForm && !showCreateForm
      ensures !writeSucceeds ==> formData == old(formData) && showCreateForm == old(showCreateForm)
    {
      formLoading := true;
      w := CreateWrite(NewPost(formData.title, formData.content, user.uid, AuthorName(user), now, 0));
      if writeSucceeds {
        formData := EmptyForm;
        showCreateForm := false;
      }
      formLoading := false;
    }

    /** `handleUpdatePost`: the title, the content and `updatedAt` of the
        edited post are written; on success the form is emptied and editing
        stops. Without an edited post the handler fails before writing. */
    method HandleUpdatePost(now: string, writeSucceeds: bool) returns (w: Write)
      requires Valid()
      modifies this
      ensures Valid()
      ensures old(editingPost).Some? ==> w == UpdateWrite(old(editingPost).value.id, PostUpdate(old(formData).title, old(formData).content, now))
      ensures old(editingPost).None? ==> w == NoWrite
      ensures !formLoading && posts == old(posts) && loading == old(loading) && showCreateForm == old(showCreateForm)
      ensures w.UpdateWrite? && writeSucceeds ==> formData == EmptyForm && editingPost == None
      ensures !(w.UpdateWrite? && writeSucceeds) ==> formData == old(formData) && editingPost == old(editingPost)
    {
      formLoading := true;
      if editingPost.None? {
        w := NoWrite;
      } else {
        w := UpdateWrite(editingPost.value.id, PostUpdate(formData.title, formData.content, now));
        if writeSucceeds {
          formData := EmptyForm;
          editingPost := None;
        }
      }
      formLoading := false;
    }

    /** The heading of the form. */
    function FormTitle(): string
      reads this
    {
      if editingPost.Some? then "Editar Publicación" else "Nueva Publicación"
    }

    /** The "Comentarios" statistic of the current list. */
    function CommentTotal(): int
      reads this
    {
      TotalComments(posts)
    }
  }

  /** The delete button of a post: the store is asked to delete it only
      once the visitor has confirmed. */
  function DeleteRequest(id: string, confirmed: bool): (r: Option<string>)
    ensures r.Some? <==> confirmed
    ensures r.Some? ==> r.value == id
  {
    if confirmed then Some(id) else None
  }

  /** An update applied by the store to the edited post changes only the
      written fields: every other field of the post, and so its comment
      count, is the one it had. */
  lemma UpdateTouchesOnlyWrittenFields(p: Post, form: FormData, now: string)
    ensures ApplyUpdate(p, PostUpdate(form.title, form.content, now))
         == p.(title := form.title, content := form.content, updatedAt := Some(now))
    ensures CommentCount(ApplyUpdate(p, PostUpdate(form.title, form.content, now))) == CommentCount(p)
  {
  }
}
