/** The posts page: the search filter over titles and contents, the
    comment panel that one post at a time may open, and the choice between
    the loading view, the empty state and the list. */
module Posts {
  import opened Common
  import opened Text

  /** A post passes the search when its lower-cased title or its
      lower-cased content includes the lower-cased search term. */
  predicate Matches(p: Post, term: string)
  {
    Contains(Lower(p.title), Lower(term)) || Contains(Lower(p.content), Lower(term))
  }

  /** `posts.filter(...)`: the posts that pass the search, in their order. */
  function FilterPosts(posts: seq<Post>, term: string): (r: seq<Post>)
    ensures |r| <= |posts|
    ensures forall p :: p in r ==> p in posts && Matches(p, term)
    ensures forall p :: p in posts && Matches(p, term) ==> p in r
  {
    if posts == [] then []
    else (if Matches(posts[0], term) then [posts[0]] else []) + FilterPosts(posts[1..], term)
  }

  /** `a` is `b` with some elements left out, the rest in the same order. */
  predicate IsSubsequence<T(==)>(a: seq<T>, b: seq<T>)
    decreases |b|
  {
    a == [] || (b != [] && ((a[0] == b[0] && IsSubsequence(a[1..], b[1..])) || IsSubsequence(a, b[1..])))
  }

  /** The filtered list keeps the fetched order. */
  lemma {:induction false} FilterIsSubsequence(posts: seq<Post>, term: string)
    ensures IsSubsequence(FilterPosts(posts, term), posts)
  {
    if posts != [] {
      FilterIsSubsequence(posts[1..], term);
      var rest := FilterPosts(posts[1..], term);
      if Matches(posts[0], term) {
        assert FilterPosts(posts, term) == [posts[0]] + rest;
        assert ([posts[0]] + rest)[1..] == rest;
      } else {
        assert FilterPosts(posts, term) == rest;
      }
    }
  }

  /** An empty search keeps every post. */
  lemma {:induction false} EmptyTermKeepsAll(posts: seq<Post>)
    ensures FilterPosts(posts, "") == posts
  {
    if posts != [] {
      ContainsEmpty(Lower(posts[0].title));
      assert Lower("") == "";
      EmptyTermKeepsAll(posts[1..]);
      assert posts == [posts[0]] + posts[1..];
    }
  }

  /** Filtering the filtered list with the same term changes nothing. */
  lemma {:induction false} FilterIdempotent(posts: seq<Post>, term: string)
    ensures FilterPosts(FilterPosts(posts, term), term) == FilterPosts(posts, term)
  {
    if posts != [] {
      FilterIdempotent(posts[1..], term);
      var rest := FilterPosts(posts[1..], term);
      if Matches(posts[0], term) {
        assert FilterPosts(posts, term) == [posts[0]] + rest;
        assert ([posts[0]] + rest)[1..] == rest;
      } else {
        assert FilterPosts(posts, term) == rest;
      }
    }
  }

  /** The comment button of post `id`: the open post closes, any other
      post opens in its place. */
  function NextSelection(selected: Option<string>, id: string): (r: Option<string>)
    ensures r == Some(id) <==> selected != Some(id)
    ensures r == None <==> selected == Some(id)
  {
    if selected == Some(id) then None else Some(id)
  }

  /** Pressing the same comment button twice restores a closed panel and
      re-opens a panel that was open. */
  lemma ToggleTwice(selected: Option<string>, id: string)
    ensures selected.None? || selected == Some(id) ==> NextSelection(NextSelection(selected, id), id) == selected
    ensures selected.Some? && selected != Some(id) ==> NextSelection(NextSelection(selected, id), id) == None
  {
  }

  /** What the page shows. */
  datatype View =
    | LoadingView
    | EmptyState(title: string, hint: string, offersClearSearch: bool)
    | PostList(shown: seq<Post>)

  const NoResultsTitle: string := "No se encontraron publicaciones"
  const NoResultsHint: string := "Intenta con otros términos de búsqueda o revisa la ortografía"
  const NoPostsTitle: string := "No hay publicaciones"
  const NoPostsHint: string := "Aún no se han creado publicaciones. ¡Vuelve pronto para ver las novedades!"

  /** The page body: the spinner while loading; the empty state when no
      post passes the search, worded by whether a search term is set; the
      filtered list otherwise. */
  function PageView(loading: bool, posts: seq<Post>, searchTerm: string): (v: View)
    ensures loading <==> v == LoadingView
    ensures v.PostList? ==> v.shown == FilterPosts(posts, searchTerm) && v.shown != []
    ensures v.EmptyState? ==> FilterPosts(posts, searchTerm) == []
    ensures v.EmptyState? ==> (v.title == NoResultsTitle <==> searchTerm != "")
    ensures v.EmptyState? ==> v.offersClearSearch == (searchTerm != "")
  {
    if loading then LoadingView
    else
      var shown := FilterPosts(posts, searchTerm);
      if shown == [] then
        if searchTerm != "" then EmptyState(NoResultsTitle, NoResultsHint, true)
        else EmptyState(NoPostsTitle, NoPostsHint, false)
      else PostList(shown)
  }

  /** "No hay publicaciones" appears only when there are no posts at all:
      without a search term every post is listed. */
  lemma NoPostsMeansEmpty(posts: seq<Post>)
    ensures PageView(false, posts, "") == (if posts == [] then EmptyState(NoPostsTitle, NoPostsHint, false) else PostList(posts))
  {
    EmptyTermKeepsAll(posts);
  }

  /** The state of the `Posts` component. */
  class PostsPage {
    var posts: seq<Post>
    var loading: bool
    var selectedPost: Option<string>
    var searchTerm: string

    /** The initial state: no posts yet, loading, no panel open, no
        search. */
    constructor ()
      ensures posts == [] && loading && selectedPost == None && searchTerm == ""
    {
      posts := [];
      loading := true;
      selectedPost := None;
      searchTerm := "";
    }

    /** `fetchPosts` settling: on success (`fetched` holds the documents,
        newest first) the list is replaced; on failure it is kept. Loading
        ends either way. */
    method FetchSettled(fetched: Option<seq<Post>>)
      modifies this
      ensures posts == (if fetched.Some? then fetched.value else old(posts))
      ensures !loading
      ensures selectedPost == old(selectedPost) && searchTerm == old(searchTerm)
    {
      if fetched.Some? {
        posts := fetched.value;
      }
      loading := false;
    }

    /** The comment button of post `id`. */
    method ToggleComments(id: string)
      modifies this
      ensures selectedPost == NextSelection(old(selectedPost), id)
      ensures posts == old(posts) && loading == old(loading) && searchTerm == old(searchTerm)
    {
      selectedPost := if selectedPost == Some(id) then None else Some(id);
    }

    /** Typing in the search box. */
    method SetSearchTerm(term: string)
      modifies this
      ensures searchTerm == term
      ensures posts == old(posts) && loading == old(loading) && selectedPost == old(selectedPost)
    {
      searchTerm := term;
    }

    /** The "Ver todas las publicaciones" button of the empty state. */
    method ClearSearch()
      modifies this
      ensures searchTerm == ""
      ensures posts == old(posts) && loading == old(loading) && selectedPost == old(selectedPost)
    {
      searchTerm := "";
    }

    /** The comment panel of post `id` is open. */
    predicate ShowsComments(id: string)
      reads this
    {
      selectedPost == Some(id)
    }

    function View(): View
      reads this
    {
      PageView(loading, posts, searchTerm)
    }
  }

  /** No two posts share an id, as no two documents of a collection do. */
  predicate DistinctIds(posts: seq<Post>)
  {
    forall i, j :: 0 <= i < j < |posts| ==> posts[i].id != posts[j].id
  }

  /** Filtering keeps the ids distinct. */
  lemma {:induction false} FilterKeepsDistinctIds(posts: seq<Post>, term: string)
    requires DistinctIds(posts)
    ensures DistinctIds(FilterPosts(posts, term))
  {
    if posts != [] {
      var tail := posts[1..];
      DistinctIdsTail(posts);
      FilterKeepsDistinctIds(tail, term);
      var rest := FilterPosts(tail, term);
      if Matches(posts[0], term) {
        var r := [posts[0]] + rest;
        assert FilterPosts(posts, term) == r;
        forall i, j | 0 <= i < j < |r|
          ensures r[i].id != r[j].id
        {
          assert r[j] == rest[j - 1];
          if i == 0 {
            assert rest[j - 1] in tail;
            var k :| 0 <= k < |tail| && tail[k] == rest[j - 1];
            assert posts[k + 1] == rest[j - 1];
          } else {
            assert r[i] == rest[i - 1];
          }
        }
      } else {
        assert FilterPosts(posts, term) == rest;
      }
    }
  }

  lemma DistinctIdsTail(posts: seq<Post>)
    requires posts != [] && DistinctIds(posts)
    ensures DistinctIds(posts[1..])
  {
    forall i, j | 0 <= i < j < |posts| - 1
      ensures posts[1..][i].id != posts[1..][j].id
    {
      assert posts[1..][i] == posts[i + 1] && posts[1..][j] == posts[j + 1];
    }
  }

  /** In the rendered list at most one post shows its comment panel: two
      listed posts that both show it are the same entry. */
  lemma AtMostOnePanel(page: PostsPage, i: nat, j: nat)
    requires DistinctIds(page.posts)
    requires i < |FilterPosts(page.posts, page.searchTerm)| && j < |FilterPosts(page.posts, page.searchTerm)|
    requires page.ShowsComments(FilterPosts(page.posts, page.searchTerm)[i].id)
    requires page.ShowsComments(FilterPosts(page.posts, page.searchTerm)[j].id)
    ensures i == j
  {
    FilterKeepsDistinctIds(page.posts, page.searchTerm);
  }
}
