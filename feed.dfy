/**
 * The feed window of src/lib/useRealtimePosts.tsx: a list of posts, a
 * `hasMore` flag and an `isLoading` flag. A live snapshot of the newest
 * `postLimit` posts replaces the list; `loadMorePosts` appends the next page
 * after the last post. Snapshots and fetched pages arrive as arguments: the
 * subscription and the store query are outside the model.
 */
module Feed {
  import opened Wrappers
  import opened Text
  import opened Timestamps

  /** A stored post document as the store returns it; None is an absent field. */
  datatype FeedDoc = FeedDoc(
    id: string,
    title: Option<string>,
    authorName: Option<string>,
    imageuser: Option<string>,
    imageUrl: Option<string>,
    content: Option<string>,
    hashtags: Option<seq<string>>,  // None when the field is not an array
    createdAt: RawTime)

  /** A post as the feed shows it. */
  datatype FeedPost = FeedPost(
    id: string,
    title: string,
    authorName: string,
    imageuser: string,
    imageUrl: Option<string>,
    content: string,
    hashtags: seq<string>,
    createdAt: string)

  /** The author name shown when a document has none. */
  const DefaultAuthor := "Usuario"

  /** The page size the posts list uses (the hook's default). */
  const DefaultPostLimit := 5

  /** Document to post, as both the live path and the load-more path map it. */
  function MapDoc(d: FeedDoc, clock: Clock): (p: FeedPost)
    ensures p.id == d.id
    ensures p.title == (if d.title.Some? then d.title.value else "")
    ensures p.content == (if d.content.Some? then d.content.value else "")
    ensures p.authorName == (if d.authorName.Some? && d.authorName.value != "" then d.authorName.value else DefaultAuthor)
    ensures p.imageuser == (if d.imageuser.Some? && d.imageuser.value != "" then d.imageuser.value else "")
    ensures p.imageUrl.None? <==> d.imageUrl.None? || d.imageUrl.value == ""
    ensures p.imageUrl.Some? ==> p.imageUrl == d.imageUrl
    ensures p.hashtags == (if d.hashtags.Some? then d.hashtags.value else [])
    ensures p.createdAt == Render(DecodeCreatedAt(d.createdAt), clock)
  {
    FeedPost(
      d.id,
      OrElse(d.title, ""),
      OrElse(d.authorName, DefaultAuthor),
      OrElse(d.imageuser, ""),
      if d.imageUrl.Some? && d.imageUrl.value != "" then d.imageUrl else None,
      OrElse(d.content, ""),
      d.hashtags.GetOr([]),
      Render(DecodeCreatedAt(d.createdAt), clock))
  }

  function MapDocs(docs: seq<FeedDoc>, clock: Clock): (ps: seq<FeedPost>)
    ensures |ps| == |docs|
    ensures forall i :: 0 <= i < |docs| ==> ps[i] == MapDoc(docs[i], clock)
  {
    if docs == [] then [] else [MapDoc(docs[0], clock)] + MapDocs(docs[1..], clock)
  }

  /** Mapping distributes over concatenation: pages map independently and keep their order. */
  lemma MapDocsAppend(a: seq<FeedDoc>, b: seq<FeedDoc>, clock: Clock)
    ensures MapDocs(a + b, clock) == MapDocs(a, clock) + MapDocs(b, clock)
  {
  }

  datatype FeedState = FeedState(posts: seq<FeedPost>, hasMore: bool, isLoading: bool)

  /** The hook's initial state. */
  function Initial(initialPosts: seq<FeedPost>): (s: FeedState)
    ensures s.posts == initialPosts && s.hasMore && !s.isLoading
  {
    FeedState(initialPosts, true, false)
  }

  /** A live snapshot replaces the whole list; `hasMore` is whether the snapshot was a full page. */
  function Snapshot(s: FeedState, page: seq<FeedPost>, limit: nat): (t: FeedState)
    ensures t.posts == page && t.hasMore == (|page| == limit) && t.isLoading == s.isLoading
  {
    FeedState(page, |page| == limit, s.isLoading)
  }

  /** The guard of `loadMorePosts`. */
  predicate CanLoadMore(s: FeedState) {
    !s.isLoading && s.hasMore && |s.posts| > 0
  }

  /**
   * One `loadMorePosts` call: nothing when the guard fails; otherwise the
   * fetched page (None when the fetch threw) is appended after the old list,
   * and loading is over whatever happened.
   */
  function LoadMore(s: FeedState, page: Option<seq<FeedPost>>, limit: nat): (t: FeedState)
    ensures !CanLoadMore(s) ==> t == s
    ensures CanLoadMore(s) ==> !t.isLoading
    ensures CanLoadMore(s) && page.Some? ==>
      |t.posts| == |s.posts| + |page.value| && t.posts[..|s.posts|] == s.posts
      && t.posts[|s.posts|..] == page.value && t.hasMore == (|page.value| == limit)
    ensures CanLoadMore(s) && page.None? ==> t.posts == s.posts && t.hasMore == s.hasMore
  {
    if !CanLoadMore(s) then s
    else match page
      case Some(p) => FeedState(s.posts + p, |p| == limit, false)
      case None => FeedState(s.posts, s.hasMore, false)
  }

  /** The mapped page a fetch produced, or None when it threw. */
  function PageOf(fetch: Reply<seq<FeedDoc>>, clock: Clock): Option<seq<FeedPost>> {
    match fetch
    case Returned(docs) => Some(MapDocs(docs, clock))
    case Threw => None
  }

  class FeedWindow {
    const postLimit: nat
    var posts: seq<FeedPost>
    var hasMore: bool
    var isLoading: bool

    function State(): FeedState
      reads this
    {
      FeedState(posts, hasMore, isLoading)
    }

    /** `useRealtimePosts(initialPosts, postLimit)`. */
    constructor (initialPosts: seq<FeedPost>, postLimit: nat)
      ensures this.postLimit == postLimit
      ensures State() == Initial(initialPosts)
    {
      this.postLimit := postLimit;
      posts := initialPosts;
      hasMore := true;
      isLoading := false;
    }

    /** The `onSnapshot` callback. */
    method ApplySnapshot(docs: seq<FeedDoc>, clock: Clock)
      modifies this
      ensures State() == Snapshot(old(State()), MapDocs(docs, clock), postLimit)
    {
      var updatedPosts := MapDocs(docs, clock);
      posts := updatedPosts;
      hasMore := |updatedPosts| == postLimit;
    }

    /**
     * `loadMorePosts`, given what the query would return. `cursor` is the id
     * of the post the query starts after, None when the guard returned early.
     */
    method LoadMorePosts(fetch: Reply<seq<FeedDoc>>, clock: Clock) returns (cursor: Option<string>)
      modifies this
      ensures cursor == if CanLoadMore(old(State())) then Some(old(posts)[|old(posts)| - 1].id) else None
      ensures State() == LoadMore(old(State()), PageOf(fetch, clock), postLimit)
    {
      if isLoading || !hasMore || |posts| == 0 {
        return None;
      }
      isLoading := true;
      var lastPost := posts[|posts| - 1];
      cursor := Some(lastPost.id);
      match fetch {
        case Returned(docs) =>
          var newPosts := MapDocs(docs, clock);
          posts := posts + newPosts;
          hasMore := |newPosts| == postLimit;
        case Threw =>
      }
      isLoading := false;
    }
  }

  // An unchanging store, for reasoning about paging. `all` is the whole
  // collection in the query's order (newest `createdAt` first).

  /**
   * The page a load-more query answers, under the assumption that its cursor
   * resumes right after the last post shown, the `after`-th one: the next
   * `limit` posts, fewer only where the collection ends. The code hands
   * `startAfter` a document reference built from that post's id while the
   * query is ordered by `createdAt`; the model takes that cursor to mean
   * "after this post".
   */
  function StorePage(all: seq<FeedPost>, after: nat, limit: nat): (page: seq<FeedPost>)
    ensures |page| <= limit
    ensures after + |page| <= |all| || page == []
    ensures after <= |all| ==> page == all[after..after + |page|]
    ensures after <= |all| ==> (|page| == limit || after + |page| == |all|)
  {
    if after >= |all| then []
    else all[after..if after + limit <= |all| then after + limit else |all|]
  }

  /** Calls `loadMorePosts` against the store until its guard stops it. */
  ghost function LoadAll(s: FeedState, all: seq<FeedPost>, limit: nat): FeedState
    requires limit > 0
    requires |s.posts| <= |all| && s.posts == all[..|s.posts|]
    decreases |all| - |s.posts|, if s.hasMore then 1 else 0
  {
    if !CanLoadMore(s) then s
    else
      var page := StorePage(all, |s.posts|, limit);
      var t := LoadMore(s, Some(page), limit);
      assert t.posts == all[..|s.posts| + |page|];
      LoadAll(t, all, limit)
  }

  /**
   * From any state the feed can be in over an unchanging store, loading until
   * the guard stops shows the whole collection, each post once and in order,
   * and ends with `hasMore` false.
   */
  lemma {:induction false} LoadAllShowsCollection(s: FeedState, all: seq<FeedPost>, limit: nat)
    requires limit > 0
    requires |s.posts| <= |all| && s.posts == all[..|s.posts|]
    requires !s.isLoading
    requires s.hasMore ==> s.posts != []
    requires !s.hasMore ==> s.posts == all
    ensures LoadAll(s, all, limit).posts == all
    ensures !LoadAll(s, all, limit).hasMore
    decreases |all| - |s.posts|, if s.hasMore then 1 else 0
  {
    if CanLoadMore(s) {
      var page := StorePage(all, |s.posts|, limit);
      var t := LoadMore(s, Some(page), limit);
      assert t.posts == all[..|s.posts| + |page|];
      if !t.hasMore {
        assert |s.posts| + |page| == |all|;
      }
      LoadAllShowsCollection(t, all, limit);
    }
  }

  /** The first live snapshot followed by loading to the end shows exactly the collection. */
  lemma PagingShowsCollection(initialPosts: seq<FeedPost>, all: seq<FeedPost>, limit: nat)
    requires limit > 0
    ensures
      var s := Snapshot(Initial(initialPosts), StorePage(all, 0, limit), limit);
      LoadAll(s, all, limit).posts == all && !LoadAll(s, all, limit).hasMore
  {
    var s := Snapshot(Initial(initialPosts), StorePage(all, 0, limit), limit);
    LoadAllShowsCollection(s, all, limit);
  }

  /**
   * `hasMore` is a guess: when the collection holds exactly one page, the
   * snapshot already shows everything and still reports more, and one extra
   * fetch that returns nothing is needed to clear it.
   */
  lemma ExactPageReportsMore(initialPosts: seq<FeedPost>, all: seq<FeedPost>, limit: nat)
    requires |all| == limit > 0
    ensures
      var s := Snapshot(Initial(initialPosts), StorePage(all, 0, limit), limit);
      var t := LoadMore(s, Some(StorePage(all, |s.posts|, limit)), limit);
      s.posts == all && s.hasMore && StorePage(all, |s.posts|, limit) == [] && t.posts == all && !t.hasMore
  {
    var s := Snapshot(Initial(initialPosts), StorePage(all, 0, limit), limit);
    assert s.posts == all;
  }
}
