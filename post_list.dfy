/**
 * src/components/postList.tsx: the view the posts list chooses for a feed
 * state, and the in-view trigger that asks the feed for the next page.
 */
module PostList {
  import opened Wrappers
  import opened Timestamps
  import opened Feed

  /** `loadMoreOnInView`'s condition. */
  predicate ShouldRequestMore(inView: bool, hasMore: bool, isLoading: bool) {
    inView && hasMore && !isLoading
  }

  /** The load-more sentinel: a spinner while loading, and its caption. */
  datatype Sentinel = Sentinel(spinner: bool, caption: string)

  datatype ListView =
    | EmptyState(heading: string, hint: string, createLink: string)
    | Listing(items: seq<FeedPost>, sentinel: Option<Sentinel>, endMessage: Option<string>)

  const LoadingLabel := "Cargando más publicaciones..."
  const ScrollLabel := "Desplázate para cargar más"
  const EndMessage := "No hay más publicaciones para mostrar"

  /** What the list renders for a feed state. */
  function View(s: FeedState): (v: ListView)
    ensures v.EmptyState? <==> s.posts == []
    ensures v.EmptyState? ==> v.createLink == "/post"
    ensures v.Listing? ==> v.items == s.posts
    ensures v.Listing? ==> (v.sentinel.Some? <==> s.hasMore)
    ensures v.Listing? && v.sentinel.Some? ==>
      v.sentinel.value.spinner == s.isLoading
      && v.sentinel.value.caption == (if s.isLoading then LoadingLabel else ScrollLabel)
    ensures v.Listing? ==> (v.endMessage.Some? <==> !s.hasMore) && (v.endMessage.Some? ==> v.endMessage.value == EndMessage)
  {
    if |s.posts| == 0 then
      EmptyState("No hay publicaciones disponibles", "Las publicaciones aparecerán aquí cuando sean creadas", "/post")
    else
      Listing(
        s.posts,
        if s.hasMore then Some(Sentinel(s.isLoading, if s.isLoading then LoadingLabel else ScrollLabel)) else None,
        if !s.hasMore && |s.posts| > 0 then Some(EndMessage) else None)
  }

  /**
   * The sentinel is the element whose visibility sets `inView`; when it is
   * rendered and the trigger fires, the hook's own guard passes too.
   */
  lemma TriggerPassesHookGuard(s: FeedState, inView: bool)
    requires View(s).Listing? && View(s).sentinel.Some?
    requires ShouldRequestMore(inView, s.hasMore, s.isLoading)
    ensures CanLoadMore(s)
  {
  }

  /**
   * Mounting `PostsList`: the hook is started with the initial posts and its
   * default page size; `initialHasMore` is accepted and not used, so the list
   * always starts believing there is more.
   */
  method Mount(initialPosts: seq<FeedPost>, initialHasMore: bool) returns (feed: FeedWindow)
    ensures fresh(feed)
    ensures feed.postLimit == DefaultPostLimit
    ensures feed.State() == Initial(initialPosts)
    ensures feed.hasMore
  {
    feed := new FeedWindow(initialPosts, DefaultPostLimit);
  }

  /** The effect that runs `loadMoreOnInView`, given what the store query would answer. */
  method OnInView(feed: FeedWindow, inView: bool, fetch: Reply<seq<FeedDoc>>, clock: Clock)
    returns (cursor: Option<string>)
    modifies feed
    ensures ShouldRequestMore(inView, old(feed.hasMore), old(feed.isLoading)) ==>
      feed.State() == LoadMore(old(feed.State()), PageOf(fetch, clock), feed.postLimit)
    ensures !ShouldRequestMore(inView, old(feed.hasMore), old(feed.isLoading)) ==>
      feed.State() == old(feed.State()) && cursor.None?
    ensures cursor.Some? ==> CanLoadMore(old(feed.State()))
  {
    cursor := None;
    if ShouldRequestMore(inView, feed.hasMore, feed.isLoading) {
      cursor := feed.LoadMorePosts(fetch, clock);
    }
  }
}
