/**
 * The demonstration feed (src/components/main-feed.tsx): a local list of
 * posts, newest first, to which a submitted text is prepended. The clock
 * reading used as the new post's id is an argument.
 */
module MainFeed {
  import opened Text

  datatype DemoPost = DemoPost(id: int, content: string, author: string)

  const SamplePosts := [
    DemoPost(1, "Esta es una publicación de ejemplo.", "Usuario Ejemplo"),
    DemoPost(2, "Otra publicación de prueba.", "Otro Usuario")
  ]

  const CurrentAuthor := "Usuario Actual"

  /** The list after a submission: unchanged for blank text, otherwise the new post in front of the old ones. */
  function AfterSubmit(posts: seq<DemoPost>, content: string, nowMs: int): (r: seq<DemoPost>)
    ensures IsBlank(content) ==> r == posts
    ensures !IsBlank(content) ==>
      |r| == |posts| + 1 && r[0] == DemoPost(nowMs, content, CurrentAuthor) && r[1..] == posts
  {
    if IsBlank(content) then posts else [DemoPost(nowMs, content, CurrentAuthor)] + posts
  }

  /** Submissions only ever add in front: the list before is always the tail of the list after. */
  lemma SubmitKeepsOlderPosts(posts: seq<DemoPost>, content: string, nowMs: int)
    ensures
      var r := AfterSubmit(posts, content, nowMs);
      |r| >= |posts| && r[|r| - |posts|..] == posts
  {
  }

  class MainFeedState {
    var posts: seq<DemoPost>

    constructor ()
      ensures posts == SamplePosts
      ensures |posts| == 2 && posts[0].id == 1 && posts[1].id == 2
    {
      posts := SamplePosts;
    }

    /** `handlePostSubmit`; `formReset` says whether the form was cleared. */
    method HandlePostSubmit(content: string, nowMs: int) returns (formReset: bool)
      modifies this
      ensures posts == AfterSubmit(old(posts), content, nowMs)
      ensures formReset <==> !IsBlank(content)
    {
      formReset := false;
      if !IsBlank(content) {
        posts := [DemoPost(nowMs, content, CurrentAuthor)] + posts;
        formReset := true;
      }
    }
  }
}
