/**
 * One post card (src/components/post.tsx): long content is cut after forty
 * space-separated words until the reader expands it.
 */
module PostCard {
  import opened Wrappers
  import opened Text
  import opened Feed

  /** How many words a collapsed card shows. */
  const WordLimit := 40

  const ExpandLabel := "Ver más"
  const CollapseLabel := "Ver menos"

  /** `content.split(" ")`: the words, counting every empty piece. */
  function Words(content: string): seq<string> {
    Split(content, ' ')
  }

  predicate ShouldTruncate(content: string) {
    |Words(content)| > WordLimit
  }

  /** The collapsed text: the first forty words and "...", or the whole content when it is short. */
  function TruncatedText(content: string): (text: string)
    ensures !ShouldTruncate(content) ==> text == content
    ensures ShouldTruncate(content) ==> EndsWith(text, "...")
  {
    if ShouldTruncate(content) then Join(Words(content)[..WordLimit], " ") + "..." else content
  }

  /**
   * A cut card shows a proper prefix of the content that stops right before a
   * space and holds exactly the first forty words, followed by "...".
   */
  lemma TruncationIsPrefix(content: string)
    requires ShouldTruncate(content)
    ensures exists k ::
      0 <= k < |content| && content[k] == ' '
      && TruncatedText(content) == content[..k] + "..."
      && Words(content[..k]) == Words(content)[..WordLimit]
  {
    var words := Words(content);
    var kept := Join(words[..WordLimit], " ");
    JoinAt(words, WordLimit, " ");
    JoinSplit(content, ' ');
    assert content == kept + " " + Join(words[WordLimit..], " ");
    var k := |kept|;
    assert content[..k] == kept;
    assert content[k] == ' ';
    assert forall p :: p in words[..WordLimit] ==> p in words;
    SplitJoin(words[..WordLimit], ' ');
  }

  /** What a card renders. */
  datatype CardView = CardView(
    title: string,
    authorName: string,
    avatar: string,
    text: string,
    toggle: Option<string>,  // the expand/collapse button and its caption
    image: Option<string>,
    tags: seq<string>,
    createdAt: string)

  function RenderCard(post: FeedPost, expanded: bool): (v: CardView)
    ensures v.text == (if expanded then post.content else TruncatedText(post.content))
    ensures v.toggle.Some? <==> ShouldTruncate(post.content)
    ensures v.toggle.Some? ==> v.toggle.value == (if expanded then CollapseLabel else ExpandLabel)
    ensures v.image.Some? <==> Filled(post.imageUrl)
    ensures v.image.Some? ==> v.image == post.imageUrl
    ensures v.tags == post.hashtags
    ensures v.avatar == post.imageuser
    ensures v.title == post.title && v.authorName == post.authorName && v.createdAt == post.createdAt
  {
    CardView(
      post.title,
      post.authorName,
      post.imageuser,
      if expanded then post.content else TruncatedText(post.content),
      if ShouldTruncate(post.content) then Some(if expanded then CollapseLabel else ExpandLabel) else None,
      if Filled(post.imageUrl) then post.imageUrl else None,
      post.hashtags,
      post.createdAt)
  }

  /** Whatever the toggle says, a card never shows anything but the content or a cut prefix of it. */
  lemma ShownTextComesFromContent(post: FeedPost, expanded: bool)
    ensures
      var t := RenderCard(post, expanded).text;
      t == post.content || exists k :: 0 <= k < |post.content| && t == post.content[..k] + "..."
  {
    if !expanded && ShouldTruncate(post.content) {
      TruncationIsPrefix(post.content);
    }
  }

  class PostCardState {
    const post: FeedPost
    var expanded: bool

    function View(): CardView
      reads this
    {
      RenderCard(post, expanded)
    }

    constructor (post: FeedPost)
      ensures this.post == post && !expanded
    {
      this.post := post;
      expanded := false;
    }

    /** The toggle button, which only exists on a cut card. */
    method Toggle()
      requires ShouldTruncate(post.content)
      modifies this
      ensures expanded == !old(expanded)
    {
      expanded := !expanded;
    }
  }
}
