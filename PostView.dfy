/**
 * The post card: who is shown as the author, whether the content is hidden
 * behind its trigger warning, the urgency badge, and what a like click asks
 * the feed to do.
 */
module PostView {
  import opened Text
  import opened FeedTypes
  import Posts
  import Feed

  const AnonymousName := "Anonymous"
  const MediumLabel := "Support Needed"
  const HighLabel := "Urgent Support"
  const CriticalLabel := "Critical"

  predicate TruthyBool(b: Option<bool>) { b == Some(true) }

  /**
   * The posts the card can render: an anonymous one, or one that carries its
   * author.  The post type makes the author optional, and a card for a named
   * post without one fails; every post the service transforms is renderable
   * (`TransformedAuthor`).
   */
  predicate Renderable(p: Post)
  {
    TruthyBool(p.isAnonymous) || p.author.Some?
  }

  /**
   * The name and the avatar picture the card passes to the avatar and the
   * header: an anonymous post shows "Anonymous" and no picture, any other post
   * its author's username and picture.
   */
  function ShownAuthor(p: Post): (r: (string, Option<string>))
    requires Renderable(p)
    ensures TruthyBool(p.isAnonymous) ==> r == (AnonymousName, None)
    ensures !TruthyBool(p.isAnonymous) ==> r == (p.author.value.username, p.author.value.avatarUrl)
  {
    if TruthyBool(p.isAnonymous) then (AnonymousName, None)
    else (p.author.value.username, p.author.value.avatarUrl)
  }

  /**
   * Every post the service hands over can be rendered; its card never shows a
   * picture, shows "Anonymous" exactly when the API flagged the post anonymous
   * or sent no author name, and otherwise shows the API's author name.
   */
  lemma TransformedAuthor(p: Post)
    ensures Renderable(Posts.TransformPost(p))
    ensures ShownAuthor(Posts.TransformPost(p)).1 == None
    ensures ShownAuthor(Posts.TransformPost(p)).0 == AnonymousName <==>
      p.is_anonymous || p.author_username.None? || p.author_username.value in {"", AnonymousName}
    ensures !p.is_anonymous && p.author_username.Some? && p.author_username.value != "" ==>
      ShownAuthor(Posts.TransformPost(p)).0 == p.author_username.value
  {
    var q := Posts.TransformPost(p);
    assert q.isAnonymous == Some(p.is_anonymous);
    assert q.author.value.username == Posts.AuthorName(p);
  }

  /**
   * `renderUrgencyIndicator`: no badge without an urgency or for a low one,
   * otherwise the label of the level.
   */
  function UrgencyLabel(u: Option<Urgency>): (r: Option<string>)
    ensures r.None? <==> u.None? || u == Some(Low)
    ensures r == Some(MediumLabel) <==> u == Some(Medium)
    ensures r == Some(HighLabel) <==> u == Some(High)
    ensures r == Some(CriticalLabel) <==> u == Some(Critical)
  {
    match u
    case None => None
    case Some(Low) => None
    case Some(Medium) => Some(MediumLabel)
    case Some(High) => Some(HighLabel)
    case Some(Critical) => Some(CriticalLabel)
  }

  /** Two urgencies that both show a badge show the same badge only when they are the same level. */
  lemma UrgencyLabelInjective(u: Option<Urgency>, v: Option<Urgency>)
    requires UrgencyLabel(u).Some? && UrgencyLabel(u) == UrgencyLabel(v)
    ensures u == v
  {
    match u
    case None =>
    case Some(Low) =>
    case Some(Medium) => assert UrgencyLabel(v) == Some(MediumLabel);
    case Some(High) => assert UrgencyLabel(v) == Some(HighLabel);
    case Some(Critical) => assert UrgencyLabel(v) == Some(CriticalLabel);
  }

  /** `handleLikeClick`: the post's id, and a like exactly when the reader has not liked it yet. */
  function LikeRequest(p: Post): (r: (Option<string>, bool))
    ensures r.0 == p.id
    ensures r.1 <==> !TruthyBool(p.isLikedByUser)
  {
    (p.id, !TruthyBool(p.isLikedByUser))
  }

  /**
   * A like click answered by the feed's update flips the post's liked state
   * and moves its count one step in that direction; two clicks give the count
   * back.
   */
  lemma LikeClickFlips(posts: seq<Post>, i: nat, id: string)
    requires i < |posts| && posts[i].id == Some(id)
    ensures var r := Feed.LikePosts(posts, id, LikeRequest(posts[i]).1);
      TruthyBool(r[i].isLikedByUser) == !TruthyBool(posts[i].isLikedByUser) &&
      (posts[i].likeCount.Some? ==>
        r[i].likeCount.value == posts[i].likeCount.value + (if TruthyBool(posts[i].isLikedByUser) then -1 else 1))
    ensures var r := Feed.LikePosts(posts, id, LikeRequest(posts[i]).1);
      var s := Feed.LikePosts(r, id, LikeRequest(r[i]).1);
      s[i].likeCount == posts[i].likeCount
  {
    var r := Feed.LikePosts(posts, id, LikeRequest(posts[i]).1);
    assert r[i].id == Some(id);
  }

  /** The card's own state: whether the content is uncovered and whether the comments are open. */
  class PostCard {
    const post: Post
    var isContentVisible: bool
    var showComments: bool

    /** Content starts hidden exactly when the post carries a trigger warning; comments start closed. */
    constructor (p: Post)
      ensures post == p
      ensures isContentVisible <==> !TruthyBool(p.hasTriggerWarning)
      ensures !showComments
    {
      post := p;
      isContentVisible := !TruthyBool(p.hasTriggerWarning);
      showComments := false;
    }

    /** The tag list appears only with the content, and only when there are tags. */
    function TagsShown(): (b: bool)
      reads this
      ensures b ==> isContentVisible
      ensures b <==> isContentVisible && TagCount(post.tags) > 0
    {
      isContentVisible && TagCount(post.tags) > 0
    }

    method ToggleContent()
      modifies this`isContentVisible
      ensures isContentVisible == !old(isContentVisible)
    {
      isContentVisible := !isContentVisible;
    }

    method ToggleComments()
      modifies this`showComments
      ensures showComments == !old(showComments)
    {
      showComments := !showComments;
    }
  }
}
