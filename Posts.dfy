/**
 * The client-side part of the posts service: turning an API post into the
 * shape the components read, paging, and the choice of vote and save
 * endpoints.  The HTTP calls themselves are not modelled.
 */
module Posts {
  import opened Text
  import opened FeedTypes

  const ApiUrl := "/api"
  const AnonymousName := "Anonymous"

  /** `author_id || ""` */
  function AuthorId(p: Post): (id: string)
    ensures p.author_id.Some? && p.author_id.value != "" ==> id == p.author_id.value
    ensures p.author_id.None? || p.author_id.value == "" ==> id == ""
  {
    if p.author_id.Some? then p.author_id.value else ""
  }

  /** `author_username || "Anonymous"`: a missing or empty username reads as anonymous. */
  function AuthorName(p: Post): (name: string)
    ensures name != ""
    ensures p.author_username.Some? && p.author_username.value != "" ==> name == p.author_username.value
    ensures p.author_username.None? || p.author_username.value == "" ==> name == AnonymousName
  {
    if p.author_username.Some? && p.author_username.value != "" then p.author_username.value else AnonymousName
  }

  /** The fields the API sends are the same in `p` and `q`. */
  predicate SameApiFields(p: Post, q: Post)
  {
    q.post_id == p.post_id && q.author_id == p.author_id && q.content == p.content &&
    q.upvotes == p.upvotes && q.downvotes == p.downvotes && q.comment_count == p.comment_count &&
    q.is_anonymous == p.is_anonymous && q.sentiment_score == p.sentiment_score &&
    q.urgency_level == p.urgency_level && q.expert_responded == p.expert_responded &&
    q.status == p.status && q.created_at == p.created_at && q.updated_at == p.updated_at &&
    q.author_username == p.author_username && q.tags == p.tags
  }

  /**
   * `transformPostData`: every input field is kept, the client aliases are
   * filled from the API fields, the author is rebuilt from the flat author
   * fields, and the per-user flags start false.
   */
  function TransformPost(p: Post): (q: Post)
    ensures SameApiFields(p, q)
    ensures q.id == Some(p.post_id) && q.likeCount == Some(p.upvotes)
    ensures q.hasExpertResponse == Some(p.expert_responded) && q.isAnonymous == Some(p.is_anonymous)
    ensures q.author == Some(FeedUser(AuthorId(p), AuthorName(p), None, Some(false)))
    ensures q.isLikedByUser == Some(false) && q.isSavedByUser == Some(false) && q.hasTriggerWarning == Some(false)
    ensures q.triggerWarningText == p.triggerWarningText && q.urgencyLevel == p.urgencyLevel
  {
    p.(
      id := Some(p.post_id),
      likeCount := Some(p.upvotes),
      hasExpertResponse := Some(p.expert_responded),
      isAnonymous := Some(p.is_anonymous),
      author := Some(FeedUser(AuthorId(p), AuthorName(p), None, Some(false))),
      isLikedByUser := Some(false),
      isSavedByUser := Some(false),
      hasTriggerWarning := Some(false))
  }

  /** Transforming twice is transforming once. */
  lemma TransformIdempotent(p: Post)
    ensures TransformPost(TransformPost(p)) == TransformPost(p)
  {
    var q := TransformPost(p);
    assert AuthorId(q) == AuthorId(p) && AuthorName(q) == AuthorName(p);
  }

  /** Two API posts that differ in an API field stay different after the transform. */
  lemma TransformInjective(p: Post, q: Post)
    requires !SameApiFields(p, q)
    ensures TransformPost(p) != TransformPost(q)
  {
  }

  datatype Pagination = Pagination(page: int, limit: int, total: int, totalPages: int)

  /** The `data` part of a posts response. */
  datatype PostsPayload = PostsPayload(posts: seq<Post>, pagination: Pagination)

  function TransformAll(posts: seq<Post>): (r: seq<Post>)
    ensures |r| == |posts|
    ensures forall i :: 0 <= i < |posts| ==> r[i] == TransformPost(posts[i])
  {
    seq(|posts|, i requires 0 <= i < |posts| => TransformPost(posts[i]))
  }

  /**
   * The page every paginated fetch returns (posts feed, user posts, saved
   * posts, posts by tag): the posts transformed one by one in their order, the
   * paging numbers copied, and a next page exactly when this page is not the
   * last.
   */
  function ToPage(payload: PostsPayload): (r: PaginatedResponse<Post>)
    ensures |r.data| == |payload.posts|
    ensures forall i :: 0 <= i < |r.data| ==> r.data[i] == TransformPost(payload.posts[i])
    ensures r.page == payload.pagination.page && r.totalPages == payload.pagination.totalPages
    ensures r.totalItems == payload.pagination.total
    ensures r.hasNextPage <==> r.page < r.totalPages
  {
    PaginatedResponse(
      TransformAll(payload.posts),
      payload.pagination.page,
      payload.pagination.totalPages,
      payload.pagination.total,
      payload.pagination.page < payload.pagination.totalPages)
  }

  /** Every post id of the payload reappears, at the same position, as the client id. */
  lemma ToPageIds(payload: PostsPayload, i: nat)
    requires i < |payload.posts|
    ensures ToPage(payload).data[i].id == Some(payload.posts[i].post_id)
  {
  }

  /** `likePost` votes "up" to like and "down" to unlike. */
  function VoteType(isLiked: bool): (v: string)
    ensures v == "up" || v == "down"
    ensures v == "up" <==> isLiked
  {
    if isLiked then "up" else "down"
  }

  /**
   * `savePost` posts to ".../save" or ".../unsave"; a flag-to-word choice of
   * the same shape as `VoteType`, kept apart as the service keeps it.
   */
  function SaveEndpoint(isSaved: bool): (e: string)
    ensures e == "save" || e == "unsave"
    ensures e == "save" <==> isSaved
  {
    if isSaved then "save" else "unsave"
  }

  /** The post's resource; the id can be read back after the prefix. */
  function PostPath(postId: string): (path: string)
    ensures StartsWith(path, ApiUrl + "/posts/")
    ensures path[|ApiUrl + "/posts/"|..] == postId
  {
    ApiUrl + "/posts/" + postId
  }

  function VotePath(postId: string): (path: string)
    ensures path == PostPath(postId) + "/vote"
  {
    PostPath(postId) + "/vote"
  }

  function SavePath(postId: string, isSaved: bool): (path: string)
    ensures path == PostPath(postId) + "/" + SaveEndpoint(isSaved)
  {
    PostPath(postId) + "/" + SaveEndpoint(isSaved)
  }

  /** Saving and unsaving the same post go to different paths. */
  lemma SavePathsDiffer(postId: string)
    ensures SavePath(postId, true) != SavePath(postId, false)
  {
    var p := PostPath(postId) + "/";
    assert SavePath(postId, true) == p + "save";
    assert SavePath(postId, false) == p + "unsave";
    assert |p + "save"| != |p + "unsave"|;
  }

  /** `Partial<PostCreationData>`: any field may be left out. */
  datatype PostUpdate = PostUpdate(
    content: Option<string>,
    isAnonymous: Option<bool>,
    tags: Option<seq<string>>,
    hasTriggerWarning: Option<bool>,
    triggerWarningText: Option<string>)

  /** The body `updatePost` sends, in the API's field names. */
  datatype UpdateBody = UpdateBody(
    content: Option<string>,
    is_anonymous: Option<bool>,
    tags: Option<seq<string>>,
    has_trigger_warning: Option<bool>,
    trigger_warning_text: Option<string>)

  function ToUpdateBody(u: PostUpdate): (b: UpdateBody)
    ensures b.content == u.content && b.is_anonymous == u.isAnonymous && b.tags == u.tags
    ensures b.has_trigger_warning == u.hasTriggerWarning && b.trigger_warning_text == u.triggerWarningText
  {
    UpdateBody(u.content, u.isAnonymous, u.tags, u.hasTriggerWarning, u.triggerWarningText)
  }

  /** Reading an update body back, as the server would. */
  function FromUpdateBody(b: UpdateBody): (u: PostUpdate)
    ensures u.content == b.content && u.isAnonymous == b.is_anonymous && u.tags == b.tags
    ensures u.hasTriggerWarning == b.has_trigger_warning && u.triggerWarningText == b.trigger_warning_text
  {
    PostUpdate(b.content, b.is_anonymous, b.tags, b.has_trigger_warning, b.trigger_warning_text)
  }

  /** The body loses nothing: every field, present or absent, reads back as sent. */
  lemma UpdateBodyRoundTrip(u: PostUpdate, b: UpdateBody)
    ensures FromUpdateBody(ToUpdateBody(u)) == u
    ensures ToUpdateBody(FromUpdateBody(b)) == b
  {
  }
}
