/**
 * The feed's data model.  Fields the API sends keep their wire names
 * (`post_id`, `is_anonymous`, ...); the client-side aliases the service layer
 * adds are optional, `None` standing for a property that is absent.
 */
module FeedTypes {
  import opened Text

  datatype FeedUser = FeedUser(
    id: string,
    username: string,
    avatarUrl: Option<string>,
    isExpert: Option<bool>)

  datatype Tag = Tag(
    id: string,
    name: string,
    count: Option<int>,
    category: Option<string>)

  datatype Urgency = Low | Medium | High | Critical

  /** A post's tags arrive either as names or as tag records. */
  datatype PostTags = TagNames(names: seq<string>) | TagRecords(records: seq<Tag>)

  function TagCount(tags: PostTags): nat
  {
    match tags
    case TagNames(names) => |names|
    case TagRecords(records) => |records|
  }

  datatype Post = Post(
    // as sent by the API
    post_id: string,
    author_id: Option<string>,
    content: string,
    upvotes: int,
    downvotes: int,
    comment_count: int,
    is_anonymous: bool,
    sentiment_score: Option<string>,
    urgency_level: Urgency,
    expert_responded: bool,
    status: string,
    created_at: string,
    updated_at: string,
    author_username: Option<string>,
    tags: PostTags,
    // client-side
    id: Option<string>,
    author: Option<FeedUser>,
    likeCount: Option<int>,
    isLikedByUser: Option<bool>,
    isSavedByUser: Option<bool>,
    hasTriggerWarning: Option<bool>,
    triggerWarningText: Option<string>,
    hasExpertResponse: Option<bool>,
    isAnonymous: Option<bool>,
    /** Read by the post card; not part of the declared post type. */
    urgencyLevel: Option<Urgency>)

  /** What the creation form sends. */
  datatype PostCreationData = PostCreationData(
    content: string,
    isAnonymous: bool,
    tags: seq<string>,
    hasTriggerWarning: bool,
    triggerWarningText: Option<string>)

  datatype PaginatedResponse<T> = PaginatedResponse(
    data: seq<T>,
    page: int,
    totalPages: int,
    totalItems: int,
    hasNextPage: bool)

  /** The six declared kinds, and any other string the server may send. */
  datatype NotificationType =
    | CommentNote | LikeNote | ExpertResponseNote | MentionNote | TagNote | SystemNote
    | OtherNote(name: string)

  datatype Notification = Notification(
    id: string,
    kind: NotificationType,
    message: string,
    isRead: bool,
    createdAt: string,
    relatedPostId: Option<string>,
    relatedCommentId: Option<string>,
    relatedUserId: Option<string>)
}
