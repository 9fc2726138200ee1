/**
 * A comment as the server sends it, in either of its two formats (snake_case
 * or camelCase, author nested or flat), and how the comment card reads it.
 * `None` stands for an absent property.
 */
module Comment {
  import opened Text

  datatype Author = Author(username: Option<string>, avatarUrl: Option<string>)

  datatype CommentRecord = CommentRecord(
    comment_id: Option<string>,
    id: Option<string>,
    content: Option<string>,
    is_anonymous: Option<bool>,
    isAnonymous: Option<bool>,
    is_expert_response: Option<bool>,
    isExpertResponse: Option<bool>,
    upvotes: Option<int>,
    likeCount: Option<int>,
    user_vote: Option<string>,
    isLikedByUser: Option<bool>,
    author: Option<Author>,
    author_username: Option<string>,
    replies: Option<seq<CommentRecord>>)

  const AnonymousName := "Anonymous"

  predicate TruthyString(s: Option<string>) { s.Some? && s.value != "" }
  predicate TruthyBool(b: Option<bool>) { b == Some(true) }
  predicate TruthyInt(n: Option<int>) { n.Some? && n.value != 0 }

  function ValueOr(s: Option<string>, default: string): string
  {
    if s.Some? then s.value else default
  }

  /**
   * `comment_id || id`: the id the list and the card use for a comment.
   * `None` is `undefined`, which equals another `undefined`.
   */
  function Key(c: CommentRecord): (k: Option<string>)
    ensures TruthyString(c.comment_id) ==> k == c.comment_id
    ensures !TruthyString(c.comment_id) ==> k == c.id
  {
    if TruthyString(c.comment_id) then c.comment_id else c.id
  }

  /**
   * `is_anonymous || isAnonymous || true`: the trailing `true` makes the flag
   * hold for every comment, whatever the record says.
   */
  function IsAnonymous(c: CommentRecord): (b: bool)
    ensures b
  {
    TruthyBool(c.is_anonymous) || TruthyBool(c.isAnonymous) || true
  }

  function IsExpertResponse(c: CommentRecord): (b: bool)
    ensures b <==> c.is_expert_response == Some(true) || c.isExpertResponse == Some(true)
  {
    TruthyBool(c.is_expert_response) || TruthyBool(c.isExpertResponse)
  }

  /** `upvotes || likeCount || 0` */
  function LikeCount(c: CommentRecord): (n: int)
    ensures TruthyInt(c.upvotes) ==> n == c.upvotes.value
    ensures !TruthyInt(c.upvotes) && TruthyInt(c.likeCount) ==> n == c.likeCount.value
    ensures n == 0 <==> !TruthyInt(c.upvotes) && !TruthyInt(c.likeCount)
  {
    if TruthyInt(c.upvotes) then c.upvotes.value
    else if TruthyInt(c.likeCount) then c.likeCount.value
    else 0
  }

  /** Liked when the vote is "up" or the camelCase flag is set. */
  function IsLiked(c: CommentRecord): (b: bool)
    ensures b <==> c.user_vote == Some("up") || c.isLikedByUser == Some(true)
  {
    c.user_vote == Some("up") || TruthyBool(c.isLikedByUser)
  }

  /** Author name and avatar: from the nested author when there is one, else the flat name without avatar. */
  function AuthorInfo(c: CommentRecord): (info: (Option<string>, Option<string>))
    ensures c.author.Some? ==> info == (c.author.value.username, c.author.value.avatarUrl)
    ensures c.author.None? ==> info == (c.author_username, None)
  {
    match c.author
    case Some(a) => (a.username, a.avatarUrl)
    case None => (c.author_username, None)
  }

  /**
   * `isAnonymous || !authorUsername ? "Anonymous" : authorUsername`: since the
   * flag always holds, every comment is shown as anonymous.
   */
  function DisplayName(c: CommentRecord): (name: string)
    ensures name == AnonymousName
  {
    var username := AuthorInfo(c).0;
    if IsAnonymous(c) || !TruthyString(username) then AnonymousName else ValueOr(username, "")
  }

  /** A like click asks for the opposite of the current state. */
  function LikeIntent(c: CommentRecord): (isLiked: bool)
    ensures isLiked <==> !IsLiked(c)
  {
    !IsLiked(c)
  }

  /** The comment with a like (`isLiked`) or an unlike applied, as the list updates it. */
  function Voted(c: CommentRecord, isLiked: bool): (r: CommentRecord)
    ensures r.upvotes.Some?
    ensures r.upvotes.value == (if c.upvotes.Some? then c.upvotes.value else 0) + (if isLiked then 1 else -1)
    ensures r.user_vote == if isLiked then Some("up") else None
    ensures r == c.(upvotes := r.upvotes, user_vote := r.user_vote)
  {
    var base := if c.upvotes.Some? then c.upvotes.value else 0;
    c.(upvotes := Some(if isLiked then base + 1 else base - 1),
       user_vote := if isLiked then Some("up") else None)
  }

  /**
   * A like always shows as liked afterwards; an unlike shows as not liked
   * unless the record carries the camelCase liked flag, which the update
   * never clears.
   */
  lemma VotedLiked(c: CommentRecord, isLiked: bool)
    ensures IsLiked(Voted(c, isLiked)) <==> isLiked || c.isLikedByUser == Some(true)
  {
  }

  /** Liking then unliking gives back the count (an absent count comes back as 0). */
  lemma VotedUndo(c: CommentRecord)
    ensures var r := Voted(Voted(c, true), false);
      r.upvotes == Some(if c.upvotes.Some? then c.upvotes.value else 0) && r.user_vote == None
  {
  }

  /** A like click raises the shown count by one when it was not negative. */
  lemma LikeRaisesCount(c: CommentRecord)
    requires c.upvotes.Some? && c.upvotes.value >= 0
    ensures LikeCount(Voted(c, true)) == c.upvotes.value + 1
  {
  }

  /** The card's reply form: open or closed. */
  class CommentCard {
    var isReplyFormOpen: bool

    constructor ()
      ensures !isReplyFormOpen
    {
      isReplyFormOpen := false;
    }

    method ToggleReplyForm()
      modifies this
      ensures isReplyFormOpen == !old(isReplyFormOpen)
    {
      isReplyFormOpen := !isReplyFormOpen;
    }

    /** `handleReplySubmit`: the form closes only when the reply was posted. */
    method ReplySubmitted(success: bool) returns (r: bool)
      modifies this
      ensures r == success
      ensures isReplyFormOpen == if success then false else old(isReplyFormOpen)
    {
      if success {
        isReplyFormOpen := false;
      }
      r := success;
    }
  }
}
