/**
 * The comment list under a post: loading it, adding a comment or a reply
 * (comments are one level deep: replies hang off top-level comments), and
 * optimistic likes.
 */
module CommentSection {
  import opened Text
  import opened Service
  import opened Comment

  const LoadFailed := "Failed to load comments. Please try again."

  /** What the comments endpoint may return. */
  datatype ResponseData = ResponseData(comments: Option<seq<CommentRecord>>)
  datatype CommentsResponse =
    | ObjectResponse(status: Option<string>, data: Option<ResponseData>)
    | ArrayResponse(items: seq<CommentRecord>)
    | NotAnObject   // null or a primitive

  /**
   * The list to show: `data.comments` of a "success" object, the response
   * itself when it is an array, and nothing otherwise.
   */
  function ExtractComments(r: CommentsResponse): (cs: seq<CommentRecord>)
    ensures r.ObjectResponse? && r.status == Some("success") && r.data.Some? && r.data.value.comments.Some? ==>
      cs == r.data.value.comments.value
    ensures r.ArrayResponse? ==> cs == r.items
    ensures cs != [] ==>
      r.ArrayResponse? || (r.ObjectResponse? && r.status == Some("success") && r.data.Some? && r.data.value.comments.Some?)
  {
    match r
    case ObjectResponse(status, data) =>
      if status == Some("success") && data.Some? && data.value.comments.Some? then data.value.comments.value else []
    case ArrayResponse(items) => items
    case NotAnObject => []
  }

  /** What the create endpoint may return. */
  datatype CreateResponse =
    | WithData(data: Option<CommentRecord>)         // has a `data` key
    | WithComment(comment: Option<CommentRecord>)   // has a `comment` key and no `data` key
    | Bare(record: CommentRecord)                   // the comment itself
    | NoObject                                      // null or a primitive

  /** The created comment: `data` if that key exists, else `comment`, else the response itself. */
  function ExtractNewComment(r: CreateResponse): (c: Option<CommentRecord>)
    ensures r.WithData? ==> c == r.data
    ensures r.WithComment? ==> c == r.comment
    ensures r.Bare? ==> c == Some(r.record)
    ensures r.NoObject? ==> c == None
  {
    match r
    case WithData(data) => data
    case WithComment(comment) => comment
    case Bare(record) => Some(record)
    case NoObject => None
  }

  /** The comment with `reply` added at the end of its replies, which are created if absent. */
  function WithReply(c: CommentRecord, reply: CommentRecord): (r: CommentRecord)
    ensures r.replies == Some((if c.replies.Some? then c.replies.value else []) + [reply])
    ensures r == c.(replies := r.replies)
  {
    c.(replies := Some((if c.replies.Some? then c.replies.value else []) + [reply]))
  }

  /** A reply goes under every top-level comment whose id is `parentId`; no other comment changes. */
  function InsertReply(comments: seq<CommentRecord>, parentId: string, reply: CommentRecord): (r: seq<CommentRecord>)
    ensures |r| == |comments|
    ensures forall i :: 0 <= i < |comments| ==>
      r[i] == if Key(comments[i]) == Some(parentId) then WithReply(comments[i], reply) else comments[i]
  {
    seq(|comments|, i requires 0 <= i < |comments| =>
      if Key(comments[i]) == Some(parentId) then WithReply(comments[i], reply) else comments[i])
  }

  /** When no top-level comment has that id, the list is unchanged. */
  lemma InsertReplyNoParent(comments: seq<CommentRecord>, parentId: string, reply: CommentRecord)
    requires forall c :: c in comments ==> Key(c) != Some(parentId)
    ensures InsertReply(comments, parentId, reply) == comments
  {
    var r := InsertReply(comments, parentId, reply);
    forall i | 0 <= i < |comments|
      ensures r[i] == comments[i]
    {
      assert comments[i] in comments;
    }
  }

  /** The number of replies of a comment. */
  function ReplyCount(c: CommentRecord): nat
  {
    if c.replies.Some? then |c.replies.value| else 0
  }

  /** Every parent gains exactly one reply, the new one, at the end. */
  lemma InsertReplyAppends(comments: seq<CommentRecord>, parentId: string, reply: CommentRecord, i: nat)
    requires i < |comments| && Key(comments[i]) == Some(parentId)
    ensures var c := InsertReply(comments, parentId, reply)[i];
      ReplyCount(c) == ReplyCount(comments[i]) + 1 && c.replies.value[ReplyCount(c) - 1] == reply
  {
  }

  /** The replies of a top-level comment after a like of `target`: only matching replies change. */
  function LikeReplies(replies: seq<CommentRecord>, target: Option<string>, isLiked: bool): (r: seq<CommentRecord>)
    ensures |r| == |replies|
    ensures forall j :: 0 <= j < |replies| ==>
      r[j] == if Key(replies[j]) == target then Voted(replies[j], isLiked) else replies[j]
  {
    seq(|replies|, j requires 0 <= j < |replies| =>
      if Key(replies[j]) == target then Voted(replies[j], isLiked) else replies[j])
  }

  /**
   * The optimistic like of `target`: a matching top-level comment is voted
   * (and its replies are not searched); otherwise its matching direct replies
   * are.
   */
  function LikeInTree(comments: seq<CommentRecord>, target: Option<string>, isLiked: bool): (r: seq<CommentRecord>)
    ensures |r| == |comments|
  {
    seq(|comments|, i requires 0 <= i < |comments| =>
      var c := comments[i];
      if Key(c) == target then Voted(c, isLiked)
      else if c.replies.Some? && |c.replies.value| > 0 then
        c.(replies := Some(LikeReplies(c.replies.value, target, isLiked)))
      else c)
  }

  /** No reply of `c` has the id `target`. */
  predicate NoReplyMatches(c: CommentRecord, target: Option<string>)
  {
    c.replies.None? || forall j :: 0 <= j < |c.replies.value| ==> Key(c.replies.value[j]) != target
  }

  /** A comment that is not the target and has no reply that is stays exactly as it was. */
  lemma LikeInTreeFrame(comments: seq<CommentRecord>, target: Option<string>, isLiked: bool, i: nat)
    requires i < |comments| && Key(comments[i]) != target && NoReplyMatches(comments[i], target)
    ensures LikeInTree(comments, target, isLiked)[i] == comments[i]
  {
    var c := comments[i];
    if c.replies.Some? && |c.replies.value| > 0 {
      var rs := LikeReplies(c.replies.value, target, isLiked);
      assert rs == c.replies.value;
    }
  }

  /** The target top-level comment gets the vote; its replies are left as they were. */
  lemma LikeInTreeTop(comments: seq<CommentRecord>, target: Option<string>, isLiked: bool, i: nat)
    requires i < |comments| && Key(comments[i]) == target
    ensures LikeInTree(comments, target, isLiked)[i] == Voted(comments[i], isLiked)
    ensures LikeInTree(comments, target, isLiked)[i].replies == comments[i].replies
  {
  }

  /** A target reply of a non-target comment gets the vote; its siblings and its parent's own fields do not change. */
  lemma LikeInTreeReply(comments: seq<CommentRecord>, target: Option<string>, isLiked: bool, i: nat, j: nat)
    requires i < |comments| && Key(comments[i]) != target
    requires comments[i].replies.Some? && j < |comments[i].replies.value|
    ensures var c := LikeInTree(comments, target, isLiked)[i];
      c.replies.Some? && |c.replies.value| == |comments[i].replies.value| &&
      c == comments[i].(replies := c.replies) &&
      c.replies.value[j] ==
        (if Key(comments[i].replies.value[j]) == target
         then Voted(comments[i].replies.value[j], isLiked)
         else comments[i].replies.value[j])
  {
  }

  /**
   * The like target a rendered comment sends, as written: a reply card is
   * given its parent's like handler, so it sends the parent's id.
   */
  function RenderedLikeTarget(top: CommentRecord, reply: Option<nat>): (target: Option<string>)
    ensures target == Key(top)
  {
    Key(top)
  }

  /** The evident intent: every card likes itself. */
  function IntendedLikeTarget(top: CommentRecord, reply: Option<nat>): (target: Option<string>)
    requires reply.Some? ==> top.replies.Some? && reply.value < |top.replies.value|
    ensures reply.None? ==> target == Key(top)
    ensures reply.Some? ==> target == Key(top.replies.value[reply.value])
  {
    if reply.None? then Key(top) else Key(top.replies.value[reply.value])
  }

  /** A reply with its own id whose parent has another. */
  const SampleReply := CommentRecord(Some("r1"), None, Some("thanks"), None, None, None, None,
    Some(0), None, None, None, None, None, None)
  const SampleParent := CommentRecord(Some("c1"), None, Some("hello"), None, None, None, None,
    Some(3), None, None, None, None, None, Some([SampleReply]))

  /**
   * Liking the reply of the sample thread through its card, as written,
   * raises the parent's count and leaves the reply's as it was.
   */
  lemma ReplyLikeHitsParent()
    ensures var after := LikeInTree([SampleParent], RenderedLikeTarget(SampleParent, Some(0)), LikeIntent(SampleReply));
      after[0].upvotes == Some(4) && after[0].replies == Some([SampleReply])
  {
    LikeInTreeTop([SampleParent], Key(SampleParent), true, 0);
  }

  /**
   * With the intended target, a reply card's like votes exactly that reply
   * when its id differs from its parent's, and the parent's own fields stay.
   */
  lemma ReplyLikeIntended(comments: seq<CommentRecord>, i: nat, j: nat, isLiked: bool)
    requires i < |comments| && comments[i].replies.Some? && j < |comments[i].replies.value|
    requires Key(comments[i].replies.value[j]) != Key(comments[i])
    ensures var target := IntendedLikeTarget(comments[i], Some(j));
      var c := LikeInTree(comments, target, isLiked)[i];
      c.upvotes == comments[i].upvotes && c.user_vote == comments[i].user_vote &&
      c.replies.Some? && c.replies.value[j] == Voted(comments[i].replies.value[j], isLiked)
  {
    var target := IntendedLikeTarget(comments[i], Some(j));
    LikeInTreeReply(comments, target, isLiked, i, j);
  }

  class CommentList {
    var comments: seq<CommentRecord>
    var isLoading: bool
    var error: Option<string>
    var authError: bool
    var refreshKey: nat

    constructor ()
      ensures comments == [] && isLoading && error == None && !authError && refreshKey == 0
    {
      comments := [];
      isLoading := true;
      error := None;
      authError := false;
      refreshKey := 0;
    }

    /**
     * The load effect.  Without a signed-in user nothing is fetched and the
     * sign-in notice shows; otherwise the extracted list replaces the old
     * one, or a failure sets the error and keeps it.  Loading ends either way.
     */
    method Load(isAuthenticated: bool, fetched: Outcome<CommentsResponse>)
      modifies this`comments, this`isLoading, this`error, this`authError
      ensures !isLoading
      ensures !isAuthenticated ==> authError && comments == old(comments) && error == old(error)
      ensures isAuthenticated && fetched.Success? ==>
        !authError && comments == ExtractComments(fetched.value) && error == None
      ensures isAuthenticated && fetched.Failure? ==>
        !authError && comments == old(comments) && error == Some(LoadFailed)
    {
      if !isAuthenticated {
        authError := true;
        isLoading := false;
        return;
      }
      isLoading := true;
      authError := false;
      match fetched {
        case Success(response) =>
          comments := ExtractComments(response);
          error := None;
        case Failure(_) =>
          error := Some(LoadFailed);
      }
      isLoading := false;
    }

    /** "Try again", and the reload after a failed like. */
    method Refresh()
      modifies this`refreshKey
      ensures refreshKey == old(refreshKey) + 1
    {
      refreshKey := refreshKey + 1;
    }

    /**
     * `handleCommentSubmit`: returns whether the comment was added.  A failed
     * call or a response without a comment adds nothing.  A reply (a
     * non-empty `parentId`) goes under its parent; anything else goes at the
     * end of the list.
     */
    method Submit(parentId: Option<string>, created: Outcome<CreateResponse>) returns (added: bool)
      modifies this`comments
      ensures added <==> created.Success? && ExtractNewComment(created.value).Some?
      ensures !added ==> comments == old(comments)
      ensures added && TruthyString(parentId) ==>
        comments == InsertReply(old(comments), parentId.value, ExtractNewComment(created.value).value)
      ensures added && !TruthyString(parentId) ==>
        comments == old(comments) + [ExtractNewComment(created.value).value]
    {
      if created.Failure? {
        return false;
      }
      var newComment := ExtractNewComment(created.value);
      if newComment.None? {
        return false;
      }
      if TruthyString(parentId) {
        comments := InsertReply(comments, parentId.value, newComment.value);
      } else {
        comments := comments + [newComment.value];
      }
      added := true;
    }

    /**
     * `handleCommentLike`: the list is updated before the call; a failed call
     * keeps the update and asks for a reload.
     */
    method Like(target: Option<string>, isLiked: bool, outcome: Outcome<()>)
      modifies this`comments, this`refreshKey
      ensures comments == LikeInTree(old(comments), target, isLiked)
      ensures refreshKey == if outcome.Failure? then old(refreshKey) + 1 else old(refreshKey)
    {
      comments := LikeInTree(comments, target, isLiked);
      if outcome.Failure? {
        Refresh();
      }
    }
  }
}
