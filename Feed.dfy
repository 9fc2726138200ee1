/**
 * The feed page: pages of posts loaded one after another as the reader
 * scrolls, a refresh that starts again from page 1, post creation, and likes.
 * The fetch effect, which runs whenever the page number or the refresh
 * counter changes, is the method `Fetch`; the scroll observer firing on the
 * last post is `LastItemVisible`.
 */
module Feed {
  import opened Text
  import opened Service
  import opened FeedTypes

  const LoadFailed := "Failed to load posts. Please try again later."

  /** A like adds one to the count and an unlike takes one off; an absent count stays absent. */
  function Bumped(count: Option<int>, isLiked: bool): (r: Option<int>)
    ensures r.Some? <==> count.Some?
    ensures count.Some? ==> r.value == if isLiked then count.value + 1 else count.value - 1
  {
    if count.None? then None
    else if isLiked then Some(count.value + 1) else Some(count.value - 1)
  }

  /** The posts after a successful like call on `postId`: only posts with that id change. */
  function LikePosts(posts: seq<Post>, postId: string, isLiked: bool): (r: seq<Post>)
    ensures |r| == |posts|
    ensures forall i :: 0 <= i < |posts| && posts[i].id != Some(postId) ==> r[i] == posts[i]
    ensures forall i :: 0 <= i < |posts| && posts[i].id == Some(postId) ==>
      r[i] == posts[i].(likeCount := Bumped(posts[i].likeCount, isLiked), isLikedByUser := Some(isLiked))
  {
    seq(|posts|, i requires 0 <= i < |posts| =>
      if posts[i].id == Some(postId)
      then posts[i].(likeCount := Bumped(posts[i].likeCount, isLiked), isLikedByUser := Some(isLiked))
      else posts[i])
  }

  /** Liking and then unliking a post gives every post its count back. */
  lemma LikeUnlike(posts: seq<Post>, postId: string)
    ensures var r := LikePosts(LikePosts(posts, postId, true), postId, false);
      |r| == |posts| &&
      forall i :: 0 <= i < |posts| ==>
        r[i].likeCount == posts[i].likeCount &&
        r[i] == (if posts[i].id == Some(postId) then posts[i].(isLikedByUser := Some(false)) else posts[i])
  {
    var liked := LikePosts(posts, postId, true);
    var r := LikePosts(liked, postId, false);
    forall i | 0 <= i < |posts|
      ensures r[i].likeCount == posts[i].likeCount
      ensures r[i] == (if posts[i].id == Some(postId) then posts[i].(isLikedByUser := Some(false)) else posts[i])
    {
      assert liked[i].id == posts[i].id;
    }
  }

  class FeedPage {
    var posts: seq<Post>
    var loading: bool
    var error: Option<string>
    var page: nat
    var hasMore: bool
    var isCreatePostModalOpen: bool
    var refreshTrigger: nat

    /** Pages are counted from 1. */
    ghost predicate Valid()
      reads this
    {
      page >= 1
    }

    constructor ()
      ensures Valid()
      ensures posts == [] && loading && error == None && page == 1 && hasMore
      ensures !isCreatePostModalOpen && refreshTrigger == 0
    {
      posts := [];
      loading := true;
      error := None;
      page := 1;
      hasMore := true;
      isCreatePostModalOpen := false;
      refreshTrigger := 0;
    }

    /**
     * The fetch effect for the current page: page 1 replaces the list, any
     * later page is appended; there is more to load exactly when the page was
     * not empty.  A failure keeps the list and sets the error.  Loading ends
     * either way.
     */
    method Fetch(outcome: Outcome<PaginatedResponse<Post>>)
      requires Valid()
      modifies this`posts, this`loading, this`error, this`hasMore
      ensures Valid() && !loading
      ensures outcome.Success? ==>
        error == None &&
        posts == (if page == 1 then outcome.value.data else old(posts) + outcome.value.data) &&
        (hasMore <==> |outcome.value.data| > 0)
      ensures outcome.Failure? ==>
        error == Some(LoadFailed) && posts == old(posts) && hasMore == old(hasMore)
    {
      loading := true;
      error := None;
      match outcome {
        case Success(response) =>
          if page == 1 {
            posts := response.data;
          } else {
            posts := posts + response.data;
          }
          hasMore := |response.data| > 0;
          loading := false;
        case Failure(_) =>
          error := Some(LoadFailed);
          loading := false;
      }
    }

    /**
     * The last post scrolled into view.  The observer is armed only while not
     * loading, and it moves to the next page only while there is more.
     * Returns whether the page advanced.
     */
    method LastItemVisible() returns (advanced: bool)
      requires Valid()
      modifies this`page
      ensures Valid()
      ensures advanced <==> !loading && hasMore
      ensures page == if advanced then old(page) + 1 else old(page)
    {
      advanced := !loading && hasMore;
      if advanced {
        page := page + 1;
      }
    }

    /** Back to page 1, and a new fetch even when the page already was 1. */
    method Refresh()
      modifies this`page, this`refreshTrigger
      ensures Valid()
      ensures page == 1 && refreshTrigger == old(refreshTrigger) + 1
    {
      page := 1;
      refreshTrigger := refreshTrigger + 1;
    }

    method SetCreateModalOpen(open: bool)
      modifies this`isCreatePostModalOpen
      ensures isCreatePostModalOpen == open
    {
      isCreatePostModalOpen := open;
    }

    /** A created post closes the modal and refreshes the feed; a failure changes nothing. */
    method CreatePost(outcome: Outcome<Post>)
      modifies this`isCreatePostModalOpen, this`page, this`refreshTrigger
      ensures outcome.Success? ==>
        !isCreatePostModalOpen && page == 1 && refreshTrigger == old(refreshTrigger) + 1
      ensures outcome.Failure? ==>
        isCreatePostModalOpen == old(isCreatePostModalOpen) && page == old(page) &&
        refreshTrigger == old(refreshTrigger)
    {
      if outcome.Success? {
        isCreatePostModalOpen := false;
        Refresh();
      }
    }

    /** `handlePostLike`: the list changes only after the like call succeeded. */
    method LikePost(postId: string, isLiked: bool, outcome: Outcome<()>)
      modifies this`posts
      ensures outcome.Success? ==> posts == LikePosts(old(posts), postId, isLiked)
      ensures outcome.Failure? ==> posts == old(posts)
    {
      if outcome.Success? {
        posts := LikePosts(posts, postId, isLiked);
      }
    }
  }
}
