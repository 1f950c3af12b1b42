/**
 * A single discussion post (`src/pages/PostDetails.tsx`): its like button,
 * which changes the page only after the backend has accepted the change,
 * and its comment box. Backend answers are inputs.
 */
module PostDetails {
  import opened Wrappers
  import opened Strings
  import Discussions

  /** A comment row as the query returns it. */
  datatype Comment = Comment(id: string, content: string, createdAt: string, authorId: string)

  /**
   * The post query's answer: an error, or the row with its `likes(count)`
   * aggregate (None when missing) and the `user_has_liked` like rows,
   * which the client reads without checking whose like each row is.
   */
  datatype PostResult =
    | PostError
    | PostRow(id: string, title: string, content: string, likes: Option<seq<nat>>, userHasLiked: Option<seq<string>>)

  /** The comments query's answer: an error, or data that may be null. */
  datatype CommentsResult = CommentsError | CommentsData(data: Option<seq<Comment>>)

  /** What `handleAddComment` inserts. */
  datatype NewComment = NewComment(content: string, postId: string, authorId: string)

  /** `data.likes?.[0]?.count || 0`. */
  function InitialLikeCount(likes: Option<seq<nat>>): (n: nat)
    ensures likes.None? || likes.value == [] ==> n == 0
    ensures likes.Some? && likes.value != [] ==> n == likes.value[0]
  {
    if likes.Some? && |likes.value| > 0 then likes.value[0] else 0
  }

  /** `!!data.user_has_liked?.length`: liked exactly when `user_has_liked` returned at least one row. */
  function InitialIsLiked(userHasLiked: Option<seq<string>>): (b: bool)
    ensures b <==> userHasLiked.Some? && |userHasLiked.value| > 0
  {
    userHasLiked.Some? && |userHasLiked.value| != 0
  }

  class PostDetailsPage {
    /** The route's `id`. */
    const postId: string
    var loaded: bool
    var comments: seq<Comment>
    var newComment: string
    var isLiked: bool
    var likeCount: int
    /** Comments inserted, oldest first. */
    var inserted: seq<NewComment>
    /** Like and unlike requests sent, oldest first. */
    var likeRequests: seq<Discussions.LikeRequest>

    /** The count without the like the page shows as the caller's. */
    function OthersLikes(): int
      reads this
    {
      likeCount - (if isLiked then 1 else 0)
    }

    constructor (id: string)
      ensures postId == id && !loaded && comments == [] && newComment == ""
      ensures !isLiked && likeCount == 0 && inserted == [] && likeRequests == []
    {
      postId := id;
      loaded := false;
      comments := [];
      newComment := "";
      isLiked := false;
      likeCount := 0;
      inserted := [];
      likeRequests := [];
    }

    /** `fetchPost`: on an error nothing changes; otherwise the count and the flag come from the row. */
    method FetchPost(result: PostResult)
      modifies this
      ensures result.PostError? ==> loaded == old(loaded) && isLiked == old(isLiked) && likeCount == old(likeCount)
      ensures result.PostRow? ==>
                loaded && likeCount == InitialLikeCount(result.likes) && isLiked == InitialIsLiked(result.userHasLiked)
      ensures comments == old(comments) && newComment == old(newComment) && inserted == old(inserted)
      ensures likeRequests == old(likeRequests)
    {
      if result.PostError? {
        return;
      }
      loaded := true;
      likeCount := InitialLikeCount(result.likes);
      isLiked := InitialIsLiked(result.userHasLiked);
    }

    /** `fetchComments`: on an error nothing changes; null data shows no comments. */
    method FetchComments(result: CommentsResult)
      modifies this
      ensures comments == (if result.CommentsError? then old(comments) else result.data.GetOr([]))
      ensures loaded == old(loaded) && isLiked == old(isLiked) && likeCount == old(likeCount)
      ensures newComment == old(newComment) && inserted == old(inserted) && likeRequests == old(likeRequests)
    {
      if result.CommentsError? {
        return;
      }
      comments := result.data.GetOr([]);
    }

    /**
     * `handleLike`: signed out or refused by the backend, nothing changes;
     * otherwise the flag flips and the count moves by exactly one in the
     * same direction. The likes of others are never touched.
     */
    method HandleLike(uid: Option<string>, backendOk: bool)
      modifies this
      ensures uid.None? || !backendOk ==> isLiked == old(isLiked) && likeCount == old(likeCount)
      ensures uid.Some? && backendOk ==>
                isLiked == !old(isLiked) && likeCount == old(likeCount) + (if old(isLiked) then -1 else 1)
      ensures OthersLikes() == old(OthersLikes())
      ensures loaded == old(loaded) && comments == old(comments) && newComment == old(newComment)
      ensures inserted == old(inserted)
      // signed in, the caller's like is deleted exactly when the post is shown as liked, and inserted otherwise
      ensures uid.None? ==> likeRequests == old(likeRequests)
      ensures uid.Some? ==>
                likeRequests == old(likeRequests) +
                  [if old(isLiked) then Discussions.Unlike(postId, uid.value) else Discussions.Like(postId, uid.value)]
    {
      if uid.None? {
        return;
      }
      likeRequests := likeRequests + [if isLiked then Discussions.Unlike(postId, uid.value) else Discussions.Like(postId, uid.value)];
      if isLiked {
        // delete the caller's like
        if !backendOk {
          return;
        }
        isLiked := false;
        likeCount := likeCount - 1;
      } else {
        // insert a like by the caller
        if !backendOk {
          return;
        }
        isLiked := true;
        likeCount := likeCount + 1;
      }
    }

    /**
     * `handleAddComment`: a blank comment or a signed-out caller changes
     * nothing. Otherwise the trimmed text is inserted; on success the box is
     * cleared and the comments are reloaded.
     */
    method HandleAddComment(uid: Option<string>, insertOk: bool, refetched: CommentsResult)
      modifies this
      ensures Trim(old(newComment)) == "" || uid.None? ==>
                inserted == old(inserted) && newComment == old(newComment) && comments == old(comments)
      ensures Trim(old(newComment)) != "" && uid.Some? ==>
                inserted == old(inserted) + [NewComment(Trim(old(newComment)), postId, uid.value)]
      ensures Trim(old(newComment)) != "" && uid.Some? && insertOk ==>
                && newComment == ""
                && comments == (if refetched.CommentsError? then old(comments) else refetched.data.GetOr([]))
      ensures Trim(old(newComment)) != "" && uid.Some? && !insertOk ==>
                newComment == old(newComment) && comments == old(comments)
      ensures loaded == old(loaded) && isLiked == old(isLiked) && likeCount == old(likeCount)
      ensures likeRequests == old(likeRequests)
    {
      var text := Trim(newComment);
      if text == "" {
        return;
      }
      if uid.None? {
        return;
      }
      inserted := inserted + [NewComment(text, postId, uid.value)];
      if !insertOk {
        return;
      }
      newComment := "";
      FetchComments(refetched);
    }
  }
}
