/**
 * The discussion board (`src/pages/Discussions.tsx`): a feed loaded ten
 * posts at a time, an optimistic like button that is undone when the
 * backend refuses, and a new-post form. The backend's answers (the rows of
 * a page, whether an insert or delete succeeded, the signed-in user) are
 * inputs.
 */
module Discussions {
  import opened Wrappers
  import opened Strings

  const PostsPerPage: nat := 10

  /** One `likes` row joined to a post. */
  datatype LikeRow = LikeRow(id: string, authorId: string)

  /**
   * A post row as the query returns it. The joined `likes` and `comments`
   * are None when they are not arrays; `userLiked` is None when missing.
   */
  datatype PostRow = PostRow(
    id: string, title: string, content: string, createdAt: string, isAnonymous: bool, authorId: string,
    username: Option<string>,
    likes: Option<seq<string>>,
    comments: Option<seq<string>>,
    userLiked: Option<seq<LikeRow>>)

  /** A post as the page keeps it. `userHasLiked` is None when the row had no `user_liked`. */
  datatype Post = Post(
    id: string, title: string, content: string, createdAt: string, isAnonymous: bool, authorId: string,
    authorName: Option<string>, likeCount: int, commentCount: int, userHasLiked: Option<bool>)

  /** The outcome of the page query: an error, no data, or the rows. */
  datatype FetchResult = QueryError | NoData | Rows(rows: seq<PostRow>)

  /** The inclusive row range `[from, to]` requested for a page. */
  function PageRange(page: nat): (r: (nat, nat))
    ensures r.1 - r.0 + 1 == PostsPerPage
    ensures r.0 == page * PostsPerPage
  {
    var from := page * PostsPerPage;
    (from, from + PostsPerPage - 1)
  }

  /** Consecutive pages request adjacent, non-overlapping ranges. */
  lemma PagesTile(page: nat)
    ensures PageRange(page + 1).0 == PageRange(page).1 + 1
  {
  }

  /** Whether one of the row's `user_liked` entries is by the user (`user?.id`, None when signed out). */
  predicate LikedBy(likes: seq<LikeRow>, uid: Option<string>) {
    exists i :: 0 <= i < |likes| && uid == Some(likes[i].authorId)
  }

  /** `Array.isArray(a) ? a.length : 0`. */
  function CountOf<T>(a: Option<seq<T>>): nat {
    if a.Some? then |a.value| else 0
  }

  /** `formattedPosts`' mapping of one row. */
  function Format(row: PostRow, uid: Option<string>): (p: Post)
    ensures p.id == row.id && p.likeCount == CountOf(row.likes) && p.commentCount == CountOf(row.comments)
    ensures p.userHasLiked.Some? <==> row.userLiked.Some?
    ensures p.userHasLiked == Some(true) <==> row.userLiked.Some? && LikedBy(row.userLiked.value, uid)
    // the rest of the row is spread into the post unchanged
    ensures p.title == row.title && p.content == row.content && p.createdAt == row.createdAt
    ensures p.isAnonymous == row.isAnonymous && p.authorId == row.authorId && p.authorName == row.username
  {
    Post(row.id, row.title, row.content, row.createdAt, row.isAnonymous, row.authorId,
         row.username, CountOf(row.likes), CountOf(row.comments),
         if row.userLiked.Some? then Some(LikedBy(row.userLiked.value, uid)) else None)
  }

  function FormatPosts(rows: seq<PostRow>, uid: Option<string>): (r: seq<Post>)
    ensures |r| == |rows|
  {
    seq(|rows|, i requires 0 <= i < |rows| => Format(rows[i], uid))
  }

  /** Formatting two batches one after the other is formatting them together. */
  lemma FormatPostsAppend(a: seq<PostRow>, b: seq<PostRow>, uid: Option<string>)
    ensures FormatPosts(a + b, uid) == FormatPosts(a, uid) + FormatPosts(b, uid)
  {
    var l := FormatPosts(a + b, uid);
    var r := FormatPosts(a, uid) + FormatPosts(b, uid);
    assert forall i :: 0 <= i < |l| ==> l[i] == r[i] by {
      forall i | 0 <= i < |l|
        ensures l[i] == r[i]
      {
        if i < |a| {
          assert (a + b)[i] == a[i];
        } else {
          assert (a + b)[i] == b[i - |a|];
        }
      }
    }
  }

  /** The liked flag written for a row: `user_liked?.some(...) || false`. */
  function RowLiked(row: PostRow, uid: Option<string>): bool {
    row.userLiked.Some? && LikedBy(row.userLiked.value, uid)
  }

  /** The `reduce` over the rows: each row's id maps to its liked flag, a later row overwriting an earlier one. */
  function LikedMap(rows: seq<PostRow>, uid: Option<string>): (m: map<string, Option<bool>>)
    decreases |rows|
  {
    if |rows| == 0 then map[]
    else LikedMap(rows[..|rows| - 1], uid)[rows[|rows| - 1].id := Some(RowLiked(rows[|rows| - 1], uid))]
  }

  /** The map's keys are exactly the rows' ids. */
  lemma {:induction false} LikedMapKeys(rows: seq<PostRow>, uid: Option<string>)
    ensures forall id :: id in LikedMap(rows, uid) <==> exists i :: 0 <= i < |rows| && rows[i].id == id
    decreases |rows|
  {
    if |rows| > 0 {
      var init := rows[..|rows| - 1];
      LikedMapKeys(init, uid);
      forall id
        ensures id in LikedMap(rows, uid) <==> exists i :: 0 <= i < |rows| && rows[i].id == id
      {
        if exists i :: 0 <= i < |init| && init[i].id == id {
          var i :| 0 <= i < |init| && init[i].id == id;
          assert rows[i].id == id;
        }
        if exists i :: 0 <= i < |rows| && rows[i].id == id {
          var i :| 0 <= i < |rows| && rows[i].id == id;
          if i < |init| {
            assert init[i].id == id;
          }
        }
      }
    }
  }

  /** With distinct ids, every post's entry in the map agrees with that post's own flag. */
  lemma {:induction false} LikedMapAgrees(rows: seq<PostRow>, uid: Option<string>, j: nat)
    requires j < |rows|
    requires forall a, b :: 0 <= a < b < |rows| ==> rows[a].id != rows[b].id
    ensures rows[j].id in LikedMap(rows, uid)
    ensures LikedMap(rows, uid)[rows[j].id] == Some(Format(rows[j], uid).userHasLiked.GetOr(false))
    decreases |rows|
  {
    if j < |rows| - 1 {
      var init := rows[..|rows| - 1];
      assert init[j] == rows[j];
      LikedMapAgrees(init, uid, j);
    }
  }

  /** Builds the liked map with a loop over the rows. */
  method BuildLikedMap(rows: seq<PostRow>, uid: Option<string>) returns (m: map<string, Option<bool>>)
    ensures m == LikedMap(rows, uid)
  {
    m := map[];
    var k := 0;
    while k < |rows|
      invariant 0 <= k <= |rows|
      invariant m == LikedMap(rows[..k], uid)
    {
      assert rows[..k + 1][..k] == rows[..k];
      m := m[rows[k].id := Some(RowLiked(rows[k], uid))];
      k := k + 1;
    }
    assert rows[..|rows|] == rows;
  }

  /** The part of the page a fetch changes. */
  datatype Feed = Feed(posts: seq<Post>, likedPosts: map<string, Option<bool>>, hasMore: bool)

  /**
   * `fetchPosts(page)` on the feed: with rows, the liked map is replaced,
   * page 0 replaces the posts and later pages append, and more pages are
   * expected exactly when this one was full. An error or no data changes
   * nothing.
   */
  function FetchStep(f: Feed, page: nat, uid: Option<string>, result: FetchResult): (r: Feed)
    ensures !result.Rows? ==> r == f
    ensures result.Rows? ==> (r.hasMore <==> |result.rows| == PostsPerPage)
    ensures result.Rows? ==> r.likedPosts == LikedMap(result.rows, uid)
    ensures result.Rows? && page == 0 ==> r.posts == FormatPosts(result.rows, uid)
    ensures result.Rows? && page > 0 ==>
              |r.posts| == |f.posts| + |result.rows|
              && r.posts[..|f.posts|] == f.posts && r.posts[|f.posts|..] == FormatPosts(result.rows, uid)
  {
    match result
    case Rows(rows) =>
      var formatted := FormatPosts(rows, uid);
      Feed(if page == 0 then formatted else f.posts + formatted, LikedMap(rows, uid), |rows| == PostsPerPage)
    case _ => f
  }

  /** Loading page 0 then page 1 shows both pages' posts in order, whatever was shown before. */
  lemma TwoPagesConcatenate(f: Feed, uid: Option<string>, first: seq<PostRow>, second: seq<PostRow>)
    ensures FetchStep(FetchStep(f, 0, uid, Rows(first)), 1, uid, Rows(second)).posts == FormatPosts(first + second, uid)
  {
    FormatPostsAppend(first, second, uid);
  }

  /** No two posts share an id. */
  predicate DistinctIds(posts: seq<Post>) {
    forall i, j :: 0 <= i < j < |posts| ==> posts[i].id != posts[j].id
  }

  /** Every post shown has a liked flag, and it is the post's own `user_has_liked`. */
  predicate LikesShown(f: Feed) {
    forall i :: 0 <= i < |f.posts| ==>
      f.posts[i].id in f.likedPosts && f.likedPosts[f.posts[i].id] == Some(f.posts[i].userHasLiked.GetOr(false))
  }

  /**
   * As written, loading a second page drops the flags of the first: a post
   * of page 0 that the user liked is still shown, marked as liked in its
   * own row, but `likedPosts` no longer has it, so its button reads as not
   * liked (and a click would like it again).
   */
  lemma FetchStepForgetsEarlierLikes(f: Feed)
    ensures var uid := Some("u");
            var a := PostRow("a", "", "", "", false, "", None, Some(["l"]), Some([]), Some([LikeRow("l", "u")]));
            var b := PostRow("b", "", "", "", false, "", None, Some([]), Some([]), Some([]));
            var g := FetchStep(FetchStep(f, 0, uid, Rows([a])), 1, uid, Rows([b]));
            && g.posts == [Format(a, uid), Format(b, uid)]
            && g.posts[0].userHasLiked == Some(true)
            && LikedValue(g.likedPosts, "a") == None
            && !LikesShown(g)
  {
    var uid := Some("u");
    var a := PostRow("a", "", "", "", false, "", None, Some(["l"]), Some([]), Some([LikeRow("l", "u")]));
    var b := PostRow("b", "", "", "", false, "", None, Some([]), Some([]), Some([]));
    assert LikedBy(a.userLiked.value, uid) by {
      assert uid == Some(a.userLiked.value[0].authorId);
    }
    var g := FetchStep(FetchStep(f, 0, uid, Rows([a])), 1, uid, Rows([b]));
    LikedMapKeys([b], uid);
    assert "a" !in g.likedPosts;
  }

  /**
   * The evidently intended fetch: a later page adds its flags to those
   * already shown instead of replacing them (page 0 still starts afresh).
   */
  function FetchStepMerged(f: Feed, page: nat, uid: Option<string>, result: FetchResult): (r: Feed)
    ensures r.posts == FetchStep(f, page, uid, result).posts && r.hasMore == FetchStep(f, page, uid, result).hasMore
  {
    match result
    case Rows(rows) =>
      var formatted := FormatPosts(rows, uid);
      var earlier := if page == 0 then map[] else f.likedPosts;
      Feed(if page == 0 then formatted else f.posts + formatted, earlier + LikedMap(rows, uid), |rows| == PostsPerPage)
    case _ => f
  }

  /**
   * With distinct post ids, the merged fetch keeps every shown post's
   * button in step with the post's own liked flag, page after page.
   */
  lemma MergedFetchKeepsLikesShown(f: Feed, page: nat, uid: Option<string>, result: FetchResult)
    requires LikesShown(f)
    requires result.Rows? ==> DistinctIds((if page == 0 then [] else f.posts) + FormatPosts(result.rows, uid))
    ensures LikesShown(FetchStepMerged(f, page, uid, result))
  {
    if result.Rows? {
      var rows := result.rows;
      var full := |rows| == PostsPerPage;
      if page == 0 {
        assert [] + FormatPosts(rows, uid) == FormatPosts(rows, uid);
        assert FetchStepMerged(f, page, uid, result) == Feed([] + FormatPosts(rows, uid), map[] + LikedMap(rows, uid), full);
        AppendPageKeepsLikesShown(Feed([], map[], full), rows, uid);
      } else {
        assert FetchStepMerged(f, page, uid, result) == Feed(f.posts + FormatPosts(rows, uid), f.likedPosts + LikedMap(rows, uid), full);
        AppendPageKeepsLikesShown(Feed(f.posts, f.likedPosts, full), rows, uid);
      }
    }
  }

  /** Appending a page of rows, and their flags over the earlier ones, keeps every shown flag right. */
  lemma AppendPageKeepsLikesShown(f: Feed, rows: seq<PostRow>, uid: Option<string>)
    requires LikesShown(f)
    requires DistinctIds(f.posts + FormatPosts(rows, uid))
    ensures LikesShown(Feed(f.posts + FormatPosts(rows, uid), f.likedPosts + LikedMap(rows, uid), f.hasMore))
  {
    var kept := f.posts;
    var all := kept + FormatPosts(rows, uid);
    var earlier := f.likedPosts;
    var m := LikedMap(rows, uid);
    forall i | 0 <= i < |all|
      ensures all[i].id in earlier + m && (earlier + m)[all[i].id] == Some(all[i].userHasLiked.GetOr(false))
    {
      if i < |kept| {
        KeptPostNotReloaded(kept, rows, uid, i);
        assert all[i] == kept[i];
        UnionKeepsEarlier(earlier, m, kept[i].id);
      } else {
        NewPostAgrees(kept, rows, uid, i - |kept|);
        UnionTakesLater(earlier, m, all[i].id);
      }
    }
  }

  /** An id the later map lacks keeps its earlier entry in the union. */
  lemma UnionKeepsEarlier(earlier: map<string, Option<bool>>, later: map<string, Option<bool>>, id: string)
    requires id !in later
    ensures id in earlier + later <==> id in earlier
    ensures id in earlier ==> (earlier + later)[id] == earlier[id]
  {
  }

  /** An id the later map has takes its later entry in the union. */
  lemma UnionTakesLater(earlier: map<string, Option<bool>>, later: map<string, Option<bool>>, id: string)
    requires id in later
    ensures id in earlier + later && (earlier + later)[id] == later[id]
  {
  }

  /** A post already shown whose id no new row repeats keeps its entry out of the new rows' map. */
  lemma KeptPostNotReloaded(kept: seq<Post>, rows: seq<PostRow>, uid: Option<string>, i: nat)
    requires i < |kept|
    requires DistinctIds(kept + FormatPosts(rows, uid))
    ensures kept[i].id !in LikedMap(rows, uid)
  {
    var all := kept + FormatPosts(rows, uid);
    LikedMapKeys(rows, uid);
    forall j | 0 <= j < |rows|
      ensures rows[j].id != kept[i].id
    {
      assert all[i] == kept[i] && all[|kept| + j].id == rows[j].id;
    }
  }

  /** A post of the new page finds its own flag in the new rows' map. */
  lemma NewPostAgrees(kept: seq<Post>, rows: seq<PostRow>, uid: Option<string>, j: nat)
    requires j < |rows|
    requires DistinctIds(kept + FormatPosts(rows, uid))
    ensures var p := (kept + FormatPosts(rows, uid))[|kept| + j];
            p.id in LikedMap(rows, uid) && LikedMap(rows, uid)[p.id] == Some(p.userHasLiked.GetOr(false))
  {
    var all := kept + FormatPosts(rows, uid);
    forall a, b | 0 <= a < b < |rows|
      ensures rows[a].id != rows[b].id
    {
      assert all[|kept| + a].id == rows[a].id && all[|kept| + b].id == rows[b].id;
    }
    assert all[|kept| + j] == Format(rows[j], uid);
    LikedMapAgrees(rows, uid, j);
  }

  /** What `createPost` inserts. */
  datatype NewPost = NewPost(title: string, content: string, authorId: string, isAnonymous: bool)

  /** `post.likes[0].count + delta` for the post with the id, other posts unchanged. */
  function AdjustLikes(posts: seq<Post>, postId: string, delta: int): (r: seq<Post>)
    ensures |r| == |posts|
    ensures forall i :: 0 <= i < |posts| ==>
              if posts[i].id == postId then r[i] == posts[i].(likeCount := posts[i].likeCount + delta)
              else r[i] == posts[i]
  {
    seq(|posts|, i requires 0 <= i < |posts| =>
      if posts[i].id == postId then posts[i].(likeCount := posts[i].likeCount + delta) else posts[i])
  }

  /** Undoing an adjustment with the opposite delta restores the posts. */
  lemma AdjustLikesUndo(posts: seq<Post>, postId: string, delta: int)
    ensures AdjustLikes(AdjustLikes(posts, postId, delta), postId, -delta) == posts
  {
    var r := AdjustLikes(AdjustLikes(posts, postId, delta), postId, -delta);
    assert forall i :: 0 <= i < |posts| ==> r[i] == posts[i];
  }

  /** `likedPosts[postId]`: missing keys read as undefined (None). */
  function LikedValue(m: map<string, Option<bool>>, postId: string): Option<bool> {
    if postId in m then m[postId] else None
  }

  /** A request to the `likes` table: delete the author's like of a post, or insert one. */
  datatype LikeRequest =
    | Unlike(postId: string, authorId: string)
    | Like(postId: string, authorId: string)

  /** `createPost` goes ahead only with a non-blank title, a non-blank content and a signed-in user. */
  predicate CanPost(title: string, content: string, uid: Option<string>) {
    Trim(title) != "" && Trim(content) != "" && uid.Some?
  }

  class DiscussionsPage {
    var posts: seq<Post>
    var likedPosts: map<string, Option<bool>>
    var currentPage: nat
    var hasMore: bool
    var loading: bool
    var isModalOpen: bool
    var newPostTitle: string
    var newPostContent: string
    var isAnonymous: bool
    /** Ranges requested from the backend, oldest first. */
    var queries: seq<(nat, nat)>
    /** Posts inserted, oldest first. */
    var inserted: seq<NewPost>
    /** Like and unlike requests sent, oldest first. */
    var likeRequests: seq<LikeRequest>

    function CurrentFeed(): Feed
      reads this
    {
      Feed(posts, likedPosts, hasMore)
    }

    constructor ()
      ensures posts == [] && likedPosts == map[] && currentPage == 0 && hasMore && !loading
      ensures !isModalOpen && newPostTitle == "" && newPostContent == "" && !isAnonymous
      ensures queries == [] && inserted == [] && likeRequests == []
    {
      posts := [];
      likedPosts := map[];
      currentPage := 0;
      hasMore := true;
      loading := false;
      isModalOpen := false;
      newPostTitle := "";
      newPostContent := "";
      isAnonymous := false;
      queries := [];
      inserted := [];
      likeRequests := [];
    }

    /** `fetchPosts(page)` with `uid` the signed-in user's id and `result` the query's answer. */
    method FetchPosts(page: nat, uid: Option<string>, result: FetchResult)
      modifies this
      ensures CurrentFeed() == FetchStep(old(CurrentFeed()), page, uid, result)
      ensures queries == old(queries) + [PageRange(page)]
      ensures !loading
      ensures currentPage == old(currentPage) && inserted == old(inserted) && likeRequests == old(likeRequests)
      ensures isModalOpen == old(isModalOpen) && isAnonymous == old(isAnonymous)
      ensures newPostTitle == old(newPostTitle) && newPostContent == old(newPostContent)
    {
      loading := true;
      queries := queries + [PageRange(page)];
      if result.Rows? {
        var formatted := FormatPosts(result.rows, uid);
        likedPosts := BuildLikedMap(result.rows, uid);
        if page == 0 {
          posts := formatted;
        } else {
          posts := posts + formatted;
        }
        hasMore := |result.rows| == PostsPerPage;
      }
      loading := false;
    }

    /** `handleScroll`: at the bottom of the page, the next page is requested only when there is more and nothing is loading. */
    method HandleScroll(atBottom: bool)
      modifies this
      ensures currentPage == if atBottom && old(hasMore) && !old(loading) then old(currentPage) + 1 else old(currentPage)
      ensures posts == old(posts) && likedPosts == old(likedPosts) && hasMore == old(hasMore) && loading == old(loading)
      ensures queries == old(queries) && inserted == old(inserted) && likeRequests == old(likeRequests)
      ensures isModalOpen == old(isModalOpen) && isAnonymous == old(isAnonymous)
      ensures newPostTitle == old(newPostTitle) && newPostContent == old(newPostContent)
    {
      if atBottom && hasMore && !loading {
        currentPage := currentPage + 1;
      }
    }

    /**
     * `handleLike`: signed out, nothing happens. Signed in, the flag flips
     * and only that post's count moves by one; if the backend then refuses,
     * the flag and the count are put back.
     */
    method HandleLike(postId: string, uid: Option<string>, backendOk: bool)
      modifies this
      ensures uid.None? ==> posts == old(posts) && likedPosts == old(likedPosts) && likeRequests == old(likeRequests)
      // signed in, the caller's like is deleted exactly when the post was shown as liked, and inserted otherwise
      ensures uid.Some? ==>
                likeRequests == old(likeRequests) +
                  [if LikedValue(old(likedPosts), postId) == Some(true) then Unlike(postId, uid.value) else Like(postId, uid.value)]
      ensures uid.Some? && backendOk ==>
                var wasLiked := LikedValue(old(likedPosts), postId) == Some(true);
                && likedPosts == old(likedPosts)[postId := Some(!wasLiked)]
                && posts == AdjustLikes(old(posts), postId, if wasLiked then -1 else 1)
      ensures uid.Some? && !backendOk ==>
                && posts == old(posts)
                && likedPosts == old(likedPosts)[postId := LikedValue(old(likedPosts), postId)]
                && (forall id :: LikedValue(likedPosts, id) == LikedValue(old(likedPosts), id))
      ensures currentPage == old(currentPage) && hasMore == old(hasMore) && loading == old(loading)
      ensures queries == old(queries) && inserted == old(inserted)
      ensures isModalOpen == old(isModalOpen) && isAnonymous == old(isAnonymous)
      ensures newPostTitle == old(newPostTitle) && newPostContent == old(newPostContent)
    {
      if uid.None? {
        return;
      }
      var isCurrentlyLiked := LikedValue(likedPosts, postId);
      var wasLiked := isCurrentlyLiked == Some(true);
      likeRequests := likeRequests + [if wasLiked then Unlike(postId, uid.value) else Like(postId, uid.value)];
      // optimistic update
      likedPosts := likedPosts[postId := Some(!wasLiked)];
      posts := AdjustLikes(posts, postId, if wasLiked then -1 else 1);
      if !backendOk {
        // revert
        likedPosts := likedPosts[postId := isCurrentlyLiked];
        AdjustLikesUndo(old(posts), postId, if wasLiked then -1 else 1);
        posts := AdjustLikes(posts, postId, if wasLiked then 1 else -1);
      }
    }

    /**
     * `createPost`: nothing happens unless both trimmed fields are non-empty
     * and a user is signed in. Otherwise the trimmed values are inserted; on
     * success the modal closes, the form resets and page 0 is reloaded.
     */
    method CreatePost(uid: Option<string>, insertOk: bool, refetched: FetchResult)
      modifies this
      ensures !CanPost(old(newPostTitle), old(newPostContent), uid) ==>
                && inserted == old(inserted) && CurrentFeed() == old(CurrentFeed()) && queries == old(queries)
                && loading == old(loading) && isModalOpen == old(isModalOpen) && isAnonymous == old(isAnonymous)
                && newPostTitle == old(newPostTitle) && newPostContent == old(newPostContent)
      ensures CanPost(old(newPostTitle), old(newPostContent), uid) ==>
                inserted == old(inserted) + [NewPost(Trim(old(newPostTitle)), Trim(old(newPostContent)), uid.value, old(isAnonymous))]
      ensures CanPost(old(newPostTitle), old(newPostContent), uid) && insertOk ==>
                && !isModalOpen && newPostTitle == "" && newPostContent == "" && !isAnonymous
                && CurrentFeed() == FetchStep(old(CurrentFeed()), 0, uid, refetched)
                && queries == old(queries) + [PageRange(0)] && !loading
      ensures CanPost(old(newPostTitle), old(newPostContent), uid) && !insertOk ==>
                && CurrentFeed() == old(CurrentFeed()) && queries == old(queries) && loading == old(loading)
                && isModalOpen == old(isModalOpen) && isAnonymous == old(isAnonymous)
                && newPostTitle == old(newPostTitle) && newPostContent == old(newPostContent)
      ensures currentPage == old(currentPage) && likeRequests == old(likeRequests)
    {
      var title := Trim(newPostTitle);
      var content := Trim(newPostContent);
      if title == "" || content == "" {
        return;
      }
      if uid.None? {
        return;
      }
      assert CanPost(newPostTitle, newPostContent, uid);
      inserted := inserted + [NewPost(title, content, uid.value, isAnonymous)];
      if !insertOk {
        return;
      }
      assert CurrentFeed() == old(CurrentFeed());
      CloseAndReload(uid, refetched);
    }

    /** The end of a successful `createPost`: the modal closes, the form resets and page 0 is reloaded. */
    method CloseAndReload(uid: Option<string>, refetched: FetchResult)
      modifies this
      ensures !isModalOpen && newPostTitle == "" && newPostContent == "" && !isAnonymous
      ensures CurrentFeed() == FetchStep(old(CurrentFeed()), 0, uid, refetched)
      ensures queries == old(queries) + [PageRange(0)] && !loading
      ensures currentPage == old(currentPage) && inserted == old(inserted) && likeRequests == old(likeRequests)
    {
      isModalOpen := false;
      newPostTitle := "";
      newPostContent := "";
      isAnonymous := false;
      assert CurrentFeed() == old(CurrentFeed());
      FetchPosts(0, uid, refetched);
    }
  }

  /** A like followed by a refused backend call leaves every post and every flag as it was. */
  lemma LikeThenRevertIsIdentity(posts: seq<Post>, liked: map<string, Option<bool>>, postId: string)
    ensures var wasLiked := LikedValue(liked, postId) == Some(true);
            AdjustLikes(AdjustLikes(posts, postId, if wasLiked then -1 else 1), postId, if wasLiked then 1 else -1) == posts
    // every flag reads as before; the map itself is unchanged when it already had the post
    ensures var back := liked[postId := Some(LikedValue(liked, postId) != Some(true))][postId := LikedValue(liked, postId)];
            && (forall id :: LikedValue(back, id) == LikedValue(liked, id))
            && (postId in liked ==> back == liked)
  {
    var wasLiked := LikedValue(liked, postId) == Some(true);
    AdjustLikesUndo(posts, postId, if wasLiked then -1 else 1);
  }
}
