/** The post detail page: a like button, and a comment list shown five at a time
    until the reader asks for all of it. */
module FeedDetails {

  import opened Wrappers
  import opened JsText

  const CommentsLimit: nat := 5

  /** A comment as the server returns it (its contents are only displayed). */
  datatype Comment = Comment(id: string, content: string, userId: string)

  /** The part of the loaded post the page changes: its `postId`, its likes and
      the placeholder array that stands for its comment count. */
  datatype DetailPost = DetailPost(postId: string, likes: seq<string>, commentSlots: nat)

  /** A request the page sent. */
  datatype Request =
    | AddCommentRequest(postId: string, text: string, userId: string)
    | LikeRequest(postId: string, userId: string)

  /** `updateDisplayedComments`: all comments when expanded or when there are at
      most five, otherwise the first five. */
  function DisplayedComments(comments: seq<Comment>, showAll: bool): (r: seq<Comment>)
    ensures |r| == if showAll || |comments| <= CommentsLimit then |comments| else CommentsLimit
    ensures r == comments[..|r|]
  {
    if showAll || |comments| <= CommentsLimit then comments else comments[..CommentsLimit]
  }

  /** `shouldShowViewMoreButton` */
  predicate ShowViewMore(comments: seq<Comment>, showAll: bool) {
    |comments| > CommentsLimit && !showAll
  }

  /** `shouldShowShowLessButton` */
  predicate ShowShowLess(comments: seq<Comment>, showAll: bool) {
    |comments| > CommentsLimit && showAll
  }

  /** The two buttons never show together, neither shows for five comments or
      fewer, and one of them shows otherwise. */
  lemma ButtonsExclusive(comments: seq<Comment>, showAll: bool)
    ensures !(ShowViewMore(comments, showAll) && ShowShowLess(comments, showAll))
    ensures |comments| <= CommentsLimit ==> !ShowViewMore(comments, showAll) && !ShowShowLess(comments, showAll)
    ensures |comments| > CommentsLimit ==> ShowViewMore(comments, showAll) || ShowShowLess(comments, showAll)
  {
  }

  /** "View more" shows exactly when some comment is hidden. */
  lemma ViewMoreIffHidden(comments: seq<Comment>, showAll: bool)
    ensures ShowViewMore(comments, showAll) <==> |DisplayedComments(comments, showAll)| < |comments|
  {
  }

  /** A new comment goes to the front, so the window always starts with it. */
  lemma NewCommentShownFirst(comments: seq<Comment>, c: Comment, showAll: bool)
    ensures DisplayedComments([c] + comments, showAll)[0] == c
    ensures |DisplayedComments([c] + comments, showAll)| >= |DisplayedComments(comments, showAll)|
  {
  }

  class FeedDetailsComponent {
    var post: Option<DetailPost>
    /** The signed-in user's id, if a user is signed in ("" when the user has none). */
    var currentUserId: Option<string>
    var isLoggedIn: bool
    var comments: seq<Comment>
    var displayedComments: seq<Comment>
    var showAllComments: bool
    var newComment: string
    var hasLiked: bool
    var isLiking: bool
    var isCommenting: bool
    var showLikeSnackbar: bool
    /** Requests sent to the server, oldest first. */
    var requests: seq<Request>

    /** The comment window matches the comments and the toggle. */
    predicate WindowShown()
      reads this
    {
      displayedComments == DisplayedComments(comments, showAllComments)
    }

    constructor(currentUserId: Option<string>)
      ensures WindowShown()
      ensures this.currentUserId == currentUserId && post.None? && comments == [] && displayedComments == []
      ensures !showAllComments && newComment == "" && !isLiking && !isCommenting && !hasLiked
      ensures isLoggedIn <==> currentUserId.Some? && currentUserId.value != ""
      ensures requests == [] && !showLikeSnackbar
    {
      this.currentUserId := currentUserId;
      post := None;
      isLoggedIn := currentUserId.Some? && currentUserId.value != "";
      comments := [];
      displayedComments := [];
      showAllComments := false;
      newComment := "";
      hasLiked := false;
      isLiking := false;
      isCommenting := false;
      showLikeSnackbar := false;
      requests := [];
    }

    method UpdateDisplayedComments()
      modifies this`displayedComments
      ensures WindowShown()
    {
      if showAllComments || |comments| <= CommentsLimit {
        displayedComments := comments;
      } else {
        displayedComments := comments[..CommentsLimit];
      }
    }

    /** `toggleComments`: the window after a toggle depends only on the comments and
        the new flag, so toggling twice restores both the flag and the window. */
    method ToggleComments()
      modifies this`showAllComments, this`displayedComments
      ensures showAllComments == !old(showAllComments)
      ensures WindowShown()
    {
      showAllComments := !showAllComments;
      UpdateDisplayedComments();
    }

    /** The comments the server returned for the post. */
    method OnCommentsLoaded(loaded: seq<Comment>)
      modifies this`comments, this`displayedComments
      ensures comments == loaded && WindowShown()
    {
      comments := loaded;
      UpdateDisplayedComments();
    }

    /** A failed or empty comments response clears the list but, as written,
        leaves the window as it was. */
    method OnCommentsFailed()
      modifies this`comments
      ensures comments == []
    {
      comments := [];
    }

    /** `addComment` up to sending the request: refused for blank text, a signed-out
        reader, a missing post id, a comment in flight or a user without an id. */
    method AddComment()
      modifies this`isCommenting, this`requests
      ensures var send := !IsBlank(newComment) && isLoggedIn && post.Some? && post.value.postId != ""
                          && !old(isCommenting) && currentUserId.Some? && currentUserId.value != "";
        && (send ==> (isCommenting && requests == old(requests)
                      + [AddCommentRequest(post.value.postId, Trim(newComment), currentUserId.value)]))
        && (!send ==> isCommenting == old(isCommenting) && requests == old(requests))
    {
      if IsBlank(newComment) || !isLoggedIn || post.None? || post.value.postId == "" || isCommenting
         || currentUserId.None? || currentUserId.value == "" {
        return;
      }
      isCommenting := true;
      requests := requests + [AddCommentRequest(post.value.postId, Trim(newComment), currentUserId.value)];
    }

    /** The response to an added comment: `success`, the comment and `commentCount`
        (0 when absent). */
    method OnCommentAdded(success: bool, comment: Option<Comment>, commentCount: nat)
      modifies this`comments, this`displayedComments, this`post, this`newComment, this`isCommenting
      ensures !isCommenting
      ensures success && comment.Some? ==>
        && comments == [comment.value] + old(comments) && WindowShown() && newComment == ""
        && post == (if old(post).Some? && commentCount > 0
                    then Some(old(post).value.(commentSlots := commentCount)) else old(post))
      ensures !(success && comment.Some?) ==>
        comments == old(comments) && displayedComments == old(displayedComments)
        && post == old(post) && newComment == old(newComment)
    {
      if success && comment.Some? {
        comments := [comment.value] + comments;
        UpdateDisplayedComments();
        if post.Some? && commentCount > 0 {
          post := Some(post.value.(commentSlots := commentCount));
        }
        newComment := "";
      }
      isCommenting := false;
    }

    method OnCommentError()
      modifies this`isCommenting
      ensures !isCommenting
    {
      isCommenting := false;
    }

    /** `likePost` up to sending the request: a signed-out reader only sees the
        snackbar; otherwise nothing happens without a post id or while a like is
        in flight. */
    method LikePost()
      modifies this`showLikeSnackbar, this`isLiking, this`requests
      ensures !isLoggedIn ==> showLikeSnackbar && isLiking == old(isLiking) && requests == old(requests)
      ensures isLoggedIn ==> showLikeSnackbar == old(showLikeSnackbar)
      ensures var send := isLoggedIn && post.Some? && post.value.postId != "" && currentUserId.Some?
                          && currentUserId.value != "" && !old(isLiking);
        && (send ==> isLiking && requests == old(requests) + [LikeRequest(post.value.postId, currentUserId.value)])
        && (!send ==> isLiking == old(isLiking) && requests == old(requests))
    {
      if !isLoggedIn {
        showLikeSnackbar := true;
        return;
      }
      if post.None? || post.value.postId == "" || currentUserId.None? || currentUserId.value == "" || isLiking {
        return;
      }
      isLiking := true;
      requests := requests + [LikeRequest(post.value.postId, currentUserId.value)];
    }

    /** The response to a like: `success`, `liked` and the new `likes` (if any). */
    method OnLikeResponse(success: bool, liked: bool, likes: Option<seq<string>>)
      modifies this`hasLiked, this`post, this`isLiking
      ensures !isLiking
      ensures success ==> (hasLiked == liked
        && post == (if old(post).Some? then Some(old(post).value.(likes := likes.GetOr([]))) else None))
      ensures !success ==> hasLiked == old(hasLiked) && post == old(post)
    {
      if success {
        hasLiked := liked;
        if post.Some? {
          post := Some(post.value.(likes := likes.GetOr([])));
        }
      }
      isLiking := false;
    }

    method OnLikeError()
      modifies this`isLiking
      ensures !isLiking
    {
      isLiking := false;
    }

    /** `likeCount` */
    function LikeCount(): (n: nat)
      reads this
      ensures post.None? ==> n == 0
      ensures post.Some? ==> n == |post.value.likes|
    {
      if post.Some? then |post.value.likes| else 0
    }

    /** `commentCount` */
    function CommentCount(): (n: nat)
      reads this
      ensures n == |comments|
      ensures WindowShown() ==> n >= |displayedComments|
    {
      |comments|
    }
  }
}
