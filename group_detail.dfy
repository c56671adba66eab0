/** The group page: its posts, loaded ten at a time with a first load that
    replaces the list and further loads that append to it, plus per-post comment
    threads and the moderation and membership checks. */
module GroupDetail {

  import opened Wrappers
  import opened JsText

  const PostsPerPage: nat := 10

  datatype PostComment = PostComment(id: string, content: string)

  /** A group post with the two view fields the page adds to it: whether its
      comments are open, and the comment being typed. A missing comment count is 0. */
  datatype GroupPost = GroupPost(
    id: string,
    content: string,
    comments: seq<PostComment>,
    commentCount: nat,
    showComments: bool,
    newComment: string)

  /** The loaded group; the membership fields are "" when the reader has no membership. */
  datatype Group = Group(id: string, membershipStatus: string, membershipRole: string)

  /** A request the page sent. */
  datatype Request =
    | PostsRequest(groupId: string, page: int, limit: nat, postType: Option<string>, sortBy: string)
    | CommentRequest(postId: string, text: string)

  /** The view fields every post of a response starts with. */
  function Fresh(p: GroupPost): (r: GroupPost)
    ensures !r.showComments && r.newComment == ""
    ensures r.id == p.id && r.content == p.content && r.comments == p.comments && r.commentCount == p.commentCount
  {
    p.(showComments := false, newComment := "")
  }

  /** `response.posts.map(...)` */
  function FreshPosts(ps: seq<GroupPost>): (r: seq<GroupPost>)
    ensures |r| == |ps|
    ensures forall k :: 0 <= k < |ps| ==> r[k] == Fresh(ps[k])
  {
    if ps == [] then [] else [Fresh(ps[0])] + FreshPosts(ps[1..])
  }

  /** A post once the server has accepted comment `c`: the comment is appended,
      the count goes up by one (from 0 when it was missing) and the input is cleared. */
  function WithComment(p: GroupPost, c: PostComment): (r: GroupPost)
    ensures r.comments == p.comments + [c] && r.comments[|r.comments| - 1] == c
    ensures r.commentCount == p.commentCount + 1 && r.newComment == ""
    ensures r.id == p.id && r.content == p.content && r.showComments == p.showComments
  {
    p.(comments := p.comments + [c], commentCount := p.commentCount + 1, newComment := "")
  }

  /** `isGroupMember`: a loaded group whose membership is active. */
  function IsGroupMember(group: Option<Group>): (b: bool)
    ensures b <==> group.Some? && group.value.membershipStatus == "active"
  {
    match group
    case None => false
    case Some(g) => g.membershipStatus == "active"
  }

  /** Membership and moderation are separate checks: a group moderator whose
      membership is still pending may moderate posts yet is not a member. */
  lemma ModerationWithoutMembership(id: string)
    ensures var g := Some(Group(id, "pending", "moderator"));
      CanModeratePost(g, None) && !IsGroupMember(g)
  {
  }

  /** `canModeratePost`: a group admin or moderator, or a platform admin, may
      moderate any post of the group. */
  function CanModeratePost(group: Option<Group>, userRole: Option<string>): (b: bool)
    ensures userRole == Some("admin") ==> b
    ensures group.None? ==> (b <==> userRole == Some("admin"))
    ensures group.Some? && group.value.membershipRole in {"admin", "moderator"} ==> b
    ensures b ==> userRole == Some("admin") || (group.Some? && group.value.membershipRole in {"admin", "moderator"})
  {
    var isGroupModerator := group.Some? && (group.value.membershipRole == "admin" || group.value.membershipRole == "moderator");
    var isPlatformAdmin := userRole == Some("admin");
    isGroupModerator || isPlatformAdmin
  }

  const GrayClass: string := "bg-gray-100 text-gray-800"

  /** `getGroupTypeClass` (case-sensitive). */
  function GroupTypeClass(groupType: string): (r: string)
    ensures r == GrayClass <==> groupType !in {"Public", "Private", "Secret"}
  {
    match groupType
    case "Public" => "bg-green-100 text-green-800"
    case "Private" => "bg-yellow-100 text-yellow-800"
    case "Secret" => "bg-red-100 text-red-800"
    case _ => GrayClass
  }

  /** `getUrgencyClass`: "low" shares the gray class with unknown levels. */
  function UrgencyClass(urgency: string): (r: string)
    ensures r == GrayClass <==> urgency !in {"urgent", "high", "medium"}
  {
    match urgency
    case "urgent" => "bg-red-100 text-red-800"
    case "high" => "bg-orange-100 text-orange-800"
    case "medium" => "bg-yellow-100 text-yellow-800"
    case _ => GrayClass
  }

  class GroupDetailComponent {
    var group: Option<Group>
    var posts: seq<GroupPost>
    var initialPostsLoading: bool
    var loadingMorePosts: bool
    var currentPage: int
    var totalPages: int
    var hasMorePosts: bool
    var postTypeFilter: string
    var sortBy: string
    /** Requests sent to the server, oldest first. */
    var requests: seq<Request>

    /** At most one posts request is in flight, so the two loading flags are
        never both set. */
    predicate Valid()
      reads this
    {
      !(initialPostsLoading && loadingMorePosts)
    }

    constructor()
      ensures Valid()
      ensures group.None? && posts == [] && !initialPostsLoading && !loadingMorePosts
      ensures currentPage == 1 && totalPages == 1 && hasMorePosts
      ensures postTypeFilter == "" && sortBy == "recent" && requests == []
    {
      group := None;
      posts := [];
      initialPostsLoading := false;
      loadingMorePosts := false;
      currentPage := 1;
      totalPages := 1;
      hasMorePosts := true;
      postTypeFilter := "";
      sortBy := "recent";
      requests := [];
    }

    /** Whether `loadPosts(page, isInitial)` sends a request. */
    predicate MayLoad(page: int, isInitial: bool)
      reads this
    {
      group.Some? && !loadingMorePosts && !initialPostsLoading
      && (isInitial || (hasMorePosts && page <= totalPages))
    }

    /** `loadPosts(page, isInitial)` up to sending the request. */
    method LoadPosts(page: int, isInitial: bool)
      requires Valid()
      modifies this`initialPostsLoading, this`loadingMorePosts, this`requests
      ensures Valid()
      ensures !old(MayLoad(page, isInitial)) ==>
        initialPostsLoading == old(initialPostsLoading) && loadingMorePosts == old(loadingMorePosts)
        && requests == old(requests)
      ensures old(MayLoad(page, isInitial)) ==>
        && initialPostsLoading == isInitial && loadingMorePosts == !isInitial
        && requests == old(requests) + [PostsRequest(group.value.id, page, PostsPerPage,
             if postTypeFilter != "" then Some(postTypeFilter) else None, sortBy)]
    {
      if group.None? {
        return;
      }
      if loadingMorePosts || initialPostsLoading {
        return;
      }
      if !isInitial && (!hasMorePosts || page > totalPages) {
        return;
      }
      if isInitial {
        initialPostsLoading := true;
      } else {
        loadingMorePosts := true;
      }
      var postType := if postTypeFilter != "" then Some(postTypeFilter) else None;
      requests := requests + [PostsRequest(group.value.id, page, PostsPerPage, postType, sortBy)];
    }

    /** The response to `loadPosts(page, isInitial)`: a first load or page 1
        replaces the list, any other page is appended. */
    method OnPostsResponse(page: int, isInitial: bool, newPosts: seq<GroupPost>, responseTotalPages: int,
                           responseHasNextPage: bool)
      modifies this`posts, this`currentPage, this`totalPages, this`hasMorePosts,
               this`initialPostsLoading, this`loadingMorePosts
      ensures Valid() && !initialPostsLoading && !loadingMorePosts
      ensures isInitial || page == 1 ==> posts == FreshPosts(newPosts) && currentPage == 1
      ensures !(isInitial || page == 1) ==> posts == old(posts) + FreshPosts(newPosts) && currentPage == page
      ensures totalPages == responseTotalPages && hasMorePosts == responseHasNextPage
    {
      var loaded := FreshPosts(newPosts);
      if isInitial || page == 1 {
        posts := loaded;
        currentPage := 1;
      } else {
        posts := posts + loaded;
        currentPage := page;
      }
      totalPages := responseTotalPages;
      hasMorePosts := responseHasNextPage;
      initialPostsLoading := false;
      loadingMorePosts := false;
    }

    /** A failed posts request clears both flags and keeps the posts. */
    method OnPostsError()
      modifies this`initialPostsLoading, this`loadingMorePosts
      ensures Valid() && !initialPostsLoading && !loadingMorePosts
    {
      initialPostsLoading := false;
      loadingMorePosts := false;
    }

    /** `onFilterChange`: back to the first page, reloaded from scratch. */
    method OnFilterChange()
      requires Valid()
      modifies this`currentPage, this`hasMorePosts, this`initialPostsLoading, this`loadingMorePosts, this`requests
      ensures Valid()
      ensures currentPage == 1 && hasMorePosts
      ensures old(MayLoad(1, true)) ==>
        && initialPostsLoading && !loadingMorePosts
        && requests == old(requests) + [PostsRequest(group.value.id, 1, PostsPerPage,
             if postTypeFilter != "" then Some(postTypeFilter) else None, sortBy)]
      ensures !old(MayLoad(1, true)) ==>
        && requests == old(requests)
        && initialPostsLoading == old(initialPostsLoading) && loadingMorePosts == old(loadingMorePosts)
    {
      currentPage := 1;
      hasMorePosts := true;
      LoadPosts(1, true);
    }

    /** `toggleComments` on the post at position `k`. */
    method ToggleComments(k: nat)
      requires k < |posts|
      modifies this`posts
      ensures posts == old(posts)[k := old(posts)[k].(showComments := !old(posts)[k].showComments)]
    {
      posts := posts[k := posts[k].(showComments := !posts[k].showComments)];
    }

    /** `addComment` on the post at position `k` up to sending the request; the
        text is sent as typed, only the blank check trims it. */
    method AddComment(k: nat)
      requires k < |posts|
      modifies this`requests
      ensures IsBlank(posts[k].newComment) ==> requests == old(requests)
      ensures !IsBlank(posts[k].newComment) ==>
        requests == old(requests) + [CommentRequest(posts[k].id, posts[k].newComment)]
    {
      if IsBlank(posts[k].newComment) {
        return;
      }
      requests := requests + [CommentRequest(posts[k].id, posts[k].newComment)];
    }

    /** The server accepted the comment on the post at position `k`. */
    method OnCommentAdded(k: nat, c: PostComment)
      requires k < |posts|
      modifies this`posts
      ensures posts == old(posts)[k := WithComment(old(posts)[k], c)]
    {
      posts := posts[k := WithComment(posts[k], c)];
    }
  }
}
