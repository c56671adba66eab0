/** The post service's paginated read: every post of a page gets a loadable media
    URL, relative to the page's own origin. */
module PostCreationService {

  import opened JsText
  import opened MediaUrls

  /** A post as the paginated endpoint returns it; `rest` stands for the fields
      the service copies without looking at them. */
  datatype PagedPost<R> = PagedPost(postId: string, mediaUrl: string, rest: R)

  /** A page: its posts and the response's other fields (`meta`), copied as they are. */
  datatype PostsPage<R, M> = PostsPage(posts: seq<PagedPost<R>>, meta: M)

  function WithFullMediaUrls<R>(posts: seq<PagedPost<R>>): (r: seq<PagedPost<R>>)
    ensures |r| == |posts|
    ensures forall k :: 0 <= k < |posts| ==> r[k] == posts[k].(mediaUrl := RelativeMediaUrl(posts[k].mediaUrl))
  {
    if posts == [] then []
    else [posts[0].(mediaUrl := RelativeMediaUrl(posts[0].mediaUrl))] + WithFullMediaUrls(posts[1..])
  }

  /** The mapping `getPaginatedPosts` applies to a response. */
  function PaginatedPosts<R, M>(response: PostsPage<R, M>): (r: PostsPage<R, M>)
    ensures r.meta == response.meta
    ensures |r.posts| == |response.posts|
    ensures forall k :: 0 <= k < |r.posts| ==>
      && r.posts[k].postId == response.posts[k].postId
      && r.posts[k].rest == response.posts[k].rest
      && r.posts[k].mediaUrl == RelativeMediaUrl(response.posts[k].mediaUrl)
  {
    response.(posts := WithFullMediaUrls(response.posts))
  }

  /** Mapping an already mapped page changes nothing. */
  lemma PaginatedPostsIdempotent<R, M>(response: PostsPage<R, M>)
    ensures PaginatedPosts(PaginatedPosts(response)) == PaginatedPosts(response)
  {
    var once := PaginatedPosts(response);
    var twice := PaginatedPosts(once);
    forall k | 0 <= k < |once.posts|
      ensures twice.posts[k] == once.posts[k]
    {
      RelativeMediaUrlIdempotent(response.posts[k].mediaUrl);
    }
  }

  /** Every mapped media URL is empty, absolute, or under `/uploads`. */
  lemma PaginatedMediaUrlsLoadable<R, M>(response: PostsPage<R, M>, k: nat)
    requires k < |response.posts|
    ensures var url := PaginatedPosts(response).posts[k].mediaUrl;
      url == "" || StartsWith(url, "http") || StartsWith(url, "/uploads")
  {
  }
}
